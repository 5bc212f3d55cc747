/** The shopping cart of one user: an ordered list of (product, quantity) lines
    and the four operations that change it. */
module CartController {
  import opened Common

  /** One line of a cart. */
  datatype Line = Line(productId: ProductId, quantity: int)

  /** What a cart operation answers: success (200), a rejected request (400)
      or a missing cart or line (404). */
  datatype Reply = Ok | BadRequest | NotFound

  /** At most one line per product. */
  predicate UniqueProducts(s: seq<Line>)
  {
    forall i, j :: 0 <= i < j < |s| ==> s[i].productId != s[j].productId
  }

  /** Every line has the schema's minimum quantity of one. */
  predicate AllPositive(s: seq<Line>)
  {
    forall i :: 0 <= i < |s| ==> s[i].quantity >= 1
  }

  /** The number of lines of `s` for product `p`. */
  function LinesFor(s: seq<Line>, p: ProductId): nat
  {
    if s == [] then 0 else (if s[0].productId == p then 1 else 0) + LinesFor(s[1..], p)
  }

  /** The index of the first line for `p`, or -1: the `findIndex` (and `find`) scan. */
  function IndexOf(s: seq<Line>, p: ProductId): (r: int)
    ensures -1 <= r < |s|
    ensures r >= 0 ==> s[r].productId == p && forall k :: 0 <= k < r ==> s[k].productId != p
    ensures r == -1 <==> forall k :: 0 <= k < |s| ==> s[k].productId != p
  {
    if s == [] then -1
    else if s[0].productId == p then 0
    else
      var j := IndexOf(s[1..], p);
      if j < 0 then -1 else j + 1
  }

  /** The line list after addToCart's merge-or-append step. */
  function AddLine(s: seq<Line>, p: ProductId, q: int): (r: seq<Line>)
    ensures IndexOf(s, p) >= 0 ==>
      var i := IndexOf(s, p);
      |r| == |s| && r[i] == Line(p, s[i].quantity + q)
      && forall k :: 0 <= k < |s| && k != i ==> r[k] == s[k]
    ensures IndexOf(s, p) < 0 ==> r == s + [Line(p, q)]
    ensures UniqueProducts(s) ==> UniqueProducts(r)
    ensures AllPositive(s) && q >= 1 ==> AllPositive(r)
  {
    var i := IndexOf(s, p);
    if i > -1 then s[i := Line(s[i].productId, s[i].quantity + q)] else s + [Line(p, q)]
  }

  /** The line list after updateCartItem: the first line for `p`, if any, gets quantity `q`. */
  function SetQuantity(s: seq<Line>, p: ProductId, q: int): (r: seq<Line>)
    ensures |r| == |s|
    ensures IndexOf(s, p) >= 0 ==> r[IndexOf(s, p)] == Line(p, q)
    ensures forall k :: 0 <= k < |s| && k != IndexOf(s, p) ==> r[k] == s[k]
    ensures UniqueProducts(s) ==> UniqueProducts(r)
    ensures AllPositive(s) && q >= 1 ==> AllPositive(r)
  {
    var i := IndexOf(s, p);
    if i < 0 then s else s[i := s[i].(quantity := q)]
  }

  /** The line list after removeCartItem: the lines whose product is not `p`, in order. */
  function RemoveLines(s: seq<Line>, p: ProductId): (r: seq<Line>)
    ensures |r| <= |s|
    ensures forall k :: 0 <= k < |r| ==> r[k].productId != p
  {
    if s == [] then []
    else if s[0].productId == p then RemoveLines(s[1..], p)
    else [s[0]] + RemoveLines(s[1..], p)
  }

  /** Removing distributes over concatenation, so the kept lines stay in their order. */
  lemma {:induction false} RemoveLinesAppend(a: seq<Line>, b: seq<Line>, p: ProductId)
    ensures RemoveLines(a + b, p) == RemoveLines(a, p) + RemoveLines(b, p)
  {
    if a == [] {
      assert a + b == b;
    } else {
      var ab := a + b;
      assert ab[0] == a[0] && ab[1..] == a[1..] + b;
      RemoveLinesAppend(a[1..], b, p);
      var ra, rb := RemoveLines(a[1..], p), RemoveLines(b, p);
      if a[0].productId != p {
        assert RemoveLines(ab, p) == [a[0]] + (ra + rb);
        assert RemoveLines(a, p) == [a[0]] + ra;
        assert [a[0]] + (ra + rb) == ([a[0]] + ra) + rb;
      } else {
        assert RemoveLines(ab, p) == ra + rb;
        assert RemoveLines(a, p) == ra;
      }
    }
  }

  /** Every kept line is a line of the original list. */
  lemma {:induction false} RemoveLinesFrom(s: seq<Line>, p: ProductId)
    ensures forall x :: x in RemoveLines(s, p) ==> x in s
  {
    if s != [] {
      RemoveLinesFrom(s[1..], p);
      forall x | x in RemoveLines(s, p) ensures x in s {
        if x != s[0] {
          assert x in RemoveLines(s[1..], p);
          assert x in s[1..];
        }
      }
    }
  }

  /** Removing a product that has no line is a no-op. */
  lemma {:induction false} RemoveAbsent(s: seq<Line>, p: ProductId)
    requires IndexOf(s, p) == -1
    ensures RemoveLines(s, p) == s
  {
    if s != [] {
      assert s[0].productId != p;
      RemoveAbsent(s[1..], p);
      assert [s[0]] + s[1..] == s;
    }
  }

  /** In a cart with one line per product, removing a present product drops exactly
      that line and keeps all others in their order. */
  lemma RemovePresent(s: seq<Line>, p: ProductId)
    requires UniqueProducts(s) && IndexOf(s, p) >= 0
    ensures var i := IndexOf(s, p); RemoveLines(s, p) == s[..i] + s[i + 1..]
  {
    var i := IndexOf(s, p);
    assert s == s[..i] + ([s[i]] + s[i + 1..]);
    RemoveLinesAppend(s[..i], [s[i]] + s[i + 1..], p);
    RemoveLinesAppend([s[i]], s[i + 1..], p);
    RemoveAbsent(s[..i], p);
    assert RemoveLines([s[i]], p) == [];
    var rest := s[i + 1..];
    assert IndexOf(rest, p) == -1 by {
      forall k | 0 <= k < |rest| ensures rest[k].productId != p {
        assert rest[k] == s[i + 1 + k];
      }
    }
    RemoveAbsent(rest, p);
  }

  /** Removing keeps the cart's invariants. */
  lemma {:induction false} RemovePreservesInvariants(s: seq<Line>, p: ProductId)
    ensures UniqueProducts(s) ==> UniqueProducts(RemoveLines(s, p))
    ensures AllPositive(s) ==> AllPositive(RemoveLines(s, p))
  {
    if s != [] {
      RemovePreservesInvariants(s[1..], p);
      var t := RemoveLines(s[1..], p);
      RemoveLinesFrom(s[1..], p);
      if UniqueProducts(s) {
        assert UniqueProducts(s[1..]) by {
          forall i, j | 0 <= i < j < |s[1..]| ensures s[1..][i].productId != s[1..][j].productId {
            assert s[1..][i] == s[i + 1] && s[1..][j] == s[j + 1];
          }
        }
        forall k | 0 <= k < |t| ensures t[k].productId != s[0].productId {
          assert t[k] in t;
          var j :| 0 <= j < |s[1..]| && s[1..][j] == t[k];
          assert s[j + 1] == t[k];
        }
      }
      if AllPositive(s) {
        assert AllPositive(s[1..]) by {
          forall i | 0 <= i < |s[1..]| ensures s[1..][i].quantity >= 1 {
            assert s[1..][i] == s[i + 1];
          }
        }
      }
      if s[0].productId != p {
        assert RemoveLines(s, p) == [s[0]] + t;
      }
    }
  }

  /** One line per product means at most one line for any product. */
  lemma {:induction false} UniqueCount(s: seq<Line>, p: ProductId)
    requires UniqueProducts(s)
    ensures LinesFor(s, p) == (if IndexOf(s, p) >= 0 then 1 else 0)
  {
    if s != [] {
      assert UniqueProducts(s[1..]) by {
        forall i, j | 0 <= i < j < |s[1..]| ensures s[1..][i].productId != s[1..][j].productId {
          assert s[1..][i] == s[i + 1] && s[1..][j] == s[j + 1];
        }
      }
      UniqueCount(s[1..], p);
      if s[0].productId == p {
        assert IndexOf(s[1..], p) == -1 by {
          forall k | 0 <= k < |s[1..]| ensures s[1..][k].productId != p {
            assert s[1..][k] == s[k + 1];
          }
        }
      }
    }
  }

  /** Adding the same product twice leaves exactly one line for it, holding the sum
      of both quantities on top of what the cart already held. */
  lemma AddTwice(s: seq<Line>, p: ProductId, q1: int, q2: int)
    requires UniqueProducts(s)
    ensures var r := AddLine(AddLine(s, p, q1), p, q2);
      var before := if IndexOf(s, p) >= 0 then s[IndexOf(s, p)].quantity else 0;
      IndexOf(r, p) >= 0 && r[IndexOf(r, p)].quantity == before + q1 + q2 && LinesFor(r, p) == 1
  {
    var t := AddLine(s, p, q1);
    var r := AddLine(t, p, q2);
    if IndexOf(s, p) >= 0 {
      assert IndexOf(t, p) == IndexOf(s, p);
    } else {
      assert t[|s|] == Line(p, q1);
      assert IndexOf(t, p) == |s|;
    }
    UniqueCount(r, p);
  }

  /** A user's cart document, loaded from and saved to the store. */
  class Cart {
    const userId: UserId
    var items: seq<Line>
    var updatedAt: Time

    /** The schema's quantity minimum and the one-line-per-product rule. */
    ghost predicate Valid()
      reads this
    {
      UniqueProducts(items) && AllPositive(items)
    }

    constructor (userId: UserId, items: seq<Line>, updatedAt: Time)
      ensures this.userId == userId && this.items == items && this.updatedAt == updatedAt
    {
      this.userId := userId;
      this.items := items;
      this.updatedAt := updatedAt;
    }
  }

  /** getCart: the lines of the user's cart, or the empty placeholder when there is none.
      `cart` is the user's stored cart, null when the user has none. */
  method GetCart(cart: Cart?) returns (items: seq<Line>)
    ensures cart == null ==> items == []
    ensures cart != null ==> items == cart.items
  {
    if cart == null {
      items := [];
    } else {
      items := cart.items;
    }
  }

  /** addToCart: reject a missing product or a quantity below one; otherwise create the
      cart with the single line, or merge into the product's line, or append a new line. */
  method AddToCart(cart: Cart?, user: UserId, productId: Option<ProductId>, quantity: int, now: Time)
    returns (reply: Reply, saved: Cart?)
    requires cart != null ==> cart.userId == user
    modifies cart
    ensures reply == (if Blank(productId) || quantity < 1 then BadRequest else Ok)
    ensures reply == BadRequest ==> saved == null
    ensures reply == BadRequest && cart != null ==>
      cart.items == old(cart.items) && cart.updatedAt == old(cart.updatedAt)
    ensures reply == Ok && cart == null ==>
      saved != null && fresh(saved) && saved.userId == user
      && saved.items == [Line(productId.value, quantity)] && saved.updatedAt == now
    ensures reply == Ok && cart != null ==>
      saved == cart && cart.items == AddLine(old(cart.items), productId.value, quantity)
      && cart.updatedAt == now
    ensures reply == Ok && (cart == null || old(cart.Valid())) ==> saved != null && saved.Valid()
  {
    if Blank(productId) || quantity < 1 {
      return BadRequest, null;
    }
    var p := productId.value;
    if cart == null {
      saved := new Cart(user, [Line(p, quantity)], now);
    } else {
      var itemIndex := IndexOf(cart.items, p);
      if itemIndex > -1 {
        cart.items := cart.items[itemIndex := cart.items[itemIndex].(quantity := cart.items[itemIndex].quantity + quantity)];
      } else {
        cart.items := cart.items + [Line(p, quantity)];
      }
      cart.updatedAt := now;
      saved := cart;
    }
    reply := Ok;
  }

  /** updateCartItem: reject a missing or non-positive quantity, answer NotFound when there
      is no cart or no line for the product, otherwise overwrite that line's quantity. */
  method UpdateCartItem(cart: Cart?, productId: ProductId, quantity: Option<int>, now: Time)
    returns (reply: Reply)
    modifies cart
    ensures reply == (if quantity.None? || quantity.value < 1 then BadRequest
                      else if cart == null || IndexOf(old(cart.items), productId) < 0 then NotFound
                      else Ok)
    ensures cart != null && reply == Ok ==>
      cart.items == SetQuantity(old(cart.items), productId, quantity.value) && cart.updatedAt == now
    ensures cart != null && reply != Ok ==>
      cart.items == old(cart.items) && cart.updatedAt == old(cart.updatedAt)
    ensures cart != null && old(cart.Valid()) ==> cart.Valid()
  {
    if quantity.None? || quantity.value < 1 {
      return BadRequest;
    }
    if cart == null {
      return NotFound;
    }
    var i := IndexOf(cart.items, productId);
    if i < 0 {
      return NotFound;
    }
    cart.items := cart.items[i := cart.items[i].(quantity := quantity.value)];
    cart.updatedAt := now;
    reply := Ok;
  }

  /** removeCartItem: NotFound without a cart; otherwise keep the lines of other products.
      Removing a product the cart does not hold still succeeds. */
  method RemoveCartItem(cart: Cart?, productId: ProductId, now: Time) returns (reply: Reply)
    modifies cart
    ensures reply == (if cart == null then NotFound else Ok)
    ensures cart != null ==>
      cart.items == RemoveLines(old(cart.items), productId) && cart.updatedAt == now
    ensures cart != null && old(cart.Valid()) ==> cart.Valid()
  {
    if cart == null {
      return NotFound;
    }
    RemovePreservesInvariants(cart.items, productId);
    var newItems := RemoveLines(cart.items, productId);
    cart.items := newItems;
    cart.updatedAt := now;
    reply := Ok;
  }

  /** clearCart: NotFound without a cart; otherwise empty the line list. */
  method ClearCart(cart: Cart?, now: Time) returns (reply: Reply)
    modifies cart
    ensures reply == (if cart == null then NotFound else Ok)
    ensures cart != null ==> cart.items == [] && cart.updatedAt == now && cart.Valid()
  {
    if cart == null {
      return NotFound;
    }
    cart.items := [];
    cart.updatedAt := now;
    reply := Ok;
  }

  /** A client of the operations above, a typical session: add P1 x2, add P1 x3,
      remove an absent P2, clear, then a refused add with an empty product id. */
  method CartWalkthrough(user: UserId, t0: Time, t1: Time, t2: Time, t3: Time)
  {
    var reply, cart := AddToCart(null, user, Some("P1"), 2, t0);
    assert reply == Ok && cart.items == [Line("P1", 2)];
    var again;
    reply, again := AddToCart(cart, user, Some("P1"), 3, t1);
    assert again == cart && cart.items == [Line("P1", 5)];
    reply := RemoveCartItem(cart, "P2", t2);
    assert reply == Ok && cart.items == [Line("P1", 5)];
    reply := ClearCart(cart, t3);
    assert cart.items == [];
    reply, again := AddToCart(cart, user, Some(""), 1, t3);
    assert reply == BadRequest && cart.items == [];
  }
}
