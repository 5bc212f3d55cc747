/** The order listings: a user's order history and the admin's list of every order,
    both newest first by placing time. */
module OrderListing {
  import opened Common
  import opened OrderController

  /** A listed order with its id. */
  type Entry = (OrderId, Order)

  /** `r` lists, from `orders`, exactly the orders whose ids are in `ks`, each once,
      with each order placed no earlier than the ones after it. */
  ghost predicate ListsNewestFirst(orders: map<OrderId, Order>, ks: set<OrderId>, r: seq<Entry>)
  {
    && (forall i :: 0 <= i < |r| ==> r[i].0 in ks && r[i].0 in orders && r[i].1 == orders[r[i].0])
    && (forall id :: id in ks ==> exists i :: 0 <= i < |r| && r[i].0 == id)
    && (forall i, j :: 0 <= i < j < |r| ==> r[i].0 != r[j].0)
    && (forall i, j :: 0 <= i < j < |r| ==> r[i].1.placedAt >= r[j].1.placedAt)
  }

  /** Any non-empty set of stored orders has a most recently placed one. */
  lemma {:induction false} LatestExists(orders: map<OrderId, Order>, ks: set<OrderId>)
    requires ks != {} && ks <= orders.Keys
    ensures exists k :: k in ks && forall j :: j in ks ==> orders[j].placedAt <= orders[k].placedAt
    decreases ks
  {
    var x :| x in ks;
    if ks != {x} {
      var rest := ks - {x};
      LatestExists(orders, rest);
      var m :| m in rest && forall j :: j in rest ==> orders[j].placedAt <= orders[m].placedAt;
      if orders[x].placedAt > orders[m].placedAt {
        assert forall j :: j in ks ==> orders[j].placedAt <= orders[x].placedAt;
      } else {
        assert forall j :: j in ks ==> orders[j].placedAt <= orders[m].placedAt;
      }
    }
  }

  /** The ids of `ks`, most recently placed first; the order among equal placing times
      is left open, as the store's sort leaves it. */
  ghost function NewestIds(orders: map<OrderId, Order>, ks: set<OrderId>): (ids: seq<OrderId>)
    requires ks <= orders.Keys
    ensures forall i :: 0 <= i < |ids| ==> ids[i] in ks
    ensures forall k :: k in ks ==> k in ids
    ensures forall i, j :: 0 <= i < j < |ids| ==> ids[i] != ids[j]
    ensures forall i, j :: 0 <= i < j < |ids| ==> orders[ids[i]].placedAt >= orders[ids[j]].placedAt
    decreases ks
  {
    if ks == {} then []
    else
      LatestExists(orders, ks);
      var k :| k in ks && forall j :: j in ks ==> orders[j].placedAt <= orders[k].placedAt;
      [k] + NewestIds(orders, ks - {k})
  }

  /** The stored orders with ids `ks`, newest first. */
  ghost function Listing(orders: map<OrderId, Order>, ks: set<OrderId>): (r: seq<Entry>)
    requires ks <= orders.Keys
    ensures ListsNewestFirst(orders, ks, r)
  {
    var ids := NewestIds(orders, ks);
    var r := seq(|ids|, i requires 0 <= i < |ids| => (ids[i], orders[ids[i]]));
    assert forall id :: id in ks ==> exists i :: 0 <= i < |r| && r[i].0 == id by {
      forall id | id in ks ensures exists i :: 0 <= i < |r| && r[i].0 == id {
        var i :| 0 <= i < |ids| && ids[i] == id;
        assert r[i].0 == id;
      }
    }
    r
  }

  /** The ids of the caller's own orders. */
  ghost function OwnIds(orders: map<OrderId, Order>, caller: Caller): set<OrderId>
  {
    set id | id in orders && orders[id].userId == caller.id
  }

  /** getUserOrders: exactly the caller's orders, newest first, whatever the caller's role. */
  ghost function UserOrders(orders: map<OrderId, Order>, caller: Caller): (r: seq<Entry>)
    ensures ListsNewestFirst(orders, OwnIds(orders, caller), r)
    ensures forall i :: 0 <= i < |r| ==> r[i].1.userId == caller.id
  {
    Listing(orders, OwnIds(orders, caller))
  }

  /** getAllOrders: Forbidden to anyone but an admin; for an admin every order, newest first. */
  ghost function AllOrders(orders: map<OrderId, Order>, caller: Caller): (r: Result<seq<Entry>>)
    ensures r == Forbidden <==> !caller.IsAdmin()
    ensures r.Ok? <==> caller.IsAdmin()
    ensures r.Ok? ==> ListsNewestFirst(orders, orders.Keys, r.value)
  {
    if !caller.IsAdmin() then Forbidden else Ok(Listing(orders, orders.Keys))
  }

  /** An admin's full listing holds every order of every user's history. */
  lemma UserOrdersInAllOrders(orders: map<OrderId, Order>, caller: Caller, admin: Caller, i: nat)
    requires admin.IsAdmin() && i < |UserOrders(orders, caller)|
    ensures UserOrders(orders, caller)[i] in AllOrders(orders, admin).value
  {
  }
}
