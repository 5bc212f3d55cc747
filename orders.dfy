/** Orders: creation-time validation, the status state machine driven by admins,
    the owner's cancel, and the read access rules. */
module OrderController {
  import opened Common

  type OrderId = string

  /** The five values of the order schema's status enum. */
  datatype OrderStatus = Pending | Processing | Shipped | Delivered | Cancelled
  {
    /** The status as it is stored and sent. */
    function Name(): string
    {
      match this
      case Pending => "pending"
      case Processing => "processing"
      case Shipped => "shipped"
      case Delivered => "delivered"
      case Cancelled => "cancelled"
    }
  }

  /** The `allowedStatuses.includes(status)` test, as a parse of the requested name. */
  function ParseStatus(s: Option<string>): (r: Option<OrderStatus>)
    ensures r.Some? ==> s == Some(r.value.Name())
  {
    match s
    case None => None
    case Some(name) =>
      if name == "pending" then Some(Pending)
      else if name == "processing" then Some(Processing)
      else if name == "shipped" then Some(Shipped)
      else if name == "delivered" then Some(Delivered)
      else if name == "cancelled" then Some(Cancelled)
      else None
  }

  /** Every status name is accepted, and parses back to its status. */
  lemma ParseName(st: OrderStatus)
    ensures ParseStatus(Some(st.Name())) == Some(st)
  {
  }

  /** The user account roles. */
  datatype Role = User | Admin

  /** The authenticated caller of a request. */
  datatype Caller = Caller(id: UserId, role: Role)
  {
    predicate IsAdmin() { role == Admin }
  }

  datatype OrderItem = OrderItem(productId: ProductId, quantity: int)

  datatype Address = Address(name: string, phone: string, addressLine: string,
                             city: string, postalCode: string, country: string)

  /** A stored order: a snapshot of what was ordered, with its status. */
  datatype Order = Order(userId: UserId, items: seq<OrderItem>, status: OrderStatus,
                         totalAmount: int, shippingAddress: Option<Address>,
                         paymentMethod: string, placedAt: Time, deliveredAt: Option<Time>)

  /** The body of a create request; every field may be missing. */
  datatype OrderRequest = OrderRequest(items: Option<seq<OrderItem>>, totalAmount: Option<int>,
                                       shippingAddress: Option<Address>, paymentMethod: Option<string>)

  /** The answer of an order operation: the order (200/201), or 403, 400 or 404. */
  datatype Result<T> = Ok(value: T) | Forbidden | BadRequest | NotFound

  /** A delivery date is recorded exactly when the order is delivered. */
  predicate Consistent(o: Order)
  {
    o.deliveredAt.Some? <==> o.status == Delivered
  }

  predicate AllConsistent(orders: map<OrderId, Order>)
  {
    forall id :: id in orders ==> Consistent(orders[id])
  }

  /** The store after an operation: a successful one saves its order under `id`. */
  function Saved(orders: map<OrderId, Order>, id: OrderId, r: Result<Order>): map<OrderId, Order>
  {
    if r.Ok? then orders[id := r.value] else orders
  }

  /** createOrder: items must be present and non-empty, the total present and non-zero and
      the payment method present and non-empty; a new order is pending, placed now and
      not delivered. */
  function NewOrder(caller: Caller, req: OrderRequest, now: Time): (r: Result<Order>)
    ensures r.Ok? || r == BadRequest
    ensures r.Ok? <==> req.items.Some? && |req.items.value| > 0
                       && req.totalAmount.Some? && req.totalAmount.value != 0
                       && !Blank(req.paymentMethod)
    ensures r.Ok? ==> r.value.status == Pending && r.value.userId == caller.id
                      && r.value.items == req.items.value
                      && r.value.totalAmount == req.totalAmount.value
                      && r.value.shippingAddress == req.shippingAddress
                      && r.value.paymentMethod == req.paymentMethod.value
                      && r.value.placedAt == now && Consistent(r.value)
  {
    if req.items.None? || |req.items.value| == 0 then BadRequest
    else if req.totalAmount.None? || req.totalAmount.value == 0 || Blank(req.paymentMethod) then BadRequest
    else Ok(Order(caller.id, req.items.value, Pending, req.totalAmount.value, req.shippingAddress,
                  req.paymentMethod.value, now, None))
  }

  /** A negative total passes validation. */
  lemma NegativeTotalAccepted(caller: Caller, items: seq<OrderItem>, total: int, pay: string, now: Time)
    requires |items| > 0 && total < 0 && pay != ""
    ensures NewOrder(caller, OrderRequest(Some(items), Some(total), None, Some(pay)), now).Ok?
  {
  }

  /** updateOrderStatus: role first, then the requested status, then the order's existence;
      any status may follow any other, and the delivery date is stamped on `delivered`
      and cleared otherwise. */
  function StatusUpdate(orders: map<OrderId, Order>, caller: Caller, id: OrderId,
                        status: Option<string>, now: Time): (r: Result<Order>)
    ensures !caller.IsAdmin() ==> r == Forbidden
    ensures caller.IsAdmin() && ParseStatus(status).None? ==> r == BadRequest
    ensures caller.IsAdmin() && ParseStatus(status).Some? && id !in orders ==> r == NotFound
    ensures r.Ok? <==> caller.IsAdmin() && ParseStatus(status).Some? && id in orders
    ensures r.Ok? ==>
      var st := ParseStatus(status).value;
      r.value.status == st
      && (r.value.deliveredAt == Some(now) <==> st == Delivered)
      && (st != Delivered ==> r.value.deliveredAt == None)
      && r.value == orders[id].(status := st, deliveredAt := r.value.deliveredAt)
      && Consistent(r.value)
  {
    if !caller.IsAdmin() then Forbidden
    else
      match ParseStatus(status)
      case None => BadRequest
      case Some(st) =>
        if id !in orders then NotFound
        else Ok(orders[id].(status := st, deliveredAt := if st == Delivered then Some(now) else None))
  }

  /** An admin can move an existing order from whatever status it has to any status. */
  lemma AnyToAny(orders: map<OrderId, Order>, admin: Caller, id: OrderId,
                 from: OrderStatus, to: OrderStatus, now: Time)
    requires admin.IsAdmin() && id in orders && orders[id].status == from
    ensures StatusUpdate(orders, admin, id, Some(to.Name()), now).Ok?
    ensures StatusUpdate(orders, admin, id, Some(to.Name()), now).value.status == to
  {
  }

  /** A status is one the owner may still cancel from. */
  predicate Cancellable(st: OrderStatus)
  {
    st == Pending || st == Processing
  }

  /** cancelOrder: existence first, then ownership (admins have no bypass), then the
      current status; a cancel changes the status only. */
  function CancelOutcome(orders: map<OrderId, Order>, caller: Caller, id: OrderId): (r: Result<Order>)
    ensures id !in orders ==> r == NotFound
    ensures id in orders && orders[id].userId != caller.id ==> r == Forbidden
    ensures id in orders && orders[id].userId == caller.id && !Cancellable(orders[id].status) ==> r == BadRequest
    ensures r.Ok? <==> id in orders && orders[id].userId == caller.id && Cancellable(orders[id].status)
    ensures r.Ok? ==> r.value.status == Cancelled && r.value.deliveredAt == orders[id].deliveredAt
                      && r.value == orders[id].(status := Cancelled)
  {
    if id !in orders then NotFound
    else if orders[id].userId != caller.id then Forbidden
    else if !Cancellable(orders[id].status) then BadRequest
    else Ok(orders[id].(status := Cancelled))
  }

  /** Once cancelled, an order cannot be cancelled again. */
  lemma CancelTwice(orders: map<OrderId, Order>, caller: Caller, id: OrderId)
    requires CancelOutcome(orders, caller, id).Ok?
    ensures CancelOutcome(Saved(orders, id, CancelOutcome(orders, caller, id)), caller, id) == BadRequest
  {
  }

  /** Creating, updating and cancelling keep every order's delivery date consistent
      with its status. */
  lemma OperationsKeepConsistent(orders: map<OrderId, Order>, caller: Caller, id: OrderId,
                                 req: OrderRequest, status: Option<string>, now: Time)
    requires AllConsistent(orders)
    ensures AllConsistent(Saved(orders, id, NewOrder(caller, req, now)))
    ensures AllConsistent(Saved(orders, id, StatusUpdate(orders, caller, id, status, now)))
    ensures AllConsistent(Saved(orders, id, CancelOutcome(orders, caller, id)))
  {
  }

  /** getOrderById: NotFound when absent, otherwise the order for its owner or an admin
      and Forbidden for anybody else. */
  function GetOrderById(orders: map<OrderId, Order>, caller: Caller, id: OrderId): (r: Result<Order>)
    ensures r == NotFound <==> id !in orders
    ensures r == Forbidden <==> id in orders && !caller.IsAdmin() && orders[id].userId != caller.id
    ensures r.Ok? <==> id in orders && (caller.IsAdmin() || orders[id].userId == caller.id)
    ensures r.Ok? ==> r.value == orders[id]
  {
    if id !in orders then NotFound
    else if !caller.IsAdmin() && orders[id].userId != caller.id then Forbidden
    else Ok(orders[id])
  }

  /** The order collection. */
  class OrderStore {
    var orders: map<OrderId, Order>

    ghost predicate Valid()
      reads this
    {
      AllConsistent(orders)
    }

    constructor ()
      ensures orders == map[] && Valid()
    {
      orders := map[];
    }

    /** createOrder: validate, then insert under the freshly generated `newId`. */
    method CreateOrder(caller: Caller, req: OrderRequest, newId: OrderId, now: Time)
      returns (r: Result<Order>)
      requires newId !in orders
      modifies this
      ensures r == NewOrder(caller, req, now)
      ensures orders == Saved(old(orders), newId, r)
      ensures old(Valid()) ==> Valid()
    {
      r := NewOrder(caller, req, now);
      if r.Ok? {
        orders := orders[newId := r.value];
      }
    }

    /** updateOrderStatus: load the order, set its status and delivery date, save it. */
    method UpdateOrderStatus(caller: Caller, id: OrderId, status: Option<string>, now: Time)
      returns (r: Result<Order>)
      modifies this
      ensures r == StatusUpdate(old(orders), caller, id, status, now)
      ensures orders == Saved(old(orders), id, r)
      ensures old(Valid()) ==> Valid()
    {
      if !caller.IsAdmin() {
        return Forbidden;
      }
      var st := ParseStatus(status);
      if st.None? {
        return BadRequest;
      }
      if id !in orders {
        return NotFound;
      }
      var order := orders[id];
      order := order.(status := st.value);
      if st.value == Delivered {
        order := order.(deliveredAt := Some(now));
      } else {
        order := order.(deliveredAt := None);
      }
      orders := orders[id := order];
      r := Ok(order);
    }

    /** cancelOrder: load the order, check owner and status, set it to cancelled, save it. */
    method CancelOrder(caller: Caller, id: OrderId) returns (r: Result<Order>)
      modifies this
      ensures r == CancelOutcome(old(orders), caller, id)
      ensures orders == Saved(old(orders), id, r)
      ensures old(Valid()) ==> Valid()
    {
      if id !in orders {
        return NotFound;
      }
      var order := orders[id];
      if order.userId != caller.id {
        return Forbidden;
      }
      if !(order.status == Pending || order.status == Processing) {
        return BadRequest;
      }
      order := order.(status := Cancelled);
      orders := orders[id := order];
      r := Ok(order);
    }
  }

  /** A client of the store, a typical order life: create, a refused cancel by a non-owner,
      cancel, a refused second cancel, then statuses shipped, delivered, processing. */
  method OrderWalkthrough(owner: Caller, admin: Caller, req: OrderRequest, id: OrderId, t0: Time, t1: Time)
    requires admin.IsAdmin() && !owner.IsAdmin() && owner.id != admin.id
    requires req.items.Some? && |req.items.value| > 0 && req.totalAmount == Some(100)
    requires req.paymentMethod == Some("card")
  {
    var store := new OrderStore();
    var r := store.CreateOrder(owner, req, id, t0);
    assert r.Ok? && r.value.status == Pending;
    r := store.CancelOrder(admin, id);
    assert r == Forbidden;
    r := store.CancelOrder(owner, id);
    assert r.Ok? && r.value.status == Cancelled;
    r := store.CancelOrder(owner, id);
    assert r == BadRequest;
    ParseName(Shipped);
    ParseName(Delivered);
    ParseName(Processing);
    r := store.UpdateOrderStatus(owner, id, Some("shipped"), t1);
    assert r == Forbidden;
    r := store.UpdateOrderStatus(admin, id, Some("shipped"), t1);
    r := store.UpdateOrderStatus(admin, id, Some("delivered"), t1);
    assert r.Ok? && r.value.deliveredAt == Some(t1);
    r := store.UpdateOrderStatus(admin, id, Some("processing"), t1);
    assert r.Ok? && r.value.deliveredAt == None;
    r := store.UpdateOrderStatus(admin, id, Some("refunded"), t1);
    assert r == BadRequest;
  }
}
