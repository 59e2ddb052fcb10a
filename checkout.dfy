/** The checkout handlers of routes/checkRoutes.js: a checkout is created
    unpaid, becomes paid on the exact token "paid", and is finalized at most
    once, which creates the order and clears the user's cart. */
module Checkouts {
  import opened Common
  import CartStore

  /** A checkout line as the client sends it. Older clients name the
      product reference `product` instead of `productId`, and may leave out
      the quantity. */
  datatype CheckoutItem = CheckoutItem(productId: Option<string>, product: Option<string>,
                                       name: string, image: string, price: int,
                                       quantity: Option<int>, size: string, color: string)

  datatype OrderItem = OrderItem(productId: Option<string>, name: string, image: string, price: int,
                                 quantity: int, size: string, color: string)

  /** A stored checkout. Shipping address and payment details are opaque
      payloads, kept as given. */
  datatype Checkout = Checkout(id: nat, user: string, checkoutItems: seq<CheckoutItem>,
                               shippingAddress: string, paymentMethod: string, totalPrice: int,
                               paymentStatus: string, isPaid: bool, paidAt: Option<int>,
                               paymentDetails: Option<string>, isFinalized: bool, finalizedAt: Option<int>)

  datatype Order = Order(user: string, orderItems: seq<OrderItem>, shippingAddress: string,
                         paymentMethod: string, totalPrice: int, isPaid: bool, paidAt: Option<int>,
                         paymentStatus: string, status: string, paymentDetails: Option<string>)

  /** What a handler answers: 200, 201, 404 or 400 with its message. */
  datatype Outcome<T> = Ok(value: T) | Created(value: T) | NotFound(message: string) | BadRequest(message: string)

  /** The checkout POST /api/checkout stores: unpaid, pending, not finalized. */
  function NewCheckout(id: nat, user: string, items: seq<CheckoutItem>, shippingAddress: string,
                       paymentMethod: string, totalPrice: int): (c: Checkout)
    ensures !c.isPaid && c.paymentStatus == "Pending" && !c.isFinalized
    ensures c.paidAt.None? && c.paymentDetails.None? && c.finalizedAt.None?
    ensures c.id == id && c.user == user && c.checkoutItems == items
    ensures c.shippingAddress == shippingAddress && c.paymentMethod == paymentMethod && c.totalPrice == totalPrice
    ensures Refusal(map[id := c], id) == Some(BadRequest("Checkout not paid"))
  {
    Checkout(id, user, items, shippingAddress, paymentMethod, totalPrice,
             "Pending", false, None, None, false, None)
  }

  /** The order line made from a checkout line: the product reference falls
      back to the legacy field when `productId` is missing or empty, and the
      quantity falls back to 1 when it is missing or 0; the rest is copied. */
  function ToOrderItem(it: CheckoutItem): (o: OrderItem)
    ensures Given(it.productId) ==> o.productId == it.productId
    ensures !Given(it.productId) ==> o.productId == it.product
    ensures it.quantity.Some? && it.quantity.value != 0 ==> o.quantity == it.quantity.value
    ensures it.quantity.None? || it.quantity == Some(0) ==> o.quantity == 1
    ensures o.name == it.name && o.image == it.image && o.price == it.price
    ensures o.size == it.size && o.color == it.color
  {
    OrderItem(if Given(it.productId) then it.productId else it.product,
              it.name, it.image, it.price,
              if it.quantity.Some? && it.quantity.value != 0 then it.quantity.value else 1,
              it.size, it.color)
  }

  /** `checkoutItems.map(...)`: one order line per checkout line, in order. */
  function ToOrderItems(items: seq<CheckoutItem>): (r: seq<OrderItem>)
    ensures |r| == |items|
    ensures forall i :: 0 <= i < |items| ==> r[i] == ToOrderItem(items[i])
    ensures forall i :: 0 <= i < |r| ==> r[i].quantity != 0
  {
    if items == [] then []
    else [ToOrderItem(items[0])] + ToOrderItems(items[1..])
  }

  /** The order finalize creates: paid, "Paid" and "Processing" whatever the
      checkout's own status label, with the user, address, method, total,
      payment time and payment details of the checkout. */
  function OrderFrom(c: Checkout): (o: Order)
    ensures o.isPaid && o.paymentStatus == "Paid" && o.status == "Processing"
    ensures o.user == c.user && o.shippingAddress == c.shippingAddress
    ensures o.paymentMethod == c.paymentMethod && o.totalPrice == c.totalPrice
    ensures o.paidAt == c.paidAt && o.paymentDetails == c.paymentDetails
    ensures o.orderItems == ToOrderItems(c.checkoutItems)
  {
    Order(c.user, ToOrderItems(c.checkoutItems), c.shippingAddress, c.paymentMethod,
          c.totalPrice, true, c.paidAt, "Paid", "Processing", c.paymentDetails)
  }

  /** The guards of finalize, in the handler's order: not found, then already
      finalized, then not paid. None means finalize goes ahead. */
  function Refusal(m: map<nat, Checkout>, id: nat): (r: Option<Outcome<Order>>)
    ensures r.None? <==> id in m && !m[id].isFinalized && m[id].isPaid
    ensures id !in m ==> r == Some(NotFound("Checkout not found"))
    ensures id in m && m[id].isFinalized ==> r == Some(BadRequest("Checkout already finalized"))
    ensures id in m && !m[id].isFinalized && !m[id].isPaid ==> r == Some(BadRequest("Checkout not paid"))
  {
    if id !in m then Some(NotFound("Checkout not found"))
    else if m[id].isFinalized then Some(BadRequest("Checkout already finalized"))
    else if !m[id].isPaid then Some(BadRequest("Checkout not paid"))
    else None
  }

  /** The ids of the finalized checkouts. */
  function Finalized(m: map<nat, Checkout>): set<nat>
  {
    set id | id in m && m[id].isFinalized
  }

  /** `o` is the order made from checkout `c`, as far as a later payment
      cannot change it: same user, items, address, method and total. */
  predicate IsOrderOf(o: Order, c: Checkout)
  {
    && o.user == c.user && o.orderItems == ToOrderItems(c.checkoutItems)
    && o.shippingAddress == c.shippingAddress && o.paymentMethod == c.paymentMethod
    && o.totalPrice == c.totalPrice
  }

  /** Ids are fresh and match their key; a checkout is paid exactly when its
      status is "paid"; and only paid checkouts are finalized. */
  ghost predicate CheckoutsOk(m: map<nat, Checkout>, nextId: nat)
  {
    forall id :: id in m ==>
      && id < nextId && m[id].id == id
      && (m[id].isPaid <==> m[id].paymentStatus == "paid")
      && (m[id].isFinalized ==> m[id].isPaid)
  }

  /** The orders correspond one to one to the finalized checkouts:
      `orderOf` gives each order's checkout id, no id twice, every
      finalized checkout has one, and each order is made from its checkout. */
  ghost predicate OrdersOk(m: map<nat, Checkout>, orders: seq<Order>, orderOf: seq<nat>)
  {
    && |orderOf| == |orders|
    && (forall a, b :: 0 <= a < b < |orderOf| ==> orderOf[a] != orderOf[b])
    && (forall j :: 0 <= j < |orderOf| ==>
          orderOf[j] in m && m[orderOf[j]].isFinalized && IsOrderOf(orders[j], m[orderOf[j]]))
    && (forall id :: id in m && m[id].isFinalized ==> id in orderOf)
  }

  ghost predicate Consistent(m: map<nat, Checkout>, nextId: nat, orders: seq<Order>, orderOf: seq<nat>)
  {
    CheckoutsOk(m, nextId) && OrdersOk(m, orders, orderOf)
  }

  /** The ids a sequence holds. */
  function Elems(s: seq<nat>): set<nat>
  {
    set x | x in s
  }

  /** A sequence without repeats holds as many distinct ids as it has positions. */
  lemma {:induction false} DistinctCount(s: seq<nat>)
    requires forall a, b :: 0 <= a < b < |s| ==> s[a] != s[b]
    ensures |Elems(s)| == |s|
  {
    if s == [] {
      assert Elems(s) == {};
    } else {
      var n := |s| - 1;
      DistinctCount(s[..n]);
      assert Elems(s) == Elems(s[..n]) + {s[n]};
      assert s[n] !in Elems(s[..n]);
    }
  }

  /** There are exactly as many orders as finalized checkouts. */
  lemma OrdersCount(m: map<nat, Checkout>, orders: seq<Order>, orderOf: seq<nat>)
    requires OrdersOk(m, orders, orderOf)
    ensures |orders| == |Finalized(m)|
  {
    assert Finalized(m) == Elems(orderOf);
    DistinctCount(orderOf);
  }

  /** Adding a checkout that is not finalized under a new id keeps the
      orders in correspondence with the finalized checkouts. */
  lemma AddOrdersOk(m: map<nat, Checkout>, orders: seq<Order>, orderOf: seq<nat>, id: nat, c: Checkout)
    requires OrdersOk(m, orders, orderOf) && id !in m && !c.isFinalized
    ensures OrdersOk(m[id := c], orders, orderOf)
  {
  }

  /** Replacing a checkout by one that agrees on being finalized and on
      everything an order copies keeps the orders in correspondence. */
  lemma ReplaceOrdersOk(m: map<nat, Checkout>, orders: seq<Order>, orderOf: seq<nat>, id: nat, c: Checkout)
    requires OrdersOk(m, orders, orderOf) && id in m
    requires c.isFinalized == m[id].isFinalized && c.user == m[id].user
    requires c.checkoutItems == m[id].checkoutItems && c.shippingAddress == m[id].shippingAddress
    requires c.paymentMethod == m[id].paymentMethod && c.totalPrice == m[id].totalPrice
    ensures OrdersOk(m[id := c], orders, orderOf)
  {
  }

  /** Recording a successful payment changes no finalized flag and keeps the
      ledger consistent. */
  lemma PayConsistent(m: map<nat, Checkout>, nextId: nat, orders: seq<Order>, orderOf: seq<nat>,
                      id: nat, now: int, details: Option<string>)
    requires id in m
    ensures var c := m[id].(isPaid := true, paymentStatus := "paid", paidAt := Some(now), paymentDetails := details);
      && Finalized(m[id := c]) == Finalized(m)
      && (Consistent(m, nextId, orders, orderOf) ==> Consistent(m[id := c], nextId, orders, orderOf))
  {
    var c := m[id].(isPaid := true, paymentStatus := "paid", paidAt := Some(now), paymentDetails := details);
    assert Finalized(m[id := c]) == Finalized(m);
    if Consistent(m, nextId, orders, orderOf) {
      ReplaceOrdersOk(m, orders, orderOf, id, c);
    }
  }

  /** Finalizing a paid, unfinalized checkout keeps ids, payment status and
      "finalized only when paid" intact. */
  lemma FinalizeCheckoutsOk(m: map<nat, Checkout>, nextId: nat, id: nat, now: int)
    requires CheckoutsOk(m, nextId) && Refusal(m, id).None?
    ensures CheckoutsOk(m[id := m[id].(isFinalized := true, finalizedAt := Some(now))], nextId)
  {
  }

  /** Finalizing a paid, unfinalized checkout and recording its order keeps
      the orders in one-to-one correspondence with the finalized checkouts. */
  lemma FinalizeOrdersOk(m: map<nat, Checkout>, orders: seq<Order>, orderOf: seq<nat>, id: nat, now: int)
    requires OrdersOk(m, orders, orderOf) && Refusal(m, id).None?
    ensures OrdersOk(m[id := m[id].(isFinalized := true, finalizedAt := Some(now))],
                     orders + [OrderFrom(m[id])], orderOf + [id])
  {
    var m' := m[id := m[id].(isFinalized := true, finalizedAt := Some(now))];
    var orders', orderOf' := orders + [OrderFrom(m[id])], orderOf + [id];
    assert forall a, b :: 0 <= a < b < |orderOf'| ==> orderOf'[a] != orderOf'[b] by {
      assert id !in orderOf;
    }
    assert forall j :: 0 <= j < |orderOf'| ==>
        orderOf'[j] in m' && m'[orderOf'[j]].isFinalized && IsOrderOf(orders'[j], m'[orderOf'[j]]) by {
      forall j | 0 <= j < |orderOf'|
        ensures orderOf'[j] in m' && m'[orderOf'[j]].isFinalized && IsOrderOf(orders'[j], m'[orderOf'[j]])
      {
        if j < |orderOf| {
          assert orderOf'[j] == orderOf[j] != id && orders'[j] == orders[j];
        }
      }
    }
    assert forall x :: x in m' && m'[x].isFinalized ==> x in orderOf' by {
      forall x | x in m' && m'[x].isFinalized ensures x in orderOf' {
        if x != id {
          assert x in orderOf;
        }
      }
    }
  }

  /** The stored checkouts and orders. */
  class Ledger {
    var checkouts: map<nat, Checkout>
    var nextId: nat
    var orders: seq<Order>
    /** For each order, the id of the checkout it was made from. */
    ghost var orderOf: seq<nat>

    /** The ledger invariant, `Consistent` on the fields. */
    ghost predicate Valid()
      reads this
    {
      Consistent(checkouts, nextId, orders, orderOf)
    }

    constructor ()
      ensures checkouts == map[] && nextId == 0 && orders == [] && Valid()
    {
      checkouts, nextId, orders, orderOf := map[], 0, [], [];
    }

    /** POST /api/checkout for the logged-in `userId`. */
    method Create(userId: string, items: Option<seq<CheckoutItem>>, shippingAddress: string,
                  paymentMethod: string, totalPrice: int) returns (res: Outcome<Checkout>)
      modifies this
      ensures items.None? || items.value == [] ==>
        && res == BadRequest("No items in checkout")
        && checkouts == old(checkouts) && nextId == old(nextId)
      ensures items.Some? && items.value != [] ==>
        var c := NewCheckout(old(nextId), userId, items.value, shippingAddress, paymentMethod, totalPrice);
        && res == Created(c)
        && checkouts == old(checkouts)[old(nextId) := c] && nextId == old(nextId) + 1
      ensures orders == old(orders) && orderOf == old(orderOf)
      ensures old(Valid()) ==> Valid()
    {
      if items.None? || items.value == [] {
        return BadRequest("No items in checkout");
      }
      var c := NewCheckout(nextId, userId, items.value, shippingAddress, paymentMethod, totalPrice);
      ghost var before := checkouts;
      checkouts := checkouts[nextId := c];
      nextId := nextId + 1;
      res := Created(c);
      if old(Valid()) {
        AddOrdersOk(before, orders, orderOf, old(nextId), c);
      }
    }

    /** PUT /api/checkout/:id/pay: only the exact token "paid" is accepted;
        it may be repeated, and then re-stamps the payment time. */
    method Pay(id: nat, paymentStatus: string, paymentDetails: Option<string>, now: int)
      returns (res: Outcome<Checkout>)
      modifies this
      ensures id !in old(checkouts) ==> res == NotFound("Checkout not found") && checkouts == old(checkouts)
      ensures id in old(checkouts) && paymentStatus != "paid" ==>
        res == BadRequest("Payment not successful") && checkouts == old(checkouts)
      ensures id in old(checkouts) && paymentStatus == "paid" ==>
        var c := old(checkouts)[id].(isPaid := true, paymentStatus := paymentStatus, paidAt := Some(now),
                                     paymentDetails := paymentDetails);
        res == Ok(c) && checkouts == old(checkouts)[id := c]
      ensures nextId == old(nextId) && orders == old(orders) && orderOf == old(orderOf)
      ensures Finalized(checkouts) == Finalized(old(checkouts))
      ensures old(Valid()) ==> Valid()
    {
      if id !in checkouts {
        return NotFound("Checkout not found");
      }
      if paymentStatus == "paid" {
        PayConsistent(checkouts, nextId, orders, orderOf, id, now, paymentDetails);
        var c := checkouts[id];
        c := c.(isPaid := true, paymentStatus := paymentStatus, paidAt := Some(now), paymentDetails := paymentDetails);
        checkouts := checkouts[id := c];
        res := Ok(c);
      } else {
        res := BadRequest("Payment not successful");
      }
    }

    /** POST /api/checkout/:id/finalize. `cartDeleteOk` says whether the
        deletion of the user's cart succeeds; a failure there does not change
        the answer. */
    method Finalize(id: nat, now: int, carts: CartStore.Store, cartDeleteOk: bool) returns (res: Outcome<Order>)
      modifies this, carts
      ensures Refusal(old(checkouts), id).Some? ==>
        && res == Refusal(old(checkouts), id).value
        && checkouts == old(checkouts) && orders == old(orders) && orderOf == old(orderOf)
        && carts.docs == old(carts.docs)
      ensures Refusal(old(checkouts), id).None? ==>
        var c := old(checkouts)[id];
        && res == Created(OrderFrom(c))
        && orders == old(orders) + [OrderFrom(c)] && orderOf == old(orderOf) + [id]
        && checkouts == old(checkouts)[id := c.(isFinalized := true, finalizedAt := Some(now))]
        && carts.docs == (if cartDeleteOk then CartStore.DeleteFirst(old(carts.docs), CartStore.ByUser(c.user))
                          else old(carts.docs))
      ensures res.Created? ==> Refusal(checkouts, id) == Some(BadRequest("Checkout already finalized"))
      ensures nextId == old(nextId)
      ensures old(Valid()) ==> Valid()
      ensures old(carts.Valid()) ==> carts.Valid()
    {
      if id !in checkouts {
        return NotFound("Checkout not found");
      }
      var c := checkouts[id];
      if c.isFinalized {
        return BadRequest("Checkout already finalized");
      }
      if !c.isPaid {
        return BadRequest("Checkout not paid");
      }
      var order := OrderFrom(c);
      orders := orders + [order];
      orderOf := orderOf + [id];
      ghost var before := checkouts;
      if old(Valid()) {
        FinalizeCheckoutsOk(before, nextId, id, now);
        FinalizeOrdersOk(before, old(orders), old(orderOf), id, now);
      }
      c := c.(isFinalized := true, finalizedAt := Some(now));
      checkouts := checkouts[id := c];
      carts.DeleteOne(CartStore.ByUser(c.user), cartDeleteOk);
      res := Created(order);
    }
  }
}
