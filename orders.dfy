/** Orders as the checkout endpoint creates them, and the lookups the merchant API makes on them. */
module Orders {
  import opened Common

  /** An order stays payable for twelve hours, in milliseconds. */
  const OrderTimeout: int := 12 * 60 * 60 * 1000

  /** Fulfilment state. */
  datatype OrderStatus = Pending | Paid | Cancelled | Delivered

  /** Payment state, a separate axis from fulfilment. */
  datatype PaymentStatus = PaymentPending | Processing | PaymentPaid | PaymentFailed | PaymentCancelled

  datatype Customer = Customer(name: string, phone: string, city: Option<string>, address: Option<string>,
                               comment: Option<string>, deliveryCost: int)

  datatype Item = Item(product_id: string, name: string, price: int, quantity: int, image: string)

  /** An order record; times are epoch milliseconds. */
  datatype Order = Order(
    id: string,
    customer: Customer,
    items: seq<Item>,
    total: int,
    status: OrderStatus,
    payment_status: PaymentStatus,
    created_at: int,
    expire_at: int,
    transaction_id: Option<string>,
    paid_at: Option<int>,
    cancelled_at: Option<int>)

  /** An order is expired strictly after its `expire_at` instant. */
  predicate IsExpired(o: Order, now: int) {
    now > o.expire_at
  }

  /** The record the checkout endpoint stores: both statuses pending, payable for `OrderTimeout` from `now`. */
  function NewOrder(id: string, customer: Customer, items: seq<Item>, total: int, now: int): (o: Order)
    ensures o.id == id && o.customer == customer && o.items == items && o.total == total
    ensures o.status == Pending && o.payment_status == PaymentPending
    ensures o.transaction_id.None? && o.paid_at.None? && o.cancelled_at.None?
    ensures o.created_at == now
    ensures forall t :: !IsExpired(o, t) <==> t <= now + 43_200_000
  {
    Order(id, customer, items, total, Pending, PaymentPending, now, now + OrderTimeout, None, None, None)
  }

  /** Index of the first order with the given id (`Array.prototype.findIndex`). */
  function FindOrder(orders: seq<Order>, id: string): (r: Option<nat>)
    ensures r.Some? ==> r.value < |orders| && orders[r.value].id == id
    ensures r.Some? ==> forall j :: 0 <= j < r.value ==> orders[j].id != id
    ensures r.None? ==> forall j :: 0 <= j < |orders| ==> orders[j].id != id
  {
    if orders == [] then None
    else if orders[0].id == id then Some(0)
    else
      match FindOrder(orders[1..], id)
      case None => None
      case Some(k) => Some(k + 1)
  }

  /** Two order lists that agree on every position's id. */
  ghost predicate SameIds(a: seq<Order>, b: seq<Order>) {
    |a| == |b| && forall k :: 0 <= k < |a| ==> a[k].id == b[k].id
  }

  /** Updating fields other than `id` in place never moves a lookup. */
  lemma FindOrderSameIds(a: seq<Order>, b: seq<Order>, id: string)
    requires SameIds(a, b)
    ensures FindOrder(a, id) == FindOrder(b, id)
  {
    var ra, rb := FindOrder(a, id), FindOrder(b, id);
    if ra.Some? {
      assert b[ra.value].id == id;
    }
    if rb.Some? {
      assert a[rb.value].id == id;
    }
  }

  /** Prepending an order (`Array.prototype.unshift`) shifts the lookups of every other id by one. */
  lemma FindOrderPrepend(o: Order, orders: seq<Order>, id: string)
    ensures FindOrder([o] + orders, id) ==
      if o.id == id then Some(0)
      else match FindOrder(orders, id) case None => None case Some(k) => Some(k + 1)
  {
    assert ([o] + orders)[1..] == orders;
  }
}
