/**
 * The server's stored state as an object: the `orders` and `transactions` collections
 * are fields that the handlers update in place, and a ghost log records the operator
 * notifications sent. Each handler is proved to do what the matching function of
 * MerchantSpec describes and to keep the invariant of MerchantInvariants.
 */
module MerchantApi {
  import opened Common
  import opened PaymeErrors
  import opened Orders
  import opened MerchantSpec
  import opened MerchantInvariants
  import opened Rpc

  function NoticeList(n: Option<Notice>): seq<Notice> {
    if n.Some? then [n.value] else []
  }

  class PaymentStore {
    var orders: seq<Order>
    var transactions: seq<Tx>
    ghost var notices: seq<Notice>

    ghost function Snapshot(): State
      reads this
    {
      State(orders, transactions)
    }

    ghost predicate Valid()
      reads this
    {
      MerchantInvariants.Valid(Snapshot())
    }

    /** Both collections start empty. */
    constructor ()
      ensures orders == [] && transactions == [] && notices == []
      ensures Valid()
    {
      orders := [];
      transactions := [];
      notices := [];
      EmptyValid();
    }

    /** Checkout: the new order goes to the front of the list and the operator is told. */
    method PlaceOrder(id: string, customer: Customer, items: seq<Item>, total: int, now: int) returns (o: Order)
      modifies this
      ensures o == NewOrder(id, customer, items, total, now)
      ensures orders == [o] + old(orders) && transactions == old(transactions)
      ensures notices == old(notices) + [NewOrderPlaced(id, total)]
      ensures old(Valid()) && FindOrder(old(orders), id).None? ==> Valid()
    {
      ghost var before := Snapshot();
      ghost var wasValid := Valid();
      o := NewOrder(id, customer, items, total, now);
      orders := [o] + orders;
      notices := notices + [NewOrderPlaced(o.id, o.total)];
      if wasValid && FindOrder(before.orders, id).None? {
        PlaceOrderKeepsValid(before, o);
      }
    }

    method CreateTransaction(p: Params, now: int, txId: string) returns (r: Reply)
      modifies this
      ensures var out := Create(old(Snapshot()), p, now, txId);
        r == out.reply && Snapshot() == out.state && notices == old(notices) + NoticeList(out.notice)
      ensures old(Valid()) ==> Valid()
    {
      ghost var before := Snapshot();
      ghost var wasValid := Valid();
      if wasValid {
        CreateKeepsValid(before, p, now, txId);
      }
      r := CheckPerform(orders, p, now);
      if r.Fail? {
        return;
      }
      var found := FindTx(transactions, p.id);
      if found.Some? {
        var t := transactions[found.value];
        if t.state == StateCreated {
          r := Ok(CreateResult(t.create_time, t.id, t.state));
        } else {
          r := Fail(CreatePaymeError(TransactionNotFound, "Transaction in invalid state", None));
        }
        return;
      }
      var orderId := OrderIdOf(p).value;
      if OtherCreatedFor(transactions, orderId, p.id) {
        r := Fail(CreatePaymeError(OrderNotFound, "Another transaction in progress for this order", None));
        return;
      }
      var t := NewTx(txId, p, orderId, now);
      transactions := transactions + [t];
      var k := FindOrder(orders, orderId);
      if k.Some? {
        orders := orders[k.value := orders[k.value].(payment_status := Processing, transaction_id := Some(t.id))];
      }
      r := Ok(CreateResult(t.create_time, t.id, t.state));
    }

    method PerformTransaction(paymeId: string, now: int) returns (r: Reply)
      modifies this
      ensures var out := Perform(old(Snapshot()), paymeId, now);
        r == out.reply && Snapshot() == out.state && notices == old(notices) + NoticeList(out.notice)
      ensures old(Valid()) ==> Valid()
    {
      ghost var before := Snapshot();
      ghost var wasValid := Valid();
      if wasValid {
        PerformKeepsValid(before, paymeId, now);
      }
      var found := FindTx(transactions, paymeId);
      if found.None? {
        r := Fail(CreatePaymeError(TransactionNotFound, "Transaction not found", None));
        return;
      }
      var i := found.value;
      var t := transactions[i];
      if t.state == StatePerformed {
        r := Ok(PerformResult(t.id, t.perform_time, t.state));
        return;
      }
      if t.state != StateCreated {
        r := Fail(CreatePaymeError(TransactionNotFound, "Transaction in invalid state", None));
        return;
      }
      transactions := transactions[i := transactions[i].(state := StatePerformed, perform_time := Some(now))];
      var k := FindOrder(orders, t.order_id);
      if k.Some? {
        orders := orders[k.value := orders[k.value].(payment_status := PaymentPaid, status := Paid, paid_at := Some(now))];
        notices := notices + [PaymentReceived(orders[k.value].id, orders[k.value].total)];
      }
      r := Ok(PerformResult(t.id, Some(now), StatePerformed));
    }

    method CancelTransaction(paymeId: string, reason: Option<int>, now: int) returns (r: Reply)
      modifies this
      ensures var out := Cancel(old(Snapshot()), paymeId, reason, now);
        r == out.reply && Snapshot() == out.state && notices == old(notices) + NoticeList(out.notice)
      ensures old(Valid()) ==> Valid()
    {
      ghost var before := Snapshot();
      ghost var wasValid := Valid();
      if wasValid {
        CancelKeepsValid(before, paymeId, reason, now);
      }
      var found := FindTx(transactions, paymeId);
      if found.None? {
        r := Fail(CreatePaymeError(TransactionNotFound, "Transaction not found", None));
        return;
      }
      var i := found.value;
      var t := transactions[i];
      if t.state < 0 {
        r := Ok(CancelResult(t.id, t.cancel_time, t.state));
        return;
      }
      var newState;
      if t.state == StateCreated {
        newState := StateCancelled;
      } else if t.state == StatePerformed {
        newState := StateCancelledAfterPerform;
      } else {
        r := Fail(CreatePaymeError(CannotCancel, "Cannot cancel transaction", None));
        return;
      }
      transactions := transactions[i := transactions[i].(state := newState, cancel_time := Some(now), reason := reason)];
      var k := FindOrder(orders, t.order_id);
      if k.Some? {
        orders := orders[k.value := orders[k.value].(payment_status := PaymentCancelled, status := Cancelled,
                                                     cancelled_at := Some(now))];
        notices := notices + [PaymentVoided(orders[k.value].id, orders[k.value].total, ReasonText(reason))];
      }
      r := Ok(CancelResult(t.id, Some(now), newState));
    }

    /** The `/api/payme` endpoint. */
    method HandleRequest(cfg: Config, req: Request, now: int, txId: string, decode: string -> string)
      returns (resp: Response)
      modifies this
      ensures var h := Dispatch(cfg, old(Snapshot()), req, now, txId, decode);
        resp == h.response && Snapshot() == h.state && notices == old(notices) + NoticeList(h.notice)
      ensures old(Valid()) ==> Valid()
    {
      if !Authorized(cfg, req.authorization, decode) {
        resp := BareError(CreatePaymeError(InsufficientPrivileges, "Unauthorized", None));
        return;
      }
      if req.methodName !in Methods {
        resp := Envelope(req.id, Fail(CreatePaymeError(MethodNotFound, "Method not found", None)));
        return;
      }
      if req.params.None? {
        resp := Envelope(req.id, Fail(SystemFault()));
        return;
      }
      var p := req.params.value;
      var reply: Reply;
      match req.methodName {
        case "CheckPerformTransaction" =>
          reply := CheckPerform(orders, p, now);
        case "CreateTransaction" =>
          reply := CreateTransaction(p, now, txId);
        case "PerformTransaction" =>
          reply := PerformTransaction(p.id, now);
        case "CancelTransaction" =>
          reply := CancelTransaction(p.id, p.reason, now);
        case "CheckTransaction" =>
          reply := CheckTx(State(orders, transactions), p.id);
        case _ =>
          reply := Statement(State(orders, transactions), p.from, p.to);
      }
      resp := Envelope(req.id, reply);
    }
  }
}
