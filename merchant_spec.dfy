/**
 * The six merchant-API operations of the payment provider, as functions from the
 * stored orders and transactions (plus the clock reading `now`) to a reply, the
 * new stored state and the operator notification the call sends, if any.
 */
module MerchantSpec {
  import opened Common
  import opened PaymeErrors
  import opened Orders

  /** Transaction states, as the provider's wire contract numbers them. */
  const StateCreated: int := 1
  const StatePerformed: int := 2
  const StateCancelled: int := -1
  const StateCancelledAfterPerform: int := -2

  /** A stored transaction; `payme_id` is the provider's idempotency key, `id` the local identifier. */
  datatype Tx = Tx(
    id: string,
    payme_id: string,
    order_id: string,
    amount: int,
    state: int,
    create_time: int,
    perform_time: Option<int>,
    cancel_time: Option<int>,
    reason: Option<int>,
    created_at: int)

  /** The two stored collections. */
  datatype State = State(orders: seq<Order>, transactions: seq<Tx>)

  datatype Account = Account(order_id: Option<string>)

  /**
   * The `params` object of a call; each method reads only its own fields
   * (`id`, `time`, `amount`, `account`, `reason`, `from`, `to`).
   */
  datatype Params = Params(id: string, time: int, amount: int, account: Option<Account>,
                           reason: Option<int>, from: int, to: int)

  /** `params.account?.order_id`. */
  function OrderIdOf(p: Params): Option<string> {
    if p.account.Some? then p.account.value.order_id else None
  }

  /** One transaction in the provider's reporting shape. */
  datatype StatementEntry = StatementEntry(
    id: string, time: int, amount: int, order_id: string, create_time: int,
    perform_time: int, cancel_time: int, transaction: string, state: int, reason: Option<int>)

  /** The `result` member of a successful call, one shape per method. */
  datatype Answer =
    | Allow
    | CreateResult(create_time: int, transaction: string, state: int)
    | PerformResult(transaction: string, perform_time: Option<int>, state: int)
    | CancelResult(transaction: string, cancel_time: Option<int>, state: int)
    | CheckResult(create_time: int, reported_perform_time: int, reported_cancel_time: int, transaction: string,
                  state: int, reason: Option<int>)
    | StatementResult(transactions: seq<StatementEntry>)

  /** `{result}` or `{error}`. */
  datatype Reply = Ok(answer: Answer) | Fail(error: PaymeError)

  /** Operator notifications; their formatting and delivery are not modelled. */
  datatype Notice =
    | NewOrderPlaced(order_id: string, total: int)
    | PaymentReceived(order_id: string, total: int)
    | PaymentVoided(order_id: string, total: int, reason: string)

  datatype Outcome = Outcome(reply: Reply, state: State, notice: Option<Notice>)

  /** Index of the first transaction with the given provider id (`Array.prototype.findIndex`). */
  function FindTx(txs: seq<Tx>, paymeId: string): (r: Option<nat>)
    ensures r.Some? ==> r.value < |txs| && txs[r.value].payme_id == paymeId
    ensures r.Some? ==> forall j :: 0 <= j < r.value ==> txs[j].payme_id != paymeId
    ensures r.None? ==> forall j :: 0 <= j < |txs| ==> txs[j].payme_id != paymeId
  {
    if txs == [] then None
    else if txs[0].payme_id == paymeId then Some(0)
    else
      match FindTx(txs[1..], paymeId)
      case None => None
      case Some(k) => Some(k + 1)
  }

  /** The order a call's `account.order_id` names, when it is given and stored. */
  function TargetOrder(orders: seq<Order>, p: Params): Option<Order> {
    var oid := OrderIdOf(p);
    if !Truthy(oid) then None
    else
      match FindOrder(orders, oid.value)
      case None => None
      case Some(k) => Some(orders[k])
  }

  /**
   * CheckPerformTransaction: read-only. The checks run in a fixed order and the
   * first failure is returned: order id given and order stored, amount equals the
   * order total times 100, order not expired, order not already paid.
   */
  function CheckPerform(orders: seq<Order>, p: Params, now: int): (r: Reply)
    ensures r.Ok? ==> r.answer == Allow
    ensures r.Fail? ==> TableMessage(r.error.code) == Some(r.error.message)
    ensures (r.Fail? && r.error.code == OrderNotFound) <==> TargetOrder(orders, p).None?
    ensures (r.Fail? && r.error.code == InvalidAmount) <==>
      TargetOrder(orders, p).Some? && p.amount != TargetOrder(orders, p).value.total * 100
    ensures (r.Fail? && r.error.code == OrderExpired) <==>
      TargetOrder(orders, p).Some? && p.amount == TargetOrder(orders, p).value.total * 100 &&
      IsExpired(TargetOrder(orders, p).value, now)
    ensures (r.Fail? && r.error.code == OrderAlreadyPaid) <==>
      TargetOrder(orders, p).Some? && p.amount == TargetOrder(orders, p).value.total * 100 &&
      !IsExpired(TargetOrder(orders, p).value, now) &&
      TargetOrder(orders, p).value.payment_status == PaymentPaid
    ensures r.Ok? <==>
      TargetOrder(orders, p).Some? && p.amount == TargetOrder(orders, p).value.total * 100 &&
      !IsExpired(TargetOrder(orders, p).value, now) &&
      TargetOrder(orders, p).value.payment_status != PaymentPaid
  {
    var oid := OrderIdOf(p);
    if !Truthy(oid) then Fail(CreatePaymeError(OrderNotFound, "Order ID not provided", Some("order_id")))
    else
      match FindOrder(orders, oid.value)
      case None => Fail(CreatePaymeError(OrderNotFound, "Order not found", Some("order_id")))
      case Some(k) =>
        var o := orders[k];
        if p.amount != o.total * 100 then Fail(CreatePaymeError(InvalidAmount, "Invalid amount", Some("amount")))
        else if IsExpired(o, now) then Fail(CreatePaymeError(OrderExpired, "Order expired", Some("order_id")))
        else if o.payment_status == PaymentPaid then
          Fail(CreatePaymeError(OrderAlreadyPaid, "Order already paid", Some("order_id")))
        else Ok(Allow)
  }

  /** Some transaction for `orderId` other than `paymeId` is still in state 1. */
  predicate OtherCreatedFor(txs: seq<Tx>, orderId: string, paymeId: string) {
    exists j :: 0 <= j < |txs| && txs[j].order_id == orderId && txs[j].state == StateCreated && txs[j].payme_id != paymeId
  }

  /** The record CreateTransaction appends. */
  function NewTx(txId: string, p: Params, orderId: string, now: int): Tx {
    Tx(txId, p.id, orderId, p.amount, StateCreated, p.time, None, None, None, now)
  }

  /** CreateTransaction. */
  function Create(s: State, p: Params, now: int, txId: string): (out: Outcome)
    ensures out.notice.None?
    ensures out.reply.Fail? ==> out.state == s
    ensures out.reply.Fail? ==> TableMessage(out.reply.error.code) == Some(out.reply.error.message)
  {
    var check := CheckPerform(s.orders, p, now);
    if check.Fail? then Outcome(check, s, None)
    else
      match FindTx(s.transactions, p.id)
      case Some(i) =>
        var t := s.transactions[i];
        if t.state == StateCreated then Outcome(Ok(CreateResult(t.create_time, t.id, t.state)), s, None)
        else Outcome(Fail(CreatePaymeError(TransactionNotFound, "Transaction in invalid state", None)), s, None)
      case None =>
        var oid := OrderIdOf(p).value;
        if OtherCreatedFor(s.transactions, oid, p.id) then
          Outcome(Fail(CreatePaymeError(OrderNotFound, "Another transaction in progress for this order", None)), s, None)
        else
          var t := NewTx(txId, p, oid, now);
          var orders' :=
            match FindOrder(s.orders, oid)
            case None => s.orders
            case Some(k) => s.orders[k := s.orders[k].(payment_status := Processing, transaction_id := Some(txId))];
          Outcome(Ok(CreateResult(t.create_time, t.id, t.state)), State(orders', s.transactions + [t]), None)
  }

  /** PerformTransaction. */
  function Perform(s: State, paymeId: string, now: int): (out: Outcome)
    ensures out.reply.Fail? ==> out.state == s && out.notice.None?
    ensures out.reply.Fail? ==> TableMessage(out.reply.error.code) == Some(out.reply.error.message)
    ensures |out.state.transactions| == |s.transactions| && |out.state.orders| == |s.orders|
  {
    match FindTx(s.transactions, paymeId)
    case None => Outcome(Fail(CreatePaymeError(TransactionNotFound, "Transaction not found", None)), s, None)
    case Some(i) =>
      var t := s.transactions[i];
      if t.state == StatePerformed then Outcome(Ok(PerformResult(t.id, t.perform_time, t.state)), s, None)
      else if t.state != StateCreated then
        Outcome(Fail(CreatePaymeError(TransactionNotFound, "Transaction in invalid state", None)), s, None)
      else
        var txs := s.transactions[i := t.(state := StatePerformed, perform_time := Some(now))];
        var reply := Ok(PerformResult(t.id, Some(now), StatePerformed));
        match FindOrder(s.orders, t.order_id)
        case None => Outcome(reply, State(s.orders, txs), None)
        case Some(k) =>
          var o := s.orders[k].(payment_status := PaymentPaid, status := Paid, paid_at := Some(now));
          Outcome(reply, State(s.orders[k := o], txs), Some(PaymentReceived(o.id, o.total)))
  }

  /** The operator-facing text for a cancellation reason code. */
  function ReasonText(reason: Option<int>): (text: string)
    ensures text == "Не указана" <==> !(reason.Some? && 1 <= reason.value <= 5)
  {
    if reason == Some(1) then "Ошибка получателя"
    else if reason == Some(2) then "Ошибка в деталях транзакции"
    else if reason == Some(3) then "Отменено пользователем"
    else if reason == Some(4) then "Ошибка при выполнении"
    else if reason == Some(5) then "Отменено покупателем"
    else "Не указана"
  }

  /** CancelTransaction. */
  function Cancel(s: State, paymeId: string, reason: Option<int>, now: int): (out: Outcome)
    ensures out.reply.Fail? ==> out.state == s && out.notice.None?
    ensures out.reply.Fail? ==> TableMessage(out.reply.error.code) == Some(out.reply.error.message)
    ensures |out.state.transactions| == |s.transactions| && |out.state.orders| == |s.orders|
  {
    match FindTx(s.transactions, paymeId)
    case None => Outcome(Fail(CreatePaymeError(TransactionNotFound, "Transaction not found", None)), s, None)
    case Some(i) =>
      var t := s.transactions[i];
      if t.state < 0 then Outcome(Ok(CancelResult(t.id, t.cancel_time, t.state)), s, None)
      else if t.state != StateCreated && t.state != StatePerformed then
        Outcome(Fail(CreatePaymeError(CannotCancel, "Cannot cancel transaction", None)), s, None)
      else
        var newState := if t.state == StateCreated then StateCancelled else StateCancelledAfterPerform;
        var txs := s.transactions[i := t.(state := newState, cancel_time := Some(now), reason := reason)];
        var reply := Ok(CancelResult(t.id, Some(now), newState));
        match FindOrder(s.orders, t.order_id)
        case None => Outcome(reply, State(s.orders, txs), None)
        case Some(k) =>
          var o := s.orders[k].(payment_status := PaymentCancelled, status := Cancelled, cancelled_at := Some(now));
          Outcome(reply, State(s.orders[k := o], txs), Some(PaymentVoided(o.id, o.total, ReasonText(reason))))
  }

  /** `reason || null`: an absent or zero reason is reported as null. */
  function ReportedReason(reason: Option<int>): (r: Option<int>)
    ensures r.Some? <==> TruthyNum(reason)
    ensures r.Some? ==> r == reason
  {
    if TruthyNum(reason) then reason else None
  }

  /** CheckTransaction: a read-only snapshot of the first transaction with the given provider id. */
  function CheckTx(s: State, paymeId: string): (r: Reply)
    ensures r.Fail? <==> forall j :: 0 <= j < |s.transactions| ==> s.transactions[j].payme_id != paymeId
    ensures r.Fail? ==> r.error == CreatePaymeError(TransactionNotFound, "Transaction not found", None)
    ensures r.Ok? ==> exists j :: (0 <= j < |s.transactions| && s.transactions[j].payme_id == paymeId &&
      (forall i :: 0 <= i < j ==> s.transactions[i].payme_id != paymeId) &&
      r.answer == CheckResult(s.transactions[j].create_time, OrZero(s.transactions[j].perform_time),
                              OrZero(s.transactions[j].cancel_time), s.transactions[j].id,
                              s.transactions[j].state, ReportedReason(s.transactions[j].reason)))
  {
    match FindTx(s.transactions, paymeId)
    case None => Fail(CreatePaymeError(TransactionNotFound, "Transaction not found", None))
    case Some(i) =>
      var t := s.transactions[i];
      Ok(CheckResult(t.create_time, OrZero(t.perform_time), OrZero(t.cancel_time), t.id, t.state,
                     ReportedReason(t.reason)))
  }

  predicate InPeriod(t: Tx, from: int, to: int) {
    from <= t.create_time <= to
  }

  /** The transactions created within `[from, to]`, in stored order. */
  function InPeriodTxs(txs: seq<Tx>, from: int, to: int): (r: seq<Tx>)
    ensures |r| <= |txs|
    ensures forall t :: t in r <==> t in txs && InPeriod(t, from, to)
  {
    if txs == [] then []
    else if InPeriod(txs[0], from, to) then [txs[0]] + InPeriodTxs(txs[1..], from, to)
    else InPeriodTxs(txs[1..], from, to)
  }

  /** The filter distributes over concatenation, so it keeps the stored order. */
  lemma {:induction false} InPeriodTxsAppend(a: seq<Tx>, b: seq<Tx>, from: int, to: int)
    ensures InPeriodTxs(a + b, from, to) == InPeriodTxs(a, from, to) + InPeriodTxs(b, from, to)
  {
    if a == [] {
      assert a + b == b;
    } else {
      assert (a + b)[0] == a[0];
      assert (a + b)[1..] == a[1..] + b;
      InPeriodTxsAppend(a[1..], b, from, to);
    }
  }

  function ToEntry(t: Tx): StatementEntry {
    StatementEntry(t.payme_id, t.create_time, t.amount, t.order_id, t.create_time, OrZero(t.perform_time),
                   OrZero(t.cancel_time), t.id, t.state, ReportedReason(t.reason))
  }

  /** Each transaction in the provider's reporting shape, in the same order. */
  function Entries(txs: seq<Tx>): (r: seq<StatementEntry>)
    ensures |r| == |txs| && forall k :: 0 <= k < |r| ==> r[k] == ToEntry(txs[k])
  {
    seq(|txs|, k requires 0 <= k < |txs| => ToEntry(txs[k]))
  }

  /** GetStatement: read-only. */
  function Statement(s: State, from: int, to: int): (r: Reply)
    ensures r.Ok? && r.answer.StatementResult?
    ensures |r.answer.transactions| <= |s.transactions|
    ensures forall e :: e in r.answer.transactions <==>
      exists t :: t in s.transactions && InPeriod(t, from, to) && e == ToEntry(t)
  {
    var picked := InPeriodTxs(s.transactions, from, to);
    var entries := Entries(picked);
    assert forall e :: e in entries <==> exists t :: t in picked && e == ToEntry(t) by {
      forall e | e in entries ensures exists t :: t in picked && e == ToEntry(t) {
        var k :| 0 <= k < |entries| && entries[k] == e;
        assert picked[k] in picked;
      }
      forall e | exists t :: t in picked && e == ToEntry(t) ensures e in entries {
        var t :| t in picked && e == ToEntry(t);
        var k :| 0 <= k < |picked| && picked[k] == t;
        assert entries[k] == e;
      }
    }
    Ok(StatementResult(entries))
  }
}
