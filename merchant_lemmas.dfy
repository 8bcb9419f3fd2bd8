/**
 * What the merchant API promises across calls: each operation's cases, replays of a
 * call returning the stored result without acting again, and the provider's usual
 * call sequences.
 */
module MerchantLemmas {
  import opened Common
  import opened PaymeErrors
  import opened Orders
  import opened MerchantSpec
  import opened MerchantInvariants
  import opened Rpc

  /** A failed check is returned verbatim and nothing is stored. */
  lemma CreateCheckFirst(s: State, p: Params, now: int, txId: string)
    requires CheckPerform(s.orders, p, now).Fail?
    ensures Create(s, p, now, txId) == Outcome(CheckPerform(s.orders, p, now), s, None)
  {
  }

  /** A known provider id never appends a record: it replays a state-1 record and refuses any other. */
  lemma CreateKnownId(s: State, p: Params, now: int, txId: string)
    requires CheckPerform(s.orders, p, now).Ok?
    requires FindTx(s.transactions, p.id).Some?
    ensures var out := Create(s, p, now, txId);
      var t := s.transactions[FindTx(s.transactions, p.id).value];
      out.state == s && out.notice.None? &&
      out.reply == if t.state == StateCreated then Ok(CreateResult(t.create_time, t.id, StateCreated))
                   else Fail(CreatePaymeError(TransactionNotFound, "Transaction in invalid state", None))
  {
  }

  /**
   * A fresh provider id either meets another state-1 transaction of the same order and is
   * refused with -31050, or appends exactly one state-1 record and marks the order as processing.
   */
  lemma CreateFreshId(s: State, p: Params, now: int, txId: string)
    requires CheckPerform(s.orders, p, now).Ok?
    requires FindTx(s.transactions, p.id).None?
    ensures OrderIdOf(p).Some? && FindOrder(s.orders, OrderIdOf(p).value).Some?
    ensures var out := Create(s, p, now, txId);
      var oid := OrderIdOf(p).value;
      var k := FindOrder(s.orders, oid).value;
      if OtherCreatedFor(s.transactions, oid, p.id) then
        out.state == s && out.reply.Fail? && out.reply.error.code == OrderNotFound
      else
        && out.reply == Ok(CreateResult(p.time, txId, StateCreated))
        && out.state.transactions == s.transactions + [NewTx(txId, p, oid, now)]
        && NewTx(txId, p, oid, now).state == StateCreated
        && NewTx(txId, p, oid, now).create_time == p.time
        && NewTx(txId, p, oid, now).amount == p.amount == s.orders[k].total * 100
        && |out.state.orders| == |s.orders|
        && out.state.orders[k] == s.orders[k].(payment_status := Processing, transaction_id := Some(txId))
        && (forall j :: 0 <= j < |s.orders| && j != k ==> out.state.orders[j] == s.orders[j])
  {
  }

  /** A wrong amount is refused with -31051 and stores nothing. */
  lemma CreateWrongAmount(s: State, p: Params, now: int, txId: string)
    requires TargetOrder(s.orders, p).Some?
    requires p.amount != TargetOrder(s.orders, p).value.total * 100
    ensures Create(s, p, now, txId).reply.Fail?
    ensures Create(s, p, now, txId).reply.error.code == InvalidAmount
    ensures Create(s, p, now, txId).state == s
  {
  }

  /** Past `expire_at`, a call with the right amount is refused with -31052 and stores nothing. */
  lemma CreateExpired(s: State, p: Params, now: int, txId: string)
    requires TargetOrder(s.orders, p).Some?
    requires p.amount == TargetOrder(s.orders, p).value.total * 100
    requires now > TargetOrder(s.orders, p).value.expire_at
    ensures Create(s, p, now, txId).reply == Fail(CreatePaymeError(OrderExpired, "Order expired", Some("order_id")))
    ensures Create(s, p, now, txId).state == s
  {
  }

  /**
   * `expire_at` is the last payable instant: once the order check reports it expired, every
   * later check reports the same.
   */
  lemma ExpiryIsFinal(orders: seq<Order>, p: Params, now: int, later: int)
    requires CheckPerform(orders, p, now).Fail? && CheckPerform(orders, p, now).error.code == OrderExpired
    requires now <= later
    ensures CheckPerform(orders, p, later) == CheckPerform(orders, p, now)
  {
  }

  /**
   * Under the invariant, a conflicting state-1 transaction means its order is marked as
   * processing and points to that transaction.
   */
  lemma OtherCreatedMeansProcessing(s: State, orderId: string, paymeId: string)
    requires Valid(s)
    requires OtherCreatedFor(s.transactions, orderId, paymeId)
    ensures FindOrder(s.orders, orderId).Some?
    ensures var o := s.orders[FindOrder(s.orders, orderId).value];
      o.payment_status == Processing &&
      exists j :: 0 <= j < |s.transactions| && s.transactions[j].payme_id != paymeId &&
        s.transactions[j].state == StateCreated && o.transaction_id == Some(s.transactions[j].id)
  {
    var j :| 0 <= j < |s.transactions| && s.transactions[j].order_id == orderId &&
      s.transactions[j].state == StateCreated && s.transactions[j].payme_id != paymeId;
    assert LinkedTx(s.orders, s.transactions[j]);
  }

  /** The five reason codes have five different texts. */
  lemma ReasonTextsDistinct(a: int, b: int)
    requires 1 <= a <= 5 && 1 <= b <= 5 && a != b
    ensures ReasonText(Some(a)) != ReasonText(Some(b))
  {
  }

  /**
   * Repeating a successful CreateTransaction (same provider id and params, any later
   * time and local id) returns the same result and stores nothing, unless the order has
   * expired in between.
   */
  lemma CreateReplay(s: State, p: Params, now: int, txId: string, now2: int, txId2: string)
    requires Create(s, p, now, txId).reply.Ok?
    ensures var first := Create(s, p, now, txId);
      var again := Create(first.state, p, now2, txId2);
      again.state == first.state && again.notice.None? &&
      (again.reply == first.reply ||
       (again.reply.Fail? && again.reply.error.code == OrderExpired && IsExpired(TargetOrder(s.orders, p).value, now2)))
  {
    var first := Create(s, p, now, txId);
    var s1 := first.state;
    var oid := OrderIdOf(p).value;
    var k := FindOrder(s.orders, oid).value;
    var n: nat;
    if FindTx(s.transactions, p.id).Some? {
      CreateKnownId(s, p, now, txId);
      n := FindTx(s.transactions, p.id).value;
    } else {
      CreateFreshId(s, p, now, txId);
      CreateStoresLast(s, p, now, txId);
      n := |s.transactions|;
    }
    assert FindTx(s1.transactions, p.id) == Some(n) && s1.transactions[n].state == StateCreated;
    assert first.reply == Ok(CreateResult(s1.transactions[n].create_time, s1.transactions[n].id, StateCreated));
    RecheckAfterCreate(s.orders, s1.orders, p, now, now2);
  }

  /**
   * CreateTransaction changes at most the payment status and link of the order, so a payable
   * order stays payable until it expires.
   */
  lemma RecheckAfterCreate(orders: seq<Order>, orders': seq<Order>, p: Params, now: int, now2: int)
    requires CheckPerform(orders, p, now).Ok?
    requires var k := FindOrder(orders, OrderIdOf(p).value).value;
      orders' == orders ||
      (|orders'| == |orders| &&
       orders'[k] == orders[k].(payment_status := Processing, transaction_id := orders'[k].transaction_id) &&
       forall j :: 0 <= j < |orders| && j != k ==> orders'[j] == orders[j])
    ensures CheckPerform(orders', p, now2).Ok? ||
      (CheckPerform(orders', p, now2).Fail? && CheckPerform(orders', p, now2).error.code == OrderExpired &&
       IsExpired(TargetOrder(orders, p).value, now2))
  {
    var oid := OrderIdOf(p).value;
    var k := FindOrder(orders, oid).value;
    assert SameIds(orders, orders') by {
      forall j | 0 <= j < |orders| ensures orders[j].id == orders'[j].id {
        if j != k { assert orders'[j] == orders[j]; }
      }
    }
    FindOrderSameIds(orders, orders', oid);
  }

  /** PerformTransaction on an unknown id, or on a state other than 1 and 2: -31099, nothing changes. */
  lemma PerformRefused(s: State, paymeId: string, now: int)
    requires FindTx(s.transactions, paymeId).None? ||
             s.transactions[FindTx(s.transactions, paymeId).value].state !in {StateCreated, StatePerformed}
    ensures var out := Perform(s, paymeId, now);
      out.state == s && out.reply.Fail? && out.reply.error.code == TransactionNotFound
  {
  }

  /** PerformTransaction on a performed transaction returns its stored perform time and changes nothing. */
  lemma PerformOnPerformed(s: State, paymeId: string, now: int)
    requires FindTx(s.transactions, paymeId).Some?
    requires s.transactions[FindTx(s.transactions, paymeId).value].state == StatePerformed
    ensures var t := s.transactions[FindTx(s.transactions, paymeId).value];
      Perform(s, paymeId, now) == Outcome(Ok(PerformResult(t.id, t.perform_time, StatePerformed)), s, None)
  {
  }

  /**
   * PerformTransaction on a state-1 transaction moves it to state 2 at `now` and marks its
   * order paid; no other transaction and no other order changes.
   */
  lemma PerformOnCreated(s: State, paymeId: string, now: int)
    requires Valid(s)
    requires FindTx(s.transactions, paymeId).Some?
    requires s.transactions[FindTx(s.transactions, paymeId).value].state == StateCreated
    ensures var i := FindTx(s.transactions, paymeId).value;
      var t := s.transactions[i];
      var k := FindOrder(s.orders, t.order_id).value;
      var out := Perform(s, paymeId, now);
      && out.reply == Ok(PerformResult(t.id, Some(now), StatePerformed))
      && out.state.transactions == s.transactions[i := t.(state := StatePerformed, perform_time := Some(now))]
      && out.state.orders ==
           s.orders[k := s.orders[k].(payment_status := PaymentPaid, status := Paid, paid_at := Some(now))]
      && out.notice == Some(PaymentReceived(t.order_id, s.orders[k].total))
  {
    assert LinkedTx(s.orders, s.transactions[FindTx(s.transactions, paymeId).value]);
  }

  /** Repeating a successful PerformTransaction returns the same result and changes nothing. */
  lemma PerformReplay(s: State, paymeId: string, now: int, now2: int)
    requires Perform(s, paymeId, now).reply.Ok?
    ensures var first := Perform(s, paymeId, now);
      Perform(first.state, paymeId, now2) == Outcome(first.reply, first.state, None)
  {
    var first := Perform(s, paymeId, now);
    var i := FindTx(s.transactions, paymeId).value;
    assert FindTx(first.state.transactions, paymeId) == Some(i) by {
      assert first.state.transactions[i].payme_id == paymeId;
      forall j | 0 <= j < i ensures first.state.transactions[j].payme_id != paymeId {
        assert first.state.transactions[j] == s.transactions[j];
      }
    }
  }

  /** CancelTransaction on an unknown id: -31099, nothing changes. */
  lemma CancelUnknown(s: State, paymeId: string, reason: Option<int>, now: int)
    requires FindTx(s.transactions, paymeId).None?
    ensures Cancel(s, paymeId, reason, now) ==
      Outcome(Fail(CreatePaymeError(TransactionNotFound, "Transaction not found", None)), s, None)
  {
  }

  /** CancelTransaction on a cancelled transaction returns its stored cancel time and state. */
  lemma CancelOnCancelled(s: State, paymeId: string, reason: Option<int>, now: int)
    requires FindTx(s.transactions, paymeId).Some?
    requires s.transactions[FindTx(s.transactions, paymeId).value].state < 0
    ensures var t := s.transactions[FindTx(s.transactions, paymeId).value];
      Cancel(s, paymeId, reason, now) == Outcome(Ok(CancelResult(t.id, t.cancel_time, t.state)), s, None)
  {
  }

  /**
   * CancelTransaction on an active transaction: 1 becomes -1 and 2 becomes -2, with the
   * cancel time and reason recorded and the order cancelled; nothing else changes.
   */
  lemma CancelOnActive(s: State, paymeId: string, reason: Option<int>, now: int)
    requires Valid(s)
    requires FindTx(s.transactions, paymeId).Some?
    requires s.transactions[FindTx(s.transactions, paymeId).value].state > 0
    ensures var i := FindTx(s.transactions, paymeId).value;
      var t := s.transactions[i];
      var k := FindOrder(s.orders, t.order_id).value;
      var newState := if t.state == StateCreated then StateCancelled else StateCancelledAfterPerform;
      var out := Cancel(s, paymeId, reason, now);
      && (t.state == StateCreated || t.state == StatePerformed)
      && out.reply == Ok(CancelResult(t.id, Some(now), newState))
      && out.state.transactions == s.transactions[i := t.(state := newState, cancel_time := Some(now), reason := reason)]
      && out.state.orders ==
           s.orders[k := s.orders[k].(payment_status := PaymentCancelled, status := Cancelled, cancelled_at := Some(now))]
      && out.notice == Some(PaymentVoided(t.order_id, s.orders[k].total, ReasonText(reason)))
  {
    assert LinkedTx(s.orders, s.transactions[FindTx(s.transactions, paymeId).value]);
  }

  /** Under the invariant the -31060 branch of CancelTransaction is unreachable. */
  lemma CancelNeverRefusedWhenValid(s: State, paymeId: string, reason: Option<int>, now: int)
    requires Valid(s)
    ensures var r := Cancel(s, paymeId, reason, now).reply;
      r.Fail? ==> r.error.code == TransactionNotFound
  {
    var i := FindTx(s.transactions, paymeId);
    if i.Some? {
      assert WellFormedTx(s.transactions[i.value]);
    }
  }

  /** Repeating a successful CancelTransaction returns the same result and changes nothing. */
  lemma CancelReplay(s: State, paymeId: string, reason: Option<int>, now: int, reason2: Option<int>, now2: int)
    requires Cancel(s, paymeId, reason, now).reply.Ok?
    ensures var first := Cancel(s, paymeId, reason, now);
      Cancel(first.state, paymeId, reason2, now2) == Outcome(first.reply, first.state, None)
  {
    var first := Cancel(s, paymeId, reason, now);
    var i := FindTx(s.transactions, paymeId).value;
    assert FindTx(first.state.transactions, paymeId) == Some(i) by {
      assert first.state.transactions[i].payme_id == paymeId;
      forall j | 0 <= j < i ensures first.state.transactions[j].payme_id != paymeId {
        assert first.state.transactions[j] == s.transactions[j];
      }
    }
  }

  /** After a cancellation PerformTransaction is refused with -31099. */
  lemma PerformAfterCancel(s: State, paymeId: string, reason: Option<int>, now: int, now2: int)
    requires Valid(s)
    requires FindTx(s.transactions, paymeId).Some?
    ensures var s1 := Cancel(s, paymeId, reason, now).state;
      Perform(s1, paymeId, now2).reply == Fail(CreatePaymeError(TransactionNotFound, "Transaction in invalid state", None))
  {
    var i := FindTx(s.transactions, paymeId).value;
    var s1 := Cancel(s, paymeId, reason, now).state;
    assert WellFormedTx(s.transactions[i]);
    assert FindTx(s1.transactions, paymeId) == Some(i) by {
      assert s1.transactions[i].payme_id == paymeId;
      forall j | 0 <= j < i ensures s1.transactions[j].payme_id != paymeId {
        assert s1.transactions[j] == s.transactions[j];
      }
    }
  }

  /** A fresh CreateTransaction on a payable order stores the new record last, where a lookup finds it. */
  lemma CreateStoresLast(s: State, p: Params, t0: int, txId: string)
    requires CheckPerform(s.orders, p, t0).Ok?
    requires FindTx(s.transactions, p.id).None?
    requires !OtherCreatedFor(s.transactions, OrderIdOf(p).value, p.id)
    ensures var c := Create(s, p, t0, txId);
      var n := |s.transactions|;
      && c.reply == Ok(CreateResult(p.time, txId, StateCreated))
      && FindTx(c.state.transactions, p.id) == Some(n)
      && c.state.transactions[n].state == StateCreated && c.state.transactions[n].id == txId
      && c.state.transactions[n].order_id == OrderIdOf(p).value
      && FindOrder(c.state.orders, OrderIdOf(p).value) == FindOrder(s.orders, OrderIdOf(p).value)
  {
    var oid := OrderIdOf(p).value;
    var c := Create(s, p, t0, txId);
    var n := |s.transactions|;
    CreateFreshId(s, p, t0, txId);
    assert c.state.transactions[n].payme_id == p.id;
    assert FindTx(c.state.transactions, p.id) == Some(n) by {
      forall j | 0 <= j < n ensures c.state.transactions[j].payme_id != p.id {
        assert c.state.transactions[j] == s.transactions[j];
      }
    }
    FindOrderSameIds(s.orders, c.state.orders, oid);
  }

  /** Performing a created transaction keeps it where a lookup finds it, now in state 2. */
  lemma PerformKeepsPlace(s: State, paymeId: string, t1: int, n: nat)
    requires Valid(s)
    requires FindTx(s.transactions, paymeId) == Some(n)
    requires s.transactions[n].state == StateCreated
    ensures var t := s.transactions[n];
      var pf := Perform(s, paymeId, t1);
      var k := FindOrder(s.orders, t.order_id).value;
      && pf.reply == Ok(PerformResult(t.id, Some(t1), StatePerformed))
      && Valid(pf.state)
      && FindTx(pf.state.transactions, paymeId) == Some(n)
      && pf.state.transactions[n].state == StatePerformed
      && pf.state.transactions[n].id == t.id && pf.state.transactions[n].order_id == t.order_id
      && FindOrder(pf.state.orders, t.order_id) == Some(k)
      && pf.state.orders[k].payment_status == PaymentPaid && pf.state.orders[k].status == Paid
  {
    var t := s.transactions[n];
    var pf := Perform(s, paymeId, t1);
    PerformOnCreated(s, paymeId, t1);
    PerformKeepsValid(s, paymeId, t1);
    FindOrderSameIds(s.orders, pf.state.orders, t.order_id);
    assert FindTx(pf.state.transactions, paymeId) == Some(n) by {
      assert pf.state.transactions[n].payme_id == paymeId;
      forall j | 0 <= j < n ensures pf.state.transactions[j].payme_id != paymeId {
        assert pf.state.transactions[j] == s.transactions[j];
      }
    }
  }

  /**
   * The provider's usual sequence on a payable order: CreateTransaction stores a state-1
   * record at the provider's time, PerformTransaction moves it to 2 and marks the order
   * paid, and a later CancelTransaction moves it to -2 and marks the order cancelled.
   */
  lemma PaymentLifecycle(s: State, p: Params, t0: int, txId: string, t1: int, reason: Option<int>, t2: int)
    requires Valid(s)
    requires CheckPerform(s.orders, p, t0).Ok?
    requires FindTx(s.transactions, p.id).None?
    requires !OtherCreatedFor(s.transactions, OrderIdOf(p).value, p.id)
    ensures var k := FindOrder(s.orders, OrderIdOf(p).value).value;
      var c := Create(s, p, t0, txId);
      var pf := Perform(c.state, p.id, t1);
      var cn := Cancel(pf.state, p.id, reason, t2);
      && c.reply == Ok(CreateResult(p.time, txId, StateCreated))
      && pf.reply == Ok(PerformResult(txId, Some(t1), StatePerformed))
      && pf.state.orders[k].payment_status == PaymentPaid && pf.state.orders[k].status == Paid
      && cn.reply == Ok(CancelResult(txId, Some(t2), StateCancelledAfterPerform))
      && cn.state.orders[k].payment_status == PaymentCancelled && cn.state.orders[k].status == Cancelled
  {
    var n := |s.transactions|;
    var c := Create(s, p, t0, txId);
    CreateStoresLast(s, p, t0, txId);
    CreateKeepsValid(s, p, t0, txId);
    PerformKeepsPlace(c.state, p.id, t1, n);
    var pf := Perform(c.state, p.id, t1);
    CancelOnActive(pf.state, p.id, reason, t2);
  }

  /** A second CreateTransaction for the same order with another provider id, while the first is in state 1, is refused with -31050. */
  lemma SecondCreateConflicts(s: State, p: Params, q: Params, t0: int, txId: string, t1: int, txId2: string)
    requires CheckPerform(s.orders, p, t0).Ok?
    requires FindTx(s.transactions, p.id).None?
    requires !OtherCreatedFor(s.transactions, OrderIdOf(p).value, p.id)
    requires OrderIdOf(q) == OrderIdOf(p) && q.id != p.id
    requires FindTx(s.transactions, q.id).None?
    ensures var s1 := Create(s, p, t0, txId).state;
      var again := Create(s1, q, t1, txId2);
      again.state == s1 && again.reply.Fail? &&
      again.reply.error.code in {OrderNotFound, InvalidAmount, OrderExpired}
    ensures var s1 := Create(s, p, t0, txId).state;
      var again := Create(s1, q, t1, txId2);
      var check := CheckPerform(s1.orders, q, t1);
      (check.Ok? ==> again.reply == Fail(CreatePaymeError(OrderNotFound, "Another transaction in progress for this order", None))) &&
      (check.Fail? ==> again.reply == check)
  {
    var s1 := Create(s, p, t0, txId).state;
    var oid := OrderIdOf(p).value;
    var n := |s.transactions|;
    assert s1.transactions[n].order_id == oid && s1.transactions[n].state == StateCreated;
    FindOrderSameIds(s.orders, s1.orders, oid);
    if CheckPerform(s1.orders, q, t1).Ok? {
      assert FindTx(s1.transactions, q.id).None? by {
        forall j | 0 <= j < |s1.transactions| ensures s1.transactions[j].payme_id != q.id {
          if j < n { assert s1.transactions[j] == s.transactions[j]; }
        }
      }
      assert OtherCreatedFor(s1.transactions, oid, q.id);
    }
  }

  /** Whatever the request, authorised or not, the endpoint leaves a valid store valid. */
  lemma DispatchKeepsValid(cfg: Config, s: State, req: Request, now: int, txId: string, decode: string -> string)
    requires Valid(s)
    ensures Valid(Dispatch(cfg, s, req, now, txId, decode).state)
  {
    if Authorized(cfg, req.authorization, decode) && req.methodName in Methods && req.params.Some? {
      var p := req.params.value;
      if req.methodName == "CreateTransaction" {
        CreateKeepsValid(s, p, now, txId);
      } else if req.methodName == "PerformTransaction" {
        PerformKeepsValid(s, p.id, now);
      } else if req.methodName == "CancelTransaction" {
        CancelKeepsValid(s, p.id, p.reason, now);
      }
    }
  }

  /**
   * GetStatement keeps the stored order: the statement of a concatenation is the
   * statement of the first part followed by that of the second.
   */
  lemma StatementAppend(orders: seq<Order>, a: seq<Tx>, b: seq<Tx>, from: int, to: int)
    ensures Statement(State(orders, a + b), from, to).answer.transactions ==
      Statement(State(orders, a), from, to).answer.transactions + Statement(State(orders, b), from, to).answer.transactions
  {
    var pa, pb := InPeriodTxs(a, from, to), InPeriodTxs(b, from, to);
    assert Statement(State(orders, a), from, to).answer.transactions == Entries(pa);
    assert Statement(State(orders, b), from, to).answer.transactions == Entries(pb);
    InPeriodTxsAppend(a, b, from, to);
    assert Statement(State(orders, a + b), from, to).answer.transactions == Entries(pa + pb);
    EntriesAppend(pa, pb);
  }

  /** Mapping transactions to statement entries distributes over concatenation. */
  lemma EntriesAppend(a: seq<Tx>, b: seq<Tx>)
    ensures Entries(a + b) == Entries(a) + Entries(b)
  {
    var e, ea, eb := Entries(a + b), Entries(a), Entries(b);
    forall k | 0 <= k < |e| ensures e[k] == (ea + eb)[k] {
      if k < |a| {
        assert (a + b)[k] == a[k];
      } else {
        assert (a + b)[k] == b[k - |a|];
      }
    }
  }
}
