/**
 * The global invariant of the stored orders and transactions, and the proof that
 * every operation of the merchant API (and order creation with a fresh id) keeps it.
 */
module MerchantInvariants {
  import opened Common
  import opened PaymeErrors
  import opened Orders
  import opened MerchantSpec

  /** The four states of the wire contract; there is no state 0. */
  predicate KnownState(st: int) {
    st == StateCreated || st == StatePerformed || st == StateCancelled || st == StateCancelledAfterPerform
  }

  /** Which timestamps a transaction carries follows from its state. */
  predicate WellFormedTx(t: Tx) {
    KnownState(t.state) &&
    (t.perform_time.Some? <==> t.state == StatePerformed || t.state == StateCancelledAfterPerform) &&
    (t.cancel_time.Some? <==> t.state < 0) &&
    (t.state > 0 ==> t.reason.None?)
  }

  /** The provider id is a key: no two stored transactions share it. */
  ghost predicate UniquePaymeIds(txs: seq<Tx>) {
    forall i, j :: 0 <= i < j < |txs| ==> txs[i].payme_id != txs[j].payme_id
  }

  /** An order has at most one active (created or performed) transaction. */
  ghost predicate OneActivePerOrder(txs: seq<Tx>) {
    forall i, j :: 0 <= i < j < |txs| && txs[i].state > 0 && txs[j].state > 0 ==> txs[i].order_id != txs[j].order_id
  }

  /**
   * A transaction's order is stored and was charged in full; while the transaction is
   * active the order points back to it and its payment status follows the state.
   */
  predicate LinkedTx(orders: seq<Order>, t: Tx) {
    FindOrder(orders, t.order_id).Some? &&
    var o := orders[FindOrder(orders, t.order_id).value];
    t.amount == o.total * 100 &&
    (t.state > 0 ==> o.transaction_id == Some(t.id)) &&
    (t.state == StateCreated ==> o.payment_status == Processing) &&
    (t.state == StatePerformed ==> o.payment_status == PaymentPaid)
  }

  /** A paid payment means a paid order; a cancelled payment means a cancelled order. */
  predicate Correlated(o: Order) {
    (o.payment_status == PaymentPaid ==> o.status == Paid) &&
    (o.payment_status == PaymentCancelled ==> o.status == Cancelled)
  }

  ghost predicate Valid(s: State) {
    (forall i :: 0 <= i < |s.transactions| ==> WellFormedTx(s.transactions[i])) &&
    UniquePaymeIds(s.transactions) &&
    OneActivePerOrder(s.transactions) &&
    (forall i :: 0 <= i < |s.transactions| ==> LinkedTx(s.orders, s.transactions[i])) &&
    (forall k :: 0 <= k < |s.orders| ==> Correlated(s.orders[k]))
  }

  /** Every state-1 transaction is the only one of its order in state 1. */
  lemma AtMostOneCreatedPerOrder(s: State, i: nat, j: nat)
    requires Valid(s)
    requires i < j < |s.transactions|
    requires s.transactions[i].state == StateCreated && s.transactions[j].state == StateCreated
    ensures s.transactions[i].order_id != s.transactions[j].order_id
  {
  }

  lemma EmptyValid()
    ensures Valid(State([], []))
  {
  }

  /** Storing a new order whose id is not yet used keeps the invariant. */
  lemma PlaceOrderKeepsValid(s: State, o: Order)
    requires Valid(s)
    requires FindOrder(s.orders, o.id).None?
    requires o.status == Pending && o.payment_status == PaymentPending
    ensures Valid(State([o] + s.orders, s.transactions))
  {
    var orders' := [o] + s.orders;
    forall i | 0 <= i < |s.transactions|
      ensures LinkedTx(orders', s.transactions[i])
    {
      var t := s.transactions[i];
      FindOrderPrepend(o, s.orders, t.order_id);
      assert o.id != t.order_id;
      assert orders'[FindOrder(s.orders, t.order_id).value + 1] == s.orders[FindOrder(s.orders, t.order_id).value];
    }
    forall k | 0 <= k < |orders'|
      ensures Correlated(orders'[k])
    {
      if k > 0 {
        assert orders'[k] == s.orders[k - 1];
      }
    }
  }

  /** A lookup that is unaffected by an in-place update of one order's non-id fields. */
  lemma LinkedAfterOrderUpdate(orders: seq<Order>, k: nat, o': Order, t: Tx)
    requires k < |orders| && o'.id == orders[k].id
    requires LinkedTx(orders, t)
    requires t.order_id != orders[k].id
    ensures LinkedTx(orders[k := o'], t)
  {
    FindOrderSameIds(orders, orders[k := o'], t.order_id);
  }

  lemma CreateKeepsValid(s: State, p: Params, now: int, txId: string)
    requires Valid(s)
    ensures Valid(Create(s, p, now, txId).state)
  {
    var out := Create(s, p, now, txId);
    if out.state != s {
      var check := CheckPerform(s.orders, p, now);
      assert check.Ok?;
      assert FindTx(s.transactions, p.id).None?;
      var oid := OrderIdOf(p).value;
      var k := FindOrder(s.orders, oid).value;
      assert !OtherCreatedFor(s.transactions, oid, p.id);
      var t := NewTx(txId, p, oid, now);
      assert out.state == State(s.orders[k := s.orders[k].(payment_status := Processing, transaction_id := Some(txId))],
                                s.transactions + [t]);
      // No transaction of this order is active: state 1 is ruled out by the conflict
      // check, state 2 by the order not being paid.
      forall i | 0 <= i < |s.transactions| && s.transactions[i].order_id == oid
        ensures s.transactions[i].state <= 0
      {
        assert LinkedTx(s.orders, s.transactions[i]);
        assert s.transactions[i].payme_id != p.id;
      }
      AppendCreatedKeepsValid(s, k, t);
    }
  }

  /** Appending a state-1 transaction for an order with no active one, and linking the order to it, keeps the invariant. */
  lemma AppendCreatedKeepsValid(s: State, k: nat, t: Tx)
    requires Valid(s)
    requires FindOrder(s.orders, t.order_id) == Some(k)
    requires t.state == StateCreated && WellFormedTx(t) && t.amount == s.orders[k].total * 100
    requires s.orders[k].payment_status != PaymentPaid
    requires forall i :: 0 <= i < |s.transactions| ==> s.transactions[i].payme_id != t.payme_id
    requires forall i :: 0 <= i < |s.transactions| && s.transactions[i].order_id == t.order_id ==>
      s.transactions[i].state <= 0
    ensures Valid(State(s.orders[k := s.orders[k].(payment_status := Processing, transaction_id := Some(t.id))],
                        s.transactions + [t]))
  {
    var o' := s.orders[k].(payment_status := Processing, transaction_id := Some(t.id));
    var orders' := s.orders[k := o'];
    var txs' := s.transactions + [t];
    AppendCreatedKeepsLinks(s, k, t);
    forall k2 | 0 <= k2 < |orders'|
      ensures Correlated(orders'[k2])
    {
      if k2 != k {
        assert orders'[k2] == s.orders[k2];
      }
    }
    AppendKeepsKeys(s.transactions, t);
    forall i | 0 <= i < |txs'| ensures WellFormedTx(txs'[i]) {
      if i < |s.transactions| {
        assert txs'[i] == s.transactions[i];
      }
    }
  }

  /** After the append every transaction still reaches its order. */
  lemma AppendCreatedKeepsLinks(s: State, k: nat, t: Tx)
    requires forall i :: 0 <= i < |s.transactions| ==> LinkedTx(s.orders, s.transactions[i])
    requires FindOrder(s.orders, t.order_id) == Some(k)
    requires t.state == StateCreated && t.amount == s.orders[k].total * 100
    requires forall i :: 0 <= i < |s.transactions| && s.transactions[i].order_id == t.order_id ==>
      s.transactions[i].state <= 0
    ensures var orders' := s.orders[k := s.orders[k].(payment_status := Processing, transaction_id := Some(t.id))];
      forall i :: 0 <= i < |s.transactions| + 1 ==> LinkedTx(orders', (s.transactions + [t])[i])
  {
    var oid := t.order_id;
    var o' := s.orders[k].(payment_status := Processing, transaction_id := Some(t.id));
    var orders' := s.orders[k := o'];
    var txs' := s.transactions + [t];
    FindOrderSameIds(s.orders, orders', oid);
    forall i | 0 <= i < |txs'|
      ensures LinkedTx(orders', txs'[i])
    {
      if i < |s.transactions| {
        var u := s.transactions[i];
        assert txs'[i] == u;
        if u.order_id != oid {
          LinkedAfterOrderUpdate(s.orders, k, o', u);
        }
      }
    }
  }

  /** Appending a transaction with a new provider id, for an order with no active one, keeps both keys. */
  lemma AppendKeepsKeys(txs: seq<Tx>, t: Tx)
    requires UniquePaymeIds(txs) && OneActivePerOrder(txs)
    requires forall i :: 0 <= i < |txs| ==> txs[i].payme_id != t.payme_id
    requires forall i :: 0 <= i < |txs| && txs[i].order_id == t.order_id ==> txs[i].state <= 0
    ensures UniquePaymeIds(txs + [t]) && OneActivePerOrder(txs + [t])
  {
    var txs' := txs + [t];
    forall i, j | 0 <= i < j < |txs'|
      ensures txs'[i].payme_id != txs'[j].payme_id
    {
      if j == |txs| {
        assert txs'[i] == txs[i];
      }
    }
    forall i, j | 0 <= i < j < |txs'| && txs'[i].state > 0 && txs'[j].state > 0
      ensures txs'[i].order_id != txs'[j].order_id
    {
      if j == |txs| {
        assert txs'[i] == txs[i];
      }
    }
  }

  lemma PerformKeepsValid(s: State, paymeId: string, now: int)
    requires Valid(s)
    ensures Valid(Perform(s, paymeId, now).state)
  {
    var out := Perform(s, paymeId, now);
    if out.state != s {
      var i := FindTx(s.transactions, paymeId).value;
      var t := s.transactions[i];
      assert t.state == StateCreated;
      assert LinkedTx(s.orders, t);
      var k := FindOrder(s.orders, t.order_id).value;
      var o := s.orders[k];
      var o' := o.(payment_status := PaymentPaid, status := Paid, paid_at := Some(now));
      var orders' := s.orders[k := o'];
      var t' := t.(state := StatePerformed, perform_time := Some(now));
      var txs' := s.transactions[i := t'];
      assert out.state == State(orders', txs');
      SettleKeepsLinks(s, i, t', k, o', orders', txs');
      forall k2 | 0 <= k2 < |orders'|
        ensures Correlated(orders'[k2])
      {
        if k2 != k {
          assert orders'[k2] == s.orders[k2];
        }
      }
      forall j | 0 <= j < |txs'|
        ensures WellFormedTx(txs'[j])
      {
        if j != i { assert txs'[j] == s.transactions[j]; }
      }
    }
  }

  lemma CancelKeepsValid(s: State, paymeId: string, reason: Option<int>, now: int)
    requires Valid(s)
    ensures Valid(Cancel(s, paymeId, reason, now).state)
  {
    var out := Cancel(s, paymeId, reason, now);
    if out.state != s {
      var i := FindTx(s.transactions, paymeId).value;
      var t := s.transactions[i];
      assert t.state == StateCreated || t.state == StatePerformed;
      assert LinkedTx(s.orders, t);
      var k := FindOrder(s.orders, t.order_id).value;
      var o := s.orders[k];
      var o' := o.(payment_status := PaymentCancelled, status := Cancelled, cancelled_at := Some(now));
      var orders' := s.orders[k := o'];
      var newState := if t.state == StateCreated then StateCancelled else StateCancelledAfterPerform;
      var t' := t.(state := newState, cancel_time := Some(now), reason := reason);
      var txs' := s.transactions[i := t'];
      assert out.state == State(orders', txs');
      SettleKeepsLinks(s, i, t', k, o', orders', txs');
      forall k2 | 0 <= k2 < |orders'|
        ensures Correlated(orders'[k2])
      {
        if k2 != k {
          assert orders'[k2] == s.orders[k2];
        }
      }
      forall j | 0 <= j < |txs'|
        ensures WellFormedTx(txs'[j])
      {
        if j != i { assert txs'[j] == s.transactions[j]; }
      }
    }
  }

  /**
   * Settling one active transaction in place (same id, order and amount) and updating its
   * order's status fields in place keeps every transaction's link to its order.
   */
  lemma SettleKeepsLinks(s: State, i: nat, t': Tx, k: nat, o': Order, orders': seq<Order>, txs': seq<Tx>)
    requires Valid(s)
    requires i < |s.transactions| && s.transactions[i].state > 0
    requires t'.id == s.transactions[i].id && t'.order_id == s.transactions[i].order_id
    requires t'.amount == s.transactions[i].amount
    requires FindOrder(s.orders, t'.order_id) == Some(k)
    requires o'.id == s.orders[k].id && o'.total == s.orders[k].total
    requires t'.state <= 0 || (o'.transaction_id == Some(t'.id) &&
      (t'.state == StateCreated ==> o'.payment_status == Processing) &&
      (t'.state == StatePerformed ==> o'.payment_status == PaymentPaid))
    requires orders' == s.orders[k := o'] && txs' == s.transactions[i := t']
    ensures forall j :: 0 <= j < |txs'| ==> LinkedTx(orders', txs'[j])
  {
    var t := s.transactions[i];
    assert LinkedTx(s.orders, t);
    FindOrderSameIds(s.orders, orders', t.order_id);
    forall j | 0 <= j < |txs'|
      ensures LinkedTx(orders', txs'[j])
    {
      if j != i {
        var u := s.transactions[j];
        assert txs'[j] == u;
        if u.order_id != t.order_id {
          LinkedAfterOrderUpdate(s.orders, k, o', u);
        } else {
          assert u.state <= 0 by {
            if j < i { assert !(u.state > 0 && t.state > 0); } else { assert !(t.state > 0 && u.state > 0); }
          }
          FindOrderSameIds(s.orders, orders', u.order_id);
        }
      }
    }
  }
}
