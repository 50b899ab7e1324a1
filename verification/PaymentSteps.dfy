/** Every call a client makes keeps it coherent: what is left to do still completes to the whole transaction. */
module PaymentSteps {
  import opened Wrappers
  import opened Store
  import opened PaymentTx
  import opened StockLoop
  import opened PaymentClient

  lemma ViewNothing(db: Database)
    ensures View(db, NO_WRITES) == db
  {
    var view := View(db, NO_WRITES);
    assert view.orders == db.orders;
    assert view.payments == db.payments;
    assert view.stock == db.stock;
    assert view.balances == db.balances;
  }

  /** Listing the lines in another order changes nothing that lasts. */
  lemma FinishLinesAnyOrder(view: Database, l: Client, a: seq<Line>, b: seq<Line>, paymentId: int)
    requires multiset(a) == multiset(b) && Quantities(b)
    ensures SameEffect(FinishLines(view, l, a, paymentId), FinishLines(view, l, b, paymentId))
  {
    ReserveAnyOrder(view.stock, a, b);
    ReturnAnyOrder(view.stock, a, b);
  }

  lemma StepReadOrder(db: Database, at: Database, l: Client, paymentId: int)
    requires WellFormed(l) && l.phase.First? && Paying(l) && ReadOrder(at, l).Success?
    requires Agrees(db, ReadOrder(at, l).value)
    ensures Finish(db, l, paymentId) == Finish(db, ReadOrder(at, l).value, paymentId)
  {
    ViewNothing(db);
    ViewNothing(at);
    assert OrderIs(l.request.orderId, at.orders[l.request.orderId]) in ReadOrder(at, l).value.seen;
  }

  lemma StepReadPayment(db: Database, at: Database, l: Client, paymentId: int)
    requires WellFormed(l) && l.phase.First? && !Paying(l) && ReadPayment(at, l).Success?
    requires Agrees(db, ReadPayment(at, l).value)
    ensures Finish(db, l, paymentId) == Finish(db, ReadPayment(at, l).value, paymentId)
  {
    ViewNothing(db);
  }

  lemma StepReadLines(db: Database, l: Client, found: seq<Line>, paymentId: int)
    requires WellFormed(l) && l.phase.FetchLines? && Quantities(found)
    requires Agrees(db, ReadLines(l, found))
    ensures SameEffect(Finish(db, l, paymentId), Finish(db, ReadLines(l, found), paymentId))
  {
    var after, view := ReadLines(l, found), View(db, l.writes);
    assert LinesAre(l.orderId, multiset(found)) in after.seen;
    FinishLinesAnyOrder(view, l, LinesOf(db, l.orderId), found, paymentId);
    FromLine(view, after, 0, paymentId);
    assert found[0..] == found;
  }

  /** Between two lines, or after the last one, what is left is the remaining lines. */
  lemma FromLine(view: Database, l: Client, k: nat, paymentId: int)
    requires k <= |l.lines|
    ensures k == |l.lines| ==> FinishLines(view, l, l.lines[k..], paymentId) == FinishBalance(view, l, paymentId)
  {
    if k == |l.lines| {
      assert l.lines[k..] == [];
      assert view.(stock := view.stock) == view;
    }
  }

  /** Agreeing on the stock rows read means seeing the same stock through the overlay. */
  lemma SameStockSeen(db: Database, at: Database, l: Client, v: int)
    requires v in View(at, l.writes).stock
    requires forall f | f in StockRead(at, l.writes, v) :: HoldsIn(db, f)
    ensures v in View(db, l.writes).stock && View(db, l.writes).stock[v] == View(at, l.writes).stock[v]
  {
    if v !in l.writes.stock {
      assert StockIs(v, at.stock[v]) in StockRead(at, l.writes, v);
    }
  }

  lemma StepCheckOne(db: Database, at: Database, l: Client, paymentId: int)
    requires WellFormed(l) && l.phase.CheckLine? && CheckOne(at, l, l.phase.index).Success?
    requires Agrees(db, CheckOne(at, l, l.phase.index).value)
    ensures Finish(db, l, paymentId) == Finish(db, CheckOne(at, l, l.phase.index).value, paymentId)
  {
    var k := l.phase.index;
    SameStockSeen(db, at, l, l.lines[k].variantId);
    ReserveFirst(View(db, l.writes), l, k, paymentId);
  }

  lemma ReserveFirst(view: Database, l: Client, k: nat, paymentId: int)
    requires k < |l.lines| && Paying(l)
    requires l.lines[k].variantId in view.stock && view.stock[l.lines[k].variantId] >= l.lines[k].quantity
    ensures FinishLines(view, l, l.lines[k..], paymentId) == FinishUpdate(view, l, k, paymentId)
  {
    var rest := l.lines[k..];
    assert rest[0] == l.lines[k] && rest[1..] == l.lines[k + 1..];
  }

  lemma ReturnFirst(view: Database, l: Client, k: nat, paymentId: int)
    requires k < |l.lines| && !Paying(l)
    ensures FinishLines(view, l, l.lines[k..], paymentId) == FinishUpdate(view, l, k, paymentId)
  {
    var rest := l.lines[k..];
    assert rest[0] == l.lines[k] && rest[1..] == l.lines[k + 1..];
  }

  lemma StepUpdateOne(db: Database, at: Database, l: Client, paymentId: int)
    requires WellFormed(l) && l.phase.UpdateLine? && UpdateOne(at, l, l.phase.index).Success?
    requires Agrees(db, UpdateOne(at, l, l.phase.index).value)
    ensures Finish(db, l, paymentId) == Finish(db, UpdateOne(at, l, l.phase.index).value, paymentId)
  {
    var k := l.phase.index;
    var v := l.lines[k].variantId;
    SameStockSeen(db, at, l, v);
    ViewStock(db, l.writes, v, Moved(l, View(db, l.writes).stock[v], l.lines[k]));
  }

  lemma ViewStock(db: Database, w: Writes, v: int, quantity: int)
    ensures View(db, w.(stock := w.stock[v := quantity]))
            == View(db, w).(stock := View(db, w).stock[v := quantity])
  {
    assert db.stock + w.stock[v := quantity] == (db.stock + w.stock)[v := quantity];
  }

  lemma ViewBook(db: Database, w: Writes, u: int, balance: Money, row: HistoryRow)
    ensures View(db, w.(balances := w.balances[u := balance], history := w.history + [row]))
            == View(db, w).(balances := View(db, w).balances[u := balance], history := View(db, w).history + [row])
  {
    assert db.balances + w.balances[u := balance] == (db.balances + w.balances)[u := balance];
    assert db.history + (w.history + [row]) == (db.history + w.history) + [row];
  }

  lemma StepMoveOne(db: Database, at: Database, l: Client, paymentId: int)
    requires WellFormed(l) && l.phase.MoveBalance? && MoveOne(at, l).Success?
    requires forall f | f in MoveOne(at, l).value.seen :: HoldsIn(db, f)
    ensures Finish(db, l, paymentId) == Finish(db, MoveOne(at, l).value, paymentId)
  {
    MoveThenRecord(db, at, l, paymentId);
  }

  lemma MoveThenRecord(db: Database, at: Database, l: Client, paymentId: int)
    requires MoveOne(at, l).Success?
    requires forall f | f in MoveOne(at, l).value.seen :: HoldsIn(db, f)
    ensures var after := MoveOne(at, l).value;
            FinishBalance(View(db, l.writes), l, paymentId) == FinishRecord(View(db, after.writes), after, paymentId)
  {
    MoveOneView(db, at, l);
    var after := MoveOne(at, l).value;
    assert after.request == l.request && after.orderId == l.orderId && after.amount == l.amount;
    FinishAfterMove(View(db, l.writes), l, paymentId);
  }

  lemma FinishAfterMove(view: Database, l: Client, paymentId: int)
    requires MoveMoney(view, l).Success?
    ensures FinishBalance(view, l, paymentId) == FinishRecord(MoveMoney(view, l).value, l, paymentId)
  {
  }

  lemma MoveOneView(db: Database, at: Database, l: Client)
    requires MoveOne(at, l).Success?
    requires forall f | f in MoveOne(at, l).value.seen :: HoldsIn(db, f)
    ensures MoveMoney(View(db, l.writes), l) == Success(View(db, MoveOne(at, l).value.writes))
  {
    var u, seen := l.request.userId, MoveOne(at, l).value.seen;
    var view, earlier := View(db, l.writes), View(at, l.writes);
    if u !in l.writes.balances { assert BalanceIs(u, Lookup(at.balances, u)) in seen; }
    if !Paying(l) { assert UserPresent(u) in seen; }
    SameMove(view, earlier, l);
    var rows := MoveMoney(earlier, l).value;
    ViewBook(db, l.writes, u, rows.balances[u], rows.history[|earlier.history|]);
  }

  /** The balance move depends on the balance row alone. */
  lemma SameMove(view: Database, earlier: Database, l: Client)
    requires Lookup(view.balances, l.request.userId) == Lookup(earlier.balances, l.request.userId)
    requires !Paying(l) ==> l.request.userId in view.users
    requires MoveMoney(earlier, l).Success?
    ensures MoveMoney(view, l).Success?
    ensures |MoveMoney(earlier, l).value.history| == |earlier.history| + 1
    ensures var u, rows := l.request.userId, MoveMoney(earlier, l).value;
            MoveMoney(view, l).value == view.(balances := view.balances[u := rows.balances[u]],
                                              history := view.history + [rows.history[|earlier.history|]])
  {
  }

  lemma StepRecordPayment(db: Database, at: Database, l: Client, freshId: int, paymentId: int)
    requires WellFormed(l) && l.phase.WritePayment? && RecordPayment(at, l, freshId).Success?
    requires Agrees(db, RecordPayment(at, l, freshId).value)
    requires Paying(l) ==> paymentId == freshId
    ensures Finish(db, l, paymentId) == Finish(db, RecordPayment(at, l, freshId).value, paymentId)
  {
    if Paying(l) { StepInsertPayment(db, at, l, freshId); } else { StepCancelPayment(db, at, l, freshId, paymentId); }
  }

  lemma StepInsertPayment(db: Database, at: Database, l: Client, freshId: int)
    requires WellFormed(l) && l.phase.WritePayment? && RecordPayment(at, l, freshId).Success? && Paying(l)
    requires Agrees(db, RecordPayment(at, l, freshId).value)
    ensures Finish(db, l, freshId) == Finish(db, RecordPayment(at, l, freshId).value, freshId)
  {
    assert freshId !in db.payments;
    assert freshId !in View(db, l.writes).payments;
    ViewInsert(db, l.writes, freshId, Payment(l.orderId, l.request.userId, l.amount, PaymentCompleted));
  }

  lemma StepCancelPayment(db: Database, at: Database, l: Client, freshId: int, paymentId: int)
    requires WellFormed(l) && l.phase.WritePayment? && RecordPayment(at, l, freshId).Success? && !Paying(l)
    requires Agrees(db, RecordPayment(at, l, freshId).value)
    ensures Finish(db, l, paymentId) == Finish(db, RecordPayment(at, l, freshId).value, paymentId)
  {
    assert l.request.paymentId in View(db, l.writes).payments;
    ViewStatus(db, l.writes, l.request.paymentId, PaymentCancelled);
  }

  lemma ViewInsert(db: Database, w: Writes, p: int, payment: Payment)
    requires w.statuses == map[]
    ensures View(db, w.(payments := w.payments[p := payment])) == InsertPayment(View(db, w), p, payment)
  {
    assert View(db, w.(payments := w.payments[p := payment])).payments == View(db, w).payments[p := payment];
  }

  lemma ViewStatus(db: Database, w: Writes, p: int, status: PaymentStatus)
    requires p in View(db, w).payments
    ensures View(db, w.(statuses := w.statuses[p := status])) == SetPaymentStatus(View(db, w), p, status)
  {
    assert View(db, w.(statuses := w.statuses[p := status])).payments
           == View(db, w).payments[p := View(db, w).payments[p].(status := status)];
  }

  lemma StepRecordOrder(db: Database, at: Database, l: Client, paymentId: int)
    requires WellFormed(l) && l.phase.WriteOrder? && RecordOrder(at, l).Success?
    requires Agrees(db, RecordOrder(at, l).value)
    ensures Finish(db, l, paymentId) == Finish(db, RecordOrder(at, l).value, paymentId)
  {
    assert OrderPresent(l.orderId) in RecordOrder(at, l).value.seen;
    ViewOrder(db, l.writes, l.orderId, FinalStatus(l));
  }

  lemma ViewOrder(db: Database, w: Writes, o: int, status: OrderStatus)
    requires o in db.orders
    ensures View(db, w.(orders := w.orders[o := status]))
            == View(db, w).(orders := View(db, w).orders[o := View(db, w).orders[o].(status := status)])
  {
    assert View(db, w.(orders := w.orders[o := status])).orders
           == View(db, w).orders[o := View(db, w).orders[o].(status := status)];
  }

  /** Whatever the call was, running the rest before it or after it comes to the same. */
  lemma {:induction false} StepKeepsEffect(db: Database, at: Database, l: Client, found: seq<Line>,
                                          freshId: int, paymentId: int)
    requires WellFormed(l) && Working(l.phase) && TxStep(at, l, found, freshId).Success?
    requires l.phase.FetchLines? ==> Quantities(found)
    requires var after := TxStep(at, l, found, freshId).value;
             Agrees(db, after) && (Allocated(after) ==> paymentId == after.paymentId)
    ensures InRange(TxStep(at, l, found, freshId).value)
    ensures SameEffect(Finish(db, l, paymentId), Finish(db, TxStep(at, l, found, freshId).value, paymentId))
  {
    match l.phase
    case First =>
      if Paying(l) { StepReadOrder(db, at, l, paymentId); } else { StepReadPayment(db, at, l, paymentId); }
    case FetchLines => StepReadLines(db, l, found, paymentId);
    case CheckLine(_) => StepCheckOne(db, at, l, paymentId);
    case UpdateLine(_) => StepUpdateOne(db, at, l, paymentId);
    case MoveBalance => StepMoveOne(db, at, l, paymentId);
    case WritePayment => StepRecordPayment(db, at, l, freshId, paymentId);
    case WriteOrder => StepRecordOrder(db, at, l, paymentId);
  }

  /** What a call that does not throw leaves alone, and where it leads. */
  lemma StepShape(at: Database, l: Client, found: seq<Line>, freshId: int)
    requires Working(l.phase) && InRange(l) && TxStep(at, l, found, freshId).Success?
    ensures var after := TxStep(at, l, found, freshId).value;
            && after.request == l.request && l.seen <= after.seen
            && after.phase == NextPhase(l, found)
            && after.lines == (if l.phase.FetchLines? then found else l.lines)
            && after.paymentId == (if l.phase.WritePayment? && Paying(l) then freshId else l.paymentId)
            && (!(l.phase.First? && !Paying(l)) ==> after.readPayment == l.readPayment)
            && (l.phase.First? && !Paying(l) ==>
                  l.request.paymentId in at.payments && after.readPayment == Some(at.payments[l.request.paymentId]))
            && (l.phase.WritePayment? && Paying(l) ==> freshId !in at.payments)
  {
  }

  lemma StepKeepsWellFormed(at: Database, l: Client, found: seq<Line>, freshId: int)
    requires WellFormed(l) && Working(l.phase) && TxStep(at, l, found, freshId).Success?
    requires l.phase.FetchLines? ==> Quantities(found)
    ensures var after := TxStep(at, l, found, freshId).value;
            && WellFormed(after) && after.request == l.request && l.seen <= after.seen
            && InTx(after.phase) && !after.phase.First?
  {
  }

  /** One call keeps a client well formed and coherent, whatever the tables were when it ran. */
  lemma {:induction false} StepKeepsCoherent(at: Database, l: Client, found: seq<Line>, freshId: int)
    requires WellFormed(l) && Coherent(l) && Working(l.phase) && TxStep(at, l, found, freshId).Success?
    requires l.phase.FetchLines? ==> Quantities(found)
    ensures WellFormed(TxStep(at, l, found, freshId).value) && Coherent(TxStep(at, l, found, freshId).value)
  {
    StepKeepsWellFormed(at, l, found, freshId);
    var after := TxStep(at, l, found, freshId).value;
    forall db, paymentId | Agrees(db, after) && (Allocated(after) ==> paymentId == after.paymentId)
      ensures SameEffect(Finish(db, after, paymentId), Atomic(db, after.request, paymentId))
    {
      AgreesBefore(db, at, l, found, freshId);
      StepKeepsEffect(db, at, l, found, freshId, paymentId);
      assert SameEffect(Finish(db, l, paymentId), Atomic(db, l.request, paymentId));
    }
  }

  lemma AgreesBefore(db: Database, at: Database, l: Client, found: seq<Line>, freshId: int)
    requires WellFormed(l) && Working(l.phase) && TxStep(at, l, found, freshId).Success?
    requires Agrees(db, TxStep(at, l, found, freshId).value)
    ensures Agrees(db, l) && (Allocated(l) ==> TxStep(at, l, found, freshId).value.paymentId == l.paymentId)
  {
    assert l.seen <= TxStep(at, l, found, freshId).value.seen;
  }
}
