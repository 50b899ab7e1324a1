/**
 * Where the money is while a saga runs: on the balance, on its way in an event, spent on a payment, or lost by
 * a call that threw at the wrong moment. Handlers of the saga interleave with any other change of the tables.
 */
module SagaCompensation {
  import opened Wrappers
  import opened Store
  import opened BalanceRepository
  import opened PaymentTx
  import opened SagaEvents
  import opened SagaTermination

  datatype Saga = Saga(db: Database, pending: seq<Event>, emitted: seq<Event>)

  /** A handler takes one pending event, or the rest of the system leaves other tables behind. */
  datatype Move = Handle(i: nat, answer: Answer) | Others(db: Database)

  ghost function Do(s: Saga, move: Move): Saga {
    match move
    case Others(db) => s.(db := db)
    case Handle(i, a) =>
      if i >= |s.pending| then s
      else
        var more := Emits(s.db, s.pending[i], a);
        Saga(Effect(s.db, s.pending[i], a), WithoutAt(s.pending, i) + more, s.emitted + more)
  }

  ghost function Run(s: Saga, moves: seq<Move>): Saga {
    if moves == [] then s else Do(Run(s, moves[..|moves| - 1]), moves[|moves| - 1])
  }

  // ---- Money in events, lost, and spent -------------------------------------------------------------------

  /** What an event owes a user: taken from the balance and not put back or spent yet. */
  function Due(e: Event, v: int): Money {
    match e
    case BalanceDeductionCompleted(u, _, amount) => if u == v then amount else 0.0
    case BalanceChargeRequested(u, amount) => if u == v then amount else 0.0
    case _ => 0.0
  }

  function DueIn(q: seq<Event>, v: int): Money {
    if q == [] then 0.0 else DueIn(q[..|q| - 1], v) + Due(q[|q| - 1], v)
  }

  function UserOf(e: Event): int {
    match e
    case BalanceDeductionRequested(u, _, _) => u
    case BalanceDeductionCompleted(u, _, _) => u
    case BalanceChargeRequested(u, _) => u
    case _ => 0
  }

  /**
   * Money that goes missing at this step: the history row after a deduction throws, so nobody hears of the
   * deduction; or the refund is refused.
   */
  function Loss(db: Database, e: Event, a: Answer): Money {
    match e
    case BalanceDeductionRequested(u, _, amount) =>
      if !a.refused && Deduct(db, u, amount).Success? && a.unlogged then amount else 0.0
    case BalanceChargeRequested(u, amount) =>
      if a.refused || Charge(db, u, amount).Failure? then amount else 0.0
    case _ => 0.0
  }

  /** A payment goes through: it takes the order's amount from the balance, and the deduction stays taken. */
  predicate Pays(db: Database, e: Event, a: Answer) {
    e.BalanceDeductionCompleted? && !a.refused && PayTx(db, e.userId, e.orderId, a.paymentId).Success?
  }

  function Price(db: Database, e: Event, a: Answer): Money {
    if Pays(db, e, a) then e.deductedAmount + AmountOf(db, e.orderId) else 0.0
  }

  function Of(e: Event, amount: Money, v: int): Money {
    if UserOf(e) == v then amount else 0.0
  }

  ghost function LostBy(s: Saga, moves: seq<Move>, v: int): Money {
    if moves == [] then 0.0
    else
      var before, last := Run(s, moves[..|moves| - 1]), moves[|moves| - 1];
      LostBy(s, moves[..|moves| - 1], v)
      + (if last.Handle? && last.i < |before.pending|
         then Of(before.pending[last.i], Loss(before.db, before.pending[last.i], last.answer), v) else 0.0)
  }

  ghost function SpentBy(s: Saga, moves: seq<Move>, v: int): Money {
    if moves == [] then 0.0
    else
      var before, last := Run(s, moves[..|moves| - 1]), moves[|moves| - 1];
      SpentBy(s, moves[..|moves| - 1], v)
      + (if last.Handle? && last.i < |before.pending|
         then Of(before.pending[last.i], Price(before.db, before.pending[last.i], last.answer), v) else 0.0)
  }

  /** What the rest of the system did to a balance. */
  ghost function OutsideBy(s: Saga, moves: seq<Move>, v: int): Money {
    if moves == [] then 0.0
    else
      var before, last := Run(s, moves[..|moves| - 1]), moves[|moves| - 1];
      OutsideBy(s, moves[..|moves| - 1], v)
      + (if last.Others? then BalanceOf(last.db, v) - BalanceOf(before.db, v) else 0.0)
  }

  lemma {:induction false} DueJoin(p: seq<Event>, q: seq<Event>, v: int)
    ensures DueIn(p + q, v) == DueIn(p, v) + DueIn(q, v)
  {
    if q == [] {
      assert p + q == p;
    } else {
      assert (p + q)[..|p + q| - 1] == p + q[..|q| - 1];
      DueJoin(p, q[..|q| - 1], v);
    }
  }

  lemma {:induction false} NothingDue(q: seq<Event>, v: int)
    requires forall e | e in q :: Due(e, v) == 0.0
    ensures DueIn(q, v) == 0.0
  {
    if q != [] { NothingDue(q[..|q| - 1], v); }
  }

  lemma DueWithout(q: seq<Event>, i: nat, v: int)
    requires i < |q|
    ensures DueIn(WithoutAt(q, i), v) == DueIn(q, v) - Due(q[i], v)
  {
    DueJoin(q[..i], q[i + 1..], v);
    assert q == q[..i] + ([q[i]] + q[i + 1..]);
    DueJoin(q[..i], [q[i]] + q[i + 1..], v);
    DueJoin([q[i]], q[i + 1..], v);
    assert DueIn([q[i]], v) == Due(q[i], v) by { assert [q[i]][..0] == []; }
  }

  lemma DueInOne(e: Event, v: int)
    ensures DueIn([e], v) == Due(e, v)
  {
    assert [e][..0] == [];
  }

  lemma DueInTwo(e: Event, f: Event, v: int)
    ensures DueIn([e, f], v) == Due(e, v) + Due(f, v)
  {
    assert [e, f][..1] == [e];
    DueInOne(e, v);
  }

  /** A payment moves its owner's balance by the order's amount, and no other. */
  lemma PayMovesBalance(db: Database, userId: int, orderId: int, paymentId: int, v: int)
    requires PayTx(db, userId, orderId, paymentId).Success?
    ensures orderId in db.orders
    ensures BalanceOf(PayTx(db, userId, orderId, paymentId).value, v)
            == BalanceOf(db, v) - (if v == userId then AmountOf(db, orderId) else 0.0)
  {
    var order := db.orders[orderId];
    var stock := Reserve(db.stock, LinesOf(db, orderId)).value;
    var reserved := db.(stock := stock);
    assert PayTx(db, userId, orderId, paymentId)
           == PayBalance(reserved, userId, orderId, order.finalAmount, paymentId);
    var deducted := Deduct(reserved, userId, order.finalAmount).value;
    assert PayTx(db, userId, orderId, paymentId)
           == PayRecord(deducted, userId, orderId, order.finalAmount, paymentId);
  }

  lemma DeductionBalances(db: Database, e: Event, a: Answer, v: int)
    requires e.BalanceDeductionRequested?
    ensures BalanceOf(Effect(db, e, a), v) + DueIn(Emits(db, e, a), v)
            == BalanceOf(db, v) - Of(e, Loss(db, e, a), v)
  {
    DueInOne(Emits(db, e, a)[0], v);
  }

  lemma ChargeBalances(db: Database, e: Event, a: Answer, v: int)
    requires e.BalanceChargeRequested?
    ensures BalanceOf(Effect(db, e, a), v) + DueIn(Emits(db, e, a), v)
            == BalanceOf(db, v) + Due(e, v) - Of(e, Loss(db, e, a), v)
  {
    DueInOne(Emits(db, e, a)[0], v);
    var charged := if a.refused then Failure(Fault) else Charge(db, e.userId, e.amount);
    if charged.Success? { ChargeMoves(db, e.userId, e.amount, v); }
    assert BalanceOf(Effect(db, e, a), v) == if charged.Success? then BalanceOf(charged.value, v) else BalanceOf(db, v);
  }

  lemma ChargeMoves(db: Database, userId: int, amount: Money, v: int)
    requires Charge(db, userId, amount).Success?
    ensures BalanceOf(Charge(db, userId, amount).value, v)
            == BalanceOf(db, v) + (if v == userId then amount else 0.0)
  {
  }

  lemma PaymentBalances(db: Database, e: Event, a: Answer, v: int)
    requires e.BalanceDeductionCompleted?
    ensures BalanceOf(Effect(db, e, a), v) + DueIn(Emits(db, e, a), v)
            == BalanceOf(db, v) + Due(e, v) - Of(e, Price(db, e, a), v)
  {
    var more := Emits(db, e, a);
    if Pays(db, e, a) {
      PayMovesBalance(db, e.userId, e.orderId, a.paymentId, v);
      DueInOne(more[0], v);
    } else {
      DueInTwo(more[0], more[1], v);
    }
  }

  predicate MovesMoney(e: Event) {
    e.BalanceDeductionRequested? || e.BalanceDeductionCompleted? || e.BalanceChargeRequested?
  }

  lemma OtherEventsBalance(db: Database, e: Event, a: Answer, v: int)
    requires !MovesMoney(e)
    ensures BalanceOf(Effect(db, e, a), v) == BalanceOf(db, v) && DueIn(Emits(db, e, a), v) == 0.0
  {
    forall f | f in Emits(db, e, a) ensures Due(f, v) == 0.0 {}
    NothingDue(Emits(db, e, a), v);
  }

  /** One handler: what leaves the balance is in an event, spent, or lost. */
  lemma HandlerBalances(db: Database, e: Event, a: Answer, v: int)
    ensures BalanceOf(Effect(db, e, a), v) + DueIn(Emits(db, e, a), v)
            == BalanceOf(db, v) + Due(e, v) - Of(e, Loss(db, e, a), v) - Of(e, Price(db, e, a), v)
  {
    if e.BalanceDeductionRequested? {
      DeductionBalances(db, e, a, v);
    } else if e.BalanceChargeRequested? {
      ChargeBalances(db, e, a, v);
    } else if e.BalanceDeductionCompleted? {
      PaymentBalances(db, e, a, v);
    } else {
      OtherEventsBalance(db, e, a, v);
    }
  }

  /**
   * Conservation over every run from any events: a balance plus what events still owe is what it was, plus what
   * others did, less what payments took and what got lost.
   */
  lemma {:induction false} EverySagaConserves(s: Saga, moves: seq<Move>, v: int)
    ensures var end := Run(s, moves);
            BalanceOf(end.db, v) + DueIn(end.pending, v)
            == BalanceOf(s.db, v) + DueIn(s.pending, v)
               + OutsideBy(s, moves, v) - SpentBy(s, moves, v) - LostBy(s, moves, v)
  {
    if moves != [] {
      var before, last := Run(s, moves[..|moves| - 1]), moves[|moves| - 1];
      EverySagaConserves(s, moves[..|moves| - 1], v);
      if last.Handle? && last.i < |before.pending| {
        var e := before.pending[last.i];
        HandlerBalances(before.db, e, last.answer, v);
        DueWithout(before.pending, last.i, v);
        DueJoin(WithoutAt(before.pending, last.i), Emits(before.db, e, last.answer), v);
      }
    }
  }
}
