/** Runs of the saga that go wrong: money lost, money taken twice, and a paid order cancelled. */
module SagaFailures {
  import opened Wrappers
  import opened Store
  import opened PaymentTx
  import opened SagaEvents
  import opened SagaTermination
  import opened SagaCompensation
  import opened SagaOutcomes
  import SerialRuns

  // ---- Both sides of the condition for compensation, and the double price, are met --------------------------

  /** The start of a cascade and one of its events after the other, each pending alone or first. */
  function Initiated(db: Database, orderId: int, userId: int, amount: Money): Saga {
    Saga(db, [PaymentInitiated(Some(orderId), userId, amount)], [])
  }

  lemma {:induction false} RunMore(s: Saga, moves: seq<Move>, i: nat, a: Answer)
    requires i < |Run(s, moves).pending|
    ensures Run(s, moves + [Handle(i, a)]) == Do(Run(s, moves), Handle(i, a))
    ensures Loses(s, moves + [Handle(i, a)])
            <==> Loses(s, moves) || Loss(Run(s, moves).db, Run(s, moves).pending[i], a) != 0.0
  {
    assert (moves + [Handle(i, a)])[..|moves|] == moves;
  }

  predicate Smooth(a: Answer) {
    !a.refused && !a.unlogged
  }

  /** The first handler asks for the deduction. */
  lemma AsksForDeduction(db: Database, orderId: int, userId: int, amount: Money, a: Answer)
    requires orderId in db.orders && Smooth(a)
    ensures var s, request := Initiated(db, orderId, userId, amount),
                              BalanceDeductionRequested(userId, orderId, db.orders[orderId].finalAmount);
            Run(s, [Handle(0, a)]) == Saga(db, [request], [request]) && !Loses(s, [Handle(0, a)])
  {
    var s := Initiated(db, orderId, userId, amount);
    assert Run(s, []) == s;
    RunMore(s, [], 0, a);
    assert [] + [Handle(0, a)] == [Handle(0, a)];
  }

  /** The payment is over and has failed, with or without loss, and leaves this balance. */
  ghost predicate Fails(s: Saga, moves: seq<Move>, orderId: int, userId: int, loses: bool, balance: Money) {
    && Settled(Run(s, moves)) && PaymentFailed(Some(orderId), userId) in Run(s, moves).emitted
    && (Loses(s, moves) <==> loses) && BalanceOf(Run(s, moves).db, userId) == balance
  }

  ghost predicate Completes(s: Saga, moves: seq<Move>, orderId: int, userId: int, price: Money, balance: Money) {
    && Settled(Run(s, moves)) && Event.PaymentCompleted(orderId, userId, price) in Run(s, moves).emitted
    && BalanceOf(Run(s, moves).db, userId) == balance
  }

  /** The order can be paid from the balance at its price. */
  ghost predicate Covered(db: Database, orderId: int, userId: int, price: Money) {
    Costs(db, orderId, price) && userId in db.balances && db.balances[userId] >= price
  }

  /**
   * The deduction goes through and its second history row does not: the payment has failed, and any price at all is
   * lost.
   */
  lemma UnloggedDeductionIsLost(db: Database, orderId: int, userId: int, price: Money, amount: Money, a: Answer)
    requires Covered(db, orderId, userId, price) && price != 0.0 && Smooth(a)
    ensures var s, moves := Initiated(db, orderId, userId, amount), [Handle(0, a), Handle(0, a.(unlogged := true))];
            Starts(s) && Fails(s, moves, orderId, userId, true, BalanceOf(db, userId) - price)
  {
    var s := Initiated(db, orderId, userId, amount);
    AsksForDeduction(db, orderId, userId, amount, a);
    RunMore(s, [Handle(0, a)], 0, a.(unlogged := true));
    assert [Handle(0, a)] + [Handle(0, a.(unlogged := true))] == [Handle(0, a), Handle(0, a.(unlogged := true))];
  }

  /** The deduction goes through and is announced. */
  lemma Deducts(db: Database, orderId: int, userId: int, price: Money, amount: Money, a: Answer)
    requires Covered(db, orderId, userId, price) && Smooth(a)
    ensures var s, moves := Initiated(db, orderId, userId, amount), [Handle(0, a), Handle(0, a)];
            var request, done := BalanceDeductionRequested(userId, orderId, price),
                                 BalanceDeductionCompleted(userId, orderId, price);
            var end := Run(s, moves);
            && end.pending == [done] && end.emitted == [request, done] && !Loses(s, moves)
            && end.db == Effect(db, request, a)
            && BalanceOf(end.db, userId) == BalanceOf(db, userId) - price
  {
    var s := Initiated(db, orderId, userId, amount);
    AsksForDeduction(db, orderId, userId, amount, a);
    RunMore(s, [Handle(0, a)], 0, a);
    assert [Handle(0, a)] + [Handle(0, a)] == [Handle(0, a), Handle(0, a)];
  }

  /** The payment itself is refused after that. */
  lemma {:induction false} AsksForRefund(s: Saga, moves: seq<Move>, userId: int, orderId: int, price: Money, a: Answer)
    requires Run(s, moves).pending == [BalanceDeductionCompleted(userId, orderId, price)] && a.refused
    ensures var more := [BalanceChargeRequested(userId, price), PaymentFailed(Some(orderId), userId)];
            Run(s, moves + [Handle(0, a)]) == Saga(Run(s, moves).db, more, Run(s, moves).emitted + more)
    ensures Loses(s, moves + [Handle(0, a)]) <==> Loses(s, moves)
  {
    RunMore(s, moves, 0, a);
  }

  /** The refund, asked for. */
  lemma RefundStep(s: Saga, userId: int, orderId: int, price: Money, refund: Answer)
    requires s.pending == [BalanceChargeRequested(userId, price), PaymentFailed(Some(orderId), userId)]
    requires userId in s.db.users
    ensures var end := Do(s, Handle(0, refund));
            && Settled(end)
            && BalanceOf(end.db, userId) == BalanceOf(s.db, userId) + (if refund.refused then 0.0 else price)
    ensures Loss(s.db, s.pending[0], refund) == if refund.refused then price else 0.0
  {
    if !refund.refused { ChargeMoves(s.db, userId, price, userId); }
  }

  lemma {:induction false} Refunds(s: Saga, moves: seq<Move>, userId: int, orderId: int, price: Money, refund: Answer)
    requires Run(s, moves).pending == [BalanceChargeRequested(userId, price), PaymentFailed(Some(orderId), userId)]
    requires userId in Run(s, moves).db.users && PaymentFailed(Some(orderId), userId) in Run(s, moves).emitted
    requires price != 0.0 && !Loses(s, moves)
    ensures Fails(s, moves + [Handle(0, refund)], orderId, userId, refund.refused,
                  BalanceOf(Run(s, moves).db, userId) + (if refund.refused then 0.0 else price))
  {
    RefundStep(Run(s, moves), userId, orderId, price, refund);
    RunMore(s, moves, 0, refund);
  }

  /** Then if the refund goes through nothing is lost, and if it is refused too the price is. */
  lemma RefundDecides(db: Database, orderId: int, userId: int, price: Money, amount: Money, a: Answer, refund: Answer)
    requires Covered(db, orderId, userId, price) && price != 0.0 && Smooth(a) && userId in db.users
    ensures var s, moves := Initiated(db, orderId, userId, amount),
                            [Handle(0, a), Handle(0, a)] + [Handle(0, a.(refused := true))] + [Handle(0, refund)];
            var balance := BalanceOf(db, userId) - (if refund.refused then price else 0.0);
            Starts(s) && Fails(s, moves, orderId, userId, refund.refused, balance)
  {
    var s := Initiated(db, orderId, userId, amount);
    var moves := [Handle(0, a), Handle(0, a)];
    Deducts(db, orderId, userId, price, amount, a);
    AsksForRefund(s, moves, userId, orderId, price, a.(refused := true));
    Refunds(s, moves + [Handle(0, a.(refused := true))], userId, orderId, price, refund);
  }

  // ---- The double price ---------------------------------------------------------------------------------

  /** The order can be paid, and the balance covers its price twice. */
  ghost predicate CoveredTwice(db: Database, orderId: int, userId: int, price: Money, paymentId: int) {
    && Covered(db, orderId, userId, price) && db.balances[userId] - price >= price
    && db.orders[orderId].userId == userId && db.orders[orderId].status !in {OrderPaid, OrderCancelled}
    && Reserve(db.stock, LinesOf(db, orderId)).Success? && paymentId !in db.payments
  }

  /** Once the saga has deducted, the payment still goes through. */
  lemma PaysAfterDeduction(db: Database, orderId: int, userId: int, price: Money, a: Answer)
    requires CoveredTwice(db, orderId, userId, price, a.paymentId) && Smooth(a)
    ensures PayTx(Effect(db, BalanceDeductionRequested(userId, orderId, price), a), userId, orderId,
                  a.paymentId).Success?
  {
    var after := Effect(db, BalanceDeductionRequested(userId, orderId, price), a);
    assert after.orders == db.orders && after.items == db.items && after.stock == db.stock;
    assert after.payments == db.payments && after.balances == db.balances[userId := db.balances[userId] - price];
    var reserved := after.(stock := Reserve(after.stock, LinesOf(after, orderId)).value);
    assert PayTx(after, userId, orderId, a.paymentId) == PayBalance(reserved, userId, orderId, price, a.paymentId);
  }

  /** The cascade of such an order, nothing going wrong, completes and takes the price twice. */
  lemma CompletedCascade(db: Database, orderId: int, userId: int, price: Money, amount: Money, a: Answer)
    requires CoveredTwice(db, orderId, userId, price, a.paymentId) && Smooth(a)
    ensures var s, moves := Initiated(db, orderId, userId, amount), [Handle(0, a), Handle(0, a)] + [Handle(0, a)];
            && Starts(s) && OfOrder(s, userId, orderId, price)
            && Completes(s, moves, orderId, userId, price, BalanceOf(db, userId) - 2.0 * price)
  {
    var s, moves := Initiated(db, orderId, userId, amount), [Handle(0, a), Handle(0, a)];
    Deducts(db, orderId, userId, price, amount, a);
    PaysAfterDeduction(db, orderId, userId, price, a);
    EffectKeepsPrices(db, BalanceDeductionRequested(userId, orderId, price), a, orderId, price);
    PayStep(Run(s, moves), userId, orderId, price, a);
    RunMore(s, moves, 0, a);
  }

  /** The payment, asked for after the deduction. */
  lemma PayStep(s: Saga, userId: int, orderId: int, price: Money, a: Answer)
    requires s.pending == [BalanceDeductionCompleted(userId, orderId, price)] && Costs(s.db, orderId, price)
    requires Smooth(a) && PayTx(s.db, userId, orderId, a.paymentId).Success?
    ensures var end := Do(s, Handle(0, a));
            && Settled(end) && Event.PaymentCompleted(orderId, userId, price) in end.emitted
            && BalanceOf(end.db, userId) == BalanceOf(s.db, userId) - price
  {
    PayMovesBalance(s.db, userId, orderId, a.paymentId, userId);
    assert Emits(s.db, s.pending[0], a) == [Event.PaymentCompleted(orderId, userId, price)];
  }

  // ---- One shop where all of this happens ------------------------------------------------------------------

  /** User 1 with 10.0 and the pending order 7, priced 5.0, without lines. */
  const SMALL_SHOP := Database({1}, map[7 := Order(1, 5.0, OrderPending)], map[], map[], map[1 := 10.0], [], map[])

  const CALM := Answer(None, true, None, None, true, false, false, 1)

  /** From the same start the cascade fails with loss, fails without, or completes and costs 10.0. */
  lemma EveryEndingIsReached()
    ensures var s := Initiated(SMALL_SHOP, 7, 1, 5.0);
            && Starts(s)
            && (exists moves :: Fails(s, moves, 7, 1, true, 5.0))
            && (exists moves :: Fails(s, moves, 7, 1, false, 10.0))
            && (exists moves :: Completes(s, moves, 7, 1, 5.0, 0.0))
  {
    FailsBothWays();
    CompletedCascade(SMALL_SHOP, 7, 1, 5.0, 5.0, CALM);
  }

  lemma FailsBothWays()
    ensures var s := Initiated(SMALL_SHOP, 7, 1, 5.0);
            && (exists moves :: Fails(s, moves, 7, 1, true, 5.0))
            && (exists moves :: Fails(s, moves, 7, 1, false, 10.0))
  {
    UnloggedDeductionIsLost(SMALL_SHOP, 7, 1, 5.0, 5.0, CALM);
    RefundDecides(SMALL_SHOP, 7, 1, 5.0, 5.0, CALM, CALM);
  }

  // ---- A paid order is cancelled ----------------------------------------------------------------------------

  /**
   * The handler of PAYMENT_FAILED cancels the order whatever its status: an order that was paid before keeps its
   * completed payment, one that was pending has none. Only an order cancelled already goes on telling its story.
   */
  lemma FailureBreaksOrderStory(db: Database, orderId: int, userId: int, a: Answer)
    requires orderId in db.orders && SerialRuns.OrderStory(db, orderId)
    ensures SerialRuns.OrderStory(Effect(db, PaymentFailed(Some(orderId), userId), a), orderId)
            <==> a.refused || db.orders[orderId].status == OrderCancelled
  {
    var after := Effect(db, PaymentFailed(Some(orderId), userId), a);
    assert SerialRuns.PaymentsOf(after, orderId) == SerialRuns.PaymentsOf(db, orderId);
    if a.refused || db.orders[orderId].status == OrderCancelled {
      if !a.refused { assert after.orders[orderId] == db.orders[orderId]; }
      SerialRuns.StoryUnmoved(db, after, orderId);
    }
  }

  /**
   * Its mirror: the handler of PAYMENT_COMPLETED marks the order paid whatever its status, so that an order cancelled
   * between the payment and its event ends up paid with a cancelled payment.
   */
  lemma CompletionBreaksOrderStory(db: Database, orderId: int, userId: int, amount: Money, a: Answer)
    requires orderId in db.orders && SerialRuns.OrderStory(db, orderId)
    ensures SerialRuns.OrderStory(Effect(db, Event.PaymentCompleted(orderId, userId, amount), a), orderId)
            <==> a.refused || db.orders[orderId].status == OrderPaid
  {
    var after := Effect(db, Event.PaymentCompleted(orderId, userId, amount), a);
    assert SerialRuns.PaymentsOf(after, orderId) == SerialRuns.PaymentsOf(db, orderId);
    if a.refused || db.orders[orderId].status == OrderPaid {
      if !a.refused { assert after.orders[orderId] == db.orders[orderId]; }
      SerialRuns.StoryUnmoved(db, after, orderId);
    }
  }

  /** Nobody else changes the order or its payments, and the status of a failed payment can be written. */
  ghost predicate Undisturbed(s: Saga, moves: seq<Move>, orderId: int) {
    moves == [] ||
    var before, last := Run(s, moves[..|moves| - 1]), moves[|moves| - 1];
    && Undisturbed(s, moves[..|moves| - 1], orderId)
    && (last.Others? ==> SameOrder(before.db, last.db, orderId))
    && (last.Handle? && last.i < |before.pending| && Failed(before.pending[last.i]) ==> !last.answer.refused)
  }

  ghost predicate SameOrder(before: Database, after: Database, orderId: int) {
    && (orderId in before.orders ==> orderId in after.orders && after.orders[orderId] == before.orders[orderId])
    && SamePayments(before, after, orderId)
  }

  ghost predicate SamePayments(before: Database, after: Database, orderId: int) {
    && SerialRuns.PaymentsOf(after, orderId) == SerialRuns.PaymentsOf(before, orderId)
    && (forall p | p in SerialRuns.PaymentsOf(before, orderId) :: after.payments[p] == before.payments[p])
  }

  /** The order's one payment, completed. */
  ghost predicate Stands(db: Database, orderId: int, paymentId: int) {
    && paymentId in db.payments && db.payments[paymentId].status == PaymentStatus.PaymentCompleted
    && SerialRuns.PaymentsOf(db, orderId) == {paymentId}
  }

  ghost predicate HasStatus(db: Database, orderId: int, status: OrderStatus) {
    orderId in db.orders && db.orders[orderId].status == status
  }

  /** Events of a cascade whose payment cannot go through. */
  predicate OnPaidOrder(e: Event, orderId: int) {
    match e
    case PaymentInitiated(o, _, _) => o == Some(orderId)
    case BalanceDeductionRequested(_, o, _) => o == orderId
    case BalanceDeductionCompleted(_, o, _) => o == orderId
    case PaymentFailed(o, _) => o == Some(orderId)
    case BalanceChargeRequested(_, _) => true
    case BalanceChargeCompleted(_, _) => true
    case BalanceChargeFailed(_, _) => true
    case _ => false
  }

  /** The status tells whether PAYMENT_FAILED has been handled; the payment stands either way. */
  ghost predicate PaidOrderTale(s: Saga, orderId: int, paymentId: int) {
    var waiting, announced := CountOf(s.pending, Failed), CountOf(s.emitted, Failed);
    && Stands(s.db, orderId, paymentId)
    && (forall e | e in s.pending :: OnPaidOrder(e, orderId))
    && CountOf(s.emitted, Completed) == 0 && waiting <= announced
    && HasStatus(s.db, orderId, if waiting < announced then OrderCancelled else OrderPaid)
  }

  lemma HandlerOnPaidOrder(db: Database, e: Event, a: Answer, orderId: int, status: OrderStatus)
    requires OnPaidOrder(e, orderId) && HasStatus(db, orderId, status) && status in {OrderPaid, OrderCancelled}
    requires Failed(e) ==> !a.refused
    ensures forall f | f in Emits(db, e, a) :: OnPaidOrder(f, orderId)
    ensures SamePayments(db, Effect(db, e, a), orderId)
    ensures HasStatus(Effect(db, e, a), orderId, if Failed(e) then OrderCancelled else status)
    ensures Failed(e) ==> Emits(db, e, a) == []
  {
  }

  lemma HandleKeepsTale(s: Saga, i: nat, a: Answer, orderId: int, paymentId: int)
    requires PaidOrderTale(s, orderId, paymentId) && i < |s.pending|
    requires Failed(s.pending[i]) ==> !a.refused
    ensures PaidOrderTale(Do(s, Handle(i, a)), orderId, paymentId)
  {
    var e, more := s.pending[i], Emits(s.db, s.pending[i], a);
    assert e in s.pending;
    assert forall f | f in WithoutAt(s.pending, i) :: f in s.pending;
    HandlerOnPaidOrder(s.db, e, a, orderId, s.db.orders[orderId].status);
    CountOfReplace(s.pending, i, more, Failed);
    CountOfJoin(s.emitted, more, Failed);
    CountOfJoin(s.emitted, more, Completed);
    CountOfNone(more, Completed);
    assert paymentId in SerialRuns.PaymentsOf(s.db, orderId);
  }

  lemma {:induction false} EveryRunKeepsTale(s: Saga, moves: seq<Move>, orderId: int, paymentId: int)
    requires PaidOrderTale(s, orderId, paymentId) && Undisturbed(s, moves, orderId)
    ensures PaidOrderTale(Run(s, moves), orderId, paymentId)
  {
    if moves != [] {
      var before, last := Run(s, moves[..|moves| - 1]), moves[|moves| - 1];
      EveryRunKeepsTale(s, moves[..|moves| - 1], orderId, paymentId);
      if last.Others? {
        assert paymentId in SerialRuns.PaymentsOf(before.db, orderId);
      } else if last.i < |before.pending| {
        HandleKeepsTale(before, last.i, last.answer, orderId, paymentId);
      }
    }
  }

  /**
   * A cascade from PAYMENT_INITIATED on an order that is paid already, left alone but for the saga: once it has run
   * dry the order is cancelled, and its payment stands completed.
   */
  lemma {:induction false} PaidOrderEndsCancelled(s: Saga, moves: seq<Move>, orderId: int, paymentId: int)
    requires Starts(s) && s.pending[0].orderRef == Some(orderId)
    requires HasStatus(s.db, orderId, OrderPaid) && Stands(s.db, orderId, paymentId)
    requires Undisturbed(s, moves, orderId) && Run(s, moves).pending == []
    ensures HasStatus(Run(s, moves).db, orderId, OrderCancelled)
    ensures Stands(Run(s, moves).db, orderId, paymentId)
    ensures !SerialRuns.OrderStory(Run(s, moves).db, orderId)
  {
    assert s.pending == [s.pending[0]];
    OneMore(s.pending[0]);
    EveryRunKeepsTale(s, moves, orderId, paymentId);
    SettledHasEnded(s, moves);
    var db := Run(s, moves).db;
    assert paymentId in SerialRuns.PaymentsOf(db, orderId);
  }
}
