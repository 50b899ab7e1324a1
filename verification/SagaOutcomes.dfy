/** How a cascade that starts with PAYMENT_INITIATED ends, and why one that starts with a cart checkout never pays. */
module SagaOutcomes {
  import opened Wrappers
  import opened Store
  import opened PaymentTx
  import opened SagaEvents
  import opened SagaTermination
  import opened SagaCompensation

  // ---- Counting events --------------------------------------------------------------------------------

  function CountOf(q: seq<Event>, p: Event -> bool): nat {
    if q == [] then 0 else CountOf(q[..|q| - 1], p) + (if p(q[|q| - 1]) then 1 else 0)
  }

  lemma {:induction false} CountOfJoin(q: seq<Event>, r: seq<Event>, p: Event -> bool)
    ensures CountOf(q + r, p) == CountOf(q, p) + CountOf(r, p)
  {
    if r == [] {
      assert q + r == q;
    } else {
      assert (q + r)[..|q + r| - 1] == q + r[..|r| - 1];
      CountOfJoin(q, r[..|r| - 1], p);
    }
  }

  lemma {:induction false} CountOfNone(q: seq<Event>, p: Event -> bool)
    ensures CountOf(q, p) == 0 <==> forall e | e in q :: !p(e)
  {
    if q != [] {
      CountOfNone(q[..|q| - 1], p);
      assert forall e :: e in q <==> e in q[..|q| - 1] || e == q[|q| - 1];
    }
  }

  lemma CountOfOne(e: Event, p: Event -> bool)
    ensures CountOf([e], p) == if p(e) then 1 else 0
  {
    assert [e][..0] == [];
  }

  lemma CountOfReplace(q: seq<Event>, i: nat, more: seq<Event>, p: Event -> bool)
    requires i < |q|
    ensures CountOf(WithoutAt(q, i) + more, p) == CountOf(q, p) - (if p(q[i]) then 1 else 0) + CountOf(more, p)
  {
    CountOfJoin(WithoutAt(q, i), more, p);
    CountOfJoin(q[..i], q[i + 1..], p);
    assert q == q[..i] + ([q[i]] + q[i + 1..]);
    CountOfJoin(q[..i], [q[i]] + q[i + 1..], p);
    CountOfJoin([q[i]], q[i + 1..], p);
    CountOfOne(q[i], p);
  }

  // ---- The cascade of one payment ---------------------------------------------------------------------------

  /** Events that carry the payment on; the money is where the one pending carrier says. */
  predicate Carrier(e: Event) {
    e.PaymentInitiated? || MovesMoney(e)
  }

  predicate Tail(e: Event) {
    || e.PaymentFailed? || e.PaymentCompleted? || e.BalanceChargeCompleted? || e.BalanceChargeFailed?
    || e.StockUpdated? || e.StockUpdateCompleted? || e.StockUpdateFailed?
  }

  predicate Failed(e: Event) { e.PaymentFailed? }

  predicate Completed(e: Event) { e.PaymentCompleted? }

  /** At some step of the run money went missing. */
  ghost predicate Loses(s: Saga, moves: seq<Move>) {
    moves != [] &&
    var before, last := Run(s, moves[..|moves| - 1]), moves[|moves| - 1];
    || Loses(s, moves[..|moves| - 1])
    || (last.Handle? && last.i < |before.pending| && Loss(before.db, before.pending[last.i], last.answer) != 0.0)
  }

  /** At most one carrier is pending, none once the payment is over, and it is over in exactly one way. */
  ghost predicate Story(pending: seq<Event>, emitted: seq<Event>, lost: bool) {
    var carriers, failed, completed := CountOf(pending, Carrier), CountOf(emitted, Failed), CountOf(emitted, Completed);
    && (forall e | e in pending :: Carrier(e) || Tail(e))
    && carriers <= 1 && failed + completed <= 1
    && (carriers == 0 ==> failed + completed == 1)
    && (completed == 1 ==> carriers == 0 && !lost)
    && (lost ==> carriers == 0)
    && (forall e | e in pending && Carrier(e) :: e.BalanceChargeRequested? <==> failed == 1)
  }

  /** What the handler of a carrier emits: the next carrier, or the end of the payment, or both when refunding. */
  ghost predicate Continues(e: Event, more: seq<Event>, pays: bool, loses: bool) {
    var carriers, failed, completed := CountOf(more, Carrier), CountOf(more, Failed), CountOf(more, Completed);
    && (forall f | f in more :: Carrier(f) || Tail(f))
    && carriers <= 1 && failed <= 1
    && completed == (if pays then 1 else 0)
    && (e.BalanceChargeRequested? ==> carriers == failed == completed == 0)
    && (!e.BalanceChargeRequested? && carriers == 0 ==> failed + completed == 1)
    && (completed == 1 ==> carriers == failed == 0 && !loses)
    && (loses ==> carriers == 0)
    && (forall f | f in more && Carrier(f) :: f.BalanceChargeRequested? <==> failed == 1)
  }

  lemma CarrierContinues(db: Database, e: Event, a: Answer)
    requires Carrier(e)
    ensures Continues(e, Emits(db, e, a), Pays(db, e, a), Loss(db, e, a) != 0.0)
  {
    var more, loses := Emits(db, e, a), Loss(db, e, a) != 0.0;
    if e.BalanceDeductionCompleted? && !Pays(db, e, a) {
      RefundContinues(e, e.userId, e.orderId, e.deductedAmount);
    } else {
      OneContinues(e, more[0], Pays(db, e, a), loses);
      assert more == [more[0]];
    }
  }

  lemma OneContinues(e: Event, f: Event, pays: bool, loses: bool)
    requires Carrier(f) || Tail(f)
    requires Completed(f) <==> pays
    requires e.BalanceChargeRequested? ==> !Carrier(f) && !Failed(f) && !Completed(f)
    requires !e.BalanceChargeRequested? && !Carrier(f) ==> Failed(f) || Completed(f)
    requires loses ==> !Carrier(f) && !Completed(f)
    requires Carrier(f) ==> !f.BalanceChargeRequested?
    ensures Continues(e, [f], pays, loses)
  {
    OneMore(f);
  }

  lemma RefundContinues(e: Event, userId: int, orderId: int, amount: Money)
    requires !e.BalanceChargeRequested?
    ensures Continues(e, [BalanceChargeRequested(userId, amount), PaymentFailed(Some(orderId), userId)], false, false)
  {
    var refund, failed := BalanceChargeRequested(userId, amount), PaymentFailed(Some(orderId), userId);
    OneMore(refund);
    OneMore(failed);
    CountOfJoin([refund], [failed], Carrier);
    CountOfJoin([refund], [failed], Completed);
    CountOfJoin([refund], [failed], Failed);
    assert [refund, failed] == [refund] + [failed];
  }

  lemma OneMore(e: Event)
    ensures CountOf([e], Carrier) == if Carrier(e) then 1 else 0
    ensures CountOf([e], Failed) == if Failed(e) then 1 else 0
    ensures CountOf([e], Completed) == if Completed(e) then 1 else 0
  {
    CountOfOne(e, Carrier);
    CountOfOne(e, Failed);
    CountOfOne(e, Completed);
  }

  lemma CarrierKeepsStory(pending: seq<Event>, emitted: seq<Event>, lost: bool, i: nat, more: seq<Event>,
                          pays: bool, loses: bool)
    requires Story(pending, emitted, lost) && i < |pending| && Carrier(pending[i])
    requires Continues(pending[i], more, pays, loses)
    ensures Story(WithoutAt(pending, i) + more, emitted + more, lost || loses)
    ensures !lost && CountOf(emitted, Completed) == 0
  {
    OnlyCarrier(pending, i);
    CountOfReplace(pending, i, more, Carrier);
    CountOfJoin(emitted, more, Failed);
    CountOfJoin(emitted, more, Completed);
    CountOfNone(more, Carrier);
    assert pending[i] in pending;
    assert forall f | f in WithoutAt(pending, i) :: f in pending;
  }

  lemma OnlyCarrier(pending: seq<Event>, i: nat)
    requires i < |pending| && Carrier(pending[i]) && CountOf(pending, Carrier) <= 1
    ensures CountOf(pending, Carrier) == 1
    ensures forall f | f in WithoutAt(pending, i) :: !Carrier(f)
  {
    CountOfReplace(pending, i, [], Carrier);
    assert WithoutAt(pending, i) + [] == WithoutAt(pending, i);
    CountOfNone(WithoutAt(pending, i), Carrier);
  }

  /** What the handlers of tail events emit: nothing that concerns the payment. */
  lemma TailEmits(db: Database, e: Event, a: Answer)
    requires Tail(e)
    ensures forall f | f in Emits(db, e, a) :: Tail(f) && !Failed(f) && !Completed(f)
    ensures Loss(db, e, a) == 0.0 && !Pays(db, e, a)
  {
  }

  lemma TailKeepsStory(pending: seq<Event>, emitted: seq<Event>, lost: bool, i: nat, more: seq<Event>)
    requires Story(pending, emitted, lost) && i < |pending| && !Carrier(pending[i])
    requires forall f | f in more :: Tail(f) && !Failed(f) && !Completed(f)
    ensures Story(WithoutAt(pending, i) + more, emitted + more, lost)
  {
    CountOfReplace(pending, i, more, Carrier);
    CountOfJoin(emitted, more, Failed);
    CountOfJoin(emitted, more, Completed);
    CountOfNone(more, Carrier);
    CountOfNone(more, Failed);
    CountOfNone(more, Completed);
    assert forall f | f in WithoutAt(pending, i) :: f in pending;
  }

  /** The story so far; nothing is lost but by a losing step, nor spent but by a completed payment. */
  ghost predicate Told(s: Saga, moves: seq<Move>) {
    var end := Run(s, moves);
    && Story(end.pending, end.emitted, Loses(s, moves))
    && (CountOf(end.emitted, Completed) == 0 ==> forall v :: SpentBy(s, moves, v) == 0.0)
    && (!Loses(s, moves) ==> forall v :: LostBy(s, moves, v) == 0.0)
    && (Loses(s, moves) ==> exists v :: LostBy(s, moves, v) != 0.0)
  }

  ghost predicate Starts(s: Saga) {
    |s.pending| == 1 && s.pending[0].PaymentInitiated? && s.emitted == []
  }

  lemma {:induction false} EveryRunTells(s: Saga, moves: seq<Move>)
    requires Starts(s)
    ensures Told(s, moves)
  {
    if moves == [] {
      assert s.pending == [s.pending[0]];
      OneMore(s.pending[0]);
    } else {
      EveryRunTells(s, moves[..|moves| - 1]);
      var before, last := Run(s, moves[..|moves| - 1]), moves[|moves| - 1];
      if last.Handle? && last.i < |before.pending| {
        HandleTells(s, moves);
      } else {
        OthersTell(s, moves);
      }
    }
  }

  lemma OthersTell(s: Saga, moves: seq<Move>)
    requires moves != [] && Told(s, moves[..|moves| - 1])
    requires var last := moves[|moves| - 1];
             last.Handle? ==> last.i >= |Run(s, moves[..|moves| - 1]).pending|
    ensures Told(s, moves)
  {
    var early := moves[..|moves| - 1];
    assert forall v :: LostBy(s, moves, v) == LostBy(s, early, v);
    assert forall v :: SpentBy(s, moves, v) == SpentBy(s, early, v);
    if Loses(s, early) {
      var v :| LostBy(s, early, v) != 0.0;
      assert LostBy(s, moves, v) != 0.0;
    }
  }

  /** One handler's part of the story, and what it may lose or spend. */
  lemma HandleStory(s: Saga, lost: bool, i: nat, a: Answer)
    requires Story(s.pending, s.emitted, lost) && i < |s.pending|
    ensures var loss, pays := Loss(s.db, s.pending[i], a), Pays(s.db, s.pending[i], a);
            var end := Do(s, Handle(i, a));
            && Story(end.pending, end.emitted, lost || loss != 0.0)
            && (lost ==> loss == 0.0)
            && CountOf(end.emitted, Completed) == CountOf(s.emitted, Completed) + (if pays then 1 else 0)
  {
    var e, more := s.pending[i], Emits(s.db, s.pending[i], a);
    CountOfJoin(s.emitted, more, Completed);
    if Carrier(e) {
      CarrierContinues(s.db, e, a);
      CarrierKeepsStory(s.pending, s.emitted, lost, i, more, Pays(s.db, e, a), Loss(s.db, e, a) != 0.0);
    } else {
      assert e in s.pending;
      TailEmits(s.db, e, a);
      CountOfNone(more, Completed);
      TailKeepsStory(s.pending, s.emitted, lost, i, more);
    }
  }

  lemma HandleTells(s: Saga, moves: seq<Move>)
    requires moves != [] && Told(s, moves[..|moves| - 1])
    requires var last := moves[|moves| - 1];
             last.Handle? && last.i < |Run(s, moves[..|moves| - 1]).pending|
    ensures Told(s, moves)
  {
    var early := moves[..|moves| - 1];
    var before, last := Run(s, early), moves[|moves| - 1];
    var e := before.pending[last.i];
    HandleStory(before, Loses(s, early), last.i, last.answer);
    var loss, price := Loss(before.db, e, last.answer), Price(before.db, e, last.answer);
    LastStep(s, moves, e, loss, price);
    if Loses(s, early) {
      var v :| LostBy(s, early, v) != 0.0;
      assert LostBy(s, moves, v) != 0.0;
    } else if loss != 0.0 {
      assert LostBy(s, moves, UserOf(e)) != 0.0;
    }
  }

  lemma LastStep(s: Saga, moves: seq<Move>, e: Event, loss: Money, price: Money)
    requires moves != []
    requires var before, last := Run(s, moves[..|moves| - 1]), moves[|moves| - 1];
             && last.Handle? && last.i < |before.pending| && e == before.pending[last.i]
             && loss == Loss(before.db, e, last.answer) && price == Price(before.db, e, last.answer)
    ensures Loses(s, moves) <==> Loses(s, moves[..|moves| - 1]) || loss != 0.0
    ensures forall v :: LostBy(s, moves, v) == LostBy(s, moves[..|moves| - 1], v) + Of(e, loss, v)
    ensures forall v :: SpentBy(s, moves, v) == SpentBy(s, moves[..|moves| - 1], v) + Of(e, price, v)
  {
  }

  /** No carrier is pending: the payment is over, and its money is where it stays. */
  ghost predicate Settled(s: Saga) {
    forall e | e in s.pending :: !Carrier(e)
  }

  /** A cascade from PAYMENT_INITIATED that has settled emitted exactly one of PAYMENT_FAILED and PAYMENT_COMPLETED. */
  lemma {:induction false} SettledHasEnded(s: Saga, moves: seq<Move>)
    requires Starts(s)
    requires Settled(Run(s, moves))
    ensures CountOf(Run(s, moves).emitted, Failed) + CountOf(Run(s, moves).emitted, Completed) == 1
  {
    EveryRunTells(s, moves);
    CountOfNone(Run(s, moves).pending, Carrier);
  }

  /**
   * Compensation. Whatever made the payment fail, once its cascade has settled no user's balance differs by
   * anything but what others did in the meantime, if and only if no step lost money: no history row failed
   * after a deduction, and no refund was refused.
   */
  lemma {:induction false} FailedPaymentCostsNothing(s: Saga, moves: seq<Move>)
    requires Starts(s)
    requires var end := Run(s, moves); Settled(end) && exists e | e in end.emitted :: Failed(e)
    ensures (forall v :: BalanceOf(Run(s, moves).db, v) == BalanceOf(s.db, v) + OutsideBy(s, moves, v))
            <==> !Loses(s, moves)
  {
    var end := Run(s, moves);
    SettledHasEnded(s, moves);
    EveryRunTells(s, moves);
    CountOfNone(end.emitted, Failed);
    forall v ensures BalanceOf(end.db, v)
                     == BalanceOf(s.db, v) + OutsideBy(s, moves, v) - LostBy(s, moves, v)
    {
      EverySagaConserves(s, moves, v);
      NothingDueWhenSettled(s, end, v);
    }
  }

  // ---- The cascade that succeeds --------------------------------------------------------------------------

  predicate Costs(db: Database, orderId: int, price: Money) {
    orderId in db.orders && db.orders[orderId].finalAmount == price
  }

  lemma EffectKeepsPrices(db: Database, e: Event, a: Answer, orderId: int, price: Money)
    requires Costs(db, orderId, price)
    ensures Costs(Effect(db, e, a), orderId, price)
  {
    if Pays(db, e, a) { PayKeepsPrices(db, e.userId, e.orderId, a.paymentId, orderId, price); }
  }

  lemma PayKeepsPrices(db: Database, userId: int, paidId: int, paymentId: int, orderId: int, price: Money)
    requires Costs(db, orderId, price) && PayTx(db, userId, paidId, paymentId).Success?
    ensures Costs(PayTx(db, userId, paidId, paymentId).value, orderId, price)
  {
    var amount := db.orders[paidId].finalAmount;
    var reserved := db.(stock := Reserve(db.stock, LinesOf(db, paidId)).value);
    assert PayTx(db, userId, paidId, paymentId) == PayBalance(reserved, userId, paidId, amount, paymentId);
    assert Costs(reserved, orderId, price);
  }

  /** The events of one payment carry its user, its order, and the order's price. */
  predicate Concerns(e: Event, userId: int, orderId: int, price: Money) {
    match e
    case PaymentInitiated(o, u, _) => u == userId && o == Some(orderId)
    case BalanceDeductionRequested(u, o, amount) => u == userId && o == orderId && amount == price
    case BalanceDeductionCompleted(u, o, amount) => u == userId && o == orderId && amount == price
    case _ => Carrier(e) || Tail(e)
  }

  lemma EmitsConcern(db: Database, e: Event, a: Answer, userId: int, orderId: int, price: Money)
    requires Concerns(e, userId, orderId, price) && Costs(db, orderId, price)
    ensures forall f | f in Emits(db, e, a) :: Concerns(f, userId, orderId, price)
    ensures Price(db, e, a) == if Pays(db, e, a) then 2.0 * price else 0.0
    ensures Pays(db, e, a) ==> UserOf(e) == userId
  {
  }

  ghost predicate OfOrder(s: Saga, userId: int, orderId: int, price: Money) {
    Costs(s.db, orderId, price) && forall e | e in s.pending :: Concerns(e, userId, orderId, price)
  }

  lemma HandleKeepsPrice(s: Saga, i: nat, a: Answer, userId: int, orderId: int, price: Money)
    requires OfOrder(s, userId, orderId, price) && i < |s.pending|
    ensures OfOrder(Do(s, Handle(i, a)), userId, orderId, price)
    ensures Price(s.db, s.pending[i], a) == if Pays(s.db, s.pending[i], a) then 2.0 * price else 0.0
    ensures Pays(s.db, s.pending[i], a) ==> UserOf(s.pending[i]) == userId
  {
    assert s.pending[i] in s.pending;
    assert forall f | f in WithoutAt(s.pending, i) :: f in s.pending;
    EmitsConcern(s.db, s.pending[i], a, userId, orderId, price);
    EffectKeepsPrices(s.db, s.pending[i], a, orderId, price);
  }

  lemma {:induction false} EveryRunKeepsPrice(s: Saga, moves: seq<Move>, userId: int, orderId: int, price: Money)
    requires OfOrder(s, userId, orderId, price)
    requires forall i | 0 <= i < |moves| && moves[i].Others? :: Costs(moves[i].db, orderId, price)
    ensures OfOrder(Run(s, moves), userId, orderId, price)
  {
    if moves != [] {
      var before, last := Run(s, moves[..|moves| - 1]), moves[|moves| - 1];
      EveryRunKeepsPrice(s, moves[..|moves| - 1], userId, orderId, price);
      if last.Handle? && last.i < |before.pending| {
        HandleKeepsPrice(before, last.i, last.answer, userId, orderId, price);
      }
    }
  }

  lemma {:induction false} SpentTwice(s: Saga, moves: seq<Move>, userId: int, orderId: int, price: Money, v: int)
    requires Starts(s) && OfOrder(s, userId, orderId, price)
    requires forall i | 0 <= i < |moves| && moves[i].Others? :: Costs(moves[i].db, orderId, price)
    ensures SpentBy(s, moves, v)
            == if v == userId && CountOf(Run(s, moves).emitted, Completed) > 0 then 2.0 * price else 0.0
  {
    if moves != [] {
      var early, last := moves[..|moves| - 1], moves[|moves| - 1];
      var before := Run(s, early);
      SpentTwice(s, early, userId, orderId, price, v);
      if last.Handle? && last.i < |before.pending| {
        var e := before.pending[last.i];
        EveryRunKeepsPrice(s, early, userId, orderId, price);
        HandleKeepsPrice(before, last.i, last.answer, userId, orderId, price);
        EveryRunTells(s, early);
        EveryRunTells(s, moves);
        HandleStory(before, Loses(s, early), last.i, last.answer);
        LastStep(s, moves, e, Loss(before.db, e, last.answer), Price(before.db, e, last.answer));
      }
    }
  }

  /** A completed cascade takes the price twice: once as the requested deduction, once as the payment itself. */
  lemma {:induction false} CompletedPaymentCostsTwice(s: Saga, moves: seq<Move>, userId: int, orderId: int,
                                                     price: Money, v: int)
    requires Starts(s) && OfOrder(s, userId, orderId, price)
    requires forall i | 0 <= i < |moves| && moves[i].Others? :: Costs(moves[i].db, orderId, price)
    requires exists e | e in Run(s, moves).emitted :: Completed(e)
    ensures BalanceOf(Run(s, moves).db, v)
            == BalanceOf(s.db, v) + OutsideBy(s, moves, v) - (if v == userId then 2.0 * price else 0.0)
  {
    var end := Run(s, moves);
    EveryRunTells(s, moves);
    SpentTwice(s, moves, userId, orderId, price, v);
    CountOfNone(end.emitted, Completed);
    CountOfNone(end.pending, Carrier);
    EverySagaConserves(s, moves, v);
    NothingDueWhenSettled(s, end, v);
  }

  lemma {:induction false} NothingDueWhenSettled(s: Saga, end: Saga, v: int)
    requires Starts(s) && Settled(end)
    ensures DueIn(s.pending, v) == 0.0 && DueIn(end.pending, v) == 0.0
  {
    assert s.pending == [s.pending[0]];
    DueInOne(s.pending[0], v);
    NothingDue(end.pending, v);
  }

  // ---- Cascades from cart checkouts ------------------------------------------------------------------------

  /** Events that name no order; none of their handlers can touch one, or any money. */
  predicate Nameless(e: Event) {
    match e
    case CartCheckoutRequested(_) => true
    case CartValidationRequested(_, _) => true
    case CartValidationCompleted(_, _) => true
    case CartValidationFailed => true
    case StockCheckRequested(_) => true
    case StockCheckCompleted(_, _) => true
    case OrderCreated(o, _, _, c, _) => o.None? && c.None?
    case PaymentInitiated(o, _, _) => o.None?
    case PaymentFailed(o, _) => o.None?
    case _ => false
  }

  predicate IsOrder(e: Event) { e.OrderCreated? }

  predicate Underway(e: Event) { e.OrderCreated? || e.PaymentInitiated? }

  lemma NamelessEmits(db: Database, e: Event, a: Answer)
    requires Nameless(e)
    ensures Effect(db, e, a) == db
    ensures forall f | f in Emits(db, e, a) :: Nameless(f)
  {
  }

  lemma CheckoutCounts(u: int, a: Answer)
    ensures var more := CheckoutEmits(u, a);
            && CountOf(more, Failed) == 0 && CountOf(more, IsOrder) == CountOf(more, Underway)
  {
    var more := CheckoutEmits(u, a);
    CountOfNone(more, Failed);
    if a.cart.None? || a.cart.value == [] {
      CountOfNone(more, IsOrder);
      CountOfNone(more, Underway);
    } else {
      var cart := a.cart.value;
      var order := OrderCreated(None, u, ItemsOf(cart), None, CartTotal(cart));
      var rest := if a.emptied then [] else [CartValidationFailed];
      JoinCounts(Validations(u, cart), order, rest);
    }
  }

  /** One event among others that are neither orders nor payments. */
  lemma JoinCounts(front: seq<Event>, e: Event, rest: seq<Event>)
    requires forall f | f in front || f in rest :: !Underway(f)
    ensures CountOf(front + [e] + rest, IsOrder) == if IsOrder(e) then 1 else 0
    ensures CountOf(front + [e] + rest, Underway) == if Underway(e) then 1 else 0
  {
    CountOfNone(front, IsOrder);
    CountOfNone(front, Underway);
    CountOfNone(rest, IsOrder);
    CountOfNone(rest, Underway);
    CountOfJoin(front + [e], rest, IsOrder);
    CountOfJoin(front + [e], rest, Underway);
    CountOfJoin(front, [e], IsOrder);
    CountOfJoin(front, [e], Underway);
    CountOfOne(e, IsOrder);
    CountOfOne(e, Underway);
  }

  lemma NamelessCounts(db: Database, e: Event, a: Answer)
    requires Nameless(e)
    ensures var more := Emits(db, e, a);
            CountOf(more, IsOrder) + (if Underway(e) then 1 else 0) == CountOf(more, Underway) + CountOf(more, Failed)
  {
    var more := Emits(db, e, a);
    if e.CartCheckoutRequested? {
      CheckoutCounts(e.userId, a);
    } else if e.OrderCreated? {
      JoinCounts(StockChecks(e.items), PaymentInitiated(e.orderRef, e.userId, e.totalAmount), []);
      assert more == StockChecks(e.items) + [PaymentInitiated(e.orderRef, e.userId, e.totalAmount)] + [];
      CountOfNone(more, Failed);
    } else if e.PaymentInitiated? {
      CountOfOne(more[0], IsOrder);
      CountOfOne(more[0], Underway);
      CountOfOne(more[0], Failed);
    } else {
      CountOfNone(more, IsOrder);
      CountOfNone(more, Underway);
      CountOfNone(more, Failed);
    }
  }

  /** The tables the rest of the system left last. */
  ghost function LastTables(db: Database, moves: seq<Move>): Database {
    if moves == [] then db
    else if moves[|moves| - 1].Others? then moves[|moves| - 1].db
    else LastTables(db, moves[..|moves| - 1])
  }

  /**
   * The payload a checkout builds has no order id, so nothing that follows from checkouts changes a table:
   * no order is paid, no balance or stock moves, and every order announced ends in PAYMENT_FAILED.
   */
  lemma {:induction false} CheckoutsNeverPay(s: Saga, moves: seq<Move>)
    requires s.emitted == [] && forall e | e in s.pending :: e.CartCheckoutRequested?
    ensures var end := Run(s, moves);
            && (forall e | e in end.emitted || e in end.pending :: Nameless(e))
            && end.db == LastTables(s.db, moves)
            && CountOf(end.emitted, IsOrder) == CountOf(end.pending, Underway) + CountOf(end.emitted, Failed)
  {
    if moves == [] {
      CountOfNone(s.pending, Underway);
    } else {
      var before, last := Run(s, moves[..|moves| - 1]), moves[|moves| - 1];
      CheckoutsNeverPay(s, moves[..|moves| - 1]);
      if last.Handle? && last.i < |before.pending| {
        var e := before.pending[last.i];
        var more := Emits(before.db, e, last.answer);
        assert e in before.pending;
        assert forall f | f in WithoutAt(before.pending, last.i) :: f in before.pending;
        NamelessEmits(before.db, e, last.answer);
        NamelessCounts(before.db, e, last.answer);
        CountOfReplace(before.pending, last.i, more, Underway);
        CountOfJoin(before.emitted, more, IsOrder);
        CountOfJoin(before.emitted, more, Failed);
      }
    }
  }
}
