/**
 * What the handlers announce, told of payloads, answers and tables alone, and what whole cascades of stock checks and
 * stock updates come to (src/orchestration).
 */
module SagaLaws {
  import opened Wrappers
  import opened Store
  import opened PaymentTx
  import opened SagaEvents
  import opened SagaTermination
  import opened SagaCompensation
  import opened SagaOutcomes
  import opened StockLoop
  import PaymentLaws
  import Pricing

  // ---- One handler each -----------------------------------------------------------------------------------

  /** A product that cannot be read, a variant it does not have, and one with too few units are all unavailable. */
  lemma StockCheckAnswers(db: Database, item: Item, a: Answer)
    ensures Emits(db, StockCheckRequested(item), a)
            == [StockCheckCompleted(item, a.variants.Some? && item.variantId in a.variants.value
                                          && a.variants.value[item.variantId] >= item.quantity)]
    ensures Emits(db, StockCheckCompleted(item, false), a) == [CartValidationFailed]
    ensures Emits(db, StockCheckCompleted(item, true), a) == []
  {
  }

  /** A validation asks once for every item, in order, and then announces completion whatever the answers. */
  lemma ValidationAsks(db: Database, u: int, items: seq<Item>, a: Answer)
    ensures var more := Emits(db, CartValidationRequested(u, items), a);
            && |more| == |items| + 1 && more[|items|] == CartValidationCompleted(u, items)
            && forall i | 0 <= i < |items| :: more[i] == StockCheckRequested(items[i])
  {
  }

  /** A new order has every item checked, its coupon if it names one, and is then to be paid. */
  lemma OrderAsks(db: Database, o: Option<int>, u: int, items: seq<Item>, c: Option<int>, total: Money, a: Answer)
    ensures var more := Emits(db, OrderCreated(o, u, items, c, total), a);
            && |more| == |items| + (if c.Some? && c.value != 0 then 2 else 1)
            && (forall i | 0 <= i < |items| :: more[i] == StockCheckRequested(items[i]))
            && (c.Some? && c.value != 0 ==> more[|items|] == CouponValidationRequested(u, c.value, o, total))
            && more[|more| - 1] == PaymentInitiated(o, u, total)
  {
  }

  /** A cart that cannot be read or is empty fails; any other has each item validated and is ordered as a whole. */
  lemma CheckoutAsks(db: Database, u: int, a: Answer)
    ensures var more := Emits(db, CartCheckoutRequested(u), a);
            && (a.cart == None || a.cart == Some([]) ==> more == [CartValidationFailed])
            && (a.cart.Some? && a.cart.value != [] ==>
                  var cart := a.cart.value;
                  && |more| == |cart| + (if a.emptied then 1 else 2)
                  && (forall i | 0 <= i < |cart| :: more[i] == CartValidationRequested(u, [cart[i].item]))
                  && more[|cart|].OrderCreated? && more[|cart|].orderRef == None && more[|cart|].couponRef == None
                  && more[|cart|].userId == u && |more[|cart|].items| == |cart|
                  && (forall i | 0 <= i < |cart| :: more[|cart|].items[i] == cart[i].item)
                  && more[|cart|].totalAmount == CartTotal(cart)
                  && (!a.emptied ==> more[|cart| + 1] == CartValidationFailed))
  {
  }

  /** Each cart item counts with price times quantity, and carts with the sum of theirs. */
  lemma {:induction false} CartTotalIsSum(a: seq<CartItem>, b: seq<CartItem>, item: CartItem)
    ensures CartTotal([]) == 0.0 && CartTotal([item]) == item.price * item.item.quantity as real
    ensures CartTotal(a + b) == CartTotal(a) + CartTotal(b)
  {
    assert [item][..0] == [];
    if b == [] {
      assert a + b == a;
    } else {
      CartTotalIsSum(a, b[..|b| - 1], item);
      assert (a + b)[..|a + b| - 1] == a + b[..|b| - 1];
    }
  }

  /** A coupon is valid just when the user has one to use and the amount meets its minimum. */
  lemma CouponAnswers(db: Database, u: int, c: int, o: Option<int>, amount: Money, a: Answer)
    ensures var more := Emits(db, CouponValidationRequested(u, c, o, amount), a);
            && |more| == 1
            && (a.coupon == None || a.coupon.value.minOrderAmount > amount ==>
                  more[0] == CouponValidationFailed(u, c, o))
            && (a.coupon.Some? && a.coupon.value.minOrderAmount <= amount ==>
                  && more[0].CouponValidationCompleted? && more[0].userId == u && more[0].couponId == c
                  && more[0].orderRef == o
                  && var d := more[0].discountAmount;
                     if a.coupon.value.kind.Percentage? then
                       && d == d.Floor as real
                       && 100.0 * d <= amount * a.coupon.value.amount < 100.0 * (d + 1.0)
                     else d == a.coupon.value.amount)
  {
    if a.coupon.Some? { Pricing.SagaRoundsDown(a.coupon.value, amount); }
  }

  lemma CouponIssueAnswers(db: Database, u: int, f: int, a: Answer)
    ensures Emits(db, CouponIssueRequested(u, f), a)
            == [if a.issued then CouponIssueCompleted(u, f) else CouponIssueFailed(u, f)]
  {
  }

  /** The deduction asked for is the order's final amount, whatever the payload says. */
  lemma InitiationAsks(db: Database, o: Option<int>, u: int, amount: Money, a: Answer)
    ensures Emits(db, PaymentInitiated(o, u, amount), a)
            == if !a.refused && o.Some? && o.value in db.orders
               then [BalanceDeductionRequested(u, o.value, db.orders[o.value].finalAmount)]
               else [PaymentFailed(o, u)]
  {
  }

  /** A deduction is announced just when it was made and logged twice; made and logged once, it is a failure. */
  lemma DeductionAnswers(db: Database, u: int, o: int, amount: Money, a: Answer)
    ensures var e := BalanceDeductionRequested(u, o, amount);
            var made := !a.refused && u in db.balances && db.balances[u] >= amount;
            var after := Effect(db, e, a);
            && Emits(db, e, a) == [if made && !a.unlogged then BalanceDeductionCompleted(u, o, amount)
                                   else PaymentFailed(Some(o), u)]
            && (!made ==> after == db)
            && (made ==>
                  var row := HistoryRow(u, UseRow, amount, db.balances[u] - amount);
                  after == db.(balances := db.balances[u := db.balances[u] - amount],
                               history := db.history + (if a.unlogged then [row] else [row, row])))
  {
    PaymentLaws.BalanceLaws(db, u, amount);
    if !a.refused && u in db.balances && db.balances[u] >= amount {
      var row := HistoryRow(u, UseRow, amount, db.balances[u] - amount);
      assert db.history + [row] + [row] == db.history + [row, row];
    }
  }

  /** A charge is announced as completed just when it was made and logged twice. */
  lemma ChargeAnswers(db: Database, u: int, amount: Money, a: Answer)
    ensures var e := BalanceChargeRequested(u, amount);
            var made := !a.refused && u in db.users;
            var after, left := Effect(db, e, a), (if u in db.balances then db.balances[u] else 0.0) + amount;
            && Emits(db, e, a) == [if made && !a.unlogged then BalanceChargeCompleted(u, amount)
                                   else BalanceChargeFailed(u, amount)]
            && (!made ==> after == db)
            && (made ==>
                  && after == db.(balances := after.balances, history := after.history)
                  && after.balances == db.balances[u := left]
                  && after.history == db.history + [HistoryRow(u, RefundRow, amount, left)]
                                      + (if a.unlogged then [] else [HistoryRow(u, ChargeRow, amount, left)]))
  {
    PaymentLaws.BalanceLaws(db, u, amount);
  }

  /** After the deduction the order is paid in one go, or the deducted amount asked back and failure announced. */
  lemma PaymentAnswers(db: Database, u: int, o: int, deducted: Money, a: Answer)
    ensures var e, paid := BalanceDeductionCompleted(u, o, deducted), PayTx(db, u, o, a.paymentId);
            if !a.refused && paid.Success? then
              && Effect(db, e, a) == paid.value
              && o in db.orders && Emits(db, e, a) == [Event.PaymentCompleted(o, u, db.orders[o].finalAmount)]
            else
              && Effect(db, e, a) == db
              && Emits(db, e, a) == [BalanceChargeRequested(u, deducted), PaymentFailed(Some(o), u)]
  {
  }

  /** A completed payment marks its order paid and asks for the units of each of the order's rows, in order. */
  lemma CompletionAsks(db: Database, o: int, u: int, amount: Money, a: Answer, rows: seq<Line>)
    requires rows == if o in db.items then db.items[o] else []
    ensures var e := Event.PaymentCompleted(o, u, amount);
            && (a.refused || o !in db.orders ==> Effect(db, e, a) == db && Emits(db, e, a) == [])
            && (!a.refused && o in db.orders ==>
                  && Effect(db, e, a) == db.(orders := db.orders[o := db.orders[o].(status := OrderPaid)])
                  && (a.unlogged ==> Emits(db, e, a) == [])
                  && (!a.unlogged ==>
                        && |Emits(db, e, a)| == |rows|
                        && forall i | 0 <= i < |rows| ::
                             Emits(db, e, a)[i] == StockUpdated(rows[i].variantId, rows[i].quantity, true)))
  {
    PaymentLaws.RowsOfOrder(db, o);
  }

  /** A failed payment cancels the order it names, if that can be written, and announces nothing. */
  lemma FailureAnswers(db: Database, o: Option<int>, u: int, a: Answer)
    ensures Emits(db, PaymentFailed(o, u), a) == []
    ensures Effect(db, PaymentFailed(o, u), a)
            == if a.refused || o == None || o.value !in db.orders then db
               else db.(orders := db.orders[o.value := db.orders[o.value].(status := OrderCancelled)])
  {
  }

  // ---- Cascades of stock checks -----------------------------------------------------------------------------

  /** What the product cache answers for a product, throughout a run. */
  type Catalog = int -> Option<map<int, int>>

  predicate Short(catalog: Catalog, item: Item) {
    var variants := catalog(item.productId);
    variants == None || item.variantId !in variants.value || variants.value[item.variantId] < item.quantity
  }

  function ShortItems(catalog: Catalog, items: seq<Item>): nat {
    if items == [] then 0
    else ShortItems(catalog, items[..|items| - 1]) + (if Short(catalog, items[|items| - 1]) then 1 else 0)
  }

  /** The failures an event leads to. */
  function FailuresDue(catalog: Catalog, e: Event): nat {
    match e
    case CartValidationRequested(_, items) => ShortItems(catalog, items)
    case OrderCreated(_, _, items, _, _) => ShortItems(catalog, items)
    case StockCheckRequested(item) => if Short(catalog, item) then 1 else 0
    case StockCheckCompleted(_, isAvailable) => if isAvailable then 0 else 1
    case _ => 0
  }

  function FailuresIn(catalog: Catalog, q: seq<Event>): nat {
    if q == [] then 0
    else FailuresIn(catalog, q[..|q| - 1]) + FailuresDue(catalog, q[|q| - 1])
  }

  predicate ValidationFailure(e: Event) { e.CartValidationFailed? }

  lemma {:induction false} FailuresJoin(catalog: Catalog, p: seq<Event>, q: seq<Event>)
    ensures FailuresIn(catalog, p + q) == FailuresIn(catalog, p) + FailuresIn(catalog, q)
  {
    if q == [] {
      assert p + q == p;
    } else {
      assert (p + q)[..|p + q| - 1] == p + q[..|q| - 1];
      FailuresJoin(catalog, p, q[..|q| - 1]);
    }
  }

  lemma {:induction false} FailuresOfOne(catalog: Catalog, e: Event)
    ensures FailuresIn(catalog, [e]) == FailuresDue(catalog, e)
  {
    assert [e][..0] == [];
  }

  lemma {:induction false} FailuresWithout(catalog: Catalog, q: seq<Event>, i: nat)
    requires i < |q|
    ensures FailuresIn(catalog, WithoutAt(q, i)) == FailuresIn(catalog, q) - FailuresDue(catalog, q[i])
  {
    FailuresJoin(catalog, q[..i], q[i + 1..]);
    assert q == q[..i] + ([q[i]] + q[i + 1..]);
    FailuresJoin(catalog, q[..i], [q[i]] + q[i + 1..]);
    FailuresJoin(catalog, [q[i]], q[i + 1..]);
    FailuresOfOne(catalog, q[i]);
  }

  lemma {:induction false} NoFailures(catalog: Catalog, q: seq<Event>)
    requires forall e | e in q :: FailuresDue(catalog, e) == 0
    ensures FailuresIn(catalog, q) == 0
  {
    if q != [] { NoFailures(catalog, q[..|q| - 1]); }
  }

  /** The checks of a list of items lead to as many failures as items are short. */
  lemma {:induction false} ChecksLeadTo(catalog: Catalog, items: seq<Item>)
    ensures FailuresIn(catalog, StockChecks(items)) == ShortItems(catalog, items)
    ensures CountOf(StockChecks(items), ValidationFailure) == 0
  {
    if items != [] {
      var n := |items| - 1;
      ChecksLeadTo(catalog, items[..n]);
      assert StockChecks(items) == StockChecks(items[..n]) + [StockCheckRequested(items[n])];
      FailuresJoin(catalog, StockChecks(items[..n]), [StockCheckRequested(items[n])]);
      FailuresOfOne(catalog, StockCheckRequested(items[n]));
    }
    CountOfNone(StockChecks(items), ValidationFailure);
  }

  /** One handler: the failures an event leads to are announced or in what it emits. */
  lemma {:induction false} HandlerPassesFailuresOn(catalog: Catalog, db: Database, e: Event, a: Answer)
    requires !e.CartCheckoutRequested? && (e.StockCheckRequested? ==> a.variants == catalog(e.item.productId))
    ensures var more := Emits(db, e, a);
            FailuresIn(catalog, more) + CountOf(more, ValidationFailure) == FailuresDue(catalog, e)
  {
    var more := Emits(db, e, a);
    if e.CartValidationRequested? {
      ChecksLeadTo(catalog, e.items);
      FailuresJoin(catalog, StockChecks(e.items), [CartValidationCompleted(e.userId, e.items)]);
      FailuresOfOne(catalog, CartValidationCompleted(e.userId, e.items));
      CountOfNone(more, ValidationFailure);
    } else if e.OrderCreated? {
      OrderPassesFailuresOn(catalog, db, e, a);
    } else if e.StockCheckRequested? {
      StockCheckAnswers(db, e.item, a);
      FailuresOfOne(catalog, more[0]);
      CountOfOne(more[0], ValidationFailure);
    } else if e.StockCheckCompleted? {
      if !e.isAvailable {
        FailuresOfOne(catalog, CartValidationFailed);
        CountOfOne(CartValidationFailed, ValidationFailure);
      }
    } else {
      forall f | f in more ensures FailuresDue(catalog, f) == 0 && !ValidationFailure(f) {}
      NoFailures(catalog, more);
      CountOfNone(more, ValidationFailure);
    }
  }

  lemma {:induction false} OrderPassesFailuresOn(catalog: Catalog, db: Database, e: Event, a: Answer)
    requires e.OrderCreated?
    ensures FailuresIn(catalog, Emits(db, e, a)) == ShortItems(catalog, e.items)
    ensures CountOf(Emits(db, e, a), ValidationFailure) == 0
  {
    var checks, coupon := StockChecks(e.items), CouponCheck(e.orderRef, e.userId, e.couponRef, e.totalAmount);
    var payment := [PaymentInitiated(e.orderRef, e.userId, e.totalAmount)];
    ChecksLeadTo(catalog, e.items);
    FailuresJoin(catalog, checks + coupon, payment);
    FailuresJoin(catalog, checks, coupon);
    NoFailures(catalog, coupon);
    NoFailures(catalog, payment);
    CountOfNone(Emits(db, e, a), ValidationFailure);
  }

  /** Nobody checks out meanwhile, and the cache answers as the catalog says. */
  ghost predicate Browsed(catalog: Catalog, s: Saga, moves: seq<Move>) {
    moves == [] ||
    var before, last := Run(s, moves[..|moves| - 1]), moves[|moves| - 1];
    && Browsed(catalog, s, moves[..|moves| - 1])
    && (last.Handle? && last.i < |before.pending| && before.pending[last.i].StockCheckRequested? ==>
          last.answer.variants == catalog(before.pending[last.i].item.productId))
  }

  lemma NoCheckoutEmitted(db: Database, e: Event, a: Answer)
    ensures forall f | f in Emits(db, e, a) :: !f.CartCheckoutRequested?
  {
  }

  /**
   * In every cascade of validations and orders, in whatever order events are handled, the failures announced and those
   * still to come are as many as there are short items to be checked.
   */
  lemma {:induction false} EveryShortItemFails(catalog: Catalog, s: Saga, moves: seq<Move>)
    requires s.emitted == [] && forall e | e in s.pending :: !e.CartCheckoutRequested?
    requires Browsed(catalog, s, moves)
    ensures var end := Run(s, moves);
            && (forall e | e in end.pending :: !e.CartCheckoutRequested?)
            && CountOf(end.emitted, ValidationFailure) + FailuresIn(catalog, end.pending)
               == FailuresIn(catalog, s.pending)
  {
    if moves != [] {
      var before, last := Run(s, moves[..|moves| - 1]), moves[|moves| - 1];
      EveryShortItemFails(catalog, s, moves[..|moves| - 1]);
      if last.Handle? && last.i < |before.pending| {
        var e := before.pending[last.i];
        var more := Emits(before.db, e, last.answer);
        assert e in before.pending;
        assert forall f | f in WithoutAt(before.pending, last.i) :: f in before.pending;
        NoCheckoutEmitted(before.db, e, last.answer);
        HandlerPassesFailuresOn(catalog, before.db, e, last.answer);
        FailuresWithout(catalog, before.pending, last.i);
        FailuresJoin(catalog, WithoutAt(before.pending, last.i), more);
        CountOfJoin(before.emitted, more, ValidationFailure);
      }
    }
  }

  lemma {:induction false} ShortJustWhenOneIs(catalog: Catalog, items: seq<Item>)
    ensures ShortItems(catalog, items) > 0 <==> exists i | 0 <= i < |items| :: Short(catalog, items[i])
  {
    if items != [] {
      var n := |items| - 1;
      ShortJustWhenOneIs(catalog, items[..n]);
      if i: int :| 0 <= i < |items| && Short(catalog, items[i]) {
        if i < n { assert Short(catalog, items[..n][i]); }
      }
    }
  }

  /**
   * The validation of a list of items, run dry, announces CART_VALIDATION_FAILED if and only if some product cannot be
   * read, or does not have the variant, or has too few units of it.
   */
  lemma {:induction false} ValidationFailsJustWhenShort(catalog: Catalog, db: Database, u: int, items: seq<Item>,
                                                       moves: seq<Move>)
    requires var s := Saga(db, [CartValidationRequested(u, items)], []);
             Browsed(catalog, s, moves) && Run(s, moves).pending == []
    ensures CartValidationFailed in Run(Saga(db, [CartValidationRequested(u, items)], []), moves).emitted
            <==> exists i | 0 <= i < |items| ::
                   var variants := catalog(items[i].productId);
                   || variants == None || items[i].variantId !in variants.value
                   || variants.value[items[i].variantId] < items[i].quantity
  {
    var s := Saga(db, [CartValidationRequested(u, items)], []);
    EveryShortItemFails(catalog, s, moves);
    FailuresOfOne(catalog, CartValidationRequested(u, items));
    ShortJustWhenOneIs(catalog, items);
    CountOfNone(Run(s, moves).emitted, ValidationFailure);
    if i: int :| 0 <= i < |items| && Short(catalog, items[i]) {
      assert catalog(items[i].productId) == None || items[i].variantId !in catalog(items[i].productId).value
             || catalog(items[i].productId).value[items[i].variantId] < items[i].quantity;
    }
  }

  // ---- Cascades of stock updates ----------------------------------------------------------------------------

  function UnitsDue(e: Event, v: int): int {
    if e.StockUpdated? && e.variantId == v then e.quantity else 0
  }

  function UnitsIn(q: seq<Event>, v: int): int {
    if q == [] then 0 else UnitsIn(q[..|q| - 1], v) + UnitsDue(q[|q| - 1], v)
  }

  lemma {:induction false} UnitsJoin(p: seq<Event>, q: seq<Event>, v: int)
    ensures UnitsIn(p + q, v) == UnitsIn(p, v) + UnitsIn(q, v)
  {
    if q == [] {
      assert p + q == p;
    } else {
      assert (p + q)[..|p + q| - 1] == p + q[..|q| - 1];
      UnitsJoin(p, q[..|q| - 1], v);
    }
  }

  lemma {:induction false} UnitsOfOne(e: Event, v: int)
    ensures UnitsIn([e], v) == UnitsDue(e, v)
  {
    assert [e][..0] == [];
  }

  lemma {:induction false} UnitsWithout(q: seq<Event>, i: nat, v: int)
    requires i < |q|
    ensures UnitsIn(WithoutAt(q, i), v) == UnitsIn(q, v) - UnitsDue(q[i], v)
  {
    UnitsJoin(q[..i], q[i + 1..], v);
    assert q == q[..i] + ([q[i]] + q[i + 1..]);
    UnitsJoin(q[..i], [q[i]] + q[i + 1..], v);
    UnitsJoin([q[i]], q[i + 1..], v);
    UnitsOfOne(q[i], v);
  }

  lemma {:induction false} UnitsNotNegative(q: seq<Event>, v: int)
    requires forall e | e in q && e.StockUpdated? :: e.quantity >= 1
    ensures UnitsIn(q, v) >= 0
  {
    if q != [] { UnitsNotNegative(q[..|q| - 1], v); }
  }

  lemma {:induction false} UpdatesAskForNeed(rows: seq<Line>, v: int)
    ensures UnitsIn(StockUpdates(rows), v) == Needed(rows, v)
  {
    if rows != [] {
      var n := |rows| - 1;
      UpdatesAskForNeed(rows[..n], v);
      var last := StockUpdated(rows[n].variantId, rows[n].quantity, true);
      assert StockUpdates(rows) == StockUpdates(rows[..n]) + [last];
      UnitsJoin(StockUpdates(rows[..n]), [last], v);
      UnitsOfOne(last, v);
      assert rows == rows[..n] + [rows[n]];
      PaymentLaws.NeededIsSum(rows[..n], [rows[n]], rows[n], v);
    }
  }

  /** The events after a completed payment, each decrease covered by the stock together with all the others. */
  ghost predicate Updating(s: Saga) {
    && (forall e | e in s.pending :: e.StockUpdated? || e.StockUpdateCompleted?)
    && (forall e | e in s.pending && e.StockUpdated? :: e.decrease && e.quantity >= 1 && e.variantId in s.db.stock)
    && (forall v | v in s.db.stock :: UnitsIn(s.pending, v) <= s.db.stock[v])
  }

  predicate Quiet(move: Move) {
    move.Handle? && !move.answer.refused && !move.answer.unlogged
  }

  /** The decrease is covered, so it is made and announced. */
  lemma {:induction false} UpdateIsMade(s: Saga, i: nat, a: Answer)
    requires Updating(s) && i < |s.pending| && Quiet(Handle(i, a)) && s.pending[i].StockUpdated?
    ensures var w, quantity := s.pending[i].variantId, s.pending[i].quantity;
            && w in s.db.stock
            && Effect(s.db, s.pending[i], a) == s.db.(stock := s.db.stock[w := s.db.stock[w] - quantity])
            && Emits(s.db, s.pending[i], a) == [StockUpdateCompleted(w, quantity, true)]
  {
    var e := s.pending[i];
    assert e in s.pending;
    assert forall f | f in WithoutAt(s.pending, i) :: f in s.pending;
    UnitsWithout(s.pending, i, e.variantId);
    UnitsNotNegative(WithoutAt(s.pending, i), e.variantId);
  }

  lemma {:induction false} UnitsReplaced(q: seq<Event>, i: nat, e: Event, v: int)
    requires i < |q|
    ensures UnitsIn(WithoutAt(q, i), v) == UnitsIn(q, v) - UnitsDue(q[i], v)
    ensures UnitsIn(WithoutAt(q, i) + [e], v) == UnitsIn(q, v) - UnitsDue(q[i], v) + UnitsDue(e, v)
  {
    UnitsWithout(q, i, v);
    UnitsJoin(WithoutAt(q, i), [e], v);
    UnitsOfOne(e, v);
  }

  lemma {:induction false} UpdateKeepsUnits(s: Saga, i: nat, a: Answer, v: int)
    requires Updating(s) && i < |s.pending| && Quiet(Handle(i, a)) && v in s.db.stock
    ensures var after := Do(s, Handle(i, a));
            && v in after.db.stock
            && after.db.stock[v] - UnitsIn(after.pending, v) == s.db.stock[v] - UnitsIn(s.pending, v)
  {
    var e := s.pending[i];
    assert e in s.pending;
    if e.StockUpdated? {
      UpdateIsMade(s, i, a);
      UnitsReplaced(s.pending, i, StockUpdateCompleted(e.variantId, e.quantity, true), v);
    } else {
      AnnouncementChangesNothing(s, i, a);
      UnitsWithout(s.pending, i, v);
    }
  }

  lemma AnnouncementChangesNothing(s: Saga, i: nat, a: Answer)
    requires i < |s.pending| && s.pending[i].StockUpdateCompleted?
    ensures Do(s, Handle(i, a)).db == s.db && Do(s, Handle(i, a)).pending == WithoutAt(s.pending, i)
  {
    assert WithoutAt(s.pending, i) + [] == WithoutAt(s.pending, i);
  }

  lemma {:induction false} EveryUpdateIsMade(s: Saga, moves: seq<Move>)
    requires Updating(s) && forall k | 0 <= k < |moves| :: Quiet(moves[k])
    ensures var end := Run(s, moves);
            && Updating(end) && end.db.stock.Keys == s.db.stock.Keys
            && forall v | v in s.db.stock ::
                 end.db.stock[v] - UnitsIn(end.pending, v) == s.db.stock[v] - UnitsIn(s.pending, v)
  {
    if moves != [] {
      var before, last := Run(s, moves[..|moves| - 1]), moves[|moves| - 1];
      EveryUpdateIsMade(s, moves[..|moves| - 1]);
      if last.i < |before.pending| {
        assert Quiet(last);
        forall v | v in before.db.stock
          ensures var end := Run(s, moves);
                  && v in end.db.stock
                  && end.db.stock[v] - UnitsIn(end.pending, v) == before.db.stock[v] - UnitsIn(before.pending, v)
        {
          UpdateKeepsUnits(before, last.i, last.answer, v);
        }
        UpdateKeepsEvents(before, last.i, last.answer);
      }
    }
  }

  lemma UpdateKeepsEvents(s: Saga, i: nat, a: Answer)
    requires Updating(s) && i < |s.pending| && Quiet(Handle(i, a))
    ensures var after := Do(s, Handle(i, a));
            && after.db.stock.Keys == s.db.stock.Keys
            && (forall e | e in after.pending :: e.StockUpdated? || e.StockUpdateCompleted?)
            && (forall e | e in after.pending && e.StockUpdated? :: e in s.pending)
  {
    var e := s.pending[i];
    assert e in s.pending;
    assert forall f | f in WithoutAt(s.pending, i) :: f in s.pending;
    if e.StockUpdated? { UpdateIsMade(s, i, a); }
  }

  /**
   * The cascade of a completed payment, undisturbed and run dry, takes from stock the units of all the order's rows if
   * there are enough: once more than the payment took already.
   */
  lemma {:induction false} CompletionTakesStock(db: Database, o: int, u: int, amount: Money, first: Answer,
                                               moves: seq<Move>, rows: seq<Line>, v: int)
    requires o in db.orders && rows == (if o in db.items then db.items[o] else [])
    requires Quantities(rows) && Enough(db.stock, rows) && Quiet(Handle(0, first))
    requires forall w | w in db.stock :: db.stock[w] >= 0
    requires forall k | 0 <= k < |moves| :: Quiet(moves[k])
    requires var s := Do(Saga(db, [Event.PaymentCompleted(o, u, amount)], []), Handle(0, first));
             Run(s, moves).pending == []
    ensures var s := Do(Saga(db, [Event.PaymentCompleted(o, u, amount)], []), Handle(0, first));
            v in db.stock ==>
              v in Run(s, moves).db.stock && Run(s, moves).db.stock[v] == db.stock[v] - Needed(rows, v)
  {
    var s := Do(Saga(db, [Event.PaymentCompleted(o, u, amount)], []), Handle(0, first));
    CompletionStarts(db, o, u, amount, first, rows);
    EveryUpdateIsMade(s, moves);
    UpdatesAskForNeed(rows, v);
  }

  lemma {:induction false} CompletionStarts(db: Database, o: int, u: int, amount: Money, a: Answer, rows: seq<Line>)
    requires o in db.orders && rows == (if o in db.items then db.items[o] else [])
    requires Quantities(rows) && Enough(db.stock, rows) && Quiet(Handle(0, a))
    requires forall w | w in db.stock :: db.stock[w] >= 0
    ensures var s := Do(Saga(db, [Event.PaymentCompleted(o, u, amount)], []), Handle(0, a));
            s.db.stock == db.stock && s.pending == StockUpdates(rows) && Updating(s)
  {
    CompletionAsks(db, o, u, amount, a, rows);
    PaymentLaws.RowsOfOrder(db, o);
    forall w | w in db.stock ensures UnitsIn(StockUpdates(rows), w) <= db.stock[w] {
      UpdatesAskForNeed(rows, w);
      NeededNonNegative(rows, w);
    }
  }
}
