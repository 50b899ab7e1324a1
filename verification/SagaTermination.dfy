/** Every cascade of events runs dry, however large the carts and orders and whatever the calls come back with. */
module SagaTermination {
  import opened Store
  import opened BalanceRepository
  import opened PaymentRepository
  import opened SagaEvents
  import opened Orchestrators

  const TOP: nat := 7

  function Rank(e: Event): nat {
    match e
    case CartCheckoutRequested(_) => TOP
    case OrderCreated(_, _, _, _, _) => 6
    case PaymentInitiated(_, _, _) => 5
    case BalanceDeductionRequested(_, _, _) => 4
    case BalanceDeductionCompleted(_, _, _) => 3
    case CartValidationRequested(_, _) => 3
    case StockCheckRequested(_) => 2
    case PaymentCompleted(_, _, _) => 2
    case StockCheckCompleted(_, _) => 1
    case StockUpdated(_, _, _) => 1
    case CouponValidationRequested(_, _, _, _) => 1
    case CouponIssueRequested(_, _) => 1
    case BalanceChargeRequested(_, _) => 1
    case _ => 0
  }

  lemma CheckoutRanksLower(u: int, a: Answer)
    ensures forall f | f in CheckoutEmits(u, a) :: Rank(f) < TOP
  {
  }

  /** A handler emits as many events as it likes, all of them of lower rank than the one it handles. */
  lemma EmitsRankLower(db: Database, e: Event, a: Answer)
    ensures forall f | f in Emits(db, e, a) :: Rank(f) < Rank(e)
  {
    if e.CartCheckoutRequested? { CheckoutRanksLower(e.userId, a); }
  }

  // ---- The measure ------------------------------------------------------------------------------------

  function Count(q: seq<Event>, rank: nat): nat {
    if q == [] then 0 else Count(q[..|q| - 1], rank) + (if Rank(q[|q| - 1]) == rank then 1 else 0)
  }

  lemma {:induction false} CountJoin(p: seq<Event>, q: seq<Event>, rank: nat)
    ensures Count(p + q, rank) == Count(p, rank) + Count(q, rank)
  {
    if q == [] {
      assert p + q == p;
    } else {
      assert (p + q)[..|p + q| - 1] == p + q[..|q| - 1];
      CountJoin(p, q[..|q| - 1], rank);
    }
  }

  lemma {:induction false} CountNone(q: seq<Event>, rank: nat)
    requires forall e | e in q :: Rank(e) < rank
    ensures Count(q, rank) == 0
  {
    if q != [] { CountNone(q[..|q| - 1], rank); }
  }

  /** Taking the event at `i` off the queue. */
  function WithoutAt(q: seq<Event>, i: nat): seq<Event>
    requires i < |q|
  {
    q[..i] + q[i + 1..]
  }

  /** What handling an event does to the counts: at its own rank one less, above it nothing. */
  lemma StepCounts(q: seq<Event>, i: nat, more: seq<Event>, rank: nat)
    requires i < |q| && rank >= Rank(q[i])
    requires forall f | f in more :: Rank(f) < Rank(q[i])
    ensures Count(WithoutAt(q, i) + more, rank) == Count(q, rank) - (if rank == Rank(q[i]) then 1 else 0)
  {
    CountJoin(WithoutAt(q, i), more, rank);
    CountJoin(q[..i], q[i + 1..], rank);
    CountNone(more, rank);
    assert q == q[..i] + ([q[i]] + q[i + 1..]);
    CountJoin(q[..i], [q[i]] + q[i + 1..], rank);
    CountJoin([q[i]], q[i + 1..], rank);
    assert [q[i]][..0] == [];
  }

  /** The counts from the highest rank down, as one lexicographic comparison. */
  ghost predicate Below(after: seq<Event>, before: seq<Event>, rank: nat) {
    || Count(after, rank) < Count(before, rank)
    || (rank > 0 && Count(after, rank) == Count(before, rank) && Below(after, before, rank - 1))
  }

  lemma {:induction false} BelowFrom(after: seq<Event>, before: seq<Event>, r: nat, rank: nat)
    requires r <= rank && Count(after, r) < Count(before, r)
    requires forall s | r < s <= rank :: Count(after, s) == Count(before, s)
    ensures Below(after, before, rank)
  {
    if rank > r { BelowFrom(after, before, r, rank - 1); }
  }

  /** The rank at which one list is below another. */
  lemma {:induction false} BelowAt(after: seq<Event>, before: seq<Event>, rank: nat) returns (r: nat)
    requires Below(after, before, rank)
    ensures r <= rank && Count(after, r) < Count(before, r)
    ensures forall s | r < s <= rank :: Count(after, s) == Count(before, s)
  {
    r := rank;
    if Count(after, rank) >= Count(before, rank) { r := BelowAt(after, before, rank - 1); }
  }

  lemma ReplaceGoesDown(q: seq<Event>, i: nat, more: seq<Event>)
    requires i < |q| && forall f | f in more :: Rank(f) < Rank(q[i])
    ensures Below(WithoutAt(q, i) + more, q, TOP)
  {
    var r := Rank(q[i]);
    StepCounts(q, i, more, r);
    forall s | r < s <= TOP ensures Count(WithoutAt(q, i) + more, s) == Count(q, s) {
      StepCounts(q, i, more, s);
    }
    BelowFrom(WithoutAt(q, i) + more, q, r, TOP);
  }

  /** One handler has taken the pending event at `i`, with these answers of the services. */
  ghost predicate Handled(db: Database, q: seq<Event>, i: nat, a: Answer, dbAfter: Database, after: seq<Event>) {
    i < |q| && dbAfter == Effect(db, q[i], a) && after == WithoutAt(q, i) + Emits(db, q[i], a)
  }

  lemma HandledGoesDown(db: Database, q: seq<Event>, i: nat, a: Answer, dbAfter: Database, after: seq<Event>)
    requires Handled(db, q, i, a, dbAfter, after)
    ensures Below(after, q, TOP)
  {
    EmitsRankLower(db, q[i], a);
    ReplaceGoesDown(q, i, Emits(db, q[i], a));
  }

  /** Some handler takes some pending event, in some state of the tables. */
  ghost predicate Step(before: seq<Event>, after: seq<Event>) {
    exists db, i, a, dbAfter :: Handled(db, before, i, a, dbAfter, after)
  }

  /** Well-foundedness of the comparison: lists cannot go down for ever. */
  lemma {:induction false} NoEndlessDescent(run: nat -> seq<Event>, n: nat)
    requires forall k: nat :: Below(run(k + 1), run(k), TOP)
    ensures false
    decreases Count(run(n), 7), Count(run(n), 6), Count(run(n), 5), Count(run(n), 4),
              Count(run(n), 3), Count(run(n), 2), Count(run(n), 1), Count(run(n), 0)
  {
    var r := BelowAt(run(n + 1), run(n), TOP);
    NoEndlessDescent(run, n + 1);
  }

  /** No order of handling, and no answers of the services, keep a cascade going for ever. */
  lemma NoEndlessCascade(run: nat -> seq<Event>)
    ensures exists k: nat :: !Step(run(k), run(k + 1))
  {
    if forall k: nat :: Step(run(k), run(k + 1)) {
      forall k: nat ensures Below(run(k + 1), run(k), TOP) {
        assert Step(run(k), run(k + 1));
        var db, i, a, dbAfter :| Handled(db, run(k), i, a, dbAfter, run(k + 1));
        HandledGoesDown(db, run(k), i, a, dbAfter, run(k + 1));
      }
      NoEndlessDescent(run, 0);
    }
  }

  // ---- The application ------------------------------------------------------------------------------------

  class Application {
    const eventEmitter: EventEmitter
    const tables: PaymentRepositoryPrisma
    const cart: CartOrchestrator
    const order: OrderOrchestrator
    const payment: PaymentOrchestrator
    const balance: BalanceOrchestrator
    const product: ProductOrchestrator
    const coupon: CouponOrchestrator

    constructor (tables: PaymentRepositoryPrisma, balances: BalanceRepository)
      ensures Wired() && this.tables == tables && eventEmitter.pending == [] && fresh(eventEmitter)
    {
      var emitter := new EventEmitter();
      eventEmitter := emitter;
      this.tables := tables;
      cart := new CartOrchestrator(emitter);
      order := new OrderOrchestrator(emitter, tables);
      payment := new PaymentOrchestrator(emitter, tables);
      balance := new BalanceOrchestrator(emitter, tables, balances);
      product := new ProductOrchestrator(emitter, tables);
      coupon := new CouponOrchestrator(emitter);
    }

    ghost predicate Wired() {
      && cart.eventEmitter == order.eventEmitter == payment.eventEmitter == eventEmitter
      && balance.eventEmitter == product.eventEmitter == coupon.eventEmitter == eventEmitter
      && order.tables == payment.paymentService == balance.tables == product.tables == tables
    }

    /**
     * The answers as the handler finds them: whether `processPayment` is refused depends on locks held by others and
     * on the calls that throw.
     */
    ghost function Found(e: Event, a: Answer, faults: set<Point>): Answer
      requires Wired()
      reads tables, tables.redisRedlock
    {
      if e.BalanceDeductionCompleted? then a.(refused := payment.Hindered(e.userId, e.orderId, faults)) else a
    }

    method DispatchToCart(e: Event, a: Answer)
      requires Wired() && (e.CartCheckoutRequested? || e.CartValidationRequested? || e.StockCheckCompleted?)
      modifies eventEmitter
      ensures eventEmitter.pending == old(eventEmitter.pending) + Emits(tables.prisma, e, a)
    {
      match e
      case CartCheckoutRequested(u) => cart.HandleCartCheckout(u, a);
      case CartValidationRequested(u, items) => cart.HandleCartValidation(u, items);
      case StockCheckCompleted(item, isAvailable) => cart.HandleStockCheckResponse(item, isAvailable);
    }

    method DispatchToOrder(e: Event, a: Answer)
      requires Wired() && (e.OrderCreated? || e.PaymentCompleted? || e.PaymentFailed?)
      modifies eventEmitter, tables`prisma
      ensures tables.prisma == Effect(old(tables.prisma), e, a)
      ensures eventEmitter.pending == old(eventEmitter.pending) + Emits(old(tables.prisma), e, a)
    {
      match e
      case OrderCreated(o, u, items, c, total) => order.HandleOrderCreation(o, u, items, c, total);
      case PaymentCompleted(o, u, amount) => order.HandlePaymentCompletion(o, u, amount, a);
      case PaymentFailed(o, u) => order.HandlePaymentFailure(o, u, a);
    }

    method DispatchToPayment(e: Event, a: Answer, client: int, faults: set<Point>)
      requires Wired() && (e.PaymentInitiated? || e.BalanceDeductionCompleted?)
      modifies eventEmitter, tables`prisma, tables.redisRedlock
      ensures tables.redisRedlock.locks == old(tables.redisRedlock.locks)
      ensures tables.prisma == Effect(old(tables.prisma), e, old(Found(e, a, faults)))
      ensures eventEmitter.pending
              == old(eventEmitter.pending) + Emits(old(tables.prisma), e, old(Found(e, a, faults)))
    {
      ghost var found := Found(e, a, faults);
      match e
      case PaymentInitiated(o, u, amount) => payment.HandlePaymentInitiation(o, u, amount, a);
      case BalanceDeductionCompleted(u, o, amount) =>
        payment.HandleBalanceDeductionComplete(u, o, amount, a.paymentId, client, faults, found);
    }

    method DispatchToBalance(e: Event, a: Answer)
      requires Wired() && (e.BalanceDeductionRequested? || e.BalanceChargeRequested?)
      modifies eventEmitter, tables`prisma
      ensures tables.prisma == Effect(old(tables.prisma), e, a)
      ensures eventEmitter.pending == old(eventEmitter.pending) + Emits(old(tables.prisma), e, a)
    {
      match e
      case BalanceDeductionRequested(u, o, amount) => balance.HandleBalanceDeduction(u, o, amount, a);
      case BalanceChargeRequested(u, amount) => balance.HandleBalanceCharge(u, amount, a);
    }

    method DispatchToProduct(e: Event, a: Answer)
      requires Wired() && (e.StockCheckRequested? || e.StockUpdated?)
      modifies eventEmitter, tables`prisma
      ensures tables.prisma == Effect(old(tables.prisma), e, a)
      ensures eventEmitter.pending == old(eventEmitter.pending) + Emits(old(tables.prisma), e, a)
    {
      match e
      case StockCheckRequested(item) => product.HandleStockCheck(item, a);
      case StockUpdated(v, quantity, decrease) => product.HandleStockUpdate(v, quantity, decrease, a);
    }

    method DispatchToCoupon(e: Event, a: Answer)
      requires Wired() && (e.CouponValidationRequested? || e.CouponIssueRequested?)
      modifies eventEmitter
      ensures eventEmitter.pending == old(eventEmitter.pending) + Emits(tables.prisma, e, a)
    {
      match e
      case CouponValidationRequested(u, c, o, amount) => coupon.HandleCouponValidation(u, c, o, amount, a);
      case CouponIssueRequested(u, f) => coupon.HandleCouponIssue(u, f, a);
    }

    /** Hands a pending event to the handler subscribed to it; an event nobody subscribes to is just gone. */
    method Dispatch(i: nat, a: Answer, client: int, faults: set<Point>)
      requires Wired() && i < |eventEmitter.pending|
      modifies eventEmitter, tables`prisma, tables.redisRedlock
      ensures tables.redisRedlock.locks == old(tables.redisRedlock.locks)
      ensures Handled(old(tables.prisma), old(eventEmitter.pending), i,
                      old(Found(eventEmitter.pending[i], a, faults)), tables.prisma, eventEmitter.pending)
    {
      var e := eventEmitter.pending[i];
      eventEmitter.pending := WithoutAt(eventEmitter.pending, i);
      if e.CartCheckoutRequested? || e.CartValidationRequested? || e.StockCheckCompleted? {
        DispatchToCart(e, a);
      } else if e.OrderCreated? || e.PaymentCompleted? || e.PaymentFailed? {
        DispatchToOrder(e, a);
      } else if e.PaymentInitiated? || e.BalanceDeductionCompleted? {
        DispatchToPayment(e, a, client, faults);
      } else if e.BalanceDeductionRequested? || e.BalanceChargeRequested? {
        DispatchToBalance(e, a);
      } else if e.StockCheckRequested? || e.StockUpdated? {
        DispatchToProduct(e, a);
      } else if e.CouponValidationRequested? || e.CouponIssueRequested? {
        DispatchToCoupon(e, a);
      }
    }

    method DispatchNext(i: nat, a: Answer, client: int, faults: set<Point>)
      requires Wired() && i < |eventEmitter.pending|
      modifies eventEmitter, tables`prisma, tables.redisRedlock
      ensures tables.redisRedlock.locks == old(tables.redisRedlock.locks)
      ensures Below(eventEmitter.pending, old(eventEmitter.pending), TOP)
    {
      ghost var found := Found(eventEmitter.pending[i], a, faults);
      Dispatch(i, a, client, faults);
      HandledGoesDown(old(tables.prisma), old(eventEmitter.pending), i, found, tables.prisma, eventEmitter.pending);
    }

    /** Whichever pending event is taken next, the queue runs dry. */
    method Drain(choose: seq<Event> -> nat, answer: nat -> (Answer, int, set<Point>))
      requires Wired()
      requires forall q :: q != [] ==> choose(q) < |q|
      modifies eventEmitter, tables`prisma, tables.redisRedlock
      ensures eventEmitter.pending == []
      ensures tables.redisRedlock.locks == old(tables.redisRedlock.locks)
    {
      var n := 0;
      while eventEmitter.pending != []
        invariant tables.redisRedlock.locks == old(tables.redisRedlock.locks)
        decreases Count(eventEmitter.pending, 7), Count(eventEmitter.pending, 6), Count(eventEmitter.pending, 5),
                  Count(eventEmitter.pending, 4), Count(eventEmitter.pending, 3), Count(eventEmitter.pending, 2),
                  Count(eventEmitter.pending, 1), Count(eventEmitter.pending, 0)
      {
        ghost var before := eventEmitter.pending;
        var i := choose(eventEmitter.pending);
        var (a, client, faults) := answer(n);
        DispatchNext(i, a, client, faults);
        ghost var r := BelowAt(eventEmitter.pending, before, TOP);
        n := n + 1;
      }
    }
  }
}
