/**
 * What the locks of the payment protocol are for, told of the requests alone: which clients are never inside at the
 * same moment, and when a waiting client may go in (payment.repository.prisma.ts).
 */
module PaymentRegions {
  import opened Wrappers
  import opened Store
  import opened PaymentClient
  import opened PaymentMachine
  import opened PaymentTheorems

  /** Between taking its first lock and giving it back, by the statements of the code. */
  predicate Inside(l: Client) {
    !l.phase.WaitOuter? && !l.phase.Finished?
  }

  predicate PaysOrder(l: Client, orderId: int) {
    Inside(l) && l.request.PayRequest? && l.request.orderId == orderId
  }

  predicate CancelsPayment(l: Client, paymentId: int) {
    Inside(l) && l.request.CancelRequest? && l.request.paymentId == paymentId
  }

  /** Inside the try block of a line of the variant, or on the way out of it. */
  predicate AtVariant(l: Client, variantId: int) {
    match l.phase
    case CheckLine(k) => k < |l.lines| && l.lines[k].variantId == variantId
    case UpdateLine(k) => k < |l.lines| && l.lines[k].variantId == variantId
    case LeaveLine(k) => k < |l.lines| && l.lines[k].variantId == variantId
    case Unwind(key) => key == ProductLock(variantId)
    case _ => false
  }

  /** Inside the try block of the balance step of the user, or on the way out of it. */
  predicate AtBalance(l: Client, userId: int) {
    match l.phase
    case MoveBalance => l.request.userId == userId
    case LeaveBalance => l.request.userId == userId
    case Unwind(key) => key == BalanceLock(userId)
    case _ => false
  }

  // ---- Locks and places ------------------------------------------------------------------------------------

  /** A client has an entry of the lock table just when it is at the place the entry stands for. */
  ghost predicate StandsFor(l: Client, key: LockKey) {
    match key
    case OrderLock(o) => PaysOrder(l, o)
    case PaymentLock(p) => CancelsPayment(l, p)
    case ProductLock(v) => AtVariant(l, v)
    case BalanceLock(u) => AtBalance(l, u)
    case FcfsLock(_) => false
  }

  lemma HoldsJustWhere(l: Client, key: LockKey)
    requires WellFormed(l)
    ensures HoldsKey(l, key) <==> StandsFor(l, key)
  {
  }

  /** In every reachable state the lock table says who is where. */
  lemma {:induction false} LocksArePlaces(start: State, steps: seq<Step>, c: int, key: LockKey)
    requires Init(start) && c in RunSteps(start, steps).clients
    ensures var s := RunSteps(start, steps);
            StandsFor(s.clients[c], key) <==> key in s.locks && s.locks[key] == c
  {
    EveryInterleavingIsSerial(start, steps);
    var s := RunSteps(start, steps);
    OwnLocks(s, c, key);
    assert WellFormed(s.clients[c]);
    HoldsJustWhere(s.clients[c], key);
  }

  // ---- Mutual exclusion -------------------------------------------------------------------------------------

  /**
   * At no moment are two clients inside for one order, or for one payment, at lines of one variant, or at the balance
   * step of one user.
   */
  lemma {:induction false} NeverTwoInside(start: State, steps: seq<Step>, c: int, d: int, id: int)
    requires Init(start)
    requires c in RunSteps(start, steps).clients && d in RunSteps(start, steps).clients && c != d
    ensures var l, m := RunSteps(start, steps).clients[c], RunSteps(start, steps).clients[d];
            && !(PaysOrder(l, id) && PaysOrder(m, id))
            && !(CancelsPayment(l, id) && CancelsPayment(m, id))
            && !(AtVariant(l, id) && AtVariant(m, id))
            && !(AtBalance(l, id) && AtBalance(m, id))
  {
    NotBoth(start, steps, c, d, OrderLock(id));
    NotBoth(start, steps, c, d, PaymentLock(id));
    NotBoth(start, steps, c, d, ProductLock(id));
    NotBoth(start, steps, c, d, BalanceLock(id));
  }

  lemma {:induction false} NotBoth(start: State, steps: seq<Step>, c: int, d: int, key: LockKey)
    requires Init(start)
    requires c in RunSteps(start, steps).clients && d in RunSteps(start, steps).clients && c != d
    ensures !(StandsFor(RunSteps(start, steps).clients[c], key) && StandsFor(RunSteps(start, steps).clients[d], key))
  {
    LocksArePlaces(start, steps, c, key);
    LocksArePlaces(start, steps, d, key);
  }

  // ---- And no more exclusion than that ------------------------------------------------------------------------

  /** A lock is free just when nobody is at its place. */
  lemma {:induction false} FreeJustWhenEmpty(start: State, steps: seq<Step>, key: LockKey)
    requires Init(start)
    ensures var s := RunSteps(start, steps);
            key !in s.locks <==> forall d | d in s.clients :: !StandsFor(s.clients[d], key)
  {
    EveryInterleavingIsSerial(start, steps);
    var s := RunSteps(start, steps);
    forall d | d in s.clients ensures StandsFor(s.clients[d], key) <==> key in s.locks && s.locks[key] == d {
      LocksArePlaces(start, steps, d, key);
    }
  }

  /** A payment may go in just when nobody is inside for its order, a cancellation when nobody is for its payment. */
  lemma {:induction false} EntersJustWhenFree(start: State, steps: seq<Step>, c: int)
    requires Init(start) && c in RunSteps(start, steps).clients
    requires RunSteps(start, steps).clients[c].phase.WaitOuter?
    ensures var s := RunSteps(start, steps);
            Enabled(s, Acquire(c)) <==>
              match s.clients[c].request
              case PayRequest(_, o) => forall d | d in s.clients :: !PaysOrder(s.clients[d], o)
              case CancelRequest(_, p) => forall d | d in s.clients :: !CancelsPayment(s.clients[d], p)
  {
    match RunSteps(start, steps).clients[c].request
    case PayRequest(_, o) => FreeJustWhenEmpty(start, steps, OrderLock(o));
    case CancelRequest(_, p) => FreeJustWhenEmpty(start, steps, PaymentLock(p));
  }

  /** A client goes on to a line just when nobody is at that line's variant. */
  lemma {:induction false} LineJustWhenFree(start: State, steps: seq<Step>, c: int)
    requires Init(start) && c in RunSteps(start, steps).clients
    requires RunSteps(start, steps).clients[c].phase.WaitLine?
    ensures var s := RunSteps(start, steps);
            var l := s.clients[c];
            && l.phase.index < |l.lines|
            && (Enabled(s, Acquire(c)) <==>
                  forall d | d in s.clients :: !AtVariant(s.clients[d], l.lines[l.phase.index].variantId))
  {
    EveryInterleavingIsSerial(start, steps);
    var l := RunSteps(start, steps).clients[c];
    assert WellFormed(l);
    FreeJustWhenEmpty(start, steps, ProductLock(l.lines[l.phase.index].variantId));
  }

  /** A client goes on to the balance step just when nobody is at its user's. */
  lemma {:induction false} BalanceJustWhenFree(start: State, steps: seq<Step>, c: int)
    requires Init(start) && c in RunSteps(start, steps).clients
    requires RunSteps(start, steps).clients[c].phase.WaitBalance?
    ensures var s := RunSteps(start, steps);
            Enabled(s, Acquire(c)) <==>
              forall d | d in s.clients :: !AtBalance(s.clients[d], s.clients[c].request.userId)
  {
    FreeJustWhenEmpty(start, steps, BalanceLock(RunSteps(start, steps).clients[c].request.userId));
  }
}
