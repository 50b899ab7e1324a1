/** A client nobody interferes with gets through, and commits just when its operation can succeed. */
module PaymentProgress {
  import opened Wrappers
  import opened Store
  import opened PaymentClient
  import opened PaymentSteps
  import opened PaymentMachine
  import opened PaymentInterleavings
  import opened PaymentTheorems

  // ---- One call on tables that do not change ----------------------------------------------------------------

  /** What a call reads through the transaction is so in the tables it reads. */
  lemma SeesWhatIs(db: Database, l: Client, found: seq<Line>, freshId: int)
    requires Working(l.phase) && InRange(l) && TxStep(db, l, found, freshId).Success? && Unchanged(db, l)
    requires l.phase.First? ==> l.writes == NO_WRITES
    requires l.phase.FetchLines? ==> multiset(found) == multiset(LinesOf(db, l.orderId))
    ensures Unchanged(db, TxStep(db, l, found, freshId).value)
  {
    if l.phase.First? { ViewNothing(db); }
  }

  /** When a call throws for what is in the tables, so does the whole rest of the transaction. */
  lemma ThrowsForGood(db: Database, l: Client, found: seq<Line>, freshId: int, paymentId: int)
    requires WellFormed(l) && Working(l.phase) && TxStep(db, l, found, freshId).Failure?
    requires !Allocated(l) ==> paymentId == freshId
    ensures Finish(db, l, paymentId).Failure?
  {
    match l.phase
    case CheckLine(k) => assert l.lines[k..][0] == l.lines[k];
    case _ =>
  }

  // ---- A client on its own ------------------------------------------------------------------------------------

  /** What the request comes to if it is run in one go on the tables of the start. */
  function Outcome(start: State, request: Request): Result<Database, Error> {
    Atomic(start.db, request, start.nextPaymentId)
  }

  /** Until it commits the client works on the tables of the start; after that it has told how the request ends. */
  ghost predicate OnTheWay(start: State, request: Request, s: State, l: Client) {
    match l.phase
    case Unwind(_) => s.db == start.db && Outcome(start, request).Failure?
    case Closing(committed) => Ended(start, request, s, committed)
    case Finished(committed) => Ended(start, request, s, committed)
    case _ => s.db == start.db && Underway(s.db, s.nextPaymentId, start.nextPaymentId, l)
  }

  /** All the client has read is so, and the payment id it draws or has drawn is the one next at the start. */
  ghost predicate Underway(db: Database, nextId: int, startId: int, l: Client) {
    Unchanged(db, l) && (if Allocated(l) then l.paymentId == startId else nextId == startId)
  }

  ghost predicate Ended(start: State, request: Request, s: State, committed: bool) {
    if committed then Outcome(start, request) == Success(s.db)
    else s.db == start.db && Outcome(start, request).Failure?
  }

  ghost predicate Tale(start: State, request: Request, s: State, c: int) {
    && Inv(s) && c in s.clients && s.clients[c].request == request
    && OnTheWay(start, request, s, s.clients[c])
  }

  /** By coherence the rest of the transaction comes to what the whole request comes to. */
  lemma RestIsOutcome(start: State, request: Request, s: State, c: int)
    requires Tale(start, request, s, c) && InTx(s.clients[c].phase)
    ensures SameEffect(Finish(s.db, s.clients[c], start.nextPaymentId), Outcome(start, request))
  {
    assert Agrees(s.db, s.clients[c]);
  }

  lemma StaysUnderway(db: Database, l: Client, found: seq<Line>, nextId: int, startId: int)
    requires WellFormed(l) && Working(l.phase) && TxStep(db, l, found, nextId).Success?
    requires Underway(db, nextId, startId, l)
    requires l.phase.FetchLines? ==> multiset(found) == multiset(LinesOf(db, l.orderId))
    ensures var after := TxStep(db, l, found, nextId).value;
            && after.request == l.request && InTx(after.phase)
            && Underway(db, if Allocated(after) && !Allocated(l) then nextId + 1 else nextId, startId, after)
  {
    SeesWhatIs(db, l, found, nextId);
    StepShape(db, l, found, nextId);
  }

  lemma CallSucceeds(start: State, request: Request, s: State, c: int, found: seq<Line>)
    requires Tale(start, request, s, c) && Enabled(s, Work(c, found))
    requires TxStep(s.db, s.clients[c], found, s.nextPaymentId).Success?
    ensures c in DoWork(s, c, found).clients && DoWork(s, c, found).clients[c].request == request
    ensures OnTheWay(start, request, DoWork(s, c, found), DoWork(s, c, found).clients[c])
  {
    StaysUnderway(s.db, s.clients[c], found, s.nextPaymentId, start.nextPaymentId);
  }

  lemma CallFails(start: State, request: Request, s: State, c: int, found: seq<Line>)
    requires Tale(start, request, s, c) && Enabled(s, Work(c, found))
    requires TxStep(s.db, s.clients[c], found, s.nextPaymentId).Failure?
    ensures DoWork(s, c, found) == At(s, c, s.clients[c].(phase := Thrown(s.clients[c])))
    ensures s.db == start.db && Outcome(start, request).Failure?
    ensures Thrown(s.clients[c]).Unwind? || Thrown(s.clients[c]) == Closing(false)
  {
    var l := s.clients[c];
    RestIsOutcome(start, request, s, c);
    ThrowsForGood(s.db, l, found, s.nextPaymentId, start.nextPaymentId);
  }

  lemma ConcludeEnds(start: State, request: Request, s: State, c: int)
    requires Tale(start, request, s, c) && Enabled(s, Conclude(c))
    ensures Do(s, Conclude(c)).clients[c].request == request
    ensures OnTheWay(start, request, Do(s, Conclude(c)), Do(s, Conclude(c)).clients[c])
  {
    CommitIsAtomic(s, c);
  }

  /** A call of the client's own, other than throwing for no reason in the tables. */
  predicate OwnStep(step: Step, c: int) {
    Mover(step) == Some(c) && !step.Throw?
  }

  lemma AcquireGoesOn(start: State, request: Request, s: State, c: int)
    requires Tale(start, request, s, c) && Enabled(s, Acquire(c))
    ensures OnTheWay(start, request, Do(s, Acquire(c)), Do(s, Acquire(c)).clients[c])
  {
    assert WellFormed(s.clients[c]);
  }

  lemma LeaveGoesOn(start: State, request: Request, s: State, c: int)
    requires Tale(start, request, s, c) && Enabled(s, Leave(c))
    ensures OnTheWay(start, request, Do(s, Leave(c)), Do(s, Leave(c)).clients[c])
  {
  }

  lemma OwnStepGoesOn(start: State, request: Request, s: State, step: Step, c: int)
    requires Tale(start, request, s, c) && OwnStep(step, c)
    ensures Tale(start, request, Do(s, step), c)
  {
    if Enabled(s, step) {
      StepKeepsInv(s, step);
      match step
      case Acquire(_) => AcquireGoesOn(start, request, s, c);
      case Work(_, found) =>
        if TxStep(s.db, s.clients[c], found, s.nextPaymentId).Success? {
          CallSucceeds(start, request, s, c, found);
        } else {
          CallFails(start, request, s, c, found);
        }
      case Leave(_) => LeaveGoesOn(start, request, s, c);
      case Conclude(_) => ConcludeEnds(start, request, s, c);
      case Close(_) =>
    }
  }

  /**
   * Whatever calls a client makes on its own, in whatever order they can come, if it gets through it has committed
   * just when its operation can succeed, and its effect is that of the operation.
   */
  lemma {:induction false} AloneOutcome(start: State, c: int, request: Request, steps: seq<Step>)
    requires Inv(start) && c !in start.clients
    requires forall i | 0 <= i < |steps| :: OwnStep(steps[i], c)
    ensures Tale(start, request, RunSteps(Do(start, Arrive(c, request)), steps), c)
  {
    var s := Do(start, Arrive(c, request));
    if steps == [] {
      StepKeepsInv(start, Arrive(c, request));
    } else {
      AloneOutcome(start, c, request, steps[..|steps| - 1]);
      OwnStepGoesOn(start, request, RunSteps(s, steps[..|steps| - 1]), steps[|steps| - 1], c);
    }
  }

  // ---- It gets through -----------------------------------------------------------------------------------------

  /** Nobody else holds a lock. */
  ghost predicate OnlyHolder(s: State, c: int) {
    forall key | key in s.locks :: s.locks[key] == c
  }

  lemma OwnStepKeepsOnlyHolder(s: State, step: Step, c: int)
    requires OnlyHolder(s, c) && OwnStep(step, c)
    ensures OnlyHolder(Do(s, step), c)
  {
  }

  /** The lines are read after two calls, and from then on the client comes closer to its end with every call. */
  lemma {:induction false} GetsThrough(s0: State, steps: seq<Step>, start: State, request: Request, c: int)
    returns (more: seq<Step>)
    requires Tale(start, request, RunSteps(s0, steps), c) && OnlyHolder(RunSteps(s0, steps), c)
    requires forall i | 0 <= i < |steps| :: OwnStep(steps[i], c)
    ensures Tale(start, request, RunSteps(s0, more), c) && RunSteps(s0, more).clients[c].phase.Finished?
    ensures forall i | 0 <= i < |more| :: OwnStep(more[i], c)
    decreases Early(RunSteps(s0, steps), c), Remaining(RunSteps(s0, steps), c)
  {
    var s := RunSteps(s0, steps);
    if s.clients[c].phase.Finished? {
      more := steps;
    } else {
      var step := NextStep(s, c);
      UnblockedMoves(s, c);
      EveryCallAdvances(s, step);
      OwnStepGoesOn(start, request, s, step, c);
      OwnStepKeepsOnlyHolder(s, step, c);
      CallsLeft(s, step, c);
      assert (steps + [step])[..|steps|] == steps;
      more := GetsThrough(s0, steps + [step], start, request, c);
    }
  }

  /** Calls before the lines are known. */
  ghost function Early(s: State, c: int): nat
    requires c in s.clients
  {
    if Position(s.clients[c]) < 3 then 3 - Position(s.clients[c]) else 0
  }

  /** A bound on the calls after that. */
  ghost function Remaining(s: State, c: int): nat
    requires c in s.clients
  {
    var l := s.clients[c];
    if Position(l) <= 11 + 4 * |l.lines| then 11 + 4 * |l.lines| - Position(l) else 0
  }

  lemma CallsLeft(s: State, step: Step, c: int)
    requires ClientsCoherent(s) && Enabled(s, step) && OwnStep(step, c) && Advances(s, Do(s, step), c)
    ensures Early(Do(s, step), c) < Early(s, c)
            || (Early(Do(s, step), c) == Early(s, c) && Remaining(Do(s, step), c) < Remaining(s, c))
  {
    if step.Work? && TxStep(s.db, s.clients[c], step.found, s.nextPaymentId).Success? {
      StepShape(s.db, s.clients[c], step.found, s.nextPaymentId);
    }
  }

  /**
   * From any reachable state in which nobody holds a lock, a client left alone gets through, commits if and only if
   * its operation succeeds on the tables as they are, and leaves exactly the operation's effect.
   */
  lemma AloneCommitsJustWhenItCan(start: State, c: int, request: Request) returns (steps: seq<Step>)
    requires Inv(start) && start.locks == map[] && c !in start.clients
    ensures forall i | 0 <= i < |steps| :: OwnStep(steps[i], c)
    ensures var end, outcome := RunSteps(Do(start, Arrive(c, request)), steps), Outcome(start, request);
            && c in end.clients && end.clients[c].phase == Finished(outcome.Success?)
            && end.db == if outcome.Success? then outcome.value else start.db
  {
    var s := Do(start, Arrive(c, request));
    AloneOutcome(start, c, request, []);
    steps := GetsThrough(s, [], start, request, c);
  }
}
