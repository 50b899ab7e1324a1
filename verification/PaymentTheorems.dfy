/** The guarantees of the payment protocol over all interleavings. */
module PaymentTheorems {
  import opened Wrappers
  import opened Store
  import opened BalanceRepository
  import opened SerialRuns
  import opened PaymentClient
  import opened PaymentSteps
  import opened PaymentMachine
  import opened PaymentInterleavings

  // ---- The commit log -----------------------------------------------------------------------------

  ghost function Ops(log: seq<Entry>): (ops: seq<Operation>)
    ensures |ops| == |log|
    ensures forall i | 0 <= i < |log| :: ops[i] == log[i].op
  {
    seq(|log|, i requires 0 <= i < |log| => log[i].op)
  }

  /** Run one after the other, every operation succeeds when its turn comes. */
  ghost predicate EachSucceeds(db: Database, ops: seq<Operation>) {
    forall i | 0 <= i < |ops| :: Apply(Run(db, ops[..i]), ops[i]).Success?
  }

  ghost predicate InLog(log: seq<Entry>, c: int) {
    exists i | 0 <= i < |log| :: log[i].client == Some(c)
  }

  predicate Committed(l: Client) {
    l.phase == Closing(true) || l.phase == Finished(true)
  }

  /** Clients that report success are in the log once, with their own operation; the others are not in it. */
  ghost predicate LogMatches(s: State) {
    && (forall c | c in s.clients :: Committed(s.clients[c]) <==> InLog(s.log, c))
    && (forall i | 0 <= i < |s.log| && s.log[i].client.Some? ::
          s.log[i].client.value in s.clients && s.log[i].op == OpOf(s.clients[s.log[i].client.value]))
    && (forall i, j | 0 <= i < j < |s.log| && s.log[i].client.Some? :: s.log[i].client != s.log[j].client)
  }

  /** The tables are what the log, run one operation after the other from the start, leaves. */
  ghost predicate Serial(start: Database, s: State) {
    && s.db == Run(start, Ops(s.log))
    && EachSucceeds(start, Ops(s.log))
    && AllLegal(Ops(s.log))
  }

  lemma LogAppend(start: Database, s: State, entry: Entry)
    requires Serial(start, s) && Legal(entry.op) && Apply(s.db, entry.op).Success?
    ensures Serial(start, s.(db := Exec(s.db, entry.op), log := s.log + [entry]))
  {
    var before, after := Ops(s.log), Ops(s.log + [entry]);
    assert after == before + [entry.op];
    assert after[..|after| - 1] == before;
    forall i | 0 <= i < |after| ensures Apply(Run(start, after[..i]), after[i]).Success? {
      if i < |before| {
        assert after[..i] == before[..i];
      } else {
        assert after[..i] == before;
      }
    }
  }

  lemma StepKeepsSerial(start: Database, s: State, step: Step)
    requires Inv(s) && Serial(start, s)
    ensures Serial(start, Do(s, step))
  {
    if Enabled(s, step) {
      match step
      case Conclude(c) =>
        if Unchanged(s.db, s.clients[c]) {
          CommitIsAtomic(s, c);
          LogAppend(start, s, Entry(Some(c), OpOf(s.clients[c])));
        }
      case Outside(op) => LogAppend(start, s, Entry(None, op));
      case _ =>
    }
  }

  /** A step of client `c` that commits nothing, and does not turn it from failed to committed or back. */
  lemma MoveKeepsLog(s: State, after: State, c: int)
    requires LogMatches(s) && after.log == s.log && c in after.clients
    requires after.clients == s.clients[c := after.clients[c]]
    requires c in s.clients ==> (Committed(after.clients[c]) <==> Committed(s.clients[c]))
    requires c in s.clients && Committed(s.clients[c]) ==> OpOf(after.clients[c]) == OpOf(s.clients[c])
    requires c !in s.clients ==> !Committed(after.clients[c])
    ensures LogMatches(after)
  {
  }

  lemma ConcludeKeepsLog(s: State, c: int)
    requires LogMatches(s) && Enabled(s, Conclude(c))
    ensures LogMatches(Do(s, Conclude(c)))
  {
    var after := Do(s, Conclude(c));
    if Unchanged(s.db, s.clients[c]) {
      assert !InLog(s.log, c);
      forall d | d in after.clients ensures Committed(after.clients[d]) <==> InLog(after.log, d) {
        if d == c {
          assert after.log[|s.log|].client == Some(c);
        } else if InLog(s.log, d) {
          var i :| 0 <= i < |s.log| && s.log[i].client == Some(d);
          assert after.log[i].client == Some(d);
        }
      }
    } else {
      MoveKeepsLog(s, after, c);
    }
  }

  lemma OutsideKeepsLog(s: State, op: Operation)
    requires LogMatches(s) && Enabled(s, Outside(op))
    ensures LogMatches(Do(s, Outside(op)))
  {
    var after := Do(s, Outside(op));
    forall d | d in after.clients ensures Committed(after.clients[d]) <==> InLog(after.log, d) {
      if InLog(s.log, d) {
        var i :| 0 <= i < |s.log| && s.log[i].client == Some(d);
        assert after.log[i].client == Some(d);
      }
    }
  }

  lemma WorkKeepsLog(s: State, c: int, found: seq<Line>)
    requires LogMatches(s) && Enabled(s, Work(c, found))
    ensures LogMatches(DoWork(s, c, found))
  {
    if TxStep(s.db, s.clients[c], found, s.nextPaymentId).Success? {
      StepShape(s.db, s.clients[c], found, s.nextPaymentId);
    }
    MoveKeepsLog(s, DoWork(s, c, found), c);
  }

  lemma StepKeepsLog(s: State, step: Step)
    requires LogMatches(s)
    ensures LogMatches(Do(s, step))
  {
    if Enabled(s, step) {
      match step
      case Arrive(c, _) => MoveKeepsLog(s, Do(s, step), c);
      case Acquire(c) => MoveKeepsLog(s, Do(s, step), c);
      case Work(c, found) => WorkKeepsLog(s, c, found);
      case Throw(c) => MoveKeepsLog(s, Do(s, step), c);
      case Leave(c) => MoveKeepsLog(s, Do(s, step), c);
      case Conclude(c) => ConcludeKeepsLog(s, c);
      case Close(c) => MoveKeepsLog(s, Do(s, step), c);
      case Outside(op) => OutsideKeepsLog(s, op);
    }
  }

  /**
   * Serializability. Whatever the interleaving, the tables are those of a serial run of the committed
   * operations in commit order; each client that reports success is in that run exactly once and each
   * that failed has left no trace.
   */
  lemma {:induction false} EveryInterleavingIsSerial(start: State, steps: seq<Step>)
    requires Init(start)
    ensures Inv(RunSteps(start, steps))
    ensures Serial(start.db, RunSteps(start, steps)) && LogMatches(RunSteps(start, steps))
  {
    if steps == [] {
      assert Ops(start.log) == [];
    } else {
      EveryInterleavingIsSerial(start, steps[..|steps| - 1]);
      var s := RunSteps(start, steps[..|steps| - 1]);
      StepKeepsInv(s, steps[|steps| - 1]);
      StepKeepsSerial(start.db, s, steps[|steps| - 1]);
      StepKeepsLog(s, steps[|steps| - 1]);
    }
  }

  // ---- Safety of every interleaving ------------------------------------------------------------------

  /** No payment is refunded twice. */
  lemma {:induction false} RefundedAtMostOnce(start: State, steps: seq<Step>, i: int, j: int)
    requires Init(start)
    requires var log := RunSteps(start, steps).log;
             0 <= i < j < |log| && log[i].op.Cancel? && log[j].op.Cancel?
    ensures RunSteps(start, steps).log[i].op.paymentId != RunSteps(start, steps).log[j].op.paymentId
  {
    EveryInterleavingIsSerial(start, steps);
    var ops := Ops(RunSteps(start, steps).log);
    CancelledOnce(start.db, ops, i, j);
  }

  lemma {:induction false} CancelledOnce(db: Database, ops: seq<Operation>, i: int, j: int)
    requires EachSucceeds(db, ops) && 0 <= i < j < |ops| && ops[i].Cancel? && ops[j].Cancel?
    ensures ops[i].paymentId != ops[j].paymentId
  {
    var p := ops[i].paymentId;
    assert ops[..i + 1][..i] == ops[..i];
    assert Run(db, ops[..i + 1]) == Exec(Run(db, ops[..i]), ops[i]);
    CancelEffect(Run(db, ops[..i]), ops[i].userId, p);
    StaysCancelled(db, ops, i + 1, j, p);
  }

  lemma {:induction false} StaysCancelled(db: Database, ops: seq<Operation>, i: int, j: int, p: int)
    requires 0 <= i <= j <= |ops|
    requires p in Run(db, ops[..i]).payments && Run(db, ops[..i]).payments[p].status == PaymentCancelled
    ensures p in Run(db, ops[..j]).payments && Run(db, ops[..j]).payments[p].status == PaymentCancelled
  {
    if i < j {
      StaysCancelled(db, ops, i, j - 1, p);
      assert ops[..j][..j - 1] == ops[..j - 1];
      ExecOnlyForward(Run(db, ops[..j - 1]), ops[j - 1]);
    }
  }

  /** Orders and payments keep to their status machine and nothing goes below zero, at every moment. */
  lemma {:induction false} EveryInterleavingConsistent(start: State, steps: seq<Step>, orderId: int)
    requires Init(start)
    ensures var db := RunSteps(start, steps).db;
            && (forall v | v in db.stock :: db.stock[v] >= 0)
            && (forall u | u in db.balances :: db.balances[u] >= 0.0)
            && (orderId in db.orders ==> OrderStory(db, orderId))
  {
    EveryInterleavingIsSerial(start, steps);
  }

  /** Money and stock are conserved, at every moment. */
  lemma {:induction false} EveryInterleavingConserves(start: State, steps: seq<Step>, u: int, v: int)
    requires Init(start)
    ensures var s := RunSteps(start, steps);
            && Worth(s.db, u, v).units == Worth(start.db, u, v).units
            && Worth(s.db, u, v).money == Worth(start.db, u, v).money + NetFlow(start.db, Ops(s.log), u)
  {
    EveryInterleavingIsSerial(start, steps);
    EveryRunConserves(start.db, Ops(RunSteps(start, steps).log), u, v);
  }

  /** The audit log replays to every balance, at every moment. */
  lemma {:induction false} EveryInterleavingAudited(start: State, steps: seq<Step>, u: int)
    requires Init(start)
    ensures var rows := NewRows(start.db, RunSteps(start, steps).db);
            && Audited(BalanceOf(start.db, u), rows, u)
            && Replay(BalanceOf(start.db, u), rows, u) == BalanceOf(RunSteps(start, steps).db, u)
  {
    EveryInterleavingIsSerial(start, steps);
    EveryRunAudited(start.db, Ops(RunSteps(start, steps).log), u);
  }

  /**
   * The payment a cancellation read outside its transaction is still the committed row whenever the cancellation
   * is about to make a call inside it, its commit included.
   */
  lemma {:induction false} ReadPaymentStaysCurrent(start: State, steps: seq<Step>, c: int)
    requires Init(start) && c in RunSteps(start, steps).clients
    ensures var db, l := RunSteps(start, steps).db, RunSteps(start, steps).clients[c];
            l.request.CancelRequest? && InTx(l.phase) && !l.phase.First?
            ==> l.request.paymentId in db.payments
                && l.readPayment == Some(db.payments[l.request.paymentId])
                && l.readPayment.value.status == PaymentCompleted
  {
    EveryInterleavingIsSerial(start, steps);
    ReadPaymentCompleted(start, steps, c);
    assert WellFormed(RunSteps(start, steps).clients[c]);
  }

  /** Only completed payments pass the check on reading. */
  lemma {:induction false} ReadPaymentCompleted(start: State, steps: seq<Step>, c: int)
    requires Init(start) && c in RunSteps(start, steps).clients
    ensures var l := RunSteps(start, steps).clients[c];
            l.readPayment.Some? ==> l.readPayment.value.status == PaymentCompleted
  {
    if steps != [] {
      var s, step := RunSteps(start, steps[..|steps| - 1]), steps[|steps| - 1];
      if c in s.clients {
        ReadPaymentCompleted(start, steps[..|steps| - 1], c);
        StepKeepsReadCompleted(s, step, c);
      }
    }
  }

  lemma StepKeepsReadCompleted(s: State, step: Step, c: int)
    requires c in s.clients
    requires s.clients[c].readPayment.Some? ==> s.clients[c].readPayment.value.status == PaymentCompleted
    ensures c in Do(s, step).clients
    ensures var l := Do(s, step).clients[c];
            l.readPayment.Some? ==> l.readPayment.value.status == PaymentCompleted
  {
  }

  // ---- Locks: no leak, no deadlock ------------------------------------------------------------------------

  /** A client that is through holds nothing, however it ended. */
  lemma {:induction false} FinishedHoldsNothing(start: State, steps: seq<Step>, c: int, key: LockKey)
    requires Init(start)
    requires c in RunSteps(start, steps).clients && RunSteps(start, steps).clients[c].phase.Finished?
    ensures key in RunSteps(start, steps).locks ==> RunSteps(start, steps).locks[key] != c
  {
    EveryInterleavingIsSerial(start, steps);
    OwnLocks(RunSteps(start, steps), c, key);
  }

  /**
   * At any moment a client that waits for its `order:` or `payment:` lock has no entry in the lock table, and one that
   * waits for a `product:` or `balance:` lock has just that first one.
   */
  lemma {:induction false} WaitsWithOuterOnly(start: State, steps: seq<Step>, c: int, key: LockKey)
    requires Init(start) && c in RunSteps(start, steps).clients
    requires var phase := RunSteps(start, steps).clients[c].phase;
             phase.WaitOuter? || phase.WaitLine? || phase.WaitBalance?
    ensures var s := RunSteps(start, steps);
            var l := s.clients[c];
            key in s.locks && s.locks[key] == c <==>
              && !l.phase.WaitOuter?
              && match l.request
                 case PayRequest(_, o) => key == OrderLock(o)
                 case CancelRequest(_, p) => key == PaymentLock(p)
  {
    EveryInterleavingIsSerial(start, steps);
    var s := RunSteps(start, steps);
    OwnLocks(s, c, key);
    assert WellFormed(s.clients[c]);
  }

  /** Who is in the way: the holder of what a client waits for, or the client itself if it need not wait. */
  function Blocker(s: State, c: int): int
    requires c in s.clients
  {
    var l := s.clients[c];
    if Wanted(l).Some? && Wanted(l).value in s.locks then s.locks[Wanted(l).value] else c
  }

  /** The call a client that need not wait makes next. */
  function NextStep(s: State, c: int): Step
    requires c in s.clients
  {
    var l := s.clients[c];
    if Wanted(l).Some? then Acquire(c)
    else if Working(l.phase) then Work(c, LinesOf(s.db, l.orderId))
    else if l.phase.Commit? then Conclude(c)
    else if l.phase.Closing? then Close(c)
    else Leave(c)
  }

  lemma UnblockedMoves(s: State, c: int)
    requires Inv(s) && c in s.clients && !s.clients[c].phase.Finished? && Blocker(s, c) == c
    ensures Enabled(s, NextStep(s, c))
  {
    var l := s.clients[c];
    assert WellFormed(l);
    if Wanted(l).Some? && Wanted(l).value in s.locks {
      OwnLocks(s, c, Wanted(l).value);
    }
  }

  /** Wait chains are at most two long: the blocker of a blocker can always make its next call. */
  lemma WaitChainsEnd(s: State, c: int)
    requires Inv(s) && c in s.clients && !s.clients[c].phase.Finished?
    ensures var b := Blocker(s, c);
            && b in s.clients && !s.clients[b].phase.Finished?
            && Blocker(s, b) in s.clients && !s.clients[Blocker(s, b)].phase.Finished?
            && Blocker(s, Blocker(s, b)) == Blocker(s, b)
  {
    BlockerRank(s, c);
    BlockerRank(s, Blocker(s, c));
    BlockerRank(s, Blocker(s, Blocker(s, c)));
  }

  /** 0: waits for an outer lock; 1: waits for an inner lock; 2: waits for nothing. */
  function Rank(l: Client): nat {
    if l.phase.WaitOuter? then 0 else if Wanted(l).Some? then 1 else 2
  }

  lemma BlockerRank(s: State, c: int)
    requires Inv(s) && c in s.clients && !s.clients[c].phase.Finished?
    ensures Blocker(s, c) in s.clients && !s.clients[Blocker(s, c)].phase.Finished?
    ensures Blocker(s, c) != c ==> Rank(s.clients[Blocker(s, c)]) > Rank(s.clients[c])
  {
    var b := Blocker(s, c);
    if b != c {
      var key := Wanted(s.clients[c]).value;
      assert HoldsKey(s.clients[b], key);
      assert WellFormed(s.clients[b]) && WellFormed(s.clients[c]);
    }
  }

  /** Some client can always make its next call without anybody giving up a wait: there is no deadlock. */
  lemma {:induction false} NoDeadlock(start: State, steps: seq<Step>, c: int)
    requires Init(start)
    requires c in RunSteps(start, steps).clients && !RunSteps(start, steps).clients[c].phase.Finished?
    ensures var s := RunSteps(start, steps);
            exists d | d in s.clients :: Enabled(s, NextStep(s, d))
  {
    EveryInterleavingIsSerial(start, steps);
    var s := RunSteps(start, steps);
    WaitChainsEnd(s, c);
    UnblockedMoves(s, Blocker(s, Blocker(s, c)));
  }

  /** How far a client has come. */
  function Position(l: Client): nat {
    var n := 4 * |l.lines|;
    match l.phase
    case WaitOuter => 0
    case First => 1
    case FetchLines => 2
    case WaitLine(k) => 3 + 4 * k
    case CheckLine(k) => 4 + 4 * k
    case UpdateLine(k) => 5 + 4 * k
    case LeaveLine(k) => 6 + 4 * k
    case WaitBalance => 3 + n
    case MoveBalance => 4 + n
    case LeaveBalance => 5 + n
    case WritePayment => 6 + n
    case WriteOrder => 7 + n
    case Commit => 8 + n
    case Unwind(_) => 9 + n
    case Closing(_) => 10 + n
    case Finished(_) => 11 + n
  }

  function Mover(step: Step): Option<int> {
    match step
    case Outside(_) => None
    case Arrive(_, _) => None
    case Acquire(c) => Some(c)
    case Work(c, _) => Some(c)
    case Throw(c) => Some(c)
    case Leave(c) => Some(c)
    case Conclude(c) => Some(c)
    case Close(c) => Some(c)
  }

  /** Client `c` alone moved, strictly closer to the end, which is at most `11 + 4 * lines` calls from the start. */
  ghost predicate Advances(s: State, after: State, c: int) {
    && c in s.clients && c in after.clients && after.clients == s.clients[c := after.clients[c]]
    && Position(s.clients[c]) < Position(after.clients[c]) <= 11 + 4 * |after.clients[c].lines|
  }

  /** Every call brings its client closer to the end, so a client is through after finitely many. */
  lemma {:induction false} EveryCallAdvances(s: State, step: Step)
    requires ClientsCoherent(s) && Enabled(s, step) && Mover(step).Some?
    ensures Advances(s, Do(s, step), Mover(step).value)
  {
    match step
    case Work(c, found) => WorkAdvances(s, c, found);
    case Throw(c) => ThrowAdvances(s.clients[c]);
    case Acquire(c) => PhaseAdvances(s.clients[c], Acquired(s.clients[c]));
    case Leave(c) => PhaseAdvances(s.clients[c], Left(s.clients[c]));
    case Conclude(c) =>
    case Close(c) =>
  }

  lemma WorkAdvances(s: State, c: int, found: seq<Line>)
    requires Enabled(s, Work(c, found))
    ensures Advances(s, DoWork(s, c, found), c)
  {
    var l := s.clients[c];
    if TxStep(s.db, l, found, s.nextPaymentId).Success? {
      StepShape(s.db, l, found, s.nextPaymentId);
      NextPhaseAdvances(l, DoWork(s, c, found).clients[c], found);
    } else {
      ThrowAdvances(l);
    }
  }

  lemma NextPhaseAdvances(l: Client, after: Client, found: seq<Line>)
    requires Working(l.phase) && InRange(l) && after.phase == NextPhase(l, found)
    requires after.lines == (if l.phase.FetchLines? then found else l.lines)
    ensures Position(l) < Position(after) <= 11 + 4 * |after.lines|
  {
  }

  lemma ThrowAdvances(l: Client)
    requires InRange(l) && (InTx(l.phase) || l.phase.WaitOuter?)
    ensures Position(l) < Position(l.(phase := Thrown(l))) <= 11 + 4 * |l.lines|
  {
  }

  lemma PhaseAdvances(l: Client, next: Phase)
    requires InRange(l)
    requires (Wanted(l).Some? && next == Acquired(l))
             || ((l.phase.LeaveLine? || l.phase.LeaveBalance? || l.phase.Unwind?) && next == Left(l))
    ensures Position(l) < Position(l.(phase := next)) <= 11 + 4 * |l.lines|
  {
  }
}
