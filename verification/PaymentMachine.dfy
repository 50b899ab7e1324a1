/**
 * Any number of clients running processPayment and cancelPayment against one database and one lock
 * table, interleaved call by call, while orders are created and balances moved from outside. A run is a
 * sequence of steps; a step that is not enabled changes nothing, so every sequence is a run.
 */
module PaymentMachine {
  import opened Wrappers
  import opened Store
  import opened SerialRuns
  import opened PaymentClient
  import opened PaymentSteps

  datatype Entry = Entry(client: Option<int>, op: Operation)

  /** `log` records what was committed, in commit order. */
  datatype State = State(
    db: Database,
    locks: map<LockKey, int>,
    clients: map<int, Client>,
    nextPaymentId: int,
    log: seq<Entry>)

  datatype Step =
    | Arrive(client: int, request: Request)
    | Acquire(client: int)
    | Work(client: int, found: seq<Line>)
    | Throw(client: int)             // lock refused, database or Redis error, transaction aborted
    | Leave(client: int)             // inner finally
    | Conclude(client: int)          // commit, or roll back when something read has changed
    | Close(client: int)             // outer finally
    | Outside(op: Operation)

  // ---- Locks a client wants and has --------------------------------------------------------------

  function OuterKey(l: Client): LockKey {
    match l.request
    case PayRequest(_, o) => OrderLock(o)
    case CancelRequest(_, p) => PaymentLock(p)
  }

  function Wanted(l: Client): Option<LockKey> {
    match l.phase
    case WaitOuter => Some(OuterKey(l))
    case WaitLine(k) => if k < |l.lines| then Some(ProductLock(l.lines[k].variantId)) else None
    case WaitBalance => Some(BalanceLock(l.request.userId))
    case _ => None
  }

  function LineKey(l: Client, k: nat): Option<LockKey> {
    if k < |l.lines| then Some(ProductLock(l.lines[k].variantId)) else None
  }

  function InnerKey(l: Client): Option<LockKey> {
    match l.phase
    case CheckLine(k) => LineKey(l, k)
    case UpdateLine(k) => LineKey(l, k)
    case LeaveLine(k) => LineKey(l, k)
    case MoveBalance => Some(BalanceLock(l.request.userId))
    case LeaveBalance => Some(BalanceLock(l.request.userId))
    case Unwind(key) => Some(key)
    case _ => None
  }

  function HoldsKey(l: Client, key: LockKey): bool {
    (!l.phase.WaitOuter? && !l.phase.Finished? && key == OuterKey(l)) || InnerKey(l) == Some(key)
  }

  // ---- Steps ---------------------------------------------------------------------------------------

  function Acquired(l: Client): Phase {
    match l.phase
    case WaitOuter => First
    case WaitLine(k) => if Paying(l) then CheckLine(k) else UpdateLine(k)
    case WaitBalance => MoveBalance
    case other => other
  }

  function Left(l: Client): Phase {
    match l.phase
    case LeaveLine(k) => NextLine(l.lines, k + 1)
    case LeaveBalance => WritePayment
    case Unwind(_) => Closing(false)
    case other => other
  }

  /** An exception leaves through the inner finally if an inner lock is held, and through the outer one. */
  function Thrown(l: Client): Phase {
    if l.phase.WaitOuter? then Finished(false)
    else match InnerKey(l)
         case Some(key) => Unwind(key)
         case None => Closing(false)
  }

  /** The operation a client commits. */
  function OpOf(l: Client): Operation {
    match l.request
    case PayRequest(u, o) => Pay(u, o, l.paymentId)
    case CancelRequest(u, p) => Cancel(u, p)
  }

  ghost predicate Unchanged(db: Database, l: Client) {
    forall f | f in l.seen :: HoldsIn(db, f)
  }

  predicate IsOutside(op: Operation) {
    op.CreateOrder? || op.ChargeBalance? || op.DeductBalance?
  }

  ghost predicate Enabled(s: State, step: Step) {
    match step
    case Arrive(c, _) => c !in s.clients
    case Acquire(c) =>
      c in s.clients && Wanted(s.clients[c]).Some? && Wanted(s.clients[c]).value !in s.locks
    case Work(c, found) =>
      c in s.clients && Working(s.clients[c].phase) && InRange(s.clients[c])
      && (s.clients[c].phase.FetchLines? ==> multiset(found) == multiset(LinesOf(s.db, s.clients[c].orderId)))
    case Throw(c) => c in s.clients && (InTx(s.clients[c].phase) || s.clients[c].phase.WaitOuter?)
    case Leave(c) =>
      c in s.clients && InnerKey(s.clients[c]).Some?
      && (s.clients[c].phase.LeaveLine? || s.clients[c].phase.LeaveBalance? || s.clients[c].phase.Unwind?)
    case Conclude(c) => c in s.clients && s.clients[c].phase.Commit?
    case Close(c) => c in s.clients && s.clients[c].phase.Closing?
    case Outside(op) => IsOutside(op) && Legal(op) && Apply(s.db, op).Success?
  }

  function At(s: State, c: int, l: Client): State {
    s.(clients := s.clients[c := l])
  }

  ghost function Do(s: State, step: Step): State {
    if !Enabled(s, step) then s
    else match step
      case Arrive(c, request) => At(s, c, NewClient(request))
      case Acquire(c) =>
        var l := s.clients[c];
        At(s, c, l.(phase := Acquired(l))).(locks := s.locks[Wanted(l).value := c])
      case Work(c, found) => DoWork(s, c, found)
      case Throw(c) => At(s, c, s.clients[c].(phase := Thrown(s.clients[c])))
      case Leave(c) =>
        var l := s.clients[c];
        At(s, c, l.(phase := Left(l))).(locks := s.locks - {InnerKey(l).value})
      case Conclude(c) => DoConclude(s, c)
      case Close(c) =>
        var l := s.clients[c];
        At(s, c, l.(phase := Finished(l.phase.committed))).(locks := s.locks - {OuterKey(l)})
      case Outside(op) => s.(db := Exec(s.db, op), log := s.log + [Entry(None, op)])
  }

  function DoWork(s: State, c: int, found: seq<Line>): State
    requires c in s.clients && Working(s.clients[c].phase) && InRange(s.clients[c])
  {
    var l := s.clients[c];
    match TxStep(s.db, l, found, s.nextPaymentId)
    case Success(after) =>
      At(s, c, after).(nextPaymentId := if Allocated(after) && !Allocated(l) then s.nextPaymentId + 1
                                        else s.nextPaymentId)
    case Failure(_) => At(s, c, l.(phase := Thrown(l)))
  }

  ghost function DoConclude(s: State, c: int): State
    requires c in s.clients
  {
    var l := s.clients[c];
    if Unchanged(s.db, l) then
      At(s, c, l.(phase := Closing(true))).(db := View(s.db, l.writes), log := s.log + [Entry(Some(c), OpOf(l))])
    else
      At(s, c, l.(phase := Closing(false)))
  }

  ghost function RunSteps(s: State, steps: seq<Step>): State {
    if steps == [] then s else Do(RunSteps(s, steps[..|steps| - 1]), steps[|steps| - 1])
  }

  ghost predicate Init(s: State) {
    && s.clients == map[] && s.locks == map[] && s.log == []
    && Consistent(s.db)
    && (forall p | p in s.db.payments :: p < s.nextPaymentId)
  }

  // ---- What every step keeps -----------------------------------------------------------------------

  /** The lock table says exactly what the clients' positions in the code say. */
  ghost predicate LocksMatch(s: State) {
    && (forall c, key | c in s.clients && HoldsKey(s.clients[c], key) :: key in s.locks && s.locks[key] == c)
    && (forall key | key in s.locks :: s.locks[key] in s.clients && HoldsKey(s.clients[s.locks[key]], key))
  }

  ghost predicate ClientsCoherent(s: State) {
    forall c | c in s.clients :: WellFormed(s.clients[c]) && Coherent(s.clients[c])
  }

  /** Rows a running client relies on without having read them through its transaction. */
  ghost predicate ClientsGuarded(s: State) {
    && (forall c | c in s.clients && InTx(s.clients[c].phase) :: Guarded(s.db, s.clients[c]))
    && (forall c | c in s.clients && Allocated(s.clients[c]) :: s.clients[c].paymentId < s.nextPaymentId)
    && (forall c, d | c in s.clients && d in s.clients && c != d
                      && Allocated(s.clients[c]) && Allocated(s.clients[d]) ::
          s.clients[c].paymentId != s.clients[d].paymentId)
    && (forall p | p in s.db.payments :: p < s.nextPaymentId)
  }

  ghost predicate Inv(s: State) {
    LocksMatch(s) && ClientsCoherent(s) && ClientsGuarded(s) && Consistent(s.db)
  }

  /** Two clients are never both inside the same outer lock. */
  lemma OuterExclusive(s: State, c: int, d: int)
    requires LocksMatch(s) && c in s.clients && d in s.clients && c != d
    requires InTx(s.clients[c].phase) && InTx(s.clients[d].phase)
    ensures OuterKey(s.clients[c]) != OuterKey(s.clients[d])
  {
    OwnLocks(s, c, OuterKey(s.clients[c]));
    OwnLocks(s, d, OuterKey(s.clients[d]));
  }

  // ---- Locks ---------------------------------------------------------------------------------------------

  /** Where a client stands after a step tells which key it gained or gave up. */
  lemma AcquiredHolds(l: Client, key: LockKey)
    requires WellFormed(l) && Wanted(l).Some?
    ensures HoldsKey(l.(phase := Acquired(l)), key) <==> HoldsKey(l, key) || Wanted(l) == Some(key)
  {
  }

  lemma LeftHolds(l: Client, key: LockKey)
    requires WellFormed(l) && (l.phase.LeaveLine? || l.phase.LeaveBalance? || l.phase.Unwind?)
    ensures HoldsKey(l.(phase := Left(l)), key) <==> HoldsKey(l, key) && InnerKey(l) != Some(key)
  {
  }

  lemma ThrownHolds(l: Client, key: LockKey)
    requires InTx(l.phase) || l.phase.WaitOuter?
    ensures HoldsKey(l.(phase := Thrown(l)), key) <==> HoldsKey(l, key)
  {
  }

  lemma WorkedHolds(l: Client, after: Client, found: seq<Line>, key: LockKey)
    requires Working(l.phase) && after.request == l.request && after.phase == NextPhase(l, found)
    requires after.lines == (if l.phase.FetchLines? then found else l.lines)
    ensures HoldsKey(after, key) <==> HoldsKey(l, key)
  {
  }

  /** The lock table changed only where client `c` gained or gave up keys, and `c` moved accordingly. */
  ghost predicate OnlyMoved(s: State, after: State, c: int) {
    && c in after.clients && after.clients == s.clients[c := after.clients[c]]
    && (forall key :: HoldsKey(after.clients[c], key) <==> key in after.locks && after.locks[key] == c)
    && (forall key | key in after.locks && after.locks[key] != c ::
          key in s.locks && s.locks[key] == after.locks[key])
    && (forall key | key in s.locks && s.locks[key] != c ::
          key in after.locks && after.locks[key] == s.locks[key])
  }

  lemma OnlyMovedKeepsLocks(s: State, after: State, c: int)
    requires LocksMatch(s) && OnlyMoved(s, after, c)
    ensures LocksMatch(after)
  {
    forall d, key | d in after.clients && HoldsKey(after.clients[d], key)
      ensures key in after.locks && after.locks[key] == d
    {
      if d != c {
        assert HoldsKey(s.clients[d], key);
      }
    }
  }

  /** A client's own entries of the lock table; a newcomer has none. */
  lemma OwnLocks(s: State, c: int, key: LockKey)
    requires LocksMatch(s)
    ensures c in s.clients ==> (HoldsKey(s.clients[c], key) <==> key in s.locks && s.locks[key] == c)
    ensures c !in s.clients ==> !(key in s.locks && s.locks[key] == c)
  {
  }

  /** A step that only moves a client along without touching the lock table. */
  lemma SameLocks(s: State, after: State, c: int)
    requires LocksMatch(s) && c in s.clients && c in after.clients
    requires after.locks == s.locks && after.clients == s.clients[c := after.clients[c]]
    requires forall key :: HoldsKey(after.clients[c], key) <==> HoldsKey(s.clients[c], key)
    ensures LocksMatch(after)
  {
    forall key { OwnLocks(s, c, key); }
    OnlyMovedKeepsLocks(s, after, c);
  }

  lemma ArriveKeepsLocks(s: State, c: int, request: Request)
    requires LocksMatch(s) && Enabled(s, Arrive(c, request))
    ensures LocksMatch(Do(s, Arrive(c, request)))
  {
    forall key { OwnLocks(s, c, key); }
    OnlyMovedKeepsLocks(s, Do(s, Arrive(c, request)), c);
  }

  lemma AcquireKeepsLocks(s: State, c: int)
    requires LocksMatch(s) && ClientsCoherent(s) && Enabled(s, Acquire(c))
    ensures LocksMatch(Do(s, Acquire(c)))
  {
    forall key { OwnLocks(s, c, key); }
    forall key { AcquiredHolds(s.clients[c], key); }
    OnlyMovedKeepsLocks(s, Do(s, Acquire(c)), c);
  }

  lemma LeaveKeepsLocks(s: State, c: int)
    requires LocksMatch(s) && ClientsCoherent(s) && Enabled(s, Leave(c))
    ensures LocksMatch(Do(s, Leave(c)))
  {
    forall key { OwnLocks(s, c, key); }
    forall key { LeftHolds(s.clients[c], key); }
    assert HoldsKey(s.clients[c], InnerKey(s.clients[c]).value);
    OnlyMovedKeepsLocks(s, Do(s, Leave(c)), c);
  }

  lemma CloseKeepsLocks(s: State, c: int)
    requires LocksMatch(s) && Enabled(s, Close(c))
    ensures LocksMatch(Do(s, Close(c)))
  {
    forall key { OwnLocks(s, c, key); }
    assert HoldsKey(s.clients[c], OuterKey(s.clients[c]));
    OnlyMovedKeepsLocks(s, Do(s, Close(c)), c);
  }

  lemma WorkKeepsLocks(s: State, c: int, found: seq<Line>)
    requires LocksMatch(s)
    requires c in s.clients && Working(s.clients[c].phase) && InRange(s.clients[c])
    ensures LocksMatch(DoWork(s, c, found))
  {
    var l, l' := s.clients[c], DoWork(s, c, found).clients[c];
    if TxStep(s.db, l, found, s.nextPaymentId).Success? {
      StepShape(s.db, l, found, s.nextPaymentId);
      forall key { WorkedHolds(l, l', found, key); }
    } else {
      forall key { ThrownHolds(l, key); }
    }
    SameLocks(s, DoWork(s, c, found), c);
  }

  lemma ThrowKeepsLocks(s: State, c: int)
    requires LocksMatch(s) && Enabled(s, Throw(c))
    ensures LocksMatch(Do(s, Throw(c)))
  {
    forall key { ThrownHolds(s.clients[c], key); }
    SameLocks(s, Do(s, Throw(c)), c);
  }

  lemma ConcludeKeepsLocks(s: State, c: int)
    requires LocksMatch(s) && Enabled(s, Conclude(c))
    ensures LocksMatch(Do(s, Conclude(c)))
  {
    SameLocks(s, Do(s, Conclude(c)), c);
  }

  lemma {:induction false} StepKeepsLocks(s: State, step: Step)
    requires LocksMatch(s) && ClientsCoherent(s) && Enabled(s, step)
    ensures LocksMatch(Do(s, step))
  {
    match step
    case Arrive(c, request) => ArriveKeepsLocks(s, c, request);
    case Acquire(c) => AcquireKeepsLocks(s, c);
    case Work(c, found) => WorkKeepsLocks(s, c, found);
    case Throw(c) => ThrowKeepsLocks(s, c);
    case Leave(c) => LeaveKeepsLocks(s, c);
    case Conclude(c) => ConcludeKeepsLocks(s, c);
    case Close(c) => CloseKeepsLocks(s, c);
    case Outside(op) =>
  }
}
