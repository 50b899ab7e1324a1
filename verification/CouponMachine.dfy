/**
 * Direct issuing under every interleaving of requests: each request takes the coupon's lock, checks the row
 * and the Redis set, commits the user coupon, marks the user in Redis and releases the lock, while coupons
 * are used or expire meanwhile (coupon.service.ts). A step that is not enabled changes nothing.
 */
module CouponMachine {
  import opened Wrappers
  import opened CouponIssue

  datatype Stage =
    | WaitLock | FindRow | CheckIssued | CheckCount | CreateRow | MarkRow
    | ReleaseLock(issuedIt: bool)
    | Done(issuedIt: bool)

  datatype Request = Request(userId: int, fcfsId: int, stage: Stage)

  datatype State = State(
    tables: CouponTables,
    issued: map<int, set<int>>,
    locks: map<int, int>,            // fcfs-coupon:<id> -> request
    requests: map<int, Request>,
    created: seq<Issue>,             // committed user coupons, in commit order
    unmarked: map<int, set<int>>)    // users whose mark in Redis failed

  datatype Step =
    | Arrive(request: int, userId: int, fcfsId: int)
    | TakeLock(request: int)
    | Proceed(request: int, now: int)
    | Throw(request: int, landed: bool)   // `landed`: the failing Redis call had taken effect
    | LetGo(request: int)
    | SetStatus(userId: int, couponId: int, status: CouponStatus)

  predicate InLock(stage: Stage) {
    !stage.WaitLock? && !stage.Done?
  }

  ghost predicate Enabled(s: State, step: Step) {
    match step
    case Arrive(r, _, _) => r !in s.requests
    case TakeLock(r) => r in s.requests && s.requests[r].stage.WaitLock? && s.requests[r].fcfsId !in s.locks
    case Proceed(r, _) => r in s.requests && InLock(s.requests[r].stage) && !s.requests[r].stage.ReleaseLock?
    case Throw(r, _) => r in s.requests && !s.requests[r].stage.Done? && !s.requests[r].stage.ReleaseLock?
    case LetGo(r) => r in s.requests && s.requests[r].stage.ReleaseLock?
    case SetStatus(u, c, _) => (u, c) in s.tables.owned
  }

  function At(s: State, r: int, stage: Stage): State
    requires r in s.requests
  {
    s.(requests := s.requests[r := s.requests[r].(stage := stage)])
  }

  function Mark(s: State, r: int): State
    requires r in s.requests
  {
    var q := s.requests[r];
    s.(issued := s.issued[q.fcfsId := IssuedSet(s.issued, q.fcfsId) + {q.userId}])
  }

  function Unmarked(s: State, r: int): State
    requires r in s.requests
  {
    var q := s.requests[r];
    s.(unmarked := s.unmarked[q.fcfsId := IssuedSet(s.unmarked, q.fcfsId) + {q.userId}])
  }

  /** A request that passed the checks gets its row unless the user has one for this coupon already. */
  predicate Creates(s: State, q: Request) {
    q.stage.CreateRow? && q.fcfsId in s.tables.fcfs
    && Create(s.tables, q.userId, s.tables.fcfs[q.fcfsId].couponId).Success?
  }

  function WithRow(s: State, r: int): State
    requires r in s.requests && Creates(s, s.requests[r])
  {
    var q := s.requests[r];
    At(s, r, MarkRow).(tables := Create(s.tables, q.userId, s.tables.fcfs[q.fcfsId].couponId).value,
                       created := s.created + [Issue(q.fcfsId, q.userId)])
  }

  /** Where a call that writes nothing leads: on to the next check, or out with an exception. */
  function Verdict(s: State, q: Request, now: int): Stage {
    if q.fcfsId !in s.tables.fcfs then ReleaseLock(false)
    else
      var coupon := s.tables.fcfs[q.fcfsId];
      match q.stage
      case FindRow => if now < coupon.startDate || now > coupon.endDate then ReleaseLock(false) else CheckIssued
      case CheckIssued => if q.userId in IssuedSet(s.issued, q.fcfsId) then ReleaseLock(false) else CheckCount
      case CheckCount =>
        if |IssuedSet(s.issued, q.fcfsId)| >= coupon.stockQuantity then ReleaseLock(false) else CreateRow
      case _ => ReleaseLock(false)
  }

  /** One awaited call inside the lock. */
  function DoProceed(s: State, r: int, now: int): State
    requires r in s.requests
  {
    if Creates(s, s.requests[r]) then WithRow(s, r)
    else if s.requests[r].stage.MarkRow? then Mark(At(s, r, ReleaseLock(true)), r)
    else At(s, r, Verdict(s, s.requests[r], now))
  }

  /** Any call may throw; only a throwing mark leaves the coupon behind, unmarked unless it had landed. */
  function DoThrow(s: State, r: int, landed: bool): State
    requires r in s.requests
  {
    var q := s.requests[r];
    match q.stage
    case WaitLock => At(s, r, Done(false))
    case MarkRow =>
      if landed then Mark(At(s, r, ReleaseLock(false)), r)
      else Unmarked(At(s, r, ReleaseLock(false)), r)
    case _ => At(s, r, ReleaseLock(false))
  }

  ghost function Do(s: State, step: Step): State {
    if !Enabled(s, step) then s
    else match step
      case Arrive(r, u, f) => s.(requests := s.requests[r := Request(u, f, WaitLock)])
      case TakeLock(r) => At(s, r, FindRow).(locks := s.locks[s.requests[r].fcfsId := r])
      case Proceed(r, now) => DoProceed(s, r, now)
      case Throw(r, landed) => DoThrow(s, r, landed)
      case LetGo(r) =>
        At(s, r, Done(s.requests[r].stage.issuedIt)).(locks := s.locks - {s.requests[r].fcfsId})
      case SetStatus(u, c, status) => s.(tables := s.tables.(owned := s.tables.owned[(u, c) := status]))
  }

  ghost function RunSteps(s: State, steps: seq<Step>): State {
    if steps == [] then s else Do(RunSteps(s, steps[..|steps| - 1]), steps[|steps| - 1])
  }

  ghost predicate Init(s: State) {
    s.issued == map[] && s.locks == map[] && s.requests == map[] && s.created == [] && s.unmarked == map[]
  }

  // ---- The lock and the books ----------------------------------------------------------------------

  function CouponStock(s: State, fcfsId: int): int {
    if fcfsId in s.tables.fcfs then s.tables.fcfs[fcfsId].stockQuantity else 0
  }

  /** The request inside the coupon's lock. */
  function Holder(s: State, fcfsId: int): Option<Request> {
    if fcfsId in s.locks && s.locks[fcfsId] in s.requests then Some(s.requests[s.locks[fcfsId]]) else None
  }

  /** The user whose coupon is committed and whose mark is still to come: at most one. */
  function Pending(holder: Option<Request>): set<int> {
    if holder.Some? && holder.value.stage.MarkRow? then {holder.value.userId} else {}
  }

  // ---- Invariant ------------------------------------------------------------------------------------

  ghost predicate LocksMatch(s: State) {
    && (forall r | r in s.requests && InLock(s.requests[r].stage) ::
          s.requests[r].fcfsId in s.locks && s.locks[s.requests[r].fcfsId] == r)
    && (forall f | f in s.locks ::
          s.locks[f] in s.requests && s.requests[s.locks[f]].fcfsId == f && InLock(s.requests[s.locks[f]].stage))
  }

  /** What the holder of the lock has already checked still holds. */
  ghost predicate ChecksHold(q: Request, marked: set<int>, stock: int) {
    && (q.stage.CheckCount? || q.stage.CreateRow? || q.stage.MarkRow? ==> q.userId !in marked)
    && (q.stage.CreateRow? || q.stage.MarkRow? ==> |marked| < stock)
  }

  /**
   * The books of one coupon. Redis lags the table by the lock holder between commit and mark and by failed
   * marks, and by nobody else; the marked users and the pending one never exceed the stock.
   */
  ghost predicate Books(f: int, holder: Option<Request>, marked: set<int>, unmarked: set<int>, created: seq<Issue>,
                        stock: int)
  {
    var pending := Pending(holder);
    && (holder.Some? ==> ChecksHold(holder.value, marked, stock))
    && marked * unmarked == {} && (marked + unmarked) * pending == {}
    && (forall u :: Issue(f, u) in created <==> u in marked || u in unmarked || u in pending)
    && Created(created, f) == |marked| + |unmarked| + |pending|
    && (|marked| <= stock || marked == {})
    && (Created(created, f) > 0 ==> stock > 0)
  }

  ghost predicate BooksAt(s: State, f: int) {
    Books(f, Holder(s, f), IssuedSet(s.issued, f), IssuedSet(s.unmarked, f), s.created, CouponStock(s, f))
  }

  /** Every committed coupon is in the table, and no two commits gave one user the same coupon. */
  ghost predicate OnePerUser(fcfs: map<int, FcfsCoupon>, owned: map<(int, int), CouponStatus>, created: seq<Issue>) {
    && (forall i | 0 <= i < |created| ::
          created[i].fcfsId in fcfs && (created[i].userId, fcfs[created[i].fcfsId].couponId) in owned)
    && (forall i, j | 0 <= i < j < |created| :: !SameCoupon(fcfs, created[i], created[j]))
  }

  ghost predicate SameCoupon(fcfs: map<int, FcfsCoupon>, a: Issue, b: Issue) {
    && a.userId == b.userId
    && a.fcfsId in fcfs && b.fcfsId in fcfs && fcfs[a.fcfsId].couponId == fcfs[b.fcfsId].couponId
  }

  ghost predicate Inv(s: State) {
    && LocksMatch(s)
    && OnePerUser(s.tables.fcfs, s.tables.owned, s.created)
    && forall f :: BooksAt(s, f)
  }

  // ---- The books of one coupon, entry by entry ----------------------------------------------------------

  /** The user of a request that passed all checks and is not in the table is in no book yet. */
  lemma BooksCreate(f: int, q: Request, marked: set<int>, unmarked: set<int>, created: seq<Issue>, stock: int)
    requires q.stage.CreateRow? && Issue(f, q.userId) !in created
    requires Books(f, Some(q), marked, unmarked, created, stock)
    ensures Books(f, Some(q.(stage := MarkRow)), marked, unmarked, created + [Issue(f, q.userId)], stock)
  {
    CreatedAppend(created, Issue(f, q.userId), f);
  }

  lemma BooksMark(f: int, q: Request, stage: Stage, marked: set<int>, unmarked: set<int>, created: seq<Issue>,
                  stock: int)
    requires q.stage.MarkRow? && stage.ReleaseLock?
    requires Books(f, Some(q), marked, unmarked, created, stock)
    ensures Books(f, Some(q.(stage := stage)), marked + {q.userId}, unmarked, created, stock)
  {
    assert Pending(Some(q)) == {q.userId};
    assert |marked + {q.userId}| == |marked| + 1;
  }

  lemma BooksMarkFails(f: int, q: Request, stage: Stage, marked: set<int>, unmarked: set<int>, created: seq<Issue>,
                       stock: int)
    requires q.stage.MarkRow? && stage.ReleaseLock?
    requires Books(f, Some(q), marked, unmarked, created, stock)
    ensures Books(f, Some(q.(stage := stage)), marked, unmarked + {q.userId}, created, stock)
  {
    assert Pending(Some(q)) == {q.userId};
    assert |unmarked + {q.userId}| == |unmarked| + 1;
  }

  lemma BooksOther(f: int, holder: Option<Request>, marked: set<int>, unmarked: set<int>, created: seq<Issue>,
                   stock: int, issue: Issue)
    requires issue.fcfsId != f && Books(f, holder, marked, unmarked, created, stock)
    ensures Books(f, holder, marked, unmarked, created + [issue], stock)
  {
    CreatedAppend(created, issue, f);
  }

  // ---- Every step keeps the books ------------------------------------------------------------------------

  lemma HolderIs(s: State, r: int)
    requires LocksMatch(s) && r in s.requests && InLock(s.requests[r].stage)
    ensures Holder(s, s.requests[r].fcfsId) == Some(s.requests[r])
  {
  }

  /** A step that leaves a coupon's holder and books alone. */
  lemma SameBooks(s: State, after: State, f: int)
    requires BooksAt(s, f) && Holder(after, f) == Holder(s, f)
    requires IssuedSet(after.issued, f) == IssuedSet(s.issued, f)
    requires IssuedSet(after.unmarked, f) == IssuedSet(s.unmarked, f)
    requires after.created == s.created && after.tables.fcfs == s.tables.fcfs
    ensures BooksAt(after, f)
  {
  }

  /** A new holder with nothing pending, or none, when the old one had nothing pending either. */
  lemma BooksHolder(f: int, before: Option<Request>, after: Option<Request>, marked: set<int>, unmarked: set<int>,
                    created: seq<Issue>, stock: int)
    requires Books(f, before, marked, unmarked, created, stock)
    requires Pending(before) == {} && Pending(after) == {}
    requires after.Some? ==> ChecksHold(after.value, marked, stock)
    ensures Books(f, after, marked, unmarked, created, stock)
  {
  }

  /** In a reachable state only the issued users of a coupon are in its log, so a user without the row is not. */
  lemma NotYetCreated(s: State, q: Request)
    requires OnePerUser(s.tables.fcfs, s.tables.owned, s.created) && q.fcfsId in s.tables.fcfs
    requires (q.userId, s.tables.fcfs[q.fcfsId].couponId) !in s.tables.owned
    ensures Issue(q.fcfsId, q.userId) !in s.created
    ensures OnePerUser(s.tables.fcfs, s.tables.owned[(q.userId, s.tables.fcfs[q.fcfsId].couponId) := Available],
                       s.created + [Issue(q.fcfsId, q.userId)])
  {
    var issue := Issue(q.fcfsId, q.userId);
    forall i | 0 <= i < |s.created| ensures !SameCoupon(s.tables.fcfs, s.created[i], issue) {
      assert (s.created[i].userId, s.tables.fcfs[s.created[i].fcfsId].couponId) in s.tables.owned;
    }
  }

  lemma CreateKeepsBooks(s: State, r: int, f: int)
    requires LocksMatch(s) && BooksAt(s, f) && r in s.requests && Creates(s, s.requests[r])
    requires Issue(s.requests[r].fcfsId, s.requests[r].userId) !in s.created
    ensures BooksAt(WithRow(s, r), f)
  {
    var after, q := WithRow(s, r), s.requests[r];
    HolderIs(s, r);
    var marked, unmarked := IssuedSet(s.issued, f), IssuedSet(s.unmarked, f);
    if f == q.fcfsId {
      BooksCreate(f, q, marked, unmarked, s.created, CouponStock(s, f));
      assert Holder(after, f) == Some(q.(stage := MarkRow));
    } else {
      BooksOther(f, Holder(s, f), marked, unmarked, s.created, CouponStock(s, f), Issue(q.fcfsId, q.userId));
      assert Holder(after, f) == Holder(s, f);
    }
  }

  lemma MarkLands(s: State, r: int, outcome: bool, f: int)
    requires LocksMatch(s) && BooksAt(s, f) && r in s.requests && s.requests[r].stage.MarkRow?
    ensures BooksAt(Mark(At(s, r, ReleaseLock(outcome)), r), f)
  {
    var q, after := s.requests[r], Mark(At(s, r, ReleaseLock(outcome)), r);
    HolderIs(s, r);
    if f == q.fcfsId {
      var marked, unmarked := IssuedSet(s.issued, f), IssuedSet(s.unmarked, f);
      BooksMark(f, q, ReleaseLock(outcome), marked, unmarked, s.created, CouponStock(s, f));
      assert Holder(after, f) == Some(q.(stage := ReleaseLock(outcome)));
      assert IssuedSet(after.issued, f) == marked + {q.userId} && IssuedSet(after.unmarked, f) == unmarked;
    } else {
      SameBooks(s, after, f);
    }
  }

  lemma MarkFails(s: State, r: int, f: int)
    requires LocksMatch(s) && BooksAt(s, f) && r in s.requests && s.requests[r].stage.MarkRow?
    ensures BooksAt(Unmarked(At(s, r, ReleaseLock(false)), r), f)
  {
    var q, after := s.requests[r], Unmarked(At(s, r, ReleaseLock(false)), r);
    HolderIs(s, r);
    if f == q.fcfsId {
      var marked, unmarked := IssuedSet(s.issued, f), IssuedSet(s.unmarked, f);
      BooksMarkFails(f, q, ReleaseLock(false), marked, unmarked, s.created, CouponStock(s, f));
      assert Holder(after, f) == Some(q.(stage := ReleaseLock(false)));
      assert IssuedSet(after.unmarked, f) == unmarked + {q.userId} && IssuedSet(after.issued, f) == marked;
    } else {
      SameBooks(s, after, f);
    }
  }

  /** Request `r` moves between stages with nothing pending, possibly taking or giving back its lock. */
  lemma QuietKeepsBooks(s: State, after: State, r: int, f: int)
    requires BooksAt(s, f) && r in after.requests && after.requests == s.requests[r := after.requests[r]]
    requires r in s.requests ==> !s.requests[r].stage.MarkRow?
    requires !after.requests[r].stage.MarkRow?
    requires after.tables.fcfs == s.tables.fcfs
    requires after.issued == s.issued && after.unmarked == s.unmarked && after.created == s.created
    requires (f in after.locks && after.locks[f] != r) || (f in s.locks && s.locks[f] != r)
             ==> f in after.locks && f in s.locks && after.locks[f] == s.locks[f]
    requires f in after.locks && after.locks[f] == r ==>
               ChecksHold(after.requests[r], IssuedSet(s.issued, f), CouponStock(s, f))
    ensures BooksAt(after, f)
  {
    if f in s.locks && s.locks[f] != r {
      SameBooks(s, after, f);
    } else {
      BooksHolder(f, Holder(s, f), Holder(after, f), IssuedSet(s.issued, f), IssuedSet(s.unmarked, f), s.created,
                  CouponStock(s, f));
    }
  }

  lemma ProceedQuietly(s: State, r: int, now: int, f: int)
    requires LocksMatch(s) && BooksAt(s, f) && Enabled(s, Proceed(r, now))
    requires !s.requests[r].stage.MarkRow?
    ensures BooksAt(At(s, r, Verdict(s, s.requests[r], now)), f)
  {
    HolderIs(s, r);
    QuietKeepsBooks(s, At(s, r, Verdict(s, s.requests[r], now)), r, f);
  }

  lemma ProceedKeepsBooks(s: State, r: int, now: int, f: int)
    requires LocksMatch(s) && BooksAt(s, f) && Enabled(s, Proceed(r, now))
    requires OnePerUser(s.tables.fcfs, s.tables.owned, s.created)
    ensures BooksAt(DoProceed(s, r, now), f)
  {
    if Creates(s, s.requests[r]) {
      NotYetCreated(s, s.requests[r]);
      CreateKeepsBooks(s, r, f);
    } else if s.requests[r].stage.MarkRow? {
      MarkLands(s, r, true, f);
    } else {
      ProceedQuietly(s, r, now, f);
    }
  }

  lemma ThrowKeepsBooks(s: State, r: int, landed: bool, f: int)
    requires LocksMatch(s) && BooksAt(s, f) && Enabled(s, Throw(r, landed))
    ensures BooksAt(DoThrow(s, r, landed), f)
  {
    if !s.requests[r].stage.MarkRow? {
      QuietKeepsBooks(s, DoThrow(s, r, landed), r, f);
    } else if landed {
      MarkLands(s, r, false, f);
    } else {
      MarkFails(s, r, f);
    }
  }

  lemma StepKeepsBooks(s: State, step: Step, f: int)
    requires LocksMatch(s) && BooksAt(s, f) && OnePerUser(s.tables.fcfs, s.tables.owned, s.created) && Enabled(s, step)
    ensures BooksAt(Do(s, step), f)
  {
    match step
    case Arrive(r, _, _) => QuietKeepsBooks(s, Do(s, step), r, f);
    case TakeLock(r) => QuietKeepsBooks(s, Do(s, step), r, f);
    case Proceed(r, now) => ProceedKeepsBooks(s, r, now, f);
    case Throw(r, landed) => ThrowKeepsBooks(s, r, landed, f);
    case LetGo(r) => QuietKeepsBooks(s, Do(s, step), r, f);
    case SetStatus(_, _, _) => SameBooks(s, Do(s, step), f);
  }

  /** One request moves between stages; the lock table moves with it. */
  lemma MoveKeepsLocks(s: State, after: State, r: int)
    requires LocksMatch(s) && r in after.requests && after.requests == s.requests[r := after.requests[r]]
    requires r in s.requests ==> after.requests[r].fcfsId == s.requests[r].fcfsId
    requires var f := after.requests[r].fcfsId;
             if InLock(after.requests[r].stage) then
               after.locks == s.locks[f := r] && (f in s.locks ==> s.locks[f] == r)
             else
               after.locks == (if r in s.requests && InLock(s.requests[r].stage) then s.locks - {f} else s.locks)
    ensures LocksMatch(after)
  {
  }

  lemma ProceedShape(s: State, r: int, now: int)
    requires Enabled(s, Proceed(r, now))
    ensures var after := DoProceed(s, r, now);
            && after.requests == s.requests[r := s.requests[r].(stage := after.requests[r].stage)]
            && InLock(after.requests[r].stage) && after.locks == s.locks && after.tables.fcfs == s.tables.fcfs
  {
  }

  lemma {:induction false} StepKeepsLocks(s: State, step: Step)
    requires LocksMatch(s) && Enabled(s, step)
    ensures LocksMatch(Do(s, step)) && Do(s, step).tables.fcfs == s.tables.fcfs
  {
    match step
    case Arrive(r, _, _) => MoveKeepsLocks(s, Do(s, step), r);
    case TakeLock(r) => MoveKeepsLocks(s, Do(s, step), r);
    case Proceed(r, now) =>
      ProceedShape(s, r, now);
      assert s.locks[s.requests[r].fcfsId := r] == s.locks;
      MoveKeepsLocks(s, Do(s, step), r);
    case Throw(r, _) =>
      if !s.requests[r].stage.WaitLock? { assert s.locks[s.requests[r].fcfsId := r] == s.locks; }
      MoveKeepsLocks(s, Do(s, step), r);
    case LetGo(r) => MoveKeepsLocks(s, Do(s, step), r);
    case SetStatus(_, _, _) =>
  }

  lemma StepKeepsOnePerUser(s: State, step: Step)
    requires OnePerUser(s.tables.fcfs, s.tables.owned, s.created) && Enabled(s, step)
    ensures OnePerUser(Do(s, step).tables.fcfs, Do(s, step).tables.owned, Do(s, step).created)
  {
    if step.Proceed? {
      var r := step.request;
      if Creates(s, s.requests[r]) { NotYetCreated(s, s.requests[r]); }
    }
  }

  lemma {:induction false} EveryRunKeepsInv(s: State, steps: seq<Step>)
    requires Init(s)
    ensures Inv(RunSteps(s, steps)) && RunSteps(s, steps).tables.fcfs == s.tables.fcfs
  {
    if steps == [] {
      forall f ensures BooksAt(s, f) {}
    } else {
      EveryRunKeepsInv(s, steps[..|steps| - 1]);
      var before, step := RunSteps(s, steps[..|steps| - 1]), steps[|steps| - 1];
      if Enabled(before, step) {
        StepKeepsLocks(before, step);
        StepKeepsOnePerUser(before, step);
        forall f { StepKeepsBooks(before, step, f); }
      }
    }
  }

  // ---- Guarantees ----------------------------------------------------------------------------------------------

  /**
   * No more coupons are committed than the stock plus the marks that failed, so with no failed mark never
   * too many, and none at all without stock; and Redis knows every user with a commit but the failed ones and the
   * one being marked.
   */
  lemma {:induction false} IssuedWithinStock(s: State, steps: seq<Step>, f: int)
    requires Init(s)
    ensures var end := RunSteps(s, steps);
            var unmarked, pending := IssuedSet(end.unmarked, f), Pending(Holder(end, f));
            && Created(end.created, f) <= (if CouponStock(s, f) > 0 then CouponStock(s, f) + |unmarked| else 0)
            && |pending| <= 1
            && (forall u :: u in IssuedSet(end.issued, f)
                  <==> Issue(f, u) in end.created && u !in unmarked && u !in pending)
  {
    EveryRunKeepsInv(s, steps);
    assert BooksAt(RunSteps(s, steps), f);
  }

  /** Nobody gets the same coupon twice, not even through two rows that hand it out. */
  lemma {:induction false} NoUserGetsTwo(s: State, steps: seq<Step>, i: int, j: int)
    requires Init(s) && 0 <= i < j < |RunSteps(s, steps).created|
    ensures var created := RunSteps(s, steps).created;
            !SameCoupon(s.tables.fcfs, created[i], created[j])
            && created[i].fcfsId in s.tables.fcfs && created[j].fcfsId in s.tables.fcfs
  {
    EveryRunKeepsInv(s, steps);
  }
}
