/** Runs of the direct issuing machine, request after request: what one request does, and how far issuing can go. */
module CouponRuns {
  import opened Wrappers
  import opened CouponIssue
  import opened CouponMachine

  // ---- A request that meets no obstacle -------------------------------------------------------------------

  lemma RunOneMore(s: State, steps: seq<Step>, step: Step)
    ensures RunSteps(s, steps + [step]) == Do(RunSteps(s, steps), step)
  {
    assert (steps + [step])[..|steps|] == steps;
  }

  ghost predicate Admissible(s: State, r: int, u: int, f: int, now: int) {
    && r !in s.requests && f !in s.locks && f in s.tables.fcfs
    && s.tables.fcfs[f].startDate <= now <= s.tables.fcfs[f].endDate
    && u !in IssuedSet(s.issued, f) && |IssuedSet(s.issued, f)| < CouponStock(s, f)
    && (u, s.tables.fcfs[f].couponId) !in s.tables.owned
  }

  /** `before` with request `r` at `stage`, holding the lock once it is past waiting. */
  function InStage(before: State, r: int, u: int, f: int, stage: Stage): State {
    before.(requests := before.requests[r := Request(u, f, stage)],
            locks := if stage.WaitLock? then before.locks else before.locks[f := r])
  }

  lemma CheckPasses(before: State, r: int, u: int, f: int, now: int, stage: Stage)
    requires Admissible(before, r, u, f, now) && (stage.FindRow? || stage.CheckIssued? || stage.CheckCount?)
    ensures Do(InStage(before, r, u, f, stage), Proceed(r, now))
            == InStage(before, r, u, f, if stage.FindRow? then CheckIssued
                                        else if stage.CheckIssued? then CheckCount else CreateRow)
  {
  }

  /** A request that meets no obstacle passes every check. */
  lemma PassesChecks(s: State, steps: seq<Step>, r: int, u: int, f: int, now: int) returns (more: seq<Step>)
    requires Admissible(RunSteps(s, steps), r, u, f, now)
    ensures RunSteps(s, more) == InStage(RunSteps(s, steps), r, u, f, CreateRow)
  {
    var before := RunSteps(s, steps);
    more := Enters(s, steps, r, u, f);
    RunOneMore(s, more, Proceed(r, now));
    CheckPasses(before, r, u, f, now, FindRow);
    more := more + [Proceed(r, now)];
    RunOneMore(s, more, Proceed(r, now));
    CheckPasses(before, r, u, f, now, CheckIssued);
    more := more + [Proceed(r, now)];
    RunOneMore(s, more, Proceed(r, now));
    CheckPasses(before, r, u, f, now, CheckCount);
    more := more + [Proceed(r, now)];
  }

  /** `before` with the coupon of request `r` committed and not marked yet. */
  function Committed(before: State, r: int, u: int, f: int): State
    requires f in before.tables.fcfs
  {
    var key := (u, before.tables.fcfs[f].couponId);
    InStage(before, r, u, f, MarkRow).(
      tables := before.tables.(owned := before.tables.owned[key := Available]),
      created := before.created + [Issue(f, u)])
  }

  /** And then it commits its coupon. */
  lemma CommitsUnhindered(s: State, steps: seq<Step>, r: int, u: int, f: int, now: int) returns (more: seq<Step>)
    requires Admissible(RunSteps(s, steps), r, u, f, now)
    ensures RunSteps(s, more) == Committed(RunSteps(s, steps), r, u, f)
  {
    more := PassesChecks(s, steps, r, u, f, now);
    RunOneMore(s, more, Proceed(r, now));
    more := more + [Proceed(r, now)];
  }

  /** What it leaves when it is through, its mark having landed or not. */
  function Issued(before: State, r: int, u: int, f: int, marks: bool): State
    requires f in before.tables.fcfs
  {
    var key := (u, before.tables.fcfs[f].couponId);
    before.(
      requests := before.requests[r := Request(u, f, Done(marks))],
      tables := before.tables.(owned := before.tables.owned[key := Available]),
      created := before.created + [Issue(f, u)],
      issued := if marks then before.issued[f := IssuedSet(before.issued, f) + {u}] else before.issued,
      unmarked := if marks then before.unmarked else before.unmarked[f := IssuedSet(before.unmarked, f) + {u}])
  }

  /** Its mark has landed or not, and it still holds the lock. */
  function Marked(before: State, r: int, u: int, f: int, marks: bool): State
    requires f in before.tables.fcfs
  {
    Issued(before, r, u, f, marks).(
      requests := before.requests[r := Request(u, f, ReleaseLock(marks))], locks := before.locks[f := r])
  }

  lemma MarksOrNot(before: State, r: int, u: int, f: int, now: int, marks: bool)
    requires Admissible(before, r, u, f, now)
    ensures Do(Committed(before, r, u, f), if marks then Proceed(r, now) else Throw(r, false))
            == Marked(before, r, u, f, marks)
  {
    var q, stage := Request(u, f, MarkRow), ReleaseLock(marks);
    assert before.requests[r := q][r := q.(stage := stage)] == before.requests[r := q.(stage := stage)];
  }

  lemma LetsGo(before: State, r: int, u: int, f: int, marks: bool)
    requires f in before.tables.fcfs && f !in before.locks
    ensures Do(Marked(before, r, u, f, marks), LetGo(r)) == Issued(before, r, u, f, marks)
  {
    assert before.locks[f := r] - {f} == before.locks;
    var q := Request(u, f, ReleaseLock(marks));
    assert before.requests[r := q][r := q.(stage := Done(marks))] == before.requests[r := q.(stage := Done(marks))];
  }

  lemma IssuesUnhindered(s: State, steps: seq<Step>, r: int, u: int, f: int, now: int, marks: bool)
    returns (more: seq<Step>)
    requires Admissible(RunSteps(s, steps), r, u, f, now)
    ensures RunSteps(s, more) == Issued(RunSteps(s, steps), r, u, f, marks)
  {
    var before := RunSteps(s, steps);
    more := CommitsUnhindered(s, steps, r, u, f, now);
    var step := if marks then Proceed(r, now) else Throw(r, false);
    RunOneMore(s, more, step);
    more := more + [step];
    RunOneMore(s, more, LetGo(r));
    more := more + [LetGo(r)];
    MarksOrNot(before, r, u, f, now, marks);
    LetsGo(before, r, u, f, marks);
  }

  // ---- A request alone, whatever comes of it --------------------------------------------------------------

  /** The checks of the code pass and the transaction creates the coupon. */
  predicate Goes(s: State, u: int, f: int, now: int) {
    var admitted := Admission(s.tables, s.issued, u, f, now);
    admitted.Success? && Create(s.tables, u, admitted.value).Success?
  }

  predicate InTime(s: State, f: int, now: int) {
    f in s.tables.fcfs && s.tables.fcfs[f].startDate <= now <= s.tables.fcfs[f].endDate
  }

  /** The checks before a stage have passed. */
  predicate Reached(s: State, u: int, f: int, now: int, stage: Stage) {
    match stage
    case FindRow => true
    case CheckIssued => InTime(s, f, now)
    case CheckCount => InTime(s, f, now) && u !in IssuedSet(s.issued, f)
    case CreateRow =>
      InTime(s, f, now) && u !in IssuedSet(s.issued, f) && |IssuedSet(s.issued, f)| < CouponStock(s, f)
    case _ => false
  }

  function Left(stage: Stage): nat {
    match stage
    case FindRow => 4
    case CheckIssued => 3
    case CheckCount => 2
    case _ => 1
  }

  /** One check, passed or not. */
  lemma OneCheck(before: State, r: int, u: int, f: int, now: int, stage: Stage) returns (next: Stage)
    requires Reached(before, u, f, now, stage) && !Goes(before, u, f, now)
    ensures Do(InStage(before, r, u, f, stage), Proceed(r, now)) == InStage(before, r, u, f, next)
    ensures next == ReleaseLock(false) || (Reached(before, u, f, now, next) && Left(next) < Left(stage))
  {
    next := Verdict(before, Request(u, f, stage), now);
    var q := Request(u, f, stage);
    assert before.requests[r := q][r := q.(stage := next)] == before.requests[r := q.(stage := next)];
  }

  lemma {:induction false} Rejected(s: State, steps: seq<Step>, before: State, r: int, u: int, f: int, now: int,
                                    stage: Stage)
    returns (more: seq<Step>)
    requires Reached(before, u, f, now, stage) && !Goes(before, u, f, now) && f !in before.locks
    requires RunSteps(s, steps) == InStage(before, r, u, f, stage)
    ensures RunSteps(s, more) == before.(requests := before.requests[r := Request(u, f, Done(false))])
    decreases Left(stage)
  {
    var next := OneCheck(before, r, u, f, now, stage);
    RunOneMore(s, steps, Proceed(r, now));
    more := steps + [Proceed(r, now)];
    if next != ReleaseLock(false) {
      more := Rejected(s, more, before, r, u, f, now, next);
    } else {
      RunOneMore(s, more, LetGo(r));
      more := more + [LetGo(r)];
      GivesUp(before, r, u, f);
    }
  }

  lemma GivesUp(before: State, r: int, u: int, f: int)
    requires f !in before.locks
    ensures Do(InStage(before, r, u, f, ReleaseLock(false)), LetGo(r))
            == before.(requests := before.requests[r := Request(u, f, Done(false))])
  {
    var q := Request(u, f, ReleaseLock(false));
    assert before.requests[r := q][r := q.(stage := Done(false))] == before.requests[r := q.(stage := Done(false))];
    assert before.locks[f := r] - {f} == before.locks;
  }

  lemma Enters(s: State, steps: seq<Step>, r: int, u: int, f: int) returns (more: seq<Step>)
    requires r !in RunSteps(s, steps).requests && f !in RunSteps(s, steps).locks
    ensures RunSteps(s, more) == InStage(RunSteps(s, steps), r, u, f, FindRow)
  {
    var before := RunSteps(s, steps);
    RunOneMore(s, steps, Arrive(r, u, f));
    more := steps + [Arrive(r, u, f)];
    RunOneMore(s, more, Step.TakeLock(r));
    more := more + [Step.TakeLock(r)];
    assert before.requests[r := Request(u, f, WaitLock)][r := Request(u, f, FindRow)]
           == before.requests[r := Request(u, f, FindRow)];
  }

  /** Call by call, a request nobody interferes with does what the service does in one go. */
  lemma RequestAlone(s: State, steps: seq<Step>, r: int, u: int, f: int, now: int) returns (more: seq<Step>)
    requires r !in RunSteps(s, steps).requests && f !in RunSteps(s, steps).locks
    ensures var before, end := RunSteps(s, steps), RunSteps(s, more);
            var admitted, goes := Admission(before.tables, before.issued, u, f, now), Goes(before, u, f, now);
            && r in end.requests && end.requests[r].stage == Done(goes) && end.locks == before.locks
            && (goes ==> Success(end.tables) == Create(before.tables, u, admitted.value)
                         && end.issued == before.issued[f := IssuedSet(before.issued, f) + {u}])
            && (!goes ==> end.tables == before.tables && end.issued == before.issued)
  {
    var before := RunSteps(s, steps);
    if Goes(before, u, f, now) {
      more := IssuesUnhindered(s, steps, r, u, f, now, true);
    } else {
      more := Enters(s, steps, r, u, f);
      more := Rejected(s, more, before, r, u, f, now, FindRow);
    }
  }

  // ---- The bound on issuing is exact --------------------------------------------------------------------

  ghost predicate AllDifferent(users: seq<int>) {
    forall i, j | 0 <= i < j < |users| :: users[i] != users[j]
  }

  /** Users who may ask for coupon `f` at time `now` and have none. */
  ghost predicate Eligible(s: State, users: seq<int>, f: int, now: int) {
    && f in s.tables.fcfs && s.tables.fcfs[f].startDate <= now <= s.tables.fcfs[f].endDate
    && AllDifferent(users)
    && (forall i | 0 <= i < |users| :: (users[i], s.tables.fcfs[f].couponId) !in s.tables.owned)
  }

  /** The users from the `j`th on have no coupon and are in no book. */
  ghost predicate Waiting(s: State, end: State, users: seq<int>, f: int, j: nat)
    requires f in s.tables.fcfs
  {
    forall i | j <= i < |users| ::
      && users[i] !in IssuedSet(end.issued, f) && users[i] !in IssuedSet(end.unmarked, f)
      && (users[i], s.tables.fcfs[f].couponId) !in end.tables.owned
  }

  /** The first `j` users have been served, the marks of the first `k` having failed. */
  ghost predicate Served(s: State, end: State, f: int, k: nat, j: nat) {
    && end.tables.fcfs == s.tables.fcfs && f !in end.locks
    && (forall r | r in end.requests :: r < j)
    && Created(end.created, f) == j
    && |IssuedSet(end.unmarked, f)| == (if j < k then j else k)
    && |IssuedSet(end.issued, f)| == (if j < k then 0 else j - k)
  }

  lemma ServedNext(s: State, end: State, u: int, f: int, k: nat, j: nat)
    requires Served(s, end, f, k, j) && f in s.tables.fcfs
    requires u !in IssuedSet(end.issued, f) && u !in IssuedSet(end.unmarked, f)
    ensures Served(s, Issued(end, j, u, f, j >= k), f, k, j + 1)
  {
    CreatedAppend(end.created, Issue(f, u), f);
    var marked, unmarked := IssuedSet(end.issued, f), IssuedSet(end.unmarked, f);
    assert |marked + {u}| == |marked| + 1 && |unmarked + {u}| == |unmarked| + 1;
  }

  lemma WaitingNext(s: State, end: State, users: seq<int>, f: int, r: int, j: nat, marks: bool)
    requires f in s.tables.fcfs && end.tables.fcfs == s.tables.fcfs
    requires AllDifferent(users) && j < |users| && Waiting(s, end, users, f, j)
    ensures Waiting(s, Issued(end, r, users[j], f, marks), users, f, j + 1)
  {
  }

  lemma {:induction false} ServeThem(s: State, users: seq<int>, f: int, k: nat, j: nat, now: int)
    returns (steps: seq<Step>)
    requires Init(s) && Eligible(s, users, f, now)
    requires j <= |users| && j <= CouponStock(s, f) + k && CouponStock(s, f) >= 1
    ensures Served(s, RunSteps(s, steps), f, k, j) && Waiting(s, RunSteps(s, steps), users, f, j)
  {
    if j == 0 {
      steps := [];
    } else {
      steps := ServeThem(s, users, f, k, j - 1, now);
      var end := RunSteps(s, steps);
      ServedNext(s, end, users[j - 1], f, k, j - 1);
      WaitingNext(s, end, users, f, j - 1, j - 1, j - 1 >= k);
      steps := IssuesUnhindered(s, steps, j - 1, users[j - 1], f, now, j - 1 >= k);
    }
  }

  /**
   * The bound cannot be improved: whatever the stock of a coupon, if it has any, and however many marks fail, with
   * that many users more than there is stock for some run gives every one of them a coupon.
   */
  lemma FailedMarksOverIssue(s: State, f: int, users: seq<int>, k: nat, now: int) returns (steps: seq<Step>)
    requires Init(s) && Eligible(s, users, f, now)
    requires CouponStock(s, f) >= 1 && |users| == CouponStock(s, f) + k
    ensures Created(RunSteps(s, steps).created, f) == CouponStock(s, f) + k
    ensures |IssuedSet(RunSteps(s, steps).unmarked, f)| == k
  {
    steps := ServeThem(s, users, f, k, |users|, now);
  }
}
