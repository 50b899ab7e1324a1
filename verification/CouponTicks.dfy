/** What one tick of the scheduler does to every coupon it finds (coupon-issue.scheduler.ts). */
module CouponTicks {
  import opened CouponIssue
  import opened RequestQueue
  import opened CouponScheduler

  // ---- The queues ---------------------------------------------------------------------------------------------

  /** How many users a tick pops for a coupon: no more than wait, than one hundred, or than there is stock. */
  function Popped(s: Sched, f: int): nat
    requires f in s.ledger.tables.fcfs
  {
    var waiting := if f in s.queues then |s.queues[f]| else 0;
    var stock := s.ledger.tables.fcfs[f].stockQuantity;
    var most := if stock < 0 then 0 else if stock < 100 then stock else 100;
    if waiting < most then waiting else most
  }

  /** The transaction of this coupon is tried and does not commit, which ends the tick. */
  predicate Fails(s: Sched, f: int, commits: int -> bool) {
    f in s.ledger.tables.fcfs && Popped(s, f) > 0 && !commits(f)
  }

  ghost predicate DistinctRows(rows: seq<(int, int)>) {
    forall i, j | 0 <= i < j < |rows| :: rows[i].0 != rows[j].0
  }

  ghost predicate SameLine(s: Sched, after: Sched, f: int) {
    QueueOf(after.queues, f) == QueueOf(s.queues, f) && QueueOf(after.taken, f) == QueueOf(s.taken, f)
  }

  /** The first `n` have moved from the queue to those taken. */
  ghost predicate Advanced(s: Sched, after: Sched, f: int, n: nat) {
    var queue := QueueOf(s.queues, f);
    && n <= |queue| && QueueOf(after.queues, f) == queue[n..]
    && QueueOf(after.taken, f) == QueueOf(s.taken, f) + queue[..n]
  }

  lemma OneCoupon(s: Sched, row: (int, int), fault: (int, int) -> UserFault, commits: int -> bool, g: int)
    ensures var after := HandleCoupon(s, row, fault, commits);
            if g == row.0 then Advanced(s, after, g, Taken(QueueOf(s.queues, g), BatchSize(row.1)))
            else SameLine(s, after, g)
  {
  }

  /** A coupon that is not among the rows keeps its queue. */
  lemma {:induction false} OthersKeepLine(s: Sched, rows: seq<(int, int)>, fault: (int, int) -> UserFault,
                                          commits: int -> bool, g: int)
    requires forall i | 0 <= i < |rows| :: rows[i].0 != g
    ensures SameLine(s, HandleAll(s, rows, fault, commits), g)
    decreases |rows|
  {
    if rows != [] {
      OneCoupon(s, rows[0], fault, commits, g);
      if GoesOn(s, rows[0], commits) {
        OthersKeepLine(HandleCoupon(s, rows[0], fault, commits), rows[1..], fault, commits, g);
      }
    }
  }

  /** A batch that is tried and does not commit. */
  predicate Stops(s: Sched, row: (int, int), commits: int -> bool) {
    Taken(QueueOf(s.queues, row.0), BatchSize(row.1)) > 0 && !commits(row.0)
  }

  /** What stops a tick before its `i`th row does so whether or not the first row has been handled. */
  lemma LaterStops(s: Sched, rows: seq<(int, int)>, fault: (int, int) -> UserFault, commits: int -> bool)
    requires rows != [] && DistinctRows(rows)
    ensures var after := HandleCoupon(s, rows[0], fault, commits);
            forall j | 0 < j < |rows| ::
              && SameLine(s, after, rows[j].0)
              && (Stops(after, rows[j], commits) <==> Stops(s, rows[j], commits))
  {
    forall j | 0 < j < |rows| ensures SameLine(s, HandleCoupon(s, rows[0], fault, commits), rows[j].0) {
      OneCoupon(s, rows[0], fault, commits, rows[j].0);
    }
  }

  /** Row `i` is handled just when no row before it stops the tick. */
  lemma {:induction false} RowHandled(s: Sched, rows: seq<(int, int)>, fault: (int, int) -> UserFault,
                                      commits: int -> bool, i: nat)
    requires i < |rows| && DistinctRows(rows)
    ensures var after, f := HandleAll(s, rows, fault, commits), rows[i].0;
            if forall j | 0 <= j < i :: !Stops(s, rows[j], commits)
            then Advanced(s, after, f, Taken(QueueOf(s.queues, f), BatchSize(rows[i].1)))
            else SameLine(s, after, f)
    decreases |rows|
  {
    var next, rest := HandleCoupon(s, rows[0], fault, commits), rows[1..];
    OneCoupon(s, rows[0], fault, commits, rows[i].0);
    if i == 0 {
      if GoesOn(s, rows[0], commits) { OthersKeepLine(next, rest, fault, commits, rows[0].0); }
    } else if GoesOn(s, rows[0], commits) {
      StopsLater(s, rows, fault, commits, i);
      RowHandled(next, rest, fault, commits, i - 1);
    } else {
      assert Stops(s, rows[0], commits);
    }
  }

  lemma StopsLater(s: Sched, rows: seq<(int, int)>, fault: (int, int) -> UserFault, commits: int -> bool, i: nat)
    requires 0 < i < |rows| && DistinctRows(rows) && GoesOn(s, rows[0], commits)
    ensures var next := HandleCoupon(s, rows[0], fault, commits);
            && SameLine(s, next, rows[i].0)
            && ((forall j | 0 <= j < i :: !Stops(s, rows[j], commits))
                <==> forall j | 0 <= j < i - 1 :: !Stops(next, rows[1..][j], commits))
  {
    var next := HandleCoupon(s, rows[0], fault, commits);
    LaterStops(s, rows, fault, commits);
    forall j | 0 < j < i ensures Stops(s, rows[j], commits) <==> Stops(next, rows[1..][j - 1], commits) {}
    StopsShift(s, next, rows, commits, i);
  }

  lemma StopsShift(s: Sched, next: Sched, rows: seq<(int, int)>, commits: int -> bool, i: nat)
    requires 0 < i < |rows| && !Stops(s, rows[0], commits)
    requires forall j | 0 < j < i :: Stops(s, rows[j], commits) <==> Stops(next, rows[1..][j - 1], commits)
    ensures (forall j | 0 <= j < i :: !Stops(s, rows[j], commits))
            <==> forall j | 0 <= j < i - 1 :: !Stops(next, rows[1..][j], commits)
  {
    if forall j | 0 <= j < i - 1 :: !Stops(next, rows[1..][j], commits) {
      forall j | 0 <= j < i ensures !Stops(s, rows[j], commits) {
        if j > 0 { assert !Stops(next, rows[1..][j - 1], commits); }
      }
    } else {
      var j :| 0 <= j < i - 1 && Stops(next, rows[1..][j], commits);
      assert Stops(s, rows[j + 1], commits);
    }
  }

  /**
   * A tick pops, for every coupon found up to and including the first whose transaction is tried and fails, just the
   * first users it may, and leaves the queues of all other coupons alone.
   */
  lemma {:induction false} TickPops(s: Sched, found: seq<int>, fault: (int, int) -> UserFault, commits: int -> bool,
                                    i: nat)
    requires MayBeFound(s, found) && i < |found|
    ensures found[i] in s.ledger.tables.fcfs
    ensures var after, f := Next(s, Cron(found, fault, commits)), found[i];
            if forall j | 0 <= j < i :: !Fails(s, found[j], commits) then Advanced(s, after, f, Popped(s, f))
            else SameLine(s, after, f)
  {
    var rows := Rows(s, found);
    SameStops(s, found, commits, i);
    RowHandled(s, rows, fault, commits, i);
  }

  /** What stops a tick, told of the rows found. */
  lemma SameStops(s: Sched, found: seq<int>, commits: int -> bool, i: nat)
    requires MayBeFound(s, found) && i < |found|
    ensures (forall j | 0 <= j < i :: !Stops(s, Rows(s, found)[j], commits))
            <==> forall j | 0 <= j < i :: !Fails(s, found[j], commits)
    ensures Taken(QueueOf(s.queues, found[i]), BatchSize(Rows(s, found)[i].1)) == Popped(s, found[i])
  {
    forall j | 0 <= j < |found| ensures Stops(s, Rows(s, found)[j], commits) <==> Fails(s, found[j], commits) {}
  }

  lemma {:induction false} TickLeavesOthers(s: Sched, found: seq<int>, fault: (int, int) -> UserFault,
                                            commits: int -> bool, g: int)
    requires g !in found
    ensures SameLine(s, Next(s, Cron(found, fault, commits)), g)
  {
    if MayBeFound(s, found) { OthersKeepLine(s, Rows(s, found), fault, commits, g); }
  }

  // ---- The coupons ------------------------------------------------------------------------------------------

  /** Coupons owned stay owned, and rows keep the coupon they hand out. */
  ghost predicate OwnedGrows(w: Ledger, after: Ledger) {
    && w.tables.owned.Keys <= after.tables.owned.Keys
    && after.tables.fcfs.Keys == w.tables.fcfs.Keys
    && (forall f | f in w.tables.fcfs :: after.tables.fcfs[f].couponId == w.tables.fcfs[f].couponId)
  }

  lemma {:induction false} OneServed(w: Ledger, f: int, user: int, fault: UserFault)
    ensures OwnedGrows(w, IssueOne(w, f, user, fault))
    ensures f in w.tables.fcfs && fault != BeforeCreate ==>
              (user, w.tables.fcfs[f].couponId) in IssueOne(w, f, user, fault).tables.owned
  {
  }

  lemma {:induction false} BatchServes(w: Ledger, f: int, users: seq<int>, fault: (int, int) -> UserFault)
    ensures OwnedGrows(w, IssueAll(w, f, users, fault))
    ensures f in w.tables.fcfs ==>
              forall k | 0 <= k < |users| && fault(f, users[k]) != BeforeCreate ::
                (users[k], w.tables.fcfs[f].couponId) in IssueAll(w, f, users, fault).tables.owned
  {
    if users != [] {
      var n := |users| - 1;
      BatchServes(w, f, users[..n], fault);
      OneServed(IssueAll(w, f, users[..n], fault), f, users[n], fault(f, users[n]));
      forall k | 0 <= k < |users| && fault(f, users[k]) != BeforeCreate && f in w.tables.fcfs
        ensures (users[k], w.tables.fcfs[f].couponId) in IssueAll(w, f, users, fault).tables.owned
      {
        if k < n { assert users[..n][k] == users[k]; }
      }
    }
  }

  lemma {:induction false} TickOwnedGrows(s: Sched, rows: seq<(int, int)>, fault: (int, int) -> UserFault,
                                          commits: int -> bool)
    ensures OwnedGrows(s.ledger, HandleAll(s, rows, fault, commits).ledger)
    decreases |rows|
  {
    if rows != [] {
      var queue := QueueOf(s.queues, rows[0].0);
      BatchServes(s.ledger, rows[0].0, Members(queue[..Taken(queue, BatchSize(rows[0].1))]), fault);
      if GoesOn(s, rows[0], commits) {
        TickOwnedGrows(HandleCoupon(s, rows[0], fault, commits), rows[1..], fault, commits);
      }
    }
  }

  /** Every user popped for a row that is handled and commits owns its coupon, unless a call before the insert threw. */
  ghost predicate AllServed(s: Sched, after: Ledger, f: int, n: nat, fault: (int, int) -> UserFault) {
    forall k | 0 <= k < n && k < |QueueOf(s.queues, f)| && fault(f, QueueOf(s.queues, f)[k].userId) != BeforeCreate ::
      f in s.ledger.tables.fcfs
      && (QueueOf(s.queues, f)[k].userId, s.ledger.tables.fcfs[f].couponId) in after.tables.owned
  }

  lemma CouponServes(s: Sched, row: (int, int), fault: (int, int) -> UserFault, commits: int -> bool)
    requires row.0 in s.ledger.tables.fcfs && commits(row.0)
    ensures AllServed(s, HandleCoupon(s, row, fault, commits).ledger, row.0,
                      Taken(QueueOf(s.queues, row.0), BatchSize(row.1)), fault)
    ensures OwnedGrows(s.ledger, HandleCoupon(s, row, fault, commits).ledger)
  {
    var queue := QueueOf(s.queues, row.0);
    var users := Members(queue[..Taken(queue, BatchSize(row.1))]);
    BatchServes(s.ledger, row.0, users, fault);
    forall k | 0 <= k < |users| ensures users[k] == queue[k].userId {}
  }

  lemma {:induction false} RowServed(s: Sched, rows: seq<(int, int)>, fault: (int, int) -> UserFault,
                                     commits: int -> bool, i: nat)
    requires i < |rows| && DistinctRows(rows) && rows[i].0 in s.ledger.tables.fcfs && commits(rows[i].0)
    requires forall j | 0 <= j < i :: !Stops(s, rows[j], commits)
    ensures var f := rows[i].0;
            AllServed(s, HandleAll(s, rows, fault, commits).ledger, f,
                      Taken(QueueOf(s.queues, f), BatchSize(rows[i].1)), fault)
    decreases |rows|
  {
    var next, rest := HandleCoupon(s, rows[0], fault, commits), rows[1..];
    assert i > 0 ==> !Stops(s, rows[0], commits);
    assert GoesOn(s, rows[0], commits);
    TickOwnedGrows(next, rest, fault, commits);
    if i == 0 {
      CouponServes(s, rows[0], fault, commits);
    } else {
      LaterStops(s, rows, fault, commits);
      FirstRowGrows(s, rows[0], fault, commits);
      forall j | 0 <= j < i - 1 ensures !Stops(next, rest[j], commits) { assert !Stops(s, rows[j + 1], commits); }
      RowServed(next, rest, fault, commits, i - 1);
    }
  }

  lemma FirstRowGrows(s: Sched, row: (int, int), fault: (int, int) -> UserFault, commits: int -> bool)
    ensures OwnedGrows(s.ledger, HandleCoupon(s, row, fault, commits).ledger)
  {
    var queue := QueueOf(s.queues, row.0);
    BatchServes(s.ledger, row.0, Members(queue[..Taken(queue, BatchSize(row.1))]), fault);
  }

  /**
   * After a tick every user it popped for a coupon whose transaction committed owns that coupon, unless a call before
   * the insert threw for the user. In particular, when every transaction commits this is so for every coupon found.
   */
  lemma {:induction false} TickServes(s: Sched, found: seq<int>, fault: (int, int) -> UserFault, commits: int -> bool,
                                      i: nat)
    requires MayBeFound(s, found) && i < |found| && commits(found[i])
    requires forall j | 0 <= j < i :: !Fails(s, found[j], commits)
    ensures found[i] in s.ledger.tables.fcfs
    ensures AllServed(s, Next(s, Cron(found, fault, commits)).ledger, found[i], Popped(s, found[i]), fault)
  {
    var rows := Rows(s, found);
    forall j | 0 <= j < i ensures !Stops(s, rows[j], commits) { assert !Fails(s, found[j], commits); }
    RowServed(s, rows, fault, commits, i);
  }
}
