/**
 * The batch scheduler: every tick pops queued users per coupon and issues in one transaction, skipping users
 * who have the coupon and swallowing what a single user's calls throw (coupon-issue.scheduler.ts).
 */
module CouponScheduler {
  import opened CouponIssue
  import opened RequestQueue

  const BATCH_SIZE: nat := 100

  /** Which of the calls made for one user throws, if any. */
  datatype UserFault = NoFault | BeforeCreate | AtMark(landed: bool) | AtDecrement

  /** What a batch works on: the tables, the Redis issued-sets, and the log of coupons created. */
  datatype Ledger = Ledger(
    tables: CouponTables,
    marked: map<int, set<int>>,
    issues: seq<Issue>,
    unmarked: seq<Issue>,    // those whose mark threw without effect
    unspent: seq<Issue>)     // those whose mark or decrement threw, so that the stock was not decreased

  /** `taken`: who has been popped, per coupon and in the order of popping, whatever became of the transaction. */
  datatype Sched = Sched(now: int, ledger: Ledger, queues: map<int, seq<Queued>>, taken: map<int, seq<Queued>>)

  /** The body of the inner loop for one user. */
  function IssueOne(w: Ledger, f: int, user: int, fault: UserFault): Ledger {
    if fault == BeforeCreate || f !in w.tables.fcfs then w
    else
      var key := (user, w.tables.fcfs[f].couponId);
      if key in w.tables.owned then w
      else
        var created := w.(tables := w.tables.(owned := w.tables.owned[key := Available]),
                          issues := w.issues + [Issue(f, user)]);
        var marked := created.(marked := created.marked[f := IssuedSet(created.marked, f) + {user}]);
        if fault == AtMark(false) then
          created.(unmarked := w.unmarked + [Issue(f, user)], unspent := w.unspent + [Issue(f, user)])
        else if fault != NoFault then marked.(unspent := w.unspent + [Issue(f, user)])
        else marked.(tables := Decrease(marked.tables, f))
  }

  function Decrease(tables: CouponTables, f: int): CouponTables
    requires f in tables.fcfs
  {
    tables.(fcfs := tables.fcfs[f := tables.fcfs[f].(stockQuantity := tables.fcfs[f].stockQuantity - 1)])
  }

  function IssueAll(w: Ledger, f: int, users: seq<int>, fault: (int, int) -> UserFault): Ledger {
    if users == [] then w
    else
      var n := |users| - 1;
      IssueOne(IssueAll(w, f, users[..n], fault), f, users[n], fault(f, users[n]))
  }

  function BatchSize(stock: int): nat {
    if stock < 0 then 0 else if stock < BATCH_SIZE then stock else BATCH_SIZE
  }

  /** One coupon of a tick. When the transaction does not commit, the pops and the marks in Redis stay. */
  function HandleCoupon(s: Sched, row: (int, int), fault: (int, int) -> UserFault, commits: int -> bool): Sched {
    var f := row.0;
    var queue := QueueOf(s.queues, f);
    var n := Taken(queue, BatchSize(row.1));
    var after := s.(queues := s.queues[f := queue[n..]],
                    taken := s.taken[f := QueueOf(s.taken, f) + queue[..n]]);
    if n == 0 then after
    else
      var worked := IssueAll(s.ledger, f, Members(queue[..n]), fault);
      after.(ledger := if commits(f) then worked else s.ledger.(marked := worked.marked))
  }

  /** The tick gives up at the first coupon whose transaction does not commit. */
  predicate GoesOn(s: Sched, row: (int, int), commits: int -> bool) {
    Taken(QueueOf(s.queues, row.0), BatchSize(row.1)) == 0 || commits(row.0)
  }

  function HandleAll(s: Sched, rows: seq<(int, int)>, fault: (int, int) -> UserFault, commits: int -> bool): Sched
    decreases |rows|
  {
    if rows == [] then s
    else
      var after := HandleCoupon(s, rows[0], fault, commits);
      if GoesOn(s, rows[0], commits) then HandleAll(after, rows[1..], fault, commits) else after
  }

  // ---- The scheduler ---------------------------------------------------------------------------------

  class CouponIssueScheduler {
    var prisma: CouponTables
    var issued: map<int, set<int>>
    /** The books of what has been committed; the tables and sets in it are those above. */
    ghost var books: Ledger
    ghost var taken: map<int, seq<Queued>>
    const couponRedisRepository: CouponRedisRepository

    constructor (tables: CouponTables, queues: CouponRedisRepository)
      ensures prisma == tables && issued == map[] && taken == map[] && couponRedisRepository == queues
      ensures books == Ledger(tables, map[], [], [], [])
    {
      prisma, issued, taken, couponRedisRepository := tables, map[], map[], queues;
      books := Ledger(tables, map[], [], [], []);
    }

    ghost function Snapshot(now: int): Sched
      reads this, couponRedisRepository.redisService
    {
      Sched(now, books.(tables := prisma, marked := issued), couponRedisRepository.redisService.zsets, taken)
    }

    /** The transaction of one coupon; `tx` is what the tables hold inside it, `worked` the books if it commits. */
    method IssueBatch(f: int, users: seq<int>, fault: (int, int) -> UserFault)
      returns (tx: CouponTables, ghost worked: Ledger)
      modifies this`issued
      ensures worked == IssueAll(books.(tables := prisma, marked := old(issued)), f, users, fault)
      ensures tx == worked.tables && issued == worked.marked
    {
      tx := prisma;
      ghost var start := books.(tables := prisma, marked := issued);
      worked := start;
      var k := 0;
      while k < |users|
        invariant 0 <= k <= |users|
        invariant worked == IssueAll(start, f, users[..k], fault)
        invariant tx == worked.tables && issued == worked.marked
      {
        assert users[..k + 1][..k] == users[..k];
        var userId, thrown := users[k], fault(f, users[k]);
        worked := IssueOne(worked, f, userId, thrown);
        k := k + 1;
        if thrown == BeforeCreate { continue; }
        if f !in tx.fcfs { continue; }
        var couponDetail := tx.fcfs[f];
        // An available coupon is skipped; any other one makes the insert throw, and that is swallowed.
        if (userId, couponDetail.couponId) in tx.owned { continue; }
        tx := tx.(owned := tx.owned[(userId, couponDetail.couponId) := Available]);
        if thrown == AtMark(false) { continue; }
        issued := issued[f := IssuedSet(issued, f) + {userId}];
        if thrown.AtMark? || thrown == AtDecrement { continue; }
        tx := Decrease(tx, f);
      }
      assert users[..k] == users;
    }

    /** `activeCoupons` is what the query found: ids with the stock they had then. */
    method ProcessCouponRequests(activeCoupons: seq<(int, int)>, fault: (int, int) -> UserFault,
                                 commits: int -> bool, ghost now: int)
      modifies this, couponRedisRepository.redisService
      ensures Snapshot(now) == HandleAll(old(Snapshot(now)), activeCoupons, fault, commits)
    {
      var i := 0;
      while i < |activeCoupons|
        invariant 0 <= i <= |activeCoupons|
        invariant HandleAll(old(Snapshot(now)), activeCoupons, fault, commits)
                  == HandleAll(Snapshot(now), activeCoupons[i..], fault, commits)
      {
        var f := activeCoupons[i].0;
        ghost var before := Snapshot(now);
        assert activeCoupons[i..][0] == activeCoupons[i] && activeCoupons[i..][1..] == activeCoupons[i + 1..];
        var requestUsers := couponRedisRepository.GetRequestUsers(f, BatchSize(activeCoupons[i].1));
        ghost var queue := QueueOf(before.queues, f);
        taken := taken[f := QueueOf(taken, f) + queue[..Taken(queue, BatchSize(activeCoupons[i].1))]];
        if |requestUsers| == 0 {
          assert Snapshot(now) == HandleCoupon(before, activeCoupons[i], fault, commits);
          i := i + 1;
          continue;
        }
        var tx, worked := IssueBatch(f, requestUsers, fault);
        if !commits(f) {
          assert Snapshot(now) == HandleCoupon(before, activeCoupons[i], fault, commits);
          return;
        }
        prisma, books := tx, worked;
        assert Snapshot(now) == HandleCoupon(before, activeCoupons[i], fault, commits);
        i := i + 1;
      }
    }
  }

  // ---- What one batch keeps ---------------------------------------------------------------------------

  function StockLeft(w: Ledger, f: int): int {
    if f in w.tables.fcfs then w.tables.fcfs[f].stockQuantity else 0
  }

  /**
   * From `w` to `after`: stock plus coupons issued is the same for every row, up to unspent ones, and every coupon
   * issued is a new row of the table.
   */
  ghost predicate Balanced(w: Ledger, after: Ledger) {
    && after.tables.fcfs.Keys == w.tables.fcfs.Keys
    && (forall g :: StockLeft(after, g) + Created(after.issues, g) - Created(after.unspent, g)
                    == StockLeft(w, g) + Created(w.issues, g) - Created(w.unspent, g))
    && |after.tables.owned| - |after.issues| == |w.tables.owned| - |w.issues|
  }

  /** One user, seen from one coupon. */
  lemma {:induction false} IssueOneTrades(w: Ledger, f: int, user: int, fault: UserFault, g: int)
    ensures var after := IssueOne(w, f, user, fault);
            && StockLeft(after, g) + Created(after.issues, g) - Created(after.unspent, g)
               == StockLeft(w, g) + Created(w.issues, g) - Created(w.unspent, g)
            && (g != f ==> StockLeft(after, g) == StockLeft(w, g))
            && StockLeft(after, g) >= StockLeft(w, g) - 1
  {
    var after, issue := IssueOne(w, f, user, fault), Issue(f, user);
    if after.issues != w.issues {
      assert after.issues == w.issues + [issue];
      CreatedAppend(w.issues, issue, g);
      if fault != NoFault {
        assert after.unspent == w.unspent + [issue];
        CreatedAppend(w.unspent, issue, g);
      }
    }
  }

  lemma {:induction false} IssueOneAddsRow(w: Ledger, f: int, user: int, fault: UserFault)
    ensures var after := IssueOne(w, f, user, fault);
            && after.tables.fcfs.Keys == w.tables.fcfs.Keys
            && |after.tables.owned| - |after.issues| == |w.tables.owned| - |w.issues|
  {
  }

  lemma {:induction false} IssueOneBalanced(w: Ledger, f: int, user: int, fault: UserFault)
    ensures Balanced(w, IssueOne(w, f, user, fault))
    ensures forall g | g != f :: StockLeft(IssueOne(w, f, user, fault), g) == StockLeft(w, g)
    ensures StockLeft(IssueOne(w, f, user, fault), f) >= StockLeft(w, f) - 1
  {
    IssueOneAddsRow(w, f, user, fault);
    IssueOneTrades(w, f, user, fault, f);
    forall g { IssueOneTrades(w, f, user, fault, g); }
  }

  lemma {:induction false} IssueAllBalanced(w: Ledger, f: int, users: seq<int>, fault: (int, int) -> UserFault)
    ensures Balanced(w, IssueAll(w, f, users, fault))
    ensures forall g | g != f :: StockLeft(IssueAll(w, f, users, fault), g) == StockLeft(w, g)
    ensures StockLeft(IssueAll(w, f, users, fault), f) >= StockLeft(w, f) - |users|
  {
    if users != [] {
      var n := |users| - 1;
      IssueAllBalanced(w, f, users[..n], fault);
      IssueOneBalanced(IssueAll(w, f, users[..n], fault), f, users[n], fault(f, users[n]));
    }
  }

  // ---- Runs of one scheduler -----------------------------------------------------------------------------

  datatype Happening =
    | Tick(elapsed: nat)
    | Request(fcfsId: int, userId: int)
    | Status(userId: int, couponId: int, status: CouponStatus)
    | Cron(found: seq<int>, fault: (int, int) -> UserFault, commits: int -> bool)

  /** What `findAvailableFcfsCoupons` may return: rows with stock left, each once. */
  ghost predicate MayBeFound(s: Sched, found: seq<int>) {
    && (forall i | 0 <= i < |found| :: StockLeft(s.ledger, found[i]) > 0)
    && (forall i, j | 0 <= i < j < |found| :: found[i] != found[j])
  }

  ghost function Rows(s: Sched, found: seq<int>): (rows: seq<(int, int)>)
    ensures |rows| == |found|
    ensures forall i | 0 <= i < |found| :: rows[i] == (found[i], StockLeft(s.ledger, found[i]))
  {
    seq(|found|, i requires 0 <= i < |found| => (found[i], StockLeft(s.ledger, found[i])))
  }

  ghost function Next(s: Sched, h: Happening): Sched {
    match h
    case Tick(elapsed) => s.(now := s.now + elapsed)
    case Request(f, u) => s.(queues := s.queues[f := Add(QueueOf(s.queues, f), Queued(u, s.now))])
    case Status(u, c, status) =>
      if (u, c) !in s.ledger.tables.owned then s
      else
        var tables := s.ledger.tables;
        s.(ledger := s.ledger.(tables := tables.(owned := tables.owned[(u, c) := status])))
    case Cron(found, fault, commits) =>
      if MayBeFound(s, found) then HandleAll(s, Rows(s, found), fault, commits) else s
  }

  ghost function Run(s: Sched, hs: seq<Happening>): Sched {
    if hs == [] then s else Next(Run(s, hs[..|hs| - 1]), hs[|hs| - 1])
  }

  ghost predicate NoNegativeStock(w: Ledger) {
    forall g :: StockLeft(w, g) >= 0
  }

  lemma HandleCouponKeeps(s: Sched, row: (int, int), fault: (int, int) -> UserFault, commits: int -> bool)
    requires NoNegativeStock(s.ledger) && row.1 <= StockLeft(s.ledger, row.0)
    ensures var after := HandleCoupon(s, row, fault, commits).ledger;
            && Balanced(s.ledger, after) && NoNegativeStock(after)
            && (forall g | g != row.0 :: StockLeft(after, g) == StockLeft(s.ledger, g))
  {
    var queue := QueueOf(s.queues, row.0);
    var users := Members(queue[..Taken(queue, BatchSize(row.1))]);
    IssueAllBalanced(s.ledger, row.0, users, fault);
  }

  lemma {:induction false} HandleAllKeeps(s: Sched, rows: seq<(int, int)>, fault: (int, int) -> UserFault,
                                          commits: int -> bool)
    requires NoNegativeStock(s.ledger)
    requires forall i | 0 <= i < |rows| :: rows[i].1 <= StockLeft(s.ledger, rows[i].0)
    requires forall i, j | 0 <= i < j < |rows| :: rows[i].0 != rows[j].0
    ensures Balanced(s.ledger, HandleAll(s, rows, fault, commits).ledger)
    ensures NoNegativeStock(HandleAll(s, rows, fault, commits).ledger)
    decreases |rows|
  {
    if rows != [] {
      HandleCouponKeeps(s, rows[0], fault, commits);
      var after, rest := HandleCoupon(s, rows[0], fault, commits), rows[1..];
      forall i | 0 <= i < |rest| ensures rest[i].1 <= StockLeft(after.ledger, rest[i].0) {
        assert rest[i] == rows[i + 1];
      }
      if GoesOn(s, rows[0], commits) {
        HandleAllKeeps(after, rest, fault, commits);
      }
    }
  }

  /**
   * With a single scheduler, over every run: no stock goes below zero, every coupon issued is one new row of
   * the table, and stock plus coupons issued stays what it was, but for coupons whose mark or decrement threw
   * after they were created.
   */
  lemma {:induction false} EveryRunBalanced(s: Sched, hs: seq<Happening>)
    requires NoNegativeStock(s.ledger)
    ensures Balanced(s.ledger, Run(s, hs).ledger) && NoNegativeStock(Run(s, hs).ledger)
  {
    if hs != [] {
      EveryRunBalanced(s, hs[..|hs| - 1]);
      NextKeeps(Run(s, hs[..|hs| - 1]), hs[|hs| - 1]);
    }
  }

  lemma NextKeeps(s: Sched, h: Happening)
    requires NoNegativeStock(s.ledger)
    ensures Balanced(s.ledger, Next(s, h).ledger) && NoNegativeStock(Next(s, h).ledger)
  {
    match h
    case Tick(_) =>
    case Request(_, _) =>
    case Status(u, c, status) =>
      if (u, c) in s.ledger.tables.owned {
        assert s.ledger.tables.owned[(u, c) := status].Keys == s.ledger.tables.owned.Keys;
        assert |s.ledger.tables.owned[(u, c) := status].Keys| == |s.ledger.tables.owned.Keys|;
      }
    case Cron(found, fault, commits) =>
      if MayBeFound(s, found) { HandleAllKeeps(s, Rows(s, found), fault, commits); }
  }

  // ---- When stock and coupons trade one for one ------------------------------------------------------------

  /** No call throws once a coupon has been created. */
  ghost predicate Calm(fault: (int, int) -> UserFault) {
    forall f, u :: fault(f, u) == NoFault || fault(f, u) == BeforeCreate
  }

  lemma {:induction false} CalmBatch(w: Ledger, f: int, users: seq<int>, fault: (int, int) -> UserFault)
    requires Calm(fault)
    ensures IssueAll(w, f, users, fault).unspent == w.unspent
  {
    if users != [] {
      CalmBatch(w, f, users[..|users| - 1], fault);
    }
  }

  lemma {:induction false} CalmTick(s: Sched, rows: seq<(int, int)>, fault: (int, int) -> UserFault,
                                    commits: int -> bool)
    requires Calm(fault)
    ensures HandleAll(s, rows, fault, commits).ledger.unspent == s.ledger.unspent
    decreases |rows|
  {
    if rows != [] {
      var queue := QueueOf(s.queues, rows[0].0);
      CalmBatch(s.ledger, rows[0].0, Members(queue[..Taken(queue, BatchSize(rows[0].1))]), fault);
      if GoesOn(s, rows[0], commits) {
        CalmTick(HandleCoupon(s, rows[0], fault, commits), rows[1..], fault, commits);
      }
    }
  }

  lemma {:induction false} CalmRun(s: Sched, hs: seq<Happening>)
    requires forall i | 0 <= i < |hs| && hs[i].Cron? :: Calm(hs[i].fault)
    ensures Run(s, hs).ledger.unspent == s.ledger.unspent
  {
    if hs != [] {
      var before, last := Run(s, hs[..|hs| - 1]), hs[|hs| - 1];
      CalmRun(s, hs[..|hs| - 1]);
      if last.Cron? && MayBeFound(before, last.found) {
        CalmTick(before, Rows(before, last.found), last.fault, last.commits);
      }
    }
  }

  /**
   * Stock left plus coupons issued is the starting stock just when no coupon was issued whose mark or decrement
   * threw, in particular when none of those calls throws at all. Every coupon issued is one row more in the table:
   * users who are skipped because they have the coupon, and users whose insert fails, cost nothing.
   */
  lemma {:induction false} EveryRunTradesStock(s: Sched, hs: seq<Happening>, f: int)
    requires NoNegativeStock(s.ledger) && s.ledger.issues == []
    ensures var end := Run(s, hs).ledger;
            && (StockLeft(end, f) + Created(end.issues, f) == StockLeft(s.ledger, f)
                <==> Created(end.unspent, f) == Created(s.ledger.unspent, f))
            && ((forall i | 0 <= i < |hs| && hs[i].Cron? :: Calm(hs[i].fault)) ==> end.unspent == s.ledger.unspent)
            && StockLeft(end, f) >= 0
            && |end.tables.owned| == |s.ledger.tables.owned| + |end.issues|
  {
    EveryRunBalanced(s, hs);
    if forall i | 0 <= i < |hs| && hs[i].Cron? :: Calm(hs[i].fault) { CalmRun(s, hs); }
  }

  // ---- The order of service ---------------------------------------------------------------------------------

  ghost predicate InOrder(s: Sched) {
    forall f :: InLine(s.now, QueueOf(s.queues, f), QueueOf(s.taken, f))
  }

  lemma OneLineChanged(s: Sched, after: Sched, f: int)
    requires InOrder(s) && after.now == s.now
    requires InLine(s.now, QueueOf(after.queues, f), QueueOf(after.taken, f))
    requires forall g | g != f :: QueueOf(after.queues, g) == QueueOf(s.queues, g)
    requires forall g | g != f :: QueueOf(after.taken, g) == QueueOf(s.taken, g)
    ensures InOrder(after)
  {
    forall g ensures InLine(after.now, QueueOf(after.queues, g), QueueOf(after.taken, g)) {
      if g != f { assert InLine(s.now, QueueOf(s.queues, g), QueueOf(s.taken, g)); }
    }
  }

  /** One coupon of a tick: the batch moves from the queue to those taken, and no other line moves. */
  lemma CouponKeepsOrder(s: Sched, row: (int, int), fault: (int, int) -> UserFault, commits: int -> bool)
    requires InOrder(s)
    ensures InOrder(HandleCoupon(s, row, fault, commits))
  {
    var f := row.0;
    var queue := QueueOf(s.queues, f);
    BatchKeepsLine(s.now, queue, QueueOf(s.taken, f), Taken(queue, BatchSize(row.1)));
    OneLineChanged(s, HandleCoupon(s, row, fault, commits), f);
  }

  lemma {:induction false} TickKeepsOrder(s: Sched, rows: seq<(int, int)>, fault: (int, int) -> UserFault,
                                          commits: int -> bool)
    requires InOrder(s)
    ensures InOrder(HandleAll(s, rows, fault, commits))
    decreases |rows|
  {
    if rows != [] {
      CouponKeepsOrder(s, rows[0], fault, commits);
      if GoesOn(s, rows[0], commits) {
        TickKeepsOrder(HandleCoupon(s, rows[0], fault, commits), rows[1..], fault, commits);
      }
    }
  }

  lemma NextKeepsOrder(s: Sched, h: Happening)
    requires InOrder(s)
    ensures InOrder(Next(s, h))
  {
    match h
    case Tick(_) => TimeKeepsOrder(s, Next(s, h));
    case Request(f, u) =>
      RequestKeepsLine(s.now, QueueOf(s.queues, f), QueueOf(s.taken, f), u);
      OneLineChanged(s, Next(s, h), f);
    case Status(_, _, _) => TimeKeepsOrder(s, Next(s, h));
    case Cron(found, fault, commits) =>
      if MayBeFound(s, found) { TickKeepsOrder(s, Rows(s, found), fault, commits); }
  }

  /**
   * First come, first served: over every run users are taken by request time, and nobody is taken who asked later
   * than somebody still waiting.
   */
  lemma {:induction false} FirstComeFirstServed(s: Sched, hs: seq<Happening>)
    requires InOrder(s)
    ensures InOrder(Run(s, hs))
  {
    if hs != [] {
      FirstComeFirstServed(s, hs[..|hs| - 1]);
      NextKeepsOrder(Run(s, hs[..|hs| - 1]), hs[|hs| - 1]);
    }
  }

  lemma TimeKeepsOrder(s: Sched, after: Sched)
    requires InOrder(s) && after.queues == s.queues && after.taken == s.taken && after.now >= s.now
    ensures InOrder(after)
  {
    forall f ensures InLine(after.now, QueueOf(after.queues, f), QueueOf(after.taken, f)) {
      assert InLine(s.now, QueueOf(s.queues, f), QueueOf(s.taken, f));
    }
  }

  /** In the queue of a coupon, or taken from it. */
  ghost predicate InQueueOrTaken(s: Sched, f: int, e: Queued) {
    e in QueueOf(s.queues, f) || e in QueueOf(s.taken, f)
  }

  lemma CouponLosesNobody(s: Sched, row: (int, int), fault: (int, int) -> UserFault, commits: int -> bool,
                          f: int, e: Queued)
    requires InQueueOrTaken(s, f, e)
    ensures InQueueOrTaken(HandleCoupon(s, row, fault, commits), f, e)
  {
    var queue := QueueOf(s.queues, row.0);
    var n := Taken(queue, BatchSize(row.1));
    assert queue == queue[..n] + queue[n..];
  }

  lemma {:induction false} TickLosesNobody(s: Sched, rows: seq<(int, int)>, fault: (int, int) -> UserFault,
                                           commits: int -> bool, f: int, e: Queued)
    requires InQueueOrTaken(s, f, e)
    ensures InQueueOrTaken(HandleAll(s, rows, fault, commits), f, e)
    decreases |rows|
  {
    if rows != [] {
      CouponLosesNobody(s, rows[0], fault, commits, f, e);
      if GoesOn(s, rows[0], commits) {
        TickLosesNobody(HandleCoupon(s, rows[0], fault, commits), rows[1..], fault, commits, f, e);
      }
    }
  }

  /** Nobody is lost: whoever asked goes on waiting or is taken, with that request time, unless asking again. */
  lemma {:induction false} WaitsOrIsTaken(s: Sched, hs: seq<Happening>, f: int, e: Queued)
    requires InOrder(s) && InQueueOrTaken(s, f, e)
    requires forall i | 0 <= i < |hs| :: hs[i] != Request(f, e.userId)
    ensures InQueueOrTaken(Run(s, hs), f, e)
  {
    if hs != [] {
      var before, last := Run(s, hs[..|hs| - 1]), hs[|hs| - 1];
      WaitsOrIsTaken(s, hs[..|hs| - 1], f, e);
      FirstComeFirstServed(s, hs[..|hs| - 1]);
      assert InLine(before.now, QueueOf(before.queues, f), QueueOf(before.taken, f));
      match last
      case Tick(_) =>
      case Request(g, u) => if g == f { AddKeeps(QueueOf(before.queues, f), Queued(u, before.now)); }
      case Status(_, _, _) =>
      case Cron(found, fault, commits) =>
        if MayBeFound(before, found) { TickLosesNobody(before, Rows(before, found), fault, commits, f, e); }
    }
  }

  /**
   * After any run, the next batch for any coupon serves its users by request time, at most one hundred of them
   * and no more than there is stock for, and leaves nobody behind who asked earlier.
   */
  lemma {:induction false} NextBatchIsFair(s: Sched, hs: seq<Happening>, f: int)
    requires InOrder(s)
    ensures var w := Run(s, hs);
            var queue := QueueOf(w.queues, f);
            var n := Taken(queue, BatchSize(StockLeft(w.ledger, f)));
            && n <= BATCH_SIZE && (n == 0 || n <= StockLeft(w.ledger, f))
            && (n < |queue| ==> n == BATCH_SIZE || n == StockLeft(w.ledger, f) || StockLeft(w.ledger, f) < 0)
            && Sorted(queue[..n])
            && (forall x, y | x in queue[..n] && y in queue[n..] :: x.score <= y.score && x.userId != y.userId)
  {
    FirstComeFirstServed(s, hs);
    var w := Run(s, hs);
    assert InLine(w.now, QueueOf(w.queues, f), QueueOf(w.taken, f));
    SplitSorted(QueueOf(w.queues, f), Taken(QueueOf(w.queues, f), BatchSize(StockLeft(w.ledger, f))));
  }

  // ---- The issued-set -----------------------------------------------------------------------------------------

  /** The Redis set has every user the scheduler issued a coupon to, but for marks that failed. */
  ghost predicate AllMarked(w: Ledger) {
    forall issue | issue in w.issues :: issue in w.unmarked || issue.userId in IssuedSet(w.marked, issue.fcfsId)
  }

  /** Marks and the notes of failed ones only ever grow. */
  ghost predicate MarksGrow(w: Ledger, after: Ledger) {
    && (forall f :: IssuedSet(w.marked, f) <= IssuedSet(after.marked, f))
    && (forall issue | issue in w.unmarked :: issue in after.unmarked)
  }

  lemma {:induction false} IssueAllMarks(w: Ledger, f: int, users: seq<int>, fault: (int, int) -> UserFault)
    ensures AllMarked(w) ==> AllMarked(IssueAll(w, f, users, fault))
    ensures MarksGrow(w, IssueAll(w, f, users, fault))
  {
    if users != [] {
      var n := |users| - 1;
      IssueAllMarks(w, f, users[..n], fault);
      IssueOneMarks(IssueAll(w, f, users[..n], fault), f, users[n], fault(f, users[n]));
    }
  }

  lemma IssueOneMarks(w: Ledger, f: int, user: int, fault: UserFault)
    ensures AllMarked(w) ==> AllMarked(IssueOne(w, f, user, fault))
    ensures MarksGrow(w, IssueOne(w, f, user, fault))
  {
    var after := IssueOne(w, f, user, fault);
    if AllMarked(w) {
      forall issue | issue in after.issues
        ensures issue in after.unmarked || issue.userId in IssuedSet(after.marked, issue.fcfsId)
      {
        if issue !in w.issues { assert issue == Issue(f, user); }
      }
    }
  }

  /** One coupon of a tick, whether its transaction commits or not. */
  lemma CouponMarks(s: Sched, row: (int, int), fault: (int, int) -> UserFault, commits: int -> bool)
    ensures AllMarked(s.ledger) ==> AllMarked(HandleCoupon(s, row, fault, commits).ledger)
    ensures forall f :: IssuedSet(s.ledger.marked, f)
                        <= IssuedSet(HandleCoupon(s, row, fault, commits).ledger.marked, f)
  {
    var queue := QueueOf(s.queues, row.0);
    IssueAllMarks(s.ledger, row.0, Members(queue[..Taken(queue, BatchSize(row.1))]), fault);
  }

  lemma {:induction false} TickMarks(s: Sched, rows: seq<(int, int)>, fault: (int, int) -> UserFault,
                                     commits: int -> bool, f: int)
    ensures AllMarked(s.ledger) ==> AllMarked(HandleAll(s, rows, fault, commits).ledger)
    ensures IssuedSet(s.ledger.marked, f) <= IssuedSet(HandleAll(s, rows, fault, commits).ledger.marked, f)
    decreases |rows|
  {
    if rows != [] {
      CouponMarks(s, rows[0], fault, commits);
      if GoesOn(s, rows[0], commits) {
        TickMarks(HandleCoupon(s, rows[0], fault, commits), rows[1..], fault, commits, f);
      }
    }
  }

  /**
   * Whatever happens, whoever got a coupon from the scheduler is marked in Redis, unless it was the mark that failed;
   * and a mark, once made, stays.
   */
  lemma {:induction false} EveryRunMarks(s: Sched, hs: seq<Happening>, f: int)
    ensures AllMarked(s.ledger) ==> AllMarked(Run(s, hs).ledger)
    ensures IssuedSet(s.ledger.marked, f) <= IssuedSet(Run(s, hs).ledger.marked, f)
  {
    if hs != [] {
      var before, last := Run(s, hs[..|hs| - 1]), hs[|hs| - 1];
      EveryRunMarks(s, hs[..|hs| - 1], f);
      if last.Cron? && MayBeFound(before, last.found) {
        TickMarks(before, Rows(before, last.found), last.fault, last.commits, f);
      }
    }
  }

  /** The set has exactly the users who got a coupon and whose mark did not fail. */
  ghost predicate ExactMarks(w: Ledger) {
    && (forall issue | issue in w.issues ::
          issue.fcfsId in w.tables.fcfs && (issue.userId, w.tables.fcfs[issue.fcfsId].couponId) in w.tables.owned)
    && (forall issue | issue in w.unmarked :: issue in w.issues)
    && (forall f, u :: u in IssuedSet(w.marked, f) <==> Issue(f, u) in w.issues && Issue(f, u) !in w.unmarked)
  }

  lemma IssueOneMarksExactly(w: Ledger, f: int, user: int, fault: UserFault)
    requires ExactMarks(w)
    ensures ExactMarks(IssueOne(w, f, user, fault))
  {
  }

  lemma {:induction false} IssueAllMarksExactly(w: Ledger, f: int, users: seq<int>, fault: (int, int) -> UserFault)
    requires ExactMarks(w)
    ensures ExactMarks(IssueAll(w, f, users, fault))
  {
    if users != [] {
      var n := |users| - 1;
      IssueAllMarksExactly(w, f, users[..n], fault);
      IssueOneMarksExactly(IssueAll(w, f, users[..n], fault), f, users[n], fault(f, users[n]));
    }
  }

  lemma {:induction false} TickMarksExactly(s: Sched, rows: seq<(int, int)>, fault: (int, int) -> UserFault,
                                            commits: int -> bool)
    requires ExactMarks(s.ledger) && forall f :: commits(f)
    ensures ExactMarks(HandleAll(s, rows, fault, commits).ledger)
    decreases |rows|
  {
    if rows != [] {
      var queue := QueueOf(s.queues, rows[0].0);
      IssueAllMarksExactly(s.ledger, rows[0].0, Members(queue[..Taken(queue, BatchSize(rows[0].1))]), fault);
      TickMarksExactly(HandleCoupon(s, rows[0], fault, commits), rows[1..], fault, commits);
    }
  }

  /** As long as every transaction commits, the issued-set and the coupons issued agree up to failed marks. */
  lemma {:induction false} CommittedRunMarksExactly(s: Sched, hs: seq<Happening>)
    requires ExactMarks(s.ledger)
    requires forall i | 0 <= i < |hs| && hs[i].Cron? :: forall f :: hs[i].commits(f)
    ensures ExactMarks(Run(s, hs).ledger)
  {
    if hs != [] {
      var before, last := Run(s, hs[..|hs| - 1]), hs[|hs| - 1];
      CommittedRunMarksExactly(s, hs[..|hs| - 1]);
      if last.Cron? && MayBeFound(before, last.found) {
        TickMarksExactly(before, Rows(before, last.found), last.fault, last.commits);
      }
    }
  }

  lemma {:induction false} FirstIsMarked(w: Ledger, f: int, users: seq<int>, fault: (int, int) -> UserFault)
    requires users != [] && f in w.tables.fcfs && (users[0], w.tables.fcfs[f].couponId) !in w.tables.owned
    requires fault(f, users[0]) != BeforeCreate && fault(f, users[0]) != AtMark(false)
    ensures users[0] in IssuedSet(IssueAll(w, f, users, fault).marked, f)
  {
    var n := |users| - 1;
    if n == 0 {
      assert users[..0] == [];
    } else {
      FirstIsMarked(w, f, users[..n], fault);
      IssueOneMarks(IssueAll(w, f, users[..n], fault), f, users[n], fault(f, users[n]));
    }
  }

  /**
   * A batch that is rolled back leaves marks without coupons: here that of its first user, if the mark came about. The
   * tables are as before, the direct path refuses the user from then on, whatever follows, and nothing takes the mark
   * back.
   */
  lemma {:induction false} RolledBackMarkStays(s: Sched, f: int, fault: (int, int) -> UserFault, commits: int -> bool,
                                               hs: seq<Happening>, now: int)
    requires StockLeft(s.ledger, f) > 0 && QueueOf(s.queues, f) != [] && !commits(f)
    requires var u := QueueOf(s.queues, f)[0].userId;
             && (u, s.ledger.tables.fcfs[f].couponId) !in s.ledger.tables.owned
             && fault(f, u) != BeforeCreate && fault(f, u) != AtMark(false)
    ensures var u, after := QueueOf(s.queues, f)[0].userId, Next(s, Cron([f], fault, commits));
            && after.ledger.tables == s.ledger.tables && after.ledger.issues == s.ledger.issues
            && u in IssuedSet(after.ledger.marked, f)
            && u in IssuedSet(Run(after, hs).ledger.marked, f)
            && Admission(Run(after, hs).ledger.tables, Run(after, hs).ledger.marked, u, f, now).Failure?
  {
    var queue := QueueOf(s.queues, f);
    var users := Members(queue[..Taken(queue, BatchSize(StockLeft(s.ledger, f)))]);
    FirstIsMarked(s.ledger, f, users, fault);
    var rows, after := Rows(s, [f]), Next(s, Cron([f], fault, commits));
    assert rows[0] == (f, StockLeft(s.ledger, f));
    assert after == HandleCoupon(s, rows[0], fault, commits);
    EveryRunMarks(after, hs, f);
  }
}
