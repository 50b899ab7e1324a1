/** Direct first-come-first-served issuing, one request at a time (coupon.service.ts). */
module CouponIssue {
  import opened Wrappers
  import opened Store
  import opened Redlock

  datatype CouponStatus = Available | Used | Expired

  /** A FcfsCoupon row; several may hand out the same coupon. */
  datatype FcfsCoupon = FcfsCoupon(couponId: int, stockQuantity: int, startDate: int, endDate: int)

  /** UserCoupon has a unique index on user and coupon. */
  datatype CouponTables = CouponTables(fcfs: map<int, FcfsCoupon>, owned: map<(int, int), CouponStatus>)

  datatype CouponError =
    | CouponNotFound | NotAvailableNow | AlreadyIssued | StockEmpty | UniqueViolation | CouponLocked | CouponFault

  /** Where an awaited call can throw, in the order of the code. */
  datatype CouponPoint = TakeLock | FindCoupon | AskIssued | AskCount | CreateCoupon | MarkIssued

  function IssuedSet(issued: map<int, set<int>>, fcfsId: int): set<int> {
    if fcfsId in issued then issued[fcfsId] else {}
  }

  /** The checks before the transaction: on the row, the clock, and the Redis set. */
  function Admission(tables: CouponTables, issued: map<int, set<int>>, userId: int, fcfsId: int, now: int)
    : Result<int, CouponError>
  {
    if fcfsId !in tables.fcfs then Failure(CouponNotFound)
    else
      var coupon := tables.fcfs[fcfsId];
      if now < coupon.startDate || now > coupon.endDate then Failure(NotAvailableNow)
      else if userId in IssuedSet(issued, fcfsId) then Failure(AlreadyIssued)
      else if |IssuedSet(issued, fcfsId)| >= coupon.stockQuantity then Failure(StockEmpty)
      else Success(coupon.couponId)
  }

  /**
   * The transaction: an available coupon of the user stops it by hand, any other one by the unique index.
   */
  function Create(tables: CouponTables, userId: int, couponId: int): Result<CouponTables, CouponError> {
    if (userId, couponId) in tables.owned then
      Failure(if tables.owned[(userId, couponId)] == Available then AlreadyIssued else UniqueViolation)
    else
      Success(tables.(owned := tables.owned[(userId, couponId) := Available]))
  }

  /** The checks in the order of the code, with what each answers, told of the row and the set alone. */
  lemma AdmissionLaw(tables: CouponTables, issued: map<int, set<int>>, u: int, f: int, now: int)
    ensures var marked: set<int> := if f in issued then issued[f] else {};
            Admission(tables, issued, u, f, now)
            == if f !in tables.fcfs then Failure(CouponNotFound)
               else if !(tables.fcfs[f].startDate <= now <= tables.fcfs[f].endDate) then Failure(NotAvailableNow)
               else if u in marked then Failure(AlreadyIssued)
               else if |marked| >= tables.fcfs[f].stockQuantity then Failure(StockEmpty)
               else Success(tables.fcfs[f].couponId)
  {
  }

  /** A user gets a coupon just when owning none of it, in whatever status; nobody else's row changes. */
  lemma CreateLaw(tables: CouponTables, u: int, c: int)
    ensures Create(tables, u, c)
            == if (u, c) !in tables.owned then Success(CouponTables(tables.fcfs, tables.owned[(u, c) := Available]))
               else if tables.owned[(u, c)] == Available then Failure(AlreadyIssued)
               else Failure(UniqueViolation)
  {
  }

  /** A user coupon committed on behalf of a FcfsCoupon row. */
  datatype Issue = Issue(fcfsId: int, userId: int)

  /** Coupons committed on behalf of one row. */
  function Created(log: seq<Issue>, fcfsId: int): nat {
    if log == [] then 0
    else Created(log[..|log| - 1], fcfsId) + (if log[|log| - 1].fcfsId == fcfsId then 1 else 0)
  }

  lemma CreatedAppend(log: seq<Issue>, issue: Issue, fcfsId: int)
    ensures Created(log + [issue], fcfsId) == Created(log, fcfsId) + (if issue.fcfsId == fcfsId then 1 else 0)
  {
    assert (log + [issue])[..|log|] == log;
  }

  class CouponService {
    var prisma: CouponTables
    /** The Redis sets `fcfs:coupon:<id>:issued`. */
    var issued: map<int, set<int>>
    const redlock: RedisRedlock

    constructor (tables: CouponTables, lock: RedisRedlock)
      ensures prisma == tables && issued == map[] && redlock == lock
    {
      prisma, issued, redlock := tables, map[], lock;
    }

    method CheckAdmission(userId: int, fcfsId: int, now: int, faults: set<CouponPoint>)
      returns (r: Result<int, CouponError>)
      ensures r.Success? <==> Admission(prisma, issued, userId, fcfsId, now).Success?
                              && FindCoupon !in faults && AskIssued !in faults && AskCount !in faults
      ensures r.Success? ==> r == Admission(prisma, issued, userId, fcfsId, now)
      ensures faults == {} ==> r == Admission(prisma, issued, userId, fcfsId, now)
    {
      if FindCoupon in faults { return Failure(CouponFault); }
      if fcfsId !in prisma.fcfs { return Failure(CouponNotFound); }
      var fcfsCoupon := prisma.fcfs[fcfsId];
      if now < fcfsCoupon.startDate || now > fcfsCoupon.endDate { return Failure(NotAvailableNow); }
      if AskIssued in faults { return Failure(CouponFault); }
      if userId in IssuedSet(issued, fcfsId) { return Failure(AlreadyIssued); }
      if AskCount in faults { return Failure(CouponFault); }
      if |IssuedSet(issued, fcfsId)| >= fcfsCoupon.stockQuantity { return Failure(StockEmpty); }
      return Success(fcfsCoupon.couponId);
    }

    /**
     * Either nothing happens, or the coupon is created and marked in Redis; the one exception is a Redis
     * failure after the commit, which leaves a created coupon unmarked behind an error.
     */
    method IssueFcfsCoupon(userId: int, fcfsId: int, now: int, client: int, faults: set<CouponPoint>)
      returns (r: Result<int, CouponError>)
      modifies this`prisma, this`issued, redlock
      ensures redlock.locks == old(redlock.locks)
      ensures var admitted := Admission(old(prisma), old(issued), userId, fcfsId, now);
              var goes := admitted.Success? && Create(old(prisma), userId, admitted.value).Success?
                          && FcfsLock(fcfsId) !in old(redlock.locks) && faults <= {MarkIssued};
              && (!goes ==> r.Failure? && prisma == old(prisma) && issued == old(issued))
              && (goes ==> Success(prisma) == Create(old(prisma), userId, admitted.value))
              && (goes && MarkIssued !in faults ==>
                    r == admitted && issued == old(issued)[fcfsId := IssuedSet(old(issued), fcfsId) + {userId}])
              && (goes && MarkIssued in faults ==> r == Failure(CouponFault) && issued == old(issued))
              && (faults == {} && old(redlock.locks) == map[] && admitted.Failure? ==> r == admitted)
    {
      var lock := redlock.AcquireLock(FcfsLock(fcfsId), client, TakeLock in faults);
      if lock.Failure? {
        assert TakeLock in faults || FcfsLock(fcfsId) in old(redlock.locks);
        return Failure(if lock.error == Locked then CouponLocked else CouponFault);
      }
      r := CheckAdmission(userId, fcfsId, now, faults);
      if r.Success? {
        var couponId := r.value;
        if CreateCoupon in faults {
          r := Failure(CouponFault);
        } else if (userId, couponId) in prisma.owned {
          r := Failure(if prisma.owned[(userId, couponId)] == Available then AlreadyIssued else UniqueViolation);
        } else {
          prisma := prisma.(owned := prisma.owned[(userId, couponId) := Available]);
          if MarkIssued in faults {
            r := Failure(CouponFault);
          } else {
            issued := issued[fcfsId := IssuedSet(issued, fcfsId) + {userId}];
          }
          assert faults <= {MarkIssued} by {
            forall p | p in faults ensures p == MarkIssued {
              match p case TakeLock => case FindCoupon => case AskIssued => case AskCount =>
                      case CreateCoupon => case MarkIssued =>
            }
          }
        }
      }
      redlock.ReleaseLock(FcfsLock(fcfsId), client);
    }
  }
}
