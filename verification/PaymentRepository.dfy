/**
 * processPayment and cancelPayment as they run: locks taken and released in try/finally, statements on
 * a transaction client, commit or roll back at the end (payment.repository.prisma.ts). `faults` lists the
 * points at which Redis or the database throws.
 */
module PaymentRepository {
  import opened Wrappers
  import opened Store
  import opened BalanceRepository
  import opened PaymentTx
  import opened Redlock

  /** The places where a call can throw, in the order of the code; the balance repository's statements are one. */
  datatype Point =
    | TakeOuterLock | ReadFirst | FindLines
    | TakeLineLock(index: int) | ReadLine(index: int) | WriteLine(index: int)
    | TakeBalanceLock | MoveBalance
    | WritePayment | WriteOrder | CommitPoint

  /** One line cannot be handled: its variant is locked by somebody, or a call about it throws. */
  ghost predicate LineBlocked(locks: map<LockKey, int>, faults: set<Point>, index: int, item: Line, paying: bool) {
    || ProductLock(item.variantId) in locks
    || TakeLineLock(index) in faults
    || (paying && ReadLine(index) in faults)
    || WriteLine(index) in faults
  }

  ghost predicate LinesBlocked(locks: map<LockKey, int>, faults: set<Point>, lines: seq<Line>, paying: bool) {
    exists k | 0 <= k < |lines| :: LineBlocked(locks, faults, k, lines[k], paying)
  }

  /** Something other than the data stands in the way of the transaction. */
  ghost predicate Blocked(locks: map<LockKey, int>, faults: set<Point>, userId: int, lines: seq<Line>, paying: bool) {
    || ReadFirst in faults || FindLines in faults
    || TakeBalanceLock in faults || MoveBalance in faults
    || WritePayment in faults || WriteOrder in faults
    || LinesBlocked(locks, faults, lines, paying)
    || BalanceLock(userId) in locks
  }

  /** Every call the transaction makes is a place to fail at, and every lock it takes one that others may hold. */
  lemma BlockedLaw(locks: map<LockKey, int>, faults: set<Point>, userId: int, lines: seq<Line>, paying: bool)
    ensures !Blocked(locks, faults, userId, lines, paying) <==>
              && {ReadFirst, FindLines, TakeBalanceLock, MoveBalance, WritePayment, WriteOrder} !! faults
              && BalanceLock(userId) !in locks
              && forall k | 0 <= k < |lines| ::
                   && ProductLock(lines[k].variantId) !in locks
                   && TakeLineLock(k) !in faults && WriteLine(k) !in faults && (paying ==> ReadLine(k) !in faults)
  {
    assert {ReadFirst, FindLines, TakeBalanceLock, MoveBalance, WritePayment, WriteOrder} !! faults <==>
             ReadFirst !in faults && FindLines !in faults && TakeBalanceLock !in faults && MoveBalance !in faults
             && WritePayment !in faults && WriteOrder !in faults;
    if !LinesBlocked(locks, faults, lines, paying) {
      forall k | 0 <= k < |lines| ensures !LineBlocked(locks, faults, k, lines[k], paying) {}
    } else {
      var k :| 0 <= k < |lines| && LineBlocked(locks, faults, k, lines[k], paying);
    }
  }

  class PaymentRepositoryPrisma {
    /** The committed tables, `this.prisma` in the code. */
    var prisma: Database
    const balanceRepository: BalanceRepository
    const redisRedlock: RedisRedlock

    constructor (db: Database, balances: BalanceRepository, redlock: RedisRedlock)
      ensures prisma == db && balanceRepository == balances && redisRedlock == redlock
    {
      prisma := db;
      balanceRepository := balances;
      redisRedlock := redlock;
    }

    // ---- processPayment ---------------------------------------------------------------------

    method ReserveLine(item: Line, k: int, client: int, faults: set<Point>, tx: TransactionClient)
      returns (r: Result<(), Error>)
      modifies redisRedlock, tx
      ensures redisRedlock.locks == old(redisRedlock.locks)
      ensures r.Success? <==> !LineBlocked(old(redisRedlock.locks), faults, k, item, true)
                              && Reserve(old(tx.db).stock, [item]).Success?
      ensures r.Success? ==> tx.db == old(tx.db).(stock := Reserve(old(tx.db).stock, [item]).value)
      ensures r.Failure? && !LineBlocked(old(redisRedlock.locks), faults, k, item, true)
              ==> r.error == InsufficientStock(item.variantId)
    {
      var key := ProductLock(item.variantId);
      var variantLock := redisRedlock.AcquireLock(key, client, TakeLineLock(k) in faults);
      if variantLock.Failure? {
        return Failure(variantLock.error);
      }
      if ReadLine(k) in faults {
        r := Failure(Fault);
      } else if item.variantId !in tx.db.stock || tx.db.stock[item.variantId] < item.quantity {
        r := Failure(InsufficientStock(item.variantId));
      } else if WriteLine(k) in faults {
        r := Failure(Fault);
      } else {
        tx.db := tx.db.(stock := tx.db.stock[item.variantId := tx.db.stock[item.variantId] - item.quantity]);
        assert [item][1..] == [];
        r := Success(());
      }
      redisRedlock.ReleaseLock(key, client);
    }

    method PayInTransaction(userId: int, orderId: int, paymentId: int, client: int, faults: set<Point>,
                            tx: TransactionClient)
      returns (r: Result<Payment, Error>)
      modifies redisRedlock, tx
      ensures redisRedlock.locks == old(redisRedlock.locks)
      ensures r.Success? <==>
                PayTx(old(tx.db), userId, orderId, paymentId).Success?
                && !Blocked(old(redisRedlock.locks), faults, userId, LinesOf(old(tx.db), orderId), true)
      ensures r.Success? ==> PayTx(old(tx.db), userId, orderId, paymentId) == Success(tx.db)
                             && paymentId in tx.db.payments && r.value == tx.db.payments[paymentId]
      ensures r.Failure? && !Blocked(old(redisRedlock.locks), faults, userId, LinesOf(old(tx.db), orderId), true)
              ==> PayTx(old(tx.db), userId, orderId, paymentId) == Failure(r.error)
    {
      ghost var db, locks := tx.db, redisRedlock.locks;
      if ReadFirst in faults { return Failure(Fault); }
      if orderId !in tx.db.orders { return Failure(OrderNotFound); }
      var order := tx.db.orders[orderId];
      if order.userId != userId { return Failure(Unauthorized); }
      if order.status == OrderPaid { return Failure(AlreadyPaid); }
      if order.status == OrderCancelled { return Failure(OrderIsCancelled); }

      if FindLines in faults { return Failure(Fault); }
      var orderItems := LinesOf(tx.db, orderId);
      var k := 0;
      while k < |orderItems|
        invariant 0 <= k <= |orderItems|
        invariant redisRedlock.locks == locks
        invariant tx.db == db.(stock := tx.db.stock)
        invariant Reserve(db.stock, orderItems) == Reserve(tx.db.stock, orderItems[k..])
        invariant forall j | 0 <= j < k :: !LineBlocked(locks, faults, j, orderItems[j], true)
      {
        var reserved := ReserveLine(orderItems[k], k, client, faults, tx);
        if reserved.Failure? {
          return Failure(reserved.error);
        }
        k := k + 1;
      }

      var balanceLock := redisRedlock.AcquireLock(BalanceLock(userId), client, TakeBalanceLock in faults);
      if balanceLock.Failure? {
        return Failure(balanceLock.error);
      }
      var deducted: Result<Money, Error>;
      if MoveBalance in faults {
        deducted := Failure(Fault);
      } else {
        deducted := balanceRepository.DeductBalance(userId, order.finalAmount, tx);
      }
      redisRedlock.ReleaseLock(BalanceLock(userId), client);
      if deducted.Failure? {
        return Failure(deducted.error);
      }

      if WritePayment in faults { return Failure(Fault); }
      if paymentId in tx.db.payments { return Failure(DuplicateKey); }
      var payment := Payment(orderId, userId, order.finalAmount, PaymentCompleted);
      tx.db := InsertPayment(tx.db, paymentId, payment);
      if WriteOrder in faults { return Failure(Fault); }
      tx.db := tx.db.(orders := tx.db.orders[orderId := tx.db.orders[orderId].(status := OrderPaid)]);
      return Success(payment);
    }

    /** Pays atomically or changes nothing, and gives back every lock on every way out. */
    method ProcessPayment(userId: int, orderId: int, paymentId: int, client: int, faults: set<Point>)
      returns (r: Result<Payment, Error>)
      modifies this`prisma, redisRedlock
      ensures redisRedlock.locks == old(redisRedlock.locks)
      ensures r.Success? <==>
                PayTx(old(prisma), userId, orderId, paymentId).Success?
                && OrderLock(orderId) !in old(redisRedlock.locks) && TakeOuterLock !in faults && CommitPoint !in faults
                && !Blocked(old(redisRedlock.locks), faults, userId, LinesOf(old(prisma), orderId), true)
      ensures r.Success? ==> PayTx(old(prisma), userId, orderId, paymentId) == Success(prisma)
                             && paymentId in prisma.payments && r.value == prisma.payments[paymentId]
      ensures r.Failure? ==> prisma == old(prisma)
      ensures r.Failure? && faults == {} && old(redisRedlock.locks) == map[]
              ==> PayTx(old(prisma), userId, orderId, paymentId) == Failure(r.error)
    {
      var orderLock := redisRedlock.AcquireLock(OrderLock(orderId), client, TakeOuterLock in faults);
      if orderLock.Failure? {
        return Failure(orderLock.error);
      }
      var tx := new TransactionClient(prisma);
      r := PayInTransaction(userId, orderId, paymentId, client, faults, tx);
      if r.Success? {
        if CommitPoint in faults {
          r := Failure(Fault);
        } else {
          prisma := tx.db;
        }
      }
      redisRedlock.ReleaseLock(OrderLock(orderId), client);
    }

    // ---- cancelPayment ----------------------------------------------------------------------

    method ReturnLine(item: Line, k: int, client: int, faults: set<Point>, tx: TransactionClient)
      returns (r: Result<(), Error>)
      modifies redisRedlock, tx
      ensures redisRedlock.locks == old(redisRedlock.locks)
      ensures r.Success? <==> !LineBlocked(old(redisRedlock.locks), faults, k, item, false)
                              && Return(old(tx.db).stock, [item]).Success?
      ensures r.Success? ==> tx.db == old(tx.db).(stock := Return(old(tx.db).stock, [item]).value)
      ensures r.Failure? && !LineBlocked(old(redisRedlock.locks), faults, k, item, false)
              ==> r.error == VariantNotFound
    {
      var key := ProductLock(item.variantId);
      var variantLock := redisRedlock.AcquireLock(key, client, TakeLineLock(k) in faults);
      if variantLock.Failure? {
        return Failure(variantLock.error);
      }
      if WriteLine(k) in faults {
        r := Failure(Fault);
      } else if item.variantId !in tx.db.stock {
        r := Failure(VariantNotFound);
      } else {
        tx.db := tx.db.(stock := tx.db.stock[item.variantId := tx.db.stock[item.variantId] + item.quantity]);
        assert [item][1..] == [];
        r := Success(());
      }
      redisRedlock.ReleaseLock(key, client);
    }

    /** `findPaymentWithOrderById` goes to the committed tables, not to the transaction. */
    method FindPaymentWithOrderById(paymentId: int) returns (payment: Option<Payment>)
      ensures payment.Some? <==> paymentId in prisma.payments
      ensures payment.Some? ==> payment.value == prisma.payments[paymentId]
    {
      if paymentId in prisma.payments {
        return Some(prisma.payments[paymentId]);
      }
      return None;
    }

    method CancelInTransaction(userId: int, paymentId: int, client: int, faults: set<Point>, tx: TransactionClient)
      returns (r: Result<Payment, Error>)
      requires tx.db == prisma
      modifies redisRedlock, tx
      ensures redisRedlock.locks == old(redisRedlock.locks)
      ensures r.Success? <==>
                CancelTx(prisma, userId, paymentId).Success?
                && !Blocked(old(redisRedlock.locks), faults, userId, LinesOfPayment(prisma, paymentId), false)
      ensures r.Success? ==> CancelTx(prisma, userId, paymentId) == Success(tx.db)
                             && paymentId in tx.db.payments && r.value == tx.db.payments[paymentId]
      ensures r.Failure? && !Blocked(old(redisRedlock.locks), faults, userId, LinesOfPayment(prisma, paymentId), false)
              ==> CancelTx(prisma, userId, paymentId) == Failure(r.error)
    {
      ghost var locks := redisRedlock.locks;
      if ReadFirst in faults { return Failure(Fault); }
      var found := FindPaymentWithOrderById(paymentId);
      if found.None? { return Failure(PaymentNotFound); }
      var payment := found.value;
      if payment.userId != userId { return Failure(Unauthorized); }
      if payment.status != PaymentCompleted { return Failure(NotCompleted); }

      if FindLines in faults { return Failure(Fault); }
      var orderItems := LinesOf(tx.db, payment.orderId);
      var k := 0;
      while k < |orderItems|
        invariant 0 <= k <= |orderItems|
        invariant redisRedlock.locks == locks
        invariant tx.db == prisma.(stock := tx.db.stock)
        invariant Return(prisma.stock, orderItems) == Return(tx.db.stock, orderItems[k..])
        invariant forall j | 0 <= j < k :: !LineBlocked(locks, faults, j, orderItems[j], false)
      {
        var returned := ReturnLine(orderItems[k], k, client, faults, tx);
        if returned.Failure? {
          return Failure(returned.error);
        }
        k := k + 1;
      }

      var balanceLock := redisRedlock.AcquireLock(BalanceLock(userId), client, TakeBalanceLock in faults);
      if balanceLock.Failure? {
        return Failure(balanceLock.error);
      }
      var charged: Result<Money, Error>;
      if MoveBalance in faults {
        charged := Failure(Fault);
      } else {
        charged := balanceRepository.ChargeBalanceWithTx(userId, payment.amount, tx);
      }
      redisRedlock.ReleaseLock(BalanceLock(userId), client);
      if charged.Failure? {
        return Failure(charged.error);
      }

      if WritePayment in faults { return Failure(Fault); }
      tx.db := SetPaymentStatus(tx.db, paymentId, PaymentCancelled);
      if WriteOrder in faults { return Failure(Fault); }
      if payment.orderId !in tx.db.orders { return Failure(OrderNotFound); }
      var order := tx.db.orders[payment.orderId].(status := OrderCancelled);
      tx.db := tx.db.(orders := tx.db.orders[payment.orderId := order]);
      return Success(tx.db.payments[paymentId]);
    }

    /** Refunds atomically or changes nothing, and gives back every lock on every way out. */
    method CancelPayment(userId: int, paymentId: int, client: int, faults: set<Point>)
      returns (r: Result<Payment, Error>)
      modifies this`prisma, redisRedlock
      ensures redisRedlock.locks == old(redisRedlock.locks)
      ensures r.Success? <==>
                CancelTx(old(prisma), userId, paymentId).Success?
                && PaymentLock(paymentId) !in old(redisRedlock.locks)
                && TakeOuterLock !in faults && CommitPoint !in faults
                && !Blocked(old(redisRedlock.locks), faults, userId, LinesOfPayment(old(prisma), paymentId), false)
      ensures r.Success? ==> CancelTx(old(prisma), userId, paymentId) == Success(prisma)
                             && paymentId in prisma.payments && r.value == prisma.payments[paymentId]
      ensures r.Failure? ==> prisma == old(prisma)
      ensures r.Failure? && faults == {} && old(redisRedlock.locks) == map[]
              ==> CancelTx(old(prisma), userId, paymentId) == Failure(r.error)
    {
      var paymentLock := redisRedlock.AcquireLock(PaymentLock(paymentId), client, TakeOuterLock in faults);
      if paymentLock.Failure? {
        return Failure(paymentLock.error);
      }
      var tx := new TransactionClient(prisma);
      r := CancelInTransaction(userId, paymentId, client, faults, tx);
      if r.Success? {
        if CommitPoint in faults {
          r := Failure(Fault);
        } else {
          prisma := tx.db;
        }
      }
      redisRedlock.ReleaseLock(PaymentLock(paymentId), client);
    }
  }

  ghost function LinesOfPayment(db: Database, paymentId: int): seq<Line> {
    if paymentId in db.payments then LinesOf(db, db.payments[paymentId].orderId) else []
  }
}
