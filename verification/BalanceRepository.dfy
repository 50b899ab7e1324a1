/** Balance changes and their audit log (balance.repository.prisma.ts). */
module BalanceRepository {
  import opened Wrappers
  import opened Store

  // ---- What one call does to the tables -------------------------------------------------

  /** `deductBalance`: throws when there is no row or too little money, else moves the balance and logs it. */
  function Deduct(db: Database, userId: int, amount: Money): Result<Database, Error> {
    if userId !in db.balances then Failure(BalanceNotFound)
    else if db.balances[userId] < amount then Failure(InsufficientBalance)
    else Success(Book(db, userId, UseRow, amount, db.balances[userId] - amount))
  }

  /** `chargeBalanceWithTx`: the first charge of a user creates the balance row; every charge is logged as a refund. */
  function Charge(db: Database, userId: int, amount: Money): Result<Database, Error> {
    if userId !in db.users then Failure(UserNotFound)
    else Success(Book(db, userId, RefundRow, amount, BalanceOf(db, userId) + amount))
  }

  function Book(db: Database, userId: int, kind: BalanceType, amount: Money, after: Money): Database {
    db.(balances := db.balances[userId := after],
        history := db.history + [HistoryRow(userId, kind, amount, after)])
  }

  // ---- The transaction client and the repository ----------------------------------------

  /** `Prisma.TransactionClient`: the rows as this transaction sees them, own writes included. */
  class TransactionClient {
    var db: Database

    constructor (db: Database)
      ensures this.db == db
    {
      this.db := db;
    }
  }

  class BalanceRepository {
    constructor () {}

    method CreateBalanceHistory(userId: int, kind: BalanceType, amount: Money, afterBalance: Money,
                                tx: TransactionClient)
      modifies tx
      ensures tx.db == old(tx.db).(history := old(tx.db).history + [HistoryRow(userId, kind, amount, afterBalance)])
    {
      tx.db := tx.db.(history := tx.db.history + [HistoryRow(userId, kind, amount, afterBalance)]);
    }

    method DeductBalance(userId: int, amount: Money, tx: TransactionClient) returns (r: Result<Money, Error>)
      modifies tx
      ensures r.Success? <==> Deduct(old(tx.db), userId, amount).Success?
      ensures r.Success? ==> Deduct(old(tx.db), userId, amount) == Success(tx.db)
                             && userId in tx.db.balances && r.value == tx.db.balances[userId]
      ensures r.Failure? ==> tx.db == old(tx.db) && Deduct(old(tx.db), userId, amount) == Failure(r.error)
    {
      if userId !in tx.db.balances {
        return Failure(BalanceNotFound);
      }
      if tx.db.balances[userId] < amount {
        return Failure(InsufficientBalance);
      }
      var updated := tx.db.balances[userId] - amount;
      tx.db := tx.db.(balances := tx.db.balances[userId := updated]);
      CreateBalanceHistory(userId, UseRow, amount, updated, tx);
      return Success(updated);
    }

    method ChargeBalanceWithTx(userId: int, amount: Money, tx: TransactionClient) returns (r: Result<Money, Error>)
      modifies tx
      ensures r.Success? <==> Charge(old(tx.db), userId, amount).Success?
      ensures r.Success? ==> Charge(old(tx.db), userId, amount) == Success(tx.db)
                             && userId in tx.db.balances && r.value == tx.db.balances[userId]
      ensures r.Failure? ==> tx.db == old(tx.db) && Charge(old(tx.db), userId, amount) == Failure(r.error)
    {
      if userId !in tx.db.users {
        return Failure(UserNotFound);
      }
      if userId !in tx.db.balances {
        tx.db := tx.db.(balances := tx.db.balances[userId := amount]);
        CreateBalanceHistory(userId, RefundRow, amount, amount, tx);
        return Success(amount);
      }
      var updated := tx.db.balances[userId] + amount;
      tx.db := tx.db.(balances := tx.db.balances[userId := updated]);
      CreateBalanceHistory(userId, RefundRow, amount, updated, tx);
      return Success(updated);
    }
  }

  // ---- Replaying the log -----------------------------------------------------------------

  function Signed(row: HistoryRow): Money {
    if row.kind == UseRow then -row.amount else row.amount
  }

  /** The balance an auditor computes for one user from a starting balance and a stretch of log. */
  function Replay(start: Money, rows: seq<HistoryRow>, userId: int): Money {
    if rows == [] then start
    else
      var last := rows[|rows| - 1];
      Replay(start, rows[..|rows| - 1], userId) + (if last.userId == userId then Signed(last) else 0.0)
  }

  /** Every `afterBalance` in the stretch is what replaying the rows up to it gives. */
  ghost predicate Audited(start: Money, rows: seq<HistoryRow>, userId: int) {
    forall i | 0 <= i < |rows| && rows[i].userId == userId ::
      rows[i].afterBalance == Replay(start, rows[..i + 1], userId)
  }

  lemma AuditedAppend(start: Money, rows: seq<HistoryRow>, row: HistoryRow, userId: int)
    requires Audited(start, rows, userId)
    requires row.userId == userId ==> row.afterBalance == Replay(start, rows, userId) + Signed(row)
    ensures Audited(start, rows + [row], userId)
    ensures Replay(start, rows + [row], userId)
            == Replay(start, rows, userId) + (if row.userId == userId then Signed(row) else 0.0)
  {
    var all := rows + [row];
    assert all[..|all| - 1] == rows;
    forall i | 0 <= i < |all| && all[i].userId == userId
      ensures all[i].afterBalance == Replay(start, all[..i + 1], userId)
    {
      if i < |rows| {
        assert all[..i + 1] == rows[..i + 1];
      } else {
        assert all[..i + 1] == all;
      }
    }
  }
}
