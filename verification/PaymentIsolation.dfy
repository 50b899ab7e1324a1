/**
 * Why the `payment:` lock matters: the isolation level does not cover the payment that `cancelPayment` reads outside
 * its transaction (payment.repository.prisma.ts).
 */
module PaymentIsolation {
  import opened Wrappers
  import opened Store
  import opened PaymentTx
  import opened StockLoop
  import opened SerialRuns
  import opened PaymentClient
  import opened PaymentMachine

  /** The stock loop of a cancellation from line `k` on, all of it on the same committed tables. */
  function LateLines(after: Database, l: Client, k: nat): Result<Client, Error>
    requires k <= |l.lines|
    decreases |l.lines| - k
  {
    if k == |l.lines| then Success(l)
    else
      var updated :- UpdateOne(after, l, k);
      LateLines(after, updated, k + 1)
  }

  /**
   * A cancellation that reads the payment from `before` and runs everything else on `after`, up to its commit,
   * with the order's lines in the order `found`.
   */
  function LateCancel(before: Database, after: Database, userId: int, paymentId: int, found: seq<Line>)
    : Result<Client, Error>
  {
    var fetch :- ReadPayment(before, NewClient(CancelRequest(userId, paymentId)));
    LateRun(after, ReadLines(fetch, found))
  }

  function LateRun(after: Database, l: Client): Result<Client, Error> {
    var looped :- LateLines(after, l, 0);
    LateRefund(after, looped)
  }

  function LateRefund(after: Database, l: Client): Result<Client, Error> {
    var moved :- MoveOne(after, l);
    var recorded :- RecordPayment(after, moved, 0);
    RecordOrder(after, recorded)
  }

  /** From `l` to `late` the client only wrote stock, and what it read besides is so in the tables. */
  ghost predicate OnlyStock(after: Database, l: Client, late: Client) {
    && late == l.(phase := late.phase, seen := late.seen, writes := l.writes.(stock := late.writes.stock))
    && (forall f | f in late.seen :: f in l.seen || HoldsIn(after, f))
    && (forall v :: v in late.writes.stock || v in after.stock <==> v in l.writes.stock || v in after.stock)
  }

  /** What a variant's stock is through a client's own writes. */
  function StockSeen(after: Database, l: Client, v: int): int {
    if v in l.writes.stock then l.writes.stock[v] else StockOf(after, v)
  }

  /** Likewise for a user's balance. */
  function BalanceSeen(after: Database, l: Client, u: int): Money {
    if u in l.writes.balances then l.writes.balances[u] else BalanceOf(after, u)
  }

  lemma LateLine(after: Database, l: Client, k: nat, v: int)
    requires k < |l.lines| && !Paying(l) && l.lines[k].variantId in after.stock
    ensures UpdateOne(after, l, k).Success?
    ensures OnlyStock(after, l, UpdateOne(after, l, k).value)
    ensures StockSeen(after, UpdateOne(after, l, k).value, v)
            == StockSeen(after, l, v) + (if l.lines[k].variantId == v then l.lines[k].quantity else 0)
  {
  }

  lemma {:induction false} LateLinesRun(after: Database, l: Client, k: nat, v: int)
    requires k <= |l.lines| && !Paying(l) && AllListed(after.stock, l.lines)
    ensures LateLines(after, l, k).Success?
    ensures OnlyStock(after, l, LateLines(after, l, k).value)
    ensures StockSeen(after, LateLines(after, l, k).value, v) == StockSeen(after, l, v) + Needed(l.lines[k..], v)
    decreases |l.lines| - k
  {
    if k < |l.lines| {
      LateLine(after, l, k, v);
      var updated := UpdateOne(after, l, k).value;
      LateLinesRun(after, updated, k + 1, v);
      assert l.lines[k..][0] == l.lines[k] && l.lines[k..][1..] == l.lines[k + 1..];
    } else {
      assert l.lines[k..] == [];
    }
  }

  /** Its balance step, run once the other cancellation has committed. */
  lemma LateMove(after: Database, l: Client)
    requires l.request.CancelRequest? && l.request.userId in after.users
    requires l.writes.balances == map[]
    ensures var u, moved := l.request.userId, MoveOne(after, l);
            && moved.Success?
            && BalanceSeen(after, moved.value, u) == BalanceOf(after, u) + l.amount
            && moved.value.writes.stock == l.writes.stock
            && moved.value.request == l.request && moved.value.orderId == l.orderId
            && moved.value.seen == l.seen + {UserPresent(u), BalanceIs(u, Lookup(after.balances, u))}
  {
    assert View(after, l.writes).balances == after.balances;
  }

  /** Its last two writes. */
  lemma LateRecord(after: Database, l: Client)
    requires l.request.CancelRequest? && l.request.paymentId in after.payments && l.orderId in after.orders
    ensures var recorded := RecordPayment(after, l, 0);
            && recorded.Success? && RecordOrder(after, recorded.value).Success?
            && var late := RecordOrder(after, recorded.value).value;
               && late.seen == l.seen + {OrderPresent(l.orderId)}
               && late.writes.balances == l.writes.balances && late.writes.stock == l.writes.stock
  {
  }

  lemma LateRefundRuns(after: Database, l: Client)
    requires l.request.CancelRequest? && l.request.userId in after.users && l.request.paymentId in after.payments
    requires l.orderId in after.orders && l.writes.balances == map[] && Unchanged(after, l)
    ensures var late := LateRefund(after, l);
            && late.Success? && Unchanged(after, late.value)
            && BalanceSeen(after, late.value, l.request.userId) == BalanceOf(after, l.request.userId) + l.amount
            && late.value.writes.stock == l.writes.stock
  {
    LateMove(after, l);
    LateRecord(after, MoveOne(after, l).value);
  }

  /** The stock loop and the rest, for a client that has written nothing and read nothing but the lines. */
  lemma LateLoopRuns(after: Database, l: Client, v: int) returns (late: Client)
    requires l.request.CancelRequest? && l.request.userId in after.users && l.request.paymentId in after.payments
    requires l.orderId in after.orders && l.writes == NO_WRITES && AllListed(after.stock, l.lines)
    requires l.seen == {LinesAre(l.orderId, multiset(l.lines))}
    requires multiset(l.lines) == multiset(LinesOf(after, l.orderId))
    ensures LateRun(after, l) == Success(late) && Unchanged(after, late)
    ensures BalanceSeen(after, late, l.request.userId) == BalanceOf(after, l.request.userId) + l.amount
    ensures StockSeen(after, late, v) == StockOf(after, v) + Needed(l.lines, v)
  {
    LateLinesRun(after, l, 0, v);
    assert l.lines[0..] == l.lines;
    LateRefundRuns(after, LateLines(after, l, 0).value);
    late := LateRun(after, l).value;
  }

  /** Up to the loop: the payment read from `before`, the lines from `after`. */
  lemma LateStart(before: Database, after: Database, userId: int, paymentId: int, found: seq<Line>)
    returns (lined: Client)
    requires ReadPayment(before, NewClient(CancelRequest(userId, paymentId))).Success?
    ensures LateCancel(before, after, userId, paymentId, found) == LateRun(after, lined)
    ensures lined.request == CancelRequest(userId, paymentId) && lined.lines == found && lined.writes == NO_WRITES
    ensures lined.orderId == before.payments[paymentId].orderId && lined.amount == before.payments[paymentId].amount
    ensures lined.seen == {LinesAre(lined.orderId, multiset(found))}
  {
    lined := ReadLines(ReadPayment(before, NewClient(CancelRequest(userId, paymentId))).value, found);
  }

  /** A variant asked for is listed, in whatever order the lines come. */
  lemma ListedAnyOrder(stock: map<int, int>, found: seq<Line>, lines: seq<Line>)
    requires multiset(found) == multiset(lines) && AllListed(stock, lines)
    ensures AllListed(stock, found)
  {
    forall i | 0 <= i < |found| ensures found[i].variantId in stock {
      var j := SameRowsSameIndex(found, lines, i);
    }
  }

  /**
   * Nothing `late` read through its transaction has changed, so the isolation level lets it commit; then the
   * payment's amount is on the balance twice, and the units of every line are in stock twice.
   */
  ghost predicate RefundsAgain(db: Database, after: Database, late: Client, payment: Payment, v: int) {
    var end := View(after, late.writes);
    && Unchanged(after, late)
    && BalanceOf(end, payment.userId) == BalanceOf(db, payment.userId) + 2.0 * payment.amount
    && StockOf(end, v) == StockOf(db, v) + 2 * Needed(LinesOf(db, payment.orderId), v)
  }

  /** What a late cancellation finds once the first one has committed. */
  lemma AfterFirstRefund(db: Database, after: Database, userId: int, paymentId: int, found: seq<Line>)
    requires CancelTx(db, userId, paymentId) == Success(after)
    requires multiset(found) == multiset(LinesOf(db, db.payments[paymentId].orderId))
    ensures ReadPayment(db, NewClient(CancelRequest(userId, paymentId))).Success?
    ensures var o := db.payments[paymentId].orderId;
            && userId in after.users && paymentId in after.payments && o in after.orders
            && LinesOf(after, o) == LinesOf(db, o) && AllListed(after.stock, found)
    ensures CancelTx(after, userId, paymentId).Failure?
  {
    CancelEffect(db, userId, paymentId);
    ListedAnyOrder(after.stock, found, LinesOf(db, db.payments[paymentId].orderId));
  }

  lemma SecondRefund(db: Database, after: Database, userId: int, paymentId: int, late: Client, v: int)
    requires CancelTx(db, userId, paymentId) == Success(after) && Unchanged(after, late)
    requires BalanceSeen(after, late, userId) == BalanceOf(after, userId) + db.payments[paymentId].amount
    requires StockSeen(after, late, v)
             == StockOf(after, v) + Needed(LinesOf(db, db.payments[paymentId].orderId), v)
    ensures RefundsAgain(db, after, late, db.payments[paymentId], v)
  {
    CancelEffect(db, userId, paymentId);
    if v !in db.stock { UnlistedNotNeeded(after.stock, LinesOf(db, db.payments[paymentId].orderId), v); }
  }

  /**
   * Isolation alone would not do: were the payment cancelled between the two, the late cancellation would still
   * find everything it read through its transaction unchanged, and committing it would refund twice.
   */
  lemma {:induction false} IsolationAloneRefundsTwice(db: Database, after: Database, userId: int, paymentId: int,
                                                     found: seq<Line>, v: int)
    requires CancelTx(db, userId, paymentId) == Success(after)
    requires multiset(found) == multiset(LinesOf(db, db.payments[paymentId].orderId))
    ensures CancelTx(after, userId, paymentId).Failure?
    ensures var late := LateCancel(db, after, userId, paymentId, found);
            late.Success? && RefundsAgain(db, after, late.value, db.payments[paymentId], v)
  {
    AfterFirstRefund(db, after, userId, paymentId, found);
    NeededSameRows(found, LinesOf(db, db.payments[paymentId].orderId), v);
    var lined := LateStart(db, after, userId, paymentId, found);
    var late := LateLoopRuns(after, lined, v);
    SecondRefund(db, after, userId, paymentId, late, v);
  }
}
