/**
 * Runs of whole operations, one after the other: orders are created, balances charged and deducted
 * from outside, orders paid, payments cancelled. What every run keeps is proved here; PaymentMachine
 * shows that step-by-step interleavings only ever commit such runs.
 */
module SerialRuns {
  import opened Wrappers
  import opened Store
  import opened BalanceRepository
  import opened PaymentTx
  import opened StockLoop
  import Tally

  datatype Operation =
    | CreateOrder(orderId: int, order: Order, lines: seq<Line>)
    | ChargeBalance(userId: int, amount: Money)
    | DeductBalance(userId: int, amount: Money)
    | Pay(userId: int, orderId: int, paymentId: int)
    | Cancel(userId: int, paymentId: int)

  function Apply(db: Database, op: Operation): Result<Database, Error> {
    match op
    case CreateOrder(id, order, lines) =>
      if id in db.orders then Failure(DuplicateKey)
      else Success(db.(orders := db.orders[id := order], items := db.items[id := lines]))
    case ChargeBalance(userId, amount) => Charge(db, userId, amount)
    case DeductBalance(userId, amount) => Deduct(db, userId, amount)
    case Pay(userId, orderId, paymentId) => PayTx(db, userId, orderId, paymentId)
    case Cancel(userId, paymentId) => CancelTx(db, userId, paymentId)
  }

  /** A failed operation leaves the tables as they were. */
  function Exec(db: Database, op: Operation): Database {
    match Apply(db, op)
    case Success(after) => after
    case Failure(_) => db
  }

  function Run(db: Database, ops: seq<Operation>): Database {
    if ops == [] then db else Exec(Run(db, ops[..|ops| - 1]), ops[|ops| - 1])
  }

  /**
   * What the callers guarantee: orders start pending with quantities from 1 and amounts from 0, and charges are
   * not negative.
   */
  ghost predicate Legal(op: Operation) {
    match op
    case CreateOrder(_, order, lines) =>
      order.status == OrderPending && order.finalAmount >= 0.0 && Quantities(lines)
    case ChargeBalance(_, amount) => amount >= 0.0
    case _ => true
  }

  ghost predicate AllLegal(ops: seq<Operation>) {
    forall i | 0 <= i < |ops| :: Legal(ops[i])
  }

  // ---- The life of an order ------------------------------------------------------------------

  ghost function PaymentsOf(db: Database, orderId: int): set<int> {
    set p | p in db.payments && db.payments[p].orderId == orderId
  }

  /** The order's one payment, owned by the order's owner and worth its final amount, is in the given status. */
  ghost predicate SolePayment(db: Database, orderId: int, status: PaymentStatus)
    requires orderId in db.orders
  {
    exists p | p in db.payments ::
      PaymentsOf(db, orderId) == {p}
      && db.payments[p] == Payment(orderId, db.orders[orderId].userId, db.orders[orderId].finalAmount, status)
  }

  ghost predicate OrderStory(db: Database, orderId: int)
    requires orderId in db.orders
  {
    match db.orders[orderId].status
    case OrderPending => PaymentsOf(db, orderId) == {}
    case OrderPaid => SolePayment(db, orderId, PaymentCompleted)
    case OrderCancelled => SolePayment(db, orderId, PaymentCancelled)
    case _ => false
  }

  ghost predicate Consistent(db: Database) {
    && (forall o | o in db.orders ::
          OrderStory(db, o) && db.orders[o].finalAmount >= 0.0 && Quantities(LinesOf(db, o)))
    && (forall o | o in db.items :: o in db.orders)
    && (forall p | p in db.payments :: db.payments[p].orderId in db.orders)
    && (forall p | p in db.payments && db.payments[p].status == PaymentCompleted ::
          AllListed(db.stock, LinesOf(db, db.payments[p].orderId)))
    && (forall v | v in db.stock :: db.stock[v] >= 0)
    && (forall u | u in db.balances :: u in db.users && db.balances[u] >= 0.0)
  }

  lemma ConsistentExec(db: Database, op: Operation)
    requires Consistent(db) && Legal(op)
    ensures Consistent(Exec(db, op))
  {
    if Apply(db, op).Success? {
      match op
      case CreateOrder(id, order, lines) => ConsistentCreate(db, id, order, lines);
      case ChargeBalance(_, _) => SameOrders(db, Exec(db, op));
      case DeductBalance(_, _) => SameOrders(db, Exec(db, op));
      case Pay(userId, orderId, paymentId) => ConsistentPay(db, userId, orderId, paymentId);
      case Cancel(userId, paymentId) => ConsistentCancel(db, userId, paymentId);
    }
  }

  lemma SameOrders(db: Database, after: Database)
    requires Consistent(db)
    requires after.orders == db.orders && after.items == db.items && after.payments == db.payments
    requires after.stock == db.stock
    requires forall u | u in after.balances :: u in after.users && after.balances[u] >= 0.0
    ensures Consistent(after)
  {
    forall o | o in after.orders ensures OrderStory(after, o) {
      StoryUnmoved(db, after, o);
    }
  }

  /** The story of an order only reads its own row and the payments that name it. */
  lemma StoryUnmoved(db: Database, after: Database, orderId: int)
    requires orderId in db.orders && OrderStory(db, orderId)
    requires orderId in after.orders && after.orders[orderId] == db.orders[orderId]
    requires PaymentsOf(after, orderId) == PaymentsOf(db, orderId)
    requires forall p | p in PaymentsOf(db, orderId) :: after.payments[p] == db.payments[p]
    ensures OrderStory(after, orderId)
  {
    if db.orders[orderId].status == OrderPaid || db.orders[orderId].status == OrderCancelled {
      var p :| p in db.payments && PaymentsOf(db, orderId) == {p};
      assert p in PaymentsOf(after, orderId);
    }
  }

  lemma ConsistentCreate(db: Database, id: int, order: Order, lines: seq<Line>)
    requires Consistent(db) && Legal(CreateOrder(id, order, lines)) && id !in db.orders
    ensures Consistent(Exec(db, CreateOrder(id, order, lines)))
  {
    var after := Exec(db, CreateOrder(id, order, lines));
    forall o | o in after.orders ensures OrderStory(after, o) && Quantities(LinesOf(after, o)) {
      assert PaymentsOf(after, o) == PaymentsOf(db, o);
      if o == id {
        forall p ensures p !in PaymentsOf(after, id) {}
      } else {
        StoryUnmoved(db, after, o);
        assert LinesOf(after, o) == LinesOf(db, o);
      }
    }
    forall p | p in after.payments && after.payments[p].status == PaymentCompleted
      ensures AllListed(after.stock, LinesOf(after, after.payments[p].orderId))
    {
      assert LinesOf(after, after.payments[p].orderId) == LinesOf(db, db.payments[p].orderId);
    }
  }

  /** The tables after a payment, given the stock it left. */
  function Paid(db: Database, userId: int, orderId: int, paymentId: int, stock: map<int, int>): Database
    requires orderId in db.orders
  {
    var order := db.orders[orderId];
    var left := BalanceOf(db, userId) - order.finalAmount;
    Database(
      db.users,
      db.orders[orderId := order.(status := OrderPaid)],
      db.items,
      stock,
      db.balances[userId := left],
      db.history + [HistoryRow(userId, UseRow, order.finalAmount, left)],
      db.payments[paymentId := Payment(orderId, userId, order.finalAmount, PaymentCompleted)])
  }

  /** The tables after a cancellation, given the stock it left. */
  function Cancelled(db: Database, userId: int, paymentId: int, stock: map<int, int>): Database
    requires paymentId in db.payments && db.payments[paymentId].orderId in db.orders
  {
    var payment := db.payments[paymentId];
    var back := BalanceOf(db, userId) + payment.amount;
    Database(
      db.users,
      db.orders[payment.orderId := db.orders[payment.orderId].(status := OrderCancelled)],
      db.items,
      stock,
      db.balances[userId := back],
      db.history + [HistoryRow(userId, RefundRow, payment.amount, back)],
      db.payments[paymentId := payment.(status := PaymentCancelled)])
  }

  /** Everything a successful payment did, row by row. */
  lemma PayEffect(db: Database, userId: int, orderId: int, paymentId: int)
    requires PayTx(db, userId, orderId, paymentId).Success?
    requires orderId in db.orders ==> Quantities(LinesOf(db, orderId))
    ensures orderId in db.orders && db.orders[orderId].userId == userId
    ensures db.orders[orderId].status !in {OrderPaid, OrderCancelled}
    ensures Enough(db.stock, LinesOf(db, orderId))
    ensures userId in db.balances && db.balances[userId] >= db.orders[orderId].finalAmount
    ensures paymentId !in db.payments
    ensures var after := PayTx(db, userId, orderId, paymentId).value;
            && Less(db.stock, after.stock, LinesOf(db, orderId))
            && after == Paid(db, userId, orderId, paymentId, after.stock)
  {
    ReserveExactly(db.stock, LinesOf(db, orderId));
  }

  /** Everything a successful cancellation did, row by row. */
  lemma CancelEffect(db: Database, userId: int, paymentId: int)
    requires CancelTx(db, userId, paymentId).Success?
    ensures paymentId in db.payments && db.payments[paymentId].userId == userId
    ensures db.payments[paymentId].status == PaymentCompleted
    ensures userId in db.users && db.payments[paymentId].orderId in db.orders
    ensures var after := CancelTx(db, userId, paymentId).value;
            && AllListed(db.stock, LinesOf(db, db.payments[paymentId].orderId))
            && Less(after.stock, db.stock, LinesOf(db, db.payments[paymentId].orderId))
            && after == Cancelled(db, userId, paymentId, after.stock)
  {
    ReturnExactly(db.stock, LinesOf(db, db.payments[paymentId].orderId));
  }

  lemma ConsistentPay(db: Database, userId: int, orderId: int, paymentId: int)
    requires Consistent(db) && PayTx(db, userId, orderId, paymentId).Success?
    ensures Consistent(PayTx(db, userId, orderId, paymentId).value)
  {
    PayEffect(db, userId, orderId, paymentId);
    var after := PayTx(db, userId, orderId, paymentId).value;
    assert OrderStory(db, orderId);
    forall o | o in after.orders ensures OrderStory(after, o) {
      if o == orderId {
        assert PaymentsOf(db, o) == {};
        assert PaymentsOf(after, o) == {paymentId};
      } else {
        assert PaymentsOf(after, o) == PaymentsOf(db, o);
        StoryUnmoved(db, after, o);
      }
    }
    forall v | v in after.stock ensures after.stock[v] >= 0 {
      NeededNonNegative(LinesOf(db, orderId), v);
    }
  }

  lemma ConsistentCancel(db: Database, userId: int, paymentId: int)
    requires Consistent(db) && CancelTx(db, userId, paymentId).Success?
    ensures Consistent(CancelTx(db, userId, paymentId).value)
  {
    CancelEffect(db, userId, paymentId);
    var after := CancelTx(db, userId, paymentId).value;
    var orderId := db.payments[paymentId].orderId;
    assert OrderStory(db, orderId);
    assert paymentId in PaymentsOf(db, orderId);
    forall o | o in after.orders ensures OrderStory(after, o) {
      assert PaymentsOf(after, o) == PaymentsOf(db, o);
      if o != orderId {
        StoryUnmoved(db, after, o);
      }
    }
    forall v | v in after.stock ensures after.stock[v] >= 0 {
      NeededNonNegative(LinesOf(db, orderId), v);
    }
  }

  /** The status machine of orders and payments, and no balance or stock below zero, in every run. */
  lemma {:induction false} EveryRunConsistent(db: Database, ops: seq<Operation>)
    requires Consistent(db) && AllLegal(ops)
    ensures Consistent(Run(db, ops))
  {
    if ops != [] {
      EveryRunConsistent(db, ops[..|ops| - 1]);
      ConsistentExec(Run(db, ops[..|ops| - 1]), ops[|ops| - 1]);
    }
  }

  // ---- Conservation --------------------------------------------------------------------------

  /** What one payment holds of a user's money and of a variant's units while it stands completed. */
  ghost function Hold(db: Database, payment: Payment, userId: int, variantId: int): Tally.Tally {
    if payment.status != PaymentCompleted then Tally.ZERO
    else Tally.Tally(if payment.userId == userId then payment.amount else 0.0,
                     Needed(LinesOf(db, payment.orderId), variantId))
  }

  ghost function Holds(db: Database, userId: int, variantId: int): map<int, Tally.Tally> {
    map p | p in db.payments :: Hold(db, db.payments[p], userId, variantId)
  }

  ghost function Held(db: Database, userId: int, variantId: int): Tally.Tally {
    Tally.Sum(Holds(db, userId, variantId))
  }

  /** A user's money wherever it is: in the balance or in completed payments; likewise a variant's units. */
  ghost function Worth(db: Database, userId: int, variantId: int): Tally.Tally {
    var held := Held(db, userId, variantId);
    Tally.Tally(BalanceOf(db, userId) + held.money, StockOf(db, variantId) + held.units)
  }

  /** Money a user brought in or took out from outside, over the operations of a run that succeeded. */
  ghost function NetFlow(db: Database, ops: seq<Operation>, userId: int): Money {
    if ops == [] then 0.0
    else NetFlow(db, ops[..|ops| - 1], userId)
         + FlowOf(Run(db, ops[..|ops| - 1]), ops[|ops| - 1], userId)
  }

  lemma {:induction false} PayConserves(db: Database, userId: int, orderId: int, paymentId: int, stock: map<int, int>,
                                       u: int, v: int)
    requires orderId in db.orders && paymentId !in db.payments
    requires AllListed(db.stock, LinesOf(db, orderId))
    requires Less(db.stock, stock, LinesOf(db, orderId))
    ensures Worth(Paid(db, userId, orderId, paymentId, stock), u, v) == Worth(db, u, v)
  {
    var after := Paid(db, userId, orderId, paymentId, stock);
    HoldsAfterWrite(db, after, paymentId, u, v);
    var units := Needed(LinesOf(db, orderId), v);
    assert StockOf(after, v) == StockOf(db, v) - units by {
      if v !in db.stock { UnlistedNotNeeded(db.stock, LinesOf(db, orderId), v); }
    }
    assert Hold(after, after.payments[paymentId], u, v)
           == Tally.Tally(if userId == u then db.orders[orderId].finalAmount else 0.0, units);
  }

  lemma {:induction false} CancelConserves(db: Database, userId: int, paymentId: int, stock: map<int, int>,
                                       u: int, v: int)
    requires paymentId in db.payments && db.payments[paymentId].orderId in db.orders
    requires db.payments[paymentId].status == PaymentCompleted && db.payments[paymentId].userId == userId
    requires AllListed(db.stock, LinesOf(db, db.payments[paymentId].orderId))
    requires Less(stock, db.stock, LinesOf(db, db.payments[paymentId].orderId))
    ensures Worth(Cancelled(db, userId, paymentId, stock), u, v) == Worth(db, u, v)
  {
    var after := Cancelled(db, userId, paymentId, stock);
    HoldsAfterWrite(db, after, paymentId, u, v);
    if v !in db.stock { UnlistedNotNeeded(db.stock, LinesOf(db, db.payments[paymentId].orderId), v); }
  }

  /** Writing one payment row moves what is held by the difference at that row. */
  lemma HoldsAfterWrite(db: Database, after: Database, paymentId: int, u: int, v: int)
    requires paymentId in after.payments && after.items == db.items
    requires after.payments == db.payments[paymentId := after.payments[paymentId]]
    ensures var now := Hold(after, after.payments[paymentId], u, v);
            var before := if paymentId in db.payments then Hold(db, db.payments[paymentId], u, v) else Tally.ZERO;
            && Held(after, u, v).money == Held(db, u, v).money + now.money - before.money
            && Held(after, u, v).units == Held(db, u, v).units + now.units - before.units
  {
    var now := Hold(after, after.payments[paymentId], u, v);
    forall p | p in after.payments
      ensures Holds(after, u, v)[p] == Holds(db, u, v)[paymentId := now][p]
    {
      assert LinesOf(after, after.payments[p].orderId) == LinesOf(db, after.payments[p].orderId);
    }
    assert Holds(after, u, v) == Holds(db, u, v)[paymentId := now];
    Tally.SumUpdate(Holds(db, u, v), paymentId, now);
  }

  lemma {:induction false} UnlistedNotNeeded(stock: map<int, int>, lines: seq<Line>, v: int)
    requires AllListed(stock, lines) && v !in stock
    ensures Needed(lines, v) == 0
  {
    if lines != [] {
      assert forall i | 0 <= i < |lines[1..]| :: lines[1..][i] == lines[i + 1];
      UnlistedNotNeeded(stock, lines[1..], v);
    }
  }

  /** Operations that touch neither payments nor existing lines leave every hold alone. */
  lemma HoldsUnmoved(db: Database, after: Database, u: int, v: int)
    requires after.payments == db.payments
    requires forall p | p in db.payments ::
               LinesOf(after, db.payments[p].orderId) == LinesOf(db, db.payments[p].orderId)
    ensures Held(after, u, v) == Held(db, u, v)
  {
    forall p | p in db.payments ensures Holds(after, u, v)[p] == Holds(db, u, v)[p] {
      assert LinesOf(after, db.payments[p].orderId) == LinesOf(db, db.payments[p].orderId);
    }
    assert Holds(after, u, v) == Holds(db, u, v);
  }

  ghost function FlowOf(db: Database, op: Operation, userId: int): Money {
    if Apply(db, op).Failure? then 0.0
    else match op
         case ChargeBalance(u, amount) => if u == userId then amount else 0.0
         case DeductBalance(u, amount) => if u == userId then -amount else 0.0
         case _ => 0.0
  }

  lemma {:induction false} ExecConserves(db: Database, op: Operation, u: int, v: int)
    requires Consistent(db)
    ensures Worth(Exec(db, op), u, v).units == Worth(db, u, v).units
    ensures Worth(Exec(db, op), u, v).money == Worth(db, u, v).money + FlowOf(db, op, u)
  {
    var after := Exec(db, op);
    if Apply(db, op).Success? {
      match op
      case CreateOrder(id, _, _) => HoldsUnmoved(db, after, u, v);
      case ChargeBalance(_, _) => HoldsUnmoved(db, after, u, v);
      case DeductBalance(_, _) => HoldsUnmoved(db, after, u, v);
      case Pay(userId, orderId, paymentId) =>
        PayEffect(db, userId, orderId, paymentId);
        PayConserves(db, userId, orderId, paymentId, after.stock, u, v);
      case Cancel(userId, paymentId) =>
        CancelEffect(db, userId, paymentId);
        CancelConserves(db, userId, paymentId, after.stock, u, v);
    }
  }

  /** Money and units are neither made nor lost: over any run only outside charges and deductions move a worth. */
  lemma {:induction false} EveryRunConserves(db: Database, ops: seq<Operation>, u: int, v: int)
    requires Consistent(db) && AllLegal(ops)
    ensures Worth(Run(db, ops), u, v).units == Worth(db, u, v).units
    ensures Worth(Run(db, ops), u, v).money == Worth(db, u, v).money + NetFlow(db, ops, u)
  {
    if ops != [] {
      EveryRunConserves(db, ops[..|ops| - 1], u, v);
      EveryRunConsistent(db, ops[..|ops| - 1]);
      ExecConserves(Run(db, ops[..|ops| - 1]), ops[|ops| - 1], u, v);
    }
  }

  // ---- The audit log ---------------------------------------------------------------------------

  /** The rows a run appended. */
  ghost function NewRows(db: Database, after: Database): seq<HistoryRow> {
    if |db.history| <= |after.history| then after.history[|db.history|..] else []
  }

  /** The log only grows; replaying the new rows explains every `afterBalance` and ends at the current balance. */
  lemma {:induction false} EveryRunAudited(db: Database, ops: seq<Operation>, u: int)
    ensures db.history <= Run(db, ops).history
    ensures Audited(BalanceOf(db, u), NewRows(db, Run(db, ops)), u)
    ensures Replay(BalanceOf(db, u), NewRows(db, Run(db, ops)), u) == BalanceOf(Run(db, ops), u)
  {
    if ops != [] {
      EveryRunAudited(db, ops[..|ops| - 1], u);
      var mid, end := Run(db, ops[..|ops| - 1]), Run(db, ops);
      OneRowAtMost(mid, ops[|ops| - 1], u);
      OneRowAudited(db, mid, end, u);
    }
  }

  /** What one operation at most adds to the log keeps it replayable. */
  lemma OneRowAudited(db: Database, mid: Database, end: Database, u: int)
    requires db.history <= mid.history && LogsWhatMoved(mid, end, u)
    requires Audited(BalanceOf(db, u), NewRows(db, mid), u)
    requires Replay(BalanceOf(db, u), NewRows(db, mid), u) == BalanceOf(mid, u)
    ensures db.history <= end.history
    ensures Audited(BalanceOf(db, u), NewRows(db, end), u)
    ensures Replay(BalanceOf(db, u), NewRows(db, end), u) == BalanceOf(end, u)
  {
    if end.history != mid.history {
      var row := end.history[|end.history| - 1];
      assert NewRows(db, end) == NewRows(db, mid) + [row];
      AuditedAppend(BalanceOf(db, u), NewRows(db, mid), row, u);
    }
  }

  /** Either balances and log are as before, or the log has one row more, for the one balance that moved. */
  ghost predicate LogsWhatMoved(db: Database, after: Database, u: int) {
    || (after.history == db.history && after.balances == db.balances)
    || (after.history != []
        && after.history == db.history + [after.history[|after.history| - 1]]
        && var row := after.history[|after.history| - 1];
           && (row.userId == u ==> row.afterBalance == BalanceOf(after, u) == BalanceOf(db, u) + Signed(row))
           && (row.userId != u ==> BalanceOf(after, u) == BalanceOf(db, u)))
  }

  /** An operation either leaves balances and log alone, or logs the one balance it moved. */
  lemma OneRowAtMost(db: Database, op: Operation, u: int)
    ensures LogsWhatMoved(db, Exec(db, op), u)
  {
    var after := Exec(db, op);
    if after.history != db.history {
      assert exists row: HistoryRow :: after.history == db.history + [row] by {
        match op
        case ChargeBalance(userId, amount) =>
          assert after == Charge(db, userId, amount).value;
        case DeductBalance(userId, amount) =>
          assert after == Deduct(db, userId, amount).value;
        case Pay(userId, orderId, paymentId) =>
        case Cancel(userId, paymentId) =>
      }
    }
  }

  // ---- Payments never come back ---------------------------------------------------------------------

  /** Between two states a payment row keeps everything but its status, and a cancelled one stays as it is. */
  ghost predicate OnlyForward(before: map<int, Payment>, after: map<int, Payment>) {
    forall p | p in before ::
      && p in after
      && after[p] == before[p].(status := after[p].status)
      && (before[p].status == PaymentCancelled ==> after[p] == before[p])
  }

  lemma ExecOnlyForward(db: Database, op: Operation)
    ensures OnlyForward(db.payments, Exec(db, op).payments)
  {
    if Apply(db, op).Success? {
      match op
      case CreateOrder(_, _, _) =>
      case ChargeBalance(_, _) =>
      case DeductBalance(_, _) =>
      case Pay(userId, orderId, paymentId) =>
      case Cancel(userId, paymentId) =>
    }
  }

  lemma {:induction false} EveryRunOnlyForward(db: Database, ops: seq<Operation>)
    ensures OnlyForward(db.payments, Run(db, ops).payments)
  {
    if ops != [] {
      EveryRunOnlyForward(db, ops[..|ops| - 1]);
      ExecOnlyForward(Run(db, ops[..|ops| - 1]), ops[|ops| - 1]);
    }
  }

  // ---- Cancelling undoes paying ----------------------------------------------------------------------

  /** A completed payment stays completed as long as its owner does not cancel it. */
  lemma {:induction false} StandsUntilOwnerCancels(db: Database, ops: seq<Operation>, paymentId: int)
    requires paymentId in db.payments && db.payments[paymentId].status == PaymentCompleted
    requires forall i | 0 <= i < |ops| :: ops[i] != Cancel(db.payments[paymentId].userId, paymentId)
    ensures paymentId in Run(db, ops).payments && Run(db, ops).payments[paymentId] == db.payments[paymentId]
  {
    if ops != [] {
      var before, last := ops[..|ops| - 1], ops[|ops| - 1];
      StandsUntilOwnerCancels(db, before, paymentId);
      assert last == ops[|ops| - 1] && last != Cancel(db.payments[paymentId].userId, paymentId);
      ExecOnlyForward(Run(db, before), last);
    }
  }

  /** Orders keep their lines once created, and variants and users are never dropped. */
  lemma {:induction false} RunKeeps(db: Database, ops: seq<Operation>, orderId: int)
    requires orderId in db.orders
    ensures orderId in Run(db, ops).orders && LinesOf(Run(db, ops), orderId) == LinesOf(db, orderId)
    ensures Run(db, ops).users == db.users && Run(db, ops).stock.Keys == db.stock.Keys
  {
    if ops != [] {
      RunKeeps(db, ops[..|ops| - 1], orderId);
      ExecKeeps(Run(db, ops[..|ops| - 1]), ops[|ops| - 1], orderId);
    }
  }

  lemma {:induction false} ExecKeeps(db: Database, op: Operation, orderId: int)
    requires orderId in db.orders
    ensures orderId in Exec(db, op).orders && LinesOf(Exec(db, op), orderId) == LinesOf(db, orderId)
    ensures Exec(db, op).users == db.users && Exec(db, op).stock.Keys == db.stock.Keys
  {
    if Apply(db, op).Success? {
      match op
      case Pay(userId, o, paymentId) => ReserveKeys(db.stock, LinesOf(db, o));
      case Cancel(userId, paymentId) =>
        ReturnExactly(db.stock, LinesOf(db, db.payments[paymentId].orderId));
      case _ =>
    }
  }

  lemma {:induction false} ReserveKeys(stock: map<int, int>, lines: seq<Line>)
    ensures Reserve(stock, lines).Success? ==> Reserve(stock, lines).value.Keys == stock.Keys
  {
    if lines != [] && lines[0].variantId in stock {
      ReserveKeys(stock[lines[0].variantId := stock[lines[0].variantId] - lines[0].quantity], lines[1..]);
    }
  }

  /** A completed payment can be cancelled by its owner. */
  lemma OwnerCanCancel(db: Database, paymentId: int)
    requires Consistent(db)
    requires paymentId in db.payments && db.payments[paymentId].status == PaymentCompleted
    requires db.payments[paymentId].userId in db.users
    ensures Apply(db, Cancel(db.payments[paymentId].userId, paymentId)).Success?
  {
    var orderId := db.payments[paymentId].orderId;
    ReturnExactly(db.stock, LinesOf(db, orderId));
    assert AllListed(db.stock, LinesOf(db, orderId));
  }

  /**
   * After a payment and whatever run follows that does not already hold the owner's cancellation, the
   * owner's cancellation succeeds, and it moves every variant and the owner's balance by exactly what
   * the payment moved them, the other way.
   */
  lemma {:induction false} CancelUndoesPay(
    db: Database, userId: int, orderId: int, paymentId: int, ops: seq<Operation>, v: int)
    requires Consistent(db) && AllLegal(ops)
    requires Apply(db, Pay(userId, orderId, paymentId)).Success?
    requires forall i | 0 <= i < |ops| :: ops[i] != Cancel(userId, paymentId)
    ensures var paid := Exec(db, Pay(userId, orderId, paymentId));
            var later := Run(paid, ops);
            var cancelled := Exec(later, Cancel(userId, paymentId));
            && Apply(later, Cancel(userId, paymentId)).Success?
            && StockOf(cancelled, v) - StockOf(later, v) == StockOf(db, v) - StockOf(paid, v)
            && BalanceOf(cancelled, userId) - BalanceOf(later, userId)
               == BalanceOf(db, userId) - BalanceOf(paid, userId)
  {
    PayEffect(db, userId, orderId, paymentId);
    var paid := Exec(db, Pay(userId, orderId, paymentId));
    assert paid == Paid(db, userId, orderId, paymentId, paid.stock);
    ConsistentExec(db, Pay(userId, orderId, paymentId));
    CancelUndoesPaid(paid, userId, orderId, paymentId, ops, v);
    if v !in db.stock { UnlistedNotNeeded(db.stock, LinesOf(db, orderId), v); }
  }

  lemma {:induction false} CancelUndoesPaid(
    paid: Database, userId: int, orderId: int, paymentId: int, ops: seq<Operation>, v: int)
    requires Consistent(paid) && AllLegal(ops)
    requires orderId in paid.orders && userId in paid.users && paymentId in paid.payments
    requires paid.payments[paymentId] == Payment(orderId, userId, paid.orders[orderId].finalAmount, PaymentCompleted)
    requires forall i | 0 <= i < |ops| :: ops[i] != Cancel(userId, paymentId)
    ensures var later := Run(paid, ops);
            var cancelled := Exec(later, Cancel(userId, paymentId));
            && Apply(later, Cancel(userId, paymentId)).Success?
            && (v in later.stock <==> v in paid.stock)
            && StockOf(cancelled, v)
               == StockOf(later, v) + (if v in paid.stock then Needed(LinesOf(paid, orderId), v) else 0)
            && BalanceOf(cancelled, userId) == BalanceOf(later, userId) + paid.orders[orderId].finalAmount
  {
    var later := Run(paid, ops);
    EveryRunConsistent(paid, ops);
    StandsUntilOwnerCancels(paid, ops, paymentId);
    RunKeeps(paid, ops, orderId);
    OwnerCanCancel(later, paymentId);
    CancelEffect(later, userId, paymentId);
  }

  /** With nothing in between, stock and balances are back to what they were before the payment. */
  lemma {:induction false} PayThenCancelRestores(db: Database, userId: int, orderId: int, paymentId: int)
    requires Consistent(db)
    requires Apply(db, Pay(userId, orderId, paymentId)).Success?
    ensures var after := Exec(Exec(db, Pay(userId, orderId, paymentId)), Cancel(userId, paymentId));
            after.stock == db.stock && after.balances == db.balances
  {
    var paid := Exec(db, Pay(userId, orderId, paymentId));
    PayEffect(db, userId, orderId, paymentId);
    ConsistentExec(db, Pay(userId, orderId, paymentId));
    OwnerCanCancel(paid, paymentId);
    CancelEffect(paid, userId, paymentId);
    var after := Exec(paid, Cancel(userId, paymentId));
    SameStock(db.stock, paid.stock, after.stock, LinesOf(db, orderId));
    assert after.balances == db.balances;
  }

  lemma SameStock(before: map<int, int>, low: map<int, int>, after: map<int, int>, lines: seq<Line>)
    requires Less(before, low, lines) && Less(after, low, lines)
    ensures after == before
  {
    forall v | v in before ensures v in after && after[v] == before[v] {
      assert v in low;
    }
    assert after.Keys == before.Keys;
  }
}
