/**
 * One client of processPayment or cancelPayment, one repository call at a time: one statement of the
 * transaction, or one call of the balance repository with all its statements. Its transaction reads committed
 * rows overlaid with its own writes and remembers what it read; the serializable isolation
 * level is the rule that it commits only while all of that is still so. The payment a cancellation reads
 * is not among it: that read goes through `this.prisma`, outside the transaction.
 */
module PaymentClient {
  import opened Wrappers
  import opened Store
  import opened BalanceRepository
  import opened PaymentTx

  datatype Request = PayRequest(userId: int, orderId: int) | CancelRequest(userId: int, paymentId: int)

  datatype Phase =
    | WaitOuter                 // acquiring order: or payment:
    | First                     // reading the order, or the payment, and validating
    | FetchLines
    | WaitLine(index: nat)      // acquiring product: for a line
    | CheckLine(index: nat)
    | UpdateLine(index: nat)
    | LeaveLine(index: nat)     // finally: releasing product:
    | WaitBalance
    | MoveBalance
    | LeaveBalance
    | WritePayment
    | WriteOrder
    | Commit
    | Unwind(key: LockKey)      // an exception passes the inner finally
    | Closing(committed: bool)  // outer finally: releasing order: or payment:
    | Finished(committed: bool)

  /** What a read through the transaction saw. */
  datatype Fact =
    | OrderIs(orderId: int, order: Order)
    | OrderPresent(orderId: int)
    | LinesAre(orderId: int, rows: multiset<Line>)
    | StockIs(variantId: int, quantity: int)
    | BalanceIs(userId: int, balance: Option<Money>)
    | UserPresent(userId: int)

  /** Rows written and not yet committed. */
  datatype Writes = Writes(
    orders: map<int, OrderStatus>,
    stock: map<int, int>,
    balances: map<int, Money>,
    history: seq<HistoryRow>,
    payments: map<int, Payment>,
    statuses: map<int, PaymentStatus>)

  const NO_WRITES := Writes(map[], map[], map[], [], map[], map[])

  datatype Client = Client(
    request: Request,
    phase: Phase,
    orderId: int,
    amount: Money,
    lines: seq<Line>,
    readPayment: Option<Payment>,
    paymentId: int,
    seen: set<Fact>,
    writes: Writes)

  function NewClient(request: Request): Client {
    Client(request, WaitOuter, 0, 0.0, [], None, if request.CancelRequest? then request.paymentId else 0,
           {}, NO_WRITES)
  }

  // ---- Reading through the transaction ----------------------------------------------------------

  ghost predicate HoldsIn(db: Database, fact: Fact) {
    match fact
    case OrderIs(o, order) => o in db.orders && db.orders[o] == order
    case OrderPresent(o) => o in db.orders
    case LinesAre(o, rows) => multiset(LinesOf(db, o)) == rows
    case StockIs(v, quantity) => v in db.stock && db.stock[v] == quantity
    case BalanceIs(u, balance) => Lookup(db.balances, u) == balance
    case UserPresent(u) => u in db.users
  }

  function Lookup<V>(rows: map<int, V>, key: int): Option<V> {
    if key in rows then Some(rows[key]) else None
  }

  /** Committed rows with the transaction's own writes on top. */
  function View(db: Database, w: Writes): Database {
    Database(
      db.users,
      map o | o in db.orders :: if o in w.orders then db.orders[o].(status := w.orders[o]) else db.orders[o],
      db.items,
      db.stock + w.stock,
      db.balances + w.balances,
      db.history + w.history,
      map p | p in db.payments.Keys + w.payments.Keys ::
        var row := if p in w.payments then w.payments[p] else db.payments[p];
        if p in w.statuses then row.(status := w.statuses[p]) else row)
  }

  /** A row of one's own is no read of the committed one. */
  function StockRead(db: Database, w: Writes, v: int): set<Fact>
    requires v in View(db, w).stock
  {
    if v in w.stock then {} else {StockIs(v, db.stock[v])}
  }

  // ---- One call ------------------------------------------------------------------------------------

  predicate Paying(l: Client) {
    l.request.PayRequest?
  }

  predicate Working(phase: Phase) {
    phase.First? || phase.FetchLines? || phase.CheckLine? || phase.UpdateLine? || phase.MoveBalance?
    || phase.WritePayment? || phase.WriteOrder?
  }

  function NextLine(lines: seq<Line>, index: nat): Phase {
    if index < |lines| then WaitLine(index) else WaitBalance
  }

  /** Line numbers stay within the lines read. */
  predicate InRange(l: Client) {
    match l.phase
    case WaitLine(k) => k < |l.lines|
    case CheckLine(k) => k < |l.lines|
    case UpdateLine(k) => k < |l.lines|
    case LeaveLine(k) => k < |l.lines|
    case _ => true
  }

  /** `findUnique` on the order, through the transaction, and the checks on it. */
  function ReadOrder(db: Database, l: Client): Result<Client, Error>
    requires Paying(l)
  {
    var view, o := View(db, l.writes), l.request.orderId;
    if o !in view.orders then Failure(OrderNotFound)
    else if view.orders[o].userId != l.request.userId then Failure(Unauthorized)
    else if view.orders[o].status == OrderPaid then Failure(AlreadyPaid)
    else if view.orders[o].status == OrderCancelled then Failure(OrderIsCancelled)
    else Success(l.(phase := FetchLines, orderId := o, amount := view.orders[o].finalAmount,
                    seen := l.seen + {OrderIs(o, view.orders[o])}))
  }

  /** `findPaymentWithOrderById` on the committed tables, leaving no trace in what the transaction read. */
  function ReadPayment(db: Database, l: Client): Result<Client, Error>
    requires !Paying(l)
  {
    var p := l.request.paymentId;
    if p !in db.payments then Failure(PaymentNotFound)
    else if db.payments[p].userId != l.request.userId then Failure(Unauthorized)
    else if db.payments[p].status != PaymentCompleted then Failure(NotCompleted)
    else Success(l.(phase := FetchLines, orderId := db.payments[p].orderId, amount := db.payments[p].amount,
                    readPayment := Some(db.payments[p])))
  }

  function ReadLines(l: Client, found: seq<Line>): Client {
    l.(phase := NextLine(found, 0), lines := found, seen := l.seen + {LinesAre(l.orderId, multiset(found))})
  }

  function CheckOne(db: Database, l: Client, k: nat): Result<Client, Error>
    requires k < |l.lines|
  {
    var stock, item := View(db, l.writes).stock, l.lines[k];
    if item.variantId !in stock || stock[item.variantId] < item.quantity then
      Failure(InsufficientStock(item.variantId))
    else
      Success(l.(phase := UpdateLine(k), seen := l.seen + StockRead(db, l.writes, item.variantId)))
  }

  function UpdateOne(db: Database, l: Client, k: nat): Result<Client, Error>
    requires k < |l.lines|
  {
    var stock, v := View(db, l.writes).stock, l.lines[k].variantId;
    if v !in stock then Failure(VariantNotFound)
    else Success(l.(phase := LeaveLine(k), seen := l.seen + StockRead(db, l.writes, v),
                    writes := l.writes.(stock := l.writes.stock[v := Moved(l, stock[v], l.lines[k])])))
  }

  function MoveOne(db: Database, l: Client): Result<Client, Error> {
    var u := l.request.userId;
    var moved := MoveMoney(View(db, l.writes), l);
    if moved.Failure? then Failure(moved.error)
    else
      var rows := moved.value;
      Success(l.(phase := LeaveBalance,
                 seen := l.seen + (if Paying(l) then {} else {UserPresent(u)})
                         + (if u in l.writes.balances then {} else {BalanceIs(u, Lookup(db.balances, u))}),
                 writes := l.writes.(balances := l.writes.balances[u := rows.balances[u]],
                                     history := l.writes.history + [rows.history[|rows.history| - 1]])))
  }

  function MoveMoney(view: Database, l: Client): (r: Result<Database, Error>)
    ensures r.Success? ==> l.request.userId in r.value.balances && r.value.history != []
  {
    if Paying(l) then Deduct(view, l.request.userId, l.amount) else Charge(view, l.request.userId, l.amount)
  }

  function RecordPayment(db: Database, l: Client, freshId: int): Result<Client, Error> {
    var view := View(db, l.writes);
    match l.request
    case PayRequest(u, _) =>
      if freshId in view.payments then Failure(DuplicateKey)
      else
        var payment := Payment(l.orderId, u, l.amount, PaymentCompleted);
        Success(l.(phase := WriteOrder, paymentId := freshId,
                   writes := l.writes.(payments := l.writes.payments[freshId := payment])))
    case CancelRequest(_, p) =>
      if p !in view.payments then Failure(PaymentNotFound)
      else Success(l.(phase := WriteOrder,
                      writes := l.writes.(statuses := l.writes.statuses[p := PaymentCancelled])))
  }

  function RecordOrder(db: Database, l: Client): Result<Client, Error> {
    if l.orderId !in View(db, l.writes).orders then Failure(OrderNotFound)
    else Success(l.(phase := Commit, seen := l.seen + {OrderPresent(l.orderId)},
                    writes := l.writes.(orders := l.writes.orders[l.orderId := FinalStatus(l)])))
  }

  /**
   * The next statement of the transaction, run against the committed tables of this moment. `found` is
   * the order in which the database lists the order's lines, `freshId` the next auto-increment id.
   */
  function TxStep(db: Database, l: Client, found: seq<Line>, freshId: int): Result<Client, Error>
    requires Working(l.phase) && InRange(l)
  {
    match l.phase
    case First => if Paying(l) then ReadOrder(db, l) else ReadPayment(db, l)
    case FetchLines => Success(ReadLines(l, found))
    case CheckLine(k) => CheckOne(db, l, k)
    case UpdateLine(k) => UpdateOne(db, l, k)
    case MoveBalance => MoveOne(db, l)
    case WritePayment => RecordPayment(db, l, freshId)
    case WriteOrder => RecordOrder(db, l)
  }

  /** Where a call that does not throw leads. */
  function NextPhase(l: Client, found: seq<Line>): Phase {
    match l.phase
    case First => FetchLines
    case FetchLines => NextLine(found, 0)
    case CheckLine(k) => UpdateLine(k)
    case UpdateLine(k) => LeaveLine(k)
    case MoveBalance => LeaveBalance
    case WritePayment => WriteOrder
    case WriteOrder => Commit
    case other => other
  }

  function Moved(l: Client, stock: int, item: Line): int {
    if Paying(l) then stock - item.quantity else stock + item.quantity
  }

  function FinalStatus(l: Client): OrderStatus {
    if Paying(l) then OrderPaid else OrderCancelled
  }

  // ---- What is left to do ------------------------------------------------------------------------------

  predicate InTx(phase: Phase) {
    !(phase.WaitOuter? || phase.Unwind? || phase.Closing? || phase.Finished?)
  }

  /** The whole request as one transaction. */
  function Atomic(db: Database, request: Request, paymentId: int): Result<Database, Error> {
    match request
    case PayRequest(u, o) => PayTx(db, u, o, paymentId)
    case CancelRequest(u, p) => CancelTx(db, u, p)
  }

  function FinishLines(view: Database, l: Client, lines: seq<Line>, paymentId: int): Result<Database, Error> {
    if l.request.PayRequest? then PayLines(view, l.request.userId, l.orderId, l.amount, lines, paymentId)
    else CancelLines(view, l.request.userId, l.orderId, l.amount, lines, l.request.paymentId)
  }

  /** Finishing from the middle of a line. */
  function FinishUpdate(view: Database, l: Client, k: nat, paymentId: int): Result<Database, Error>
    requires k < |l.lines|
  {
    var v := l.lines[k].variantId;
    if v !in view.stock then Failure(VariantNotFound)
    else FinishLines(view.(stock := view.stock[v := Moved(l, view.stock[v], l.lines[k])]), l, l.lines[k + 1..],
                     paymentId)
  }

  /** The rest of the transaction from the client's phase on, run in one go on tables that do not change. */
  function Finish(db: Database, l: Client, paymentId: int): Result<Database, Error>
    requires InTx(l.phase) && InRange(l)
  {
    var view := View(db, l.writes);
    match l.phase
    case First => Atomic(view, l.request, paymentId)
    case FetchLines => FinishLines(view, l, LinesOf(view, l.orderId), paymentId)
    case WaitLine(k) => FinishLines(view, l, l.lines[k..], paymentId)
    case CheckLine(k) => FinishLines(view, l, l.lines[k..], paymentId)
    case UpdateLine(k) => FinishUpdate(view, l, k, paymentId)
    case LeaveLine(k) => FinishLines(view, l, l.lines[k + 1..], paymentId)
    case WaitBalance => FinishBalance(view, l, paymentId)
    case MoveBalance => FinishBalance(view, l, paymentId)
    case LeaveBalance => FinishRecord(view, l, paymentId)
    case WritePayment => FinishRecord(view, l, paymentId)
    case WriteOrder => SetOrderStatus(view, l.orderId, FinalStatus(l))
    case Commit => Success(view)
  }

  function FinishBalance(view: Database, l: Client, paymentId: int): Result<Database, Error> {
    if l.request.PayRequest? then PayBalance(view, l.request.userId, l.orderId, l.amount, paymentId)
    else CancelBalance(view, l.request.userId, l.orderId, l.amount, l.request.paymentId)
  }

  function FinishRecord(view: Database, l: Client, paymentId: int): Result<Database, Error> {
    if l.request.PayRequest? then PayRecord(view, l.request.userId, l.orderId, l.amount, paymentId)
    else CancelRecord(view, l.orderId, l.request.paymentId)
  }

  /** A payment id has been drawn from the counter and its row is not committed yet. */
  predicate Allocated(l: Client) {
    Paying(l) && (l.phase.WriteOrder? || l.phase.Commit?)
  }

  /** What the locks and the counter must keep true, because the transaction does not. */
  ghost predicate Guarded(db: Database, l: Client) {
    && (l.request.CancelRequest? && l.readPayment.Some? ==> Lookup(db.payments, l.request.paymentId) == l.readPayment)
    && (Allocated(l) ==> l.paymentId !in db.payments)
  }

  ghost predicate Agrees(db: Database, l: Client) {
    (forall f | f in l.seen :: HoldsIn(db, f)) && Guarded(db, l)
  }

  /** Bookkeeping of a client that depends on nobody else. */
  ghost predicate WellFormed(l: Client) {
    && InRange(l)
    && Quantities(l.lines)
    && (l.request.PayRequest? ==> l.readPayment.None? && l.writes.statuses == map[])
    && (l.phase.WaitOuter? || l.phase.First? ==> l.seen == {} && l.writes == NO_WRITES && l.readPayment.None?)
    && (l.request.CancelRequest? && InTx(l.phase) && !l.phase.First? ==> l.readPayment.Some?)
    && (l.phase.CheckLine? ==> Paying(l))
    && (l.phase.Unwind? ==> l.phase.key.ProductLock? || l.phase.key.BalanceLock?)
  }

  /**
   * On any tables that agree with what was read so far, the rest of the transaction has the effect of the
   * whole of it. At the end of the transaction this is serializability.
   */
  ghost predicate Coherent(l: Client)
    requires WellFormed(l)
  {
    InTx(l.phase) ==>
      forall db, paymentId |
        Agrees(db, l) && (Allocated(l) ==> paymentId == l.paymentId) ::
        SameEffect(Finish(db, l, paymentId), Atomic(db, l.request, paymentId))
  }
}
