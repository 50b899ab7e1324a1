/** The tables the payment code touches, as one value: a transaction maps a database to a database. */
module Store {

  /** Amounts are exact; the columns are decimals. */
  type Money = real

  datatype OrderStatus = OrderPending | OrderPaid | OrderShipping | OrderDelivered | OrderCancelled
  datatype PaymentStatus = PaymentPending | PaymentCompleted | PaymentCancelled
  datatype BalanceType = ChargeRow | UseRow | RefundRow

  datatype Order = Order(userId: int, finalAmount: Money, status: OrderStatus)

  /** One row of OrderItem, as far as stock is concerned. */
  datatype Line = Line(variantId: int, quantity: int)

  datatype Payment = Payment(orderId: int, userId: int, amount: Money, status: PaymentStatus)

  /** A BalanceHistory row; a balance row is identified by its unique `userId`. */
  datatype HistoryRow = HistoryRow(userId: int, kind: BalanceType, amount: Money, afterBalance: Money)

  datatype Database = Database(
    users: set<int>,
    orders: map<int, Order>,
    items: map<int, seq<Line>>,
    stock: map<int, int>,
    balances: map<int, Money>,
    history: seq<HistoryRow>,
    payments: map<int, Payment>)

  datatype Error =
    | OrderNotFound | PaymentNotFound | UserNotFound | BalanceNotFound | VariantNotFound
    | Unauthorized | AlreadyPaid | OrderIsCancelled | NotCompleted
    | InsufficientStock(variantId: int) | InsufficientBalance
    | DuplicateKey | Locked | Fault

  /** Redlock resources: `order:`, `payment:`, `product:`, `balance:` and `fcfs-coupon:` followed by an id. */
  datatype LockKey =
    | OrderLock(id: int) | PaymentLock(id: int) | ProductLock(id: int) | BalanceLock(id: int) | FcfsLock(id: int)

  /** `orderItem.findMany`: no rows is the empty list. */
  function LinesOf(db: Database, orderId: int): seq<Line> {
    if orderId in db.items then db.items[orderId] else []
  }

  /** A user without a balance row owns nothing. */
  function BalanceOf(db: Database, userId: int): Money {
    if userId in db.balances then db.balances[userId] else 0.0
  }

  function StockOf(db: Database, variantId: int): int {
    if variantId in db.stock then db.stock[variantId] else 0
  }

  /** Units of one variant over all lines that name it. */
  function Needed(lines: seq<Line>, variantId: int): int {
    if lines == [] then 0
    else (if lines[0].variantId == variantId then lines[0].quantity else 0) + Needed(lines[1..], variantId)
  }

  ghost predicate Quantities(lines: seq<Line>) {
    forall i | 0 <= i < |lines| :: lines[i].quantity >= 1
  }
}
