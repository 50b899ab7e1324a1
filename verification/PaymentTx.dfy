/**
 * The two payment transactions as functions on the database, in the order the code runs them
 * (payment.repository.prisma.ts). The tails (`PayLines`, `PayBalance`, ...) are what is left to do
 * from a given statement on.
 */
module PaymentTx {
  import opened Wrappers
  import opened Store
  import opened BalanceRepository

  // ---- processPayment ---------------------------------------------------------------------

  function PayTx(db: Database, userId: int, orderId: int, paymentId: int): Result<Database, Error> {
    if orderId !in db.orders then Failure(OrderNotFound)
    else
      var order := db.orders[orderId];
      if order.userId != userId then Failure(Unauthorized)
      else if order.status == OrderPaid then Failure(AlreadyPaid)
      else if order.status == OrderCancelled then Failure(OrderIsCancelled)
      else PayLines(db, userId, orderId, order.finalAmount, LinesOf(db, orderId), paymentId)
  }

  function PayLines(db: Database, userId: int, orderId: int, amount: Money, lines: seq<Line>, paymentId: int)
    : Result<Database, Error>
  {
    var stock :- Reserve(db.stock, lines);
    PayBalance(db.(stock := stock), userId, orderId, amount, paymentId)
  }

  function PayBalance(db: Database, userId: int, orderId: int, amount: Money, paymentId: int)
    : Result<Database, Error>
  {
    var deducted :- Deduct(db, userId, amount);
    PayRecord(deducted, userId, orderId, amount, paymentId)
  }

  /** `payment.create` with an id from the auto-increment counter, then the order status. */
  function PayRecord(db: Database, userId: int, orderId: int, amount: Money, paymentId: int)
    : Result<Database, Error>
  {
    if paymentId in db.payments then Failure(DuplicateKey)
    else SetOrderStatus(InsertPayment(db, paymentId, Payment(orderId, userId, amount, PaymentCompleted)),
                        orderId, OrderPaid)
  }

  /** The stock loop: each line is checked against what the lines before it left. */
  function Reserve(stock: map<int, int>, lines: seq<Line>): Result<map<int, int>, Error> {
    if lines == [] then Success(stock)
    else
      var item := lines[0];
      if item.variantId !in stock || stock[item.variantId] < item.quantity then
        Failure(InsufficientStock(item.variantId))
      else
        Reserve(stock[item.variantId := stock[item.variantId] - item.quantity], lines[1..])
  }

  // ---- cancelPayment ----------------------------------------------------------------------

  function CancelTx(db: Database, userId: int, paymentId: int): Result<Database, Error> {
    if paymentId !in db.payments then Failure(PaymentNotFound)
    else
      var payment := db.payments[paymentId];
      if payment.userId != userId then Failure(Unauthorized)
      else if payment.status != PaymentCompleted then Failure(NotCompleted)
      else CancelLines(db, userId, payment.orderId, payment.amount, LinesOf(db, payment.orderId), paymentId)
  }

  function CancelLines(db: Database, userId: int, orderId: int, amount: Money, lines: seq<Line>, paymentId: int)
    : Result<Database, Error>
  {
    var stock :- Return(db.stock, lines);
    CancelBalance(db.(stock := stock), userId, orderId, amount, paymentId)
  }

  function CancelBalance(db: Database, userId: int, orderId: int, amount: Money, paymentId: int)
    : Result<Database, Error>
  {
    var charged :- Charge(db, userId, amount);
    CancelRecord(charged, orderId, paymentId)
  }

  function CancelRecord(db: Database, orderId: int, paymentId: int): Result<Database, Error> {
    if paymentId !in db.payments then Failure(PaymentNotFound)
    else SetOrderStatus(SetPaymentStatus(db, paymentId, PaymentCancelled), orderId, OrderCancelled)
  }

  function Return(stock: map<int, int>, lines: seq<Line>): Result<map<int, int>, Error> {
    if lines == [] then Success(stock)
    else
      var item := lines[0];
      if item.variantId !in stock then Failure(VariantNotFound)
      else Return(stock[item.variantId := stock[item.variantId] + item.quantity], lines[1..])
  }

  // ---- Single-row writes --------------------------------------------------------------------

  function InsertPayment(db: Database, paymentId: int, payment: Payment): Database {
    db.(payments := db.payments[paymentId := payment])
  }

  function SetPaymentStatus(db: Database, paymentId: int, status: PaymentStatus): Database
    requires paymentId in db.payments
  {
    db.(payments := db.payments[paymentId := db.payments[paymentId].(status := status)])
  }

  /** `order.update` throws when the row is missing. */
  function SetOrderStatus(db: Database, orderId: int, status: OrderStatus): Result<Database, Error> {
    if orderId !in db.orders then Failure(OrderNotFound)
    else Success(db.(orders := db.orders[orderId := db.orders[orderId].(status := status)]))
  }
}
