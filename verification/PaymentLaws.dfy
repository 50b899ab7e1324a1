/**
 * What a charge, a deduction, a payment and a cancellation come to, told of the tables alone: when each goes
 * through, what it answers when it does not, and every row it writes (payment.repository.prisma.ts,
 * balance.repository.prisma.ts).
 */
module PaymentLaws {
  import opened Wrappers
  import opened Store
  import opened BalanceRepository
  import opened PaymentTx
  import opened StockLoop
  import opened SerialRuns

  // ---- Sums over lines --------------------------------------------------------------------------------------

  /** A line asks for its quantity of its own variant and for nothing else; lines together ask for the sum. */
  lemma {:induction false} NeededIsSum(a: seq<Line>, b: seq<Line>, item: Line, v: int)
    ensures Needed([item], v) == if item.variantId == v then item.quantity else 0
    ensures Needed(a + b, v) == Needed(a, v) + Needed(b, v)
  {
    assert [item][1..] == [];
    if a == [] {
      assert a + b == b;
    } else {
      NeededIsSum(a[1..], b, item, v);
      assert (a + b)[1..] == a[1..] + b;
    }
  }

  // ---- Balances -----------------------------------------------------------------------------------------------

  /** A deduction needs a row with at least the amount; a charge needs the user, and opens the row if there is none. */
  lemma BalanceLaws(db: Database, u: int, amount: Money)
    ensures Deduct(db, u, amount)
            == if u !in db.balances then Failure(BalanceNotFound)
               else if db.balances[u] < amount then Failure(InsufficientBalance)
               else Success(db.(balances := db.balances[u := db.balances[u] - amount],
                                history := db.history + [HistoryRow(u, UseRow, amount, db.balances[u] - amount)]))
    ensures u !in db.users ==> Charge(db, u, amount) == Failure(UserNotFound)
    ensures u in db.users && u in db.balances ==>
              Charge(db, u, amount)
              == Success(db.(balances := db.balances[u := db.balances[u] + amount],
                             history := db.history + [HistoryRow(u, RefundRow, amount, db.balances[u] + amount)]))
    ensures u in db.users && u !in db.balances && Charge(db, u, amount).Success? ==>
              Charge(db, u, amount).value.balances == db.balances[u := amount]
              && Charge(db, u, amount).value.history == db.history + [HistoryRow(u, RefundRow, amount, amount)]
    ensures Charge(db, u, amount).Success? <==> u in db.users
  {
  }

  // ---- Payments -----------------------------------------------------------------------------------------------

  /** The order's rows are those of the table. */
  lemma RowsOfOrder(db: Database, orderId: int)
    ensures orderId in db.items ==> LinesOf(db, orderId) == db.items[orderId]
    ensures orderId !in db.items ==> LinesOf(db, orderId) == []
  {
  }

  /** The line at which the stock loop stops: the first at which a variant is missing or asked for too much so far. */
  ghost predicate StopsAt(stock: map<int, int>, rows: seq<Line>, k: nat) {
    && k < |rows| && Enough(stock, rows[..k])
    && (rows[k].variantId !in stock || Needed(rows[..k + 1], rows[k].variantId) > stock[rows[k].variantId])
  }

  lemma {:induction false} LoopStops(stock: map<int, int>, rows: seq<Line>) returns (k: nat)
    requires Quantities(rows) && Reserve(stock, rows).Failure?
    ensures StopsAt(stock, rows, k) && Reserve(stock, rows).error == InsufficientStock(rows[k].variantId)
  {
    var item := rows[0];
    if item.variantId !in stock || stock[item.variantId] < item.quantity {
      k := 0;
      assert rows[..1] == [item] && rows[..0] == [];
      NeededIsSum([], [], item, item.variantId);
    } else {
      var left, rest := stock[item.variantId := stock[item.variantId] - item.quantity], rows[1..];
      var j := LoopStops(left, rest);
      k := j + 1;
      assert rows[..k] == [item] + rest[..j] && rows[..k + 1] == [item] + rest[..j + 1];
      NeededIsSum([item], rest[..j + 1], item, rows[k].variantId);
      ReserveExactly(left, rest[..j]);
      assert rows[..k][1..] == rest[..j];
      ReserveExactly(stock, rows[..k]);
    }
  }

  /** The answer of a payment that does not go through, in the order of the checks; nothing when it does. */
  ghost predicate PaymentAnswers(db: Database, u: int, o: int, p: int, rows: seq<Line>, answer: Option<Error>) {
    if o !in db.orders then answer == Some(OrderNotFound)
    else if db.orders[o].userId != u then answer == Some(Unauthorized)
    else if db.orders[o].status == OrderPaid then answer == Some(AlreadyPaid)
    else if db.orders[o].status == OrderCancelled then answer == Some(OrderIsCancelled)
    else if !Enough(db.stock, rows) then
      exists k | 0 <= k < |rows| :: StopsAt(db.stock, rows, k) && answer == Some(InsufficientStock(rows[k].variantId))
    else if u !in db.balances then answer == Some(BalanceNotFound)
    else if db.balances[u] < db.orders[o].finalAmount then answer == Some(InsufficientBalance)
    else if p in db.payments then answer == Some(DuplicateKey)
    else answer == None
  }

  function ErrorOf<T>(r: Result<T, Error>): Option<Error> {
    match r
    case Success(_) => None
    case Failure(error) => Some(error)
  }

  /** Exactly when a payment goes through, and with which error it does not; `rows` are the order's rows. */
  lemma PaymentGoesThrough(db: Database, u: int, o: int, p: int, rows: seq<Line>)
    requires rows == if o in db.items then db.items[o] else []
    requires Quantities(rows)
    ensures PaymentAnswers(db, u, o, p, rows, ErrorOf(PayTx(db, u, o, p)))
  {
    RowsOfOrder(db, o);
    ReserveExactly(db.stock, rows);
    if o in db.orders && Reserve(db.stock, rows).Failure? {
      var k := LoopStops(db.stock, rows);
    }
  }

  /** Every row a payment writes. */
  lemma PaymentWrites(db: Database, u: int, o: int, p: int, rows: seq<Line>)
    requires rows == if o in db.items then db.items[o] else []
    requires Quantities(rows) && PayTx(db, u, o, p).Success?
    ensures o in db.orders && u in db.balances
    ensures var after, order := PayTx(db, u, o, p).value, db.orders[o];
            var left := db.balances[u] - order.finalAmount;
            && after.users == db.users && after.items == db.items
            && after.orders == db.orders[o := Order(order.userId, order.finalAmount, OrderPaid)]
            && after.stock.Keys == db.stock.Keys
            && (forall v | v in db.stock :: after.stock[v] == db.stock[v] - Needed(rows, v))
            && after.balances == db.balances[u := left]
            && after.history == db.history + [HistoryRow(u, UseRow, order.finalAmount, left)]
            && after.payments == db.payments[p := Payment(o, u, order.finalAmount, PaymentCompleted)]
  {
    RowsOfOrder(db, o);
    PayEffect(db, u, o, p);
  }

  // ---- Cancellations ------------------------------------------------------------------------------------------

  ghost predicate CancellationAnswers(db: Database, u: int, p: int, rows: seq<Line>, answer: Option<Error>) {
    if p !in db.payments then answer == Some(PaymentNotFound)
    else if db.payments[p].userId != u then answer == Some(Unauthorized)
    else if db.payments[p].status != PaymentCompleted then answer == Some(NotCompleted)
    else if !AllListed(db.stock, rows) then answer == Some(VariantNotFound)
    else if u !in db.users then answer == Some(UserNotFound)
    else if db.payments[p].orderId !in db.orders then answer == Some(OrderNotFound)
    else answer == None
  }

  lemma {:induction false} ReturnError(stock: map<int, int>, rows: seq<Line>)
    ensures Return(stock, rows).Failure? ==> Return(stock, rows).error == VariantNotFound
  {
    if rows != [] && rows[0].variantId in stock {
      ReturnError(stock[rows[0].variantId := stock[rows[0].variantId] + rows[0].quantity], rows[1..]);
    }
  }

  /** Exactly when a cancellation goes through, and with which error it does not; `rows` are the paid order's rows. */
  lemma CancellationGoesThrough(db: Database, u: int, p: int, rows: seq<Line>)
    requires p in db.payments ==>
               rows == if db.payments[p].orderId in db.items then db.items[db.payments[p].orderId] else []
    ensures CancellationAnswers(db, u, p, rows, ErrorOf(CancelTx(db, u, p)))
  {
    if p in db.payments { RowsOfOrder(db, db.payments[p].orderId); }
    ReturnExactly(db.stock, rows);
    ReturnError(db.stock, rows);
  }

  /** Every row a cancellation writes. */
  lemma CancellationWrites(db: Database, u: int, p: int, rows: seq<Line>)
    requires CancelTx(db, u, p).Success? && p in db.payments
    requires rows == if db.payments[p].orderId in db.items then db.items[db.payments[p].orderId] else []
    ensures db.payments[p].orderId in db.orders
    ensures var after, payment := CancelTx(db, u, p).value, db.payments[p];
            var order := db.orders[payment.orderId];
            var refunded := (if u in db.balances then db.balances[u] else 0.0) + payment.amount;
            && after.users == db.users && after.items == db.items
            && after.orders == db.orders[payment.orderId := Order(order.userId, order.finalAmount, OrderCancelled)]
            && after.stock.Keys == db.stock.Keys
            && (forall v | v in db.stock :: after.stock[v] == db.stock[v] + Needed(rows, v))
            && after.balances == db.balances[u := refunded]
            && after.history == db.history + [HistoryRow(u, RefundRow, payment.amount, refunded)]
            && after.payments
               == db.payments[p := Payment(payment.orderId, payment.userId, payment.amount, PaymentCancelled)]
  {
    RowsOfOrder(db, db.payments[p].orderId);
    CancelEffect(db, u, p);
  }

  // ---- Operations, flows, stories, and the log --------------------------------------------------------------

  /** An order is created just when its id is new, as it is given and with the lines given. */
  lemma CreationWrites(db: Database, o: int, order: Order, lines: seq<Line>)
    ensures Apply(db, CreateOrder(o, order, lines))
            == if o in db.orders then Failure(DuplicateKey)
               else Success(db.(orders := db.orders[o := order], items := db.items[o := lines]))
  {
  }

  /** What flows in or out from outside: the amounts of charges and deductions that go through, nothing else. */
  lemma FlowLaw(db: Database, op: Operation, u: int)
    ensures FlowOf(db, op, u)
            == match op
               case ChargeBalance(v, amount) => if v == u && u in db.users then amount else 0.0
               case DeductBalance(v, amount) =>
                 if v == u && u in db.balances && db.balances[u] >= amount then -amount else 0.0
               case _ => 0.0
  {
  }

  /** The story of an order, payment by payment. */
  lemma StoryLaw(db: Database, o: int)
    requires o in db.orders
    ensures OrderStory(db, o) <==>
              match db.orders[o].status
              case OrderPending => forall p | p in db.payments :: db.payments[p].orderId != o
              case OrderPaid => OnePayment(db, o, PaymentCompleted)
              case OrderCancelled => OnePayment(db, o, PaymentCancelled)
              case _ => false
  {
    var status := if db.orders[o].status == OrderPaid then PaymentCompleted else PaymentCancelled;
    if OnePayment(db, o, status) {
      var p :| p in db.payments && Only(db, o, p, status);
      forall q | q in PaymentsOf(db, o) ensures q == p { assert db.payments[q].orderId == o; }
      assert p in PaymentsOf(db, o);
      assert PaymentsOf(db, o) == {p};
    }
    if SolePayment(db, o, status) {
      var p :| p in db.payments && PaymentsOf(db, o) == {p} && db.payments[p].status == status;
      forall q | q in db.payments && db.payments[q].orderId == o ensures q == p { assert q in PaymentsOf(db, o); }
      assert Only(db, o, p, status);
    }
    if forall p | p in db.payments :: db.payments[p].orderId != o { assert PaymentsOf(db, o) == {}; }
    if PaymentsOf(db, o) == {} {
      forall p | p in db.payments ensures db.payments[p].orderId != o { assert p !in PaymentsOf(db, o); }
    }
  }

  ghost predicate OnePayment(db: Database, o: int, status: PaymentStatus)
    requires o in db.orders
  {
    exists p | p in db.payments :: Only(db, o, p, status)
  }

  /** Payment `p` is of order `o`, by its owner and at its price, in this status, and no other payment is of it. */
  ghost predicate Only(db: Database, o: int, p: int, status: PaymentStatus)
    requires o in db.orders && p in db.payments
  {
    && db.payments[p] == Payment(o, db.orders[o].userId, db.orders[o].finalAmount, status)
    && forall q | q in db.payments && db.payments[q].orderId == o :: q == p
  }

  /** Replaying the log adds every amount of the user's rows, that of a use with a minus, one stretch after another. */
  lemma {:induction false} ReplayIsSum(start: Money, a: seq<HistoryRow>, b: seq<HistoryRow>, row: HistoryRow, u: int)
    ensures Replay(start, [], u) == start
    ensures Replay(start, [row], u)
            == start + (if row.userId != u then 0.0 else if row.kind == UseRow then -row.amount else row.amount)
    ensures Replay(start, a + b, u) == Replay(Replay(start, a, u), b, u)
  {
    assert [row][..0] == [];
    if b == [] {
      assert a + b == a;
    } else {
      ReplayIsSum(start, a, b[..|b| - 1], row, u);
      assert (a + b)[..|a + b| - 1] == a + b[..|b| - 1];
    }
  }

  // ---- From the creation of an order to its payment and cancellation ------------------------------------------------

  /** No run changes the rows of an order that exists. */
  lemma {:induction false} RowsStay(db: Database, ops: seq<Operation>, o: int)
    requires o in db.orders
    ensures o in Run(db, ops).orders
    ensures (o in Run(db, ops).items <==> o in db.items)
    ensures o in db.items ==> Run(db, ops).items[o] == db.items[o]
  {
    if ops != [] {
      var before, last := Run(db, ops[..|ops| - 1]), ops[|ops| - 1];
      RowsStay(db, ops[..|ops| - 1], o);
      if Apply(before, last).Success? { OneOperationKeepsRows(before, last, o); }
    }
  }

  lemma OneOperationKeepsRows(db: Database, op: Operation, o: int)
    requires Apply(db, op).Success? && o in db.orders
    ensures o in Exec(db, op).orders
    ensures (o in Exec(db, op).items <==> o in db.items)
    ensures o in db.items ==> Exec(db, op).items[o] == db.items[o]
  {
    match op
    case CreateOrder(_, _, _) =>
    case ChargeBalance(_, _) =>
    case DeductBalance(_, _) =>
    case Pay(_, _, _) =>
    case Cancel(_, _) =>
  }

  /**
   * Whatever happens between, paying an order takes from stock exactly the units of the lines it was created with,
   * and cancelling the payment puts exactly those back.
   */
  lemma {:induction false} OrderedIsTaken(db: Database, o: int, order: Order, lines: seq<Line>, ops: seq<Operation>,
                                          u: int, p: int, later: seq<Operation>)
    requires Apply(db, CreateOrder(o, order, lines)).Success? && Quantities(lines)
    requires var open := Run(Exec(db, CreateOrder(o, order, lines)), ops);
             && PayTx(open, u, o, p).Success?
             && CancelTx(Run(PayTx(open, u, o, p).value, later), u, p).Success?
    ensures var open := Run(Exec(db, CreateOrder(o, order, lines)), ops);
            var paid := PayTx(open, u, o, p).value;
            && paid.stock.Keys == open.stock.Keys
            && (forall v | v in open.stock :: paid.stock[v] == open.stock[v] - Needed(lines, v))
    ensures var paid := PayTx(Run(Exec(db, CreateOrder(o, order, lines)), ops), u, o, p).value;
            var before, after := Run(paid, later), CancelTx(Run(paid, later), u, p).value;
            && after.stock.Keys == before.stock.Keys
            && (forall v | v in before.stock :: after.stock[v] == before.stock[v] + Needed(lines, v))
  {
    var created := Exec(db, CreateOrder(o, order, lines));
    assert o in created.items && created.items[o] == lines;
    RowsStay(created, ops, o);
    var open := Run(created, ops);
    PaymentWrites(open, u, o, p, lines);
    var paid := PayTx(open, u, o, p).value;
    RowsStay(paid, later, o);
    EveryRunOnlyForward(paid, later);
    CancellationWrites(Run(paid, later), u, p, lines);
  }
}
