/**
 * The events of the saga and what each handler does with one: what it changes in the tables and what it emits
 * (src/orchestration). `Answer` holds what the handler's awaited calls come back with.
 */
module SagaEvents {
  import opened Wrappers
  import opened Store
  import opened BalanceRepository
  import opened PaymentTx
  import Pricing

  datatype Item = Item(productId: int, variantId: int, quantity: int)

  datatype CartItem = CartItem(item: Item, price: Money)

  /** A reference is missing from some payloads: the order of those created by a cart checkout, an unused coupon. */
  datatype Event =
    | CartCheckoutRequested(userId: int)
    | CartValidationRequested(userId: int, items: seq<Item>)
    | CartValidationCompleted(userId: int, items: seq<Item>)
    | CartValidationFailed
    | StockCheckRequested(item: Item)
    | StockCheckCompleted(item: Item, isAvailable: bool)
    | OrderCreated(orderRef: Option<int>, userId: int, items: seq<Item>, couponRef: Option<int>, totalAmount: Money)
    | CouponValidationRequested(userId: int, couponId: int, orderRef: Option<int>, orderAmount: Money)
    | CouponValidationCompleted(userId: int, couponId: int, orderRef: Option<int>, discountAmount: Money)
    | CouponValidationFailed(userId: int, couponId: int, orderRef: Option<int>)
    | CouponIssueRequested(userId: int, fcfsCouponId: int)
    | CouponIssueCompleted(userId: int, fcfsCouponId: int)
    | CouponIssueFailed(userId: int, fcfsCouponId: int)
    | PaymentInitiated(orderRef: Option<int>, userId: int, amount: Money)
    | PaymentCompleted(orderId: int, userId: int, amount: Money)
    | PaymentFailed(orderRef: Option<int>, userId: int)
    | BalanceDeductionRequested(userId: int, orderId: int, amount: Money)
    | BalanceDeductionCompleted(userId: int, orderId: int, deductedAmount: Money)
    | BalanceChargeRequested(userId: int, amount: Money)
    | BalanceChargeCompleted(userId: int, chargedAmount: Money)
    | BalanceChargeFailed(userId: int, amount: Money)
    | StockUpdated(variantId: int, quantity: int, decrease: bool)
    | StockUpdateCompleted(variantId: int, quantity: int, decrease: bool)
    | StockUpdateFailed(variantId: int, quantity: int, decrease: bool)

  datatype Answer = Answer(
    cart: Option<seq<CartItem>>,          // the user's cart; none when reading it throws
    emptied: bool,                        // every item of the cart could be removed
    variants: Option<map<int, int>>,      // stock by variant, as the product cache has it; none when it throws
    coupon: Option<Pricing.Coupon>,       // an available coupon of the user that has not expired
    issued: bool,                         // the coupon service issues the coupon
    refused: bool,                        // the call into the database throws, for no reason in the tables
    unlogged: bool,                       // a later call throws, the first write having been committed: the
                                          // second history row, or the announcement of a new order status
    paymentId: int)                       // the next payment id

  // ---- What a handler changes -----------------------------------------------------------------------------

  function Effect(db: Database, e: Event, a: Answer): Database {
    match e
    case BalanceDeductionRequested(u, _, amount) =>
      Moved(db, if a.refused then Failure(Fault) else Deduct(db, u, amount), u, UseRow, amount, a.unlogged)
    case BalanceChargeRequested(u, amount) =>
      Moved(db, if a.refused then Failure(Fault) else Charge(db, u, amount), u, ChargeRow, amount, a.unlogged)
    case BalanceDeductionCompleted(u, o, _) =>
      var paid := PayTx(db, u, o, a.paymentId);
      if a.refused || paid.Failure? then db else paid.value
    case PaymentCompleted(o, _, _) =>
      var marked := SetOrderStatus(db, o, OrderPaid);
      if a.refused || marked.Failure? then db else marked.value
    case PaymentFailed(o, _) =>
      if a.refused || o.None? || SetOrderStatus(db, o.value, OrderCancelled).Failure? then db
      else SetOrderStatus(db, o.value, OrderCancelled).value
    case StockUpdated(v, quantity, decrease) =>
      var stock := NewStock(db, v, quantity, decrease);
      if a.refused || stock.Failure? then db else db.(stock := db.stock[v := stock.value])
    case _ => db
  }

  /** A balance moved in a transaction of its own, then the orchestrator's second history row, in another. */
  function Moved(db: Database, moved: Result<Database, Error>, u: int, kind: BalanceType, amount: Money, unlogged: bool)
    : Database
  {
    if moved.Failure? then db
    else if unlogged then moved.value
    else moved.value.(history := moved.value.history + [HistoryRow(u, kind, amount, BalanceOf(moved.value, u))])
  }

  function NewStock(db: Database, variantId: int, quantity: int, decrease: bool): Result<int, Error> {
    if variantId !in db.stock then Failure(VariantNotFound)
    else if !decrease then Success(db.stock[variantId] + quantity)
    else if db.stock[variantId] < quantity then Failure(InsufficientStock(variantId))
    else Success(db.stock[variantId] - quantity)
  }

  // ---- What a handler emits -------------------------------------------------------------------------------

  function Emits(db: Database, e: Event, a: Answer): seq<Event> {
    match e
    case CartCheckoutRequested(u) => CheckoutEmits(u, a)
    case CartValidationRequested(u, items) => StockChecks(items) + [CartValidationCompleted(u, items)]
    case StockCheckRequested(item) => [StockCheckCompleted(item, InStock(a.variants, item))]
    case StockCheckCompleted(_, isAvailable) => if isAvailable then [] else [CartValidationFailed]
    case OrderCreated(o, u, items, couponId, total) =>
      StockChecks(items) + CouponCheck(o, u, couponId, total) + [PaymentInitiated(o, u, total)]
    case CouponValidationRequested(u, c, o, amount) =>
      [if a.coupon.None? || a.coupon.value.minOrderAmount > amount then CouponValidationFailed(u, c, o)
       else CouponValidationCompleted(u, c, o, Pricing.SagaDiscount(a.coupon.value, amount))]
    case CouponIssueRequested(u, f) => [if a.issued then CouponIssueCompleted(u, f) else CouponIssueFailed(u, f)]
    case PaymentInitiated(o, u, _) =>
      [if a.refused || o.None? || o.value !in db.orders then PaymentFailed(o, u)
       else BalanceDeductionRequested(u, o.value, db.orders[o.value].finalAmount)]
    case BalanceDeductionRequested(u, o, amount) =>
      [if a.refused || a.unlogged || Deduct(db, u, amount).Failure? then PaymentFailed(Some(o), u)
       else BalanceDeductionCompleted(u, o, amount)]
    case BalanceDeductionCompleted(u, o, amount) =>
      if a.refused || PayTx(db, u, o, a.paymentId).Failure?
      then [BalanceChargeRequested(u, amount), PaymentFailed(Some(o), u)]
      else [Event.PaymentCompleted(o, u, AmountOf(db, o))]
    case BalanceChargeRequested(u, amount) =>
      [if a.refused || a.unlogged || Charge(db, u, amount).Failure? then BalanceChargeFailed(u, amount)
       else BalanceChargeCompleted(u, amount)]
    case PaymentCompleted(o, _, _) =>
      if a.refused || a.unlogged || o !in db.orders then [] else StockUpdates(LinesOf(db, o))
    case StockUpdated(v, quantity, decrease) =>
      [if a.refused || NewStock(db, v, quantity, decrease).Failure? then StockUpdateFailed(v, quantity, decrease)
       else StockUpdateCompleted(v, quantity, decrease)]
    case _ => []
  }

  function AmountOf(db: Database, orderId: int): Money {
    if orderId in db.orders then db.orders[orderId].finalAmount else 0.0
  }

  function InStock(variants: Option<map<int, int>>, item: Item): bool {
    variants.Some? && item.variantId in variants.value && variants.value[item.variantId] >= item.quantity
  }

  function CheckoutEmits(u: int, a: Answer): seq<Event> {
    if a.cart.None? || a.cart.value == [] then [CartValidationFailed]
    else
      var cart := a.cart.value;
      Validations(u, cart) + [OrderCreated(None, u, ItemsOf(cart), None, CartTotal(cart))]
      + (if a.emptied then [] else [CartValidationFailed])
  }

  function Validations(u: int, cart: seq<CartItem>): (es: seq<Event>)
    ensures |es| == |cart|
    ensures forall i | 0 <= i < |cart| :: es[i] == CartValidationRequested(u, [cart[i].item])
  {
    seq(|cart|, i requires 0 <= i < |cart| => CartValidationRequested(u, [cart[i].item]))
  }

  function ItemsOf(cart: seq<CartItem>): (items: seq<Item>)
    ensures |items| == |cart|
    ensures forall i | 0 <= i < |cart| :: items[i] == cart[i].item
  {
    seq(|cart|, i requires 0 <= i < |cart| => cart[i].item)
  }

  function CartTotal(cart: seq<CartItem>): Money {
    if cart == [] then 0.0
    else CartTotal(cart[..|cart| - 1]) + cart[|cart| - 1].price * cart[|cart| - 1].item.quantity as real
  }

  function StockChecks(items: seq<Item>): (es: seq<Event>)
    ensures |es| == |items|
    ensures forall i | 0 <= i < |items| :: es[i] == StockCheckRequested(items[i])
  {
    seq(|items|, i requires 0 <= i < |items| => StockCheckRequested(items[i]))
  }

  /** Ids are positive; 0 counts as no coupon. */
  function CouponCheck(o: Option<int>, u: int, couponId: Option<int>, total: Money): seq<Event> {
    if couponId.None? || couponId.value == 0 then []
    else [CouponValidationRequested(u, couponId.value, o, total)]
  }

  function StockUpdates(lines: seq<Line>): (es: seq<Event>)
    ensures |es| == |lines|
    ensures forall i | 0 <= i < |lines| :: es[i] == StockUpdated(lines[i].variantId, lines[i].quantity, true)
  {
    seq(|lines|, i requires 0 <= i < |lines| => StockUpdated(lines[i].variantId, lines[i].quantity, true))
  }

  // ---- Stock updates --------------------------------------------------------------------------------------

  /**
   * A stock update announces success exactly when it was made, that is, when the variant exists and a decrease is
   * covered; it touches no other variant and nothing else, a decrease never goes below zero, and the opposite
   * update takes it back.
   */
  lemma StockUpdateIsReversible(db: Database, v: int, quantity: int, decrease: bool, a: Answer, w: int)
    ensures var e, back := StockUpdated(v, quantity, decrease), StockUpdated(v, quantity, !decrease);
            var after := Effect(db, e, a);
            var made := !a.refused && v in db.stock && (decrease ==> db.stock[v] >= quantity);
            && Emits(db, e, a) == [if made then StockUpdateCompleted(v, quantity, decrease)
                                   else StockUpdateFailed(v, quantity, decrease)]
            && after == db.(stock := after.stock)
            && (w != v || !made ==> (w in after.stock <==> w in db.stock) && StockOf(after, w) == StockOf(db, w))
            && (made ==> StockOf(after, v) == StockOf(db, v) + (if decrease then -quantity else quantity))
            && (made && decrease ==> StockOf(after, v) >= 0)
            && (made && StockOf(db, v) >= 0 ==> Effect(after, back, a) == db)
  {
    var e, back := StockUpdated(v, quantity, decrease), StockUpdated(v, quantity, !decrease);
    var after := Effect(db, e, a);
    if NewStock(db, v, quantity, decrease).Success? && !a.refused && StockOf(db, v) >= 0 {
      assert Effect(after, back, a).stock == db.stock;
    }
  }
}
