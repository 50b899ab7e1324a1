/** The six orchestrators as they run: calls into the services, events put on the emitter (src/orchestration). */
module Orchestrators {
  import opened Wrappers
  import opened Store
  import opened BalanceRepository
  import opened PaymentTx
  import opened PaymentRepository
  import opened SagaEvents
  import Pricing

  class EventEmitter {
    /** Emitted and not handled yet. */
    var pending: seq<Event>

    constructor ()
      ensures pending == []
    {
      pending := [];
    }

    method Emit(e: Event)
      modifies this
      ensures pending == old(pending) + [e]
    {
      pending := pending + [e];
    }
  }

  /** cart.orchestrator.ts */
  class CartOrchestrator {
    const eventEmitter: EventEmitter

    constructor (emitter: EventEmitter)
      ensures eventEmitter == emitter
    {
      eventEmitter := emitter;
    }

    method HandleCartCheckout(userId: int, a: Answer)
      modifies eventEmitter
      ensures eventEmitter.pending == old(eventEmitter.pending) + CheckoutEmits(userId, a)
    {
      if a.cart.None? || |a.cart.value| == 0 {
        eventEmitter.Emit(CartValidationFailed);
        return;
      }
      var cartItems := a.cart.value;
      var i := 0;
      while i < |cartItems|
        invariant 0 <= i <= |cartItems|
        invariant eventEmitter.pending == old(eventEmitter.pending) + Validations(userId, cartItems)[..i]
      {
        eventEmitter.Emit(CartValidationRequested(userId, [cartItems[i].item]));
        i := i + 1;
      }
      var total := 0.0;
      i := 0;
      while i < |cartItems|
        invariant 0 <= i <= |cartItems| && total == CartTotal(cartItems[..i])
      {
        assert cartItems[..i + 1][..i] == cartItems[..i];
        total := total + cartItems[i].price * cartItems[i].item.quantity as real;
        i := i + 1;
      }
      assert cartItems[..i] == cartItems;
      eventEmitter.Emit(OrderCreated(None, userId, ItemsOf(cartItems), None, total));
      if !a.emptied {
        eventEmitter.Emit(CartValidationFailed);
      }
    }

    method HandleCartValidation(userId: int, items: seq<Item>)
      modifies eventEmitter
      ensures eventEmitter.pending
              == old(eventEmitter.pending) + (StockChecks(items) + [CartValidationCompleted(userId, items)])
    {
      var i := 0;
      while i < |items|
        invariant 0 <= i <= |items|
        invariant eventEmitter.pending == old(eventEmitter.pending) + StockChecks(items)[..i]
      {
        eventEmitter.Emit(StockCheckRequested(items[i]));
        i := i + 1;
      }
      eventEmitter.Emit(CartValidationCompleted(userId, items));
    }

    method HandleStockCheckResponse(item: Item, isAvailable: bool)
      modifies eventEmitter
      ensures eventEmitter.pending
              == old(eventEmitter.pending) + if isAvailable then [] else [CartValidationFailed]
    {
      if !isAvailable {
        eventEmitter.Emit(CartValidationFailed);
      }
    }
  }

  /** order.orchestrator.ts */
  class OrderOrchestrator {
    const eventEmitter: EventEmitter
    const tables: PaymentRepositoryPrisma

    constructor (emitter: EventEmitter, tables: PaymentRepositoryPrisma)
      ensures eventEmitter == emitter && this.tables == tables
    {
      eventEmitter := emitter;
      this.tables := tables;
    }

    method HandleOrderCreation(orderId: Option<int>, userId: int, items: seq<Item>, couponId: Option<int>, total: Money)
      modifies eventEmitter
      ensures eventEmitter.pending == old(eventEmitter.pending)
              + (StockChecks(items) + CouponCheck(orderId, userId, couponId, total)
                 + [PaymentInitiated(orderId, userId, total)])
    {
      var i := 0;
      while i < |items|
        invariant 0 <= i <= |items|
        invariant eventEmitter.pending == old(eventEmitter.pending) + StockChecks(items)[..i]
      {
        eventEmitter.Emit(StockCheckRequested(items[i]));
        i := i + 1;
      }
      if couponId.Some? && couponId.value != 0 {
        eventEmitter.Emit(CouponValidationRequested(userId, couponId.value, orderId, total));
      }
      eventEmitter.Emit(PaymentInitiated(orderId, userId, total));
    }

    /**
     * `updateOrderStatus` throws when the order is missing. It writes outside any transaction, so the new status
     * stays when announcing it throws.
     */
    method UpdateOrderStatus(orderId: int, status: OrderStatus, a: Answer) returns (ok: bool)
      modifies tables`prisma
      ensures ok <==> !a.refused && !a.unlogged && orderId in old(tables.prisma).orders
      ensures tables.prisma ==
              if a.refused || orderId !in old(tables.prisma).orders then old(tables.prisma)
              else SetOrderStatus(old(tables.prisma), orderId, status).value
    {
      if a.refused || orderId !in tables.prisma.orders {
        return false;
      }
      var order := tables.prisma.orders[orderId].(status := status);
      tables.prisma := tables.prisma.(orders := tables.prisma.orders[orderId := order]);
      return !a.unlogged;
    }

    method HandlePaymentCompletion(orderId: int, userId: int, amount: Money, a: Answer)
      modifies eventEmitter, tables`prisma
      ensures var e := Event.PaymentCompleted(orderId, userId, amount);
              && tables.prisma == Effect(old(tables.prisma), e, a)
              && eventEmitter.pending == old(eventEmitter.pending) + Emits(old(tables.prisma), e, a)
    {
      var ok := UpdateOrderStatus(orderId, OrderPaid, a);
      if !ok { return; }
      var orderItems := LinesOf(tables.prisma, orderId);
      assert orderItems == LinesOf(old(tables.prisma), orderId);
      var i := 0;
      while i < |orderItems|
        invariant 0 <= i <= |orderItems|
        invariant tables.prisma == SetOrderStatus(old(tables.prisma), orderId, OrderPaid).value
        invariant eventEmitter.pending == old(eventEmitter.pending) + StockUpdates(orderItems)[..i]
      {
        eventEmitter.Emit(StockUpdated(orderItems[i].variantId, orderItems[i].quantity, true));
        i := i + 1;
      }
      assert StockUpdates(orderItems)[..i] == StockUpdates(orderItems);
    }

    method HandlePaymentFailure(orderId: Option<int>, userId: int, a: Answer)
      modifies tables`prisma
      ensures tables.prisma == Effect(old(tables.prisma), PaymentFailed(orderId, userId), a)
    {
      if orderId.Some? {
        var _ := UpdateOrderStatus(orderId.value, OrderCancelled, a);
      }
    }
  }

  /** payment.orchestrator.ts */
  class PaymentOrchestrator {
    const eventEmitter: EventEmitter
    const paymentService: PaymentRepositoryPrisma

    constructor (emitter: EventEmitter, payments: PaymentRepositoryPrisma)
      ensures eventEmitter == emitter && paymentService == payments
    {
      eventEmitter := emitter;
      paymentService := payments;
    }

    method HandlePaymentInitiation(orderId: Option<int>, userId: int, amount: Money, a: Answer)
      modifies eventEmitter
      ensures eventEmitter.pending == old(eventEmitter.pending)
              + Emits(paymentService.prisma, PaymentInitiated(orderId, userId, amount), a)
    {
      if a.refused || orderId.None? || orderId.value !in paymentService.prisma.orders {
        eventEmitter.Emit(PaymentFailed(orderId, userId));
      } else {
        var order := paymentService.prisma.orders[orderId.value];
        eventEmitter.Emit(BalanceDeductionRequested(userId, orderId.value, order.finalAmount));
      }
    }

    /** What keeps `processPayment` from going through besides the tables: locks held by others and calls that throw. */
    ghost predicate Hindered(userId: int, orderId: int, faults: set<Point>)
      reads paymentService, paymentService.redisRedlock
    {
      var locks := paymentService.redisRedlock.locks;
      || OrderLock(orderId) in locks || TakeOuterLock in faults || CommitPoint in faults
      || Blocked(locks, faults, userId, LinesOf(paymentService.prisma, orderId), true)
    }

    method HandleBalanceDeductionComplete(userId: int, orderId: int, deducted: Money, paymentId: int,
                                          client: int, faults: set<Point>, ghost a: Answer)
      requires a.paymentId == paymentId && (a.refused <==> Hindered(userId, orderId, faults))
      modifies eventEmitter, paymentService`prisma, paymentService.redisRedlock
      ensures paymentService.redisRedlock.locks == old(paymentService.redisRedlock.locks)
      ensures var e := BalanceDeductionCompleted(userId, orderId, deducted);
              && paymentService.prisma == Effect(old(paymentService.prisma), e, a)
              && eventEmitter.pending == old(eventEmitter.pending) + Emits(old(paymentService.prisma), e, a)
    {
      var payment := paymentService.ProcessPayment(userId, orderId, paymentId, client, faults);
      if payment.Success? {
        eventEmitter.Emit(Event.PaymentCompleted(orderId, userId, payment.value.amount));
      } else {
        eventEmitter.Emit(BalanceChargeRequested(userId, deducted));
        eventEmitter.Emit(PaymentFailed(Some(orderId), userId));
      }
    }
  }

  /** balance.orchestrator.ts, with the transactions of balance.service.ts */
  class BalanceOrchestrator {
    const eventEmitter: EventEmitter
    const tables: PaymentRepositoryPrisma
    const balanceRepository: BalanceRepository

    constructor (emitter: EventEmitter, tables: PaymentRepositoryPrisma, balances: BalanceRepository)
      ensures eventEmitter == emitter && this.tables == tables && balanceRepository == balances
    {
      eventEmitter := emitter;
      this.tables := tables;
      balanceRepository := balances;
    }

    /** The balance moves in a transaction of its own, so it stays moved when the outer one fails afterwards. */
    method HandleBalanceDeduction(userId: int, orderId: int, amount: Money, a: Answer)
      modifies eventEmitter, tables`prisma
      ensures var e := BalanceDeductionRequested(userId, orderId, amount);
              && tables.prisma == Effect(old(tables.prisma), e, a)
              && eventEmitter.pending == old(eventEmitter.pending) + Emits(old(tables.prisma), e, a)
    {
      var done := false;
      if !a.refused {
        var tx := new TransactionClient(tables.prisma);
        var balance := balanceRepository.DeductBalance(userId, amount, tx);
        if balance.Success? {
          tables.prisma := tx.db;
          if !a.unlogged {
            var row := HistoryRow(userId, UseRow, amount, balance.value);
            tables.prisma := tables.prisma.(history := tables.prisma.history + [row]);
            done := true;
          }
        }
      }
      if done {
        eventEmitter.Emit(BalanceDeductionCompleted(userId, orderId, amount));
      } else {
        eventEmitter.Emit(PaymentFailed(Some(orderId), userId));
      }
    }

    method HandleBalanceCharge(userId: int, amount: Money, a: Answer)
      modifies eventEmitter, tables`prisma
      ensures var e := BalanceChargeRequested(userId, amount);
              && tables.prisma == Effect(old(tables.prisma), e, a)
              && eventEmitter.pending == old(eventEmitter.pending) + Emits(old(tables.prisma), e, a)
    {
      var done := false;
      if !a.refused {
        var tx := new TransactionClient(tables.prisma);
        var balance := balanceRepository.ChargeBalanceWithTx(userId, amount, tx);
        if balance.Success? {
          tables.prisma := tx.db;
          if !a.unlogged {
            var row := HistoryRow(userId, ChargeRow, amount, balance.value);
            tables.prisma := tables.prisma.(history := tables.prisma.history + [row]);
            done := true;
          }
        }
      }
      if done {
        eventEmitter.Emit(BalanceChargeCompleted(userId, amount));
      } else {
        eventEmitter.Emit(BalanceChargeFailed(userId, amount));
      }
    }
  }

  /** product.orchestrator.ts */
  class ProductOrchestrator {
    const eventEmitter: EventEmitter
    const tables: PaymentRepositoryPrisma

    constructor (emitter: EventEmitter, tables: PaymentRepositoryPrisma)
      ensures eventEmitter == emitter && this.tables == tables
    {
      eventEmitter := emitter;
      this.tables := tables;
    }

    method HandleStockCheck(item: Item, a: Answer)
      modifies eventEmitter
      ensures eventEmitter.pending
              == old(eventEmitter.pending) + [StockCheckCompleted(item, InStock(a.variants, item))]
    {
      if a.variants.None? || item.variantId !in a.variants.value {
        eventEmitter.Emit(StockCheckCompleted(item, false));
      } else {
        eventEmitter.Emit(StockCheckCompleted(item, a.variants.value[item.variantId] >= item.quantity));
      }
    }

    method HandleStockUpdate(variantId: int, quantity: int, decrease: bool, a: Answer)
      modifies eventEmitter, tables`prisma
      ensures var e := StockUpdated(variantId, quantity, decrease);
              && tables.prisma == Effect(old(tables.prisma), e, a)
              && eventEmitter.pending == old(eventEmitter.pending) + Emits(old(tables.prisma), e, a)
    {
      var done := false;
      if !a.refused && variantId in tables.prisma.stock {
        var stockQuantity, newQuantity := tables.prisma.stock[variantId], 0;
        if decrease {
          done := stockQuantity >= quantity;
          newQuantity := stockQuantity - quantity;
        } else {
          done := true;
          newQuantity := stockQuantity + quantity;
        }
        if done {
          tables.prisma := tables.prisma.(stock := tables.prisma.stock[variantId := newQuantity]);
        }
      }
      if done {
        eventEmitter.Emit(StockUpdateCompleted(variantId, quantity, decrease));
      } else {
        eventEmitter.Emit(StockUpdateFailed(variantId, quantity, decrease));
      }
    }
  }

  /** coupon.orchestrator.ts */
  class CouponOrchestrator {
    const eventEmitter: EventEmitter

    constructor (emitter: EventEmitter)
      ensures eventEmitter == emitter
    {
      eventEmitter := emitter;
    }

    method HandleCouponValidation(userId: int, couponId: int, orderId: Option<int>, orderAmount: Money, a: Answer)
      modifies eventEmitter
      ensures forall db :: eventEmitter.pending == old(eventEmitter.pending)
                           + Emits(db, CouponValidationRequested(userId, couponId, orderId, orderAmount), a)
    {
      if a.coupon.None? || a.coupon.value.minOrderAmount > orderAmount {
        eventEmitter.Emit(CouponValidationFailed(userId, couponId, orderId));
        return;
      }
      var coupon := a.coupon.value;
      var discountAmount := coupon.amount;
      if coupon.kind.Percentage? {
        var share := orderAmount * (coupon.amount / 100.0);
        assert share == Pricing.Discount(coupon, orderAmount);
        discountAmount := share.Floor as real;
      }
      eventEmitter.Emit(CouponValidationCompleted(userId, couponId, orderId, discountAmount));
    }

    method HandleCouponIssue(userId: int, fcfsCouponId: int, a: Answer)
      modifies eventEmitter
      ensures forall db :: eventEmitter.pending
                           == old(eventEmitter.pending) + Emits(db, CouponIssueRequested(userId, fcfsCouponId), a)
    {
      if a.issued {
        eventEmitter.Emit(CouponIssueCompleted(userId, fcfsCouponId));
      } else {
        eventEmitter.Emit(CouponIssueFailed(userId, fcfsCouponId));
      }
    }
  }
}
