/** What an order costs (order.service.ts) and how the saga prices the same coupon (coupon.orchestrator.ts). */
module Pricing {
  import opened Wrappers
  import opened Store
  import CouponIssue

  datatype Variant = Variant(price: Money, stock: int)

  datatype Product = Product(isActive: bool, variants: map<int, Variant>)

  datatype CouponKind = Percentage | FixedAmount

  datatype Coupon = Coupon(kind: CouponKind, amount: Money, minOrderAmount: Money)

  datatype ItemRequest = ItemRequest(productId: int, variantId: int, quantity: int)

  datatype PricedLine = PricedLine(variantId: int, quantity: int, unitPrice: Money, totalPrice: Money)

  datatype NewOrder = NewOrder(
    userId: int, totalAmount: Money, discountAmount: Money, finalAmount: Money, lines: seq<PricedLine>,
    couponId: Option<int>)

  datatype OrderError = ProductMissing(productId: int) | NoStock(productId: int, variantId: int)

  // ---- Lines and their total ---------------------------------------------------------------------------

  predicate Orderable(products: map<int, Product>, item: ItemRequest) {
    && item.productId in products && products[item.productId].isActive
    && item.variantId in products[item.productId].variants
    && products[item.productId].variants[item.variantId].stock >= item.quantity
  }

  /** The line of an item, at the variant's price. */
  predicate Priced(products: map<int, Product>, item: ItemRequest, line: PricedLine) {
    && Orderable(products, item)
    && line.variantId == item.variantId && line.quantity == item.quantity
    && line.unitPrice == products[item.productId].variants[item.variantId].price
    && line.totalPrice == line.unitPrice * line.quantity as real
  }

  /** What is wrong with an item that cannot be ordered. */
  function Refusal(products: map<int, Product>, item: ItemRequest): OrderError {
    if item.productId in products && products[item.productId].isActive then NoStock(item.productId, item.variantId)
    else ProductMissing(item.productId)
  }

  /** What the sum over the lines' own `totalPrice` comes to. */
  function SumOfLines(lines: seq<PricedLine>): Money {
    if lines == [] then 0.0 else SumOfLines(lines[..|lines| - 1]) + lines[|lines| - 1].totalPrice
  }

  // ---- Discounts -----------------------------------------------------------------------------------------

  /** The order service's discount once the coupon applies. */
  function Discount(coupon: Coupon, total: Money): Money {
    if coupon.kind.Percentage? then total * (coupon.amount / 100.0) else coupon.amount
  }

  /** The saga's: percentages are rounded down. */
  function SagaDiscount(coupon: Coupon, total: Money): Money {
    if coupon.kind.Percentage? then Discount(coupon, total).Floor as real else coupon.amount
  }

  /** A share of at most everything, or an amount no order that meets the minimum can fall short of. */
  predicate WellFormed(coupon: Coupon) {
    if coupon.kind.Percentage? then 0.0 <= coupon.amount <= 100.0
    else 0.0 <= coupon.amount <= Least(coupon)
  }

  /** The least total a coupon is ever applied to, totals not being negative. */
  function Least(coupon: Coupon): Money {
    if coupon.minOrderAmount < 0.0 then 0.0 else coupon.minOrderAmount
  }

  predicate Sound(coupon: Coupon, total: Money) {
    0.0 <= Discount(coupon, total) <= total
  }

  /** A share of a positive total lies between nothing and the total just when it is between 0 and 1. */
  lemma ShareOf(total: Money, share: real)
    requires total >= 0.0
    ensures 0.0 <= share <= 1.0 ==> 0.0 <= total * share <= total
    ensures total > 0.0 && (share < 0.0 || share > 1.0) ==> total * share < 0.0 || total * share > total
  {
    if share > 1.0 {
      assert total * share == total + total * (share - 1.0);
    } else if share >= 0.0 {
      assert total * share == total - total * (1.0 - share);
    }
  }

  lemma WellFormedIsSound(coupon: Coupon, total: Money)
    requires WellFormed(coupon) && total >= Least(coupon)
    ensures Sound(coupon, total)
  {
    ShareOf(total, coupon.amount / 100.0);
  }

  /** Any positive total gives an ill-formed percentage away, the least one an ill-formed fixed amount. */
  lemma IllFormedIsUnsound(coupon: Coupon, total: Money)
    requires !WellFormed(coupon)
    requires if coupon.kind.Percentage? then total > 0.0 else total == Least(coupon)
    ensures !Sound(coupon, total)
  {
    if coupon.kind.Percentage? {
      ShareOf(total, coupon.amount / 100.0);
    }
  }

  /**
   * Exactly the well-formed coupons keep every discount they give between zero and the total, hence every
   * final amount too. Nothing in the code requires a coupon to be one of them.
   */
  lemma SoundCoupons(coupon: Coupon)
    ensures WellFormed(coupon)
            <==> forall total | total >= 0.0 && total >= coupon.minOrderAmount :: Sound(coupon, total)
  {
    if WellFormed(coupon) {
      forall total | total >= 0.0 && total >= coupon.minOrderAmount ensures Sound(coupon, total) {
        WellFormedIsSound(coupon, total);
      }
    } else {
      var total := if coupon.kind.Percentage? then Least(coupon) + 1.0 else Least(coupon);
      IllFormedIsUnsound(coupon, total);
    }
  }

  /** The saga never promises more than the order service deducts, and less than one unit less. */
  lemma SagaRoundsDown(coupon: Coupon, total: Money)
    ensures SagaDiscount(coupon, total) <= Discount(coupon, total) < SagaDiscount(coupon, total) + 1.0
    ensures coupon.kind.Percentage? ==>
              var d := SagaDiscount(coupon, total);
              d == d.Floor as real && 100.0 * d <= total * coupon.amount < 100.0 * (d + 1.0)
    ensures coupon.kind.FixedAmount? ==> SagaDiscount(coupon, total) == coupon.amount
    ensures WellFormed(coupon) && total >= Least(coupon) ==> 0.0 <= SagaDiscount(coupon, total) <= total
  {
    if WellFormed(coupon) && total >= Least(coupon) {
      WellFormedIsSound(coupon, total);
    }
    DiscountIsShare(coupon, total);
  }

  /** Of a hundred parts of the total the discount is as many as the coupon says, or the coupon's own amount. */
  lemma DiscountIsShare(coupon: Coupon, total: Money)
    ensures coupon.kind.Percentage? ==> 100.0 * Discount(coupon, total) == total * coupon.amount
    ensures coupon.kind.FixedAmount? ==> Discount(coupon, total) == coupon.amount
  {
    HundredParts(total, coupon.amount);
  }

  lemma HundredParts(total: Money, amount: Money)
    ensures 100.0 * (total * (amount / 100.0)) == total * amount
  {
    var part := amount / 100.0;
    assert amount == 100.0 * part;
    assert 100.0 * (total * part) == total * (100.0 * part);
  }

  /** The reduce over price times quantity, first item first. */
  function Reduce(sum: Money, lines: seq<PricedLine>): Money
    decreases |lines|
  {
    if lines == [] then sum
    else Reduce(sum + lines[0].unitPrice * lines[0].quantity as real, lines[1..])
  }

  ghost predicate Multiplied(lines: seq<PricedLine>) {
    forall i | 0 <= i < |lines| :: lines[i].totalPrice == lines[i].unitPrice * lines[i].quantity as real
  }

  lemma {:induction false} SumFromFront(lines: seq<PricedLine>)
    requires lines != []
    ensures SumOfLines(lines) == lines[0].totalPrice + SumOfLines(lines[1..])
  {
    if |lines| > 1 {
      SumFromFront(lines[..|lines| - 1]);
      assert lines[..|lines| - 1][1..] == lines[1..][..|lines| - 2];
    } else {
      assert lines[..0] == [] && lines[1..] == [];
    }
  }

  /** The order's total, computed before the lines are written, is the sum of what the lines say. */
  lemma {:induction false} ReduceIsSumOfLines(sum: Money, lines: seq<PricedLine>)
    requires Multiplied(lines)
    ensures Reduce(sum, lines) == sum + SumOfLines(lines)
    decreases |lines|
  {
    if lines != [] {
      SumFromFront(lines);
      ReduceIsSumOfLines(sum + lines[0].totalPrice, lines[1..]);
    }
  }

  /** Each line counts with its own total, and lists of lines with the sum of theirs. */
  lemma {:induction false} SumIsSum(a: seq<PricedLine>, b: seq<PricedLine>, line: PricedLine)
    ensures SumOfLines([]) == 0.0 && SumOfLines([line]) == line.totalPrice
    ensures SumOfLines(a + b) == SumOfLines(a) + SumOfLines(b)
  {
    assert [line][..0] == [];
    if b == [] {
      assert a + b == a;
    } else {
      SumIsSum(a, b[..|b| - 1], line);
      assert (a + b)[..|a + b| - 1] == a + b[..|b| - 1];
    }
  }

  lemma {:induction false} SumNotNegative(lines: seq<PricedLine>)
    requires forall i | 0 <= i < |lines| :: lines[i].totalPrice >= 0.0
    ensures SumOfLines(lines) >= 0.0
  {
    if lines != [] { SumNotNegative(lines[..|lines| - 1]); }
  }

  /** Prices are not negative, and neither are quantities of what is ordered. */
  ghost predicate Sensible(products: map<int, Product>, items: seq<ItemRequest>) {
    && (forall p, v | p in products && v in products[p].variants :: products[p].variants[v].price >= 0.0)
    && (forall i | 0 <= i < |items| :: items[i].quantity >= 1)
  }

  /** The order a caller gets costs between nothing and its total if the coupon used is well-formed. */
  lemma SensibleOrder(products: map<int, Product>, items: seq<ItemRequest>, lines: seq<PricedLine>, coupon: Coupon)
    requires Sensible(products, items) && |lines| == |items| && WellFormed(coupon)
    requires forall i | 0 <= i < |items| :: Priced(products, items[i], lines[i])
    ensures SumOfLines(lines) >= 0.0
    ensures coupon.minOrderAmount <= SumOfLines(lines)
            ==> 0.0 <= SumOfLines(lines) - Discount(coupon, SumOfLines(lines)) <= SumOfLines(lines)
  {
    forall i | 0 <= i < |lines| ensures lines[i].totalPrice >= 0.0 {
      var item := items[i];
      assert Priced(products, item, lines[i]);
      assert products[item.productId].variants[item.variantId].price >= 0.0;
      assert item.quantity as real >= 0.0;
    }
    SumNotNegative(lines);
    if coupon.minOrderAmount <= SumOfLines(lines) { WellFormedIsSound(coupon, SumOfLines(lines)); }
  }

  // ---- The services -----------------------------------------------------------------------------------------

  class OrderService {
    var products: map<int, Product>
    var coupons: map<int, Coupon>
    var userCoupons: map<(int, int), CouponIssue.CouponStatus>

    constructor (products: map<int, Product>, coupons: map<int, Coupon>,
                 userCoupons: map<(int, int), CouponIssue.CouponStatus>)
      ensures this.products == products && this.coupons == coupons && this.userCoupons == userCoupons
    {
      this.products, this.coupons, this.userCoupons := products, coupons, userCoupons;
    }

    method PriceItems(items: seq<ItemRequest>) returns (r: Result<seq<PricedLine>, OrderError>)
      ensures r.Success? <==> forall i | 0 <= i < |items| :: Orderable(products, items[i])
      ensures r.Success? ==> |r.value| == |items|
      ensures r.Success? ==> forall i | 0 <= i < |items| :: Priced(products, items[i], r.value[i])
      ensures r.Success? ==> Multiplied(r.value)
      ensures r.Failure? ==>
                exists i | 0 <= i < |items| ::
                  !Orderable(products, items[i]) && r.error == Refusal(products, items[i])
    {
      var lines := [];
      for i := 0 to |items|
        invariant |lines| == i
        invariant forall j | 0 <= j < i :: Priced(products, items[j], lines[j])
        invariant Multiplied(lines)
      {
        var item := items[i];
        if item.productId !in products || !products[item.productId].isActive {
          assert !Orderable(products, items[i]);
          return Failure(ProductMissing(item.productId));
        }
        var product := products[item.productId];
        if item.variantId !in product.variants || product.variants[item.variantId].stock < item.quantity {
          assert !Orderable(products, items[i]);
          return Failure(NoStock(item.productId, item.variantId));
        }
        var price := product.variants[item.variantId].price;
        var line := PricedLine(item.variantId, item.quantity, price, price * item.quantity as real);
        assert Priced(products, item, line);
        lines := lines + [line];
      }
      return Success(lines);
    }

    /**
     * `couponFault`: a coupon query throws; that is logged and the order goes on without a discount. Ids are positive,
     * so the coupon id 0 asks for none.
     */
    method CreateOrder(userId: int, items: seq<ItemRequest>, couponId: int, couponFault: bool)
      returns (r: Result<NewOrder, OrderError>)
      ensures r.Success? <==>
                forall i | 0 <= i < |items| ::
                  && items[i].productId in products && products[items[i].productId].isActive
                  && items[i].variantId in products[items[i].productId].variants
                  && products[items[i].productId].variants[items[i].variantId].stock >= items[i].quantity
      ensures r.Failure? ==>
                exists i | 0 <= i < |items| ::
                  var p, v := items[i].productId, items[i].variantId;
                  if p !in products || !products[p].isActive then r.error == ProductMissing(p)
                  else (v in products[p].variants ==> products[p].variants[v].stock < items[i].quantity)
                       && r.error == NoStock(p, v)
      ensures r.Success? ==>
        var order := r.value;
        && order.userId == userId && |order.lines| == |items|
        && (forall i | 0 <= i < |items| ::
              && order.lines[i].variantId == items[i].variantId && order.lines[i].quantity == items[i].quantity
              && order.lines[i].unitPrice == products[items[i].productId].variants[items[i].variantId].price
              && order.lines[i].totalPrice == order.lines[i].unitPrice * order.lines[i].quantity as real)
        && order.totalAmount == SumOfLines(order.lines)
        && order.finalAmount + order.discountAmount == order.totalAmount
        && (order.couponId == Some(couponId) <==>
              && couponId != 0 && !couponFault
              && (userId, couponId) in userCoupons && userCoupons[(userId, couponId)] == CouponIssue.Available
              && couponId in coupons && coupons[couponId].minOrderAmount <= order.totalAmount)
        && (order.couponId != Some(couponId) ==> order.couponId == None && order.discountAmount == 0.0)
        && (order.couponId == Some(couponId) && coupons[couponId].kind.Percentage? ==>
              100.0 * order.discountAmount == order.totalAmount * coupons[couponId].amount)
        && (order.couponId == Some(couponId) && coupons[couponId].kind.FixedAmount? ==>
              order.discountAmount == coupons[couponId].amount)
    {
      var lines :- PriceItems(items);
      var totalAmount := TotalOf(lines);
      var discountAmount, couponConnect := ApplyCoupon(userId, couponId, couponFault, totalAmount);
      return Success(NewOrder(userId, totalAmount, discountAmount, totalAmount - discountAmount, lines, couponConnect));
    }

    method TotalOf(lines: seq<PricedLine>) returns (totalAmount: Money)
      requires Multiplied(lines)
      ensures totalAmount == SumOfLines(lines)
    {
      totalAmount := Reduce(0.0, lines);
      ReduceIsSumOfLines(0.0, lines);
    }

    method ApplyCoupon(userId: int, couponId: int, couponFault: bool, totalAmount: Money)
      returns (discountAmount: Money, couponConnect: Option<int>)
      ensures couponConnect == Some(couponId) <==>
                && couponId != 0 && !couponFault
                && (userId, couponId) in userCoupons && userCoupons[(userId, couponId)] == CouponIssue.Available
                && couponId in coupons && coupons[couponId].minOrderAmount <= totalAmount
      ensures couponConnect != Some(couponId) ==> couponConnect == None && discountAmount == 0.0
      ensures couponConnect == Some(couponId) && coupons[couponId].kind.Percentage? ==>
                100.0 * discountAmount == totalAmount * coupons[couponId].amount
      ensures couponConnect == Some(couponId) && coupons[couponId].kind.FixedAmount? ==>
                discountAmount == coupons[couponId].amount
    {
      discountAmount, couponConnect := 0.0, None;
      if couponId != 0 && !couponFault {
        if (userId, couponId) in userCoupons && userCoupons[(userId, couponId)] == CouponIssue.Available {
          if couponId in coupons && coupons[couponId].minOrderAmount <= totalAmount {
            var coupon := coupons[couponId];
            discountAmount := if coupon.kind.Percentage? then totalAmount * (coupon.amount / 100.0) else coupon.amount;
            couponConnect := Some(couponId);
            HundredParts(totalAmount, coupon.amount);
          }
        }
      }
    }
  }
}
