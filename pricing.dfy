/**
 * Checkout pricing rules of the shipping and tax calculator: the three
 * constant tables (state sales-tax rates, carrier rates, per-product
 * weights), the weight of a cart, the free-shipping policy, the shipping
 * and tax amounts, and the order total built from them.
 *
 * Money and weight are exact rationals (`real`); rounding to cents is a
 * display concern and is not part of these rules.
 */
module Pricing {

  datatype Option<T> = None | Some(value: T)

  /** One cart line, as the checkout passes it to the calculator. */
  datatype CartItem = CartItem(id: string, name: string, price: real, qty: real)

  /** A carrier's flat fee plus per-pound rate, and the name shown for it. */
  datatype CarrierRate = CarrierRate(base: real, perLb: real, name: string)

  /** What one pricing computation hands to the checkout. */
  datatype Charges = Charges(shipping: real, tax: real)

  const FREE_SHIPPING_WEIGHT: real := 35.0
  const FREE_SHIPPING_SUBTOTAL: real := 85.0
  const DEFAULT_UNIT_WEIGHT: real := 0.18

  /**
   * The state sales-tax table. A code that is not a key of the table reads
   * as missing.
   */
  function StateTaxRate(code: string): (r: Option<real>)
    ensures r.Some? ==> 0.0 <= r.value < 1.0
    ensures r.Some? && r.value == 0.0 <==> code in NO_SALES_TAX_STATES
  {
    match code
    case "AL" => Some(0.04)  case "AK" => Some(0.00)  case "AZ" => Some(0.056)
    case "AR" => Some(0.065) case "CA" => Some(0.0725) case "CO" => Some(0.029)
    case "CT" => Some(0.0635) case "DE" => Some(0.00) case "FL" => Some(0.06)
    case "GA" => Some(0.04)  case "HI" => Some(0.04)  case "ID" => Some(0.06)
    case "IL" => Some(0.0625) case "IN" => Some(0.07) case "IA" => Some(0.06)
    case "KS" => Some(0.065) case "KY" => Some(0.06)  case "LA" => Some(0.0445)
    case "ME" => Some(0.055) case "MD" => Some(0.06)  case "MA" => Some(0.0625)
    case "MI" => Some(0.06)  case "MN" => Some(0.06875) case "MS" => Some(0.07)
    case "MO" => Some(0.0423) case "MT" => Some(0.00) case "NE" => Some(0.055)
    case "NV" => Some(0.0685) case "NH" => Some(0.00) case "NJ" => Some(0.06625)
    case "NM" => Some(0.05125) case "NY" => Some(0.08) case "NC" => Some(0.0475)
    case "ND" => Some(0.05)  case "OH" => Some(0.0575) case "OK" => Some(0.045)
    case "OR" => Some(0.00)  case "PA" => Some(0.06)  case "RI" => Some(0.07)
    case "SC" => Some(0.06)  case "SD" => Some(0.045) case "TN" => Some(0.07)
    case "TX" => Some(0.0625) case "UT" => Some(0.0485) case "VT" => Some(0.06)
    case "VA" => Some(0.053) case "WA" => Some(0.065) case "WV" => Some(0.06)
    case "WI" => Some(0.05)  case "WY" => Some(0.04)
    case _ => None
  }

  /** The codes offered by the state selector: the keys of the tax table. */
  predicate IsStateCode(code: string)
  {
    StateTaxRate(code).Some?
  }

  /** The states whose table rate is zero. */
  const NO_SALES_TAX_STATES: set<string> := {"AK", "DE", "MT", "NH", "OR"}

  /**
   * The carrier table, keyed by the identifier the carrier selector uses.
   * Every carrier has a positive flat fee and a positive per-pound rate.
   */
  function CarrierRateOf(carrierId: string): (r: Option<CarrierRate>)
    ensures r.Some? ==> r.value.base > 0.0 && r.value.perLb > 0.0
  {
    match carrierId
    case "USPS_Ground" => Some(CarrierRate(4.95, 0.85, "USPS Ground"))
    case "USPS_Priority" => Some(CarrierRate(8.95, 1.25, "USPS Priority"))
    case "UPS_Ground" => Some(CarrierRate(7.95, 1.15, "UPS Ground"))
    case "UPS_3Day" => Some(CarrierRate(12.95, 2.25, "UPS 3-Day"))
    case "FedEx_Ground" => Some(CarrierRate(8.45, 1.35, "FedEx Ground"))
    case "FedEx_Express" => Some(CarrierRate(15.95, 2.85, "FedEx Express"))
    case "Amazon_Standard" => Some(CarrierRate(4.50, 0.99, "Amazon Standard"))
    case _ => None
  }

  /** The identifiers offered by the carrier selector: the keys of the carrier table. */
  predicate IsCarrier(carrierId: string)
  {
    CarrierRateOf(carrierId).Some?
  }

  /** The per-unit product weights, in pounds; every one is positive. */
  function ProductWeight(id: string): (r: Option<real>)
    ensures r.Some? ==> r.value > 0.0
  {
    match id
    case "20w-dual-adapter" => Some(0.25)
    case "65w-laptop-charger" => Some(0.45)
    case "100w-hub-charger" => Some(0.55)
    case "usb-c-to-usb-c" => Some(0.18)
    case "usb-c-to-usb-a" => Some(0.18)
    case "usb-c-to-lightning" => Some(0.18)
    case _ => None
  }

  // ---------------------------------------------------------------------
  // Table lookups
  // ---------------------------------------------------------------------

  /**
   * The source's `value || fallback` on a looked-up number: a missing
   * entry and a zero entry are both falsy and give the fallback.
   */
  function Fallback(v: Option<real>, fallback: real): (r: real)
    ensures v.None? ==> r == fallback
    ensures v.Some? && v.value == 0.0 ==> r == fallback
    ensures v.Some? && v.value != 0.0 ==> r == v.value
  {
    if v.Some? && v.value != 0.0 then v.value else fallback
  }

  /**
   * Weight of one unit of a product. Because no table weight is zero, the
   * falsy fallback is exactly "the table weight, or 0.18 when absent".
   */
  function UnitWeight(id: string): (w: real)
    ensures w == if ProductWeight(id).Some? then ProductWeight(id).value else DEFAULT_UNIT_WEIGHT
    ensures w > 0.0
  {
    Fallback(ProductWeight(id), DEFAULT_UNIT_WEIGHT)
  }

  /**
   * Sales-tax rate of a state. The falsy fallback agrees with "the table
   * rate, or 0 when absent", and every rate lies in [0, 1).
   */
  function TaxRate(region: string): (rate: real)
    ensures rate == if IsStateCode(region) then StateTaxRate(region).value else 0.0
    ensures 0.0 <= rate < 1.0
  {
    Fallback(StateTaxRate(region), 0.0)
  }

  /** Exactly the five no-sales-tax states, and unknown codes, have rate 0. */
  lemma ZeroTaxRate(region: string)
    ensures TaxRate(region) == 0.0 <==> !IsStateCode(region) || region in NO_SALES_TAX_STATES
  {
  }

  // ---------------------------------------------------------------------
  // Cart weight
  // ---------------------------------------------------------------------

  /** Weight contributed by one cart line. */
  function LineWeight(item: CartItem): real
  {
    UnitWeight(item.id) * item.qty
  }

  /** Reference definition: the sum of the line weights. */
  function SumOfLineWeights(cart: seq<CartItem>): real
  {
    if cart == [] then 0.0 else LineWeight(cart[0]) + SumOfLineWeights(cart[1..])
  }

  /**
   * The source's left fold, starting from accumulator `acc`; with no
   * negative quantity it never goes below its starting value.
   */
  function WeightFold(acc: real, cart: seq<CartItem>): (r: real)
    ensures NonNegativeQuantities(cart) ==> r >= acc
    decreases |cart|
  {
    if cart == [] then acc else WeightFold(acc + LineWeight(cart[0]), cart[1..])
  }

  lemma {:induction false} WeightFoldIsSum(acc: real, cart: seq<CartItem>)
    ensures WeightFold(acc, cart) == acc + SumOfLineWeights(cart)
    decreases |cart|
  {
    if cart != [] {
      WeightFoldIsSum(acc + LineWeight(cart[0]), cart[1..]);
    }
  }

  /** Total package weight of a cart: the fold started at 0. */
  function TotalWeight(cart: seq<CartItem>): (w: real)
    ensures w == SumOfLineWeights(cart)
    ensures cart == [] ==> w == 0.0
  {
    WeightFoldIsSum(0.0, cart);
    WeightFold(0.0, cart)
  }

  predicate NonNegativeQuantities(cart: seq<CartItem>)
  {
    forall i | 0 <= i < |cart| :: cart[i].qty >= 0.0
  }

  lemma {:induction false} SumOfLineWeightsAppend(a: seq<CartItem>, b: seq<CartItem>)
    ensures SumOfLineWeights(a + b) == SumOfLineWeights(a) + SumOfLineWeights(b)
    decreases |a|
  {
    if a == [] {
      assert a + b == b;
    } else {
      assert (a + b)[0] == a[0] && (a + b)[1..] == a[1..] + b;
      SumOfLineWeightsAppend(a[1..], b);
    }
  }

  /** Weight is additive over cart concatenation. */
  lemma TotalWeightAppend(a: seq<CartItem>, b: seq<CartItem>)
    ensures TotalWeight(a + b) == TotalWeight(a) + TotalWeight(b)
  {
    SumOfLineWeightsAppend(a, b);
  }

  lemma {:induction false} SumOfLineWeightsNonNegative(cart: seq<CartItem>)
    requires NonNegativeQuantities(cart)
    ensures SumOfLineWeights(cart) >= 0.0
    decreases |cart|
  {
    if cart != [] {
      assert cart[0].qty >= 0.0;
      SumOfLineWeightsNonNegative(cart[1..]);
    }
  }

  /** No cart with non-negative quantities weighs less than nothing. */
  lemma TotalWeightNonNegative(cart: seq<CartItem>)
    ensures NonNegativeQuantities(cart) ==> TotalWeight(cart) >= 0.0
  {
    if NonNegativeQuantities(cart) {
      SumOfLineWeightsNonNegative(cart);
    }
  }

  /** Adding a line with a positive quantity makes the package strictly heavier. */
  lemma TotalWeightAddLine(cart: seq<CartItem>, item: CartItem)
    requires item.qty > 0.0
    ensures TotalWeight(cart + [item]) > TotalWeight(cart)
  {
    SumOfLineWeightsAppend(cart, [item]);
    assert SumOfLineWeights([item]) == LineWeight(item);
  }

  // ---------------------------------------------------------------------
  // Shipping and tax
  // ---------------------------------------------------------------------

  /** The free-shipping policy: heavy enough or expensive enough. */
  predicate QualifiesForFreeShipping(weight: real, subtotal: real)
  {
    weight >= FREE_SHIPPING_WEIGHT || subtotal >= FREE_SHIPPING_SUBTOTAL
  }

  /**
   * Shipping for a carrier. The carrier is looked up only when shipping is
   * not free, so an unknown carrier is harmless exactly when it is free.
   */
  function ShippingCost(carrierId: string, weight: real, subtotal: real): (cost: real)
    requires QualifiesForFreeShipping(weight, subtotal) || IsCarrier(carrierId)
    ensures weight >= 0.0 ==> (cost == 0.0 <==> QualifiesForFreeShipping(weight, subtotal))
    ensures !QualifiesForFreeShipping(weight, subtotal) && weight >= 0.0 ==>
              cost >= CarrierRateOf(carrierId).value.base
  {
    if QualifiesForFreeShipping(weight, subtotal) then 0.0
    else
      var carrier := CarrierRateOf(carrierId).value;
      carrier.base + carrier.perLb * weight
  }

  /** Free shipping costs nothing, whatever carrier is selected. */
  lemma FreeShippingForEveryCarrier(weight: real, subtotal: real)
    requires QualifiesForFreeShipping(weight, subtotal)
    ensures forall c: string :: ShippingCost(c, weight, subtotal) == 0.0
  {
  }

  /** Below both thresholds the carrier's flat fee plus its per-pound rate is charged. */
  lemma PaidShipping(carrierId: string, weight: real, subtotal: real)
    requires IsCarrier(carrierId)
    requires weight < FREE_SHIPPING_WEIGHT && subtotal < FREE_SHIPPING_SUBTOTAL
    ensures ShippingCost(carrierId, weight, subtotal)
            == CarrierRateOf(carrierId).value.base + CarrierRateOf(carrierId).value.perLb * weight
  {
  }

  /** Below the thresholds a heavier package never ships for less. */
  lemma PaidShippingMonotone(carrierId: string, w1: real, w2: real, subtotal: real)
    requires IsCarrier(carrierId)
    requires w1 <= w2 < FREE_SHIPPING_WEIGHT && subtotal < FREE_SHIPPING_SUBTOTAL
    ensures ShippingCost(carrierId, w1, subtotal) <= ShippingCost(carrierId, w2, subtotal)
  {
    var c := CarrierRateOf(carrierId).value;
    assert c.perLb * w1 <= c.perLb * w2;
  }

  /** Sales tax on a subtotal. */
  function Tax(subtotal: real, region: string): (tax: real)
    ensures tax == subtotal * TaxRate(region)
    ensures !IsStateCode(region) || region in NO_SALES_TAX_STATES ==> tax == 0.0
    ensures subtotal >= 0.0 ==> 0.0 <= tax <= subtotal
    ensures subtotal > 0.0 ==> tax < subtotal
  {
    ZeroTaxRate(region);
    var rate := TaxRate(region);
    assert subtotal >= 0.0 ==> subtotal * rate <= subtotal * 1.0;
    subtotal * rate
  }

  /**
   * One pricing computation: nothing while a state or a carrier is still
   * unselected, otherwise the shipping and tax amounts.
   */
  function Quote(subtotal: real, weight: real, region: string, carrierId: string): (q: Option<Charges>)
    requires region == "" || carrierId == "" || QualifiesForFreeShipping(weight, subtotal) || IsCarrier(carrierId)
    ensures q.None? <==> region == "" || carrierId == ""
    ensures q.Some? ==> q.value.tax == subtotal * TaxRate(region)
    ensures q.Some? && QualifiesForFreeShipping(weight, subtotal) ==> q.value.shipping == 0.0
    ensures q.Some? && !QualifiesForFreeShipping(weight, subtotal) ==>
              q.value.shipping == CarrierRateOf(carrierId).value.base + CarrierRateOf(carrierId).value.perLb * weight
  {
    if region == "" || carrierId == "" then None
    else Some(Charges(ShippingCost(carrierId, weight, subtotal), Tax(subtotal, region)))
  }

  /** The order total shown at checkout for a cart and the current selections. */
  function OrderTotal(total: real, cart: seq<CartItem>, region: string, carrierId: string): (t: real)
    requires carrierId == "" || IsCarrier(carrierId)
    ensures region == "" || carrierId == "" ==> t == total
    ensures total >= 0.0 && NonNegativeQuantities(cart) ==> t >= total
  {
    match Quote(total, TotalWeight(cart), region, carrierId)
    case None => total
    case Some(c) =>
      TotalWeightNonNegative(cart);
      total + c.shipping + c.tax
  }

  /**
   * With both selections made, the order total is the subtotal plus the
   * shipping for the cart's weight plus the subtotal taxed at the state's rate.
   */
  lemma OrderTotalWhenReady(total: real, cart: seq<CartItem>, region: string, carrierId: string)
    requires IsStateCode(region) && IsCarrier(carrierId)
    ensures OrderTotal(total, cart, region, carrierId)
            == total + ShippingCost(carrierId, TotalWeight(cart), total) + total * TaxRate(region)
  {
    assert region != "" && carrierId != "";
  }

  /** The two worked examples of the pricing rules. */
  lemma CheckoutExamples()
    ensures TotalWeight([CartItem("65w-laptop-charger", "65W Laptop Charger", 25.0, 2.0)]) == 0.90
    ensures OrderTotal(50.0, [CartItem("65w-laptop-charger", "65W Laptop Charger", 25.0, 2.0)], "CA", "USPS_Ground")
            == 59.34
    ensures forall cart: seq<CartItem>, c: string | IsCarrier(c) ::
              Quote(90.0, TotalWeight(cart), "NY", c) == Some(Charges(0.0, 7.20))
  {
    var cart := [CartItem("65w-laptop-charger", "65W Laptop Charger", 25.0, 2.0)];
    assert SumOfLineWeights(cart) == LineWeight(cart[0]);
  }
}
