# Checkout pricing rules, modelled in Dafny

This project models the pricing logic of a storefront checkout. Two UI components hold it:

- The shipping and tax calculator (`ShippingCalculator`) estimates the package weight from the cart. It uses a per-product weight table, with 0.18 lb for unknown products.
- Once the shopper has picked a US state and a carrier, the calculator computes the shipping and the sales tax:
  - Shipping is free at 35 lb or more, or at a subtotal of 85 or more. Otherwise it is the carrier's flat fee plus its per-pound rate times the weight.
  - Tax is the subtotal times the state's rate, and 0 for an unknown state.
- The calculator stores both amounts and reports them to its parent through a callback.
- The checkout section (`CheckoutSection`) renders the calculator with its own total as the subtotal. It keeps the reported amounts (both start at 0) and shows `total + shipping + tax` as the final total. Its four payment buttons only announce that amount.

Files:

- `pricing.dfy`, module `Pricing`:
  - the three constant tables (state tax rates, carrier rates, product weights), as lookup functions that return `None` for a missing key;
  - the JavaScript `value || fallback` rule, and the cart-weight fold with a reference sum;
  - the free-shipping predicate, shipping, tax, one full quote, and the order total;
  - the lemmas about all of these.
- `shipping_calculator.dfy`, module `ShippingCalculatorComponent`: class `ShippingCalculator`.
  - Its fields are the props (subtotal, cart), the two selections and the two stored amounts.
  - `CalculateShipping` is the imperative computation.
  - The selection handlers and the props update rerun it when a dependency changed.
  - The callback is modelled by returning what was passed to it (`Some(charges)`, or `None` when it was not called).
- `checkout_section.dfy`, module `Checkout`: class `CheckoutSection`.
  - It owns the calculator.
  - `Valid()` says that its two amounts mirror the calculator's.
  - It has the callback `HandleShippingChange`, the final total and the payment handlers.
  - The client method `CheckoutSession` runs a whole session.

Money, weight and quantities are `real` (exact rationals), as the source's numbers are. A quantity may be negative or fractional, as in the source. No rounding is modelled.

Unknown selections:

- Only an empty selection skips the computation.
- A non-empty carrier that is not in the table makes the carrier lookup throw, unless shipping is free. The model states this as the `requires` of `Quote`, `ShippingCost` and `CalculateShipping`: the carrier must be known, or shipping free, or a selection still missing.
- The calculator's invariant keeps this true, because the selector offers only table keys.

## Model

| member | source | states |
|---|---|---|
| `Pricing.StateTaxRate` | src/components/ShippingCalculator.tsx:21-32 | the state tax table (missing key gives `None`): every rate lies in [0, 1), and a rate is 0 exactly for AK, DE, MT, NH and OR |
| `Pricing.CarrierRateOf` | src/components/ShippingCalculator.tsx:34-42 | the carrier table (missing key gives `None`): every carrier has a flat fee > 0 and a per-pound rate > 0 |
| `Pricing.ProductWeight` | src/components/ShippingCalculator.tsx:45-53 | the product weight table (missing key gives `None`): every weight is > 0 |
| `Pricing.Fallback` | src/components/ShippingCalculator.tsx:65 | the falsy-or fallback: a missing entry or a zero entry gives the fallback, a non-zero entry gives the entry |
| `Pricing.UnitWeight` | src/components/ShippingCalculator.tsx:65 | the falsy fallback equals "table weight, or 0.18 when absent", and the result is > 0 |
| `Pricing.TaxRate` | src/components/ShippingCalculator.tsx:84 | the falsy fallback equals "table rate, or 0 when absent", and the result lies in [0, 1) |
| `Pricing.ZeroTaxRate` | src/components/ShippingCalculator.tsx:21-32 | the rate is 0 exactly for AK, DE, MT, NH, OR and for codes not in the table (both directions) |
| `Pricing.WeightFold` | src/components/ShippingCalculator.tsx:64-67 | the `reduce` itself, a left fold from an accumulator; with no negative quantity the result is never below the accumulator (characterized by `WeightFoldIsSum`) |
| `Pricing.WeightFoldIsSum` | src/components/ShippingCalculator.tsx:63-68 | the left fold from accumulator `acc` equals `acc` plus the sum of the line weights |
| `Pricing.TotalWeight` | src/components/ShippingCalculator.tsx:63-68 | the fold started at 0 is the sum over lines of unit weight × qty; an empty cart weighs 0 |
| `Pricing.SumOfLineWeightsAppend` | src/components/ShippingCalculator.tsx:64-67 | the line-weight sum is additive over concatenation (induction) |
| `Pricing.TotalWeightAppend` | src/components/ShippingCalculator.tsx:64-67 | the weight of `a + b` is the weight of `a` plus the weight of `b` |
| `Pricing.SumOfLineWeightsNonNegative` | src/components/ShippingCalculator.tsx:64-67 | with all quantities ≥ 0 the line-weight sum is ≥ 0 (induction) |
| `Pricing.TotalWeightNonNegative` | src/components/ShippingCalculator.tsx:45-53 | with all quantities ≥ 0 the cart weight is ≥ 0 |
| `Pricing.TotalWeightAddLine` | src/components/ShippingCalculator.tsx:64-67 | adding a line with qty > 0 strictly increases the weight |
| `Pricing.QualifiesForFreeShipping` | src/components/ShippingCalculator.tsx:76 | the free-shipping predicate, weight ≥ 35 or subtotal ≥ 85; the same predicate is the banner's at line 99 (`FreeBannerMatchesCharge`), and `ShippingCost`, `FreeShippingForEveryCarrier` and `PaidShipping` characterize its effect |
| `Pricing.ShippingCost` | src/components/ShippingCalculator.tsx:76-82 | for a non-negative weight, shipping is 0 exactly when the free-shipping predicate holds; otherwise it is at least the carrier's flat fee |
| `Pricing.FreeShippingForEveryCarrier` | src/components/ShippingCalculator.tsx:76-79 | at weight ≥ 35 or subtotal ≥ 85, shipping is 0 for every carrier id |
| `Pricing.PaidShipping` | src/components/ShippingCalculator.tsx:80-81 | below both thresholds, shipping is exactly the carrier's base plus perLb × weight |
| `Pricing.PaidShippingMonotone` | src/components/ShippingCalculator.tsx:80-81 | below the thresholds, a heavier package never ships for less |
| `Pricing.Tax` | src/components/ShippingCalculator.tsx:84-85 | tax is subtotal × `TaxRate` (table rate, or 0); it is 0 for the five no-tax states and for unknown codes; for a subtotal ≥ 0 it lies between 0 and the subtotal, and for a subtotal > 0 it is strictly below it |
| `Pricing.Quote` | src/components/ShippingCalculator.tsx:72-90 | there is no result exactly when the state or the carrier is empty; otherwise tax is subtotal × rate, and shipping is 0 when free and base + perLb × weight when not |
| `Pricing.OrderTotal` | src/components/CheckoutSection.tsx:22 | the order total is the bare total while a selection is missing, and never below the total for a non-negative total and quantities |
| `Pricing.OrderTotalWhenReady` | src/components/CheckoutSection.tsx:22 | with both selections made: total + shipping(total, weight, carrier) + total × rate(state) |
| `Pricing.CheckoutExamples` | src/components/CheckoutSection.tsx:22 | two chargers (0.45 lb each) weigh 0.90, CA with USPS Ground on 50 gives 59.34, and NY on 90 with any carrier gives free shipping and tax 7.20 (weight and tax as computed at ShippingCalculator.tsx lines 63-90, the total as at this line) |
| `ShippingCalculatorComponent.ShippingCalculator.constructor` | src/components/ShippingCalculator.tsx:55-60 | both selections start empty, both stored amounts start at 0, and the invariant holds |
| `ShippingCalculatorComponent.ShippingCalculator.CalculateShipping` | src/components/ShippingCalculator.tsx:72-90 | what the callback receives equals the `Quote`; when a selection is empty nothing is stored and nothing is reported; otherwise the stored amounts equal the reported ones |
| `ShippingCalculatorComponent.ShippingCalculator.SelectState` | src/components/ShippingCalculator.tsx:93-97 | the state is set; the computation reruns only when the value changed; the invariant (stored amounts equal the quote, or 0 before both selections) is kept |
| `ShippingCalculatorComponent.ShippingCalculator.SelectShippingMethod` | src/components/ShippingCalculator.tsx:93-97 | the same as `SelectState`, for the carrier |
| `ShippingCalculatorComponent.ShippingCalculator.ReceiveProps` | src/components/ShippingCalculator.tsx:93-97 | new props; the computation reruns only when the subtotal or the weight changed; the invariant is kept |
| `ShippingCalculatorComponent.ShippingCalculator.FreeBannerMatchesCharge` | src/components/ShippingCalculator.tsx:99 | the displayed free-shipping condition is the one the charge used: when it is shown, shipping is 0; for weight ≥ 0, shipping is 0 exactly when it is shown; otherwise base + perLb × weight is charged |
| `Checkout.CheckoutSection.constructor` | src/components/CheckoutSection.tsx:18-22 | both amounts start at 0, so the final total is the bare total |
| `Checkout.CheckoutSection.FinalTotal` | src/components/CheckoutSection.tsx:22 | the final total, total + shipping + tax; `FinalTotalIsOrderTotal` ties it to `OrderTotal` of the current inputs |
| `Checkout.CheckoutSection.HandleShippingChange` | src/components/CheckoutSection.tsx:24-27 | overwrites shipping and tax with the reported values, and nothing else (frame) |
| `Checkout.CheckoutSection.Deliver` | src/components/CheckoutSection.tsx:59 | the callback runs exactly when the calculator reported; otherwise both amounts are unchanged |
| `Checkout.CheckoutSection.FinalTotalIsOrderTotal` | src/components/CheckoutSection.tsx:22 | under the invariant, the final total equals `OrderTotal` of the current total, cart and selections |
| `Checkout.CheckoutSection.OnStateSelected` | src/components/CheckoutSection.tsx:59 | after the user picks a state, the invariant holds and the final total is the order total for the new selection |
| `Checkout.CheckoutSection.OnShippingMethodSelected` | src/components/CheckoutSection.tsx:59 | the same as `OnStateSelected`, for the carrier |
| `Checkout.CheckoutSection.ReceiveProps` | src/components/CheckoutSection.tsx:59 | with a new total and cart (passed on as the subtotal and cart), the final total is the order total for them |
| `Checkout.CheckoutSection.HandleStripePayment` | src/components/CheckoutSection.tsx:29-33 | announces total + shipping + tax; no `modifies`, so the amounts stay as they were |
| `Checkout.CheckoutSection.HandleCryptoPayment` | src/components/CheckoutSection.tsx:35-39 | announces total + shipping + tax; changes no state |
| `Checkout.CheckoutSection.HandleCashPiPayment` | src/components/CheckoutSection.tsx:41-43 | announces total + shipping + tax; changes no state |
| `Checkout.CheckoutSection.HandleQRPayment` | src/components/CheckoutSection.tsx:45-55 | the receipt lists the total, shipping and tax, and its total is their sum; changes no state |
| `Checkout.CheckoutSession` | src/components/CheckoutSection.tsx:19-27 | the final total starts as the bare total; after both selections, in either order, it is total + shipping(total, weight, carrier) + total × rate(state) |

## Left out

- Rendering: cards, selectors, labels, CSS and icons. The display condition at ShippingCalculator.tsx line 164 is also out. All of these are presentation only.
- The ZIP code field. It is captured but never used in pricing.
- React scheduling: an effect reruns the computation when one of its dependencies changes. The model makes that call explicit in the handlers that change a dependency. A change of cart that keeps the weight is treated like React treats it: it does not rerun the computation.
- The callback `onShippingChange` is modelled as the calculator returning what it passes. The section then forwards that to `HandleShippingChange`.
- `alert`, `console.log` and `window.open`, the QR service URL, and the `try`/`catch` around it. These are foreign side effects. The payment handlers return the amounts they would show.
- `toFixed(2)` formatting and the receipt text. Only the receipt's four amounts are modelled.
- IEEE-754 doubles. All amounts are exact rationals, so the model has no rounding error.
- Object-prototype keys: a JavaScript object literal also answers keys such as `toString`. The tables here answer only their listed keys.
- Falsy values other than a missing entry or 0 (such as `NaN`) cannot arise from these tables, so they are not modelled.
- `Pricing.ShippingCost`: requires the carrier to be known unless shipping is free. In the source, an unknown non-empty carrier throws a `TypeError`; the model does not describe that crash.
- `ShippingCalculatorComponent.ShippingCalculator.CalculateShipping`: same precondition, for the same reason.
