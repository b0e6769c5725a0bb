/**
 * The checkout section: it renders the calculator with its own total as
 * the calculator's subtotal, keeps its own copy of the shipping and tax
 * amounts (overwritten by the calculator's callback), shows the final
 * total, and offers four payment actions that only report amounts.
 */
module Checkout {
  import opened Pricing
  import opened ShippingCalculatorComponent

  /** The amounts printed on the payment QR receipt. */
  datatype Receipt = Receipt(subtotal: real, shipping: real, tax: real, total: real)

  class CheckoutSection {
    // props
    var total: real
    var cart: seq<CartItem>
    // component state
    var shippingCost: real
    var taxAmount: real
    /** The rendered calculator, whose callback is HandleShippingChange. */
    const calculator: ShippingCalculator

    /**
     * The calculator is rendered with this section's total and cart, and
     * the amounts held here are the ones the calculator last reported.
     */
    ghost predicate Valid()
      reads this, calculator
    {
      && calculator.Valid()
      && calculator.subtotal == total
      && calculator.cart == cart
      && shippingCost == calculator.shippingCost
      && taxAmount == calculator.taxAmount
    }

    /** The total shown and charged: subtotal plus shipping plus tax. */
    function FinalTotal(): real
      reads this
    {
      total + shippingCost + taxAmount
    }

    constructor (total: real, cart: seq<CartItem>)
      ensures Valid() && fresh(calculator)
      ensures this.total == total && this.cart == cart
      ensures calculator.state == "" && calculator.shippingMethod == ""
      ensures shippingCost == 0.0 && taxAmount == 0.0
      ensures FinalTotal() == total
    {
      this.total := total;
      this.cart := cart;
      shippingCost := 0.0;
      taxAmount := 0.0;
      calculator := new ShippingCalculator(total, cart);
    }

    /** The calculator's callback: overwrite both amounts, nothing else. */
    method HandleShippingChange(shipping: real, tax: real)
      modifies this`shippingCost, this`taxAmount
      ensures shippingCost == shipping && taxAmount == tax
    {
      shippingCost := shipping;
      taxAmount := tax;
    }

    /** Forwards what the calculator reported, if anything, to the callback. */
    method Deliver(notified: Option<Charges>)
      modifies this`shippingCost, this`taxAmount
      ensures notified.None? ==> shippingCost == old(shippingCost) && taxAmount == old(taxAmount)
      ensures notified.Some? ==> shippingCost == notified.value.shipping && taxAmount == notified.value.tax
    {
      if notified.Some? {
        HandleShippingChange(notified.value.shipping, notified.value.tax);
      }
    }

    /**
     * Whatever has happened so far, the final total is the order total of
     * the current cart and selections: the subtotal alone until both are
     * made, then subtotal plus the quoted shipping and tax.
     */
    lemma FinalTotalIsOrderTotal()
      requires Valid()
      ensures calculator.shippingMethod == "" || IsCarrier(calculator.shippingMethod)
      ensures FinalTotal() == OrderTotal(total, cart, calculator.state, calculator.shippingMethod)
    {
      var q := Quote(total, TotalWeight(cart), calculator.state, calculator.shippingMethod);
      if calculator.Ready() {
        assert q == Some(Charges(shippingCost, taxAmount));
      }
    }

    /** The user picks a state in the rendered calculator. */
    method OnStateSelected(code: string)
      requires Valid() && IsStateCode(code)
      modifies this`shippingCost, this`taxAmount, calculator`state, calculator`shippingCost, calculator`taxAmount
      ensures Valid()
      ensures calculator.state == code && calculator.shippingMethod == old(calculator.shippingMethod)
      ensures FinalTotal() == OrderTotal(total, cart, code, calculator.shippingMethod)
    {
      var notified := calculator.SelectState(code);
      Deliver(notified);
      FinalTotalIsOrderTotal();
    }

    /** The user picks a carrier in the rendered calculator. */
    method OnShippingMethodSelected(carrierId: string)
      requires Valid() && IsCarrier(carrierId)
      modifies this`shippingCost, this`taxAmount, calculator`shippingMethod, calculator`shippingCost, calculator`taxAmount
      ensures Valid()
      ensures calculator.shippingMethod == carrierId && calculator.state == old(calculator.state)
      ensures FinalTotal() == OrderTotal(total, cart, calculator.state, carrierId)
    {
      var notified := calculator.SelectShippingMethod(carrierId);
      Deliver(notified);
      FinalTotalIsOrderTotal();
    }

    /** The section is rendered with a new total and cart, which it passes on. */
    method ReceiveProps(newTotal: real, newCart: seq<CartItem>)
      requires Valid()
      modifies this`total, this`cart, this`shippingCost, this`taxAmount,
               calculator`subtotal, calculator`cart, calculator`shippingCost, calculator`taxAmount
      ensures Valid() && total == newTotal && cart == newCart
      ensures calculator.state == old(calculator.state) && calculator.shippingMethod == old(calculator.shippingMethod)
      ensures FinalTotal() == OrderTotal(newTotal, newCart, calculator.state, calculator.shippingMethod)
    {
      total, cart := newTotal, newCart;
      var notified := calculator.ReceiveProps(newTotal, newCart);
      Deliver(notified);
      FinalTotalIsOrderTotal();
    }

    /** Card payment: announces the amount to charge; changes no state. */
    method HandleStripePayment() returns (amount: real)
      ensures amount == total + shippingCost + taxAmount
    {
      amount := FinalTotal();
    }

    /** Crypto payment: announces the amount to charge; changes no state. */
    method HandleCryptoPayment() returns (amount: real)
      ensures amount == total + shippingCost + taxAmount
    {
      amount := FinalTotal();
    }

    /** Cash or Pi payment: announces the amount to settle; changes no state. */
    method HandleCashPiPayment() returns (amount: real)
      ensures amount == total + shippingCost + taxAmount
    {
      amount := FinalTotal();
    }

    /**
     * QR payment: the receipt lists subtotal, shipping and tax, and a
     * total that is their sum; changes no state.
     */
    method HandleQRPayment() returns (receipt: Receipt)
      ensures receipt.subtotal == total && receipt.shipping == shippingCost && receipt.tax == taxAmount
      ensures receipt.total == receipt.subtotal + receipt.shipping + receipt.tax
    {
      receipt := Receipt(total, shippingCost, taxAmount, FinalTotal());
    }
  }

  /**
   * A checkout session from first render to both selections: the final
   * total starts as the bare total and ends as the quoted order total,
   * whichever selection comes first.
   */
  method CheckoutSession(total: real, cart: seq<CartItem>, code: string, carrierId: string, stateFirst: bool)
    returns (before: real, after: real)
    requires IsStateCode(code) && IsCarrier(carrierId)
    ensures before == total
    ensures after == total + ShippingCost(carrierId, TotalWeight(cart), total) + total * TaxRate(code)
  {
    var section := new CheckoutSection(total, cart);
    before := section.FinalTotal();
    if stateFirst {
      section.OnStateSelected(code);
      section.OnShippingMethodSelected(carrierId);
    } else {
      section.OnShippingMethodSelected(carrierId);
      section.OnStateSelected(code);
    }
    after := section.HandleStripePayment();
    OrderTotalWhenReady(total, cart, code, carrierId);
  }
}
