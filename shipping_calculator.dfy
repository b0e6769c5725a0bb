/**
 * The shipping and tax calculator component: its props (subtotal and
 * cart), the two selections the user makes (state and carrier), and the
 * two amounts it stores and reports to its parent after each
 * computation. The parent's callback is modelled by returning what was
 * passed to it: `Some(charges)` when it was called, `None` when not.
 */
module ShippingCalculatorComponent {
  import opened Pricing

  class ShippingCalculator {
    // props
    var subtotal: real
    var cart: seq<CartItem>
    // component state
    var state: string
    var shippingMethod: string
    var shippingCost: real
    var taxAmount: real

    /** Package weight of the current cart. */
    function Weight(): real
      reads this
    {
      TotalWeight(cart)
    }

    /** The free-shipping banner's condition, recomputed from the current props. */
    predicate FreeShippingShown()
      reads this
    {
      QualifiesForFreeShipping(Weight(), subtotal)
    }

    /** Both selections have been made. */
    predicate Ready()
      reads this
    {
      state != "" && shippingMethod != ""
    }

    function Stored(): Charges
      reads this
    {
      Charges(shippingCost, taxAmount)
    }

    /**
     * The selectors only offer keys of the tax and carrier tables, and the
     * stored amounts are those of the computation for the current props and
     * selections, or still the initial zeros while a selection is missing.
     */
    ghost predicate Valid()
      reads this
    {
      && (state == "" || IsStateCode(state))
      && (shippingMethod == "" || IsCarrier(shippingMethod))
      && (Ready() ==> Quote(subtotal, Weight(), state, shippingMethod) == Some(Stored()))
      && (!Ready() ==> Stored() == Charges(0.0, 0.0))
    }

    constructor (subtotal: real, cart: seq<CartItem>)
      ensures Valid()
      ensures this.subtotal == subtotal && this.cart == cart
      ensures state == "" && shippingMethod == ""
      ensures Stored() == Charges(0.0, 0.0)
    {
      this.subtotal := subtotal;
      this.cart := cart;
      state := "";
      shippingMethod := "";
      shippingCost := 0.0;
      taxAmount := 0.0;
    }

    /**
     * One computation: nothing happens until both selections are made;
     * then shipping (free above either threshold, otherwise the carrier's
     * flat fee plus its per-pound rate) and tax are stored and reported.
     * The requires is the condition under which the carrier lookup cannot
     * fail.
     */
    method CalculateShipping() returns (notified: Option<Charges>)
      requires state == "" || shippingMethod == "" || FreeShippingShown() || IsCarrier(shippingMethod)
      modifies this`shippingCost, this`taxAmount
      ensures notified == Quote(subtotal, Weight(), state, shippingMethod)
      ensures notified.None? ==> shippingCost == old(shippingCost) && taxAmount == old(taxAmount)
      ensures notified.Some? ==> Stored() == notified.value
    {
      if shippingMethod == "" || state == "" {
        return None;
      }
      var totalWeight := TotalWeight(cart);
      var qualifiesForFreeShipping := QualifiesForFreeShipping(totalWeight, subtotal);
      var shipping := 0.0;
      if !qualifiesForFreeShipping {
        var carrier := CarrierRateOf(shippingMethod).value;
        shipping := carrier.base + carrier.perLb * totalWeight;
      }
      var taxRate := Fallback(StateTaxRate(state), 0.0);
      var tax := subtotal * taxRate;
      shippingCost := shipping;
      taxAmount := tax;
      notified := Some(Charges(shipping, tax));
    }

    /** The user picks a state; the computation reruns if the value changed. */
    method SelectState(code: string) returns (notified: Option<Charges>)
      requires Valid() && IsStateCode(code)
      modifies this`state, this`shippingCost, this`taxAmount
      ensures Valid() && state == code
      ensures notified == if old(state) == code then None else Quote(subtotal, Weight(), code, shippingMethod)
      ensures notified.Some? ==> notified.value == Stored()
    {
      if state == code {
        return None;
      }
      state := code;
      notified := CalculateShipping();
    }

    /** The user picks a carrier; the computation reruns if the value changed. */
    method SelectShippingMethod(carrierId: string) returns (notified: Option<Charges>)
      requires Valid() && IsCarrier(carrierId)
      modifies this`shippingMethod, this`shippingCost, this`taxAmount
      ensures Valid() && shippingMethod == carrierId
      ensures notified == if old(shippingMethod) == carrierId then None else Quote(subtotal, Weight(), state, carrierId)
      ensures notified.Some? ==> notified.value == Stored()
    {
      if shippingMethod == carrierId {
        return None;
      }
      shippingMethod := carrierId;
      notified := CalculateShipping();
    }

    /**
     * The parent renders the calculator with new props; the computation
     * reruns if the subtotal or the package weight changed.
     */
    method ReceiveProps(newSubtotal: real, newCart: seq<CartItem>) returns (notified: Option<Charges>)
      requires Valid()
      modifies this`subtotal, this`cart, this`shippingCost, this`taxAmount
      ensures Valid() && subtotal == newSubtotal && cart == newCart
      ensures notified == if old(subtotal) == newSubtotal && old(Weight()) == TotalWeight(newCart) then None
                          else Quote(newSubtotal, TotalWeight(newCart), state, shippingMethod)
      ensures notified.Some? ==> notified.value == Stored()
    {
      var changed := subtotal != newSubtotal || TotalWeight(cart) != TotalWeight(newCart);
      subtotal, cart := newSubtotal, newCart;
      if !changed {
        return None;
      }
      notified := CalculateShipping();
    }

    /**
     * Once both selections are made, the free-shipping banner is shown
     * exactly when the stored shipping is zero (for a package of
     * non-negative weight), and otherwise the carrier's fee is charged.
     */
    lemma FreeBannerMatchesCharge()
      requires Valid() && Ready()
      ensures FreeShippingShown() ==> shippingCost == 0.0
      ensures Weight() >= 0.0 ==> (shippingCost == 0.0 <==> FreeShippingShown())
      ensures !FreeShippingShown() ==>
                shippingCost == CarrierRateOf(shippingMethod).value.base
                                + CarrierRateOf(shippingMethod).value.perLb * Weight()
    {
    }
  }
}
