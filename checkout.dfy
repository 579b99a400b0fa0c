/** The checkout wizard: four steps (cart, delivery, payment,
    confirmation), clamped next/previous moves, the required-fields guard
    on the delivery step and the payment step that empties the cart. */
module Checkout {
  import opened Wrappers
  import opened CartContext
  import CartPage

  datatype StepInfo = StepInfo(id: int, name: string)

  const Steps: seq<StepInfo> := [
    StepInfo(1, "Panier"), StepInfo(2, "Livraison"),
    StepInfo(3, "Paiement"), StepInfo(4, "Confirmation")]

  const FirstStep := 1
  const LastStep := 4

  datatype ShippingInfo = ShippingInfo(
    firstName: string, lastName: string, email: string, phone: string,
    address: string, city: string, postalCode: string, country: string)

  const InitialShippingInfo := ShippingInfo("", "", "", "", "", "", "", "France")

  /** The delivery step checks only first name, e-mail and address. */
  predicate RequiredFieldsFilled(info: ShippingInfo) {
    info.firstName != "" && info.email != "" && info.address != ""
  }

  /** What `handleNextStep` does from a step. */
  datatype NextOutcome =
    | Refused              // incomplete delivery form: the step stays
    | PaidAndConfirmed     // payment: step 4 and the cart is emptied
    | MovedTo(step: int)   // `Math.min(prev + 1, 4)`

  function NextStep(step: int, info: ShippingInfo): (o: NextOutcome)
    ensures o.Refused? <==> step == 2 && !RequiredFieldsFilled(info)
    ensures o.PaidAndConfirmed? <==> step == 3
    ensures o.MovedTo? && step < LastStep ==> o.step == step + 1
    ensures o.MovedTo? && step >= LastStep ==> o.step == LastStep
  {
    if step == 2 && !RequiredFieldsFilled(info) then Refused
    else if step == 3 then PaidAndConfirmed
    else MovedTo(if step + 1 < LastStep then step + 1 else LastStep)
  }

  /** `handlePrevStep`: `Math.max(prev - 1, 1)`. */
  function PrevStep(step: int): (s: int)
    ensures step > FirstStep ==> s == step - 1
    ensures step <= FirstStep ==> s == FirstStep
  {
    if step - 1 > FirstStep then step - 1 else FirstStep
  }

  /** The step reached by one `handleNextStep`: before step 4 the page
      advances by one unless the delivery form is incomplete at step 2;
      step 4 stays put. */
  function StepAfterNext(step: int, info: ShippingInfo): (s: int)
    ensures step < LastStep && step == 2 && !RequiredFieldsFilled(info) ==> s == step
    ensures step < LastStep && !(step == 2 && !RequiredFieldsFilled(info)) ==> s == step + 1
    ensures step >= LastStep ==> s == LastStep
  {
    match NextStep(step, info)
    case Refused => step
    case PaidAndConfirmed => LastStep
    case MovedTo(s) => s
  }

  // ---------------------------------------------------------------------
  // What the page shows

  datatype Screen =
    | EmptyCartScreen
    | WizardScreen(step: int, summary: Option<CartPage.Summary>, backButton: bool)

  /** An empty cart shows only the empty view before step 4. The summary
      panel, which holds the back button, is hidden at step 4, so the back
      button appears only on steps 2 and 3. The panel carries the shipping
      fee and the free-shipping hint of the cart page. */
  function Render(step: int, items: seq<CartItem>): (v: Screen)
    ensures v.EmptyCartScreen? <==> items == [] && step < LastStep
    ensures v.WizardScreen? ==> v.step == step && (v.backButton <==> FirstStep < step < LastStep)
    ensures v.WizardScreen? ==> (v.summary.Some? <==> step < LastStep)
    ensures v.WizardScreen? && v.summary.Some? ==>
      && v.summary.value.lines == |items|
      && v.summary.value.subtotal == TotalPrice(items)
      && v.summary.value.total == v.summary.value.subtotal + v.summary.value.shipping
      && v.summary.value.shipping == CartPage.Shipping(v.summary.value.subtotal)
      && v.summary.value.gap == CartPage.FreeShippingGap(v.summary.value.subtotal)
  {
    if |items| == 0 && step < LastStep then EmptyCartScreen
    else
      var subtotal := TotalPrice(items);
      var summary := if step < LastStep
        then Some(CartPage.Summary(|items|, subtotal, CartPage.Shipping(subtotal),
                                   CartPage.Total(subtotal), CartPage.FreeShippingGap(subtotal)))
        else None;
      WizardScreen(step, summary, FirstStep < step < LastStep)
  }

  /** After payment the cart is empty, yet the confirmation is shown,
      with neither the summary panel nor its buttons. */
  lemma ConfirmationShownOnEmptyCart()
    ensures Render(LastStep, []) == WizardScreen(LastStep, None, false)
  {
  }

  /** With a non-empty cart, steps 1 to 3 show the summary panel: the back
      button on steps 2 and 3 only, free shipping strictly above 30 € and
      the hint strictly below it. */
  lemma SummaryPanel(step: int, items: seq<CartItem>)
    requires items != [] && step < LastStep
    ensures Render(step, items).WizardScreen? && Render(step, items).summary.Some?
    ensures Render(step, items).backButton <==> step > FirstStep
    ensures Render(step, items).summary.value.shipping == 0 <==> TotalPrice(items) > CartPage.FreeShippingAbove
    ensures Render(step, items).summary.value.gap.Some? <==> TotalPrice(items) < CartPage.FreeShippingAbove
  {
  }

  // ---------------------------------------------------------------------
  // Runs of button presses

  datatype Press = Next | Prev

  /** The step after a sequence of presses; from a step in 1..4 any
      sequence stays within 1..4. */
  function Run(step: int, info: ShippingInfo, presses: seq<Press>): (s: int)
    ensures FirstStep <= step <= LastStep ==> FirstStep <= s <= LastStep
    decreases |presses|
  {
    if presses == [] then step
    else
      var s := if presses[0] == Next then StepAfterNext(step, info) else PrevStep(step);
      Run(s, info, presses[1..])
  }

  /** With first name, e-mail or address missing, no sequence of presses
      gets past the delivery step. */
  lemma {:induction false} IncompleteFormBlocksPayment(step: int, info: ShippingInfo, presses: seq<Press>)
    requires FirstStep <= step <= 2 && !RequiredFieldsFilled(info)
    ensures Run(step, info, presses) <= 2
    decreases |presses|
  {
    if presses != [] {
      var s := if presses[0] == Next then StepAfterNext(step, info) else PrevStep(step);
      IncompleteFormBlocksPayment(s, info, presses[1..]);
    }
  }

  /** Step 4 is entered from an earlier step only by paying at step 3. */
  lemma {:induction false} ConfirmationOnlyByPayment(step: int, info: ShippingInfo)
    requires FirstStep <= step < LastStep && StepAfterNext(step, info) == LastStep
    ensures step == 3 && NextStep(step, info) == PaidAndConfirmed
  {
  }

  // ---------------------------------------------------------------------
  // The page state

  class CheckoutPage {
    const cart: Cart
    var currentStep: int
    var shippingInfo: ShippingInfo

    ghost predicate Valid()
      reads this, cart
    {
      FirstStep <= currentStep <= LastStep && cart.Valid()
    }

    constructor (cart: Cart)
      requires cart.Valid()
      ensures Valid() && this.cart == cart
      ensures currentStep == FirstStep && shippingInfo == InitialShippingInfo
    {
      this.cart := cart;
      currentStep := FirstStep;
      shippingInfo := InitialShippingInfo;
    }

    /** The delivery inputs' `onChange` handlers. */
    method EditShippingInfo(info: ShippingInfo)
      requires Valid()
      modifies this
      ensures Valid() && shippingInfo == info && currentStep == old(currentStep)
    {
      shippingInfo := info;
    }

    /** `handleNextStep`, with the two-second payment timer taken as one
        atomic step. */
    method HandleNextStep()
      requires Valid()
      modifies this, cart
      ensures Valid() && shippingInfo == old(shippingInfo)
      ensures currentStep == StepAfterNext(old(currentStep), shippingInfo)
      ensures NextStep(old(currentStep), shippingInfo).PaidAndConfirmed? ==> cart.items == []
      ensures !NextStep(old(currentStep), shippingInfo).PaidAndConfirmed? ==> cart.items == old(cart.items)
    {
      if currentStep == 2 && !RequiredFieldsFilled(shippingInfo) {
        return;
      }
      if currentStep == 3 {
        currentStep := LastStep;
        cart.ClearCart();
        return;
      }
      currentStep := if currentStep + 1 < LastStep then currentStep + 1 else LastStep;
    }

    method HandlePrevStep()
      requires Valid()
      modifies this
      ensures Valid() && shippingInfo == old(shippingInfo)
      ensures currentStep == PrevStep(old(currentStep))
    {
      currentStep := if currentStep - 1 > FirstStep then currentStep - 1 else FirstStep;
    }
  }
}
