/**
 * The purchase wizard of src/components/custom/purchase-modal.tsx: a three-step
 * guarded state machine (payment, delivery, confirm) holding the buyer's three
 * selections, plus the commission split shown on its summary.
 */
module PurchaseWizard {
  import opened Wrappers
  import opened Commission

  datatype Step = Payment | Delivery | Confirm

  /** The record the confirm step hands to `onConfirmPurchase`. */
  datatype PurchaseSelection = PurchaseSelection(paymentMethod: string, deliveryMethod: string, zipCode: string)

  /** The postal-code input's `maxLength`. */
  const ZipCodeMaxLength := 9

  /** Position of a step in the flow. */
  function StepIndex(s: Step): nat
  {
    match s
    case Payment => 0
    case Delivery => 1
    case Confirm => 2
  }

  /**
   * Where the Continue handler leaves the step. Only the payment and delivery
   * steps move; a JavaScript string is truthy exactly when it is not empty.
   */
  function NextStep(s: Step, paymentMethod: string, deliveryMethod: string, zipCode: string): Step
  {
    if s == Payment && paymentMethod != "" then Delivery
    else if s == Delivery && deliveryMethod != "" && zipCode != "" then Confirm
    else s
  }

  /** Where the Back handler leaves the step (in `payment` the handler does nothing). */
  function PrevStep(s: Step): Step
  {
    match s
    case Payment => Payment
    case Delivery => Payment
    case Confirm => Delivery
  }

  /** Continue in `payment` moves to `delivery` iff a payment method is chosen, else stays. */
  lemma PaymentAdvance(pm: string, dm: string, zip: string)
    ensures NextStep(Payment, pm, dm, zip) == (if pm != "" then Delivery else Payment)
  {
  }

  /** Continue in `delivery` moves to `confirm` iff both the delivery method and the postal code are set, else stays. */
  lemma DeliveryAdvance(pm: string, dm: string, zip: string)
    ensures NextStep(Delivery, pm, dm, zip) == (if dm != "" && zip != "" then Confirm else Delivery)
  {
  }

  /** Continue advances at most one step and never goes back; `payment` never reaches `confirm` directly. */
  lemma NoSkip(s: Step, pm: string, dm: string, zip: string)
    ensures StepIndex(s) <= StepIndex(NextStep(s, pm, dm, zip)) <= StepIndex(s) + 1
    ensures NextStep(s, pm, dm, zip) == Confirm ==> s != Payment
  {
  }

  /** Back moves exactly one step back from `delivery` and `confirm`; whatever guard let Continue pass still holds. */
  lemma BackUndoesContinue(s: Step, pm: string, dm: string, zip: string)
    requires NextStep(s, pm, dm, zip) != s
    ensures PrevStep(NextStep(s, pm, dm, zip)) == s
  {
  }

  class Wizard {
    /** The listing being bought (a prop of the modal). */
    const price: real
    const tier: AnnouncementType

    var step: Step
    var paymentMethod: string
    var deliveryMethod: string
    var zipCode: string

    ghost predicate Valid()
      reads this
    {
      |zipCode| <= ZipCodeMaxLength
    }

    /** The modal opens in `payment` with all three selections empty. */
    constructor (price: real, tier: AnnouncementType)
      ensures Valid()
      ensures this.price == price && this.tier == tier
      ensures step == Payment && paymentMethod == "" && deliveryMethod == "" && zipCode == ""
    {
      this.price := price;
      this.tier := tier;
      step := Payment;
      paymentMethod := "";
      deliveryMethod := "";
      zipCode := "";
    }

    /** The payment radio group's `onValueChange`. */
    method SetPaymentMethod(m: string)
      requires Valid()
      modifies this`paymentMethod
      ensures Valid() && paymentMethod == m
    {
      paymentMethod := m;
    }

    /** The delivery radio group's `onValueChange`. */
    method SetDeliveryMethod(m: string)
      requires Valid()
      modifies this`deliveryMethod
      ensures Valid() && deliveryMethod == m
    {
      deliveryMethod := m;
    }

    /** The postal-code input's `onChange`; the input never holds more than nine characters. */
    method SetZipCode(z: string)
      requires |z| <= ZipCodeMaxLength
      modifies this`zipCode
      ensures Valid() && zipCode == z
    {
      zipCode := z;
    }

    /**
     * The Continue / Confirm button's handler: advance when the current step's
     * guard holds; in `confirm`, emit the accumulated selections instead.
     */
    method Continue() returns (emitted: Option<PurchaseSelection>)
      requires Valid()
      modifies this`step
      ensures Valid()
      ensures step == NextStep(old(step), paymentMethod, deliveryMethod, zipCode)
      ensures emitted == if old(step) == Confirm then Some(PurchaseSelection(paymentMethod, deliveryMethod, zipCode)) else None
    {
      emitted := None;
      if step == Payment && paymentMethod != "" {
        step := Delivery;
      } else if step == Delivery && deliveryMethod != "" && zipCode != "" {
        step := Confirm;
      } else if step == Confirm {
        emitted := Some(PurchaseSelection(paymentMethod, deliveryMethod, zipCode));
      }
    }

    /**
     * The Back button's handler. Both tests read the step as it was when the
     * button was clicked (React state is fixed for the duration of a handler).
     */
    method Back()
      requires Valid()
      modifies this`step
      ensures Valid()
      ensures step == PrevStep(old(step))
    {
      var current := step;
      if current == Delivery {
        step := Payment;
      }
      if current == Confirm {
        step := Delivery;
      }
    }

    /** Back is rendered only outside `payment`. */
    function BackOffered(): (offered: bool)
      reads this
      ensures offered <==> PrevStep(step) != step
    {
      step != Payment
    }

    /** The Continue button's `disabled` expression. */
    function ContinueDisabled(): (disabled: bool)
      reads this
      ensures disabled <==> step != Confirm && NextStep(step, paymentMethod, deliveryMethod, zipCode) == step
    {
      (step == Payment && paymentMethod == "") || (step == Delivery && (deliveryMethod == "" || zipCode == ""))
    }

    /** The modal's inline rate; it agrees with `COMMISSION_RATES` for every tier. */
    function CommissionRate(): (r: real)
      ensures r == Rate(tier)
    {
      if tier == Premium then 0.15 else if tier == New then 0.05 else 0.08
    }

    /** `commissionAmount`: the price times the inline rate, i.e. `calculateCommission`. */
    function CommissionAmount(): (c: real)
      ensures c == CalculateCommission(price, tier)
    {
      price * CommissionRate()
    }

    /** `sellerAmount`: the price less the commission, i.e. `calculateSellerAmount`. */
    function SellerAmount(): (s: real)
      ensures s == CalculateSellerAmount(price, tier)
    {
      price - CommissionAmount()
    }
  }

  /** The summary's two amounts add up to the listing's price. */
  lemma WizardSplitIsExact(w: Wizard)
    ensures w.CommissionAmount() + w.SellerAmount() == w.price
  {
    SplitIsExact(w.price, w.tier);
  }

  /**
   * Going forward, back, and forward again keeps every selection: the buyer
   * chooses once, steps payment, delivery, confirm, back to delivery, confirm,
   * and confirming emits exactly the first choices.
   */
  method BackAndForth(pm: string, dm: string, zip: string, price: real, tier: AnnouncementType)
    returns (emitted: Option<PurchaseSelection>)
    requires pm != "" && dm != "" && zip != "" && |zip| <= ZipCodeMaxLength
    ensures emitted == Some(PurchaseSelection(pm, dm, zip))
  {
    var w := new Wizard(price, tier);
    w.SetPaymentMethod(pm);
    var none := w.Continue();
    assert w.step == Delivery;
    w.SetDeliveryMethod(dm);
    w.SetZipCode(zip);
    none := w.Continue();
    assert w.step == Confirm;
    w.Back();
    assert w.step == Delivery;
    none := w.Continue();
    assert w.step == Confirm;
    emitted := w.Continue();
  }
}
