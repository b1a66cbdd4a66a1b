/**
 * The delivery-mode state machine of the checkout form (`Form` in
 * src/app/porudzbine/form.tsx). The only state is the boolean
 * `scheduleDelivery`; the selected payment method, which payment radios
 * are enabled, which inputs are enabled and whether the date/time picker
 * is shown are all derived from it.
 */
module CheckoutForm {

  /** The three payment radios, by their `value` attribute. */
  datatype PaymentMethod = OnlinePayment | CashOnDelivery | InStoreCash

  /** The six text inputs of the form, by their `id`. */
  datatype Input = FullName | Phone | Email | City | Address | Zip

  const AllPaymentMethods: set<PaymentMethod> := {OnlinePayment, CashOnDelivery, InStoreCash}
  const AllInputs: set<Input> := {FullName, Phone, Email, City, Address, Zip}
  const ContactInputs: set<Input> := {FullName, Phone, Email}
  const DeliveryInputs: set<Input> := {City, Address, Zip}

  /** Everything the form shows that depends on the delivery switch. */
  datatype FormView = FormView(
    selected: PaymentMethod,
    enabledPayments: set<PaymentMethod>,
    enabledInputs: set<Input>,
    datePickerShown: bool)

  /** Whether a payment radio is enabled: online payment carries a bare
      `disabled`; cash on delivery is disabled unless delivery is scheduled;
      in-store cash is disabled when it is. */
  predicate PaymentEnabled(m: PaymentMethod, scheduled: bool)
  {
    match m
    case OnlinePayment => false
    case CashOnDelivery => scheduled
    case InStoreCash => !scheduled
  }

  /** The value bound to the radio group. */
  function SelectedPayment(scheduled: bool): (m: PaymentMethod)
    ensures PaymentEnabled(m, scheduled)
    ensures m != OnlinePayment
  {
    if scheduled then CashOnDelivery else InStoreCash
  }

  /** The set of payment radios a user could pick in this mode. */
  function EnabledPayments(scheduled: bool): (ms: set<PaymentMethod>)
    ensures forall m :: m in ms <==> PaymentEnabled(m, scheduled)
    ensures ms == {SelectedPayment(scheduled)}
  {
    set m | m in AllPaymentMethods && PaymentEnabled(m, scheduled)
  }

  /** Whether a text input is enabled: name, phone and email have no
      `disabled` attribute; city, address and zip carry
      `disabled={!scheduleDelivery}`. */
  predicate InputEnabled(i: Input, scheduled: bool)
  {
    i in ContactInputs || scheduled
  }

  lemma InputListed(i: Input)
    ensures i in AllInputs
  {
  }

  function EnabledInputs(scheduled: bool): (ins: set<Input>)
    ensures forall i :: i in ins <==> InputEnabled(i, scheduled)
    ensures ins == if scheduled then AllInputs else ContactInputs
  {
    assert forall i :: i in AllInputs by {
      forall i ensures i in AllInputs { InputListed(i); }
    }
    set i | i in AllInputs && InputEnabled(i, scheduled)
  }

  /** The date/time picker is rendered only inside `scheduleDelivery && (...)`. */
  function DatePickerShown(scheduled: bool): (shown: bool)
    ensures shown <==> forall i :: i in DeliveryInputs ==> InputEnabled(i, scheduled)
    ensures shown <==> PaymentEnabled(CashOnDelivery, scheduled)
    ensures shown <==> !PaymentEnabled(InStoreCash, scheduled)
  {
    scheduled
  }

  /** The whole derived view for one value of the switch. */
  function Render(scheduled: bool): (v: FormView)
    ensures v.selected in v.enabledPayments
    ensures OnlinePayment !in v.enabledPayments
    ensures |v.enabledPayments| == 1
    ensures v.datePickerShown <==> DeliveryInputs <= v.enabledInputs
    ensures ContactInputs <= v.enabledInputs
    ensures v.datePickerShown <==> v.selected == CashOnDelivery
  {
    FormView(SelectedPayment(scheduled), EnabledPayments(scheduled),
             EnabledInputs(scheduled), DatePickerShown(scheduled))
  }

  /** What the form shows when it first opens (`useState(false)`). */
  const InitialView: FormView := FormView(InStoreCash, {InStoreCash}, ContactInputs, false)

  lemma InitialRender()
    ensures Render(false) == InitialView
    ensures Render(true) == FormView(CashOnDelivery, {CashOnDelivery}, AllInputs, true)
  {
  }

  /** The switch is controlled (`checked={scheduleDelivery}`), so a click
      reports the negation of the current value to `setScheduleDelivery`. */
  function AfterClicks(scheduled: bool, n: nat): bool
    decreases n
  {
    if n == 0 then scheduled else AfterClicks(!scheduled, n - 1)
  }

  lemma {:induction false} AfterClicksParity(scheduled: bool, n: nat)
    ensures AfterClicks(scheduled, n) == (if n % 2 == 0 then scheduled else !scheduled)
    decreases n
  {
    if n > 0 {
      AfterClicksParity(!scheduled, n - 1);
    }
  }

  /** An even number of clicks brings back the view the form had before
      them, whatever was selected or enabled in between. */
  lemma EvenClicksRestoreView(scheduled: bool, n: nat)
    requires n % 2 == 0
    ensures Render(AfterClicks(scheduled, n)) == Render(scheduled)
  {
    AfterClicksParity(scheduled, n);
  }

  /** From the opening state, the view after n clicks is the initial one
      exactly when n is even, and the scheduled one otherwise. */
  lemma ClicksFromInitial(n: nat)
    ensures Render(AfterClicks(false, n)) == InitialView <==> n % 2 == 0
    ensures n % 2 == 1 ==> Render(AfterClicks(false, n)).selected == CashOnDelivery
  {
    AfterClicksParity(false, n);
    InitialRender();
  }

  /** The form component: one piece of mutable state, the switch value. */
  class Form {
    var scheduleDelivery: bool

    /** The derived view of the current state; it reads nothing but the switch. */
    function View(): FormView
      reads this
    {
      Render(scheduleDelivery)
    }

    constructor ()
      ensures !scheduleDelivery
      ensures View() == InitialView
    {
      scheduleDelivery := false;
      InitialRender();
    }

    /** `onCheckedChange={setScheduleDelivery}`: the new value overwrites the old one,
        and the view depends on the new value only. */
    method SetScheduleDelivery(checked: bool)
      modifies this
      ensures scheduleDelivery == checked
      ensures View() == Render(checked)
      ensures View().selected in View().enabledPayments
    {
      scheduleDelivery := checked;
    }

    /** A click on the controlled switch. */
    method ClickSwitch()
      modifies this
      ensures scheduleDelivery == !old(scheduleDelivery)
      ensures scheduleDelivery == AfterClicks(old(scheduleDelivery), 1)
    {
      SetScheduleDelivery(!scheduleDelivery);
    }
  }

  /** Switching delivery on and back off on a fresh form restores the
      opening view. */
  method ToggleOnAndOff() returns (on: FormView, off: FormView)
    ensures on == Render(true) && on.selected == CashOnDelivery && on.datePickerShown
    ensures off == InitialView
  {
    var f := new Form();
    f.SetScheduleDelivery(true);
    on := f.View();
    f.SetScheduleDelivery(false);
    off := f.View();
  }
}
