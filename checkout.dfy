/** The checkout page: the form prefilled from the profile, the reference-number field, the
    coupon box and the submit step that records the order and empties the cart. */
module Checkout {

  import opened Seqs
  import opened Text
  import opened Cart
  import opened Auth

  datatype PaymentMethod = PagoMovil | Transferencia

  /** The text the order records for a payment method. */
  function MethodName(m: PaymentMethod): string
  {
    match m
    case PagoMovil => "pago-movil"
    case Transferencia => "transferencia"
  }

  datatype CheckoutForm = CheckoutForm(
    email: string,
    firstName: string,
    lastName: string,
    address: string,
    city: string,
    postalCode: string,
    country: string,
    depositorName: string,
    depositorId: string,
    bank: string,
    referenceNumber: string)

  const EmptyForm: CheckoutForm := CheckoutForm("", "", "", "", "", "", "Mexico", "", "", "", "")
  const InvalidCouponMessage: string := "Cupón inválido o inactivo"
  /** Pago móvil takes the last four digits of the reference only. */
  const PagoMovilDigits: nat := 4

  // ---------------------------------------------------------------------------------------
  // Prefill

  /** `name.split(' ')[0]`. */
  function FirstName(name: string): string
  {
    Split(name)[0]
  }

  /** `name.split(' ').slice(1).join(' ')`. */
  function LastName(name: string): string
  {
    Join(Split(name)[1..])
  }

  /** `value || ''` on an optional profile field. */
  function OrEmpty(field: Option<string>): string
  {
    if field.Some? then field.value else ""
  }

  /** The form after the prefill effect for a signed-in user; the payment fields are kept. */
  function Prefill(prev: CheckoutForm, user: User): CheckoutForm
  {
    prev.(email := user.email, firstName := FirstName(user.name), lastName := LastName(user.name),
          address := OrEmpty(user.address), city := OrEmpty(user.city), postalCode := OrEmpty(user.postalCode))
  }

  /** With a space in the name, first name, a space and last name give the name back; without one
      the first name is the whole name and the last name is empty. The first name has no space. */
  lemma NameSplit(name: string)
    ensures ' ' in name ==> FirstName(name) + " " + LastName(name) == name
    ensures ' ' !in name ==> FirstName(name) == name && LastName(name) == ""
    ensures ' ' !in FirstName(name)
  {
    JoinSplit(name);
    match IndexOf(name, ' ')
    case None =>
    case Some(i) =>
      var parts := Split(name);
      assert parts == [name[..i]] + Split(name[i + 1..]);
      JoinTail(parts);
  }

  lemma JoinTail(parts: seq<string>)
    requires |parts| >= 2
    ensures Join(parts) == parts[0] + " " + Join(parts[1..])
  {
  }

  /** Prefilling fills the contact and address fields from the profile and keeps the rest. The
      name is split at its first space: the two name fields give the profile name back, joined by
      a space, and a name without a space fills the first name alone. */
  lemma PrefillSpec(prev: CheckoutForm, user: User)
    ensures var f := Prefill(prev, user);
      && f.email == user.email
      && f.firstName == FirstName(user.name) && f.lastName == LastName(user.name)
      && (' ' in user.name ==> f.firstName + " " + f.lastName == user.name)
      && (' ' !in user.name ==> f.firstName == user.name && f.lastName == "")
      && (user.address.None? ==> f.address == "")
      && (user.address.Some? ==> f.address == user.address.value)
      && (user.city.None? ==> f.city == "")
      && (user.city.Some? ==> f.city == user.city.value)
      && (user.postalCode.None? ==> f.postalCode == "")
      && (user.postalCode.Some? ==> f.postalCode == user.postalCode.value)
      && f.country == prev.country && f.referenceNumber == prev.referenceNumber
      && f.bank == prev.bank && f.depositorName == prev.depositorName && f.depositorId == prev.depositorId
  {
    NameSplit(user.name);
  }

  // ---------------------------------------------------------------------------------------
  // Reference number

  /** The reference field's change handler: keep the digits; with pago móvil, more than four of
      them are refused and the field keeps its value. */
  function ReferenceInput(prev: string, typed: string, payment: PaymentMethod): (r: string)
    ensures r == prev || r == DigitsOnly(typed)
  {
    var value := DigitsOnly(typed);
    if payment == PagoMovil && |value| > PagoMovilDigits then prev else value
  }

  /** From a digits-only field the field stays digits-only; with pago móvil up to four digits are
      taken and more are refused, so it never grows past four; with transferencia it takes every
      digit typed. */
  lemma ReferenceInputSpec(prev: string, typed: string, payment: PaymentMethod)
    requires forall i :: 0 <= i < |prev| ==> IsDigit(prev[i])
    ensures var r := ReferenceInput(prev, typed, payment);
      && (forall i :: 0 <= i < |r| ==> IsDigit(r[i]))
      && (payment == PagoMovil && |prev| <= PagoMovilDigits ==> |r| <= PagoMovilDigits)
      && (payment == PagoMovil && |DigitsOnly(typed)| > PagoMovilDigits ==> r == prev)
      && (payment == PagoMovil && |DigitsOnly(typed)| <= PagoMovilDigits ==> r == DigitsOnly(typed))
      && (payment == Transferencia ==> r == DigitsOnly(typed))
  {
  }

  // ---------------------------------------------------------------------------------------
  // The page

  class CheckoutPage {
    var formData: CheckoutForm
    var paymentMethod: PaymentMethod
    var couponInput: string
    var couponError: string
    var isProcessing: bool
    var isSuccess: bool

    constructor ()
      ensures formData == EmptyForm && paymentMethod == PagoMovil
      ensures couponInput == "" && couponError == "" && !isProcessing && !isSuccess
    {
      formData := EmptyForm;
      paymentMethod := PagoMovil;
      couponInput := "";
      couponError := "";
      isProcessing := false;
      isSuccess := false;
    }

    /** The prefill effect, for a signed-in user. */
    method PrefillFrom(user: User)
      modifies this
      ensures formData == Prefill(old(formData), user)
      ensures paymentMethod == old(paymentMethod) && couponInput == old(couponInput)
      ensures couponError == old(couponError) && isProcessing == old(isProcessing) && isSuccess == old(isSuccess)
    {
      formData := Prefill(formData, user);
    }

    method ChangeReference(typed: string)
      modifies this
      ensures formData == old(formData).(referenceNumber := ReferenceInput(old(formData).referenceNumber, typed, paymentMethod))
      ensures paymentMethod == old(paymentMethod) && couponInput == old(couponInput)
      ensures couponError == old(couponError) && isProcessing == old(isProcessing) && isSuccess == old(isSuccess)
    {
      formData := formData.(referenceNumber := ReferenceInput(formData.referenceNumber, typed, paymentMethod));
    }

    /** `handleApplyCoupon`: the error is cleared; a blank input does nothing more; otherwise the
        trimmed code is applied, and a failure shows the error while a success empties the input. */
    method HandleApplyCoupon(store: CartStore)
      requires store.Valid()
      modifies this, store
      ensures store.Valid()
      ensures Trim(old(couponInput)) == "" ==>
        couponError == "" && couponInput == old(couponInput) && store.appliedCoupon == old(store.appliedCoupon)
      ensures Trim(old(couponInput)) != "" ==>
        var found := FindCoupon(store.coupons, Trim(old(couponInput)));
        && (found.Some? ==> store.appliedCoupon == found && couponInput == "" && couponError == "")
        && (found.None? ==>
              && store.appliedCoupon == old(store.appliedCoupon)
              && couponInput == old(couponInput) && couponError == InvalidCouponMessage)
      ensures store.cart == old(store.cart) && store.coupons == old(store.coupons)
      ensures store.freeShippingThreshold == old(store.freeShippingThreshold)
      ensures store.isCartOpen == old(store.isCartOpen)
      ensures formData == old(formData) && paymentMethod == old(paymentMethod)
      ensures isProcessing == old(isProcessing) && isSuccess == old(isSuccess)
    {
      couponError := "";
      var code := Trim(couponInput);
      if code != "" {
        var success := store.ApplyCoupon(code);
        if !success {
          couponError := InvalidCouponMessage;
        } else {
          couponInput := "";
        }
      }
    }

    /** `handleSubmit` with its delay collapsed: the order is recorded with the final total and the
        cart lines captured when the form was submitted, then the cart is emptied and the coupon
        removed. The clock reading and the date are passed in. */
    method HandleSubmit(store: CartStore, auth: AuthStore, now: nat, date: string)
      requires store.Valid()
      modifies this, store, auth
      ensures store.Valid()
      ensures auth.orders == [NewOrder(OrderData(
                 FinalTotal(old(store.cart), old(store.appliedCoupon), old(store.freeShippingThreshold)),
                 old(store.cart), Some(MethodName(paymentMethod)), None, None), OrderId(now), date)] + old(auth.orders)
      ensures auth.orders[0].total == FinalTotal(old(store.cart), old(store.appliedCoupon), old(store.freeShippingThreshold))
      ensures auth.orders[0].items == old(store.cart) && auth.orders[0].status == "Pendiente"
      ensures store.cart == [] && store.appliedCoupon == None
      ensures store.coupons == old(store.coupons) && store.freeShippingThreshold == old(store.freeShippingThreshold)
      ensures auth.user == old(auth.user) && auth.favorites == old(auth.favorites)
      ensures store.isCartOpen == old(store.isCartOpen)
      ensures !isProcessing && isSuccess && paymentMethod == old(paymentMethod) && formData == old(formData)
      ensures couponInput == old(couponInput) && couponError == old(couponError)
    {
      var total := FinalTotal(store.cart, store.appliedCoupon, store.freeShippingThreshold);
      auth.AddOrder(OrderData(total, store.cart, Some(MethodName(paymentMethod)), None, None), now, date);
      isProcessing := false;
      isSuccess := true;
      store.ClearCart();
    }
  }
}
