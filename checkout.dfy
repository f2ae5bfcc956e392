/**
  The three-step checkout: shipping details, payment details, review. Each
  step's fields are validated before moving on, the inputs are reformatted as
  they are typed, and submitting records an order and empties the cart.
 */
module Checkout {
  import opened Common
  import opened Text
  import opened Products
  import opened CartStore
  import opened Pricing
  import opened OrderStore
  import opened CheckoutFormat

  datatype Field =
    | FirstName | LastName | Email | Phone | StreetAddress | City | State | ZipCode | Country
    | CardNumber | ExpiryDate | Cvv | CardName | Notes

  /** The fields the shipping step checks. */
  predicate IsShippingField(f: Field) {
    f.FirstName? || f.LastName? || f.Email? || f.Phone? || f.StreetAddress? || f.City? || f.State? || f.ZipCode?
  }

  /** The fields the payment step checks. */
  predicate IsPaymentField(f: Field) {
    f.CardNumber? || f.ExpiryDate? || f.Cvv? || f.CardName?
  }

  const CheckedFields: set<Field> :=
    {FirstName, LastName, Email, Phone, StreetAddress, City, State, ZipCode, CardNumber, ExpiryDate, Cvv, CardName}

  /** A string is truthy when it is not empty. */
  predicate Filled(s: string) {
    |s| > 0
  }

  /** The form's values; a missing key reads as the empty string. */
  type Form = map<Field, string>

  function Value(form: Form, f: Field): string {
    if f in form then form[f] else ""
  }

  /** Every field empty except the country, which starts as "United States". */
  const InitialForm: Form :=
    map[FirstName := "", LastName := "", Email := "", Phone := "", StreetAddress := "", City := "",
        State := "", ZipCode := "", Country := "United States", CardNumber := "", ExpiryDate := "",
        Cvv := "", CardName := "", Notes := ""]

  /** A field's message. The page shows `MessageText`; `Cleared` is the
      empty message that editing a field leaves behind. */
  datatype Message = Cleared | Required(field: Field) | InvalidEmail | InvalidPhone | InvalidCard | InvalidCvv

  function MessageText(m: Message): string {
    match m
    case Cleared => ""
    case Required(f) =>
      (match f
       case FirstName => "First name is required"
       case LastName => "Last name is required"
       case Email => "Email is required"
       case Phone => "Phone number is required"
       case StreetAddress => "Address is required"
       case City => "City is required"
       case State => "State is required"
       case ZipCode => "ZIP code is required"
       case CardNumber => "Card number is required"
       case ExpiryDate => "Expiry date is required"
       case Cvv => "CVV is required"
       case CardName => "Cardholder name is required"
       case _ => "")
    case InvalidEmail => "Please enter a valid email address"
    case InvalidPhone => "Please enter a valid phone number"
    case InvalidCard => "Please enter a valid 16-digit card number"
    case InvalidCvv => "Please enter a valid CVV"
  }

  /** The message a field gets on a step, field by field: a step checks only
      its own fields, an empty field is reported as required, and a filled
      one as invalid when it fails its pattern. */
  function FieldError(step: int, form: Form, f: Field): Option<Message> {
    if step == 1 && IsShippingField(f) then
      if !Filled(Value(form, f)) then Some(Required(f))
      else if f == Email && !EmailShaped(Value(form, Email)) then Some(InvalidEmail)
      else if f == Phone && !PhoneValid(Value(form, Phone)) then Some(InvalidPhone)
      else None
    else if step == 2 && IsPaymentField(f) then
      if !Filled(Value(form, f)) then Some(Required(f))
      else if f == CardNumber && !CardNumberValid(Value(form, CardNumber)) then Some(InvalidCard)
      else if f == Cvv && !CvvValid(Value(form, Cvv)) then Some(InvalidCvv)
      else None
    else None
  }

  /** The error map of a step: one entry per field with a message. */
  function StepErrors(step: int, form: Form): map<Field, Message> {
    map f | f in CheckedFields && FieldError(step, form, f).Some? :: FieldError(step, form, f).value
  }

  /** A map with exactly the fields that have a message, holding those
      messages, is the step's error map. */
  lemma ErrorsByField(step: int, form: Form, e: map<Field, Message>)
    requires forall f :: f in e <==> FieldError(step, form, f).Some?
    requires forall f :: f in e ==> e[f] == FieldError(step, form, f).value
    ensures e == StepErrors(step, form)
  {
    var s := StepErrors(step, form);
    assert forall f :: f in s <==> FieldError(step, form, f).Some?;
    assert e.Keys == s.Keys;
  }

  /** What each step demands, as a plain conjunction. */
  predicate StepValid(step: int, form: Form) {
    (step == 1 ==>
       (forall f :: IsShippingField(f) ==> Filled(Value(form, f))) &&
       EmailShaped(Value(form, Email)) && |DigitsOnly(Value(form, Phone))| == 10) &&
    (step == 2 ==>
       (forall f :: IsPaymentField(f) ==> Filled(Value(form, f))) &&
       CardNumberValid(Value(form, CardNumber)) && CvvValid(Value(form, Cvv)))
  }

  /** A step has no error exactly when it is valid; the review step and any
      other step number check nothing. */
  lemma NoErrorsIffValid(step: int, form: Form)
    ensures StepErrors(step, form) == map[] <==> StepValid(step, form)
    ensures step != 1 && step != 2 ==> StepValid(step, form)
  {
    var e := StepErrors(step, form);
    NoFieldErrorIffValid(step, form);
    if StepValid(step, form) {
      assert e.Keys == {};
    } else {
      var f :| FieldError(step, form, f).Some?;
      assert f in CheckedFields;
      assert f in e;
    }
  }

  /** Field by field: no field has a message exactly when the step is valid. */
  lemma NoFieldErrorIffValid(step: int, form: Form)
    ensures (forall f :: FieldError(step, form, f).None?) <==> StepValid(step, form)
  {
    if step == 1 {
      PhoneValidIff(Value(form, Phone));
      if !StepValid(step, form) {
        if exists f :: IsShippingField(f) && !Filled(Value(form, f)) {
          var f :| IsShippingField(f) && !Filled(Value(form, f));
          assert FieldError(step, form, f).Some?;
        } else if !EmailShaped(Value(form, Email)) {
          assert FieldError(step, form, Email).Some?;
        } else {
          assert FieldError(step, form, Phone).Some?;
        }
      }
    } else if step == 2 {
      if !StepValid(step, form) {
        if exists f :: IsPaymentField(f) && !Filled(Value(form, f)) {
          var f :| IsPaymentField(f) && !Filled(Value(form, f));
          assert FieldError(step, form, f).Some?;
        } else if !CardNumberValid(Value(form, CardNumber)) {
          assert FieldError(step, form, CardNumber).Some?;
        } else {
          assert FieldError(step, form, Cvv).Some?;
        }
      }
    }
  }

  /** What the order records, built from the cart and the form: the prices
      from the cart's subtotal, the address fields, and of the card only the
      last four characters and the holder's name. */
  function OrderData(items: seq<LineItem>, products: seq<Product>, form: Form): (d: OrderDetails)
    ensures d.items == items && d.subtotal == Total(items, products)
    ensures d.shipping == Shipping(d.subtotal) && d.tax == Tax(d.subtotal) && d.total == GrandTotal(d.subtotal)
    ensures var a := d.shippingAddress;
            a.firstName == Value(form, FirstName) && a.lastName == Value(form, LastName) &&
            a.email == Value(form, Email) && a.phone == Value(form, Phone) &&
            a.address == Value(form, StreetAddress) && a.city == Value(form, City) &&
            a.state == Value(form, State) && a.zipCode == Value(form, ZipCode) && a.country == Value(form, Country)
    ensures d.paymentMethod == Payment("credit_card", LastFour(Value(form, CardNumber)), Value(form, CardName))
    ensures d.notes == Value(form, Notes)
  {
    var subtotal := Total(items, products);
    OrderDetails(
      items, subtotal, Shipping(subtotal), Tax(subtotal), GrandTotal(subtotal),
      Address(Value(form, FirstName), Value(form, LastName), Value(form, Email), Value(form, Phone),
              Value(form, StreetAddress), Value(form, City), Value(form, State), Value(form, ZipCode),
              Value(form, Country)),
      Payment("credit_card", LastFour(Value(form, CardNumber)), Value(form, CardName)),
      Value(form, Notes))
  }

  /** `s.slice(-4)`. */
  function LastFour(s: string): (r: string)
    ensures |r| == if |s| < 4 then |s| else 4
    ensures r == s[|s| - |r|..]
  {
    if |s| < 4 then s else s[|s| - 4..]
  }

  /** Once the payment step is valid the order keeps four characters of the
      card number, never the number itself. */
  lemma OrderKeepsOnlyLastFour(items: seq<LineItem>, products: seq<Product>, form: Form)
    requires StepValid(2, form)
    ensures var p := OrderData(items, products, form).paymentMethod;
            |p.last4| == 4 && p.last4 != Value(form, CardNumber) &&
            p.last4 == Value(form, CardNumber)[|Value(form, CardNumber)| - 4..]
  {
    var card := Value(form, CardNumber);
    assert |StripSpaces(card)| <= |card|;
  }

  /** Checkout charges what the cart page shows for the same cart. */
  lemma OrderMatchesCartPage(items: seq<LineItem>, products: seq<Product>, form: Form)
    requires items != []
    ensures var d := OrderData(items, products, form);
            var v := CartPage(items, products);
            d.subtotal == v.subtotal && d.shipping == v.shipping && d.tax == v.tax && d.total == v.total
  {
  }

  /** The messages of the required-field checks of a step, all together:
      each empty field the step checks is required. */
  function RequiredErrors(step: int, form: Form): map<Field, Message> {
    map f | f in CheckedFields && (if step == 1 then IsShippingField(f) else IsPaymentField(f)) &&
            !Filled(Value(form, f)) :: Required(f)
  }

  /** `if (cond) newErrors[key] = m`. */
  function Overwrite(e: map<Field, Message>, cond: bool, key: Field, m: Message): map<Field, Message> {
    if cond then e[key := m] else e
  }

  /** The shipping checks in order, the email then the phone pattern
      overwriting the required-field messages, give the step's error map. */
  lemma ShippingByField(form: Form)
    ensures var email, phone := Value(form, Email), Value(form, Phone);
            Overwrite(Overwrite(RequiredErrors(1, form), Filled(email) && !EmailShaped(email), Email, InvalidEmail),
                      Filled(phone) && !PhoneValid(phone), Phone, InvalidPhone)
            == StepErrors(1, form)
  {
    var email, phone := Value(form, Email), Value(form, Phone);
    var e := Overwrite(Overwrite(RequiredErrors(1, form), Filled(email) && !EmailShaped(email), Email, InvalidEmail),
                       Filled(phone) && !PhoneValid(phone), Phone, InvalidPhone);
    var r := RequiredErrors(1, form);
    forall f
      ensures f in e <==> FieldError(1, form, f).Some?
      ensures f in e ==> e[f] == FieldError(1, form, f).value
    {
      if f != Email && f != Phone {
        assert f in e <==> f in r;
      }
    }
    ErrorsByField(1, form, e);
  }

  /** The payment checks in order, the card-number then the CVV length
      overwriting the required-field messages, give the step's error map. */
  lemma PaymentByField(form: Form)
    ensures var card, cvv := Value(form, CardNumber), Value(form, Cvv);
            Overwrite(Overwrite(RequiredErrors(2, form), Filled(card) && |StripSpaces(card)| != 16, CardNumber, InvalidCard),
                      Filled(cvv) && (|cvv| < 3 || |cvv| > 4), Cvv, InvalidCvv)
            == StepErrors(2, form)
  {
    var card, cvv := Value(form, CardNumber), Value(form, Cvv);
    var e := Overwrite(Overwrite(RequiredErrors(2, form), Filled(card) && |StripSpaces(card)| != 16, CardNumber, InvalidCard),
                       Filled(cvv) && (|cvv| < 3 || |cvv| > 4), Cvv, InvalidCvv);
    var r := RequiredErrors(2, form);
    forall f
      ensures f in e <==> FieldError(2, form, f).Some?
      ensures f in e ==> e[f] == FieldError(2, form, f).value
    {
      if f != CardNumber && f != Cvv {
        assert f in e <==> f in r;
      }
    }
    ErrorsByField(2, form, e);
  }

  /** The shipping step's checks, in the order `validateStep` makes them:
      the eight required-field checks (each sets its own key, so they are
      taken together), then the email and phone patterns, which overwrite. */
  method ShippingErrors(form: Form) returns (e: map<Field, Message>)
    ensures e == StepErrors(1, form)
  {
    e := RequiredErrors(1, form);
    var email := Value(form, Email);
    if Filled(email) && !EmailShaped(email) {
      e := e[Email := InvalidEmail];
    }
    var phone := Value(form, Phone);
    if Filled(phone) && !PhoneValid(phone) {
      e := e[Phone := InvalidPhone];
    }
    ShippingByField(form);
  }

  /** The payment step's checks, in the order `validateStep` makes them:
      the four required-field checks taken together, then the card-number
      and CVV lengths, which overwrite. */
  method PaymentErrors(form: Form) returns (e: map<Field, Message>)
    ensures e == StepErrors(2, form)
  {
    e := RequiredErrors(2, form);
    var card := Value(form, CardNumber);
    if Filled(card) && |StripSpaces(card)| != 16 {
      e := e[CardNumber := InvalidCard];
    }
    var cvv := Value(form, Cvv);
    if Filled(cvv) && (|cvv| < 3 || |cvv| > 4) {
      e := e[Cvv := InvalidCvv];
    }
    PaymentByField(form);
  }

  /** The text an input hands to `handleInputChange`: the phone, card number,
      expiry date and CVV inputs reformat what was typed, the others pass it
      on. */
  function InputValue(f: Field, typed: string): string {
    match f
    case Phone => PhoneFormat(typed)
    case CardNumber => CardFormat(typed)
    case ExpiryDate => ExpiryFormat(typed)
    case Cvv => DigitsOnly(typed)
    case _ => typed
  }

  /** A field holds what its input's formatter produces; the fields typed as
      they are always do. */
  predicate FieldFormatted(form: Form, f: Field) {
    match f
    case Phone => PhoneFormat(Value(form, Phone)) == Value(form, Phone)
    case CardNumber => CardFormat(Value(form, CardNumber)) == Value(form, CardNumber)
    case ExpiryDate => ExpiryFormat(Value(form, ExpiryDate)) == Value(form, ExpiryDate)
    case Cvv => AllDigits(Value(form, Cvv))
    case _ => true
  }

  /** Storing what an input hands over keeps every field formatted: the
      typed field because its formatter is idempotent, the others because
      they do not change. */
  lemma InputKeepsFormatted(form: Form, field: Field, typed: string, g: Field)
    requires FieldFormatted(form, g)
    ensures FieldFormatted(form[field := InputValue(field, typed)], g)
  {
    var form' := form[field := InputValue(field, typed)];
    if g == field {
      assert Value(form', g) == InputValue(field, typed);
      match field {
        case Phone => PhoneFormatIdempotent(typed);
        case CardNumber => CardFormatIdempotent(typed);
        case ExpiryDate => ExpiryFormatIdempotent(typed);
        case _ =>
      }
    } else {
      assert Value(form', g) == Value(form, g);
    }
  }

  /** An empty field is formatted: every formatter leaves "" as it is. */
  lemma EmptyFormatted(form: Form, f: Field)
    requires Value(form, f) == ""
    ensures FieldFormatted(form, f)
  {
    assert DigitsOnly("") == "" && StripSpaces("") == "";
    assert ChunksFrom("", 0) == [];
  }

  /** The checkout page's state. */
  class CheckoutWizard {
    var currentStep: int
    var form: Form
    var errors: map<Field, Message>

    /** The reformatted fields hold what their formatter would produce. */
    predicate Formatted()
      reads this
    {
      FieldFormatted(form, Phone) && FieldFormatted(form, CardNumber) &&
      FieldFormatted(form, ExpiryDate) && FieldFormatted(form, Cvv)
    }

    constructor ()
      ensures currentStep == 1 && form == InitialForm && errors == map[]
      ensures Formatted()
    {
      currentStep := 1;
      form := InitialForm;
      errors := map[];
      EmptyFormatted(InitialForm, Phone);
      EmptyFormatted(InitialForm, CardNumber);
      EmptyFormatted(InitialForm, ExpiryDate);
      EmptyFormatted(InitialForm, Cvv);
    }

    /** `validateStep(step)`: fills a fresh error map field by field, keeps it,
        and reports whether it is empty. */
    method ValidateStep(step: int) returns (valid: bool)
      modifies this
      ensures currentStep == old(currentStep) && form == old(form)
      ensures errors == StepErrors(step, form)
      ensures valid <==> StepValid(step, form)
    {
      var e: map<Field, Message> := map[];
      if step == 1 {
        e := ShippingErrors(form);
      }
      if step == 2 {
        e := PaymentErrors(form);
      }
      if step != 1 && step != 2 {
        assert forall f :: FieldError(step, form, f).None?;
        assert StepErrors(step, form).Keys == {};
      }
      errors := e;
      NoErrorsIffValid(step, form);
      valid := |e| == 0;
    }

    /** `handleInputChange(field, value)`: stores the value and blanks the
        field's message when it has a non-empty one. */
    method HandleInputChange(field: Field, value: string)
      modifies this
      ensures currentStep == old(currentStep)
      ensures form == old(form)[field := value]
      ensures errors == if field in old(errors) && MessageText(old(errors)[field]) != "" then old(errors)[field := Cleared] else old(errors)
    {
      form := form[field := value];
      if field in errors && MessageText(errors[field]) != "" {
        errors := errors[field := Cleared];
      }
    }

    /** Typing into a field's input: the input's formatter, then
        `handleInputChange`; the reformatted fields stay formatted. */
    method Type(field: Field, typed: string)
      modifies this
      ensures currentStep == old(currentStep)
      ensures form == old(form)[field := InputValue(field, typed)]
      ensures errors == if field in old(errors) && MessageText(old(errors)[field]) != "" then old(errors)[field := Cleared] else old(errors)
      ensures old(Formatted()) ==> Formatted()
    {
      if Formatted() {
        InputKeepsFormatted(form, field, typed, Phone);
        InputKeepsFormatted(form, field, typed, CardNumber);
        InputKeepsFormatted(form, field, typed, ExpiryDate);
        InputKeepsFormatted(form, field, typed, Cvv);
      }
      HandleInputChange(field, InputValue(field, typed));
    }

    /** "Next", shown on the first two steps: moves on only when the current
        step validates. */
    method HandleNext()
      requires 1 <= currentStep < 3
      modifies this
      ensures form == old(form)
      ensures errors == StepErrors(old(currentStep), form)
      ensures currentStep == if StepValid(old(currentStep), form) then old(currentStep) + 1 else old(currentStep)
      ensures 1 <= currentStep <= 3
    {
      var valid := ValidateStep(currentStep);
      if valid {
        currentStep := currentStep + 1;
      }
    }

    /** "Previous", shown after the first step. */
    method HandlePrevious()
      requires 1 < currentStep <= 3
      modifies this
      ensures form == old(form) && errors == old(errors)
      ensures currentStep == old(currentStep) - 1 && 1 <= currentStep
    {
      currentStep := currentStep - 1;
    }

    /** `handleSubmitOrder`: validates the payment step only; when it passes,
        records the order built from the cart and the form and, once that
        succeeds, empties the cart. A rejected `create` (`createSucceeds`
        false) leaves the cart and the order table as they were. */
    method HandleSubmitOrder(cart: Cart, service: OrderService, orderDate: string, trackingNumber: string,
                             createSucceeds: bool)
      returns (placed: Option<Order>)
      modifies this, cart, service
      ensures form == old(form) && currentStep == old(currentStep)
      ensures errors == StepErrors(2, form)
      ensures cart.products == old(cart.products)
      ensures placed.Some? <==> StepValid(2, form) && createSucceeds
      ensures placed.None? ==> cart.items == old(cart.items) && service.orders == old(service.orders)
      ensures placed.Some? ==>
                placed.value == NewOrder(old(service.orders),
                                         OrderInput(None, None, OrderData(old(cart.items), cart.products, form)),
                                         orderDate, trackingNumber) &&
                service.orders == old(service.orders) + [placed.value] &&
                cart.items == []
    {
      var valid := ValidateStep(2);
      if !valid {
        return None;
      }
      if !createSucceeds {
        return None;
      }
      var orderData := OrderData(cart.items, cart.products, form);
      var order := service.Create(OrderInput(None, None, orderData), orderDate, trackingNumber);
      cart.ClearCart();
      return Some(order);
    }
  }
}
