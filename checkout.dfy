/**
 * The checkout page of client/src/pages/shop/Checkout.tsx: the form's validation rules
 * (shipping always, card details only for a credit-card payment), the payment-method
 * switch, the empty-cart redirect and the submission that clears the cart.
 *
 * Email syntax is checked by the validation library; it enters as the predicate `isEmail`.
 */
module Checkout {
  import opened Wrappers
  import opened Session

  datatype PaymentMethod = CreditCard | PayPal

  datatype CheckoutForm = CheckoutForm(
    firstName: string, lastName: string, email: string, phone: string,
    addressLine1: string, addressLine2: string, city: string, state: string,
    postalCode: string, country: string,
    paymentMethod: PaymentMethod,
    cardName: string, cardNumber: string, expDate: string, cvv: string,
    saveInformation: bool)

  datatype CheckoutField =
    | FirstName | LastName | Email | Phone | AddressLine1 | AddressLine2 | City | State | PostalCode | Country
    | CardName | CardNumber | ExpDate | Cvv | SaveInformation

  const ShippingFields: set<CheckoutField> := {FirstName, LastName, Email, Phone, AddressLine1, City, State, PostalCode, Country}
  const CardFields: set<CheckoutField> := {CardName, CardNumber, ExpDate, Cvv}
  const AllCheckoutFields: set<CheckoutField> := ShippingFields + CardFields + {AddressLine2, SaveInformation}

  /** `\d`: an ASCII decimal digit. */
  predicate IsDigit(c: char)
  {
    '0' <= c <= '9'
  }

  predicate AllDigits(s: string)
  {
    forall i :: 0 <= i < |s| ==> IsDigit(s[i])
  }

  /** `/^\d{16}$/` */
  predicate CardNumberOk(s: string)
  {
    |s| == 16 && AllDigits(s)
  }

  /** `/^(0[1-9]|1[0-2])\/\d{2}$/` */
  predicate ExpiryOk(s: string)
  {
    |s| == 5 && s[2] == '/' && IsDigit(s[3]) && IsDigit(s[4]) &&
    ((s[0] == '0' && '1' <= s[1] <= '9') || (s[0] == '1' && '0' <= s[1] <= '2'))
  }

  /** `/^\d{3,4}$/` */
  predicate CvvOk(s: string)
  {
    3 <= |s| <= 4 && AllDigits(s)
  }

  function DigitValue(c: char): int
    requires IsDigit(c)
  {
    c as int - '0' as int
  }

  /** The expiry pattern accepts exactly "MM/YY" with MM a month from 1 to 12 and YY any two digits. */
  lemma ExpiryIsMonthAndYear(s: string)
    ensures ExpiryOk(s) <==>
      |s| == 5 && s[2] == '/' && IsDigit(s[0]) && IsDigit(s[1]) && IsDigit(s[3]) && IsDigit(s[4]) &&
      1 <= 10 * DigitValue(s[0]) + DigitValue(s[1]) <= 12
  {
    if |s| == 5 && s[2] == '/' && IsDigit(s[0]) && IsDigit(s[1]) && IsDigit(s[3]) && IsDigit(s[4]) {
      var month := 10 * DigitValue(s[0]) + DigitValue(s[1]);
      if DigitValue(s[0]) == 0 {
        assert s[0] == '0';
      } else if DigitValue(s[0]) == 1 {
        assert s[0] == '1';
      } else {
        assert month >= 20;
      }
    }
  }

  /**
   * Whether the schema rejects field `f`: the nine shipping fields are required (and
   * the email must look like one); the card fields are required and must match their
   * patterns only when paying by credit card; address line 2 and the save flag are free.
   */
  predicate HasError(form: CheckoutForm, f: CheckoutField, isEmail: string -> bool)
  {
    var card := form.paymentMethod == CreditCard;
    match f
    case FirstName => form.firstName == ""
    case LastName => form.lastName == ""
    case Email => form.email == "" || !isEmail(form.email)
    case Phone => form.phone == ""
    case AddressLine1 => form.addressLine1 == ""
    case City => form.city == ""
    case State => form.state == ""
    case PostalCode => form.postalCode == ""
    case Country => form.country == ""
    case CardName => card && form.cardName == ""
    case CardNumber => card && (form.cardNumber == "" || !CardNumberOk(form.cardNumber))
    case ExpDate => card && (form.expDate == "" || !ExpiryOk(form.expDate))
    case Cvv => card && (form.cvv == "" || !CvvOk(form.cvv))
    case AddressLine2 | SaveInformation => false
  }

  /**
   * The fields the schema rejects. The form submits exactly when there are none, that
   * is, when the shipping section and the payment section are complete.
   */
  function Errors(form: CheckoutForm, isEmail: string -> bool): (r: set<CheckoutField>)
    ensures r == {} <==> ShippingComplete(form, isEmail) && PaymentComplete(form)
    ensures AddressLine2 !in r && SaveInformation !in r
  {
    NoErrorIffComplete(form, isEmail);
    set f: CheckoutField | f in AllCheckoutFields && HasError(form, f, isEmail)
  }

  /** No field errs exactly when the shipping and payment sections are complete. */
  lemma NoErrorIffComplete(form: CheckoutForm, isEmail: string -> bool)
    ensures (forall f :: f in AllCheckoutFields ==> !HasError(form, f, isEmail)) <==>
            ShippingComplete(form, isEmail) && PaymentComplete(form)
  {
    if forall f :: f in AllCheckoutFields ==> !HasError(form, f, isEmail) {
      NoErrorMeansComplete(form, isEmail);
    } else if ShippingComplete(form, isEmail) && PaymentComplete(form) {
      CompleteMeansNoError(form, isEmail);
    }
  }

  lemma NoErrorMeansComplete(form: CheckoutForm, isEmail: string -> bool)
    requires forall f :: f in AllCheckoutFields ==> !HasError(form, f, isEmail)
    ensures ShippingComplete(form, isEmail) && PaymentComplete(form)
  {
    assert !HasError(form, FirstName, isEmail) && !HasError(form, LastName, isEmail);
    assert !HasError(form, Email, isEmail) && !HasError(form, Phone, isEmail);
    assert !HasError(form, AddressLine1, isEmail) && !HasError(form, City, isEmail);
    assert !HasError(form, State, isEmail) && !HasError(form, PostalCode, isEmail);
    assert !HasError(form, Country, isEmail) && !HasError(form, CardName, isEmail);
    assert !HasError(form, CardNumber, isEmail) && !HasError(form, ExpDate, isEmail);
    assert !HasError(form, Cvv, isEmail);
  }

  lemma CompleteMeansNoError(form: CheckoutForm, isEmail: string -> bool)
    requires ShippingComplete(form, isEmail) && PaymentComplete(form)
    ensures forall f :: f in AllCheckoutFields ==> !HasError(form, f, isEmail)
  {
  }

  /** Paying by credit card, each card field is accepted exactly when it matches its rule. */
  lemma CardRules(form: CheckoutForm, isEmail: string -> bool)
    requires form.paymentMethod == CreditCard
    ensures CardName !in Errors(form, isEmail) <==> form.cardName != ""
    ensures CardNumber !in Errors(form, isEmail) <==> |form.cardNumber| == 16 && AllDigits(form.cardNumber)
    ensures ExpDate !in Errors(form, isEmail) <==> ExpiryOk(form.expDate)
    ensures Cvv !in Errors(form, isEmail) <==> (|form.cvv| == 3 || |form.cvv| == 4) && AllDigits(form.cvv)
  {
    assert CardName in AllCheckoutFields && CardNumber in AllCheckoutFields;
    assert ExpDate in AllCheckoutFields && Cvv in AllCheckoutFields;
  }

  /** Paying by PayPal, no card field is rejected, whatever it holds. */
  lemma PayPalLeavesCardFree(form: CheckoutForm, isEmail: string -> bool,
                             name: string, number: string, exp: string, cvv: string)
    requires form.paymentMethod == PayPal
    ensures Errors(form, isEmail) * CardFields == {}
    ensures Errors(form.(cardName := name, cardNumber := number, expDate := exp, cvv := cvv), isEmail)
            == Errors(form, isEmail)
  {
  }

  /** The shipping fields are required whatever the payment method; line 2 and the save flag never are. */
  lemma ShippingRules(form: CheckoutForm, isEmail: string -> bool)
    ensures forall f :: f in ShippingFields - {Email} ==> (f in Errors(form, isEmail) <==> ShippingValue(form, f) == "")
    ensures Email in Errors(form, isEmail) <==> form.email == "" || !isEmail(form.email)
    ensures AddressLine2 !in Errors(form, isEmail) && SaveInformation !in Errors(form, isEmail)
    ensures forall m: PaymentMethod :: Errors(form.(paymentMethod := m), isEmail) * ShippingFields == Errors(form, isEmail) * ShippingFields
  {
    assert Email in AllCheckoutFields;
  }

  /** Every shipping field is filled in and the email looks like one. */
  predicate ShippingComplete(form: CheckoutForm, isEmail: string -> bool)
  {
    form.firstName != "" && form.lastName != "" && form.email != "" && isEmail(form.email) &&
    form.phone != "" && form.addressLine1 != "" && form.city != "" && form.state != "" &&
    form.postalCode != "" && form.country != ""
  }

  /** PayPal needs no card; a credit card needs a name, a 16-digit number, an MM/YY expiry and a 3- or 4-digit CVV. */
  predicate PaymentComplete(form: CheckoutForm)
  {
    form.paymentMethod == PayPal ||
    (form.cardName != "" && CardNumberOk(form.cardNumber) && ExpiryOk(form.expDate) && CvvOk(form.cvv))
  }

  /** The value of a text field of the shipping section. */
  function ShippingValue(form: CheckoutForm, f: CheckoutField): string
    requires f in ShippingFields
  {
    match f
    case FirstName => form.firstName
    case LastName => form.lastName
    case Email => form.email
    case Phone => form.phone
    case AddressLine1 => form.addressLine1
    case City => form.city
    case State => form.state
    case PostalCode => form.postalCode
    case Country => form.country
  }

  /** The form's starting values, with the signed-in user's names and email when known. */
  function InitialForm(user: Option<AuthUser>): (f: CheckoutForm)
    ensures f.paymentMethod == CreditCard && f.country == "United States" && f.saveInformation
    ensures f.email == (if user.Some? then user.value.email else "")
    ensures f.phone == f.addressLine1 == f.addressLine2 == f.city == f.state == f.postalCode == ""
    ensures f.cardName == f.cardNumber == f.expDate == f.cvv == ""
  {
    var first := if user.Some? && user.value.firstName.Some? then user.value.firstName.value else "";
    var last := if user.Some? && user.value.lastName.Some? then user.value.lastName.value else "";
    var email := if user.Some? then user.value.email else "";
    CheckoutForm(first, last, email, "", "", "", "", "", "", "United States", CreditCard, "", "", "", "", true)
  }

  /** The confirmation route for an order id built from `suffix`. */
  function ConfirmationRoute(suffix: string): (r: string)
    ensures "/order-confirmation/ORD-" <= r && r[|"/order-confirmation/ORD-"|..] == suffix
  {
    "/order-confirmation/ORD-" + suffix
  }

  class CheckoutPage {
    var paymentMethod: PaymentMethod
    var form: CheckoutForm
    /** The number of lines in the shopping cart the page reads. */
    var cartLines: nat
    var navigatedTo: Option<string>
    const isEmail: string -> bool

    /** The component's payment method and the form's are the same. */
    ghost predicate Valid()
      reads this
    {
      paymentMethod == form.paymentMethod
    }

    /** Mounting the page; an empty cart sends the shopper back to the products. */
    constructor (user: Option<AuthUser>, lines: nat, isEmail: string -> bool)
      ensures Valid()
      ensures paymentMethod == CreditCard && form == InitialForm(user) && cartLines == lines
      ensures navigatedTo == if lines == 0 then Some("/products") else None
      ensures this.isEmail == isEmail
    {
      paymentMethod := CreditCard;
      form := InitialForm(user);
      cartLines := lines;
      navigatedTo := if lines == 0 then Some("/products") else None;
      this.isEmail := isEmail;
    }

    /** The empty-cart effect, run whenever the cart changes. */
    method CartChanged(lines: nat)
      requires Valid()
      modifies this`cartLines, this`navigatedTo
      ensures Valid()
      ensures cartLines == lines
      ensures navigatedTo == if lines == 0 then Some("/products") else old(navigatedTo)
    {
      cartLines := lines;
      if lines == 0 {
        navigatedTo := Some("/products");
      }
    }

    /** `handlePaymentMethodChange`: the state and the form value change together. */
    method HandlePaymentMethodChange(m: PaymentMethod)
      requires Valid()
      modifies this`paymentMethod, this`form
      ensures Valid()
      ensures paymentMethod == m && form == old(form).(paymentMethod := m)
    {
      paymentMethod := m;
      form := form.(paymentMethod := m);
    }

    /** Typing into the inputs; the payment method changes only through its own handler. */
    method Edit(values: CheckoutForm)
      requires Valid() && values.paymentMethod == paymentMethod
      modifies this`form
      ensures Valid() && form == values
    {
      form := values;
    }

    /**
     * Submitting: when the schema passes, the cart is cleared and the confirmation
     * page of order `ORD-<suffix>` opens; otherwise nothing happens.
     */
    method Submit(suffix: string)
      requires Valid()
      modifies this`cartLines, this`navigatedTo
      ensures Valid()
      ensures Errors(form, isEmail) == {} ==> cartLines == 0 && navigatedTo == Some(ConfirmationRoute(suffix))
      ensures Errors(form, isEmail) != {} ==> cartLines == old(cartLines) && navigatedTo == old(navigatedTo)
    {
      if Errors(form, isEmail) == {} {
        cartLines := 0;
        navigatedTo := Some(ConfirmationRoute(suffix));
      }
    }
  }
}
