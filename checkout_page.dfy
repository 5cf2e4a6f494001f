/** The checkout page's form: per-field errors, validation, and the submit that hands over to the store's mock payment. */
module CheckoutPage {
  import opened Wrappers
  import opened Storefront
  import CartStore
  import Checkout

  datatype Field = Email | FullName | Address | City | ZipCode | CardNumber | ExpiryDate | Cvv | CardName

  /** The error message validateForm stores for an empty field. */
  function RequiredMessage(f: Field): string
  {
    match f
    case Email => "EMAIL REQUIRED"
    case FullName => "NAME REQUIRED"
    case Address => "ADDRESS REQUIRED"
    case City => "CITY REQUIRED"
    case ZipCode => "ZIP CODE REQUIRED"
    case CardNumber => "CARD NUMBER REQUIRED"
    case ExpiryDate => "EXPIRY DATE REQUIRED"
    case Cvv => "CVV REQUIRED"
    case CardName => "CARDHOLDER NAME REQUIRED"
  }

  /** A key of the errors object: one per field, plus `submit`. */
  datatype ErrorKey = FieldError(field: Field) | Submit

  const PaymentFailed := "PAYMENT FAILED - TRY AGAIN"

  /** The errors validateForm produces: a message for each empty field and nothing else. */
  function ValidationErrors(form: map<Field, string>): (errors: map<ErrorKey, string>)
    ensures forall k :: k in errors <==> k.FieldError? && k.field in form && form[k.field] == ""
    ensures forall k :: k in errors ==> errors[k] == RequiredMessage(k.field)
  {
    map f | f in form && form[f] == "" :: FieldError(f) := RequiredMessage(f)
  }

  /** The checkout subtotal, and the page's displayed fee of a tenth of it. */
  function DisplayedFee(subtotal: int): (fee: real)
    ensures 10.0 * fee == subtotal as real
  {
    subtotal as real * 0.1
  }

  /** For whole-unit prices the displayed fee is the rounded cent fee that createOrder charges. */
  lemma DisplayedFeeMatchesOrderFee(cart: seq<CartItem>)
    ensures Checkout.ServiceFee(Checkout.CartTotalCents(cart)) as real == 100.0 * DisplayedFee(Subtotal(cart))
  {
    Checkout.CartTotalIsSubtotalInCents(cart);
  }

  class CheckoutForm {
    var form: map<Field, string>
    var errors: map<ErrorKey, string>
    var processing: bool

    /** Every field has a value. */
    predicate Valid()
      reads this
    {
      forall f: Field :: f in form
    }

    /** The form starts with the signed-in user's e-mail and name, other fields empty. */
    constructor (user: Option<User>)
      ensures Valid() && errors == map[] && !processing
      ensures form[Email] == (if user.Some? then user.value.email else "")
      ensures form[FullName] == (if user.Some? then user.value.name else "")
      ensures forall f :: f != Email && f != FullName ==> form[f] == ""
    {
      var email := if user.Some? then user.value.email else "";
      var name := if user.Some? then user.value.name else "";
      var initial := map[Email := email, FullName := name, Address := "", City := "", ZipCode := "",
                         CardNumber := "", ExpiryDate := "", Cvv := "", CardName := ""];
      forall f: Field
        ensures f in initial
      {
        match f
        case Email =>
        case FullName =>
        case Address =>
        case City =>
        case ZipCode =>
        case CardNumber =>
        case ExpiryDate =>
        case Cvv =>
        case CardName =>
      }
      form := initial;
      errors := map[];
      processing := false;
    }

    /** handleInputChange: set the field; a non-empty error on that field, and only that one, becomes empty. */
    method HandleInputChange(field: Field, value: string)
      requires Valid()
      modifies this`form, this`errors
      ensures Valid() && form == old(form)[field := value]
      ensures FieldError(field) in old(errors) && old(errors)[FieldError(field)] != "" ==>
        errors == old(errors)[FieldError(field) := ""]
      ensures !(FieldError(field) in old(errors) && old(errors)[FieldError(field)] != "") ==> errors == old(errors)
    {
      form := form[field := value];
      if FieldError(field) in errors && errors[FieldError(field)] != "" {
        errors := errors[FieldError(field) := ""];
      }
    }

    /** validateForm: true iff all nine fields are filled in; the errors name exactly the empty ones. */
    method ValidateForm() returns (ok: bool)
      requires Valid()
      modifies this`errors
      ensures errors == ValidationErrors(form)
      ensures ok <==> forall f: Field :: form[f] != ""
    {
      errors := ValidationErrors(form);
      ok := |errors.Keys| == 0;
      if !ok {
        var k :| k in errors;
      } else {
        forall f: Field
          ensures form[f] != ""
        {
          assert FieldError(f) !in errors;
        }
      }
    }

    /**
     * handleSubmit: an invalid form stops before any payment; otherwise the store's processPayment
     * runs, and a failure is reported on the `submit` key.
     */
    method HandleSubmit(store: CartStore.Store, now: int) returns (placed: Option<ClientOrder>)
      requires Valid()
      modifies this`errors, this`processing, store`cart
      ensures Valid()
      ensures (exists f: Field :: form[f] == "") ==>
        placed.None? && errors == ValidationErrors(form) && store.cart == old(store.cart) && processing == old(processing)
      ensures (forall f: Field :: form[f] != "") ==>
        !processing
        && (store.user.None? ==> placed.None? && errors == map[Submit := PaymentFailed] && store.cart == old(store.cart))
        && (store.user.Some? ==> placed.Some? && errors == map[] && store.cart == []
                                 && placed.value.tickets == old(store.cart)
                                 && placed.value.paymentMethod == "Credit Card")
    {
      var ok := ValidateForm();
      if !ok {
        return None;
      }
      processing := true;
      errors := map[];
      var r := store.ProcessPayment(Some("Credit Card"), now);
      if r.Err? {
        errors := map[Submit := PaymentFailed];
        placed := None;
      } else {
        placed := Some(r.value);
      }
      processing := false;
    }
  }
}
