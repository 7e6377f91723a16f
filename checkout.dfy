/**
 * The checkout page: its form, the promo-code state driven by the
 * validator's answer, the price summary, and the submit handler, which
 * builds the booking data and a local `REF-` number and moves on to the
 * confirmation page without calling the server.
 */
module Checkout {

  import opened Wrappers
  import Text

  /** What the page knows of the experience. */
  datatype CheckoutExperience = CheckoutExperience(id: string, title: string, price: int)

  /** The page's mount effect always loads this experience, whatever the route id. */
  const MockExperience: CheckoutExperience := CheckoutExperience("1", "Kayaking", 899)

  const Taxes: int := 99

  datatype PriceSummary = PriceSummary(subtotal: int, taxes: int, total: int)

  /** `subtotal = price`, `taxes = 99`, `total = subtotal + taxes - discount` */
  function Summary(price: int, discount: int): (s: PriceSummary)
    ensures s.subtotal == price && s.taxes == 99
    ensures s.total + discount == s.subtotal + s.taxes
  {
    var subtotal := price;
    PriceSummary(subtotal, Taxes, subtotal + Taxes - discount)
  }

  /** A larger discount lowers the total by exactly the difference. */
  lemma DiscountLowersTotal(price: int, d1: int, d2: int)
    requires d1 <= d2
    ensures Summary(price, d1).total - Summary(price, d2).total == d2 - d1
    ensures Summary(price, 0).total == price + 99
  {
  }

  datatype Field = FullName | Email | PromoCode | AgreeToTerms

  datatype FormData = FormData(fullName: string, email: string, promoCode: string, agreeToTerms: bool)

  datatype FieldValue = TextValue(text: string) | Checked(checked: bool)

  /** `e.target`: the input's `name`, `value`, whether its `type` is checkbox, and `checked`. */
  datatype InputChange = InputChange(name: Field, value: string, isCheckbox: bool, checked: bool)

  /** The form's only checkbox is `agreeToTerms`. */
  predicate WellFormed(e: InputChange) {
    e.isCheckbox <==> e.name == AgreeToTerms
  }

  function FieldOf(form: FormData, name: Field): FieldValue {
    match name
    case FullName => TextValue(form.fullName)
    case Email => TextValue(form.email)
    case PromoCode => TextValue(form.promoCode)
    case AgreeToTerms => Checked(form.agreeToTerms)
  }

  /** `{ ...formData, [name]: type === 'checkbox' ? checked : value }` */
  function Updated(form: FormData, e: InputChange): (r: FormData)
    requires WellFormed(e)
    ensures FieldOf(r, e.name) == if e.isCheckbox then Checked(e.checked) else TextValue(e.value)
    ensures forall name: Field | name != e.name :: FieldOf(r, name) == FieldOf(form, name)
  {
    match e.name
    case FullName => form.(fullName := e.value)
    case Email => form.(email := e.value)
    case PromoCode => form.(promoCode := e.value)
    case AgreeToTerms => form.(agreeToTerms := e.checked)
  }

  /**
   * What `validatePromoCode` gives back: the response body's `valid` and
   * `discount`, or a thrown error (any non-2xx status, network failure).
   */
  datatype PromoReply = Replied(valid: bool, discount: int) | RequestFailed

  const EnterCodeError: string := "Please enter a promo code"
  const InvalidCodeError: string := "Invalid promo code"
  const RequestFailedError: string := "Failed to validate promo code"

  /** The `bookingData` object `handleSubmit` builds. */
  datatype BookingData = BookingData(
    experienceId: string,
    experienceTitle: string,
    date: string,
    time: string,
    fullName: string,
    email: string,
    promoCode: Option<string>,
    totalAmount: int)

  /** The navigation state handed to the confirmation page. */
  datatype ConfirmationState = ConfirmationState(bookingReference: string, experienceTitle: string, date: string, time: string)

  datatype Submission = Submission(booking: BookingData, confirmation: ConfirmationState)

  /** `'REF-' + n` where `n` is `Math.floor(100000 + Math.random() * 900000)`. */
  function ClientReference(n: int): (r: string)
    requires 100000 <= n <= 999999
    ensures |r| == 10 && Text.StartsWith(r, "REF-")
  {
    Text.SixDigitLength(n);
    "REF-" + Text.DecimalString(n)
  }

  /** The client reference is `REF-` and six digits, and the number can be read back from it. */
  lemma ClientReferenceFormat(n: int)
    requires 100000 <= n <= 999999
    ensures |ClientReference(n)| == 10 && ClientReference(n)[..4] == "REF-"
    ensures forall i | 4 <= i < 10 :: Text.IsDigit(ClientReference(n)[i])
    ensures Text.ParseDecimal(ClientReference(n)[4..]) == n
  {
    Text.SixDigitLength(n);
    Text.ParseDecimalString(n);
    assert ClientReference(n)[4..] == Text.DecimalString(n);
  }

  class CheckoutPage {
    const experienceId: string
    const date: string
    const time: string
    const experience: CheckoutExperience
    var formData: FormData
    var discount: int
    var promoApplied: bool
    var promoError: string

    /** A discount is only ever held together with an applied promo. */
    ghost predicate Valid()
      reads this
    {
      !promoApplied ==> discount == 0
    }

    function Total(): (total: int)
      reads this
      ensures total + discount == experience.price + Taxes
      ensures Valid() && !promoApplied ==> total == experience.price + Taxes
    {
      Summary(experience.price, discount).total
    }

    /** The page after its mount effect: empty form, no promo, the mock experience. */
    constructor (experienceId: string, date: string, time: string)
      ensures Valid()
      ensures this.experienceId == experienceId && this.date == date && this.time == time
      ensures experience == MockExperience
      ensures formData == FormData("", "", "", false)
      ensures discount == 0 && !promoApplied && promoError == ""
    {
      this.experienceId := experienceId;
      this.date := date;
      this.time := time;
      experience := MockExperience;
      formData := FormData("", "", "", false);
      discount := 0;
      promoApplied := false;
      promoError := "";
    }

    /** `handleInputChange` */
    method HandleInputChange(e: InputChange)
      requires Valid() && WellFormed(e)
      modifies this
      ensures Valid()
      ensures formData == Updated(old(formData), e)
      ensures discount == old(discount) && promoApplied == old(promoApplied) && promoError == old(promoError)
    {
      formData := Updated(formData, e);
    }

    /** `handleApplyPromo`, given what the validator call gives back. */
    method HandleApplyPromo(reply: PromoReply)
      requires Valid()
      modifies this
      ensures Valid()
      ensures formData == old(formData)
      ensures old(formData.promoCode) == "" ==>
        promoError == EnterCodeError && discount == old(discount) && promoApplied == old(promoApplied)
      ensures old(formData.promoCode) != "" && reply.Replied? && reply.valid ==>
        discount == reply.discount && promoApplied && promoError == ""
      ensures old(formData.promoCode) != "" && reply.Replied? && !reply.valid ==>
        discount == 0 && !promoApplied && promoError == InvalidCodeError
      ensures old(formData.promoCode) != "" && reply.RequestFailed? ==>
        discount == 0 && !promoApplied && promoError == RequestFailedError
    {
      if formData.promoCode == "" {
        promoError := EnterCodeError;
        return;
      }
      match reply
      case Replied(valid, d) =>
        if valid {
          discount := d;
          promoApplied := true;
          promoError := "";
        } else {
          discount := 0;
          promoApplied := false;
          promoError := InvalidCodeError;
        }
      case RequestFailed =>
        promoError := RequestFailedError;
        discount := 0;
        promoApplied := false;
    }

    /**
     * `handleSubmit`, given `Math.floor(100000 + Math.random() * 900000)`.
     * `None` when it returns early; otherwise the booking data it builds and
     * the state it navigates with.
     */
    method HandleSubmit(n: int) returns (r: Option<Submission>)
      requires Valid()
      requires 100000 <= n <= 999999
      ensures r.None? <==> formData.fullName == "" || formData.email == "" || !formData.agreeToTerms
      ensures r.Some? ==> r.value.booking == BookingData(
        experienceId, experience.title, date, time, formData.fullName, formData.email,
        if promoApplied then Some(formData.promoCode) else None, Total())
      ensures r.Some? ==> r.value.confirmation == ConfirmationState(ClientReference(n), experience.title, date, time)
      ensures r.Some? && r.value.booking.promoCode.None? ==> r.value.booking.totalAmount == experience.price + 99
    {
      if formData.fullName == "" || formData.email == "" || !formData.agreeToTerms {
        return None;
      }
      var bookingData := BookingData(
        experienceId, experience.title, date, time, formData.fullName, formData.email,
        if promoApplied then Some(formData.promoCode) else None, Total());
      var confirmation := ConfirmationState(ClientReference(n), bookingData.experienceTitle, bookingData.date, bookingData.time);
      r := Some(Submission(bookingData, confirmation));
    }
  }

  /**
   * Applying a valid code and then editing the code field keeps the
   * discount, and the edited text is what the booking data carries.
   */
  method EditedCodeScenario(n: int) returns (r: Option<Submission>)
    requires 100000 <= n <= 999999
    ensures r.Some?
    ensures r.value.booking.promoCode == Some("BOGUS")
    ensures r.value.booking.totalAmount == 899 + 99 - 10
    ensures |r.value.confirmation.bookingReference| == 10
  {
    var page := new CheckoutPage("1", "Oct 22", "09:00 am");
    page.HandleInputChange(InputChange(FullName, "Ada", false, false));
    page.HandleInputChange(InputChange(Email, "ada@example.com", false, false));
    page.HandleInputChange(InputChange(AgreeToTerms, "", true, true));
    page.HandleInputChange(InputChange(PromoCode, "SAVE10", false, false));
    page.HandleApplyPromo(Replied(true, 10));
    page.HandleInputChange(InputChange(PromoCode, "BOGUS", false, false));
    r := page.HandleSubmit(n);
    ClientReferenceFormat(n);
  }
}
