/**
 * The donation page: the donation form (a preset or custom amount and the
 * donor's details), the check made before the payment gateway opens, the
 * order handed to the gateway, and the donor record posted when the gateway
 * reports success or failure. The gateway itself is not modelled: its two
 * callbacks are methods called with the payment id it reports.
 */
module Donate {
  import opened Base
  import opened Js
  import opened Types
  import ServerlessFunctions

  /** The amount field: a number, the empty string, or NaN (from unparsable custom text). */
  datatype DraftAmount = Amount(n: int) | Blank | NotANumber

  datatype DonationDraft = DonationDraft(
    amount: DraftAmount,
    fullName: string, email: string, mobile: string,
    address1: string, address2: string, city: string, state: string, pincode: string)

  datatype DraftField = FullName | Email | Mobile | Address1 | Address2 | City | State | Pincode

  const InitialForm: DonationDraft := DonationDraft(Amount(500), "", "", "", "", "", "", FirstIndianState, "")

  const PresetAmounts: seq<int> := [500, 1000, 2000, 5000]

  function FieldValue(d: DonationDraft, field: DraftField): string {
    match field
    case FullName => d.fullName
    case Email => d.email
    case Mobile => d.mobile
    case Address1 => d.address1
    case Address2 => d.address2
    case City => d.city
    case State => d.state
    case Pincode => d.pincode
  }

  /** `{ ...formData, [name]: value }` for a field other than the custom amount. */
  function WithField(d: DonationDraft, field: DraftField, value: string): (r: DonationDraft)
    ensures FieldValue(r, field) == value
    ensures forall g :: g != field ==> FieldValue(r, g) == FieldValue(d, g)
    ensures r.amount == d.amount
  {
    match field
    case FullName => d.(fullName := value)
    case Email => d.(email := value)
    case Mobile => d.(mobile := value)
    case Address1 => d.(address1 := value)
    case Address2 => d.(address2 := value)
    case City => d.(city := value)
    case State => d.(state := value)
    case Pincode => d.(pincode := value)
  }

  // ---------------------------------------------------------------------
  // The custom amount
  // ---------------------------------------------------------------------

  /**
   * The custom amount typed as text: '' stays '', otherwise
   * `Math.max(0, parseInt(value, 10))`; the text box then shows that
   * number's string (NaN when nothing parsed).
   */
  function CustomAmount(value: string): (r: (DraftAmount, string))
    ensures value == "" <==> r.0.Blank?
    ensures r.0.Amount? ==> r.0.n >= 0 && ParseInt(value).Some? && r.0.n == (if ParseInt(value).value < 0 then 0 else ParseInt(value).value)
    ensures r.0.NotANumber? <==> value != "" && ParseInt(value).None?
  {
    if value == "" then (Blank, "")
    else match ParseInt(value)
      case Some(n) =>
        var m := if n < 0 then 0 else n;
        (Amount(m), IntToString(m))
      case None => (NotANumber, "NaN")
  }

  /** Typing the digits of a whole number gives that amount, and the box keeps showing those digits. */
  lemma CustomAmountOfNumber(n: nat)
    ensures CustomAmount(IntToString(n)) == (Amount(n), IntToString(n))
  {
    ParseIntOfIntToString(n, "");
    assert IntToString(n) + "" == IntToString(n);
  }

  /** A negative number is raised to zero. */
  lemma CustomAmountClampsNegative(n: int)
    requires n < 0
    ensures CustomAmount(IntToString(n)) == (Amount(0), IntToString(0))
  {
    ParseIntOfIntToString(n, "");
    assert IntToString(n) + "" == IntToString(n);
  }

  // ---------------------------------------------------------------------
  // Submit
  // ---------------------------------------------------------------------

  /** formData.amount as a JavaScript value. */
  function AmountValue(a: DraftAmount): JsValue {
    match a
    case Amount(n) => Num(n)
    case Blank => Str("")
    case NotANumber => NaN
  }

  /**
   * `!formData.amount || Number(formData.amount) <= 0`; the empty string and
   * NaN are already falsy, so the comparison matters only for numbers.
   */
  predicate AmountRejected(a: DraftAmount) {
    var v := AmountValue(a);
    Falsy(v) || (v.Num? && v.n <= 0)
  }

  /** The check lets exactly the positive amounts through. */
  lemma AmountRejectedIffNotPositive(a: DraftAmount)
    ensures AmountRejected(a) <==> !(a.Amount? && a.n > 0)
  {
  }

  /** What is handed to the payment gateway. */
  datatype PaymentOrder = PaymentOrder(
    amountInPaise: int,
    currency: string,
    merchantName: string,
    description: string,
    image: string,
    prefillName: string,
    prefillEmail: string,
    prefillContact: string,
    notesAddress: string)

  const FallbackMerchantName: string := "Shree Shree Tribhanglalita Temple"

  /** The first line of the temple address, or the fallback name when that line is empty. */
  function MerchantName(settings: TempleSettings): (name: string)
    ensures name != ""
    ensures Split(settings.contactInfo.address, '\n')[0] != "" ==> name == Split(settings.contactInfo.address, '\n')[0]
  {
    var first := Split(settings.contactInfo.address, '\n')[0];
    if first == "" then FallbackMerchantName else first
  }

  function OrderFor(d: DonationDraft, settings: TempleSettings): (o: PaymentOrder)
    requires d.amount.Amount?
    ensures o.amountInPaise == d.amount.n * 100
    ensures o.prefillName == d.fullName && o.prefillEmail == d.email && o.prefillContact == d.mobile
  {
    PaymentOrder(d.amount.n * 100, "INR", MerchantName(settings), "Donation for Temple Seva", settings.logoUrl,
      d.fullName, d.email, d.mobile,
      d.address1 + ", " + d.address2 + ", " + d.city + ", " + d.state + " - " + d.pincode)
  }

  const InvalidAmountNotice: string := "Please enter a valid donation amount."

  // ---------------------------------------------------------------------
  // The donor record posted after payment
  // ---------------------------------------------------------------------

  /** `{ ...data, status, paymentId }` as posted to add-donor. */
  datatype DonorRequest = DonorRequest(data: DonationDraft, status: DonationStatus, paymentId: string)

  function RequestBody(r: DonorRequest): map<string, JsValue> {
    map[
      "amount" := (match r.data.amount case Amount(n) => Num(n) case Blank => Str("") case NotANumber => Null),
      "fullName" := Str(r.data.fullName), "email" := Str(r.data.email), "mobile" := Str(r.data.mobile),
      "address1" := Str(r.data.address1), "address2" := Str(r.data.address2), "city" := Str(r.data.city),
      "state" := Str(r.data.state), "pincode" := Str(r.data.pincode),
      "status" := Str(StatusName(r.status)), "paymentId" := Str(r.paymentId)]
  }

  /**
   * A record for a form that passed the amount check is accepted by add-donor
   * exactly when the donor's name, email and mobile are filled in.
   */
  lemma PaidRecordAccepted(r: DonorRequest)
    requires r.data.amount.Amount? && r.data.amount.n > 0
    ensures !ServerlessFunctions.AnyFalsy(RequestBody(r), ServerlessFunctions.DonorRequired) <==>
      r.data.fullName != "" && r.data.email != "" && r.data.mobile != ""
  {
    var body := RequestBody(r);
    var names := ServerlessFunctions.DonorRequired;
    assert ServerlessFunctions.Field(body, names[0]) == Num(r.data.amount.n);
    assert ServerlessFunctions.Field(body, names[1]) == Str(r.data.fullName);
    assert ServerlessFunctions.Field(body, names[2]) == Str(r.data.email);
    assert ServerlessFunctions.Field(body, names[3]) == Str(r.data.mobile);
    assert ServerlessFunctions.Field(body, names[4]) == Str(StatusName(r.status));
    assert StatusName(r.status) != "";
  }

  // ---------------------------------------------------------------------
  // The page's state
  // ---------------------------------------------------------------------

  class DonationPage {
    var formData: DonationDraft
    var customAmount: string
    var isCustom: bool

    constructor ()
      ensures formData == InitialForm && customAmount == "" && !isCustom
    {
      formData := InitialForm;
      customAmount := "";
      isCustom := false;
    }

    /** A preset button: that amount, the custom box cleared and closed. */
    method HandleAmountClick(amount: int)
      modifies this
      ensures formData == old(formData).(amount := Amount(amount))
      ensures customAmount == "" && !isCustom
    {
      isCustom := false;
      customAmount := "";
      formData := formData.(amount := Amount(amount));
    }

    /** The "custom" button: the amount is blanked and the custom box opens (its text is kept). */
    method HandleCustomClick()
      modifies this`isCustom, this`formData
      ensures isCustom
      ensures formData == old(formData).(amount := Blank)
    {
      isCustom := true;
      formData := formData.(amount := Blank);
    }

    method HandleCustomAmountChange(value: string)
      modifies this`customAmount, this`formData
      ensures formData == old(formData).(amount := CustomAmount(value).0)
      ensures customAmount == CustomAmount(value).1
    {
      var numeric := CustomAmount(value);
      customAmount := numeric.1;
      formData := formData.(amount := numeric.0);
    }

    method HandleChange(field: DraftField, value: string)
      modifies this`formData
      ensures formData == WithField(old(formData), field, value)
    {
      formData := WithField(formData, field, value);
    }

    /**
     * Opens the gateway with an order for the form as it stands, charging the
     * amount in paise, or shows a notice and opens nothing when the amount is
     * empty, not a number, zero or negative.
     */
    method HandleSubmit(settings: TempleSettings) returns (order: Option<PaymentOrder>, notice: Option<string>)
      ensures order.Some? <==> formData.amount.Amount? && formData.amount.n > 0
      ensures order.Some? ==> order.value == OrderFor(formData, settings) && notice.None?
      ensures order.None? ==> notice == Some(InvalidAmountNotice)
    {
      AmountRejectedIffNotPositive(formData.amount);
      if AmountRejected(formData.amount) {
        order := None;
        notice := Some(InvalidAmountNotice);
        return;
      }
      order := Some(OrderFor(formData, settings));
      notice := None;
    }

    /**
     * The gateway's success handler: posts the submitted form as a successful
     * donation with the payment id, and puts the form back to its initial state.
     */
    method PaymentSucceeded(data: DonationDraft, paymentId: string) returns (record: DonorRequest)
      modifies this
      ensures record == DonorRequest(data, Successful, paymentId)
      ensures formData == InitialForm && customAmount == "" && !isCustom
    {
      record := DonorRequest(data, Successful, paymentId);
      formData := InitialForm;
      customAmount := "";
      isCustom := false;
    }

    /** The gateway's failure handler: posts the submitted form as a failed donation; the form stays. */
    method PaymentFailed(data: DonationDraft, paymentId: string) returns (record: DonorRequest)
      ensures record == DonorRequest(data, Failed, paymentId)
    {
      record := DonorRequest(data, Failed, paymentId);
    }
  }
}
