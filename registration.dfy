/**
 * The devotee registration form, shared by the registration section of the
 * home page and the registration page: four text fields, each edited on its
 * own, and a submit that sends the form to the add-devotee function, clears
 * the form when that succeeds and keeps it when it fails.
 */
module Registration {
  import opened Base
  import opened Js
  import ServerlessFunctions

  datatype DevoteeDraft = DevoteeDraft(name: string, email: string, mobile: string, birthDate: string)

  datatype DraftField = Name | Email | Mobile | BirthDate

  /** `{ name: '', email: '', mobile: '', birthDate: '' }` */
  const InitialForm: DevoteeDraft := DevoteeDraft("", "", "", "")

  function FieldValue(d: DevoteeDraft, field: DraftField): string {
    match field
    case Name => d.name
    case Email => d.email
    case Mobile => d.mobile
    case BirthDate => d.birthDate
  }

  /** `{ ...formData, [name]: value }`: the named field takes the value, the others keep theirs. */
  function WithField(d: DevoteeDraft, field: DraftField, value: string): (r: DevoteeDraft)
    ensures FieldValue(r, field) == value
    ensures forall g :: g != field ==> FieldValue(r, g) == FieldValue(d, g)
  {
    match field
    case Name => d.(name := value)
    case Email => d.(email := value)
    case Mobile => d.(mobile := value)
    case BirthDate => d.(birthDate := value)
  }

  /** The body the form is posted as, parsed back into an object. */
  function RequestBody(d: DevoteeDraft): map<string, JsValue> {
    map["name" := Str(d.name), "email" := Str(d.email), "mobile" := Str(d.mobile), "birthDate" := Str(d.birthDate)]
  }

  /** The add-devotee function accepts the form exactly when none of its four fields is empty. */
  lemma FilledFormAccepted(d: DevoteeDraft)
    ensures !ServerlessFunctions.AnyFalsy(RequestBody(d), ServerlessFunctions.DevoteeRequired) <==>
      d.name != "" && d.email != "" && d.mobile != "" && d.birthDate != ""
  {
    var body := RequestBody(d);
    var names := ServerlessFunctions.DevoteeRequired;
    assert ServerlessFunctions.Field(body, names[0]) == Str(d.name);
    assert ServerlessFunctions.Field(body, names[1]) == Str(d.email);
    assert ServerlessFunctions.Field(body, names[2]) == Str(d.mobile);
    assert ServerlessFunctions.Field(body, names[3]) == Str(d.birthDate);
  }

  /** The two places the form appears; they differ only in the thank-you text. */
  datatype Placement = HomeSection | RegistrationPage

  function ThankYou(placement: Placement, name: string): string {
    "Thank you for registering, " + name +
      (if placement == HomeSection then "! Your details have been saved." else "! You will now receive updates from the temple.")
  }

  const FailureNotice: string := "Registration failed. Please try again."

  class RegistrationForm {
    const placement: Placement
    var formData: DevoteeDraft
    var isSubmitting: bool

    constructor (placement: Placement)
      ensures this.placement == placement
      ensures formData == InitialForm && !isSubmitting
    {
      this.placement := placement;
      formData := InitialForm;
      isSubmitting := false;
    }

    method HandleChange(field: DraftField, value: string)
      modifies this`formData
      ensures formData == WithField(old(formData), field, value)
    {
      formData := WithField(formData, field, value);
    }

    /** The first step of a submit: the button is disabled and the form is sent as it stands. */
    method StartSubmit() returns (sent: DevoteeDraft)
      modifies this`isSubmitting
      ensures isSubmitting
      ensures sent == formData
    {
      isSubmitting := true;
      sent := formData;
    }

    /**
     * The outcome of the request: on success a thank-you naming the sent
     * form's name and a cleared form; on failure a notice and the form kept;
     * either way the button is enabled again.
     */
    method FinishSubmit(sent: DevoteeDraft, succeeded: bool) returns (notice: string)
      modifies this`formData, this`isSubmitting
      ensures !isSubmitting
      ensures succeeded ==> formData == InitialForm && notice == ThankYou(placement, sent.name)
      ensures !succeeded ==> formData == old(formData) && notice == FailureNotice
    {
      if succeeded {
        notice := ThankYou(placement, sent.name);
        formData := InitialForm;
      } else {
        notice := FailureNotice;
      }
      isSubmitting := false;
    }

    /** handleSubmit from start to finish, `succeeded` standing for whether addDevotee resolved. */
    method HandleSubmit(succeeded: bool) returns (sent: DevoteeDraft, notice: string)
      modifies this`formData, this`isSubmitting
      ensures sent == old(formData)
      ensures !isSubmitting
      ensures succeeded ==> formData == InitialForm && notice == ThankYou(placement, sent.name)
      ensures !succeeded ==> formData == old(formData) && notice == FailureNotice
    {
      sent := StartSubmit();
      notice := FinishSubmit(sent, succeeded);
    }
  }
}
