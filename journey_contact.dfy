/** `JourneyAndContact`: the contact form. Typing updates one field of
    `formData`; a submission sets `isSubmitting`, awaits the e-mail service and
    records `success` or `error`. The service call itself is outside the
    model: its outcome is passed in. */
module Contact {

  datatype FormData = FormData(name: string, email: string, message: string)

  const EmptyForm: FormData := FormData("", "", "")

  /** The three named inputs of the form. */
  datatype Field = NameField | EmailField | MessageField

  function FieldValue(data: FormData, field: Field): string
  {
    match field
    case NameField => data.name
    case EmailField => data.email
    case MessageField => data.message
  }

  datatype SubmitStatus = Idle | Success | Error

  /** What the awaited send produced: a response with a status code, or a
      thrown error. */
  datatype SendOutcome = Responded(status: int) | Threw

  /** Only a response with status 200 counts as success. */
  function StatusAfter(outcome: SendOutcome): (r: SubmitStatus)
    ensures r != Idle
    ensures r == Success <==> outcome == Responded(200)
  {
    match outcome
    case Responded(status) => if status == 200 then Success else Error
    case Threw => Error
  }

  /** The submit button: disabled and captioned "Sending..." while submitting. */
  datatype SubmitButton = SubmitButton(disabled: bool, caption: string)

  class JourneyAndContact {
    var formData: FormData
    var isSubmitting: bool
    var submitStatus: SubmitStatus

    constructor ()
      ensures formData == EmptyForm && !isSubmitting && submitStatus == Idle
    {
      formData := EmptyForm;
      isSubmitting := false;
      submitStatus := Idle;
    }

    /** `handleInputChange` for the input named `field`: that field takes the
        new value and the other two keep theirs. */
    method HandleInputChange(field: Field, value: string)
      modifies this
      ensures FieldValue(formData, field) == value
      ensures forall f :: f != field ==> FieldValue(formData, f) == FieldValue(old(formData), f)
      ensures isSubmitting == old(isSubmitting) && submitStatus == old(submitStatus)
    {
      match field
      case NameField => formData := formData.(name := value);
      case EmailField => formData := formData.(email := value);
      case MessageField => formData := formData.(message := value);
    }

    /** `handleSubmit` up to the awaited send. */
    method BeginSubmit()
      modifies this
      ensures isSubmitting && submitStatus == Idle && formData == old(formData)
    {
      isSubmitting := true;
      submitStatus := Idle;
    }

    /** The rest of `handleSubmit` once the send has settled: success clears
        the form, any other outcome keeps it, and `finally` always ends the
        submission. */
    method CompleteSubmit(outcome: SendOutcome)
      modifies this
      ensures !isSubmitting
      ensures submitStatus == StatusAfter(outcome)
      ensures formData == if outcome == Responded(200) then EmptyForm else old(formData)
    {
      match outcome {
        case Responded(status) =>
          if status == 200 {
            submitStatus := Success;
            formData := EmptyForm;
          } else {
            submitStatus := Error;
          }
        case Threw =>
          submitStatus := Error;
      }
      isSubmitting := false;
    }

    function RenderSubmitButton(): (b: SubmitButton)
      reads this
      ensures b.disabled == isSubmitting
      ensures b.caption == "Sending..." <==> isSubmitting
    {
      if isSubmitting then SubmitButton(true, "Sending...") else SubmitButton(false, "Send Message →")
    }

    /** The success banner and the error banner; at most one is shown. */
    function RenderBanners(): (r: (bool, bool))
      reads this
      ensures r.0 <==> submitStatus == Success
      ensures r.1 <==> submitStatus == Error
      ensures !(r.0 && r.1)
    {
      (submitStatus == Success, submitStatus == Error)
    }
  }
}
