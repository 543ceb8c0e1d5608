/** The contact form: three text fields, a submit flow that shows a pending state and then a
    success or failure message, and the button and message styling derived from that state. */
module Contact {
  import opened Text

  datatype FormData = FormData(name: string, email: string, message: string)

  /** The `name` attribute of the input that changed. */
  datatype Field = Name | Email | Message

  const EmptyForm: FormData := FormData("", "", "")

  const SuccessText: string := "Message sent successfully!"
  const FailureText: string := "Failed to send message. Please try again."

  /** The word whose presence styles the message as a success. */
  const SuccessMarker: string := "successfully"

  /** `{ ...prevState, [name]: value }`. */
  function WithField(form: FormData, field: Field, value: string): FormData {
    match field
    case Name => form.(name := value)
    case Email => form.(email := value)
    case Message => form.(message := value)
  }

  /** The value a field shows. */
  function FieldValue(form: FormData, field: Field): string {
    match field
    case Name => form.name
    case Email => form.email
    case Message => form.message
  }

  /** An update sets the named field to the typed value and leaves the other two as they were. */
  lemma WithFieldSpec(form: FormData, field: Field, value: string, other: Field)
    ensures FieldValue(WithField(form, field, value), field) == value
    ensures other != field ==> FieldValue(WithField(form, field, value), other) == FieldValue(form, other)
    ensures WithField(form, field, FieldValue(form, field)) == form
  {
  }

  /** The browser's `required` check: the form is only submitted with all three fields filled in. */
  predicate Submittable(form: FormData) {
    form.name != "" && form.email != "" && form.message != ""
  }

  /** The message is styled as a success when it contains the marker word. */
  predicate IsSuccessStyle(msg: string) {
    Contains(msg, SuccessMarker)
  }

  /** The success text gets the success style. */
  lemma SuccessTextStyled()
    ensures IsSuccessStyle(SuccessText)
  {
    var prefix := "Message sent ";
    assert SuccessText == prefix + SuccessMarker + "!";
    assert SuccessText[|prefix|..|prefix| + |SuccessMarker|] == SuccessMarker;
    ContainsAt(SuccessText, SuccessMarker, |prefix|);
  }

  /** The failure text does not: it has no lower-case 'f', which the marker word has. */
  lemma FailureTextNotStyled()
    ensures !IsSuccessStyle(FailureText)
  {
    assert SuccessMarker[7] == 'f';
    assert 'f' !in FailureText;
    NotContainsByMissingChar(FailureText, SuccessMarker, 'f');
  }

  /** The state of the contact page. */
  class ContactPage {
    var formData: FormData
    var isSubmitting: bool
    var submitMessage: string

    /** The initial state: empty fields, not sending, no message. */
    constructor ()
      ensures formData == EmptyForm && !isSubmitting && submitMessage == ""
      ensures !MessageShown() && SubmitLabel() == "Send Message"
    {
      formData := EmptyForm;
      isSubmitting := false;
      submitMessage := "";
    }

    /** `handleInputChange`: one field takes the typed value. */
    method InputChange(field: Field, value: string)
      modifies this`formData
      ensures formData == WithField(old(formData), field, value)
    {
      formData := WithField(formData, field, value);
    }

    /** The first part of `handleSubmit`, up to the awaited delay; the browser only fires the
        submit once every required field is filled in. */
    method BeginSubmit()
      requires Submittable(formData)
      modifies this`isSubmitting, this`submitMessage
      ensures isSubmitting && submitMessage == ""
      ensures SubmitDisabled() && SubmitLabel() == "Sending..." && !MessageShown()
    {
      isSubmitting := true;
      submitMessage := "";
    }

    /** The rest of `handleSubmit` once the delay ends: on success the success text and empty
        fields, on failure the failure text with the fields kept; in both cases not sending. */
    method CompleteSubmit(succeeded: bool)
      modifies this
      ensures submitMessage == (if succeeded then SuccessText else FailureText)
      ensures formData == (if succeeded then EmptyForm else old(formData))
      ensures !isSubmitting && !SubmitDisabled() && MessageShown()
      ensures IsSuccessStyle(submitMessage) <==> succeeded
    {
      if succeeded {
        submitMessage := SuccessText;
        formData := EmptyForm;
      } else {
        submitMessage := FailureText;
      }
      isSubmitting := false;
      SuccessTextStyled();
      FailureTextNotStyled();
    }

    /** The submit button is disabled while sending. */
    predicate SubmitDisabled()
      reads this
    {
      isSubmitting
    }

    /** The submit button's label. */
    function SubmitLabel(): string
      reads this
    {
      if isSubmitting then "Sending..." else "Send Message"
    }

    /** The message paragraph is rendered when the message is not empty. */
    predicate MessageShown()
      reads this
    {
      submitMessage != ""
    }
  }

  /** The label reads "Sending..." exactly when the button is disabled. */
  lemma SubmitLabelSpec(page: ContactPage)
    ensures page.SubmitLabel() == "Sending..." <==> page.SubmitDisabled()
  {
  }
}
