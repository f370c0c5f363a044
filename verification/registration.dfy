/**
 * The receptionist's patient registration form: single-field updates, the
 * ten-digit checks that gate the submission (mobile number first, then the
 * emergency number), and what the page does with the answer.
 */
module Registration {
  import opened Common

  /** The form's fields, in the order the page declares them. */
  const FieldNames: seq<string> := ["patientName", "aadharId", "dob", "gender", "bloodGroup", "email", "height",
                                    "weight", "address", "emergencyNumber", "mobile", "password", "confirmPassword"]

  /** Every field empty. */
  function EmptyForm(): (f: map<string, string>)
    ensures f.Keys == set k | k in FieldNames
    ensures forall k :: k in f ==> f[k] == ""
  {
    map k | k in FieldNames :: ""
  }

  datatype MessageType = Success | Error

  datatype Message = Message(kind: MessageType, text: string)

  const MsgBadMobile := "Mobile number must be exactly 10 digits."
  const MsgBadEmergency := "Emergency contact number must be exactly 10 digits."
  const MsgRegistered := "Patient registered successfully!"
  const MsgFailed := "Registration failed"
  const MsgNetwork := "An error occurred. Please try again."
  const ProfileRoute := "/receptionist/profile"

  /** `/^\d{10}$/.test(formData[name])`; a field that is absent never passes. */
  predicate FieldIsTenDigits(form: map<string, string>, name: string) {
    name in form && IsTenDigits(form[name])
  }

  /** The validation gate of `handleSubmit`: `None` lets the form through. */
  function SubmitGate(form: map<string, string>): (r: Option<Message>)
    ensures r.None? <==> FieldIsTenDigits(form, "mobile") && FieldIsTenDigits(form, "emergencyNumber")
    ensures !FieldIsTenDigits(form, "mobile") ==> r == Some(Message(Error, MsgBadMobile))
    ensures r == Some(Message(Error, MsgBadEmergency)) <==>
              FieldIsTenDigits(form, "mobile") && !FieldIsTenDigits(form, "emergencyNumber")
  {
    if !FieldIsTenDigits(form, "mobile") then Some(Message(Error, MsgBadMobile))
    else if !FieldIsTenDigits(form, "emergencyNumber") then Some(Message(Error, MsgBadEmergency))
    else None
  }

  /** What the request ends with: an answer (its `ok` flag and `message`), or a failure to get one. */
  datatype Outcome = Answer(ok: bool, message: Option<string>) | NetworkFailure

  /** The message shown for an outcome. */
  function OutcomeMessage(outcome: Outcome): (m: Message)
    ensures m.kind == Success <==> outcome.Answer? && outcome.ok
    ensures outcome.Answer? && Truthy(outcome.message) ==> m.text == outcome.message.value
    ensures outcome.Answer? && !Truthy(outcome.message) ==> m.text == (if outcome.ok then MsgRegistered else MsgFailed)
    ensures outcome.NetworkFailure? ==> m.text == MsgNetwork
  {
    match outcome
    case NetworkFailure => Message(Error, MsgNetwork)
    case Answer(ok, message) =>
      if ok then Message(Success, if Truthy(message) then message.value else MsgRegistered)
      else Message(Error, if Truthy(message) then message.value else MsgFailed)
  }

  class RegistrationForm {
    var formData: map<string, string>
    var message: Option<Message>
    var isSubmitting: bool
    var navigatedTo: Option<string>

    constructor ()
      ensures formData == EmptyForm() && message == None && !isSubmitting && navigatedTo == None
    {
      formData := EmptyForm();
      message := None;
      isSubmitting := false;
      navigatedTo := None;
    }

    /** `handleChange`: the named field takes the value; every other field is unchanged. */
    method HandleChange(name: string, value: string)
      modifies this
      ensures formData == old(formData)[name := value]
      ensures forall k :: k in old(formData) && k != name ==> k in formData && formData[k] == old(formData)[k]
      ensures message == old(message) && isSubmitting == old(isSubmitting) && navigatedTo == old(navigatedTo)
    {
      formData := formData[name := value];
    }

    /**
     * The first half of `handleSubmit`: a number that is not ten digits
     * shows its error and sends nothing; otherwise the page marks itself
     * submitting and sends the whole form.
     */
    method BeginSubmit() returns (body: Option<map<string, string>>)
      modifies this
      ensures SubmitGate(old(formData)).Some? ==>
                body == None && message == SubmitGate(old(formData)) && isSubmitting == old(isSubmitting)
      ensures SubmitGate(old(formData)).None? ==>
                body == Some(old(formData)) && isSubmitting && message == old(message)
      ensures formData == old(formData) && navigatedTo == old(navigatedTo)
    {
      var gate := SubmitGate(formData);
      if gate.Some? {
        message := gate;
        return None;
      }
      isSubmitting := true;
      body := Some(formData);
    }

    /**
     * The second half: the message for the outcome; on an ok answer every
     * field is emptied and the page moves to the receptionist's profile;
     * submitting ends in every case.
     */
    method FinishSubmit(outcome: Outcome)
      modifies this
      ensures message == Some(OutcomeMessage(outcome)) && !isSubmitting
      ensures outcome.Answer? && outcome.ok ==> formData == EmptyForm() && navigatedTo == Some(ProfileRoute)
      ensures !(outcome.Answer? && outcome.ok) ==> formData == old(formData) && navigatedTo == old(navigatedTo)
    {
      match outcome {
        case NetworkFailure =>
          message := Some(Message(Error, MsgNetwork));
        case Answer(ok, text) =>
          if ok {
            message := Some(Message(Success, if Truthy(text) then text.value else MsgRegistered));
            formData := EmptyForm();
            navigatedTo := Some(ProfileRoute);
          } else {
            message := Some(Message(Error, if Truthy(text) then text.value else MsgFailed));
          }
      }
      isSubmitting := false;
    }
  }

  /** A fresh (or freshly reset) form cannot be submitted: its mobile number is empty. */
  lemma EmptyFormRejected()
    ensures SubmitGate(EmptyForm()) == Some(Message(Error, MsgBadMobile))
  {
    assert "mobile" in FieldNames;
  }

  /** Changing a field other than the two numbers never changes what the gate decides. */
  lemma GateIgnoresOtherFields(form: map<string, string>, name: string, value: string)
    requires name != "mobile" && name != "emergencyNumber"
    ensures SubmitGate(form[name := value]) == SubmitGate(form)
  {
  }
}
