/** The state of the vendor profile wizard (frontend/src/pages/profile.jsx):
    the form, the names of the files picked for upload and the current step,
    with the handlers that change them. The request itself is a parameter:
    `reply` is what the server answered. */
module ProfileWizard {
  import opened Common
  import opened Js
  import opened ProfileChecks

  const FinalStep := 3
  const SuccessMessage := "Profile updated!"
  const ProgressMessage := "Progress saved"
  const FallbackFailure := "Update failed."

  /** The server's answer to the profile PUT: accepted, or refused with the
      `message` of its JSON body when it has one. */
  datatype Reply = Accepted | Refused(message: Option<string>)

  /** What pressing the save button led to. */
  datatype SaveOutcome =
    | Invalid(message: string)                                       // a check failed: nothing sent
    | Sent(request: map<string, JsValue>, toast: string, navigated: bool)

  /** `err.response?.data?.message || "Update failed."`. */
  function FailureToast(message: Option<string>): (t: string)
    ensures message.Some? && message.value != "" ==> t == message.value
    ensures message.None? || message.value == "" ==> t == FallbackFailure
  {
    if message.Some? && message.value != "" then message.value else FallbackFailure
  }

  /** The `forEach` over the form's entries that fills the FormData. */
  method BuildFormData(form: map<string, JsValue>) returns (fd: map<string, JsValue>)
    ensures fd == Sendable(form)
  {
    fd := map[];
    var pending := form.Keys;
    while pending != {}
      invariant pending <= form.Keys
      invariant fd == map k | k in form && k !in pending && IsSendable(form[k]) :: form[k]
      decreases pending
    {
      var key :| key in pending;
      if IsSendable(form[key]) {
        fd := fd[key := form[key]];
      }
      pending := pending - {key};
    }
  }

  class Wizard {
    var form: map<string, JsValue>
    var fileNames: map<string, string>
    var step: int

    /** The wizard shows one of its three steps. */
    ghost predicate Valid()
      reads this
    {
      1 <= step <= FinalStep
    }

    /** An empty form, no file picked, the first step. */
    constructor ()
      ensures Valid()
      ensures form == map[] && fileNames == map["panFile" := "", "gstFile" := ""] && step == 1
    {
      form := map[];
      fileNames := map["panFile" := "", "gstFile" := ""];
      step := 1;
    }

    /** The profile arrived: the form becomes its normalised copy. */
    method Load(data: Option<map<string, JsValue>>)
      requires Valid()
      modifies this
      ensures Valid()
      ensures form == LoadedForm(data)
      ensures fileNames == old(fileNames) && step == old(step)
    {
      form := LoadedForm(data);
    }

    /** `handleFile`: a picked file goes into the form under `key` and its name
      is shown; an empty selection changes nothing. */
    method HandleFile(key: string, picked: Option<string>)
      requires Valid()
      modifies this
      ensures Valid()
      ensures picked.None? ==> form == old(form) && fileNames == old(fileNames)
      ensures picked.Some? ==>
        form == old(form)[key := File(picked.value)] && fileNames == old(fileNames)[key := picked.value]
      ensures step == old(step)
    {
      if picked.None? {
        return;
      }
      form := form[key := File(picked.value)];
      fileNames := fileNames[key := picked.value];
    }

    /** `removeSelectedFile`: only `key` leaves the form, and its shown name is cleared. */
    method RemoveSelectedFile(key: string)
      requires Valid()
      modifies this
      ensures Valid()
      ensures form == old(form) - {key}
      ensures fileNames == old(fileNames)[key := ""]
      ensures step == old(step)
    {
      form := form - {key};
      fileNames := fileNames[key := ""];
    }

    /** The Previous button, which is disabled on the first step. */
    method Prev()
      requires Valid() && step != 1
      modifies this
      ensures Valid()
      ensures step == old(step) - 1
      ensures form == old(form) && fileNames == old(fileNames)
    {
      step := step - 1;
    }

    /** The save button: `handleSave(step === 3)`. A failing check sends
        nothing; otherwise the sendable entries go out, and an accepted save
        advances one step, or on the last step navigates away. */
    method Save(reply: Reply) returns (outcome: SaveOutcome)
      requires Valid()
      modifies this
      ensures Valid()
      ensures form == old(form) && fileNames == old(fileNames)
      ensures StepError(old(step), form).Some? ==>
        outcome == Invalid(StepError(old(step), form).value) && step == old(step)
      ensures StepError(old(step), form).None? ==> outcome.Sent? && outcome.request == Sendable(form)
      ensures StepError(old(step), form).None? && reply.Refused? ==>
        outcome.toast == FailureToast(reply.message) && !outcome.navigated && step == old(step)
      ensures StepError(old(step), form).None? && reply.Accepted? && old(step) == FinalStep ==>
        outcome.toast == SuccessMessage && outcome.navigated && step == old(step)
      ensures StepError(old(step), form).None? && reply.Accepted? && old(step) != FinalStep ==>
        outcome.toast == ProgressMessage && !outcome.navigated && step == old(step) + 1
    {
      var isFinal := step == FinalStep;
      var error := StepError(step, form);
      if error.Some? {
        return Invalid(error.value);
      }
      var request := BuildFormData(form);
      match reply {
        case Refused(message) =>
          outcome := Sent(request, FailureToast(message), false);
        case Accepted =>
          if isFinal {
            outcome := Sent(request, SuccessMessage, true);
          } else {
            outcome := Sent(request, ProgressMessage, false);
            step := step + 1;
          }
      }
    }
  }
}
