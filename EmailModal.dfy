/**
 * The report-request dialog: a form that takes an email address and asks the
 * backend to send the full report for a scan, then shows a confirmation.
 * The dialog's own state is `email`, `loading`, `error` and `step`; `isOpen`
 * comes from the page that hosts it. The two callbacks it is given are
 * recorded as counts of how often they were invoked.
 */
module ReportDialog {

  import opened Outcomes

  datatype Step = EmailStep | Done

  /** What is sent to the report endpoint: the scan and the address, and nothing else. */
  datatype ReportRequest = ReportRequest(scanId: string, email: string)

  /** How the report request ended. */
  datatype ReportOutcome = Sent | Threw(err: Thrown)

  const ReportErrorFallback: string := "Failed to send report"

  /** Where a click lands: the dimmed overlay, the panel itself, or one of the panel's two buttons. */
  datatype ClickTarget = Overlay | Panel | ContinueButton | NoThanksButton

  /** What the open dialog shows. */
  datatype DialogView =
    | Confirmation(sentTo: string)
    | EmailForm(email: string, errorAlert: Option<string>, submitDisabled: bool, submitLabel: string)

  class EmailModal {
    const scanId: string
    /** Handed to the request call but not part of what it sends. */
    const platform: Option<string>
    var isOpen: bool
    var email: string
    var loading: bool
    var error: string
    var step: Step
    var successCalls: nat
    var closeCalls: nat
    /** Report requests sent and not yet answered. */
    ghost var pending: nat

    /** The dialog is loading exactly while one request is in flight, which was sent from the email step. */
    ghost predicate Valid()
      reads this
    {
      pending <= 1 && (loading <==> pending == 1) && (pending == 1 ==> step == EmailStep)
    }

    constructor (scanId: string, platform: Option<string>, isOpen: bool)
      ensures Valid()
      ensures this.scanId == scanId && this.platform == platform && this.isOpen == isOpen
      ensures email == "" && !loading && error == "" && step == EmailStep
      ensures successCalls == 0 && closeCalls == 0 && pending == 0
    {
      this.scanId, this.platform, this.isOpen := scanId, platform, isOpen;
      email, loading, error, step := "", false, "", EmailStep;
      successCalls, closeCalls := 0, 0;
      pending := 0;
    }

    /**
     * What is on screen: nothing while closed; otherwise the confirmation once
     * the report was sent, or the form, with its error shown when there is one
     * and its submit button disabled and relabelled while loading.
     */
    function View(): (v: Option<DialogView>)
      reads this
      ensures v.None? <==> !isOpen
      ensures v.Some? ==> (v.value.Confirmation? <==> step == Done)
      ensures v.Some? && v.value.Confirmation? ==> v.value.sentTo == email
      ensures v.Some? && v.value.EmailForm? ==>
        && v.value.email == email
        && v.value.submitDisabled == loading
        && (v.value.errorAlert.Some? <==> error != "")
        && (v.value.errorAlert.Some? ==> v.value.errorAlert.value == error)
        && v.value.submitLabel == (if loading then "Sending..." else "Send My Free Report")
    {
      if !isOpen then None
      else if step == Done then Some(Confirmation(email))
      else Some(EmailForm(email, if error != "" then Some(error) else None, loading,
                          if loading then "Sending..." else "Send My Free Report"))
    }

    /** Whether a click on the target reaches an element that calls `onClose`. */
    function ClosesOnClick(target: ClickTarget): (closes: bool)
      reads this
      ensures closes ==> isOpen && target != Panel
      ensures isOpen && target == Overlay ==> closes
      ensures target == ContinueButton ==> (closes <==> View() == Some(Confirmation(email)))
      ensures target == NoThanksButton ==> (closes <==> View().Some? && View().value.EmailForm?)
    {
      match target
      case Overlay => isOpen
      case Panel => false
      case ContinueButton => isOpen && step == Done
      case NoThanksButton => isOpen && step == EmailStep
    }

    /**
     * The host changes `isOpen`. The reset effect runs only when the value
     * changes, and clears `error`, `step` and `email` when it becomes false;
     * `loading` is left alone.
     */
    method SetOpen(open: bool)
      requires Valid()
      modifies this`isOpen, this`error, this`step, this`email
      ensures Valid() && isOpen == open
      ensures open != old(isOpen) && !open ==> error == "" && step == EmailStep && email == ""
      ensures open || open == old(isOpen) ==> error == old(error) && step == old(step) && email == old(email)
    {
      if open != isOpen {
        isOpen := open;
        if !open {
          error := "";
          step := EmailStep;
          email := "";
        }
      }
    }

    /** The email input's `onChange`; the input exists only while the open dialog shows the form. */
    method TypeEmail(value: string)
      requires Valid()
      modifies this`email
      ensures Valid()
      ensures email == if isOpen && step == EmailStep then value else old(email)
    {
      if isOpen && step == EmailStep {
        email := value;
      }
    }

    /**
     * Submitting the form. It is on screen only while the dialog is open at the
     * email step, the browser submits only when its validation of the required
     * email input passes (`formValid`), and the submit button is disabled while
     * loading. Once submitted, the error is cleared, loading starts and the
     * request carries the scan id and the email.
     */
    method BeginSubmit(formValid: bool) returns (request: Option<ReportRequest>)
      requires Valid()
      modifies this`error, this`loading, this`pending
      ensures Valid()
      ensures request.Some? <==> old(isOpen) && step == EmailStep && !old(loading) && formValid
      ensures request.Some? ==> request.value == ReportRequest(scanId, email)
      ensures request.Some? ==> error == "" && loading && pending == 1
      ensures request.None? ==> error == old(error) && loading == old(loading) && pending == old(pending)
    {
      if !isOpen || step != EmailStep || loading || !formValid {
        return None;
      }
      error := "";
      loading := true;
      pending := pending + 1;
      request := Some(ReportRequest(scanId, email));
    }

    /**
     * The request comes back, whether or not the dialog is still open. On
     * success the dialog moves to its confirmation and `onSuccess` is invoked
     * once; on failure it shows the error's message (or a fixed one for a value
     * that is not an `Error`) and stays at the email step. Loading ends either way.
     */
    method CompleteSubmit(outcome: ReportOutcome)
      requires Valid() && pending == 1
      modifies this`error, this`loading, this`step, this`successCalls, this`pending
      ensures Valid() && !loading && pending == 0
      ensures outcome.Sent? ==> step == Done && successCalls == old(successCalls) + 1 && error == old(error)
      ensures outcome.Threw? ==>
        error == ErrorText(outcome.err, ReportErrorFallback) && step == EmailStep && successCalls == old(successCalls)
    {
      match outcome {
        case Sent =>
          step := Done;
          successCalls := successCalls + 1;
        case Threw(err) =>
          error := ErrorText(err, ReportErrorFallback);
      }
      loading := false;
      pending := pending - 1;
    }

    /** A key press reaches the document; the listener exists only while open and reacts only to Escape. */
    method PressKey(key: string)
      requires Valid()
      modifies this`closeCalls
      ensures Valid()
      ensures closeCalls == old(closeCalls) + (if isOpen && key == "Escape" then 1 else 0)
    {
      if isOpen && key == "Escape" {
        closeCalls := closeCalls + 1;
      }
    }

    /**
     * A click. The panel stops propagation, so a click inside it never reaches
     * the overlay's handler, and each close button invokes `onClose` once.
     */
    method Click(target: ClickTarget)
      requires Valid()
      modifies this`closeCalls
      ensures Valid()
      ensures closeCalls == old(closeCalls) + (if ClosesOnClick(target) then 1 else 0)
    {
      match target
      case Overlay =>
        if isOpen { closeCalls := closeCalls + 1; }
      case Panel =>
      case ContinueButton =>
        if isOpen && step == Done { closeCalls := closeCalls + 1; }
      case NoThanksButton =>
        if isOpen && step == EmailStep { closeCalls := closeCalls + 1; }
    }
  }

  /**
   * A successful report: the request carries the typed address, the dialog
   * shows the confirmation for it and `onSuccess` was invoked exactly once; a
   * second submit cannot start while the first is loading.
   */
  method SuccessfulReport(scanId: string, address: string) returns (d: EmailModal, again: Option<ReportRequest>)
    ensures d.View() == Some(Confirmation(address))
    ensures d.successCalls == 1 && !d.loading && d.error == ""
    ensures again == None
  {
    d := new EmailModal(scanId, Some("shopify"), false);
    d.SetOpen(true);
    d.TypeEmail(address);
    var request := d.BeginSubmit(true);
    assert request == Some(ReportRequest(scanId, address));
    again := d.BeginSubmit(true);
    d.CompleteSubmit(Sent);
  }

  /** A failed report shows the error and leaves the form ready for another try. */
  method FailedReport(scanId: string, address: string, message: string) returns (d: EmailModal)
    ensures d.View() == Some(EmailForm(address, if message != "" then Some(message) else None, false, "Send My Free Report"))
    ensures d.successCalls == 0 && d.step == EmailStep
  {
    d := new EmailModal(scanId, None, true);
    d.TypeEmail(address);
    var request := d.BeginSubmit(true);
    assert request.Some?;
    d.CompleteSubmit(Threw(ErrorInstance(message)));
    var retry := d.BeginSubmit(true);
    assert retry.Some?;
    d.CompleteSubmit(Threw(ErrorInstance(message)));
  }

  /**
   * The reset runs when the dialog closes, not when it opens: a request that
   * succeeds after the dialog was closed leaves the step at the confirmation,
   * so reopening shows "Report Sent!" with the cleared (empty) address.
   */
  method LateSuccessAfterClose(scanId: string, address: string) returns (d: EmailModal)
    ensures d.isOpen && d.View() == Some(Confirmation(""))
    ensures d.successCalls == 1 && d.closeCalls == 1
  {
    d := new EmailModal(scanId, None, true);
    d.TypeEmail(address);
    var request := d.BeginSubmit(true);
    assert request.Some?;
    d.Click(NoThanksButton);
    d.SetOpen(false);
    d.CompleteSubmit(Sent);
    assert !d.isOpen && d.step == Done;
    d.SetOpen(true);
  }
}
