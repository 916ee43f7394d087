/** The reply dialog (src/components/ui/EmailReplyModal.tsx): who the reply
    goes to, its first subject line, asking the draft endpoint for a body,
    and sending.

    Each asynchronous handler is split at its `await`: `Begin…` is what runs
    before the request leaves (and returns what is sent), `Complete…` what
    runs when its answer, or the error it threw, comes back. */
module EmailReply {
  import opened Js
  import opened Database
  import opened DraftRoute

  const NO_EMAIL: string := "No email address on file for this requester. Please add one first."
  const EMPTY_BODY: string := "Please write or generate an email body before sending."
  const SEND_FAILURE: string := "Failed to send email"

  /** `requester.contact_email || ''`. */
  function RecipientEmail(req: RequestWithRequester): string
  {
    OrElse(req.requester.contactEmail, "")
  }

  /** `contact_name || org_name || ''`. */
  function RecipientName(req: RequestWithRequester): (name: string)
    ensures Truthy(req.requester.contactName) ==> name == req.requester.contactName.value
    ensures !Truthy(req.requester.contactName) ==> name == req.requester.orgName
    ensures name == "" <==> !Truthy(req.requester.contactName) && req.requester.orgName == ""
  {
    OrElse(req.requester.contactName, OrElse(Some(req.requester.orgName), ""))
  }

  /** The dialog's first subject line: the event name is appended only for
      approved or fulfilled requests. */
  function InitialSubject(req: RequestWithRequester): string
  {
    var status := req.request.status;
    if status == "approved" || status == "fulfilled" then
      GREAT_NEWS + (if Truthy(req.request.eventName) then " - " + req.request.eventName.value else "")
    else if status == "denied" then UPDATE_SUBJECT
    else REGARDING_SUBJECT
  }

  /** The two subject rules agree exactly when there is no event name or the
      request is approved or fulfilled; for any other status with an event
      the draft endpoint's subject is longer than the dialog's. */
  lemma SubjectRulesAgreeIff(req: RequestWithRequester)
    ensures var status := req.request.status;
            (InitialSubject(req) == Subject(status, req.request.eventName))
              <==> (!Truthy(req.request.eventName) || status == "approved" || status == "fulfilled")
  {
    var status := req.request.status;
    var event := req.request.eventName;
    if Truthy(event) && !(status == "approved" || status == "fulfilled") {
      assert |Subject(status, event)| > |InitialSubject(req)|;
    }
  }

  /** The body the dialog posts to the draft endpoint. */
  function DraftRequestFor(req: RequestWithRequester): DraftRequest
  {
    DraftRequest(
      Some(req.requester.orgName), req.requester.contactName, Some(req.request.status),
      req.request.amountRequested, req.request.amountApproved, req.request.eventName,
      req.request.eventDate, Some(req.request.donationType), Some(req.request.description))
  }

  /** A request with an organisation name and a status always passes the
      endpoint's field check. */
  lemma DialogRequestPassesFieldCheck(req: RequestWithRequester, assistant: PromptFacts -> Option<seq<ContentBlock>>)
    requires req.requester.orgName != "" && req.request.status != ""
    ensures var r := GenerateDraft(true, Some(DraftRequestFor(req)), assistant);
            !(r.DraftFailed? && r.status == 400)
  {
  }

  /** What `handleSend` posts. */
  datatype OutgoingEmail = OutgoingEmail(to: string, subject: string, body: string, requestId: string)

  /** The send endpoint's answer: the response's `ok` flag and the body's `error`. */
  datatype SendReply = SendReply(ok: bool, error: Option<string>)

  class EmailReplyModal {
    const request: RequestWithRequester
    var subject: string
    var body: string
    var generating: bool
    var sending: bool
    var error: Option<string>
    var success: bool

    constructor (request: RequestWithRequester)
      ensures this.request == request
      ensures subject == InitialSubject(request) && body == ""
      ensures !generating && !sending && error.None? && !success
    {
      this.request := request;
      subject := InitialSubject(request);
      body := "";
      generating := false;
      sending := false;
      error := None;
      success := false;
    }

    /** The send button's `disabled`. */
    predicate SendDisabled()
      reads this
    {
      sending || success || RecipientEmail(request) == ""
    }

    method BeginGenerateDraft() returns (payload: DraftRequest)
      modifies this
      ensures payload == DraftRequestFor(request)
      ensures generating && error.None?
      ensures subject == old(subject) && body == old(body)
      ensures sending == old(sending) && success == old(success)
    {
      generating := true;
      error := None;
      payload := DraftRequestFor(request);
    }

    /** A draft replaces the body, and the subject only when the returned
        subject is non-empty; a failure sets the error; either way
        `generating` ends false. */
    method CompleteGenerateDraft(reply: Completion<DraftReply>)
      modifies this
      ensures !generating
      ensures sending == old(sending) && success == old(success)
      ensures reply.Returned? && reply.value.Drafted? ==>
                && body == reply.value.draft
                && subject == (if reply.value.subject != "" then reply.value.subject else old(subject))
                && error == old(error)
      ensures reply.Returned? && reply.value.DraftFailed? ==>
                && error == Some(OrElse(Some(reply.value.message), DRAFT_FAILURE))
                && body == old(body) && subject == old(subject)
      ensures reply.Threw? ==>
                error == Some(reply.message) && body == old(body) && subject == old(subject)
    {
      match reply {
        case Threw(message) =>
          error := Some(message);
        case Returned(data) =>
          match data {
            case DraftFailed(_, message) =>
              error := Some(OrElse(Some(message), DRAFT_FAILURE));
            case Drafted(draft, newSubject) =>
              body := draft;
              if newSubject != "" {
                subject := newSubject;
              }
          }
      }
      generating := false;
    }

    /** The guards of `handleSend`, in order: a missing address is reported
        before an empty body, and neither sends anything. */
    method BeginSend() returns (outgoing: Option<OutgoingEmail>)
      modifies this
      ensures subject == old(subject) && body == old(body)
      ensures generating == old(generating) && success == old(success)
      ensures RecipientEmail(request) == "" ==>
                outgoing.None? && error == Some(NO_EMAIL) && sending == old(sending)
      ensures RecipientEmail(request) != "" && IsBlank(body) ==>
                outgoing.None? && error == Some(EMPTY_BODY) && sending == old(sending)
      ensures RecipientEmail(request) != "" && !IsBlank(body) ==>
                && outgoing == Some(OutgoingEmail(RecipientEmail(request), subject, body, request.request.id))
                && sending && error.None? && SendDisabled()
    {
      var to := RecipientEmail(request);
      if to == "" {
        error := Some(NO_EMAIL);
        return None;
      }
      TrimEmptyIffBlank(body);
      if Trim(body) == "" {
        error := Some(EMPTY_BODY);
        return None;
      }
      sending := true;
      error := None;
      outgoing := Some(OutgoingEmail(to, subject, body, request.request.id));
    }

    /** A delivered email marks success, which keeps the button disabled; a
        failure sets the error; either way `sending` ends false. */
    method CompleteSend(reply: Completion<SendReply>)
      modifies this
      ensures !sending
      ensures subject == old(subject) && body == old(body) && generating == old(generating)
      ensures reply.Returned? && reply.value.ok && !Truthy(reply.value.error) ==>
                success && error == old(error) && SendDisabled()
      ensures reply.Returned? && !(reply.value.ok && !Truthy(reply.value.error)) ==>
                error == Some(OrElse(reply.value.error, SEND_FAILURE)) && success == old(success)
      ensures reply.Threw? ==> error == Some(reply.message) && success == old(success)
    {
      match reply {
        case Threw(message) =>
          error := Some(message);
        case Returned(data) =>
          if !data.ok || Truthy(data.error) {
            error := Some(OrElse(data.error, SEND_FAILURE));
          } else {
            success := true;
          }
      }
      sending := false;
    }
  }
}
