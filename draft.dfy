/** The reply-draft endpoint (src/app/api/generate-draft/route.ts): check
    the configuration and the body, describe the request to the language
    model, take the first text block of its answer as the draft, and build a
    subject line.

    The model call is a parameter, `assistant`, from the prompt's variable
    parts to the answer's content blocks (`None` when the call throws). */
module DraftRoute {
  import opened Js
  import opened Database

  /** The JSON body the reply dialog sends. */
  datatype DraftRequest = DraftRequest(
    orgName: Option<string>,
    contactName: Option<string>,
    status: Option<string>,
    amountRequested: Option<Money>,
    amountApproved: Option<Money>,
    eventName: Option<string>,
    eventDate: Option<string>,
    donationType: Option<string>,
    description: Option<string>)

  /** A block of the model's answer. */
  datatype ContentBlock = TextBlock(text: string) | OtherBlock(kind: string)

  /** `{ draft, subject }`, or `{ error }` with an HTTP status. */
  datatype DraftReply = Drafted(draft: string, subject: string) | DraftFailed(status: nat, message: string)

  /** The parts of the prompt that vary with the request; the rest of the
      prompt is fixed text. `eventLine`, `eventDateLine` and `requestLine`
      are `None` where the prompt leaves the line empty. */
  datatype PromptFacts = PromptFacts(
    recipient: string,
    orgName: string,
    statusContext: string,
    requested: string,
    donationType: string,
    eventLine: Option<string>,
    eventDateLine: Option<string>,
    requestLine: Option<string>)

  const NO_API_KEY: string := "Anthropic API key not configured"
  const MISSING_FIELDS: string := "Missing required fields"
  const DRAFT_FAILURE: string := "Failed to generate draft"

  const GREAT_NEWS: string := "Great News from Hometown Coffee"
  const UPDATE_SUBJECT: string := "Update on Your Donation Request - Hometown Coffee"
  const REGARDING_SUBJECT: string := "Regarding Your Donation Request - Hometown Coffee"

  /** The sentence that tells the model where the request stands. */
  function StatusContext(status: string, amountApproved: Option<Money>): string
  {
    if status == "approved" then
      "The donation request has been APPROVED."
      + (if TruthyNumber(amountApproved) then " Hometown Coffee is donating $" + DecimalText(amountApproved.value) + "." else "")
    else if status == "denied" then
      "The donation request has been DENIED."
    else if status == "fulfilled" then
      "The donation request has been FULFILLED."
      + (if TruthyNumber(amountApproved) then " Hometown Coffee donated $" + DecimalText(amountApproved.value) + "." else "")
    else
      "The donation request status is: " + status + "."
  }

  /** The prompt's variable parts, with their fallbacks. */
  function Prompt(req: DraftRequest): PromptFacts
    requires Truthy(req.orgName) && Truthy(req.status)
  {
    PromptFacts(
      OrElse(req.contactName, "the requester"),
      req.orgName.value,
      StatusContext(req.status.value, req.amountApproved),
      if TruthyNumber(req.amountRequested) then "$" + DecimalText(req.amountRequested.value) else "an unspecified amount",
      OrElse(req.donationType, "monetary"),
      if Truthy(req.eventName) then Some(req.eventName.value) else None,
      if Truthy(req.eventDate) then Some(req.eventDate.value) else None,
      if Truthy(req.description) then Some(req.description.value) else None)
  }

  /** `content[0].type === 'text' ? content[0].text : ''`; reading the first
      block of an empty answer throws, modelled as `None`. */
  function DraftText(content: seq<ContentBlock>): Option<string>
  {
    if content == [] then None
    else match content[0]
      case TextBlock(text) => Some(text)
      case OtherBlock(_) => Some("")
  }

  function SubjectPrefix(status: string): string
  {
    if status == "approved" || status == "fulfilled" then GREAT_NEWS
    else if status == "denied" then UPDATE_SUBJECT
    else REGARDING_SUBJECT
  }

  /** The route's subject line: the event name is appended for every status. */
  function Subject(status: string, eventName: Option<string>): string
  {
    if Truthy(eventName) then SubjectPrefix(status) + " - " + eventName.value else SubjectPrefix(status)
  }

  /** One POST to the endpoint. `body` is `None` when the body is not JSON. */
  function GenerateDraft(apiKeyConfigured: bool, body: Option<DraftRequest>,
                         assistant: PromptFacts -> Option<seq<ContentBlock>>): DraftReply
  {
    if !apiKeyConfigured then DraftFailed(500, NO_API_KEY)
    else if body.None? then DraftFailed(500, DRAFT_FAILURE)
    else
      var req := body.value;
      if !Truthy(req.orgName) || !Truthy(req.status) then DraftFailed(400, MISSING_FIELDS)
      else match assistant(Prompt(req))
        case None => DraftFailed(500, DRAFT_FAILURE)
        case Some(content) =>
          match DraftText(content)
          case None => DraftFailed(500, DRAFT_FAILURE)
          case Some(draft) => Drafted(draft, Subject(req.status.value, req.eventName))
  }

  // ---------------------------------------------------------------------------
  // Properties of the route

  /** Without an API key the route fails before it looks at the body. */
  lemma NoKeyFailsFirst(body: Option<DraftRequest>, assistant: PromptFacts -> Option<seq<ContentBlock>>)
    ensures GenerateDraft(false, body, assistant) == DraftFailed(500, NO_API_KEY)
  {
  }

  /** A 400 answer means exactly that the organisation or the status is
      missing or empty (given a key and a readable body). */
  lemma MissingFieldsIff(body: DraftRequest, assistant: PromptFacts -> Option<seq<ContentBlock>>)
    ensures var r := GenerateDraft(true, Some(body), assistant);
            (r.DraftFailed? && r.status == 400) <==> (!Truthy(body.orgName) || !Truthy(body.status))
    ensures var r := GenerateDraft(true, Some(body), assistant);
            r.DraftFailed? && r.status == 400 ==> r.message == MISSING_FIELDS
  {
  }

  /** The draft is the first block's text when that block is text, and
      empty when the first block is of another kind; the subject is always
      the route's subject for the request. */
  lemma DraftFromFirstBlock(body: DraftRequest, assistant: PromptFacts -> Option<seq<ContentBlock>>)
    requires Truthy(body.orgName) && Truthy(body.status)
    requires assistant(Prompt(body)).Some? && assistant(Prompt(body)) != Some([])
    ensures var content := assistant(Prompt(body)).value;
            var r := GenerateDraft(true, Some(body), assistant);
            && r.Drafted?
            && r.subject == Subject(body.status.value, body.eventName)
            && (content[0].TextBlock? ==> r.draft == content[0].text)
            && (content[0].OtherBlock? ==> r.draft == "")
  {
  }

  /** The subject is one of three fixed prefixes, followed by " - " and the
      event name exactly when the event name is non-empty, whatever the status. */
  lemma SubjectShape(status: string, eventName: Option<string>)
    ensures var s := Subject(status, eventName);
            && SubjectPrefix(status) in {GREAT_NEWS, UPDATE_SUBJECT, REGARDING_SUBJECT}
            && SubjectPrefix(status) <= s
            && (Truthy(eventName) ==> s[|SubjectPrefix(status)|..] == " - " + eventName.value)
            && (!Truthy(eventName) ==> s == SubjectPrefix(status))
  {
    var s := Subject(status, eventName);
    var prefix := SubjectPrefix(status);
    if Truthy(eventName) {
      assert s == prefix + (" - " + eventName.value);
    }
  }

  /** An approved or fulfilled context names the amount only when the amount
      is truthy: an amount of 0 reads like no amount. A denied context never
      depends on the amount, and any other status is echoed. */
  lemma StatusContextAmount(status: string, amount: Money, other: Option<Money>)
    ensures StatusContext(status, Some(0)) == StatusContext(status, None)
    ensures status == "denied" ==> StatusContext(status, Some(amount)) == StatusContext(status, other)
    ensures (status == "approved" || status == "fulfilled") && amount != 0 ==>
              |StatusContext(status, Some(amount))| > |StatusContext(status, None)|
    ensures status !in {"approved", "denied", "fulfilled"} ==>
              StatusContext(status, other) == "The donation request status is: " + status + "."
  {
  }

  /** The prompt's fallbacks for a missing contact, amount and donation type. */
  lemma PromptFallbacks(req: DraftRequest)
    requires Truthy(req.orgName) && Truthy(req.status)
    ensures !Truthy(req.contactName) ==> Prompt(req).recipient == "the requester"
    ensures !TruthyNumber(req.amountRequested) ==> Prompt(req).requested == "an unspecified amount"
    ensures !Truthy(req.donationType) ==> Prompt(req).donationType == "monetary"
    ensures Truthy(req.contactName) ==> Prompt(req).recipient == req.contactName.value
  {
  }
}
