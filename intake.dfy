/** The public submission endpoint (src/app/api/public-request/route.ts):
    validate the form, find the requester by contact email or create one,
    then insert one donation request.

    The hosted store is an in-memory requester table and request list.
    What the store answers to each call (a failed lookup, a failed write, the
    id it assigns) is an input, `StoreAnswers`. The request list holds the
    payloads the route writes; columns the store fills in itself are not
    modelled. `Intake` is the specification; `IntakeStore.Submit` performs
    the same writes one after the other. */
module PublicIntake {
  import opened Js
  import opened Database

  /** The JSON body; any field may be missing. */
  datatype Submission = Submission(
    orgName: Option<string>,
    contactName: Option<string>,
    contactEmail: Option<string>,
    contactPhone: Option<string>,
    category: Option<string>,
    eventName: Option<string>,
    eventDate: Option<string>,
    amountRequested: Option<string>,
    donationType: Option<string>,
    description: Option<string>)

  /** `{ success: true }`, or `{ error }` with an HTTP status. */
  datatype Response = Submitted | Rejected(status: nat, message: string)

  datatype WriteOutcome = Written | WriteFailed(message: string)

  /** How the store answers the calls of one submission. */
  datatype StoreAnswers = StoreAnswers(
    lookupFails: bool,
    contactUpdate: WriteOutcome,
    requesterInsert: WriteOutcome,
    newRequesterId: string,
    requestInsert: WriteOutcome)

  datatype StoreState = StoreState(requesters: seq<Requester>, requests: seq<DonationRequestInsert>)

  const MISSING_FIELDS: string := "Please fill in all required fields."
  const UNEXPECTED_FAILURE: string := "Something went wrong. Please try again."

  /** `orgName && contactName && contactEmail && description`: a truthiness
      test, so a value of spaces passes. */
  predicate HasRequiredFields(sub: Submission)
  {
    Truthy(sub.orgName) && Truthy(sub.contactName) && Truthy(sub.contactEmail) && Truthy(sub.description)
  }

  function HasEmail(email: string): Requester -> bool
  {
    (r: Requester) => r.contactEmail == Some(email)
  }

  /** `select('id').eq('contact_email', email).single()`: the id of the one
      requester with exactly that email; no data when none or several match. */
  function SingleMatch(requesters: seq<Requester>, email: string): Option<string>
  {
    var matches := Filter(requesters, HasEmail(email));
    if |matches| == 1 then Some(matches[0].id) else None
  }

  /** The contact columns a repeat submission overwrites. */
  function Refreshed(r: Requester, sub: Submission): Requester
  {
    r.(orgName := OrElse(sub.orgName, ""),
       contactName := sub.contactName,
       contactPhone := OrNull(sub.contactPhone),
       category := OrElse(sub.category, "other"))
  }

  /** `update(...).eq('id', id)`: every row with that id is refreshed. */
  function UpdateContact(requesters: seq<Requester>, id: string, sub: Submission): (r: seq<Requester>)
    ensures |r| == |requesters|
    ensures forall i :: 0 <= i < |r| ==>
      r[i] == if requesters[i].id == id then Refreshed(requesters[i], sub) else requesters[i]
  {
    if requesters == [] then []
    else [if requesters[0].id == id then Refreshed(requesters[0], sub) else requesters[0]]
         + UpdateContact(requesters[1..], id, sub)
  }

  /** The row a first-time submission creates; address and notes stay null.
      The route sends no timestamps: `now` stands for the store's default
      for `created_at` and `updated_at`. */
  function NewRequester(id: string, sub: Submission, now: Timestamp): Requester
  {
    Requester(id, OrElse(sub.orgName, ""), sub.contactName, sub.contactEmail,
              OrNull(sub.contactPhone), OrElse(sub.category, "other"), None, None, now, now)
  }

  /** The donation request written for a submission: status and request date
      are forced, empty optional fields become null, the amount goes through
      `parseAmount` (the stand-in for `parseFloat`). */
  function RequestPayload(sub: Submission, requesterId: string, today: string,
                          parseAmount: string -> Option<Money>): DonationRequestInsert
  {
    DonationRequestInsert(
      id := None,
      requesterId := requesterId,
      description := OrElse(sub.description, ""),
      requestDate := Some(today),
      eventDate := OrNull(sub.eventDate),
      eventName := OrNull(sub.eventName),
      amountRequested := if Truthy(sub.amountRequested) then parseAmount(sub.amountRequested.value) else None,
      amountApproved := None,
      donationType := Some(OrElse(sub.donationType, "gift_card")),
      status := Some("new"),
      notes := None,
      internalNotes := None,
      createdBy := None)
  }

  /** The requester step: `Some((table, id))` with the table after the
      update or insert and the id to reference, or `None` when the insert of
      a new requester failed. */
  function ResolveRequester(requesters: seq<Requester>, sub: Submission, now: Timestamp,
                            answers: StoreAnswers): Option<(seq<Requester>, string)>
    requires HasRequiredFields(sub)
  {
    var existing := if answers.lookupFails then None else SingleMatch(requesters, sub.contactEmail.value);
    if existing.Some? then
      Some((if answers.contactUpdate.Written? then UpdateContact(requesters, existing.value, sub) else requesters,
            existing.value))
    else if answers.requesterInsert.WriteFailed? then None
    else Some((requesters + [NewRequester(answers.newRequesterId, sub, now)], answers.newRequesterId))
  }

  /** The whole route: the store afterwards and the response. */
  function Intake(st: StoreState, body: Option<Submission>, today: string, now: Timestamp,
                  parseAmount: string -> Option<Money>, answers: StoreAnswers): (StoreState, Response)
  {
    if body.None? then (st, Rejected(500, UNEXPECTED_FAILURE))
    else if !HasRequiredFields(body.value) then (st, Rejected(400, MISSING_FIELDS))
    else
      var sub := body.value;
      match ResolveRequester(st.requesters, sub, now, answers)
      case None =>
        (st, Rejected(500, "Failed to create request: " + OrElse(Some(answers.requesterInsert.message), "Unknown error")))
      case Some((requesters, requesterId)) =>
        if answers.requestInsert.WriteFailed? then
          (StoreState(requesters, st.requests), Rejected(500, "Failed to submit request: " + answers.requestInsert.message))
        else
          (StoreState(requesters, st.requests + [RequestPayload(sub, requesterId, today, parseAmount)]), Submitted)
  }

  // ---------------------------------------------------------------------------
  // Properties of the route

  /** The route answers 400 exactly when a required field is missing or
      empty, and then it has not touched the store. */
  lemma MissingFieldsRejected(st: StoreState, body: Option<Submission>, today: string, now: Timestamp,
                              parseAmount: string -> Option<Money>, answers: StoreAnswers)
    ensures var (st', resp) := Intake(st, body, today, now, parseAmount, answers);
            (resp.Rejected? && resp.status == 400 <==> body.Some? && !HasRequiredFields(body.value))
            && (resp.Rejected? && resp.status == 400 ==> st' == st && resp.message == MISSING_FIELDS)
  {
  }

  /** A single requester with the submitted email keeps its id and email;
      its contact columns are overwritten when the update goes through; no
      other requester changes; and the update's outcome never changes the
      response. */
  lemma ExistingRequesterReused(st: StoreState, sub: Submission, today: string, now: Timestamp,
                                parseAmount: string -> Option<Money>, answers: StoreAnswers, id: string)
    requires HasRequiredFields(sub) && !answers.lookupFails
    requires SingleMatch(st.requesters, sub.contactEmail.value) == Some(id)
    ensures var (st', resp) := Intake(st, Some(sub), today, now, parseAmount, answers);
            && |st'.requesters| == |st.requesters|
            && (forall i :: 0 <= i < |st.requesters| ==>
                  st'.requesters[i].id == st.requesters[i].id
                  && st'.requesters[i].contactEmail == st.requesters[i].contactEmail
                  && st'.requesters[i] == if st.requesters[i].id == id && answers.contactUpdate.Written?
                                          then Refreshed(st.requesters[i], sub) else st.requesters[i])
            && (resp == Submitted ==> st'.requests == st.requests + [RequestPayload(sub, id, today, parseAmount)])
            && resp == Intake(st, Some(sub), today, now, parseAmount, answers.(contactUpdate := WriteFailed(""))).1
  {
  }

  /** Without a single match, exactly one requester carrying the submitted
      email is appended, or, when that insert fails, the route answers 500
      and writes nothing. */
  lemma NewRequesterCreated(st: StoreState, sub: Submission, today: string, now: Timestamp,
                            parseAmount: string -> Option<Money>, answers: StoreAnswers)
    requires HasRequiredFields(sub)
    requires answers.lookupFails || SingleMatch(st.requesters, sub.contactEmail.value).None?
    ensures var (st', resp) := Intake(st, Some(sub), today, now, parseAmount, answers);
            if answers.requesterInsert.WriteFailed? then
              st' == st && resp.Rejected? && resp.status == 500
            else
              && st'.requesters == st.requesters + [NewRequester(answers.newRequesterId, sub, now)]
              && st'.requesters[|st.requesters|].contactEmail == sub.contactEmail
              && (resp == Submitted ==>
                    st'.requests == st.requests + [RequestPayload(sub, answers.newRequesterId, today, parseAmount)])
  {
  }

  /** The two writes are not atomic: when the request insert fails, the
      route answers 500 but the requester write stays. */
  lemma RequesterWriteSurvivesFailedInsert(st: StoreState, sub: Submission, today: string, now: Timestamp,
                                           parseAmount: string -> Option<Money>, answers: StoreAnswers)
    requires HasRequiredFields(sub) && answers.requestInsert.WriteFailed?
    requires ResolveRequester(st.requesters, sub, now, answers).Some?
    ensures var (st', resp) := Intake(st, Some(sub), today, now, parseAmount, answers);
            && resp == Rejected(500, "Failed to submit request: " + answers.requestInsert.message)
            && st'.requests == st.requests
            && st'.requesters == ResolveRequester(st.requesters, sub, now, answers).value.0
  {
  }

  /** Exactly one donation request is written when, and only when, the
      route answers success; every other answer leaves the list as it was. */
  lemma OneRequestPerSuccess(st: StoreState, body: Option<Submission>, today: string, now: Timestamp,
                             parseAmount: string -> Option<Money>, answers: StoreAnswers)
    ensures var (st', resp) := Intake(st, body, today, now, parseAmount, answers);
            && (resp == Submitted <==> |st'.requests| == |st.requests| + 1)
            && (resp != Submitted ==> st'.requests == st.requests)
            && (resp == Submitted ==>
                  && st'.requests[..|st.requests|] == st.requests
                  && st'.requests[|st.requests|].status == Some("new")
                  && st'.requests[|st.requests|].requestDate == Some(today)
                  && exists i :: 0 <= i < |st'.requesters| && st'.requesters[i].id == st'.requests[|st.requests|].requesterId)
  {
    var (st', resp) := Intake(st, body, today, now, parseAmount, answers);
    if resp == Submitted {
      var sub := body.value;
      var resolved := ResolveRequester(st.requesters, sub, now, answers).value;
      var existing := if answers.lookupFails then None else SingleMatch(st.requesters, sub.contactEmail.value);
      if existing.Some? {
        var matches := Filter(st.requesters, HasEmail(sub.contactEmail.value));
        assert matches[0] in st.requesters;
        var i :| 0 <= i < |st.requesters| && st.requesters[i] == matches[0];
        assert st'.requesters[i].id == existing.value;
      } else {
        assert st'.requesters[|st.requesters|].id == answers.newRequesterId;
      }
    }
  }

  /** What the written request holds: the client cannot choose status or
      request date; empty optional fields become null; the donation type
      defaults to a gift card; a new requester's category defaults to other. */
  lemma PayloadDefaults(sub: Submission, requesterId: string, today: string,
                        parseAmount: string -> Option<Money>, id: string, now: Timestamp)
    ensures var p := RequestPayload(sub, requesterId, today, parseAmount);
            && p.requesterId == requesterId
            && p.status == Some("new") && p.requestDate == Some(today)
            && (p.eventName.None? <==> !Truthy(sub.eventName))
            && (p.eventDate.None? <==> !Truthy(sub.eventDate))
            && (!Truthy(sub.amountRequested) ==> p.amountRequested.None?)
            && (!Truthy(sub.donationType) ==> p.donationType == Some("gift_card"))
            && (Truthy(sub.donationType) ==> p.donationType == sub.donationType)
    ensures var r := NewRequester(id, sub, now);
            && (r.contactPhone.None? <==> !Truthy(sub.contactPhone))
            && (!Truthy(sub.category) ==> r.category == "other")
  {
  }

  /** Refreshing contact columns never changes which rows carry an email. */
  lemma {:induction false} FilterUpdateContact(requesters: seq<Requester>, id: string, sub: Submission, email: string)
    ensures Filter(UpdateContact(requesters, id, sub), HasEmail(email)) ==
            UpdateContact(Filter(requesters, HasEmail(email)), id, sub)
    decreases |requesters|
  {
    if requesters != [] {
      var p := HasEmail(email);
      var first, rest := requesters[0], requesters[1..];
      var head := if first.id == id then Refreshed(first, sub) else first;
      assert p(head) == p(first);
      var updated := UpdateContact(requesters, id, sub);
      assert updated == [head] + UpdateContact(rest, id, sub);
      assert updated[1..] == UpdateContact(rest, id, sub);
      FilterUpdateContact(rest, id, sub, email);
      assert Filter(updated, p) == (if p(head) then [head] else []) + UpdateContact(Filter(rest, p), id, sub);
      var kept := Filter(requesters, p);
      assert kept == (if p(first) then [first] else []) + Filter(rest, p);
      if p(first) {
        assert kept[1..] == Filter(rest, p);
      } else {
        assert kept == Filter(rest, p);
      }
    }
  }

  /** Submitting twice with a new email and a store that accepts every call:
      the second submission finds the requester the first one created, so the
      table grows by one row and the request list by two. */
  lemma ResubmissionReusesRequester(st: StoreState, sub1: Submission, sub2: Submission, today: string,
                                    now: Timestamp, parseAmount: string -> Option<Money>, answers: StoreAnswers)
    requires HasRequiredFields(sub1) && HasRequiredFields(sub2)
    requires sub1.contactEmail == sub2.contactEmail
    requires Filter(st.requesters, HasEmail(sub1.contactEmail.value)) == []
    requires answers == StoreAnswers(false, Written, Written, answers.newRequesterId, Written)
    ensures var (st1, resp1) := Intake(st, Some(sub1), today, now, parseAmount, answers);
            var (st2, resp2) := Intake(st1, Some(sub2), today, now, parseAmount, answers);
            && resp1 == Submitted && resp2 == Submitted
            && |st2.requesters| == |st.requesters| + 1
            && |Filter(st2.requesters, HasEmail(sub1.contactEmail.value))| == 1
            && st2.requests == st.requests
                 + [RequestPayload(sub1, answers.newRequesterId, today, parseAmount),
                    RequestPayload(sub2, answers.newRequesterId, today, parseAmount)]
  {
    var email := sub1.contactEmail.value;
    var created := NewRequester(answers.newRequesterId, sub1, now);
    var (st1, resp1) := Intake(st, Some(sub1), today, now, parseAmount, answers);
    assert st1.requesters == st.requesters + [created];
    FilterAppend(st.requesters, [created], HasEmail(email));
    assert Filter(st1.requesters, HasEmail(email)) == [created];
    assert SingleMatch(st1.requesters, email) == Some(answers.newRequesterId);
    var (st2, resp2) := Intake(st1, Some(sub2), today, now, parseAmount, answers);
    assert st2.requesters == UpdateContact(st1.requesters, answers.newRequesterId, sub2);
    FilterUpdateContact(st1.requesters, answers.newRequesterId, sub2, email);
  }

  /** When two requesters already share the email, the lookup finds no
      single row and the route adds a third one with that email. */
  lemma DuplicateEmailAddsRequester(st: StoreState, sub: Submission, today: string, now: Timestamp,
                                    parseAmount: string -> Option<Money>, answers: StoreAnswers)
    requires HasRequiredFields(sub) && answers.requesterInsert.Written?
    requires |Filter(st.requesters, HasEmail(sub.contactEmail.value))| >= 2
    ensures var (st', _) := Intake(st, Some(sub), today, now, parseAmount, answers);
            |Filter(st'.requesters, HasEmail(sub.contactEmail.value))|
              == |Filter(st.requesters, HasEmail(sub.contactEmail.value))| + 1
  {
    var created := NewRequester(answers.newRequesterId, sub, now);
    FilterAppend(st.requesters, [created], HasEmail(sub.contactEmail.value));
  }

  // ---------------------------------------------------------------------------
  // The store

  class IntakeStore {
    var requesters: seq<Requester>
    var requests: seq<DonationRequestInsert>

    constructor (requesters: seq<Requester>, requests: seq<DonationRequestInsert>)
      ensures this.requesters == requesters && this.requests == requests
    {
      this.requesters := requesters;
      this.requests := requests;
    }

    function State(): StoreState
      reads this
    {
      StoreState(requesters, requests)
    }

    /** One POST to the endpoint. */
    method Submit(body: Option<Submission>, today: string, now: Timestamp,
                  parseAmount: string -> Option<Money>, answers: StoreAnswers) returns (response: Response)
      modifies this
      ensures (State(), response) == Intake(old(State()), body, today, now, parseAmount, answers)
    {
      if body.None? {
        return Rejected(500, UNEXPECTED_FAILURE);
      }
      var sub := body.value;
      if !HasRequiredFields(sub) {
        return Rejected(400, MISSING_FIELDS);
      }

      var existing := if answers.lookupFails then None else SingleMatch(requesters, sub.contactEmail.value);
      var requesterId: string;
      if existing.Some? {
        requesterId := existing.value;
        // The update's outcome is not looked at.
        if answers.contactUpdate.Written? {
          requesters := UpdateContact(requesters, requesterId, sub);
        }
      } else {
        if answers.requesterInsert.WriteFailed? {
          return Rejected(500, "Failed to create request: " + OrElse(Some(answers.requesterInsert.message), "Unknown error"));
        }
        requesters := requesters + [NewRequester(answers.newRequesterId, sub, now)];
        requesterId := answers.newRequesterId;
      }

      if answers.requestInsert.WriteFailed? {
        return Rejected(500, "Failed to submit request: " + answers.requestInsert.message);
      }
      requests := requests + [RequestPayload(sub, requesterId, today, parseAmount)];
      response := Submitted;
    }
  }
}
