/** The request-list hook (src/lib/hooks/useDonationRequests.ts): load the
    joined listing, keep the rows with the chosen status, and post
    create/update/delete actions followed by a reload.

    As in the reply dialog, each `await` is an input: the listing endpoint's
    answer to a load, and for a mutation the answer to the POST and the
    answer to the reload that follows it. */
module DonationRequestList {
  import opened Js
  import opened Database
  import opened DashboardStats

  const FETCH_FAILURE: string := "Failed to fetch"
  const MUTATION_FAILURE: string := "Failed"

  /** `status` when it is truthy: the rows with exactly that status, in the
      listing's order; otherwise every row. */
  function FilterByStatus(rs: seq<RequestWithRequester>, status: Option<string>): seq<RequestWithRequester>
  {
    if Truthy(status) then Filter(rs, HasStatus(status.value)) else rs
  }

  /** The answer to a POST: the response's `ok` flag and the body's `error`. */
  datatype MutationReply = MutationReply(ok: bool, error: Option<string>)

  /** `{ success: true }` or `{ success: false, error }`. */
  datatype MutationResult = Succeeded | Failed(message: string)

  /** The result of a create, update or delete. Only `ok` is consulted: an
      `error` field in a successful response is ignored. */
  function MutationOutcome(post: Completion<MutationReply>): MutationResult
  {
    match post
    case Threw(message) => Failed(message)
    case Returned(reply) => if reply.ok then Succeeded else Failed(OrElse(reply.error, MUTATION_FAILURE))
  }

  // ---------------------------------------------------------------------------
  // Properties of the status filter

  /** With a status, the list holds exactly the rows with that status, each
      as often as in the listing; without one it is the listing itself. */
  lemma FilterByStatusContents(rs: seq<RequestWithRequester>, status: Option<string>, r: RequestWithRequester)
    ensures !Truthy(status) ==> FilterByStatus(rs, status) == rs
    ensures Truthy(status) ==>
              && (forall i :: 0 <= i < |FilterByStatus(rs, status)| ==> FilterByStatus(rs, status)[i].request.status == status.value)
              && multiset(FilterByStatus(rs, status))[r] == (if r.request.status == status.value then multiset(rs)[r] else 0)
  {
    if Truthy(status) {
      FilterMultiplicity(rs, HasStatus(status.value), r);
    }
  }

  /** The list's length under a status filter is the dashboard's count for
      that status. */
  lemma FilteredLengthIsStatusCount(rs: seq<RequestWithRequester>, status: string)
    requires status != ""
    ensures |FilterByStatus(rs, Some(status))| == CountStatus(rs, status)
    ensures |FilterByStatus(rs, Some(status))| == Lookup(StatusCounts(rs), status)
  {
    StatusCountsLookup(rs, status);
  }

  /** Filtering an already filtered list again changes nothing. */
  lemma FilterByStatusIdempotent(rs: seq<RequestWithRequester>, status: Option<string>)
    ensures FilterByStatus(FilterByStatus(rs, status), status) == FilterByStatus(rs, status)
  {
    if Truthy(status) {
      FilterIdempotent(rs, HasStatus(status.value));
    }
  }

  /** A successful POST reports success even when its error field is set. */
  lemma MutationIgnoresErrorField(message: string)
    ensures MutationOutcome(Returned(MutationReply(true, Some(message)))) == Succeeded
  {
  }

  class RequestList {
    /** `options.status`, fixed for the hook's lifetime. */
    const status: Option<string>
    var requests: seq<RequestWithRequester>
    var loading: bool
    var error: Option<string>

    constructor (status: Option<string>)
      ensures this.status == status
      ensures requests == [] && loading && error.None?
    {
      this.status := status;
      requests := [];
      loading := true;
      error := None;
    }

    /** `fetchRequests`: a good answer replaces the list with its filtered
        rows and clears the error; a failure keeps the old list and records
        the message. `loading` always ends false. */
    method FetchRequests(reply: Completion<ListingReply>)
      modifies this
      ensures !loading
      ensures reply.Returned? && !ReplyFailed(reply.value) ==>
                requests == FilterByStatus(RequestsOrEmpty(reply.value), status) && error.None?
      ensures reply.Returned? && ReplyFailed(reply.value) ==>
                requests == old(requests) && error == Some(OrElse(reply.value.error, FETCH_FAILURE))
      ensures reply.Threw? ==> requests == old(requests) && error == Some(reply.message)
    {
      loading := true;
      error := None;
      match reply {
        case Threw(message) =>
          error := Some(message);
        case Returned(data) =>
          if ReplyFailed(data) {
            error := Some(OrElse(data.error, FETCH_FAILURE));
          } else {
            var filtered := RequestsOrEmpty(data);
            if Truthy(status) {
              filtered := Filter(filtered, HasStatus(status.value));
            }
            requests := filtered;
          }
      }
      loading := false;
    }

    /** `createRequest`, `updateRequest` and `deleteRequest`: after an `ok`
        answer the list is reloaded, and the result is a success whatever the
        reload brings; after a failure nothing is reloaded and the list state
        is untouched. */
    method Mutate(post: Completion<MutationReply>, reload: Completion<ListingReply>) returns (result: MutationResult)
      modifies this
      ensures result == MutationOutcome(post)
      ensures result.Failed? ==>
                requests == old(requests) && loading == old(loading) && error == old(error)
      ensures result.Succeeded? ==> !loading
      ensures result.Succeeded? && reload.Returned? && !ReplyFailed(reload.value) ==>
                requests == FilterByStatus(RequestsOrEmpty(reload.value), status) && error.None?
      ensures result.Succeeded? && !(reload.Returned? && !ReplyFailed(reload.value)) ==>
                requests == old(requests)
                && error == (if reload.Threw? then Some(reload.message)
                             else Some(OrElse(reload.value.error, FETCH_FAILURE)))
    {
      match post {
        case Threw(message) =>
          return Failed(message);
        case Returned(data) =>
          if !data.ok {
            return Failed(OrElse(data.error, MUTATION_FAILURE));
          }
      }
      FetchRequests(reload);
      result := Succeeded;
    }
  }
}
