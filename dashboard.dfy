/** Dashboard statistics (src/lib/hooks/useDashboardStats.ts): the figures
    computed from the request listing, and the hook state that holds them. */
module DashboardStats {
  import opened Js
  import opened Database

  // ---------------------------------------------------------------------------
  // Status classes

  predicate IsApprovedStatus(status: string)
  {
    status == "approved" || status == "fulfilled"
  }

  predicate IsDecidedStatus(status: string)
  {
    status == "approved" || status == "denied" || status == "fulfilled"
  }

  predicate IsPendingStatus(status: string)
  {
    status == "new" || status == "under_review"
  }

  predicate Decided(r: RequestWithRequester)
  {
    IsDecidedStatus(r.request.status)
  }

  predicate ApprovedRequest(r: RequestWithRequester)
  {
    IsApprovedStatus(r.request.status)
  }

  predicate Pending(r: RequestWithRequester)
  {
    IsPendingStatus(r.request.status)
  }

  function HasStatus(status: string): RequestWithRequester -> bool
  {
    (r: RequestWithRequester) => r.request.status == status
  }

  function CreatedSince(start: Timestamp): RequestWithRequester -> bool
  {
    (r: RequestWithRequester) => r.request.createdAt >= start
  }

  function DonatedSince(start: Timestamp): RequestWithRequester -> bool
  {
    (r: RequestWithRequester) => IsApprovedStatus(r.request.status) && r.request.createdAt >= start
  }

  // ---------------------------------------------------------------------------
  // Totals and counts

  /** `r.amount_approved || 0`. */
  function ApprovedAmount(r: RequestWithRequester): Money
  {
    match r.request.amountApproved
    case Some(a) => a
    case None => 0
  }

  /** `reduce((sum, r) => sum + (r.amount_approved || 0), 0)`. */
  function SumApproved(rs: seq<RequestWithRequester>): Money
  {
    if rs == [] then 0 else SumApproved(rs[..|rs| - 1]) + ApprovedAmount(rs[|rs| - 1])
  }

  /** The amount approved this year: over approved or fulfilled requests
      created at or after `yearStart`. */
  function TotalDonatedYTD(rs: seq<RequestWithRequester>, yearStart: Timestamp): Money
  {
    SumApproved(Filter(rs, DonatedSince(yearStart)))
  }

  function RequestsThisMonth(rs: seq<RequestWithRequester>, monthStart: Timestamp): nat
  {
    |Filter(rs, CreatedSince(monthStart))|
  }

  function PendingReview(rs: seq<RequestWithRequester>): nat
  {
    |Filter(rs, Pending)|
  }

  /** The number of requests whose status is exactly `status`. */
  function CountStatus(rs: seq<RequestWithRequester>, status: string): nat
  {
    |Filter(rs, HasStatus(status))|
  }

  lemma DivisionBounds(n: nat, d: nat)
    requires d > 0
    ensures d * (n / d) <= n < d * (n / d) + d
  {
  }

  lemma ProductMonotone(d: nat, a: nat, b: nat)
    requires a <= b
    ensures d * a <= d * b
  {
  }

  /** `Math.round(part / whole * 100)`: the nearest integer to the
      percentage, halves rounding up. */
  function RoundedPercent(part: nat, whole: nat): (r: nat)
    requires 0 < whole && part <= whole
    ensures r <= 100
    ensures 2 * whole * r <= 200 * part + whole < 2 * whole * r + 2 * whole
  {
    var num, den := 200 * part + whole, 2 * whole;
    DivisionBounds(num, den);
    var q := num / den;
    assert q <= 100 by {
      if q > 100 {
        ProductMonotone(den, 101, q);
      }
    }
    q
  }

  /** The share of decided requests that were approved, as a whole percent. */
  function ApprovalRate(rs: seq<RequestWithRequester>): (r: nat)
    ensures r <= 100
    ensures Filter(rs, Decided) == [] ==> r == 0
  {
    var decided := Filter(rs, Decided);
    var approved := Filter(decided, ApprovedRequest);
    if |decided| > 0 then RoundedPercent(|approved|, |decided|) else 0
  }

  // ---------------------------------------------------------------------------
  // Per-status counts: a JavaScript object with string keys, kept as its
  // entries in key insertion order.

  datatype StatusCount = StatusCount(status: string, count: nat)

  /** `counts[status] || 0`. */
  function Lookup(counts: seq<StatusCount>, status: string): nat
  {
    if counts == [] then 0
    else if counts[0].status == status then counts[0].count
    else Lookup(counts[1..], status)
  }

  /** `counts[status] = count`: an existing key keeps its place, a new key goes last. */
  function Put(counts: seq<StatusCount>, status: string, count: nat): seq<StatusCount>
  {
    if counts == [] then [StatusCount(status, count)]
    else if counts[0].status == status then [StatusCount(status, count)] + counts[1..]
    else [counts[0]] + Put(counts[1..], status, count)
  }

  function KeysOf(counts: seq<StatusCount>): seq<string>
  {
    if counts == [] then [] else [counts[0].status] + KeysOf(counts[1..])
  }

  /** The sum of the object's values. */
  function TotalCount(counts: seq<StatusCount>): nat
  {
    if counts == [] then 0 else counts[0].count + TotalCount(counts[1..])
  }

  predicate NoDuplicates(keys: seq<string>)
  {
    forall i, j :: 0 <= i < j < |keys| ==> keys[i] != keys[j]
  }

  /** The `forEach` that builds `statusCounts`, one request at a time. */
  function StatusCounts(rs: seq<RequestWithRequester>): seq<StatusCount>
  {
    if rs == [] then []
    else
      var counts := StatusCounts(rs[..|rs| - 1]);
      var status := rs[|rs| - 1].request.status;
      Put(counts, status, Lookup(counts, status) + 1)
  }

  lemma {:induction false} LookupPut(counts: seq<StatusCount>, status: string, count: nat, key: string)
    ensures Lookup(Put(counts, status, count), key) == if key == status then count else Lookup(counts, key)
  {
    if counts != [] && counts[0].status != status {
      LookupPut(counts[1..], status, count, key);
    }
  }

  lemma {:induction false} KeysOfPut(counts: seq<StatusCount>, status: string, count: nat)
    ensures KeysOf(Put(counts, status, count)) ==
      if status in KeysOf(counts) then KeysOf(counts) else KeysOf(counts) + [status]
  {
    if counts != [] && counts[0].status != status {
      KeysOfPut(counts[1..], status, count);
    }
  }

  lemma {:induction false} TotalCountPut(counts: seq<StatusCount>, status: string, count: nat)
    ensures TotalCount(Put(counts, status, count)) + Lookup(counts, status) == TotalCount(counts) + count
  {
    if counts != [] && counts[0].status != status {
      TotalCountPut(counts[1..], status, count);
    }
  }

  lemma CountStatusSnoc(rs: seq<RequestWithRequester>, r: RequestWithRequester, status: string)
    ensures CountStatus(rs + [r], status) == CountStatus(rs, status) + if r.request.status == status then 1 else 0
  {
    FilterAppend(rs, [r], HasStatus(status));
  }

  /** Each key maps to the number of requests with exactly that status. */
  lemma {:induction false} StatusCountsLookup(rs: seq<RequestWithRequester>, status: string)
    ensures Lookup(StatusCounts(rs), status) == CountStatus(rs, status)
  {
    if rs != [] {
      var prefix, last := rs[..|rs| - 1], rs[|rs| - 1];
      assert rs == prefix + [last];
      StatusCountsLookup(prefix, status);
      StatusCountsLookup(prefix, last.request.status);
      var counts := StatusCounts(prefix);
      LookupPut(counts, last.request.status, Lookup(counts, last.request.status) + 1, status);
      CountStatusSnoc(prefix, last, status);
    }
  }

  /** The keys are exactly the statuses that occur, each once, in order of
      first occurrence. */
  lemma {:induction false} StatusCountsKeys(rs: seq<RequestWithRequester>)
    ensures NoDuplicates(KeysOf(StatusCounts(rs)))
    ensures forall status :: status in KeysOf(StatusCounts(rs)) <==> CountStatus(rs, status) > 0
  {
    if rs != [] {
      var prefix, last := rs[..|rs| - 1], rs[|rs| - 1];
      assert rs == prefix + [last];
      StatusCountsKeys(prefix);
      var counts, s := StatusCounts(prefix), last.request.status;
      var keys, newKeys := KeysOf(counts), KeysOf(StatusCounts(rs));
      assert StatusCounts(rs) == Put(counts, s, Lookup(counts, s) + 1);
      KeysOfPut(counts, s, Lookup(counts, s) + 1);
      if s !in keys {
        NoDuplicatesSnoc(keys, s);
      }
      forall status ensures status in newKeys <==> CountStatus(rs, status) > 0 {
        CountStatusSnoc(prefix, last, status);
      }
    }
  }

  lemma NoDuplicatesSnoc(keys: seq<string>, key: string)
    requires NoDuplicates(keys) && key !in keys
    ensures NoDuplicates(keys + [key])
  {
  }

  /** The values of `statusCounts` add up to the number of requests. */
  lemma {:induction false} StatusCountsTotal(rs: seq<RequestWithRequester>)
    ensures TotalCount(StatusCounts(rs)) == |rs|
  {
    if rs != [] {
      var prefix, last := rs[..|rs| - 1], rs[|rs| - 1];
      StatusCountsTotal(prefix);
      var counts := StatusCounts(prefix);
      TotalCountPut(counts, last.request.status, Lookup(counts, last.request.status) + 1);
    }
  }

  /** Builds `statusCounts` with the source's loop. */
  method CountByStatus(rs: seq<RequestWithRequester>) returns (counts: seq<StatusCount>)
    ensures counts == StatusCounts(rs)
    ensures forall status :: Lookup(counts, status) == CountStatus(rs, status)
    ensures NoDuplicates(KeysOf(counts))
    ensures forall status :: status in KeysOf(counts) <==> CountStatus(rs, status) > 0
    ensures TotalCount(counts) == |rs|
  {
    counts := [];
    var i := 0;
    while i < |rs|
      invariant 0 <= i <= |rs|
      invariant counts == StatusCounts(rs[..i])
    {
      var status := rs[i].request.status;
      counts := Put(counts, status, Lookup(counts, status) + 1);
      i := i + 1;
      assert rs[..i][..i - 1] == rs[..i - 1];
    }
    assert rs[..|rs|] == rs;
    forall status ensures Lookup(counts, status) == CountStatus(rs, status) {
      StatusCountsLookup(rs, status);
    }
    StatusCountsKeys(rs);
    StatusCountsTotal(rs);
  }

  // ---------------------------------------------------------------------------
  // The statistics record

  datatype Stats = Stats(
    totalDonatedYTD: Money,
    requestsThisMonth: nat,
    pendingReview: nat,
    approvalRate: nat,
    statusCounts: seq<StatusCount>,
    recentRequests: seq<RequestWithRequester>)

  /** The hook's state before the first successful fetch. */
  const INITIAL_STATS: Stats := Stats(0, 0, 0, 0, [], [])

  /** How many requests the dashboard lists. */
  const RECENT_LIMIT: nat := 10

  function Min(a: nat, b: nat): nat
  {
    if a <= b then a else b
  }

  /** All six figures for one listing. */
  function StatsOf(rs: seq<RequestWithRequester>, yearStart: Timestamp, monthStart: Timestamp): Stats
  {
    Stats(
      TotalDonatedYTD(rs, yearStart),
      RequestsThisMonth(rs, monthStart),
      PendingReview(rs),
      ApprovalRate(rs),
      StatusCounts(rs),
      rs[..Min(RECENT_LIMIT, |rs|)])
  }

  /** `pendingReview` is the sum of the `new` and `under_review` counts. */
  lemma PendingReviewFromCounts(rs: seq<RequestWithRequester>)
    ensures PendingReview(rs) == Lookup(StatusCounts(rs), "new") + Lookup(StatusCounts(rs), "under_review")
  {
    FilterCountSplit(rs, Pending, HasStatus("new"), HasStatus("under_review"));
    StatusCountsLookup(rs, "new");
    StatusCountsLookup(rs, "under_review");
  }

  /** Every approved request is a decided one: the approved share is taken
      within the decided set and equals filtering the whole listing. */
  lemma ApprovedWithinDecided(rs: seq<RequestWithRequester>)
    ensures Filter(Filter(rs, Decided), ApprovedRequest) == Filter(rs, ApprovedRequest)
    ensures multiset(Filter(rs, ApprovedRequest)) <= multiset(Filter(rs, Decided))
  {
    FilterNarrowing(rs, Decided, ApprovedRequest);
    forall r ensures multiset(Filter(rs, ApprovedRequest))[r] <= multiset(Filter(rs, Decided))[r] {
      FilterMultiplicity(rs, ApprovedRequest, r);
      FilterMultiplicity(rs, Decided, r);
    }
  }

  /** The approval rate rounds 100 * approved / decided, or is 0 with nothing decided. */
  lemma ApprovalRateMeaning(rs: seq<RequestWithRequester>)
    ensures var d := |Filter(rs, Decided)|;
            var a := |Filter(rs, ApprovedRequest)|;
            && a <= d
            && (d == 0 ==> ApprovalRate(rs) == 0)
            && (d > 0 ==> 2 * d * ApprovalRate(rs) <= 200 * a + d < 2 * d * ApprovalRate(rs) + 2 * d)
  {
    ApprovedWithinDecided(rs);
  }

  lemma {:induction false} SumApprovedAppend(a: seq<RequestWithRequester>, b: seq<RequestWithRequester>)
    ensures SumApproved(a + b) == SumApproved(a) + SumApproved(b)
    decreases |b|
  {
    if b == [] {
      assert a + b == a;
    } else {
      assert (a + b)[..|a + b| - 1] == a + b[..|b| - 1];
      SumApprovedAppend(a, b[..|b| - 1]);
    }
  }

  lemma {:induction false} SumApprovedNonNegative(rs: seq<RequestWithRequester>)
    requires forall i :: 0 <= i < |rs| ==> ApprovedAmount(rs[i]) >= 0
    ensures SumApproved(rs) >= 0
  {
    if rs != [] {
      SumApprovedNonNegative(rs[..|rs| - 1]);
    }
  }

  /** With non-negative approved amounts the year's total is non-negative. */
  lemma TotalDonatedNonNegative(rs: seq<RequestWithRequester>, yearStart: Timestamp)
    requires forall i :: 0 <= i < |rs| ==> rs[i].request.amountApproved.Some? ==> rs[i].request.amountApproved.value >= 0
    ensures TotalDonatedYTD(rs, yearStart) >= 0
  {
    var kept := Filter(rs, DonatedSince(yearStart));
    forall i | 0 <= i < |kept| ensures ApprovedAmount(kept[i]) >= 0 {
      assert kept[i] in rs;
    }
    SumApprovedNonNegative(kept);
  }

  /** The total is additive over the listing: requests that are not approved
      or fulfilled, or older than the year, add nothing. */
  lemma TotalDonatedAdditive(a: seq<RequestWithRequester>, b: seq<RequestWithRequester>, yearStart: Timestamp)
    ensures TotalDonatedYTD(a + b, yearStart) == TotalDonatedYTD(a, yearStart) + TotalDonatedYTD(b, yearStart)
  {
    FilterAppend(a, b, DonatedSince(yearStart));
    SumApprovedAppend(Filter(a, DonatedSince(yearStart)), Filter(b, DonatedSince(yearStart)));
  }

  /** Computes the figures as the hook does. */
  method ComputeStats(rs: seq<RequestWithRequester>, yearStart: Timestamp, monthStart: Timestamp) returns (stats: Stats)
    ensures stats == StatsOf(rs, yearStart, monthStart)
    ensures stats.requestsThisMonth <= |rs|
    ensures stats.pendingReview == Lookup(stats.statusCounts, "new") + Lookup(stats.statusCounts, "under_review")
    ensures stats.approvalRate <= 100
    ensures forall status :: Lookup(stats.statusCounts, status) == CountStatus(rs, status)
    ensures TotalCount(stats.statusCounts) == |rs|
    ensures |stats.recentRequests| == Min(RECENT_LIMIT, |rs|)
    ensures stats.recentRequests <= rs
  {
    var total := SumApproved(Filter(rs, DonatedSince(yearStart)));
    var thisMonth := |Filter(rs, CreatedSince(monthStart))|;
    var pending := |Filter(rs, Pending)|;
    var decided := Filter(rs, Decided);
    var approved := Filter(decided, ApprovedRequest);
    var rate := if |decided| > 0 then RoundedPercent(|approved|, |decided|) else 0;
    var counts := CountByStatus(rs);
    var recent := rs[..Min(RECENT_LIMIT, |rs|)];
    stats := Stats(total, thisMonth, pending, rate, counts, recent);
    PendingReviewFromCounts(rs);
  }

  // ---------------------------------------------------------------------------
  // The hook's state

  /** The body of the listing endpoint's reply, with the response's `ok` flag. */
  datatype ListingReply = ListingReply(ok: bool, error: Option<string>, requests: Option<seq<RequestWithRequester>>)

  /** `!res.ok || data.error`. */
  predicate ReplyFailed(reply: ListingReply)
  {
    !reply.ok || Truthy(reply.error)
  }

  /** `data.requests || []`. */
  function RequestsOrEmpty(reply: ListingReply): seq<RequestWithRequester>
  {
    match reply.requests
    case Some(rs) => rs
    case None => []
  }

  /** A listing without requests yields the same figures as the initial state. */
  lemma MissingRequestsGiveInitialStats(reply: ListingReply, yearStart: Timestamp, monthStart: Timestamp)
    requires reply.requests.None?
    ensures StatsOf(RequestsOrEmpty(reply), yearStart, monthStart) == INITIAL_STATS
  {
  }

  class DashboardView {
    var stats: Stats
    var loading: bool

    constructor ()
      ensures stats == INITIAL_STATS && loading
    {
      stats := INITIAL_STATS;
      loading := true;
    }

    /** `fetchStats`, given what the fetch produced. `yearStart` and
        `monthStart` are the starts of the current year and month. */
    method FetchStats(reply: Completion<ListingReply>, yearStart: Timestamp, monthStart: Timestamp)
      modifies this
      ensures !loading
      ensures reply.Threw? || ReplyFailed(reply.value) ==> stats == old(stats)
      ensures reply.Returned? && !ReplyFailed(reply.value) ==>
        stats == StatsOf(RequestsOrEmpty(reply.value), yearStart, monthStart)
    {
      loading := true;
      match reply {
        case Threw(_) =>
        case Returned(data) =>
          if ReplyFailed(data) {
            loading := false;
            return;
          }
          var rs := RequestsOrEmpty(data);
          stats := ComputeStats(rs, yearStart, monthStart);
      }
      loading := false;
    }
  }
}
