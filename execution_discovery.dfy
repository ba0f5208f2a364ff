/**
 * `waitForExecutionByLabel`: find the execution of a job that carries a given
 * `sessionId` label, listing the job's executions until a deadline. The clock is
 * an integer number of milliseconds; each listing reports how long it took.
 */
module ExecutionDiscovery {
  import opened Common

  const DISCOVERY_INTERVAL_MS: nat := 8000
  const MAX_DISCOVERY_MS: nat := 4 * 60 * 1000

  /** One execution in a listing: its (possibly absent) name and its (possibly absent) labels. */
  datatype Execution = Execution(name: Option<string>, labels: Option<map<string, string>>)

  /** The executions one `listExecutions` call returned and the milliseconds the call took. */
  datatype Listing = Listing(executions: seq<Execution>, latencyMs: nat)

  /** `e.labels?.sessionId === sessionId` */
  predicate HasSessionLabel(e: Execution, sessionId: string)
  {
    e.labels.Some? && "sessionId" in e.labels.value && e.labels.value["sessionId"] == sessionId
  }

  /** `executions.find(...)`: the index of the first execution labelled with the session. */
  function FindBySession(executions: seq<Execution>, sessionId: string): (r: Option<nat>)
    ensures r.Some? ==> r.value < |executions| && HasSessionLabel(executions[r.value], sessionId)
    ensures r.Some? ==> forall j :: 0 <= j < r.value ==> !HasSessionLabel(executions[j], sessionId)
    ensures r.None? ==> forall j :: 0 <= j < |executions| ==> !HasSessionLabel(executions[j], sessionId)
  {
    if executions == [] then None
    else if HasSessionLabel(executions[0], sessionId) then Some(0)
    else
      match FindBySession(executions[1..], sessionId)
      case None => None
      case Some(k) => Some(k + 1)
  }

  /**
   * `match?.name` when it is truthy: the name of the first execution labelled with the
   * session, if that execution has a non-empty name. A later labelled execution is
   * never consulted, and no execution of another session is ever named.
   */
  function MatchedName(executions: seq<Execution>, sessionId: string): (r: Option<string>)
    ensures r.Some? ==> exists i :: 0 <= i < |executions| && HasSessionLabel(executions[i], sessionId)
                                    && executions[i].name == Some(r.value) && r.value != ""
    ensures r.Some? <==>
              exists i :: && 0 <= i < |executions| && HasSessionLabel(executions[i], sessionId)
                          && (forall j :: 0 <= j < i ==> !HasSessionLabel(executions[j], sessionId))
                          && TruthyOpt(executions[i].name)
  {
    match FindBySession(executions, sessionId)
    case None => None
    case Some(i) =>
      if TruthyOpt(executions[i].name) then Some(executions[i].name.value) else None
  }

  /** The listing of attempt `k`; once the given listings run out, the backend lists nothing at once. */
  function ListingAt(listings: seq<Listing>, k: nat): Listing
  {
    if k < |listings| then listings[k] else Listing([], 0)
  }

  /** The clock reading at the deadline check that precedes attempt `k`. */
  ghost function AttemptStart(start: int, listings: seq<Listing>, k: nat): int
  {
    if k == 0 then start
    else AttemptStart(start, listings, k - 1) + ListingAt(listings, k - 1).latencyMs + DISCOVERY_INTERVAL_MS
  }

  function TimeoutMessage(jobResource: string): string
  {
    "Execution not created within " + NatToString(MAX_DISCOVERY_MS / 1000) + "s for job " + jobResource
  }

  method WaitForExecutionByLabel(jobResource: string, sessionId: string, start: int, listings: seq<Listing>)
    returns (r: Result<string>, attempts: nat)
    ensures 1 <= attempts <= MAX_DISCOVERY_MS / DISCOVERY_INTERVAL_MS
    // no listing starts at or after the deadline
    ensures forall k: nat :: k < attempts ==> AttemptStart(start, listings, k) < start + MAX_DISCOVERY_MS
    // every attempt before the last found nothing
    ensures forall k: nat :: k < attempts - 1 ==> MatchedName(ListingAt(listings, k).executions, sessionId).None?
    ensures r.Ok? ==> MatchedName(ListingAt(listings, attempts - 1).executions, sessionId) == Some(r.value)
    ensures r.Err? ==> MatchedName(ListingAt(listings, attempts - 1).executions, sessionId).None?
    ensures r.Err? ==> AttemptStart(start, listings, attempts) >= start + MAX_DISCOVERY_MS
    ensures r.Err? ==> r.message == TimeoutMessage(jobResource)
  {
    var endTime := start + MAX_DISCOVERY_MS;
    var now := start;
    attempts := 0;
    while now < endTime
      invariant now == AttemptStart(start, listings, attempts)
      invariant now >= start + DISCOVERY_INTERVAL_MS * attempts
      invariant attempts == 0 ==> now == start
      invariant attempts <= MAX_DISCOVERY_MS / DISCOVERY_INTERVAL_MS
      invariant forall k: nat :: k < attempts ==> AttemptStart(start, listings, k) < endTime
      invariant forall k: nat :: k < attempts ==> MatchedName(ListingAt(listings, k).executions, sessionId).None?
      decreases endTime - now
    {
      var listing := ListingAt(listings, attempts);
      var found := MatchedName(listing.executions, sessionId);
      attempts := attempts + 1;
      if found.Some? {
        return Ok(found.value), attempts;
      }
      now := now + listing.latencyMs + DISCOVERY_INTERVAL_MS;
    }
    r := Err(TimeoutMessage(jobResource));
  }

  /** The timeout message names the 240-second budget. */
  lemma TimeoutMessageText(jobResource: string)
    ensures TimeoutMessage(jobResource) == "Execution not created within 240s for job " + jobResource
  {
    assert NatToString(240) == "240";
  }
}
