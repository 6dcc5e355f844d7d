/**
 * loadDashboardData as a state transition. The fetch itself is an input: it
 * either succeeds with the response's data or fails. The error toast is
 * recorded as a message appended to the list of notifications raised;
 * console.error is not modelled.
 */
module Load {
  import opened Wrappers
  import opened Stats

  /** What saleAPI.getStatistics() came back with. */
  datatype FetchOutcome = Fetched(data: Option<Snapshot>) | FetchFailed

  /** The `stats` and `loading` cells, and the notifications raised so far. */
  datatype LoadState = LoadState(stats: Option<Snapshot>, loading: bool, toasts: seq<string>)

  const LoadErrorMessage: string := "Dashboard ma'lumotlarini yuklashda xatolik"

  /** useState(null) and useState(true): nothing loaded, spinner showing. */
  const InitialLoad: LoadState := LoadState(None, true, [])

  /** setLoading(true), before the request is sent. */
  function BeginLoad(s: LoadState): (r: LoadState)
    ensures r.loading && r.stats == s.stats && r.toasts == s.toasts
  {
    s.(loading := true)
  }

  /** The rest of loadDashboardData: setStats or toast.error, then setLoading(false). */
  function SettleLoad(s: LoadState, outcome: FetchOutcome): (r: LoadState)
    ensures !r.loading
    ensures outcome.Fetched? ==> r.stats == outcome.data && r.toasts == s.toasts
    ensures outcome.FetchFailed? ==> r.stats == s.stats && r.toasts == s.toasts + [LoadErrorMessage]
  {
    match outcome
    case Fetched(data) => LoadState(data, false, s.toasts)
    case FetchFailed => LoadState(s.stats, false, s.toasts + [LoadErrorMessage])
  }

  /**
   * One whole call of loadDashboardData. Setting loading first leaves no
   * trace once the call has settled: the result is what settling alone gives.
   */
  function RunLoad(s: LoadState, outcome: FetchOutcome): (r: LoadState)
    ensures r == SettleLoad(s, outcome)
  {
    SettleLoad(BeginLoad(s), outcome)
  }

  /**
   * After a load, loading is off; a success replaces stats with the response
   * data and raises nothing; a failure keeps stats and raises exactly one error.
   */
  lemma RunLoadOutcome(s: LoadState, outcome: FetchOutcome)
    ensures !RunLoad(s, outcome).loading
    ensures outcome.Fetched? ==> RunLoad(s, outcome).stats == outcome.data && RunLoad(s, outcome).toasts == s.toasts
    ensures outcome.FetchFailed? ==>
      RunLoad(s, outcome).stats == s.stats && RunLoad(s, outcome).toasts == s.toasts + [LoadErrorMessage]
  {
  }

  /** Applies a series of load outcomes, in order, from state s. */
  function RunLoads(s: LoadState, outcomes: seq<FetchOutcome>): LoadState
    decreases |outcomes|
  {
    if outcomes == [] then s else RunLoads(RunLoad(s, outcomes[0]), outcomes[1..])
  }

  /** The data of the last successful load among the outcomes, or `prior` if none succeeded. */
  function LastFetched(prior: Option<Snapshot>, outcomes: seq<FetchOutcome>): Option<Snapshot>
    decreases |outcomes|
  {
    if outcomes == [] then prior
    else if outcomes[|outcomes| - 1].Fetched? then outcomes[|outcomes| - 1].data
    else LastFetched(prior, outcomes[..|outcomes| - 1])
  }

  function CountFailures(outcomes: seq<FetchOutcome>): nat
    decreases |outcomes|
  {
    if outcomes == [] then 0 else (if outcomes[0].FetchFailed? then 1 else 0) + CountFailures(outcomes[1..])
  }

  /**
   * Over any series of loads, stats holds the data of the last one that
   * succeeded (null if none did) and one notification is raised per failure;
   * the notifications already shown are kept, in front of the new ones.
   */
  lemma {:induction false} RunLoadsSummary(s: LoadState, outcomes: seq<FetchOutcome>)
    ensures RunLoads(s, outcomes).stats == LastFetched(s.stats, outcomes)
    ensures |RunLoads(s, outcomes).toasts| == |s.toasts| + CountFailures(outcomes)
    ensures s.toasts <= RunLoads(s, outcomes).toasts
    ensures outcomes != [] ==> !RunLoads(s, outcomes).loading
    decreases |outcomes|
  {
    if outcomes != [] {
      var s' := RunLoad(s, outcomes[0]);
      RunLoadsSummary(s', outcomes[1..]);
      LastFetchedCons(s.stats, outcomes[0], outcomes[1..]);
      assert s'.stats == RunLoad(LoadState(s.stats, false, []), outcomes[0]).stats;
      assert outcomes == [outcomes[0]] + outcomes[1..];
    }
  }

  /** LastFetched read from the front: the first outcome only matters if no later one succeeded. */
  lemma {:induction false} LastFetchedCons(prior: Option<Snapshot>, first: FetchOutcome, rest: seq<FetchOutcome>)
    ensures LastFetched(prior, [first] + rest) == LastFetched(RunLoad(LoadState(prior, false, []), first).stats, rest)
    decreases |rest|
  {
    var all := [first] + rest;
    if rest != [] {
      assert all[..|all| - 1] == [first] + rest[..|rest| - 1];
      LastFetchedCons(prior, first, rest[..|rest| - 1]);
    }
  }

  /** While every load fails, stats stays null and each failure raises one notification. */
  lemma AllFailuresKeepNull(outcomes: seq<FetchOutcome>)
    requires forall i :: 0 <= i < |outcomes| ==> outcomes[i].FetchFailed?
    ensures RunLoads(InitialLoad, outcomes).stats == None
    ensures |RunLoads(InitialLoad, outcomes).toasts| == |outcomes|
  {
    RunLoadsSummary(InitialLoad, outcomes);
    NoSuccessLastFetched(None, outcomes);
    AllFailuresCount(outcomes);
  }

  lemma {:induction false} NoSuccessLastFetched(prior: Option<Snapshot>, outcomes: seq<FetchOutcome>)
    requires forall i :: 0 <= i < |outcomes| ==> outcomes[i].FetchFailed?
    ensures LastFetched(prior, outcomes) == prior
    decreases |outcomes|
  {
    if outcomes != [] {
      NoSuccessLastFetched(prior, outcomes[..|outcomes| - 1]);
    }
  }

  lemma {:induction false} AllFailuresCount(outcomes: seq<FetchOutcome>)
    requires forall i :: 0 <= i < |outcomes| ==> outcomes[i].FetchFailed?
    ensures CountFailures(outcomes) == |outcomes|
    decreases |outcomes|
  {
    if outcomes != [] {
      AllFailuresCount(outcomes[1..]);
    }
  }
}
