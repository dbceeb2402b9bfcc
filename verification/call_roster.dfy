/** The call roster of the `useGetCalls` hook: the calls the video client
    returns for the signed-in user, split into ended and upcoming calls, and
    the loading flag that brackets the query.

    Times are integer milliseconds since the epoch; `now` is the render-time
    clock reading, passed in as a parameter. */
module CallRoster {
  import opened Wrappers
  import opened Seqs

  /** A call as the roster reads it: when it is scheduled to start and, if it
      has been ended, when that happened. */
  datatype Call = Call(id: string, startsAt: Option<int>, endedAt: Option<int>)

  /** The hook's test for `endedCalls`: a known start before `now`, or any end
      time at all. In the hook's test the `&&` binds tighter than the `||`. */
  predicate IsEnded(c: Call, now: int) {
    (c.startsAt.Some? && c.startsAt.value < now) || c.endedAt.Some?
  }

  /** The hook's test for `upcomingCalls`: a known start strictly after `now`.
      The end time is not consulted. */
  predicate IsUpcoming(c: Call, now: int) {
    c.startsAt.Some? && c.startsAt.value > now
  }

  /** The two tests as values, so that every use of a filter names the same one. */
  function EndedTest(now: int): Call -> bool {
    c => IsEnded(c, now)
  }

  function UpcomingTest(now: int): Call -> bool {
    c => IsUpcoming(c, now)
  }

  /** `endedCalls`: the fetched calls that pass the ended test, in fetched order. */
  function EndedCalls(calls: seq<Call>, now: int): (r: seq<Call>)
    ensures forall c :: c in r <==> c in calls && IsEnded(c, now)
    ensures forall c :: multiset(r)[c] == if IsEnded(c, now) then multiset(calls)[c] else 0
    ensures IsSubsequence(r, calls)
  {
    FilterIsSubsequence(calls, EndedTest(now));
    forall c ensures multiset(Filter(calls, EndedTest(now)))[c] == if IsEnded(c, now) then multiset(calls)[c] else 0 {
      FilterMultiplicity(calls, EndedTest(now), c);
    }
    Filter(calls, EndedTest(now))
  }

  /** `upcomingCalls`: the fetched calls that pass the upcoming test, with the
      filtered list then reversed. */
  function UpcomingCalls(calls: seq<Call>, now: int): (r: seq<Call>)
    ensures forall c :: c in r <==> c in calls && IsUpcoming(c, now)
    ensures forall c :: multiset(r)[c] == if IsUpcoming(c, now) then multiset(calls)[c] else 0
    ensures IsSubsequence(Reverse(r), calls)
  {
    var kept := Filter(calls, UpcomingTest(now));
    FilterIsSubsequence(calls, UpcomingTest(now));
    ReverseMultiset(kept);
    ReverseReverse(kept);
    forall c ensures multiset(kept)[c] == if IsUpcoming(c, now) then multiset(calls)[c] else 0 {
      FilterMultiplicity(calls, UpcomingTest(now), c);
    }
    Reverse(kept)
  }

  /** `a` is scheduled no earlier than `b`; both have a start time. */
  predicate StartsNoEarlierThan(a: Call, b: Call) {
    a.startsAt.Some? && b.startsAt.Some? && a.startsAt.value >= b.startsAt.value
  }

  /** Sorted by start time, latest first: the order the hook asks the video
      client for. */
  ghost predicate LatestFirst(calls: seq<Call>) {
    Pairwise(calls, StartsNoEarlierThan)
  }

  /** Sorted by start time, soonest first. */
  ghost predicate SoonestFirst(calls: seq<Call>) {
    forall i, j :: 0 <= i < j < |calls| ==> StartsNoEarlierThan(calls[j], calls[i])
  }

  /** When the fetched list is sorted latest first, the upcoming list comes out
      soonest first. */
  lemma UpcomingSoonestFirst(calls: seq<Call>, now: int)
    requires LatestFirst(calls)
    ensures SoonestFirst(UpcomingCalls(calls, now))
  {
    var kept := Filter(calls, UpcomingTest(now));
    FilterKeepsPairwise(calls, UpcomingTest(now), StartsNoEarlierThan);
    ReverseFlipsPairwise(kept, StartsNoEarlierThan);
  }

  /** The two lists overlap exactly on the calls that start in the future but
      already carry an end time. */
  lemma EndedAndUpcomingOverlap(calls: seq<Call>, now: int, c: Call)
    ensures c in EndedCalls(calls, now) && c in UpcomingCalls(calls, now)
        <==> c in calls && c.startsAt.Some? && c.startsAt.value > now && c.endedAt.Some?
  {
  }

  /** A fetched call is in neither list exactly when it has no end time and its
      start is missing or equal to `now`. */
  lemma NeitherEndedNorUpcoming(calls: seq<Call>, now: int, c: Call)
    requires c in calls
    ensures c !in EndedCalls(calls, now) && c !in UpcomingCalls(calls, now)
        <==> c.endedAt.None? && (c.startsAt.None? || c.startsAt.value == now)
  {
  }

  /** Concrete witnesses: the split is neither disjoint nor exhaustive. */
  lemma PartitionIsNotAPartition(now: int)
    ensures var both := Call("future-but-ended", Some(now + 1), Some(now));
            both in EndedCalls([both], now) && both in UpcomingCalls([both], now)
    ensures var neither := Call("starting-now", Some(now), None);
            neither !in EndedCalls([neither], now) && neither !in UpcomingCalls([neither], now)
  {
    var both := Call("future-but-ended", Some(now + 1), Some(now));
    var neither := Call("starting-now", Some(now), None);
    assert both in [both];
    assert neither in [neither];
  }

  /** The hook's React state. */
  datatype HookState = HookState(calls: seq<Call>, isLoading: bool)

  /** Both pieces of state start out empty and idle. */
  const InitialState := HookState([], false)

  /** What the hook returns to its caller. */
  datatype RosterView = RosterView(
    endedCalls: seq<Call>,
    upcomingCalls: seq<Call>,
    callRecordings: seq<Call>,
    isLoading: bool)

  /** The hook's return value for the current state at clock reading `now`. */
  function View(st: HookState, now: int): (v: RosterView)
    ensures forall c :: c in v.endedCalls <==> c in st.calls && IsEnded(c, now)
    ensures forall c :: c in v.upcomingCalls <==> c in st.calls && IsUpcoming(c, now)
    ensures v.callRecordings == st.calls
    ensures v.isLoading == st.isLoading
    ensures |v.endedCalls| <= |st.calls| && |v.upcomingCalls| <= |st.calls|
  {
    RosterView(EndedCalls(st.calls, now), UpcomingCalls(st.calls, now), st.calls, st.isLoading)
  }

  /** The query the hook sends: calls that have a start time and that the user
      created or is a member of, sorted on `starts_at` with direction -1
      (latest first). The video client's evaluation of it is not modelled. */
  datatype CallQuery = CallQuery(
    createdByOrMember: string,
    startsAtExists: bool,
    sortField: string,
    sortDirection: int)

  /** What the video client answered: a list of calls, or a thrown error. */
  datatype QueryOutcome = Fetched(calls: seq<Call>) | QueryFailed

  /** One run of `loadCalls`: the query issued, if any; the successive states
      the hook's setters produce, in order; and how many of those states were
      set before the query went out (the query is awaited between
      `states[queriedAfter - 1]` and `states[queriedAfter]`). */
  datatype LoadRun = LoadRun(query: Option<CallQuery>, queriedAfter: nat, states: seq<HookState>)

  /** `loadCalls` proceeds only with a client and a user id that is present and
      non-empty (an empty string is falsy in `loadCalls`'s guard). */
  predicate CanLoad(hasClient: bool, userId: Option<string>) {
    hasClient && userId.Some? && userId.value != ""
  }

  /** `loadCalls`: guard, set loading, query, store the calls on success, clear
      loading whatever happened. */
  function LoadCalls(st: HookState, hasClient: bool, userId: Option<string>, outcome: QueryOutcome): (r: LoadRun)
    ensures r.query.Some? <==> CanLoad(hasClient, userId)
    ensures r.query.Some? ==>
      r.query.value == CallQuery(userId.value, true, "starts_at", -1)
    ensures !CanLoad(hasClient, userId) ==> r.states == [] && r.queriedAfter == 0
    ensures CanLoad(hasClient, userId) ==>
      && |r.states| >= 2
      && r.states[0] == st.(isLoading := true)
      && 1 <= r.queriedAfter < |r.states|
      && r.states[r.queriedAfter - 1].isLoading
      && (forall i :: 0 <= i < r.queriedAfter ==> r.states[i].calls == st.calls)
      && (forall i :: 0 <= i < |r.states| - 1 ==> r.states[i].isLoading)
      && Last(r.states) == HookState(if outcome.Fetched? then outcome.calls else st.calls, false)
  {
    if !CanLoad(hasClient, userId) then LoadRun(None, 0, [])
    else
      var query := CallQuery(userId.value, true, "starts_at", -1);
      var loading := st.(isLoading := true);
      match outcome
      case Fetched(calls) =>
        var stored := loading.(calls := calls);
        LoadRun(Some(query), 1, [loading, stored, stored.(isLoading := false)])
      case QueryFailed =>
        LoadRun(Some(query), 1, [loading, loading.(isLoading := false)])
  }

  /** The hook's state once a run of `loadCalls` has finished. */
  function Settled(st: HookState, r: LoadRun): HookState {
    if |r.states| == 0 then st else Last(r.states)
  }

  /** Without a client or a user id nothing is fetched: the hook stays in its
      initial state, all three lists are empty and it is not loading. */
  lemma NoIdentityNoQuery(hasClient: bool, userId: Option<string>, outcome: QueryOutcome, now: int)
    requires !CanLoad(hasClient, userId)
    ensures var r := LoadCalls(InitialState, hasClient, userId, outcome);
            && r.query.None?
            && View(Settled(InitialState, r), now) == RosterView([], [], [], false)
  {
  }
}
