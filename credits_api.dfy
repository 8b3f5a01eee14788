/** `loadCredits` of the credits hook: a freshness test on the cached balance,
    then one fetch attempt whose outcome is written to the store through its
    setters. The clock and the network are inputs: `now` is the clock reading
    of the freshness test, `completedAt` the one `setCredits` takes when the
    response has arrived, and `FetchOutcome` says how the attempt ended. */
module CreditsApi {
  import opened Wrappers
  import opened CreditsStore

  /** How long a fetched balance counts as fresh: five minutes in milliseconds. */
  const CACHE_DURATION: int := 1000 * 60 * 5

  const NO_TOKEN_MESSAGE := "No authentication token available"
  const HTTP_FAILURE_MESSAGE := "Failed to load credits"
  const UNKNOWN_ERROR_MESSAGE := "An error occurred"

  /** How the single fetch attempt ends. `Thrown` is an `Error` raised by the
      request or by decoding its body, with that error's message;
      `ThrownNonError` is a thrown value that is not an `Error`. */
  datatype FetchOutcome =
    | NoToken
    | HttpNotOk
    | Thrown(message: string)
    | ThrownNonError
    | Fetched(data: UserCredits)

  /** The early return: no forced refresh, credits cached, and a truthy
      timestamp (a stamp of 0 is falsy) younger than the cache duration. */
  predicate CacheHit(force: bool, credits: Option<UserCredits>, lastUpdated: Option<int>, now: int) {
    !force && credits.Some? && lastUpdated.Some? && lastUpdated.value != 0
    && now - lastUpdated.value < CACHE_DURATION
  }

  /** The message the store records for a failed attempt. */
  function FailureMessage(o: FetchOutcome): string
    requires !o.Fetched?
  {
    match o
    case NoToken => NO_TOKEN_MESSAGE
    case HttpNotOk => HTTP_FAILURE_MESSAGE
    case Thrown(m) => m
    case ThrownNonError => UNKNOWN_ERROR_MESSAGE
  }

  /** The setter calls made before the fetch is awaited: loading on, and the
      error cleared. */
  const BEGIN_ACTIONS: seq<Action> := [Action.SetLoading(true), Action.SetError(None)]

  /** The setter calls made once the attempt has ended: the outcome write
      (`setCredits` on success, `setError` on failure), then loading off. */
  function FinishActions(completedAt: int, outcome: FetchOutcome): seq<Action> {
    [ if outcome.Fetched? then Action.SetCredits(outcome.data, completedAt)
      else Action.SetError(Some(FailureMessage(outcome))),
      Action.SetLoading(false) ]
  }

  /** The setter calls `loadCredits` makes, in order. */
  function LoadActions(s: Snapshot, force: bool, now: int, completedAt: int, outcome: FetchOutcome): seq<Action> {
    if CacheHit(force, s.credits, s.lastUpdated, now) then []
    else BEGIN_ACTIONS + FinishActions(completedAt, outcome)
  }

  /** The store after `loadCredits`: its setter calls applied in order. */
  function Load(s: Snapshot, force: bool, now: int, completedAt: int, outcome: FetchOutcome): Snapshot {
    Run(s, LoadActions(s, force, now, completedAt, outcome))
  }

  /** While the fetch is pending the store shows loading with no error, and
      still holds the credits and stamp it had. */
  lemma PendingState(s: Snapshot)
    ensures var p := Run(s, BEGIN_ACTIONS);
      && p.isLoading && p.error == None
      && p.credits == s.credits && p.lastUpdated == s.lastUpdated
  {
    RunOfTwo(s, BEGIN_ACTIONS[0], BEGIN_ACTIONS[1]);
  }

  /** Once the attempt has ended the store is not loading, and holds either
      the fetched credits freshly stamped, with the error as it was, or the
      credits and stamp it had, with the failure's message. */
  lemma FinishedState(s: Snapshot, completedAt: int, outcome: FetchOutcome)
    ensures var r := Run(s, FinishActions(completedAt, outcome));
      && !r.isLoading
      && (outcome.Fetched? ==>
            r.credits == Some(outcome.data) && r.lastUpdated == Some(completedAt) && r.error == s.error)
      && (!outcome.Fetched? ==>
            r.credits == s.credits && r.lastUpdated == s.lastUpdated
            && r.error == Some(FailureMessage(outcome)))
  {
    var a := FinishActions(completedAt, outcome);
    RunOfTwo(s, a[0], a[1]);
  }

  /** What `loadCredits` leaves in the store: nothing changed on a cache hit;
      otherwise not loading, and either the fetched credits freshly stamped
      with no error, or the old credits and stamp kept (stale but available)
      with the failure's message. The store invariant is kept. */
  lemma LoadOutcome(s: Snapshot, force: bool, now: int, completedAt: int, outcome: FetchOutcome)
    ensures var r := Load(s, force, now, completedAt, outcome);
      && (CacheHit(force, s.credits, s.lastUpdated, now) ==> r == s)
      && (!CacheHit(force, s.credits, s.lastUpdated, now) ==> !r.isLoading)
      && (!CacheHit(force, s.credits, s.lastUpdated, now) && outcome.Fetched? ==>
            r.credits == Some(outcome.data) && r.lastUpdated == Some(completedAt) && r.error == None)
      && (!CacheHit(force, s.credits, s.lastUpdated, now) && !outcome.Fetched? ==>
            r.credits == s.credits && r.lastUpdated == s.lastUpdated
            && r.error == Some(FailureMessage(outcome)))
      && (Consistent(s) ==> Consistent(r))
  {
    if !CacheHit(force, s.credits, s.lastUpdated, now) {
      RunAppend(s, BEGIN_ACTIONS, FinishActions(completedAt, outcome));
      PendingState(s);
      FinishedState(Run(s, BEGIN_ACTIONS), completedAt, outcome);
    }
    if Consistent(s) { RunKeepsConsistent(s, LoadActions(s, force, now, completedAt, outcome)); }
  }

  /** The cache lifetime is 300000 ms, and the window is half-open: a stamp
      exactly that old is stale. A forced call never hits. */
  lemma FreshnessWindow(credits: UserCredits, stamp: int, now: int)
    requires stamp != 0
    ensures CACHE_DURATION == 300000
    ensures CacheHit(false, Some(credits), Some(stamp), now) <==> now < stamp + 300000
    ensures !CacheHit(false, Some(credits), Some(stamp), stamp + 300000)
    ensures !CacheHit(true, Some(credits), Some(stamp), now)
  {
  }

  /** Nothing cached, or a zero stamp, always misses. */
  lemma EmptyCacheMisses(s: Snapshot, now: int)
    requires s.credits.None? || s.lastUpdated.None? || s.lastUpdated == Some(0)
    ensures !CacheHit(false, s.credits, s.lastUpdated, now)
    ensures LoadActions(s, false, now, now, NoToken) != []
  {
  }

  /** Every non-hit call starts by turning loading on and clearing the error,
      and ends by turning loading off, with exactly one outcome write between. */
  lemma LoadBracketsFetch(s: Snapshot, force: bool, now: int, completedAt: int, outcome: FetchOutcome)
    requires !CacheHit(force, s.credits, s.lastUpdated, now)
    ensures var a := LoadActions(s, force, now, completedAt, outcome);
      |a| == 4 && a[0] == Action.SetLoading(true) && a[1] == Action.SetError(None)
      && a[3] == Action.SetLoading(false)
      && (a[2].SetCredits? <==> outcome.Fetched?)
  {
  }

  /** A successful refresh discards whatever was cached: the result depends
      only on the fetched data and the stamp, not on the previous credits. */
  lemma FetchReplacesWholesale(s: Snapshot, t: Snapshot, now: int, completedAt: int, data: UserCredits)
    ensures Load(s, true, now, completedAt, Fetched(data)) == Load(t, true, now, completedAt, Fetched(data))
  {
    LoadOutcome(s, true, now, completedAt, Fetched(data));
    LoadOutcome(t, true, now, completedAt, Fetched(data));
  }

  /** The first half of `loadCredits(force)`, up to the awaited fetch: on a
      cache miss it turns loading on and clears the error, leaving the
      credits and their stamp in place; on a hit it changes nothing.
      `fetched` says whether a fetch is attempted. */
  method BeginLoad(store: Store, force: bool, now: int) returns (fetched: bool)
    requires store.Valid()
    modifies store
    ensures fetched == !CacheHit(force, old(store.credits), old(store.lastUpdated), now)
    ensures force ==> fetched
    ensures !fetched ==> store.State() == old(store.State())
    ensures fetched ==>
      store.isLoading && store.error == None
      && store.credits == old(store.credits) && store.lastUpdated == old(store.lastUpdated)
    ensures fetched ==> store.State() == Run(old(store.State()), BEGIN_ACTIONS)
    ensures store.Valid()
  {
    fetched := !CacheHit(force, store.credits, store.lastUpdated, now);
    if fetched {
      store.SetLoading(true);
      store.SetError(None);
      RunOfTwo(old(store.State()), BEGIN_ACTIONS[0], BEGIN_ACTIONS[1]);
    }
  }

  /** The second half, once the attempt has ended with `outcome`: success
      stores the fetched credits stamped at `completedAt`, failure records its
      message and keeps the credits; either way loading ends. */
  method FinishLoad(store: Store, completedAt: int, outcome: FetchOutcome)
    requires store.Valid()
    modifies store
    ensures !store.isLoading
    ensures outcome.Fetched? ==>
      store.credits == Some(outcome.data) && store.lastUpdated == Some(completedAt)
      && store.error == old(store.error)
    ensures !outcome.Fetched? ==>
      store.credits == old(store.credits) && store.lastUpdated == old(store.lastUpdated)
      && store.error == Some(FailureMessage(outcome))
    ensures store.State() == Run(old(store.State()), FinishActions(completedAt, outcome))
    ensures store.Valid()
  {
    match outcome {
      case Fetched(data) => store.SetCredits(data, completedAt);
      case _ => store.SetError(Some(FailureMessage(outcome)));
    }
    store.SetLoading(false);
    var a := FinishActions(completedAt, outcome);
    RunOfTwo(old(store.State()), a[0], a[1]);
  }

  /** `loadCredits(force)` against the store, with the outcome of the fetch
      it would attempt; `fetched` says whether it attempted one. */
  method LoadCredits(store: Store, force: bool, now: int, completedAt: int, outcome: FetchOutcome)
    returns (fetched: bool)
    requires store.Valid()
    modifies store
    ensures fetched == !CacheHit(force, old(store.credits), old(store.lastUpdated), now)
    ensures force ==> fetched
    ensures !fetched ==> store.State() == old(store.State())
    ensures fetched ==> !store.isLoading
    ensures fetched && outcome.Fetched? ==>
      store.credits == Some(outcome.data) && store.lastUpdated == Some(completedAt)
      && store.error == None
    ensures fetched && !outcome.Fetched? ==>
      store.credits == old(store.credits) && store.lastUpdated == old(store.lastUpdated)
      && store.error == Some(FailureMessage(outcome))
    ensures store.State() == Load(old(store.State()), force, now, completedAt, outcome)
    ensures store.Valid()
  {
    fetched := BeginLoad(store, force, now);
    if fetched {
      FinishLoad(store, completedAt, outcome);
      RunAppend(old(store.State()), BEGIN_ACTIONS, FinishActions(completedAt, outcome));
    }
  }

  /** A session's first call finds nothing cached and fetches; a second call
      within five minutes of a successful one is a cache hit; a forced call
      then fetches again, and a failure keeps the balance it had. */
  method RefreshScenario()
  {
    var store := new Store();
    var balance := UserCredits(10, 10, 10, 10);
    var fetched := LoadCredits(store, false, 1000, 1200, Fetched(balance));
    assert fetched && store.credits == Some(balance) && store.lastUpdated == Some(1200);
    fetched := LoadCredits(store, false, 1200 + 299999, 0, HttpNotOk);
    assert !fetched && store.error == None;
    fetched := LoadCredits(store, false, 1200 + 300000, 400000, HttpNotOk);
    assert fetched && store.credits == Some(balance) && store.error == Some(HTTP_FAILURE_MESSAGE);
    assert !store.isLoading && store.lastUpdated == Some(1200);
  }
}
