/** The credit balance store (a zustand store): four fields overwritten in
    place by three setters. The setters are modelled twice over: as methods of
    the `Store` class, which changes its fields, and as `Step`, the effect of
    one setter call on a `Snapshot` of those fields; `Run` folds a sequence of
    setter calls, which is what the store invariants are proved over. */
module CreditsStore {
  import opened Wrappers

  /** The balance record as the server reports it. */
  datatype UserCredits = UserCredits(
    screenCredits: int,
    revisionCredits: int,
    remainingScreenCredits: int,
    remainingRevisionCredits: int)

  /** The four data fields of the store; timestamps are milliseconds. */
  datatype Snapshot = Snapshot(
    credits: Option<UserCredits>,
    isLoading: bool,
    error: Option<string>,
    lastUpdated: Option<int>)

  /** One call of a setter; `SetCredits` carries the clock reading it takes. */
  datatype Action =
    | SetCredits(newCredits: UserCredits, at: int)
    | SetError(newError: Option<string>)
    | SetLoading(newLoading: bool)

  /** The state the store is created in. */
  const Initial := Snapshot(None, false, None, None)

  /** Only `setCredits` writes `credits` or `lastUpdated`, and it writes both. */
  ghost predicate Consistent(s: Snapshot) {
    s.credits.Some? <==> s.lastUpdated.Some?
  }

  /** The effect of one setter call: a shallow merge of the fields it names. */
  function Step(s: Snapshot, a: Action): Snapshot {
    match a
    case SetCredits(c, t) => s.(credits := Some(c), lastUpdated := Some(t))
    case SetError(e) => s.(error := e)
    case SetLoading(b) => s.(isLoading := b)
  }

  /** The effect of a sequence of setter calls, in order. */
  function Run(s: Snapshot, actions: seq<Action>): Snapshot
    decreases |actions|
  {
    if actions == [] then s else Run(Step(s, actions[0]), actions[1..])
  }

  /** Every sequence of setter calls keeps `credits` and `lastUpdated` both
      present or both absent. */
  lemma {:induction false} RunKeepsConsistent(s: Snapshot, actions: seq<Action>)
    requires Consistent(s)
    ensures Consistent(Run(s, actions))
    decreases |actions|
  {
    if actions != [] {
      RunKeepsConsistent(Step(s, actions[0]), actions[1..]);
    }
  }

  /** From the initial state, the invariant holds after any setter calls. */
  lemma ReachableIsConsistent(actions: seq<Action>)
    ensures Consistent(Run(Initial, actions))
  {
    RunKeepsConsistent(Initial, actions);
  }

  /** Once `credits` is present, no setter call makes it absent again. */
  lemma {:induction false} RunNeverClearsCredits(s: Snapshot, actions: seq<Action>)
    requires s.credits.Some?
    ensures Run(s, actions).credits.Some?
    decreases |actions|
  {
    if actions != [] {
      RunNeverClearsCredits(Step(s, actions[0]), actions[1..]);
    }
  }

  /** Setter calls compose: running one sequence and then another is running
      their concatenation. */
  lemma {:induction false} RunAppend(s: Snapshot, xs: seq<Action>, ys: seq<Action>)
    ensures Run(s, xs + ys) == Run(Run(s, xs), ys)
    decreases |xs|
  {
    if xs == [] {
      assert xs + ys == ys;
    } else {
      assert (xs + ys)[0] == xs[0];
      assert (xs + ys)[1..] == xs[1..] + ys;
      RunAppend(Step(s, xs[0]), xs[1..], ys);
    }
  }

  /** Two setter calls, one after the other. */
  lemma RunOfTwo(s: Snapshot, a: Action, b: Action)
    ensures Run(s, [a, b]) == Step(Step(s, a), b)
  {
    assert [a, b][1..] == [b];
    assert [b][1..] == [];
    assert Run(Step(s, a), [b]) == Run(Step(Step(s, a), b), []);
  }

  /** The credits passed to the `SetCredits` calls among `actions`, in order. */
  function CreditsWritten(actions: seq<Action>): seq<UserCredits>
    decreases |actions|
  {
    if actions == [] then []
    else
      (if actions[0].SetCredits? then [actions[0].newCredits] else [])
      + CreditsWritten(actions[1..])
  }

  /** The stored credits are those of the last `SetCredits` call, or the
      earlier ones when there is none: no other setter touches them. */
  lemma {:induction false} RunCreditsAreLastWritten(s: Snapshot, actions: seq<Action>)
    ensures var w := CreditsWritten(actions);
      Run(s, actions).credits == if w == [] then s.credits else Some(w[|w| - 1])
    decreases |actions|
  {
    if actions != [] {
      RunCreditsAreLastWritten(Step(s, actions[0]), actions[1..]);
    }
  }

  /** The store object. */
  class Store {
    var credits: Option<UserCredits>
    var isLoading: bool
    var error: Option<string>
    var lastUpdated: Option<int>

    function State(): Snapshot
      reads this
    {
      Snapshot(credits, isLoading, error, lastUpdated)
    }

    ghost predicate Valid()
      reads this
    {
      Consistent(State())
    }

    /** A fresh store: no credits, not loading, no error, never updated. */
    constructor ()
      ensures credits == None && !isLoading && error == None && lastUpdated == None
      ensures State() == Initial && Valid()
    {
      credits := None;
      isLoading := false;
      error := None;
      lastUpdated := None;
    }

    /** Replaces the credits wholesale and stamps them with the clock `now`. */
    method SetCredits(c: UserCredits, now: int)
      requires Valid()
      modifies this
      ensures credits == Some(c) && lastUpdated == Some(now)
      ensures isLoading == old(isLoading) && error == old(error)
      ensures State() == Step(old(State()), Action.SetCredits(c, now)) && Valid()
    {
      credits := Some(c);
      lastUpdated := Some(now);
    }

    /** Sets or clears the error message, and nothing else. */
    method SetError(e: Option<string>)
      requires Valid()
      modifies this
      ensures error == e
      ensures credits == old(credits) && isLoading == old(isLoading) && lastUpdated == old(lastUpdated)
      ensures State() == Step(old(State()), Action.SetError(e)) && Valid()
    {
      error := e;
    }

    /** Sets the loading flag, and nothing else. */
    method SetLoading(b: bool)
      requires Valid()
      modifies this
      ensures isLoading == b
      ensures credits == old(credits) && error == old(error) && lastUpdated == old(lastUpdated)
      ensures State() == Step(old(State()), Action.SetLoading(b)) && Valid()
    {
      isLoading := b;
    }
  }
}
