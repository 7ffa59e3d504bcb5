/**
 * The hosting platform the worker reconciles, as abstract state.
 *
 * The platform holds the idled pool apps, already split into those built
 * from the current template ("current") and those built from any other
 * template ("other"), each in listing order. The worker reaches it through
 * three calls: list the pool, deploy one new app, delete one app. Whether a
 * call succeeds is decided by the platform alone; the model fixes it in
 * advance with a fault script: the k-th call made on the platform fails
 * exactly when k is in `faults`. Every call is appended to `calls`, so that
 * what the worker did, and in which order, can be stated about the trace.
 *
 * The state also scripts the one outcome the worker gets from code it
 * cannot see besides the platform: what the run group of the add phase
 * returns once its deploy actors have run.
 */
module Remote {

  type AppId = nat

  datatype Option<T> = None | Some(value: T)

  /** One call the worker made on the platform, with its outcome. */
  datatype Call = List(ok: bool) | Deploy(ok: bool) | Delete(app: AppId, ok: bool)

  /** A successful listing: the pool split by template version. */
  datatype Listing = Listing(current: seq<AppId>, other: seq<AppId>)

  datatype State = State(
    current: seq<AppId>,  // idled apps built from the current template, in listing order
    other: seq<AppId>,    // idled apps built from an outdated template, in listing order
    nextId: AppId,        // the id the next successful deploy gets
    faults: set<nat>,     // indices of the calls that fail
    groupErrors: set<nat>, // trace lengths at which a returning deploy group reports an error
    calls: seq<Call>)     // every call made so far
  {
    /** The call about to be made fails. */
    predicate NextFails() {
      |calls| in faults
    }
  }

  predicate Distinct(xs: seq<AppId>) {
    forall i, j :: 0 <= i < j < |xs| ==> xs[i] != xs[j]
  }

  /**
   * The pool is a partition: no app is listed twice, none is both current and
   * other, and every id was handed out before `nextId`.
   */
  ghost predicate Valid(s: State) {
    && Distinct(s.current)
    && Distinct(s.other)
    && (forall id :: id in s.current ==> id !in s.other && id < s.nextId)
    && (forall id :: id in s.other ==> id < s.nextId)
  }

  /** `xs` with every occurrence of `x` taken out, order kept. */
  function Without(xs: seq<AppId>, x: AppId): (r: seq<AppId>)
    ensures |r| <= |xs|
    ensures forall y :: y in r <==> y in xs && y != x
    ensures x !in xs ==> r == xs
  {
    if xs == [] then []
    else if xs[0] == x then Without(xs[1..], x)
    else [xs[0]] + Without(xs[1..], x)
  }

  lemma {:induction false} WithoutAppend(xs: seq<AppId>, ys: seq<AppId>, x: AppId)
    ensures Without(xs + ys, x) == Without(xs, x) + Without(ys, x)
  {
    if xs == [] {
      assert xs + ys == ys;
    } else {
      assert (xs + ys)[1..] == xs[1..] + ys;
      WithoutAppend(xs[1..], ys, x);
    }
  }

  lemma {:induction false} WithoutDistinct(xs: seq<AppId>, x: AppId)
    requires Distinct(xs)
    ensures Distinct(Without(xs, x))
  {
    if xs != [] {
      assert Distinct(xs[1..]);
      WithoutDistinct(xs[1..], x);
      var rest := Without(xs[1..], x);
      assert xs[0] !in rest by {
        assert xs[0] !in xs[1..];
      }
    }
  }

  // The three platform calls. Their outcome is the fault script's; the
  // worker's code only sees what they return.

  /** List the pool (the listing call made by both phases of a cycle). */
  function ListApps(s: State): (r: (State, Option<Listing>))
    ensures r.1.Some? <==> !s.NextFails()
    ensures r.1.Some? ==> r.1.value == Listing(s.current, s.other)
    ensures r.0.current == s.current && r.0.other == s.other && r.0.nextId == s.nextId
    ensures r.0.calls == s.calls + [List(r.1.Some?)]
  {
    if s.NextFails() then (s.(calls := s.calls + [List(false)]), None)
    else (s.(calls := s.calls + [List(true)]), Some(Listing(s.current, s.other)))
  }

  /** Deploy one app from the current template and scale it down to idle. */
  function DeployApp(s: State): (r: (State, bool))
    ensures r.1 <==> !s.NextFails()
    ensures r.1 ==> r.0.current == s.current + [s.nextId] && s.nextId < r.0.nextId
    ensures !r.1 ==> r.0.current == s.current && r.0.nextId == s.nextId
    ensures r.0.other == s.other
    ensures r.0.calls == s.calls + [Deploy(r.1)]
  {
    if s.NextFails() then (s.(calls := s.calls + [Deploy(false)]), false)
    else
      (s.(current := s.current + [s.nextId], nextId := s.nextId + 1,
          calls := s.calls + [Deploy(true)]), true)
  }

  /** Delete one app; a failure is only recorded in the trace. */
  function DeleteApp(s: State, app: AppId): (r: State)
    ensures !s.NextFails() ==> app !in r.current && app !in r.other
    ensures s.NextFails() ==> r.current == s.current && r.other == s.other
    ensures forall y :: y in r.current ==> y in s.current
    ensures forall y :: y in r.other ==> y in s.other
    ensures app !in s.current + s.other ==> r.current == s.current && r.other == s.other
    ensures r.nextId == s.nextId
    ensures r.calls == s.calls + [Delete(app, !s.NextFails())]
  {
    if s.NextFails() then s.(calls := s.calls + [Delete(app, false)])
    else
      s.(current := Without(s.current, app), other := Without(s.other, app),
         calls := s.calls + [Delete(app, true)])
  }

  /**
   * Whether `Run` of a deploy group with `actors` actors returns an error,
   * once the platform's trace is `s.calls`. The run-group library decides
   * this, so it is scripted; a group without actors returns nil.
   */
  function GroupFails(s: State, actors: nat): bool {
    actors > 0 && |s.calls| in s.groupErrors
  }

  lemma DeployAppValid(s: State)
    requires Valid(s)
    ensures Valid(DeployApp(s).0)
  {
    var s' := DeployApp(s).0;
    if !s.NextFails() {
      assert s.nextId !in s.current;
      assert s'.current == s.current + [s.nextId];
      forall i, j | 0 <= i < j < |s'.current| ensures s'.current[i] != s'.current[j] {
        if j == |s.current| {
          assert s'.current[i] in s.current;
        }
      }
    }
  }

  lemma DeleteAppValid(s: State, app: AppId)
    requires Valid(s)
    ensures Valid(DeleteApp(s, app))
  {
    if !s.NextFails() {
      WithoutDistinct(s.current, app);
      WithoutDistinct(s.other, app);
    }
  }

  /**
   * The remote platform as the worker sees it: state changed in place by the
   * calls it makes.
   */
  class Platform {
    var current: seq<AppId>
    var other: seq<AppId>
    var nextId: AppId
    const faults: set<nat>
    const groupErrors: set<nat>
    var calls: seq<Call>

    function View(): State
      reads this
    {
      State(current, other, nextId, faults, groupErrors, calls)
    }

    constructor (current: seq<AppId>, other: seq<AppId>, nextId: AppId,
                 faults: set<nat>, groupErrors: set<nat>)
      ensures View() == State(current, other, nextId, faults, groupErrors, [])
    {
      this.current, this.other, this.nextId := current, other, nextId;
      this.faults, this.groupErrors := faults, groupErrors;
      this.calls := [];
    }

    /** List the idled pool apps, split by template version. */
    method List() returns (listing: Option<Listing>)
      modifies this
      ensures (View(), listing) == ListApps(old(View()))
      ensures listing.Some? ==> listing.value == Listing(old(current), old(other))
    {
      listing := if |calls| in faults then None else Some(Listing(current, other));
      calls := calls + [Call.List(listing.Some?)];
    }

    /** Deploy one new app and scale it down; reports success. */
    method Deploy() returns (ok: bool)
      modifies this
      ensures (View(), ok) == DeployApp(old(View()))
      ensures ok ==> current == old(current) + [old(nextId)]
      ensures !ok ==> current == old(current)
      ensures other == old(other)
    {
      ok := |calls| !in faults;
      if ok {
        current, nextId := current + [nextId], nextId + 1;
      }
      calls := calls + [Call.Deploy(ok)];
    }

    /**
     * Run the deploy group of `actors` actors whose deploys have been made,
     * and report whether `Run` returned an error.
     */
    method RunGroup(actors: nat) returns (failed: bool)
      ensures failed == GroupFails(View(), actors)
      ensures actors == 0 ==> !failed
    {
      failed := actors > 0 && |calls| in groupErrors;
    }

    /** Delete one app; the outcome is not reported to the caller. */
    method Delete(app: AppId)
      modifies this
      ensures View() == DeleteApp(old(View()), app)
      ensures app !in old(other) && app !in old(current) ==>
                current == old(current) && other == old(other)
    {
      var ok := |calls| !in faults;
      if ok {
        current, other := Without(current, app), Without(other, app);
      }
      calls := calls + [Call.Delete(app, ok)];
    }
  }
}
