/**
 * One reconciliation cycle and the scheduler, as functions of the platform
 * state. The worker's methods (module Worker) are proved to do exactly what
 * these functions say; the lemmas below state what a cycle promises.
 */
module Reconcile {
  import opened Remote
  import opened Capacity

  /** The two configuration fields the reconciliation reads. */
  datatype Config = Config(batchSize: int, poolSize: int)

  /** Why a phase returned an error. */
  datatype Error = ListFailed | DeployFailed

  /** What the scheduler's `select` observes: a ticker tick or cancellation. */
  datatype Event = Tick | Done

  /** How `Start` ends. `Waiting`: the events ran out before cancellation. */
  datatype Exit = TemplateMissing | Cancelled | Waiting

  // ----- Add phase -----

  /**
   * The `k` deploy actors of one group, each making one deploy attempt. The
   * library runs them concurrently; the model makes the attempts one after
   * another.
   */
  function DeployBatch(s: State, k: nat): State
    decreases k
  {
    if k == 0 then s else DeployApp(DeployBatch(s, k - 1)).0
  }

  /**
   * `addAppsToPool`: list, compute `n`, launch the deploys, return what the
   * group's `Run` returns. Only a failed listing gives `ListFailed`, outdated
   * apps are never touched, and a group without actors returns nil.
   */
  function AddPhase(cfg: Config, s: State): (r: (State, Option<Error>))
    ensures r.1 == Some(ListFailed) <==> s.NextFails()
    ensures r.0.other == s.other
    ensures |s.calls| < |r.0.calls| && r.0.calls[..|s.calls|] == s.calls
    ensures |s.current| <= |r.0.current| && r.0.current[..|s.current|] == s.current
    ensures r.1 == Some(DeployFailed) ==>
      0 < AddCount(cfg.batchSize, cfg.poolSize, |s.current|)
  {
    var (s1, listing) := ListApps(s);
    if listing.None? then (s1, Some(ListFailed))
    else
      var k := Iterations(AddCount(cfg.batchSize, cfg.poolSize, |listing.value.current|));
      var s2 := DeployBatch(s1, k);
      DeployBatchTrace(s1, k);
      assert s2.calls[..|s.calls|] == s2.calls[..|s1.calls|][..|s.calls|];
      (s2, if GroupFails(s2, k) then Some(DeployFailed) else None)
  }

  // ----- Remove phase -----

  /** Delete `apps` one after another, in order. */
  function DeleteAll(s: State, apps: seq<AppId>): State
    decreases |apps|
  {
    if apps == [] then s
    else DeleteApp(DeleteAll(s, apps[..|apps| - 1]), apps[|apps| - 1])
  }

  /**
   * `removeOutdatedApps`: list again, delete the first `n` outdated apps.
   * Only the listing can make it fail; what the deletions do is never
   * reported.
   */
  function RemovePhase(cfg: Config, s: State): (r: (State, Option<Error>))
    requires cfg.batchSize >= 0
    ensures r.1.Some? <==> s.NextFails()
    ensures r.1.Some? ==> r.1 == Some(ListFailed)
    ensures |s.calls| < |r.0.calls| && r.0.calls[..|s.calls|] == s.calls
  {
    var (s1, listing) := ListApps(s);
    if listing.None? then (s1, Some(ListFailed))
    else
      var n := RemoveCount(cfg.batchSize, |listing.value.other|);
      var prefix := listing.value.other[..n];
      DeleteAllTrace(s1, prefix);
      var r := DeleteAll(s1, prefix);
      assert r.calls[..|s.calls|] == r.calls[..|s1.calls|][..|s.calls|];
      (r, None)
  }

  // ----- The cycle and the scheduler -----

  /**
   * The `work` closure: add first; remove only if adding returned nil. A
   * cycle always makes at least its first listing call and keeps every
   * earlier call as it was.
   */
  function Cycle(cfg: Config, s: State): (r: State)
    requires cfg.batchSize >= 0
    ensures |s.calls| < |r.calls| && r.calls[..|s.calls|] == s.calls
  {
    var (s1, err) := AddPhase(cfg, s);
    if err.Some? then s1
    else
      var r := RemovePhase(cfg, s1).0;
      assert r.calls[..|s.calls|] == r.calls[..|s1.calls|][..|s.calls|];
      r
  }

  /** `k` cycles run one after another; each makes at least one call. */
  function Cycles(cfg: Config, s: State, k: nat): (r: State)
    requires cfg.batchSize >= 0
    ensures |s.calls| + k <= |r.calls| && r.calls[..|s.calls|] == s.calls
    decreases k
  {
    if k == 0 then s
    else
      var p := Cycles(cfg, s, k - 1);
      var r := Cycle(cfg, p);
      assert r.calls[..|s.calls|] == r.calls[..|p.calls|][..|s.calls|];
      r
  }

  /** The number of ticks before the first cancellation. */
  function TicksBeforeDone(events: seq<Event>): (t: nat)
    ensures t <= |events|
    ensures forall j :: 0 <= j < t ==> events[j] == Tick
    ensures t < |events| ==> events[t] == Done
    ensures t < |events| <==> Done in events
  {
    if events == [] then 0
    else if events[0] == Done then 0
    else
      assert events[0] == Tick;
      var rest := events[1..];
      var t := TicksBeforeDone(rest);
      assert forall j :: 0 < j <= t ==> events[j] == rest[j - 1];
      1 + t
  }

  // ----- Lemmas: the add phase -----

  /**
   * `k` deploy attempts append exactly `k` deploy calls, touch no outdated
   * app, and only append to the current apps: one fresh app per successful
   * attempt, so at most `k`, and exactly `k` when every attempt succeeded.
   */
  lemma {:induction false} DeployBatchTrace(s: State, k: nat)
    ensures var r := DeployBatch(s, k);
      && |r.calls| == |s.calls| + k
      && r.calls[..|s.calls|] == s.calls
      && (forall i :: |s.calls| <= i < |r.calls| ==> r.calls[i].Deploy?)
      && r.other == s.other
      && |s.current| <= |r.current| <= |s.current| + k
      && r.current[..|s.current|] == s.current
      && ((forall i :: |s.calls| <= i < |r.calls| ==> r.calls[i].ok) ==> |r.current| == |s.current| + k)
      && r.faults == s.faults && r.groupErrors == s.groupErrors
  {
    if k > 0 {
      DeployBatchTrace(s, k - 1);
      var s1 := DeployBatch(s, k - 1);
      var r := DeployBatch(s, k);
      assert r.calls == s1.calls + [Deploy(!s1.NextFails())];
      assert r.calls[..|s1.calls|] == s1.calls;
      assert r.current[..|s1.current|] == s1.current;
      if forall i :: |s.calls| <= i < |r.calls| ==> r.calls[i].ok {
        assert r.calls[|s1.calls|].ok;
        forall i | |s.calls| <= i < |s1.calls| ensures s1.calls[i].ok {
          assert r.calls[i] == s1.calls[i];
        }
      }
    }
  }

  lemma {:induction false} DeployBatchValid(s: State, k: nat)
    requires Valid(s)
    ensures Valid(DeployBatch(s, k))
  {
    if k > 0 {
      DeployBatchValid(s, k - 1);
      DeployAppValid(DeployBatch(s, k - 1));
    }
  }

  /**
   * A failed listing ends the add phase with that error, before any
   * deploy: the listing call is the only call made.
   */
  lemma AddPhaseListFailure(cfg: Config, s: State)
    requires s.NextFails()
    ensures AddPhase(cfg, s) == (s.(calls := s.calls + [List(false)]), Some(ListFailed))
  {
  }

  /**
   * After a successful listing the add phase makes exactly
   * `max(0, min(BatchSize, PoolSize - len(current)))` deploy calls, none
   * when the pool is full. It adds at most that many current apps, so a
   * pool at or below `PoolSize` is not pushed past it, and exactly that many
   * when every attempt succeeded. It can return an error only when it
   * launched some deploy.
   */
  lemma AddPhaseDeploys(cfg: Config, s: State)
    requires !s.NextFails()
    ensures var (r, err) := AddPhase(cfg, s);
      var k := Iterations(AddCount(cfg.batchSize, cfg.poolSize, |s.current|));
      && |r.calls| == |s.calls| + 1 + k
      && r.calls[..|s.calls| + 1] == s.calls + [List(true)]
      && (forall i :: |s.calls| < i < |r.calls| ==> r.calls[i].Deploy?)
      && (|s.current| >= cfg.poolSize ==> r.calls == s.calls + [List(true)])
      && (err.Some? ==> err == Some(DeployFailed) && k > 0)
      && r.other == s.other
      && r.current[..|s.current|] == s.current
      && |s.current| <= |r.current| <= |s.current| + k
      && (|s.current| <= cfg.poolSize ==> |r.current| <= cfg.poolSize)
      && (cfg.batchSize >= 0 ==> |r.current| <= |s.current| + cfg.batchSize)
      && ((forall i :: |s.calls| < i < |r.calls| ==> r.calls[i].ok) ==> |r.current| == |s.current| + k)
  {
    var (s1, listing) := ListApps(s);
    var k := Iterations(AddCount(cfg.batchSize, cfg.poolSize, |s.current|));
    DeployBatchTrace(s1, k);
    var r := DeployBatch(s1, k);
    assert r.calls[..|s1.calls|] == s1.calls;
    assert r.calls[..|s.calls| + 1] == s.calls + [List(true)];
    DeploysBounded(cfg.batchSize, cfg.poolSize, |s.current|);
    if |s.current| >= cfg.poolSize {
      assert r.calls == r.calls[..|s1.calls|];
    }
  }

  /**
   * The add phase's result is the group's, not a summary of its attempts:
   * it can return nil although a deploy attempt failed (here the only one).
   */
  lemma AddPhaseNilDespiteFailedDeploy()
    ensures var s := State([], [], 0, {1}, {}, []);
      var (r, err) := AddPhase(Config(1, 1), s);
      && err == None
      && r.calls == [List(true), Deploy(false)]
  {
    var s := State([], [], 0, {1}, {}, []);
    var s1 := ListApps(s).0;
    assert DeployBatch(s1, 1) == DeployApp(s1).0;
  }

  // ----- Lemmas: the remove phase -----

  /**
   * Deleting `apps` appends one delete call per app, for exactly those apps
   * in that order, and changes neither the id counter nor the fault script.
   */
  lemma {:induction false} DeleteAllTrace(s: State, apps: seq<AppId>)
    ensures |DeleteAll(s, apps).calls| == |s.calls| + |apps|
    ensures DeleteAll(s, apps).calls[..|s.calls|] == s.calls
    ensures forall i :: 0 <= i < |apps| ==>
      DeleteAll(s, apps).calls[|s.calls| + i] == Delete(apps[i], DeleteAll(s, apps).calls[|s.calls| + i].ok)
    ensures DeleteAll(s, apps).nextId == s.nextId && DeleteAll(s, apps).faults == s.faults
  {
    if apps != [] {
      var init := apps[..|apps| - 1];
      DeleteAllTrace(s, init);
      var s1 := DeleteAll(s, init);
      var r := DeleteAll(s, apps);
      assert r.calls == s1.calls + [Delete(apps[|apps| - 1], !s1.NextFails())];
      assert r.calls[..|s1.calls|] == s1.calls;
      forall i | 0 <= i < |apps|
        ensures r.calls[|s.calls| + i] == Delete(apps[i], r.calls[|s.calls| + i].ok)
      {
        if i < |init| {
          assert r.calls[|s.calls| + i] == s1.calls[|s.calls| + i];
          assert init[i] == apps[i];
        }
      }
    }
  }

  /** `xs` ends with `tail`. */
  predicate EndsWith(xs: seq<AppId>, tail: seq<AppId>) {
    |tail| <= |xs| && xs[|xs| - |tail|..] == tail
  }

  /**
   * Deleting apps that are not in `tail` leaves `tail` at the end of the
   * outdated apps, adds no app anywhere, and leaves current apps that are
   * not deleted where they were.
   */
  lemma {:induction false} DeleteAllKeepsRest(s: State, apps: seq<AppId>, tail: seq<AppId>)
    requires EndsWith(s.other, tail)
    requires forall a :: a in apps ==> a !in tail && a !in s.current
    ensures var r := DeleteAll(s, apps);
      && EndsWith(r.other, tail)
      && (forall y :: y in r.other ==> y in s.other)
      && r.current == s.current
  {
    if apps != [] {
      var init := apps[..|apps| - 1];
      var x := apps[|apps| - 1];
      DeleteAllKeepsRest(s, init, tail);
      var s1 := DeleteAll(s, init);
      if !s1.NextFails() {
        var head := s1.other[..|s1.other| - |tail|];
        assert s1.other == head + tail;
        WithoutAppend(head, tail, x);
        var o := Without(s1.other, x);
        assert o == Without(head, x) + tail;
        assert o[|o| - |tail|..] == tail;
      }
    }
  }

  lemma {:induction false} DeleteAllValid(s: State, apps: seq<AppId>)
    requires Valid(s)
    ensures Valid(DeleteAll(s, apps))
  {
    if apps != [] {
      DeleteAllValid(s, apps[..|apps| - 1]);
      DeleteAppValid(DeleteAll(s, apps[..|apps| - 1]), apps[|apps| - 1]);
    }
  }

  /**
   * A failed listing ends the remove phase with that error, before any
   * deletion.
   */
  lemma RemovePhaseListFailure(cfg: Config, s: State)
    requires cfg.batchSize >= 0
    requires s.NextFails()
    ensures RemovePhase(cfg, s) == (s.(calls := s.calls + [List(false)]), Some(ListFailed))
  {
  }

  /**
   * After a successful listing the remove phase deletes exactly the first
   * `min(BatchSize, len(other))` outdated apps, in listing order, each once;
   * the outdated apps after that prefix and all current apps are untouched,
   * and the phase returns nil whatever the deletions did.
   */
  lemma RemovePhaseDeletesPrefix(cfg: Config, s: State)
    requires cfg.batchSize >= 0
    requires Valid(s)
    requires !s.NextFails()
    ensures RemovePhase(cfg, s).1 == None
    ensures var n := RemoveCount(cfg.batchSize, |s.other|);
      && 0 <= n <= |s.other| && n <= cfg.batchSize
      && (n < cfg.batchSize ==> n == |s.other|)
    ensures var n := RemoveCount(cfg.batchSize, |s.other|);
      var calls := RemovePhase(cfg, s).0.calls;
      && |calls| == |s.calls| + 1 + n
      && calls[..|s.calls| + 1] == s.calls + [List(true)]
      && forall i :: 0 <= i < n ==> calls[|s.calls| + 1 + i] == Delete(s.other[i], calls[|s.calls| + 1 + i].ok)
    ensures RemovePhase(cfg, s).0.current == s.current
    ensures EndsWith(RemovePhase(cfg, s).0.other, s.other[RemoveCount(cfg.batchSize, |s.other|)..])
    ensures forall y :: y in RemovePhase(cfg, s).0.other ==> y in s.other
  {
    var (s1, listing) := ListApps(s);
    var n := RemoveCount(cfg.batchSize, |s.other|);
    var prefix := s.other[..n];
    var tail := s.other[n..];
    assert s1.other == prefix + tail;
    PrefixDisjoint(s.other, n);
    DeleteAllTrace(s1, prefix);
    DeleteAllKeepsRest(s1, prefix, tail);
    var r := DeleteAll(s1, prefix);
    assert forall i :: 0 <= i < n ==> prefix[i] == s.other[i];
    assert r.calls[..|s1.calls|] == s1.calls;
    assert r.calls[..|s.calls| + 1] == s.calls + [List(true)];
  }

  /** The apps of a prefix of a list without repeats do not recur after it. */
  lemma PrefixDisjoint(xs: seq<AppId>, n: nat)
    requires Distinct(xs)
    requires n <= |xs|
    ensures forall a :: a in xs[..n] ==> a !in xs[n..]
  {
  }

  // ----- Lemmas: the cycle and the scheduler -----

  /**
   * When the add phase returns an error the cycle ends there: no call after
   * it, and in particular no deletion.
   */
  lemma CycleAddFailureSkipsRemoval(cfg: Config, s: State)
    requires cfg.batchSize >= 0
    requires AddPhase(cfg, s).1.Some?
    ensures var r := Cycle(cfg, s);
      && r == AddPhase(cfg, s).0
      && forall i :: |s.calls| <= i < |r.calls| ==> !r.calls[i].Delete?
  {
    var (s1, listing) := ListApps(s);
    if listing.Some? {
      var k := Iterations(AddCount(cfg.batchSize, cfg.poolSize, |listing.value.current|));
      DeployBatchTrace(s1, k);
    }
  }

  /**
   * When the add phase returns nil the cycle goes on to the remove phase,
   * which lists the pool afresh rather than reusing the add phase's listing.
   */
  lemma CycleRemovesAfterAdd(cfg: Config, s: State)
    requires cfg.batchSize >= 0
    requires AddPhase(cfg, s).1.None?
    ensures var a := AddPhase(cfg, s).0;
      && Cycle(cfg, s) == RemovePhase(cfg, a).0
      && |a.calls| < |Cycle(cfg, s).calls|
      && Cycle(cfg, s).calls[|a.calls|] == List(!a.NextFails())
  {
    var a := AddPhase(cfg, s).0;
    var (s1, listing) := ListApps(a);
    if listing.Some? {
      var prefix := listing.value.other[..RemoveCount(cfg.batchSize, |listing.value.other|)];
      DeleteAllTrace(s1, prefix);
      var r := DeleteAll(s1, prefix);
      assert r.calls[|a.calls|] == r.calls[..|s1.calls|][|a.calls|];
    }
  }

  /** A cycle keeps the pool a partition with fresh ids. */
  lemma CycleValid(cfg: Config, s: State)
    requires cfg.batchSize >= 0
    requires Valid(s)
    ensures Valid(Cycle(cfg, s))
  {
    var (s1, listing) := ListApps(s);
    if listing.Some? {
      var k := Iterations(AddCount(cfg.batchSize, cfg.poolSize, |listing.value.current|));
      DeployBatchValid(s1, k);
      var (s2, err) := AddPhase(cfg, s);
      if err.None? {
        var (s3, l2) := ListApps(s2);
        if l2.Some? {
          DeleteAllValid(s3, l2.value.other[..RemoveCount(cfg.batchSize, |l2.value.other|)]);
        }
      }
    }
  }

  /** Any number of cycles, run one after another, keep the pool valid. */
  lemma {:induction false} CyclesValid(cfg: Config, s: State, k: nat)
    requires cfg.batchSize >= 0
    requires Valid(s)
    ensures Valid(Cycles(cfg, s, k))
  {
    if k > 0 {
      CyclesValid(cfg, s, k - 1);
      CycleValid(cfg, Cycles(cfg, s, k - 1));
    }
  }

  /**
   * The trace only grows from cycle to cycle: the calls of the first `j`
   * cycles are a prefix of the calls of the first `k`, and each cycle after
   * the `j`-th makes at least one call.
   */
  lemma {:induction false} CyclesExtendTrace(cfg: Config, s: State, j: nat, k: nat)
    requires cfg.batchSize >= 0
    requires j <= k
    ensures |Cycles(cfg, s, j).calls| + (k - j) <= |Cycles(cfg, s, k).calls|
    ensures Cycles(cfg, s, k).calls[..|Cycles(cfg, s, j).calls|] == Cycles(cfg, s, j).calls
  {
    if j < k {
      CyclesExtendTrace(cfg, s, j, k - 1);
      var p := Cycles(cfg, s, k - 1).calls;
      var r := Cycles(cfg, s, k).calls;
      var a := Cycles(cfg, s, j).calls;
      assert r[..|a|] == r[..|p|][..|a|];
    }
  }
}
