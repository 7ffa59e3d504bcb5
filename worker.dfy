/**
 * The pool worker: the two reconciliation phases, the cycle that runs them,
 * and the scheduler loop, as methods that act on the remote platform one
 * call at a time. Each method is proved to leave the platform exactly as the
 * matching function of module Reconcile says.
 */
module Worker {
  import opened Remote
  import opened Capacity
  import opened Reconcile

  class Worker {
    const cfg: Config
    const platform: Platform

    constructor (cfg: Config, platform: Platform)
      ensures this.cfg == cfg && this.platform == platform
    {
      this.cfg := cfg;
      this.platform := platform;
    }

    /**
     * Tops the pool up: lists it, computes `n` without clamping it at zero,
     * makes one deploy attempt per iteration of `for j := 0; j < n`, and
     * returns what the group's `Run` returns.
     */
    method AddAppsToPool() returns (err: Option<Error>)
      modifies platform
      ensures (platform.View(), err) == AddPhase(cfg, old(platform.View()))
    {
      var listing := platform.List();
      if listing.None? {
        return Some(ListFailed);
      }
      ghost var listed := platform.View();
      var n := AddCount(cfg.batchSize, cfg.poolSize, |listing.value.current|);
      var j := 0;
      while j < n
        invariant 0 <= j <= Iterations(n)
        invariant platform.View() == DeployBatch(listed, j)
      {
        var _ := platform.Deploy();
        j := j + 1;
      }
      var failed := platform.RunGroup(j);
      err := if failed then Some(DeployFailed) else None;
    }

    /**
     * Retires outdated apps: lists the pool again and deletes the first `n`
     * outdated apps in listing order, ignoring what each deletion does.
     */
    method RemoveOutdatedApps() returns (err: Option<Error>)
      requires cfg.batchSize >= 0
      modifies platform
      ensures (platform.View(), err) == RemovePhase(cfg, old(platform.View()))
    {
      var listing := platform.List();
      if listing.None? {
        return Some(ListFailed);
      }
      ghost var listed := platform.View();
      var otherVersion := listing.value.other;
      var n := RemoveCount(cfg.batchSize, |otherVersion|);
      var batch := otherVersion[0..n];
      for k := 0 to |batch|
        invariant platform.View() == DeleteAll(listed, batch[..k])
      {
        platform.Delete(batch[k]);
        assert batch[..k + 1][..k] == batch[..k];
      }
      assert batch[..|batch|] == batch;
      return None;
    }

    /** One cycle: the remove phase runs only when the add phase returned nil. */
    method Work()
      requires cfg.batchSize >= 0
      modifies platform
      ensures platform.View() == Cycle(cfg, old(platform.View()))
    {
      var err := AddAppsToPool();
      if err.Some? {
        return;
      }
      err := RemoveOutdatedApps();
    }

    /**
     * Checks the template, runs one cycle at once, then one cycle per tick,
     * one at a time, until cancellation. The ticker and the context are the
     * sequence `events`; when it ends without `Done` the loop is still
     * waiting.
     */
    method Start(templateExists: bool, events: seq<Event>) returns (exit: Exit, cycles: nat)
      requires cfg.batchSize >= 0
      modifies platform
      ensures !templateExists ==>
        exit == TemplateMissing && cycles == 0 && platform.View() == old(platform.View())
      ensures templateExists ==>
        && cycles == 1 + TicksBeforeDone(events)
        && (exit == Cancelled <==> Done in events)
        && (exit == Waiting <==> Done !in events)
        && platform.View() == Cycles(cfg, old(platform.View()), cycles)
    {
      if !templateExists {
        return TemplateMissing, 0;
      }
      ghost var start := platform.View();
      Work();
      cycles := 1;
      var i := 0;
      while i < |events|
        invariant 0 <= i <= |events|
        invariant forall j :: 0 <= j < i ==> events[j] == Tick
        invariant cycles == 1 + i
        invariant platform.View() == Cycles(cfg, start, cycles)
      {
        match events[i]
        case Done =>
          return Cancelled, cycles;
        case Tick =>
          Work();
          cycles := cycles + 1;
          i := i + 1;
      }
      return Waiting, cycles;
    }
  }
}
