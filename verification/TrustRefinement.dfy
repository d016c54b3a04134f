/** A service's commit on the two files does what the commit step of the whole system says. */
module TrustRefinement {
  import opened Common
  import opened Faults
  import opened TrustTypes
  import opened TrustOps
  import opened TrustSerials
  import opened TrustStore
  import opened TrustSystem

  /** What the system sees of a commit: how it ended, whether it became visible, and whether the copy was renewed. */
  ghost function Seen(out: Reply, visible: bool): Fault {
    match out case Done => Answers case Crashed => Crashes(visible) case _ => Fails(visible)
  }

  /** The files stand for the system's latest snapshot. */
  ghost predicate Stands(store: FileStore, sys: System)
    reads store`state, store`anchor, store`witnessed
  {
    store.Guarded() && store.Intact() && store.Register() == Latest(sys)
  }

  /** A snapshot that may replace the service's copy. */
  predicate Consistent(cfg: Config, cache: Snapshot, loaded: Snapshot) {
    loaded.revision != 0 && loaded.identity == Some(cfg.identity) && loaded.revision >= cache.revision
  }

  lemma NextIsSuccessor(env: Env, cfg: Config, sys: System, id: nat)
    requires Inv(env, cfg, sys) && id in sys.work
    ensures var w := sys.work[id]; w.next.revision == w.base.revision + 1
  {
    hide HistoryInv, BoundInv, CachesAreCopies, StagesSettled, StagesCarry, SignInv, GrantInv, FreshInv, LogInv, IsCopy;
    hide Candidate, CarriesSerial, Announces;
    var w := sys.work[id];
    assert FromBase(env, cfg, w);
    CandidateFacts(env, cfg, w.base, w.request);
  }

  /** The commit step, by what the store did. */
  lemma StepOnFiles(env: Env, sys: System, id: nat, w: Work, out: Reply, visible: bool, reloaded: bool)
    requires w.service in sys.services && w.next.revision == w.base.revision + 1
    requires out.Done? ==> visible
    requires visible ==> sys.services[w.service].cache.revision == w.base.revision && Accepted(env, sys, w)
    ensures var after := CommitStep(env, sys, id, w, Seen(out, visible), reloaded);
            && after.history == (if visible then Grown(sys.history, w.next) else sys.history)
            && (!out.Crashed? ==>
                  && w.service in after.services
                  && after.services[w.service].cache ==
                     if out.Done? then w.next else if reloaded then Latest(after) else sys.services[w.service].cache)
            && (out.Crashed? ==> w.service !in after.services)
  {
    hide Accepted, Reserves, EdgeOf, DrainedBy;
  }

  /**
   * The service's commit: its copy must still be at the revision the operation started from; the store must accept; and
   * after a failure the copy is read again. For any faults of the files this is one commit step of the system: the
   * register and the service's copy are what that step says.
   */
  method CommitCandidate(store: FileStore, cfg: Config, cache: Snapshot, base: Snapshot, next: Snapshot,
                         ghost sys: System, ghost id: nat)
    returns (out: Reply, copy: Snapshot, ghost fault: Fault, ghost reloaded: bool)
    requires Inv(store.env, cfg, sys) && Stands(store, sys)
    requires id in sys.work && sys.work[id].base == base && sys.work[id].next == next
    requires sys.work[id].service in sys.services && sys.services[sys.work[id].service].cache == cache
    modifies store
    ensures out.Done? <==> fault.Answers?
    ensures out.Crashed? <==> fault.Crashes?
    ensures var w := sys.work[id];
            var after := CommitStep(store.env, sys, id, w, fault, reloaded);
            && Stands(store, after)
            && (!out.Crashed? ==> w.service in after.services && after.services[w.service].cache == copy)
            && (out.Crashed? ==> w.service !in after.services)
  {
    hide Inv, CommitStep, FileStore.Intact, FileStore.Guarded, ValidSnapshot, NotBelow;
    NextIsSuccessor(store.env, cfg, sys, id);
    ghost var w := sys.work[id];
    ghost var before := store.Register();
    ghost var visible := false;
    copy, reloaded := cache, false;
    if cache.revision != base.revision {
      out := Conflict;
    } else {
      out := store.Commit(base.revision, next);
      visible := store.Register() != before;
    }
    if out.Done? { copy := next; }
    if !out.Done? && !out.Crashed? {
      var loading, loaded := store.Load();
      if loading.Crashed? { out := Crashed; }
      if loading.Done? && Consistent(cfg, cache, loaded) { copy, reloaded := loaded, true; }
    }
    fault := Seen(out, visible);
    StepOnFiles(store.env, sys, id, w, out, visible, reloaded);
  }
}
