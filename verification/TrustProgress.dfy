/** Trust operations go through: nothing but a fault, another service, a full collection or a listed exception stops
    one. */
module TrustProgress {
  import opened Common
  import opened Faults
  import opened TrustTypes
  import opened TrustOps
  import opened TrustSerials
  import opened TrustValidity
  import opened TrustSystem

  /** One operation, begun and committed without anything in between. */
  ghost function Perform(env: Env, cfg: Config, sys: System, id: nat, service: nat, q: Request, issue: nat): System {
    Step(env, cfg, Step(env, cfg, sys, Begin(id, service, q, issue)), Commit(id, Answers, true))
  }

  /** The service is up to date and may ask for this. */
  ghost predicate MayPerform(env: Env, cfg: Config, sys: System, id: nat, service: nat, q: Request, issue: nat) {
    && Inv(env, cfg, sys)
    && service in sys.services && sys.services[service].cache == Latest(sys)
    && id !in sys.work && id !in sys.issuing
    && Permitted(cfg, sys, service, q, issue)
    && Candidate(env, cfg, Latest(sys), q).Some?
    && Latest(sys).revision < MAX_UINT64
  }

  lemma BegunWork(env: Env, cfg: Config, sys: System, id: nat, service: nat, q: Request, issue: nat)
    requires MayPerform(env, cfg, sys, id, service, q, issue)
    ensures Step(env, cfg, sys, Begin(id, service, q, issue)) ==
            sys.(work := sys.work[id := Work(service, Latest(sys), q, Candidate(env, cfg, Latest(sys), q).value)])
  {
    hide Inv, Candidate, Permitted;
  }

  lemma CommittedWork(env: Env, cfg: Config, sys: System, id: nat, w: Work)
    requires id in sys.work && sys.work[id] == w && w.service in sys.services
    requires sys.services[w.service].cache.revision == w.base.revision && Accepted(env, sys, w)
    ensures Step(env, cfg, sys, Commit(id, Answers, true)) == Confirmed(Applied(sys, w), id, w)
  {
    hide Accepted, Confirmed, Applied;
  }

  lemma PerformedIs(env: Env, cfg: Config, sys: System, id: nat, service: nat, q: Request, issue: nat, w: Work)
    requires MayPerform(env, cfg, sys, id, service, q, issue) && w.base == Latest(sys) && w.service == service
             && w.request == q
    requires Candidate(env, cfg, Latest(sys), q) == Some(w.next) && ValidSnapshot(env, w.next)
    ensures Perform(env, cfg, sys, id, service, q, issue) ==
            Confirmed(Applied(sys.(work := sys.work[id := w]), w), id, w)
  {
    hide Inv, Candidate, Permitted, ValidSnapshot, Step, Confirmed, Applied;
    BegunWork(env, cfg, sys, id, service, q, issue);
    CommittedWork(env, cfg, sys.(work := sys.work[id := w]), id, w);
  }

  lemma ConfirmedFacts(sys: System, id: nat, w: Work)
    requires w.service in sys.services
    ensures var after := Confirmed(Applied(sys, w), id, w);
            && after.history == Grown(sys.history, w.next)
            && w.service in after.services && after.services[w.service].cache == w.next == Latest(after)
            && after.log == sys.log + [w.request] && after.signed == sys.signed
            && (Reserves(w.request) && GrantOf(w.request).value in w.next.pending ==>
                  AboutToSign(after.issuing, id, w.next.pending[GrantOf(w.request).value].serial))
  {
  }

  /**
   * An up-to-date service's operation that the store can accept is committed: the store has the new snapshot, the
   * service knows it, and a reservation may be signed.
   */
  lemma AcceptableIsCommitted(env: Env, cfg: Config, sys: System, id: nat, service: nat, q: Request, issue: nat)
    requires MayPerform(env, cfg, sys, id, service, q, issue)
    requires ValidSnapshot(env, Candidate(env, cfg, Latest(sys), q).value)
    ensures var next := Candidate(env, cfg, Latest(sys), q).value;
            var after := Perform(env, cfg, sys, id, service, q, issue);
            && after.history == Grown(sys.history, next)
            && service in after.services && after.services[service].cache == next == Latest(after)
            && after.log == sys.log + [q]
            && after.signed == sys.signed
            && (Reserves(q) ==> AboutToSign(after.issuing, id, Latest(sys).nextSerial))
  {
    hide Inv, Candidate, Permitted, ValidSnapshot, Perform, Confirmed, Applied, AboutToSign, Consumes;
    var w := Work(service, Latest(sys), q, Candidate(env, cfg, Latest(sys), q).value);
    PerformedIs(env, cfg, sys, id, service, q, issue, w);
    ConfirmedFacts(sys.(work := sys.work[id := w]), id, w);
    if Reserves(q) { ReserveFacts(env, cfg, Latest(sys), q); }
  }

  /** A completion that is permitted in a reachable system has been checked against the authority there is now: the
      reservation has not changed since it was made, and neither has the authority it was made under. */
  lemma CompletionIsChecked(env: Env, cfg: Config, sys: System, service: nat, issue: nat, op: Operation, id: GrantID,
                            c: Certificate)
    requires CachesAreCopies(sys.history, sys.services) && StagesSettled(sys.history, sys.issuing)
             && StagesCarry(env, cfg, sys.issuing)
    requires service in sys.services && Completes(sys, service, issue, op, id, c)
    ensures var s := sys.services[service].cache;
            id in s.pending ==>
              && s.pending[id] == sys.issuing[issue].pending && s.pending[id].operation == op
              && Issued(cfg, s.activeCA, s.pending[id], c)
    ensures op == FederateOp ==>
              && sys.issuing[issue].edge.Some? && SoundEdge(env, cfg, sys.issuing[issue].edge.value)
              && sys.issuing[issue].pending.remote == Some(sys.issuing[issue].edge.value.remote)
  {
    var s := sys.services[service].cache;
    var stage := sys.issuing[issue];
    assert IsCopy(sys.history, s) && StageCarries(env, cfg, stage);
    assert Settled(sys.history, stage.pending, stage.parent);
    hide CachesAreCopies, StagesSettled, StagesCarry, SoundEdge;
    assert id in s.pending ==> sys.history[s.revision].pending[id] == stage.pending;
  }

  /** Whatever a ready service is permitted to do in a reachable system has been checked. */
  lemma PermittedIsChecked(env: Env, cfg: Config, sys: System, service: nat, q: Request, issue: nat)
    requires Inv(env, cfg, sys) && service in sys.services && Permitted(cfg, sys, service, q, issue)
    ensures Checked(env, cfg, sys.services[service].cache, q)
  {
    hide HistoryInv, BoundInv, CachesAreCopies, WorkFits, StagesSettled, StagesCarry, SignInv, GrantInv, FreshInv;
    hide LogInv;
    hide Issued, SoundEdge;
    match q
    case FinalizeCA(id, c, _, _) => CompletionIsChecked(env, cfg, sys, service, issue, InitializeCAOp, id, c);
    case FinalizeLeaf(id, c, _, _) => CompletionIsChecked(env, cfg, sys, service, issue, IssueOp, id, c);
    case FinalizeCross(id, c, _, _, _) => CompletionIsChecked(env, cfg, sys, service, issue, FederateOp, id, c);
    case _ =>
  }

  /** In every reachable system: what a permitted operation builds is valid if and only if the store is bound or bound
      now, the collections have room and no exception applies; a last generation is none of them. */
  lemma PermittedIsValid(env: Env, cfg: Config, actions: seq<Action>, service: nat, q: Request, issue: nat)
    requires service in Run(env, cfg, actions).services && Permitted(cfg, Run(env, cfg, actions), service, q, issue)
    requires Candidate(env, cfg, Run(env, cfg, actions).services[service].cache, q).Some?
    ensures var s := Run(env, cfg, actions).services[service].cache;
            ValidSnapshot(env, Candidate(env, cfg, s, q).value) <==>
            BoundFirst(env, cfg, s, q) && Room(s, q) && Untroubled(s, q)
  {
    hide Run, Inv, Candidate, ValidSnapshot, Checked, Room, Unexceptional, Untroubled, Permitted, BoundFirst;
    var sys := Run(env, cfg, actions);
    RunInv(env, cfg, actions);
    PermittedIsChecked(env, cfg, sys, service, q, issue);
    CacheIsSound(env, cfg, sys, service);
    ValidityPreservation(env, cfg, sys.services[service].cache, q);
    YoungIsUntroubled(env, cfg, sys.services[service].cache, q);
  }

  lemma CacheIsSound(env: Env, cfg: Config, sys: System, service: nat)
    requires Inv(env, cfg, sys) && service in sys.services
    ensures var s := sys.services[service].cache;
            && ValidSnapshot(env, s) && RelationshipsGranted(s) && AllYoung(s)
            && (s.revision > 0 ==> s.identity == Some(cfg.identity))
  {
    hide ValidSnapshot, CoveredSerials, RelationshipsGranted, AllYoung;
    hide WorkFits, StagesSettled, StagesCarry, SignInv, GrantInv, FreshInv, LogInv;
    var s := sys.services[service].cache;
    assert IsCopy(sys.history, s);
    assert SnapshotInv(env, sys.history[s.revision], s.revision);
  }

  /** With room in the collections and no exception, an undisturbed operation is committed. */
  lemma UndisturbedIsCommitted(env: Env, cfg: Config, sys: System, id: nat, service: nat, q: Request, issue: nat)
    requires MayPerform(env, cfg, sys, id, service, q, issue)
    requires BoundFirst(env, cfg, Latest(sys), q) && Room(Latest(sys), q) && Untroubled(Latest(sys), q)
    ensures var after := Perform(env, cfg, sys, id, service, q, issue);
            && Latest(after) == Candidate(env, cfg, Latest(sys), q).value
            && service in after.services && after.services[service].cache == Latest(after)
            && Inv(env, cfg, after)
  {
    hide Candidate, ValidSnapshot, Checked, Room, Unexceptional, Untroubled, Perform, Permitted, Inv, BoundFirst;
    PermittedIsChecked(env, cfg, sys, service, q, issue);
    CacheIsSound(env, cfg, sys, service);
    ValidityPreservation(env, cfg, Latest(sys), q);
    YoungIsUntroubled(env, cfg, Latest(sys), q);
    AcceptableIsCommitted(env, cfg, sys, id, service, q, issue);
    PerformKeepsInv(env, cfg, sys, id, service, q, issue);
  }

  lemma PerformKeepsInv(env: Env, cfg: Config, sys: System, id: nat, service: nat, q: Request, issue: nat)
    requires MayPerform(env, cfg, sys, id, service, q, issue)
    ensures Inv(env, cfg, Perform(env, cfg, sys, id, service, q, issue))
  {
    hide Inv, Step, Candidate, Permitted;
    var begun := Step(env, cfg, sys, Begin(id, service, q, issue));
    StepInv(env, cfg, sys, Begin(id, service, q, issue));
    StepInv(env, cfg, begun, Commit(id, Answers, true));
  }

  /** The completion of a reservation's own kind. */
  function Completion(stage: Stage, c: Certificate, call: nat, now: nat): Request {
    match stage.pending.operation
    case InitializeCAOp => FinalizeCA(stage.pending.id, c, call, now)
    case FederateOp =>
      if stage.edge.Some? then FinalizeCross(stage.pending.id, c, stage.edge.value, call, now) else Bind
    case _ => FinalizeLeaf(stage.pending.id, c, call, now)
  }

  function Signed(stage: Stage, c: Certificate): Stage {
    HasSigned(stage.service, stage.parent, stage.pending, stage.edge, Some(c))
  }

  lemma SignedIs(env: Env, cfg: Config, sys: System, issue: nat, c: Certificate)
    requires issue in sys.issuing && sys.issuing[issue].MaySign?
    requires Issued(cfg, sys.issuing[issue].parent, sys.issuing[issue].pending, c)
    ensures Step(env, cfg, sys, Sign(issue, Some(c))) ==
            sys.(issuing := sys.issuing[issue := Signed(sys.issuing[issue], c)],
                 signed := sys.signed + [sys.issuing[issue].pending.serial])
  {
    hide Issued;
  }

  lemma StageIsSound(env: Env, cfg: Config, sys: System, issue: nat)
    requires Inv(env, cfg, sys) && issue in sys.issuing
    ensures StageCarries(env, cfg, sys.issuing[issue])
  {
    hide HistoryInv, BoundInv, CachesAreCopies, WorkFits, StagesSettled, SignInv, GrantInv, FreshInv, LogInv;
    hide StageCarries;
  }

  lemma CompletionIsPermitted(env: Env, cfg: Config, sys: System, issue: nat, stage: Stage, c: Certificate,
                              call: nat, now: nat)
    requires issue in sys.issuing && sys.issuing[issue] == Signed(stage, c) && StageCarries(env, cfg, stage)
    requires stage.service in sys.services && sys.services[stage.service].ready
    requires Issued(cfg, stage.parent, stage.pending, c)
    ensures Permitted(cfg, sys, stage.service, Completion(stage, c, call, now), issue)
    ensures Permitted(cfg, sys, stage.service, Burn({stage.pending.id}, call, now), issue)
  {
    hide SoundEdge, SignedBy;
  }

  /** A reserved serial of any kind that is signed with a good answer may be completed as what it was reserved for, and
      may be burned instead; the completion has been checked. */
  lemma SignedMayComplete(env: Env, cfg: Config, sys: System, issue: nat, c: Certificate, call: nat, now: nat)
    requires Inv(env, cfg, sys)
    requires issue in sys.issuing && sys.issuing[issue].MaySign? && sys.issuing[issue].service in sys.services
    requires sys.services[sys.issuing[issue].service].ready
    requires Issued(cfg, sys.issuing[issue].parent, sys.issuing[issue].pending, c)
    ensures var after := Step(env, cfg, sys, Sign(issue, Some(c)));
            var stage := sys.issuing[issue];
            && after.signed == sys.signed + [stage.pending.serial]
            && after.history == sys.history && after.services == sys.services && Inv(env, cfg, after)
            && Permitted(cfg, after, stage.service, Completion(stage, c, call, now), issue)
            && Permitted(cfg, after, stage.service, Burn({stage.pending.id}, call, now), issue)
            && Checked(env, cfg, after.services[stage.service].cache, Completion(stage, c, call, now))
  {
    var stage := sys.issuing[issue];
    var after := Step(env, cfg, sys, Sign(issue, Some(c)));
    hide Inv, Step, Checked, Permitted, Completion, StageCarries, Issued;
    SignedIs(env, cfg, sys, issue, c);
    StageIsSound(env, cfg, sys, issue);
    StepInv(env, cfg, sys, Sign(issue, Some(c)));
    CompletionIsPermitted(env, cfg, after, issue, stage, c, call, now);
    PermittedIsChecked(env, cfg, after, stage.service, Completion(stage, c, call, now), issue);
  }

  lemma StartedIs(env: Env, cfg: Config, sys: System, service: nat)
    requires service !in sys.services
    ensures Step(env, cfg, sys, StartOpen(service)) ==
            sys.(services := sys.services[service := Service(false, Latest(sys))])
  {
    hide Candidate, Permitted, CommitStep;
  }

  lemma FinishedIs(env: Env, cfg: Config, sys: System, service: nat)
    requires service in sys.services && sys.services[service].cache.identity == Some(cfg.identity)
    requires sys.services[service].cache.pending == map[]
    ensures Step(env, cfg, sys, FinishOpen(service)) ==
            sys.(services := sys.services[service := sys.services[service].(ready := true)])
  {
    hide Candidate, Permitted, CommitStep;
  }

  /** What opening does on an empty store: it is bound, and the service is ready. */
  ghost function FirstOpened(env: Env, cfg: Config, sys: System, service: nat, id: nat): System {
    var started := Step(env, cfg, sys, StartOpen(service));
    Step(env, cfg, Perform(env, cfg, started, id, service, Bind, 0), FinishOpen(service))
  }

  lemma EmptyIsLatest(env: Env, cfg: Config, sys: System)
    requires Inv(env, cfg, sys) && Latest(sys).revision == 0
    ensures Latest(sys) == EMPTY
  {
    hide ValidContent, CoveredSerials, RelationshipsGranted, AllYoung;
    hide CachesAreCopies, WorkFits, StagesSettled, StagesCarry, SignInv, GrantInv, FreshInv, LogInv;
    assert SnapshotInv(env, sys.history[|sys.history| - 1], |sys.history| - 1);
  }

  /** A service that opens on an empty store binds it to its canonical identity and is ready and up to date. */
  lemma EmptyStoreOpens(env: Env, cfg: Config, sys: System, service: nat, id: nat)
    requires Inv(env, cfg, sys) && service !in sys.services && id !in sys.work && id !in sys.issuing
    requires Latest(sys).revision == 0 && env.canonical(cfg.identity)
    ensures var after := FirstOpened(env, cfg, sys, service, id);
            && service in after.services && after.services[service] == Service(true, Latest(after))
            && Latest(after) == EMPTY.(revision := 1, identity := Some(cfg.identity))
            && Inv(env, cfg, after)
  {
    hide Inv, Step, Perform;
    EmptyIsLatest(env, cfg, sys);
    StartedIs(env, cfg, sys, service);
    StepInv(env, cfg, sys, StartOpen(service));
    var started := Step(env, cfg, sys, StartOpen(service));
    assert Candidate(env, cfg, EMPTY, Bind) == Some(EMPTY.(revision := 1, identity := Some(cfg.identity)));
    assert Permitted(cfg, started, service, Bind, 0);
    hide Candidate, Permitted;
    UndisturbedIsCommitted(env, cfg, started, id, service, Bind, 0);
    var bound := Perform(env, cfg, started, id, service, Bind, 0);
    FinishedIs(env, cfg, bound, service);
    StepInv(env, cfg, bound, FinishOpen(service));
  }

  /** What opening does when uncertain serials are found: they are burned, and the service is ready. */
  ghost function Recovered(env: Env, cfg: Config, sys: System, service: nat, id: nat, burn: Request): System {
    var started := Step(env, cfg, sys, StartOpen(service));
    Step(env, cfg, Perform(env, cfg, started, id, service, burn, 0), FinishOpen(service))
  }

  /** A service that opens on uncertain serials burns exactly them and is ready, up to date and with nothing pending. */
  lemma RecoveryOpens(env: Env, cfg: Config, sys: System, service: nat, id: nat, call: nat, now: nat)
    requires Inv(env, cfg, sys) && service !in sys.services && id !in sys.work && id !in sys.issuing
    requires 0 < Latest(sys).revision < MAX_UINT64
    requires var burn := Burn(Latest(sys).pending.Keys, call, now);
             Candidate(env, cfg, Latest(sys), burn).Some? && Room(Latest(sys), burn)
    ensures var s := Latest(sys);
            var after := Recovered(env, cfg, sys, service, id, Burn(s.pending.Keys, call, now));
            && service in after.services && after.services[service] == Service(true, Latest(after))
            && Latest(after).identity == Some(cfg.identity) && Latest(after).pending == map[]
            && Latest(after).burned.Keys == s.burned.Keys + SerialsOf(s, s.pending.Keys)
            && Inv(env, cfg, after)
  {
    var s := Latest(sys);
    var burn := Burn(s.pending.Keys, call, now);
    hide Inv, BurnNext, Announces, SerialsOf, Room, ValidSnapshot, Step, Perform;
    BurnFacts(env, cfg, s, s.pending.Keys, call, now);
    StartedIs(env, cfg, sys, service);
    StepInv(env, cfg, sys, StartOpen(service));
    var started := Step(env, cfg, sys, StartOpen(service));
    CacheIsSound(env, cfg, started, service);
    assert Untroubled(s, burn) && Permitted(cfg, started, service, burn, 0);
    assert Candidate(env, cfg, s, burn) == BurnNext(env, cfg, s, s.pending.Keys, call, now);
    hide Candidate, Untroubled, Permitted;
    UndisturbedIsCommitted(env, cfg, started, id, service, burn, 0);
    var burned := Perform(env, cfg, started, id, service, burn, 0);
    assert burned.services[service].cache.pending == map[];
    FinishedIs(env, cfg, burned, service);
    StepInv(env, cfg, burned, FinishOpen(service));
  }

  /** What opening does: an empty store is bound, uncertain serials are burned, and then the service is ready. */
  ghost function Opened(env: Env, cfg: Config, sys: System, service: nat, id: nat, call: nat, now: nat): System {
    if Latest(sys).revision == 0 then FirstOpened(env, cfg, sys, service, id)
    else if Latest(sys).pending.Keys != {} then
      Recovered(env, cfg, sys, service, id, Burn(Latest(sys).pending.Keys, call, now))
    else Step(env, cfg, Step(env, cfg, sys, StartOpen(service)), FinishOpen(service))
  }

  /** An empty store needs a canonical identity, uncertain serials a revision, a publication and room to be burned. */
  ghost predicate MayOpen(env: Env, cfg: Config, s: Snapshot, call: nat, now: nat) {
    if s.revision == 0 then env.canonical(cfg.identity)
    else if s.pending.Keys != {} then
      var burn := Burn(s.pending.Keys, call, now);
      s.revision < MAX_UINT64 && Candidate(env, cfg, s, burn).Some? && Room(s, burn)
    else true
  }

  /** Whatever a run has left in the store, an undisturbed opening ends with a service that is ready and up to date, on
      a store that is its own, with nothing pending and exactly the uncertain serials burned. */
  lemma OpeningIsReady(env: Env, cfg: Config, actions: seq<Action>, service: nat, id: nat, call: nat, now: nat)
    requires var sys := Run(env, cfg, actions);
             && service !in sys.services && id !in sys.work && id !in sys.issuing
             && MayOpen(env, cfg, Latest(sys), call, now)
    ensures var s := Latest(Run(env, cfg, actions));
            var after := Opened(env, cfg, Run(env, cfg, actions), service, id, call, now);
            && service in after.services && after.services[service] == Service(true, Latest(after))
            && Latest(after).identity == Some(cfg.identity) && Latest(after).pending == map[]
            && Latest(after).burned.Keys == s.burned.Keys + SerialsOf(s, s.pending.Keys)
  {
    var sys := Run(env, cfg, actions);
    RunInv(env, cfg, actions);
    hide Run, Inv, Step, Candidate, Room, FirstOpened, Recovered;
    var after := Opened(env, cfg, sys, service, id, call, now);
    if Latest(sys).revision == 0 {
      EmptyIsLatest(env, cfg, sys);
      EmptyStoreOpens(env, cfg, sys, service, id);
    } else if Latest(sys).pending.Keys != {} {
      RecoveryOpens(env, cfg, sys, service, id, call, now);
    } else {
      SettledStoreOpens(env, cfg, sys, service);
    }
  }

  lemma SettledStoreOpens(env: Env, cfg: Config, sys: System, service: nat)
    requires Inv(env, cfg, sys) && service !in sys.services && Latest(sys).revision > 0
             && Latest(sys).pending.Keys == {}
    ensures var after := Step(env, cfg, Step(env, cfg, sys, StartOpen(service)), FinishOpen(service));
            && service in after.services && after.services[service] == Service(true, Latest(sys))
            && Latest(after) == Latest(sys) && Latest(sys).identity == Some(cfg.identity)
            && SerialsOf(Latest(sys), Latest(sys).pending.Keys) == {}
  {
    hide Inv, Step;
    StartedIs(env, cfg, sys, service);
    var started := Step(env, cfg, sys, StartOpen(service));
    StepInv(env, cfg, sys, StartOpen(service));
    CacheIsSound(env, cfg, started, service);
    FinishedIs(env, cfg, started, service);
  }
}
