/** Several trust services on one store, in every interleaving and with crashes anywhere. */
module TrustSystem {
  import opened Common
  import opened Faults
  import opened PublicData
  import opened TrustTypes
  import opened TrustOps
  import opened TrustSerials

  /** The store's snapshots, by revision. */
  type History = h: seq<Snapshot> | |h| > 0 witness [EMPTY]

  function Grown(history: History, next: Snapshot): History {
    history + [next]
  }

  /** A service keeps a copy of the snapshot it last saw. While it opens, it may only bind and recover. */
  datatype Service = Service(ready: bool, cache: Snapshot)

  /** An operation between reading its service's copy and committing. */
  datatype Work = Work(service: nat, base: Snapshot, request: Request, next: Snapshot)

  /** An operation whose reservation was confirmed: before and after its one call of the signer. */
  datatype Stage =
    | MaySign(service: nat, parent: Option<Certificate>, pending: Pending, edge: Option<Edge>)
    | HasSigned(service: nat, parent: Option<Certificate>, pending: Pending, edge: Option<Edge>,
                certificate: Option<Certificate>)

  /**
   * The store's snapshots by revision, the services, and what their operations are at. `signed` lists the serials given
   * to the signer, `log` the operations that changed the store, `consumed` the grants they used, and `drained` is the
   * item published last.
   */
  datatype System = System(
    history: History,
    services: map<nat, Service>,
    work: map<nat, Work>,
    issuing: map<nat, Stage>,
    signed: seq<nat>,
    log: seq<Request>,
    consumed: seq<GrantID>,
    drained: Option<Publication>)

  /** One step of one service. `reloaded` says whether reading the store again after a failed commit succeeded. */
  datatype Action =
    | StartOpen(service: nat)
    | FinishOpen(service: nat)
    | Begin(id: nat, service: nat, request: Request, issue: nat)
    | Commit(id: nat, fault: Fault, reloaded: bool)
    | Sign(issue: nat, answer: Option<Certificate>)
    | Crash(service: nat)

  const INITIAL := System([EMPTY], map[], map[], map[], [], [], [], None)

  function Latest(sys: System): Snapshot
  {
    sys.history[|sys.history| - 1]
  }

  function Dropped(sys: System, service: nat): System {
    sys.(services := sys.services - {service},
         work := sys.work - (set w | w in sys.work && sys.work[w].service == service),
         issuing := sys.issuing - (set i | i in sys.issuing && sys.issuing[i].service == service))
  }

  /** What an operation may ask for: recovery while opening, and completion only of its own signed certificate. */
  predicate Permitted(cfg: Config, sys: System, service: nat, q: Request, issue: nat)
    requires service in sys.services
  {
    var svc := sys.services[service];
    if !svc.ready then
      q.Bind? || (q.Burn? && svc.cache.identity == Some(cfg.identity) && q.ids == svc.cache.pending.Keys)
    else
      match q
      case Bind => false
      case FinalizeCA(id, c, _, _) => Completes(sys, service, issue, InitializeCAOp, id, c)
      case FinalizeLeaf(id, c, _, _) => Completes(sys, service, issue, IssueOp, id, c)
      case FinalizeCross(id, c, e, _, _) =>
        Completes(sys, service, issue, FederateOp, id, c) && sys.issuing[issue].edge == Some(e)
      case Burn(ids, _, _) =>
        && issue in sys.issuing && sys.issuing[issue].HasSigned? && sys.issuing[issue].service == service
        && ids == {sys.issuing[issue].pending.id}
      case _ => true
  }

  /** The certificate is what this service's own signing call brought back, for a reservation of this kind. */
  predicate Completes(sys: System, service: nat, issue: nat, op: Operation, id: GrantID, c: Certificate) {
    && issue in sys.issuing && sys.issuing[issue].HasSigned? && sys.issuing[issue].service == service
    && sys.issuing[issue].pending.id == id && sys.issuing[issue].pending.operation == op
    && sys.issuing[issue].certificate == Some(c)
  }

  /** The store accepts: it is still where the operation started, and the new snapshot is valid. */
  ghost predicate Accepted(env: Env, sys: System, w: Work)
  {
    w.base.revision == Latest(sys).revision && w.base.revision < MAX_UINT64 && ValidSnapshot(env, w.next)
  }

  /** The new snapshot becomes visible. */
  function Applied(sys: System, w: Work): System {
    sys.(history := Grown(sys.history, w.next),
         log := sys.log + [w.request],
         consumed := if GrantOf(w.request).Some? then sys.consumed + [GrantOf(w.request).value] else sys.consumed,
         drained := DrainedBy(w, sys.drained))
  }

  /** The operation learns that it succeeded. */
  function Confirmed(sys: System, id: nat, w: Work): System
    requires w.service in sys.services
  {
    sys.(services := sys.services[w.service := sys.services[w.service].(cache := w.next)],
         work := sys.work - {id},
         issuing := if Reserves(w.request) && GrantOf(w.request).Some? && GrantOf(w.request).value in w.next.pending
           then sys.issuing[id := MaySign(w.service, w.base.activeCA, w.next.pending[GrantOf(w.request).value],
                                          EdgeOf(w.request))]
           else sys.issuing)
  }

  /** The operation learns that it failed, and its service tries to catch up. */
  function Refused(sys: System, id: nat, w: Work, reloaded: bool): System
    requires w.service in sys.services
  {
    sys.(services := if reloaded then sys.services[w.service := sys.services[w.service].(cache := Latest(sys))]
                     else sys.services,
         work := sys.work - {id})
  }

  ghost function CommitStep(env: Env, sys: System, id: nat, w: Work, fault: Fault, reloaded: bool): System
    requires w.service in sys.services
  {
    if sys.services[w.service].cache.revision != w.base.revision || !Accepted(env, sys, w) then
      if fault.Crashes? then Dropped(sys, w.service) else Refused(sys, id, w, reloaded)
    else
      match fault
      case Answers => Confirmed(Applied(sys, w), id, w)
      case Fails(applied) => Refused(if applied then Applied(sys, w) else sys, id, w, reloaded)
      case Crashes(applied) => Dropped(if applied then Applied(sys, w) else sys, w.service)
  }

  /** One step. Actions that do not fit the system leave it alone. */
  ghost function Step(env: Env, cfg: Config, sys: System, a: Action): System
  {
    match a
    case StartOpen(service) =>
      if service in sys.services then sys
      else sys.(services := sys.services[service := Service(false, Latest(sys))])
    case FinishOpen(service) =>
      if service !in sys.services then sys
      else
        var svc := sys.services[service];
        if svc.cache.identity != Some(cfg.identity) || svc.cache.pending.Keys != {} then sys
        else sys.(services := sys.services[service := svc.(ready := true)])
    case Begin(id, service, q, issue) =>
      if id in sys.work || id in sys.issuing || service !in sys.services || !Permitted(cfg, sys, service, q, issue)
         || Candidate(env, cfg, sys.services[service].cache, q).None? then sys
      else
        var base := sys.services[service].cache;
        sys.(work := sys.work[id := Work(service, base, q, Candidate(env, cfg, base, q).value)])
    case Commit(id, fault, reloaded) =>
      if id !in sys.work || sys.work[id].service !in sys.services then sys
      else CommitStep(env, sys, id, sys.work[id], fault, reloaded)
    case Sign(issue, answer) =>
      if issue !in sys.issuing || !sys.issuing[issue].MaySign? then sys
      else
        var stage := sys.issuing[issue];
        var good := answer.Some? && Issued(cfg, stage.parent, stage.pending, answer.value);
        var certificate := if good then answer else None;
        sys.(issuing := sys.issuing[issue := HasSigned(stage.service, stage.parent, stage.pending, stage.edge,
                                                       certificate)],
             signed := sys.signed + [stage.pending.serial])
    case Crash(service) => Dropped(sys, service)
  }

  // What every reachable system satisfies.

  /** One snapshot of the history. */
  ghost predicate SnapshotInv(env: Env, s: Snapshot, r: nat) {
    && s.revision == r
    && ValidSnapshot(env, s)
    && CoveredSerials(s)
    && (forall g, k :: g in s.pending && k in s.pending ==> g == k)
    && s.pending.Keys <= s.grants.Keys
    && RelationshipsGranted(s) && AllYoung(s)
  }

  /** From its first change on, the store belongs to the one identity. */
  ghost predicate BoundInv(cfg: Config, history: History) {
    forall r :: 0 < r < |history| ==> history[r].identity == Some(cfg.identity)
  }

  ghost predicate HistoryInv(env: Env, history: History) {
    && history[0] == EMPTY
    && (forall r :: 0 <= r < |history| ==> SnapshotInv(env, history[r], r))
    && (forall r :: 0 <= r < |history| ==> history[r].grants.Keys <= history[|history| - 1].grants.Keys)
  }

  /** A copy is the snapshot the store had at that revision. */
  ghost predicate IsCopy(history: History, s: Snapshot) {
    s.revision < |history| && history[s.revision] == s
  }

  /** The operation's next snapshot is what it makes of its base. */
  ghost predicate FromBase(env: Env, cfg: Config, w: Work) {
    CarriesSerial(w.base, w.request) && Candidate(env, cfg, w.base, w.request) == Some(w.next)
  }

  ghost predicate CachesAreCopies(history: History, services: map<nat, Service>) {
    forall k :: k in services ==> IsCopy(history, services[k].cache)
  }

  ghost predicate WorkFits(env: Env, cfg: Config, history: History, work: map<nat, Work>) {
    forall w :: w in work ==> IsCopy(history, work[w].base) && FromBase(env, cfg, work[w])
  }

  /** A reservation is what every snapshot says under its grant, and as long as it stands so does its authority. */
  ghost predicate Settled(history: History, p: Pending, parent: Option<Certificate>)
  {
    && p.id in history[|history| - 1].grants
    && p.serial < history[|history| - 1].nextSerial
    && (forall r :: 0 <= r < |history| && p.id in history[r].pending ==>
          history[r].pending[p.id] == p && (parent.Some? ==> history[r].activeCA == parent))
  }

  ghost predicate StagesSettled(history: History, issuing: map<nat, Stage>)
  {
    forall i :: i in issuing ==> Settled(history, issuing[i].pending, issuing[i].parent)
  }

  /** A stage has the authority and the checked edge its kind needs, and a certificate only as it was asked for. */
  predicate StageCarries(env: Env, cfg: Config, stage: Stage) {
    && (stage.HasSigned? && stage.certificate.Some? ==>
          Issued(cfg, stage.parent, stage.pending, stage.certificate.value))
    && (stage.pending.operation != InitializeCAOp ==> stage.parent.Some?)
    && (stage.pending.operation == FederateOp ==>
          stage.edge.Some? && SoundEdge(env, cfg, stage.edge.value)
          && stage.pending.remote == Some(stage.edge.value.remote))
  }

  ghost predicate StagesCarry(env: Env, cfg: Config, issuing: map<nat, Stage>) {
    forall i :: i in issuing ==> StageCarries(env, cfg, issuing[i])
  }

  predicate Distinct<T(==)>(s: seq<T>) {
    forall i, j :: 0 <= i < j < |s| ==> s[i] != s[j]
  }

  predicate AboutToSign(issuing: map<nat, Stage>, i: nat, n: nat) {
    i in issuing && issuing[i].MaySign? && issuing[i].pending.serial == n
  }

  /** Serials given to the signer, and those about to be, are all different and all taken. */
  ghost predicate SignInv(nextSerial: nat, issuing: map<nat, Stage>, signed: seq<nat>) {
    && Distinct(signed)
    && (forall i :: 0 <= i < |signed| ==> signed[i] < nextSerial)
    && (forall i, n :: AboutToSign(issuing, i, n) ==> n !in signed)
    && (forall i, j, n :: AboutToSign(issuing, i, n) && AboutToSign(issuing, j, n) ==> i == j)
  }

  ghost predicate GrantInv(used: set<GrantID>, consumed: seq<GrantID>) {
    Distinct(consumed) && forall i :: 0 <= i < |consumed| ==> consumed[i] in used
  }

  /** This publication is of the documents the builder made, in some call, of this snapshot's public view. */
  ghost predicate BuiltFrom(env: Env, cfg: Config, s: Snapshot, p: Publication) {
    exists call, now :: PublicationOf(env, cfg, s, call, now) == Some(p)
  }

  /** This publication was built from the public view of its revision, and what is public has not changed since. */
  ghost predicate UpToDate(env: Env, cfg: Config, history: History, p: Publication)
  {
    && 0 < p.stateRevision < |history|
    && history[p.stateRevision].outbox == map[p.id := p]
    && BuiltFrom(env, cfg, history[p.stateRevision], p)
    && SameView(history[p.stateRevision], history[|history| - 1])
  }

  ghost predicate FreshInv(env: Env, cfg: Config, history: History, drained: Option<Publication>)
  {
    var s := history[|history| - 1];
    && (forall d, e :: d in s.outbox && e in s.outbox ==> d == e)
    && (forall d :: d in s.outbox ==> s.outbox[d].id == d && UpToDate(env, cfg, history, s.outbox[d]))
    && (s.outbox.Keys == {} && drained.Some? ==> UpToDate(env, cfg, history, drained.value))
    && (|history| == 1 ==> drained.None?)
  }

  /** Every snapshot but the first is what its operation made of the one before. */
  ghost predicate LogInv(env: Env, cfg: Config, history: History, log: seq<Request>) {
    && |history| == |log| + 1
    && (forall r :: 0 <= r < |log| ==> StepFacts(env, cfg, history[r], log[r], history[r + 1]))
  }

  ghost predicate Inv(env: Env, cfg: Config, sys: System) {
    && HistoryInv(env, sys.history) && BoundInv(cfg, sys.history)
    && CachesAreCopies(sys.history, sys.services)
    && WorkFits(env, cfg, sys.history, sys.work)
    && StagesSettled(sys.history, sys.issuing)
    && StagesCarry(env, cfg, sys.issuing)
    && sys.issuing.Keys !! sys.work.Keys
    && SignInv(Latest(sys).nextSerial, sys.issuing, sys.signed)
    && GrantInv(Latest(sys).grants.Keys, sys.consumed)
    && FreshInv(env, cfg, sys.history, sys.drained)
    && LogInv(env, cfg, sys.history, sys.log)
  }

  lemma InitialInv(env: Env, cfg: Config)
    ensures Inv(env, cfg, INITIAL)
  {
    EmptyIsValid(env);
  }

  // A new snapshot in the history.

  /** What is known of a commit the store accepts. */
  ghost predicate Extends(env: Env, cfg: Config, history: History, w: Work) {
    && HistoryInv(env, history)
    && w.base == history[|history| - 1]
    && StepFacts(env, cfg, w.base, w.request, w.next)
    && ValidSnapshot(env, w.next)
    && CoveredSerials(w.next)
    && RelationshipsGranted(w.next) && AllYoung(w.next)
  }

  lemma AcceptedExtends(env: Env, cfg: Config, sys: System, w: Work)
    requires HistoryInv(env, sys.history) && IsCopy(sys.history, w.base) && FromBase(env, cfg, w)
    requires Accepted(env, sys, w)
    ensures Extends(env, cfg, sys.history, w)
  {
    hide AllYoung, RelationshipsGranted, ValidSnapshot, Candidate, StepFacts, CoveredSerials, CarriesSerial;
    assert SnapshotInv(env, Latest(sys), |sys.history| - 1);
    CandidateFacts(env, cfg, w.base, w.request);
    CoverageKept(env, cfg, w.base, w.request);
    RelationshipsStayGranted(env, cfg, w.base, w.request);
    YoungKept(env, cfg, w.base, w.request);
  }

  lemma HistoryGrows(env: Env, cfg: Config, history: History, w: Work)
    requires Extends(env, cfg, history, w)
    ensures HistoryInv(env, Grown(history, w.next))
  {
    hide AllYoung, RelationshipsGranted, ValidSnapshot, CoveredSerials, Announces;
    assert SnapshotInv(env, w.base, |history| - 1);
    assert SnapshotInv(env, w.next, |history|);
  }

  lemma BoundStays(env: Env, cfg: Config, history: History, w: Work)
    requires Extends(env, cfg, history, w) && BoundInv(cfg, history)
    ensures BoundInv(cfg, Grown(history, w.next))
  {
    hide AllYoung, RelationshipsGranted, CoveredSerials, Announces, ValidContent;
    assert SnapshotInv(env, w.base, |history| - 1);
    ValidHasIdentity(env, w.next);
    hide ValidSnapshot;
    assert |history| > 1 ==> w.base.identity == Some(cfg.identity);
  }

  lemma SettledStays(env: Env, cfg: Config, history: History, w: Work, p: Pending, parent: Option<Certificate>)
    requires Extends(env, cfg, history, w) && Settled(history, p, parent)
    ensures Settled(Grown(history, w.next), p, parent)
  {
    hide AllYoung, RelationshipsGranted, ValidSnapshot, CoveredSerials, Announces;
    var more := Grown(history, w.next);
    assert p.id in w.base.grants;
    forall r | 0 <= r < |more| && p.id in more[r].pending
      ensures more[r].pending[p.id] == p && (parent.Some? ==> more[r].activeCA == parent)
    {
      if r < |history| {
        assert more[r] == history[r];
      } else {
        assert p.id in w.base.pending && w.next.pending[p.id] == w.base.pending[p.id];
        assert history[|history| - 1] == w.base;
      }
    }
  }

  /** A new reservation is known nowhere before, and its serial is above all others. */
  lemma ReservationSettles(env: Env, cfg: Config, history: History, w: Work)
    requires Extends(env, cfg, history, w) && Reserves(w.request)
    ensures var g := GrantOf(w.request).value;
            && g in w.next.pending && w.next.pending[g].serial == w.base.nextSerial
            && Settled(Grown(history, w.next), w.next.pending[g], w.base.activeCA)
            && RightlyReserved(env, cfg, w.base, w.request, w.next.pending[g])
  {
    hide AllYoung, RelationshipsGranted, ValidSnapshot, CoveredSerials, Announces;
    var g := GrantOf(w.request).value;
    assert ReservesOnly(w.base, w.next, g);
    forall r | 0 <= r < |history|
      ensures g !in history[r].pending
    {
      assert SnapshotInv(env, history[r], r);
      assert history[r].grants.Keys <= w.base.grants.Keys;
    }
  }

  // Freshness of what is public.

  lemma SameViewTransitive(a: Snapshot, b: Snapshot, c: Snapshot)
    requires SameView(a, b) && SameView(b, c)
    ensures SameView(a, c)
  {
    hide View;
  }

  lemma UpToDateStays(env: Env, cfg: Config, history: History, next: Snapshot, p: Publication)
    requires UpToDate(env, cfg, history, p) && SameView(history[|history| - 1], next)
    ensures UpToDate(env, cfg, Grown(history, next), p)
  {
    SameViewTransitive(history[p.stateRevision], history[|history| - 1], next);
    hide SameView;
  }

  /** A publishing operation leaves exactly its own publication. */
  /** A publication carries the revision it is made for. */
  lemma PublicationRevision(env: Env, cfg: Config, s: Snapshot, call: nat, now: nat)
    requires PublicationOf(env, cfg, s, call, now).Some?
    ensures PublicationOf(env, cfg, s, call, now).value.stateRevision == s.revision
  {
    hide View, Publishable, Arrange;
  }

  lemma FreshAfterPublishing(env: Env, cfg: Config, history: History, next: Snapshot, call: nat, now: nat,
                             drained: Option<Publication>)
    requires Announces(env, cfg, next, call, now) && next.revision == |history| > 0
    ensures FreshInv(env, cfg, Grown(history, next), drained)
  {
    hide View, PublicationOf;
    PublicationRevision(env, cfg, next, call, now);
    var p := PublicationOf(env, cfg, next, call, now).value;
    assert BuiltFrom(env, cfg, next, p);
    hide BuiltFrom;
    assert Grown(history, next)[|history|] == next && p.id in next.outbox;
    assert UpToDate(env, cfg, Grown(history, next), p);
    hide UpToDate;
  }

  /** An operation that changes nothing public keeps what is waiting fresh, and what was published last. */
  lemma FreshAfterQuiet(env: Env, cfg: Config, history: History, next: Snapshot, drained: Option<Publication>)
    requires FreshInv(env, cfg, history, drained) && SameView(history[|history| - 1], next)
    requires next.outbox == history[|history| - 1].outbox
    ensures FreshInv(env, cfg, Grown(history, next), drained)
  {
    hide UpToDate, SameView;
    var s := history[|history| - 1];
    forall d | d in next.outbox
      ensures UpToDate(env, cfg, Grown(history, next), next.outbox[d])
    {
      UpToDateStays(env, cfg, history, next, s.outbox[d]);
    }
    if s.outbox.Keys == {} && drained.Some? { UpToDateStays(env, cfg, history, next, drained.value); }
  }

  /** Draining the one waiting item empties the outbox, and that item becomes the last published one. */
  lemma FreshAfterDrain(env: Env, cfg: Config, history: History, next: Snapshot, d: Digest,
                        drained: Option<Publication>)
    requires FreshInv(env, cfg, history, drained) && SameView(history[|history| - 1], next)
    requires var s := history[|history| - 1]; d in s.outbox && next.outbox == s.outbox - {s.outbox[d].id}
    ensures FreshInv(env, cfg, Grown(history, next), Some(history[|history| - 1].outbox[d]))
  {
    hide UpToDate, SameView;
    var s := history[|history| - 1];
    UpToDateStays(env, cfg, history, next, s.outbox[d]);
    assert next.outbox.Keys == {};
  }

  lemma ValidHasIdentity(env: Env, s: Snapshot)
    requires ValidSnapshot(env, s) && s.revision > 0
    ensures s.identity.Some?
  {
  }

  lemma BindIsSecond(env: Env, cfg: Config, history: History, w: Work, drained: Option<Publication>)
    requires Extends(env, cfg, history, w) && w.request.Bind? && FreshInv(env, cfg, history, drained)
    ensures FreshInv(env, cfg, Grown(history, w.next), drained)
  {
    hide AllYoung, RelationshipsGranted, ValidSnapshot, CoveredSerials, UpToDate;
    assert SnapshotInv(env, w.base, |history| - 1);
    assert w.base == EMPTY;
  }

  function DrainedBy(w: Work, drained: Option<Publication>): Option<Publication> {
    if w.request.Drain? && w.request.item in w.base.outbox then Some(w.base.outbox[w.request.item]) else drained
  }

  lemma FreshAppend(env: Env, cfg: Config, history: History, w: Work, drained: Option<Publication>)
    requires Extends(env, cfg, history, w) && FreshInv(env, cfg, history, drained)
    ensures FreshInv(env, cfg, Grown(history, w.next), DrainedBy(w, drained))
  {
    hide AllYoung, RelationshipsGranted, HistoryInv, CoveredSerials, FreshInv, LogInv, SameView;
    var q := w.request;
    assert w.next.identity.Some? && w.next.revision == |history| by {
      BaseIsLast(env, cfg, history, w);
      ValidHasIdentity(env, w.next);
    }
    hide ValidSnapshot;
    if Publishes(q) {
      FreshAfterPublishing(env, cfg, history, w.next, q.call, q.now, drained);
    } else if q.Bind? {
      BindIsSecond(env, cfg, history, w, drained);
    } else {
      ViewKept(env, cfg, w.base, q, w.next);
      if q.Drain? {
        FreshAfterDrain(env, cfg, history, w.next, q.item, drained);
      } else {
        FreshAfterQuiet(env, cfg, history, w.next, drained);
      }
    }
  }

  lemma BaseIsLast(env: Env, cfg: Config, history: History, w: Work)
    requires Extends(env, cfg, history, w)
    ensures w.next.revision == |history| > 0
  {
    hide AllYoung, RelationshipsGranted, ValidSnapshot, CoveredSerials;
    assert SnapshotInv(env, w.base, |history| - 1);
  }

  // Steps.

  lemma LatestIsCopy(env: Env, history: History)
    requires HistoryInv(env, history)
    ensures IsCopy(history, history[|history| - 1])
  {
    hide AllYoung, RelationshipsGranted, ValidSnapshot, CoveredSerials;
    assert SnapshotInv(env, history[|history| - 1], |history| - 1);
  }

  lemma CachesStay(history: History, services: map<nat, Service>, next: Snapshot)
    requires CachesAreCopies(history, services)
    ensures CachesAreCopies(Grown(history, next), services)
  {
  }

  lemma WorkStays(env: Env, cfg: Config, history: History, work: map<nat, Work>, next: Snapshot)
    requires WorkFits(env, cfg, history, work)
    ensures WorkFits(env, cfg, Grown(history, next), work)
  {
    hide FromBase;
  }

  lemma StagesStay(env: Env, cfg: Config, history: History, w: Work, issuing: map<nat, Stage>)
    requires Extends(env, cfg, history, w) && StagesSettled(history, issuing)
    ensures StagesSettled(Grown(history, w.next), issuing)
  {
    hide Extends, Settled;
    forall i | i in issuing
      ensures Settled(Grown(history, w.next), issuing[i].pending, issuing[i].parent)
    {
      SettledStays(env, cfg, history, w, issuing[i].pending, issuing[i].parent);
    }
  }

  lemma CountersGrow(env: Env, cfg: Config, history: History, w: Work)
    requires Extends(env, cfg, history, w)
    ensures w.base == history[|history| - 1]
    ensures w.base.nextSerial <= w.next.nextSerial
    ensures if GrantOf(w.request).Some? then Consumes(w.base, w.next, GrantOf(w.request).value)
            else w.next.grants == w.base.grants
  {
    hide AllYoung, RelationshipsGranted, ValidSnapshot, CoveredSerials, HistoryInv, Announces;
  }

  lemma SignsStay(issuing: map<nat, Stage>, signed: seq<nat>, before: nat, after: nat)
    requires SignInv(before, issuing, signed) && before <= after
    ensures SignInv(after, issuing, signed)
  {
    hide AboutToSign, Distinct;
  }

  /** A grant that changes the store was never used before. */
  lemma GrantsStay(s: Snapshot, t: Snapshot, consumed: seq<GrantID>, g: GrantID)
    requires GrantInv(s.grants.Keys, consumed) && Consumes(s, t, g)
    ensures GrantInv(t.grants.Keys, consumed + [g])
  {
  }

  /** What a visible commit keeps. */
  lemma AppliedInv(env: Env, cfg: Config, sys: System, w: Work)
    requires Inv(env, cfg, sys) && IsCopy(sys.history, w.base) && FromBase(env, cfg, w) && Accepted(env, sys, w)
    ensures Inv(env, cfg, Applied(sys, w)) && Extends(env, cfg, sys.history, w)
  {
    hide FromBase, Accepted, IsCopy, HistoryInv, BoundInv, CachesAreCopies, WorkFits, StagesSettled, StagesCarry;
    hide SignInv;
    hide GrantInv, FreshInv, LogInv;
    hide Extends, Consumes;
    AcceptedExtends(env, cfg, sys, w);
    HistoryGrows(env, cfg, sys.history, w);
    BoundStays(env, cfg, sys.history, w);
    CachesStay(sys.history, sys.services, w.next);
    WorkStays(env, cfg, sys.history, sys.work, w.next);
    StagesStay(env, cfg, sys.history, w, sys.issuing);
    CountersGrow(env, cfg, sys.history, w);
    SignsStay(sys.issuing, sys.signed, w.base.nextSerial, w.next.nextSerial);
    if GrantOf(w.request).Some? { GrantsStay(w.base, w.next, sys.consumed, GrantOf(w.request).value); }
    FreshAppend(env, cfg, sys.history, w, sys.drained);
    LogGrows(env, cfg, sys.history, w, sys.log);
  }

  lemma LogGrows(env: Env, cfg: Config, history: History, w: Work, log: seq<Request>)
    requires Extends(env, cfg, history, w) && LogInv(env, cfg, history, log)
    ensures LogInv(env, cfg, Grown(history, w.next), log + [w.request])
  {
    hide AllYoung, RelationshipsGranted, ValidSnapshot, CoveredSerials, HistoryInv, StepFacts;
    var more, entries := Grown(history, w.next), log + [w.request];
    forall r | 0 <= r < |entries|
      ensures StepFacts(env, cfg, more[r], entries[r], more[r + 1])
    {
      if r < |log| { assert StepFacts(env, cfg, history[r], log[r], history[r + 1]); }
    }
  }

  lemma SignsShrink(nextSerial: nat, issuing: map<nat, Stage>, fewer: map<nat, Stage>, signed: seq<nat>)
    requires SignInv(nextSerial, issuing, signed) && (forall i :: i in fewer ==> i in issuing && fewer[i] == issuing[i])
    ensures SignInv(nextSerial, fewer, signed)
  {
    hide Distinct;
    assert forall i, n :: AboutToSign(fewer, i, n) ==> AboutToSign(issuing, i, n);
  }

  lemma DroppedInv(env: Env, cfg: Config, sys: System, service: nat)
    requires Inv(env, cfg, sys)
    ensures Inv(env, cfg, Dropped(sys, service))
  {
    hide HistoryInv, BoundInv, FreshInv, LogInv, GrantInv, SignInv, FromBase, IsCopy, Settled, StageCarries;
    SignsShrink(Latest(sys).nextSerial, sys.issuing, Dropped(sys, service).issuing, sys.signed);
  }

  /** A service gets a snapshot of the history. */
  lemma CaughtUpInv(env: Env, cfg: Config, sys: System, service: nat, svc: Service)
    requires Inv(env, cfg, sys) && IsCopy(sys.history, svc.cache)
    ensures Inv(env, cfg, sys.(services := sys.services[service := svc]))
  {
    hide HistoryInv, BoundInv, FreshInv, LogInv, GrantInv, SignInv, WorkFits, IsCopy, StagesSettled, StagesCarry;
  }

  /** An operation is over. */
  lemma DoneInv(env: Env, cfg: Config, sys: System, id: nat)
    requires Inv(env, cfg, sys)
    ensures Inv(env, cfg, sys.(work := sys.work - {id}))
  {
    hide HistoryInv, BoundInv, FreshInv, LogInv, GrantInv, SignInv, CachesAreCopies, FromBase, IsCopy, StagesSettled;
    hide StagesCarry;
  }

  lemma RefusedInv(env: Env, cfg: Config, sys: System, id: nat, w: Work, reloaded: bool)
    requires Inv(env, cfg, sys) && w.service in sys.services
    ensures Inv(env, cfg, Refused(sys, id, w, reloaded))
  {
    hide HistoryInv, BoundInv, FreshInv, LogInv, GrantInv, SignInv, WorkFits, CachesAreCopies, IsCopy, StagesSettled;
    hide StagesCarry;
    LatestIsCopy(env, sys.history);
    hide Inv;
    var caught := sys.(services := sys.services[w.service := sys.services[w.service].(cache := Latest(sys))]);
    CaughtUpInv(env, cfg, sys, w.service, sys.services[w.service].(cache := Latest(sys)));
    DoneInv(env, cfg, caught, id);
    DoneInv(env, cfg, sys, id);
  }

  /** A stage changes or is added. */
  lemma StageInv(env: Env, cfg: Config, sys: System, i: nat, stage: Stage, signed: seq<nat>)
    requires Inv(env, cfg, sys) && i !in sys.work && Settled(sys.history, stage.pending, stage.parent)
             && StageCarries(env, cfg, stage)
    requires SignInv(Latest(sys).nextSerial, sys.issuing[i := stage], signed)
    ensures Inv(env, cfg, sys.(issuing := sys.issuing[i := stage], signed := signed))
  {
    hide HistoryInv, BoundInv, FreshInv, LogInv, GrantInv, SignInv, WorkFits, CachesAreCopies, Settled, StageCarries;
  }

  /** A new reservation has a serial above all others. */
  lemma SignsOneMore(issuing: map<nat, Stage>, signed: seq<nat>, before: nat, after: nat, i: nat, stage: Stage)
    requires SignInv(before, issuing, signed) && i !in issuing && before <= stage.pending.serial < after
    requires forall k :: k in issuing ==> issuing[k].pending.serial < before
    ensures SignInv(after, issuing[i := stage], signed)
  {
    hide Distinct;
    var more := issuing[i := stage];
    assert forall k, n :: AboutToSign(more, k, n) ==>
           (k == i && n == stage.pending.serial) || (k != i && AboutToSign(issuing, k, n));
  }

  /** A signing call uses its serial up. */
  lemma SignsOnce(nextSerial: nat, issuing: map<nat, Stage>, signed: seq<nat>, i: nat, stage: Stage)
    requires SignInv(nextSerial, issuing, signed) && AboutToSign(issuing, i, stage.pending.serial) && stage.HasSigned?
    requires stage.pending.serial < nextSerial
    ensures SignInv(nextSerial, issuing[i := stage], signed + [stage.pending.serial])
  {
    var more := issuing[i := stage];
    assert forall k, n :: AboutToSign(more, k, n) ==> k != i && AboutToSign(issuing, k, n);
  }

  lemma SettledBelow(history: History, issuing: map<nat, Stage>)
    requires StagesSettled(history, issuing)
    ensures forall k :: k in issuing ==> issuing[k].pending.serial < history[|history| - 1].nextSerial
  {
  }

  lemma ConfirmedInv(env: Env, cfg: Config, sys: System, id: nat, w: Work)
    requires Inv(env, cfg, sys) && id in sys.work && sys.work[id] == w && w.service in sys.services
    requires Accepted(env, sys, w)
    ensures Inv(env, cfg, Confirmed(Applied(sys, w), id, w))
  {
    hide Accepted, HistoryInv, BoundInv, FreshInv, LogInv, GrantInv, SignInv, CachesAreCopies, FromBase, IsCopy;
    hide StagesSettled, StagesCarry, Extends;
    var after := Applied(sys, w);
    AppliedInv(env, cfg, sys, w);
    LatestIsCopy(env, after.history);
    var svc := sys.services[w.service].(cache := w.next);
    var caught := after.(services := after.services[w.service := svc]);
    var done := caught.(work := after.work - {id});
    assert id !in after.issuing;
    SettledBelow(sys.history, sys.issuing);
    hide Inv;
    CaughtUpInv(env, cfg, after, w.service, svc);
    DoneInv(env, cfg, caught, id);
    if Reserves(w.request) {
      ReservationSettles(env, cfg, sys.history, w);
      CountersGrow(env, cfg, sys.history, w);
      ReservedInv(env, cfg, sys, done, id, w);
    }
  }

  lemma NewStageCarries(env: Env, cfg: Config, w: Work)
    requires Reserves(w.request) && GrantOf(w.request).value in w.next.pending
    requires RightlyReserved(env, cfg, w.base, w.request, w.next.pending[GrantOf(w.request).value])
    ensures StageCarries(env, cfg,
                         MaySign(w.service, w.base.activeCA, w.next.pending[GrantOf(w.request).value],
                                 EdgeOf(w.request)))
  {
    hide SoundEdge;
  }

  lemma ReservedInv(env: Env, cfg: Config, sys: System, done: System, id: nat, w: Work)
    requires Inv(env, cfg, sys) && Inv(env, cfg, done) && Extends(env, cfg, sys.history, w) && Reserves(w.request)
    requires done.history == Grown(sys.history, w.next) && done.issuing == sys.issuing && done.signed == sys.signed
    requires id !in done.work && id !in done.issuing
    ensures var g := GrantOf(w.request).value;
            && g in w.next.pending
            && Inv(env, cfg,
                   done.(issuing := done.issuing[id := MaySign(w.service, w.base.activeCA, w.next.pending[g],
                                                               EdgeOf(w.request))]))
  {
    hide HistoryInv, BoundInv, FreshInv, LogInv, GrantInv, SignInv, CachesAreCopies, WorkFits, StagesSettled;
    hide StagesCarry;
    hide Settled, StageCarries, RightlyReserved, EdgeOf;
    ReservationSettles(env, cfg, sys.history, w);
    NewStageCarries(env, cfg, w);
    CountersGrow(env, cfg, sys.history, w);
    SettledBelow(sys.history, sys.issuing);
    hide Extends;
    var p := w.next.pending[GrantOf(w.request).value];
    var stage := MaySign(w.service, w.base.activeCA, p, EdgeOf(w.request));
    assert p.serial < w.next.nextSerial by { SettledSerial(done.history, p, w.base.activeCA); }
    SignsOneMore(sys.issuing, sys.signed, w.base.nextSerial, w.next.nextSerial, id, stage);
    hide Inv;
    StageInv(env, cfg, done, id, stage, done.signed);
  }

  lemma SettledSerial(history: History, p: Pending, parent: Option<Certificate>)
    requires Settled(history, p, parent)
    ensures p.serial < history[|history| - 1].nextSerial
  {
  }

  lemma CommitInv(env: Env, cfg: Config, sys: System, id: nat, fault: Fault, reloaded: bool)
    requires Inv(env, cfg, sys) && id in sys.work && sys.work[id].service in sys.services
    ensures Inv(env, cfg, CommitStep(env, sys, id, sys.work[id], fault, reloaded))
  {
    hide HistoryInv, BoundInv, FreshInv, LogInv, GrantInv, SignInv, CachesAreCopies, FromBase, IsCopy, StagesSettled;
    hide StagesCarry, Accepted;
    var w := sys.work[id];
    assert IsCopy(sys.history, w.base) && FromBase(env, cfg, w);
    hide Inv, Dropped, Refused, Applied, Confirmed;
    if sys.services[w.service].cache.revision != w.base.revision || !Accepted(env, sys, w) {
      DroppedInv(env, cfg, sys, w.service);
      RefusedInv(env, cfg, sys, id, w, reloaded);
    } else {
      AppliedInv(env, cfg, sys, w);
      AppliedKeepsServices(sys, w);
      var after := if fault.Answers? || fault.applied then Applied(sys, w) else sys;
      match fault
      case Answers => ConfirmedInv(env, cfg, sys, id, w);
      case Fails(applied) => RefusedInv(env, cfg, after, id, w, reloaded);
      case Crashes(applied) => DroppedInv(env, cfg, after, w.service);
    }
  }

  lemma AppliedKeepsServices(sys: System, w: Work)
    ensures Applied(sys, w).services == sys.services
  {
  }

  /** An operation that may begin carries the serial reserved for it. */
  lemma BegunCarries(env: Env, cfg: Config, sys: System, service: nat, q: Request, issue: nat)
    requires service in sys.services && Permitted(cfg, sys, service, q, issue)
    requires IsCopy(sys.history, sys.services[service].cache) && StagesSettled(sys.history, sys.issuing)
    requires StagesCarry(env, cfg, sys.issuing)
    ensures CarriesSerial(sys.services[service].cache, q)
  {
    if q.FinalizeCA? || q.FinalizeLeaf? {
      assert StageCarries(env, cfg, sys.issuing[issue]);
      assert Settled(sys.history, sys.issuing[issue].pending, sys.issuing[issue].parent);
    }
  }

  lemma BeginInv(env: Env, cfg: Config, sys: System, a: Action)
    requires Inv(env, cfg, sys) && a.Begin?
    ensures Inv(env, cfg, Step(env, cfg, sys, a))
  {
    hide HistoryInv, BoundInv, FreshInv, LogInv, GrantInv, SignInv, IsCopy, StagesSettled, StagesCarry, Candidate;
    hide Permitted, CarriesSerial;
    if a.service in sys.services && Permitted(cfg, sys, a.service, a.request, a.issue) {
      BegunCarries(env, cfg, sys, a.service, a.request, a.issue);
    }
  }

  lemma SignStepInv(env: Env, cfg: Config, sys: System, a: Action)
    requires Inv(env, cfg, sys) && a.Sign?
    ensures Inv(env, cfg, Step(env, cfg, sys, a))
  {
    hide HistoryInv, BoundInv, FreshInv, LogInv, GrantInv, SignInv, CachesAreCopies, WorkFits, Settled;
    if a.issue in sys.issuing && sys.issuing[a.issue].MaySign? {
      var before := sys.issuing[a.issue];
      var good := a.answer.Some? && Issued(cfg, before.parent, before.pending, a.answer.value);
      var certificate := if good then a.answer else None;
      var stage := HasSigned(before.service, before.parent, before.pending, before.edge, certificate);
      SettledSerial(sys.history, before.pending, before.parent);
      SignsOnce(Latest(sys).nextSerial, sys.issuing, sys.signed, a.issue, stage);
      StageInv(env, cfg, sys, a.issue, stage, sys.signed + [stage.pending.serial]);
    }
  }

  /** Every step keeps the invariant. */
  lemma StepInv(env: Env, cfg: Config, sys: System, a: Action)
    requires Inv(env, cfg, sys)
    ensures Inv(env, cfg, Step(env, cfg, sys, a))
  {
    hide HistoryInv, BoundInv, FreshInv, LogInv, GrantInv, SignInv, WorkFits, StagesSettled, StagesCarry, IsCopy;
    hide Candidate, Permitted, CommitStep;
    LatestIsCopy(env, sys.history);
    match a
    case StartOpen(service) => CaughtUpInv(env, cfg, sys, service, Service(false, Latest(sys)));
    case FinishOpen(service) =>
      if service in sys.services { CaughtUpInv(env, cfg, sys, service, sys.services[service].(ready := true)); }
    case Begin(_, _, _, _) => BeginInv(env, cfg, sys, a);
    case Commit(id, fault, reloaded) =>
      if id in sys.work && sys.work[id].service in sys.services { CommitInv(env, cfg, sys, id, fault, reloaded); }
    case Sign(_, _) => SignStepInv(env, cfg, sys, a);
    case Crash(service) => DroppedInv(env, cfg, sys, service);
  }

  // Whole runs.

  /** Everything that can happen from an empty store. */
  ghost function Run(env: Env, cfg: Config, actions: seq<Action>): System {
    if actions == [] then INITIAL
    else Step(env, cfg, Run(env, cfg, actions[..|actions| - 1]), actions[|actions| - 1])
  }

  lemma {:induction false} RunInv(env: Env, cfg: Config, actions: seq<Action>)
    ensures Inv(env, cfg, Run(env, cfg, actions))
  {
    hide Inv, Step;
    if actions == [] {
      InitialInv(env, cfg);
    } else {
      RunInv(env, cfg, actions[..|actions| - 1]);
      StepInv(env, cfg, Run(env, cfg, actions[..|actions| - 1]), actions[|actions| - 1]);
    }
  }

  /** Exactly one place of the snapshot holds this serial. */
  ghost predicate HeldOnce(s: Snapshot, n: nat) {
    exists h :: Holds(s, h, n) && forall k :: Holds(s, k, n) ==> k == h
  }

  lemma NothingHeld(h: Holder, n: nat)
    ensures !Holds(EMPTY, h, n)
  {
  }

  lemma HeldIsPositive(env: Env, s: Snapshot, h: Holder, n: nat)
    requires ValidContent(env, s) && Holds(s, h, n)
    ensures n >= 1
  {
    hide ValidRelationships, ValidPublished, ValidOutbox, ValidBundles, ValidGrants, DisjointSerials;
    match h
    case TheCA =>
    case IssuedLeaf(c) => assert ValidLeaf(s, c, s.certificates[c]);
    case Reserved(g) => assert ValidPending(env, g, s.pending[g]);
    case Burned(b) =>
    case Cross(d) => assert ValidFederation(env, s, d, s.federations[d]);
    case RetiredCross(c) => assert ValidRevocation(env, s, c, s.revocations[c]);
  }

  /** In every snapshot the numbers from 1 up to the next serial split exactly among their holders. */
  lemma SnapshotConserves(env: Env, s: Snapshot, n: nat)
    requires ValidSnapshot(env, s) && CoveredSerials(s)
    ensures HeldOnce(s, n) <==> 1 <= n < s.nextSerial
    ensures Held(s, n) <==> HeldOnce(s, n)
  {
    hide ValidContent;
    if s.revision == 0 {
      forall h
        ensures !Holds(s, h, n)
      {
        NothingHeld(h, n);
      }
    } else {
      assert DisjointSerials(s) by { ValidIsDisjoint(env, s); }
      if Held(s, n) {
        var h :| Holds(s, h, n);
        HeldIsPositive(env, s, h, n);
      }
      hide Holds;
    }
  }

  lemma ValidIsDisjoint(env: Env, s: Snapshot)
    requires ValidContent(env, s)
    ensures DisjointSerials(s)
  {
    hide DisjointSerials;
  }

  /** Serial conservation: over every run, in every snapshot the store ever had, no serial is lost or held twice, and at
      most one is reserved. */
  lemma SerialConservation(env: Env, cfg: Config, actions: seq<Action>, r: nat, n: nat)
    requires r < |Run(env, cfg, actions).history|
    ensures var s := Run(env, cfg, actions).history[r];
            && (HeldOnce(s, n) <==> 1 <= n < s.nextSerial) && (Held(s, n) <==> HeldOnce(s, n))
            && (forall g, k :: g in s.pending && k in s.pending ==> g == k)
  {
    hide Run, ValidSnapshot, CoveredSerials, HeldOnce, Held;
    RunInv(env, cfg, actions);
    var s := Run(env, cfg, actions).history[r];
    assert SnapshotInv(env, s, r) by {
      hide CachesAreCopies, WorkFits, StagesSettled, StagesCarry, SignInv, GrantInv, FreshInv, LogInv;
    }
    hide Inv;
    SnapshotConserves(env, s, n);
  }

  /** No two signing calls ever use the same serial. */
  lemma SerialsAreSignedOnce(env: Env, cfg: Config, actions: seq<Action>)
    ensures Distinct(Run(env, cfg, actions).signed)
  {
    RunInv(env, cfg, actions);
    hide Run, Distinct, HistoryInv, BoundInv, CachesAreCopies, WorkFits, StagesSettled, StagesCarry, GrantInv, FreshInv;
    hide LogInv;
  }

  /** No grant changes the store twice. */
  lemma GrantsAreConsumedOnce(env: Env, cfg: Config, actions: seq<Action>)
    ensures Distinct(Run(env, cfg, actions).consumed)
  {
    RunInv(env, cfg, actions);
    hide Run, Distinct, HistoryInv, BoundInv, CachesAreCopies, WorkFits, StagesSettled, StagesCarry, SignInv, FreshInv;
    hide LogInv;
  }

  /** A service's copy is always what the store had at that revision, and so is what any operation started from. */
  lemma CopiesAreDurable(env: Env, cfg: Config, actions: seq<Action>)
    ensures var sys := Run(env, cfg, actions);
            && CachesAreCopies(sys.history, sys.services)
            && (forall w :: w in sys.work ==> IsCopy(sys.history, sys.work[w].base))
  {
    RunInv(env, cfg, actions);
    hide Run, HistoryInv, IsCopy, FromBase, CachesAreCopies, StagesSettled, StagesCarry, SignInv, GrantInv;
    hide FreshInv, LogInv;
  }

  /** Once there is an authority it stays, over every run. */
  lemma {:induction false} AuthorityStays(env: Env, cfg: Config, actions: seq<Action>, i: nat, j: nat)
    requires i <= j < |Run(env, cfg, actions).history| && Run(env, cfg, actions).history[i].activeCA.Some?
    ensures Run(env, cfg, actions).history[j].activeCA == Run(env, cfg, actions).history[i].activeCA
    decreases j
  {
    hide Run, HistoryInv, BoundInv, CachesAreCopies, WorkFits, StagesSettled, StagesCarry, SignInv, GrantInv, FreshInv;
    hide Announces;
    if i < j {
      AuthorityStays(env, cfg, actions, i, j - 1);
      RunInv(env, cfg, actions);
      var sys := Run(env, cfg, actions);
      assert StepFacts(env, cfg, sys.history[j - 1], sys.log[j - 1], sys.history[(j - 1) + 1]);
    }
  }

  /** Every commit that is not the first binding, a reservation or a drain leaves exactly one item: its own
      publication. */
  lemma CommitsAnnounceThemselves(env: Env, cfg: Config, actions: seq<Action>, r: nat)
    requires r < |Run(env, cfg, actions).log| && Publishes(Run(env, cfg, actions).log[r])
    ensures var sys := Run(env, cfg, actions);
            && r + 1 < |sys.history|
            && Announces(env, cfg, sys.history[r + 1], sys.log[r].call, sys.log[r].now)
  {
    hide Run, HistoryInv, WorkFits, CachesAreCopies, StagesSettled, StagesCarry, SignInv, GrantInv, FreshInv, Announces;
    RunInv(env, cfg, actions);
    var sys := Run(env, cfg, actions);
    assert StepFacts(env, cfg, sys.history[r], sys.log[r], sys.history[r + 1]);
  }

  /** The outbox holds at most one item; it, or with an empty outbox the item published last, shows what is
      public now. */
  lemma OutboxIsFresh(env: Env, cfg: Config, actions: seq<Action>)
    ensures var sys := Run(env, cfg, actions);
            && (forall d, e :: d in Latest(sys).outbox && e in Latest(sys).outbox ==> d == e)
            && (forall d :: d in Latest(sys).outbox ==> UpToDate(env, cfg, sys.history, Latest(sys).outbox[d]))
            && (Latest(sys).outbox.Keys == {} && sys.drained.Some? ==>
                  UpToDate(env, cfg, sys.history, sys.drained.value))
  {
    RunInv(env, cfg, actions);
    hide Run, HistoryInv, UpToDate, WorkFits, CachesAreCopies, StagesSettled, StagesCarry, SignInv, GrantInv;
  }
}
