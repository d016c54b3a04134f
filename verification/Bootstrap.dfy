/** The bootstrap coordinator: a nine-step transaction that resumes after every failure and crash. */
module Bootstrap {
  import opened Common
  import opened Faults
  import opened BootstrapJournal

  /** The durable journal: one document, replaced atomically and only by its successor. */
  class JournalStore {
    const forms: Forms
    const faults: nat -> Fault
    var calls: nat
    var durable: Option<Journal>
    ghost var history: seq<Journal>
    /** For every journal of the history, the checks answered by then in the call that saved it. */
    ghost var proofs: seq<Span>

    constructor (forms: Forms, faults: nat -> Fault)
      ensures this.forms == forms && this.faults == faults && calls == 0
      ensures durable == None && history == [] && proofs == []
    {
      this.forms, this.faults := forms, faults;
      calls, durable, history, proofs := 0, None, [], [];
    }

    ghost predicate Quiet()
      reads this`calls
    {
      forall n :: calls <= n ==> faults(n) == Answers
    }

    /** The history is good and ends with what is durable. */
    ghost predicate Sound()
      reads this`durable, this`history
    {
      && GoodHistory(forms, history)
      && (durable.None? <==> history == [])
      && (history != [] ==> durable == Some(history[|history| - 1]))
    }

    /** The journal to save is valid and the successor of the durable one. */
    ghost predicate Ready(expected: nat, next: Journal)
      reads this`durable
    {
      && ValidJournal(forms, next) && next.revision == expected + 1
      && expected == if durable.None? then 0 else durable.value.revision
    }

    method Load() returns (out: Outcome, journal: Option<Journal>)
      modifies this`calls
      ensures out.Ok? ==> journal == durable
      ensures old(Quiet()) ==> Quiet() && out.Ok?
    {
      out, journal := OutcomeOf(faults(calls)), durable;
      calls := calls + 1;
    }

    /** Refuses what is invalid or not the successor of what is durable. */
    method Save(expected: nat, next: Journal, ghost cluster: Cluster) returns (out: Outcome)
      requires Sound()
      requires durable.Some? && durable.value.revision == expected && next.revision == expected + 1 ==>
                Follows(durable.value, next)
      modifies this
      ensures Sound()
      ensures || (durable == old(durable) && history == old(history) && proofs == old(proofs))
              || (&& durable == Some(next) && history == old(history) + [next] && ValidJournal(forms, next)
                  && proofs == old(proofs) + [cluster.Since()])
      ensures out.Ok? ==> durable == Some(next) && history == old(history) + [next]
      ensures old(Quiet() && Ready(expected, next)) ==> Quiet() && out.Ok?
    {
      hide ValidJournal, Follows;
      if next.revision != expected + 1 { return Error; }
      if !ValidJournal(forms, next) { return Error; }
      var fault := faults(calls);
      calls := calls + 1;
      var current := if durable.None? then 0 else durable.value.revision;
      if current != expected { return if fault.Crashes? then Crash else Error; }
      if TookEffect(fault) {
        HistoryExtends(forms, history, next);
        durable, history, proofs := Some(next), history + [next], proofs + [cluster.Since()];
      }
      return OutcomeOf(fault);
    }
  }

  /** The key under which every attempt of a step asks for the same result. */
  datatype IdempotencyKey = IdempotencyKey(transactionID: string, step: Step)

  datatype Operation = Operation(transactionID: string, key: IdempotencyKey, bootstrapVersion: string,
                                 configuration: string, step: Step)

  function OperationFor(j: Journal, step: Step): Operation {
    Operation(j.transactionID, IdempotencyKey(j.transactionID, step), j.bootstrapVersion, j.configuration, step)
  }

  /** A component's answer that what it observed for an operation still holds. */
  datatype Check = Check(operation: Operation, component: nat, observation: Observation)

  /** A stretch of the log of such answers. */
  datatype Span = Span(from: nat, upTo: nat)

  function Slice(log: seq<Check>, span: Span): seq<Check> {
    if span.from <= span.upTo <= |log| then log[span.from..span.upTo] else []
  }

  /** Every component of the step has answered for its own observation. */
  ghost predicate StepVerified(operation: Operation, evidence: Evidence, checks: seq<Check>) {
    && |evidence| == |Components(operation.step)|
    && (forall c :: 0 <= c < |evidence| ==> Check(operation, c, evidence[c]) in checks)
  }

  /** Every component of every recorded step has answered. */
  ghost predicate AllVerified(j: Journal, checks: seq<Check>) {
    forall i :: 0 <= i < |j.steps| ==> StepVerified(OperationFor(j, j.steps[i].step), j.steps[i].evidence, checks)
  }

  /** The intent to run this step is durable: all earlier steps are recorded, and it is the current one. */
  predicate Intended(j: Journal, step: Step) {
    && |j.steps| < STEPS && step == ORDERED[|j.steps|]
    && j.current.Some? && j.current.value.step == step
    && j.state == InProgress
  }

  /** An action on one component, with the number of the journal that was durable at that moment, and the answers that
      had been given by then in the same call of the coordinator. */
  datatype Action = Action(operation: Operation, component: nat, version: nat, span: Span)

  /** An action may start: its intent is durable, its predecessors are recorded and verified, its key is the step's
      own. */
  ghost predicate Allowed(a: Action, history: seq<Journal>, log: seq<Check>) {
    && a.version < |history| && a.span.from <= a.span.upTo <= |log|
    && Intended(history[a.version], a.operation.step)
    && AllVerified(history[a.version], Slice(log, a.span))
    && a.operation == OperationFor(history[a.version], a.operation.step)
  }

  /** Exactly the components of the step, in order, were asked to bring it about. */
  predicate ActedOnce(operation: Operation, before: seq<Action>, after: seq<Action>) {
    && |after| == |before| + |Components(operation.step)| && before <= after
    && (forall c :: |before| <= c < |after| ==> after[c].operation == operation && after[c].component == c - |before|)
  }

  /** A journal that says complete comes with answers for all its records. */
  ghost predicate ProvedBy(j: Journal, span: Span, log: seq<Check>) {
    && span.from <= span.upTo <= |log|
    && (j.state == Complete ==> AllVerified(j, Slice(log, span)))
  }

  /** The same records in the same transaction. */
  predicate SameRecords(a: Journal, b: Journal) {
    && a.steps == b.steps
    && a.transactionID == b.transactionID && a.bootstrapVersion == b.bootstrapVersion
    && a.configuration == b.configuration
  }

  /** The systems that are set up. Their answers are arbitrary functions of the number of calls made so far. */
  class Cluster {
    const faults: nat -> Fault
    const observations: (nat, Step, nat) -> Observation
    var calls: nat
    /** Every check that was answered well, oldest first. */
    ghost var log: seq<Check>
    ghost var actions: seq<Action>
    /** How long the log, the list of actions and the store's history were when the coordinator's running call began. */
    ghost var logMark: nat
    ghost var actionMark: nat
    ghost var saveMark: nat

    constructor (faults: nat -> Fault, observations: (nat, Step, nat) -> Observation)
      ensures this.faults == faults && this.observations == observations && calls == 0
      ensures log == [] && actions == [] && logMark == 0 && actionMark == 0 && saveMark == 0
    {
      this.faults, this.observations := faults, observations;
      calls, log, actions, logMark, actionMark, saveMark := 0, [], [], 0, 0, 0;
    }

    ghost predicate Quiet()
      reads this`calls
    {
      forall n :: calls <= n ==> faults(n) == Answers
    }

    /** The checks answered since the coordinator's running call began. */
    ghost function Since(): Span
      reads this`log, this`logMark
    {
      Span(logMark, |log|)
    }

    /** A call of the coordinator begins. */
    ghost method Mark(store: JournalStore)
      modifies this`logMark, this`actionMark, this`saveMark
      ensures logMark == |log| && actionMark == |actions| && saveMark == |store.history|
    {
      logMark, actionMark, saveMark := |log|, |actions|, |store.history|;
    }

    /** Asks one component to bring a step about. */
    method Act(operation: Operation, component: nat, ghost store: JournalStore)
      returns (out: Outcome, observation: Observation)
      requires store.history != []
      modifies this`calls, this`actions
      ensures actions == old(actions) + [Action(operation, component, |store.history| - 1, Since())]
      ensures observation == observations(old(calls), operation.step, component)
      ensures calls == old(calls) + 1
      ensures old(Quiet()) ==> Quiet() && out.Ok?
    {
      out, observation := OutcomeOf(faults(calls)), observations(calls, operation.step, component);
      actions := actions + [Action(operation, component, |store.history| - 1, Since())];
      calls := calls + 1;
    }

    /** Asks one component whether what it observed still holds. Only an answer that it does is logged. */
    method Verify(operation: Operation, component: nat, observation: Observation) returns (out: Outcome)
      modifies this`calls, this`log
      ensures calls == old(calls) + 1 && out == OutcomeOf(faults(old(calls)))
      ensures log == if out.Ok? then old(log) + [Check(operation, component, observation)] else old(log)
      ensures old(Quiet()) ==> Quiet() && out.Ok?
    {
      out := OutcomeOf(faults(calls));
      calls := calls + 1;
      if out.Ok? { log := log + [Check(operation, component, observation)]; }
    }

    method PublishPrepared() returns (out: Outcome)
      modifies this`calls
      ensures calls >= old(calls)
      ensures old(Quiet()) ==> Quiet() && out.Ok?
    {
      out := OutcomeOf(faults(calls));
      calls := calls + 1;
      if !out.Ok? { return; }
      out := OutcomeOf(faults(calls));
      calls := calls + 1;
    }
  }

  datatype Configuration = Configuration(bootstrapVersion: string, digest: string,
                                         expected: (Step, nat) -> (string, string))

  datatype StatusState = NotStarted | StatusInProgress | StatusComplete | StatusFailed

  datatype Status = Status(state: StatusState, step: Step)

  /** The evidence has the step's shape and the configured versions and artifacts. */
  predicate EvidenceMatches(forms: Forms, config: Configuration, step: Step, evidence: Evidence) {
    && EvidenceShape(forms, step, evidence)
    && (forall i :: 0 <= i < |evidence| ==> (evidence[i].version, evidence[i].artifact) == config.expected(step, i))
  }

  /** Every action so far was allowed, on the strength of what was durable and answered at its moment. */
  ghost predicate ActionsAllowed(actions: seq<Action>, history: seq<Journal>, log: seq<Check>) {
    forall k :: 0 <= k < |actions| ==> Allowed(actions[k], history, log)
  }

  /** A journal that says complete was saved by a call in which all its records had been verified. */
  ghost predicate Proved(proofs: seq<Span>, history: seq<Journal>, log: seq<Check>) {
    && |proofs| == |history|
    && (forall i :: 0 <= i < |proofs| ==> ProvedBy(history[i], proofs[i], log))
  }

  /** From these marks on, actions and saves rest on checks after the first mark only. */
  ghost predicate Marked(logMark: nat, actionMark: nat, saveMark: nat, log: seq<Check>, actions: seq<Action>,
                         proofs: seq<Span>) {
    && logMark <= |log| && actionMark <= |actions| && saveMark <= |proofs|
    && (forall k :: actionMark <= k < |actions| ==> actions[k].span.from == logMark)
    && (forall k :: saveMark <= k < |proofs| ==> proofs[k].from == logMark)
  }

  /** What any number of coordinators, one after the other, leave behind. */
  ghost predicate World(store: JournalStore, cluster: Cluster)
    reads store`durable, store`history, store`proofs
    reads cluster`actions, cluster`log, cluster`logMark, cluster`actionMark, cluster`saveMark
  {
    && store.Sound()
    && ActionsAllowed(cluster.actions, store.history, cluster.log)
    && Proved(store.proofs, store.history, cluster.log)
    && Marked(cluster.logMark, cluster.actionMark, cluster.saveMark, cluster.log, cluster.actions, store.proofs)
  }

  /** A run may begin with a new store and a new cluster. */
  lemma NewWorld(store: JournalStore, cluster: Cluster)
    requires store.durable.None? && store.history == [] && store.proofs == []
    requires cluster.log == [] && cluster.actions == []
    requires cluster.logMark == 0 && cluster.actionMark == 0 && cluster.saveMark == 0
    ensures World(store, cluster)
  {
  }

  class Coordinator {
    const config: Configuration
    const store: JournalStore
    const cluster: Cluster
    const clock: nat -> nat
    const identifiers: nat -> Option<string>
    var ticks: nat
    var journal: Journal
    constructor (config: Configuration, store: JournalStore, cluster: Cluster, clock: nat -> nat,
                 identifiers: nat -> Option<string>)
      requires World(store, cluster)
      requires store.forms.pinned(config.bootstrapVersion) && store.forms.digest(config.digest)
      ensures this.store == store && this.cluster == cluster && this.config == config && Sound()
    {
      this.config, this.store, this.cluster, this.clock, this.identifiers := config, store, cluster, clock, identifiers;
      ticks, journal := 0, Fresh("", "", "", 0);
    }

    ghost predicate Sound()
      reads store`durable, store`history, store`proofs
      reads cluster`actions, cluster`log, cluster`logMark, cluster`actionMark, cluster`saveMark
    {
      World(store, cluster) && store.forms.pinned(config.bootstrapVersion) && store.forms.digest(config.digest)
    }

    /** Every recorded step has been verified in the running call. */
    ghost predicate Verified()
      reads this`journal, cluster`log, cluster`logMark
    {
      AllVerified(journal, Slice(cluster.log, cluster.Since()))
    }

    /** The call works on what is durable. */
    ghost predicate Synced()
      reads this`journal, store`durable
    {
      store.durable == Some(journal)
    }

    /** The clock never goes back, and the durable journal's times are in its past. */
    ghost predicate Timely()
      reads this`ticks, store`durable
    {
      && (forall i, j :: 0 <= i <= j ==> clock(i) <= clock(j))
      && (store.durable.Some? ==> store.durable.value.updatedAt <= clock(ticks))
    }

    /** Nothing fails from here on, the clock does not go back, and every observation is the configured one. */
    ghost predicate Calm()
      reads this`ticks, store`calls, store`durable, cluster`calls
    {
      && Timely()
      && store.Quiet() && cluster.Quiet() && clock(ticks) > 0
      && (forall n, step, i :: cluster.calls <= n && 0 <= i < |Components(step)| ==>
            GoodAnswer(step, i, cluster.observations(n, step, i)))
    }

    predicate GoodAnswer(step: Step, i: nat, o: Observation) {
      && i < |Components(step)|
      && ObservationFits(store.forms, step, Components(step)[i], o)
      && (o.version, o.artifact) == config.expected(step, i)
    }

    lemma SyncedFacts()
      requires Sound() && Synced()
      ensures ValidJournal(store.forms, journal)
      ensures Timely() ==> TimesBy(journal, clock(ticks))
    {
      hide ValidShape, TimesBy;
      assert ValidJournal(store.forms, store.history[|store.history| - 1]);
      TimesLater(journal, journal.updatedAt, clock(ticks));
    }

    method Now() returns (out: Outcome, now: nat)
      modifies this`ticks
      ensures ticks == old(ticks) + 1 && now == clock(old(ticks))
      ensures out == if now == 0 then Error else Ok
    {
      now := clock(ticks);
      ticks := ticks + 1;
      out := if now == 0 then Error else Ok;
    }

    /** Saves a journal. If it becomes visible, so do the answers it rests on. */
    method Keep(expected: nat, next: Journal) returns (out: Outcome)
      requires Sound()
      requires store.durable.Some? && store.durable.value.revision == expected && next.revision == expected + 1
               ==> Follows(store.durable.value, next)
      requires next.state == Complete ==> AllVerified(next, Slice(cluster.log, cluster.Since()))
      modifies store
      ensures Sound()
      ensures store.durable == old(store.durable) || store.durable == Some(next)
      ensures out.Ok? ==> store.durable == Some(next)
      ensures old(store.Quiet() && store.Ready(expected, next)) ==> store.Quiet() && out.Ok?
    {
      hide AllVerified, Allowed, GoodHistory, ValidJournal, Follows;
      ghost var before := store.history;
      out := store.Save(expected, next, cluster);
      HistoryGrew(before, store.history, cluster.log, cluster.actions);
    }

    /** Saves the next journal under the next revision and the current time, and takes it over if that is confirmed. */
    method Advance(next: Journal) returns (out: Outcome)
      requires Sound() && Synced()
      requires ValidShape(store.forms, next)
      requires Follows(journal, next.(revision := journal.revision + 1))
      requires next.state == Complete ==> AllVerified(next, Slice(cluster.log, cluster.Since()))
      modifies this`ticks, this`journal, store
      ensures Sound()
      ensures out.Ok? ==>
                Synced() && journal == next.(revision := old(journal).revision + 1, updatedAt := clock(old(ticks)))
      ensures !out.Ok? ==> journal == old(journal)
      ensures old(Calm() && TimesBy(next, clock(ticks))) && old(journal.revision) < MAX_UINT64 ==> Calm() && out.Ok?
    {
      hide ValidShape, TimesBy, AllVerified, World, GoodAnswer;
      if journal.revision >= MAX_UINT64 { return Error; }
      var now;
      out, now := Now();
      if !out.Ok? { return; }
      var saved := next.(revision := journal.revision + 1, updatedAt := now);
      if TimesBy(next, now) { StampedIsValid(store.forms, next, journal.revision + 1, now); }
      if next.state == Complete { SameVerified(next, saved, Slice(cluster.log, cluster.Since())); }
      out := Keep(journal.revision, saved);
      if !out.Ok? { return; }
      journal := saved;
    }

    /** Asks one component; what was allowed and proved stays so. */
    method Ask(operation: Operation, component: nat, observation: Observation) returns (out: Outcome)
      requires Sound()
      modifies cluster`calls, cluster`log
      ensures Sound()
      ensures cluster.log == if out.Ok? then old(cluster.log) + [Check(operation, component, observation)]
                             else old(cluster.log)
      ensures old(Calm()) ==> Calm() && out.Ok?
    {
      hide Allowed, ProvedBy, GoodHistory;
      ghost var before := cluster.log;
      out := cluster.Verify(operation, component, observation);
      LogGrew(store.proofs, store.history, before, cluster.log, cluster.actions);
    }

    /** Makes the intent to run the next step durable. */
    method BeginAttempt(step: Step) returns (out: Outcome)
      requires Sound() && Synced() && |journal.steps| < STEPS && step == ORDERED[|journal.steps|]
      modifies this`ticks, this`journal, store
      ensures Sound()
      ensures out.Ok? ==> Synced() && Intended(journal, step) && SameRecords(old(journal), journal)
                          && journal.revision == old(journal.revision) + 1
      ensures old(Calm())
              && old(journal.revision < MAX_UINT64
                     && (journal.current.Some? ==> journal.current.value.attempts < MAX_UINT64))
              ==> Calm() && out.Ok?
    {
      hide TimesBy, AllVerified, StepsInOrder, ValidShape, Sound, Begun, Follows, Intended, SameRecords, GoodAnswer;
      hide World, Components;
      SyncedFacts();
      var now;
      out, now := Now();
      if !out.Ok? { return; }
      BegunFacts(store.forms, journal, step, now, clock(ticks));
      if journal.current.Some? {
        if journal.current.value.step != step { return Error; }
        if journal.current.value.attempts >= MAX_UINT64 { return Error; }
      }
      out := Advance(Begun(journal, step, now));
    }

    /** Records a verified step. */
    method CommitStep(step: Step, evidence: Evidence) returns (out: Outcome)
      requires Sound() && Synced() && |journal.steps| < STEPS && step == ORDERED[|journal.steps|]
      requires EvidenceShape(store.forms, step, evidence)
      requires Verified() && StepVerified(OperationFor(journal, step), evidence, Slice(cluster.log, cluster.Since()))
      modifies this`ticks, this`journal, store
      ensures Sound()
      ensures out.Ok? ==> Synced() && |journal.steps| == |old(journal.steps)| + 1 && Verified()
                          && (journal.state == Complete <==> step == MarkComplete) && journal.current.None?
                          && journal.revision == old(journal.revision) + 1 && journal.failure.None?
                          && old(journal.steps) <= journal.steps
                          && journal.steps[|journal.steps| - 1].step == step
                          && journal.steps[|journal.steps| - 1].evidence == evidence
      ensures old(Calm()) && old(journal.revision) < MAX_UINT64 ==> Calm() && out.Ok?
    {
      hide TimesBy, AllVerified, StepVerified, StepsInOrder, ValidShape, EvidenceShape, Sound, Recorded, Follows;
      SyncedFacts();
      var now;
      out, now := Now();
      if !out.Ok? { return; }
      var next := Recorded(journal, step, evidence, now);
      RecordedIsValid(store.forms, journal, evidence, now);
      RecordedFollows(journal, step, evidence, now);
      TimesLater(next, now, clock(ticks));
      ghost var checks := Slice(cluster.log, cluster.Since());
      RecordedIsVerified(journal, step, evidence, now, checks);
      out := Advance(next);
      if out.Ok? { SameVerified(next, journal, checks); }
    }

    /** Records a failure; nothing that was recorded before is lost. */
    method SaveFailure(step: Step, code: FailureCode) returns (out: Outcome)
      requires Sound() && Synced()
      modifies this`ticks, this`journal, store
      ensures Sound()
      ensures out.Ok? ==> Synced() && journal.state == Failed && journal.steps == old(journal.steps)
                          && journal.failure.Some? && journal.failure.value.step == step
                          && journal.failure.value.code == code
    {
      hide TimesBy, AllVerified, StepsInOrder, ValidShape, Sound, WithFailure, Follows;
      SyncedFacts();
      var now;
      out, now := Now();
      if !out.Ok? { return; }
      FailureIsValid(store.forms, journal, step, code, now);
      FailureFollows(journal, step, code, now);
      TimesLater(WithFailure(journal, step, code, now), now, clock(ticks));
      out := Advance(WithFailure(journal, step, code, now));
    }

    /** Asks every component of a step about its observation. */
    method VerifyRecord(step: Step, evidence: Evidence) returns (out: Outcome)
      requires Sound() && EvidenceShape(store.forms, step, evidence)
      modifies cluster`calls, cluster`log
      ensures Sound() && old(cluster.log) <= cluster.log
      ensures out.Ok? ==> StepVerified(OperationFor(journal, step), evidence, cluster.log[|old(cluster.log)|..])
      ensures old(Calm()) ==> Calm() && out.Ok?
    {
      hide Sound, Calm;
      assert |evidence| == |Components(step)|;
      hide ObservationFits;
      var operation := OperationFor(journal, step);
      if step == ApplyClusterConfigs || step == MarkComplete {
        out := AskAll(operation, evidence);
        return;
      }
      out := Ask(operation, 0, evidence[0]);
      if out.Ok? { assert cluster.log[|old(cluster.log)|..] == [Check(operation, 0, evidence[0])]; }
    }

    /** The five components of the two last steps, in order. */
    method AskAll(operation: Operation, evidence: Evidence) returns (out: Outcome)
      requires Sound() && |evidence| == |Components(operation.step)| == 5
      modifies cluster`calls, cluster`log
      ensures Sound() && old(cluster.log) <= cluster.log
      ensures out.Ok? ==> StepVerified(operation, evidence, cluster.log[|old(cluster.log)|..])
      ensures old(Calm()) ==> Calm() && out.Ok?
    {
      hide Sound, Calm;
      ghost var start := |cluster.log|;
      out := Ask(operation, 0, evidence[0]);
      if !out.Ok? { return; }
      out := Ask(operation, 1, evidence[1]);
      if !out.Ok? { return; }
      out := Ask(operation, 2, evidence[2]);
      if !out.Ok? { return; }
      out := Ask(operation, 3, evidence[3]);
      if !out.Ok? { return; }
      out := Ask(operation, 4, evidence[4]);
      if !out.Ok? { return; }
      ghost var asked := cluster.log[start..];
      forall c | 0 <= c < 5
        ensures asked[c] == Check(operation, c, evidence[c])
      {
        assert asked[c] == cluster.log[start + c];
      }
    }

    /** Verifies every recorded step again, and names the first one that does not hold. */
    method VerifyCompleted() returns (out: Outcome, failing: Step)
      requires Sound() && StepsInOrder(store.forms, journal.steps)
      modifies cluster`calls, cluster`log
      ensures Sound() && old(cluster.log) <= cluster.log
      ensures out.Ok? ==> AllVerified(journal, cluster.log[|old(cluster.log)|..])
      ensures old(Calm()) && Matching(journal.steps) ==> Calm() && out.Ok?
    {
      hide EvidenceShape, Sound, StepVerified, Calm;
      failing := MarkComplete;
      ghost var start := |cluster.log|;
      var i := 0;
      while i < |journal.steps|
        invariant 0 <= i <= |journal.steps|
        invariant Sound() && old(cluster.log) <= cluster.log
        invariant forall k :: 0 <= k < i ==>
                    StepVerified(OperationFor(journal, journal.steps[k].step), journal.steps[k].evidence,
                                 cluster.log[start..])
        invariant old(Calm()) ==> Calm()
      {
        var record := journal.steps[i];
        ghost var before := cluster.log;
        if !EvidenceMatches(store.forms, config, record.step, record.evidence) { return Error, record.step; }
        out := VerifyRecord(record.step, record.evidence);
        if !out.Ok? { return out, record.step; }
        forall k | 0 <= k <= i
          ensures StepVerified(OperationFor(journal, journal.steps[k].step), journal.steps[k].evidence,
                               cluster.log[start..])
        {
          if k < i {
            StepStays(OperationFor(journal, journal.steps[k].step), journal.steps[k].evidence, before[start..],
                      cluster.log[start..]);
          } else {
            StepStays(OperationFor(journal, record.step), record.evidence, cluster.log[|before|..],
                      cluster.log[start..]);
          }
        }
        i := i + 1;
      }
      out := Ok;
    }

    /** The recorded evidence is still the configured one. */
    ghost predicate Matching(steps: seq<StepRecord>) {
      forall i :: 0 <= i < |steps| ==> EvidenceMatches(store.forms, config, steps[i].step, steps[i].evidence)
    }

    /** Runs the step's action. The last step first verifies all others once more. */
    method ExecuteStep(step: Step) returns (out: Outcome, evidence: Evidence)
      requires Sound() && Synced() && Intended(journal, step) && Verified()
      modifies cluster`calls, cluster`log, cluster`actions
      ensures Sound() && Verified() && old(cluster.log) <= cluster.log
      ensures out.Ok? ==> ActedOnce(OperationFor(journal, step), old(cluster.actions), cluster.actions)
      ensures out.Ok? && step == MarkComplete ==> AllVerified(journal, cluster.log[|old(cluster.log)|..])
      ensures old(Calm()) && Matching(journal.steps) ==>
                Calm() && out.Ok? && EvidenceMatches(store.forms, config, step, evidence)
    {
      hide AllVerified, TimesBy, EvidenceShape, EvidenceMatches, ActedOnce, Intended, Matching, Sound, Calm;
      MarkIsPast();
      evidence := [];
      if step == MarkComplete {
        assert StepsInOrder(store.forms, journal.steps) by { SyncedFacts(); }
        hide StepsInOrder;
        var failing;
        ghost var before := cluster.log;
        out, failing := VerifyCompleted();
        VerifiedStays(before);
        if !out.Ok? { return; }
      }
      out, evidence := ActOn(OperationFor(journal, step));
    }

    /** Asks each component of the step to bring it about. */
    method ActOn(operation: Operation) returns (out: Outcome, evidence: Evidence)
      requires Sound() && Synced() && Intended(journal, operation.step) && Verified()
      requires operation == OperationFor(journal, operation.step)
      modifies cluster`calls, cluster`actions
      ensures Sound()
      ensures out.Ok? ==> ActedOnce(operation, old(cluster.actions), cluster.actions)
      ensures old(Calm()) ==> Calm() && out.Ok? && EvidenceMatches(store.forms, config, operation.step, evidence)
    {
      hide AllVerified, Sound, Calm, ObservationFits;
      if operation.step == ApplyClusterConfigs || operation.step == MarkComplete {
        out, evidence := ActOnAll(operation);
        return;
      }
      var observation;
      out, observation := Act(operation, 0);
      evidence := [observation];
    }

    /** The five components of the two last steps, in order. */
    method ActOnAll(operation: Operation) returns (out: Outcome, evidence: Evidence)
      requires Sound() && Synced() && Intended(journal, operation.step) && Verified()
      requires operation == OperationFor(journal, operation.step) && |Components(operation.step)| == 5
      modifies cluster`calls, cluster`actions
      ensures Sound()
      ensures out.Ok? ==> ActedOnce(operation, old(cluster.actions), cluster.actions)
      ensures old(Calm()) ==>
                && Calm() && out.Ok? && |evidence| == 5
                && (forall i :: 0 <= i < 5 ==> GoodAnswer(operation.step, i, evidence[i]))
    {
      hide AllVerified, Sound, Calm, GoodAnswer, Intended;
      var o0, o1, o2, o3, o4;
      evidence := [];
      out, o0 := Act(operation, 0);
      if !out.Ok? { return; }
      out, o1 := Act(operation, 1);
      if !out.Ok? { return; }
      out, o2 := Act(operation, 2);
      if !out.Ok? { return; }
      out, o3 := Act(operation, 3);
      if !out.Ok? { return; }
      out, o4 := Act(operation, 4);
      if !out.Ok? { return; }
      evidence := [o0, o1, o2, o3, o4];
    }

    /** One call of one component, under the durable intent. */
    method Act(operation: Operation, component: nat) returns (out: Outcome, observation: Observation)
      requires Sound() && Synced() && Intended(journal, operation.step) && Verified()
      requires operation == OperationFor(journal, operation.step)
      modifies cluster`calls, cluster`actions
      ensures Sound()
      ensures cluster.actions ==
              old(cluster.actions) + [Action(operation, component, |store.history| - 1, cluster.Since())]
      ensures old(Calm()) && component < |Components(operation.step)| ==>
                Calm() && out.Ok? && GoodAnswer(operation.step, component, observation)
    {
      hide AllVerified, ValidJournal, TimesBy, GoodHistory;
      out, observation := cluster.Act(operation, component, store);
    }

    /** Starts the one transaction. */
    method InitializeJournal() returns (out: Outcome)
      requires Sound() && store.durable.None?
      modifies this`ticks, this`journal, store
      ensures Sound()
      ensures out.Ok? ==>
                && Synced() && Compatible(journal) && journal.steps == [] && journal.current.None?
                && journal.state == InProgress && journal.revision == 1 && journal.failure.None? && !journal.prepared
      ensures old(Calm() && GoodIdentifier()) ==> Calm() && out.Ok?
    {
      hide AllVerified, Allowed, GoodHistory;
      var identifier := identifiers(ticks);
      if identifier.None? || !store.forms.transactionID(identifier.value) { return Error; }
      var now;
      out, now := Now();
      if !out.Ok? { return; }
      var first := Fresh(identifier.value, config.bootstrapVersion, config.digest, now);
      out := Keep(0, first);
      if !out.Ok? { return; }
      journal := first;
    }

    ghost predicate GoodIdentifier()
      reads this`ticks
    {
      identifiers(ticks).Some? && store.forms.transactionID(identifiers(ticks).value)
    }

    /** There are revisions and attempts enough to finish. */
    ghost predicate Roomy()
      reads this`journal
    {
      && journal.revision + 2 * (STEPS - |journal.steps|) <= MAX_UINT64
      && (journal.current.Some? ==> journal.current.value.attempts < MAX_UINT64)
    }

    /** Fails the call, after trying to record why. */
    method Fail(out: Outcome, step: Step, code: FailureCode) returns (result: Outcome)
      requires Sound() && Synced() && !out.Ok?
      modifies this`ticks, this`journal, store
      ensures Sound() && !result.Ok?
    {
      if out.Crash? { return Crash; }
      var saving := SaveFailure(step, code);
      result := if saving.Crash? then Crash else Error;
    }

    /** Action and checks of an intended step. */
    method Perform(step: Step) returns (out: Outcome, evidence: Evidence)
      requires Sound() && Synced() && Intended(journal, step) && Verified()
      modifies this`ticks, this`journal, store, cluster`calls, cluster`log, cluster`actions
      ensures Sound()
      ensures out.Ok? ==> Synced() && journal == old(journal) && Verified()
                          && EvidenceMatches(store.forms, config, step, evidence)
                          && StepVerified(OperationFor(journal, step), evidence, Slice(cluster.log, cluster.Since()))
      ensures old(Calm() && Matching(journal.steps)) ==> out.Ok? && Calm()
    {
      hide AllVerified, StepVerified, EvidenceShape, Sound, Calm, Matching, ActedOnce, Intended;
      out, evidence := ExecuteStep(step);
      if !out.Ok? {
        out := Fail(out, step, ActionFailed);
        return;
      }
      if !EvidenceMatches(store.forms, config, step, evidence) {
        out := Fail(Error, step, VerificationFailed);
        return;
      }
      ghost var before := cluster.log;
      MarkIsPast();
      out := VerifyRecord(step, evidence);
      VerifiedStays(before);
      if out.Ok? {
        StepStays(OperationFor(journal, step), evidence, cluster.log[|before|..], Slice(cluster.log, cluster.Since()));
      }
      if !out.Ok? { out := Fail(out, step, VerificationFailed); }
    }

    /** One round: intent, action, checks, record, and readiness after the fifth step. */
    method RunStep() returns (out: Outcome)
      requires Sound() && Synced() && |journal.steps| < STEPS && Verified()
      modifies this`ticks, this`journal, store, cluster`calls, cluster`log, cluster`actions
      ensures Sound()
      ensures out.Ok? ==> Synced() && |journal.steps| == |old(journal.steps)| + 1 && Verified()
                          && (journal.state == Complete <==> |journal.steps| == STEPS)
      ensures old(Calm() && Matching(journal.steps) && Roomy()) ==>
                out.Ok? && Calm() && Matching(journal.steps) && Roomy()
    {
      hide AllVerified, Allowed, GoodHistory, ValidJournal, EvidenceShape, TimesBy, Intended, Calm, Sound, Matching;
      var step := ORDERED[|journal.steps|];
      ghost var recorded := journal.steps;
      OrderedAt(|journal.steps|);
      ghost var checks := Slice(cluster.log, cluster.Since());
      out := BeginAttempt(step);
      if !out.Ok? { return; }
      SameVerified(old(journal), journal, checks);
      var evidence;
      out, evidence := Perform(step);
      if !out.Ok? { return; }
      out := CommitStep(step, evidence);
      if !out.Ok? { return; }
      MatchingOneMore(recorded, step, evidence);
      if step == SPIRETPMConfig { out := Announce(); }
    }

    /** Publishes that the prerequisites are prepared. */
    method Announce() returns (out: Outcome)
      requires Sound() && Synced()
      modifies this`ticks, this`journal, store, cluster`calls
      ensures Sound()
      ensures out.Ok? ==> Synced() && journal == old(journal)
      ensures old(Calm()) ==> Calm() && out.Ok?
    {
      out := cluster.PublishPrepared();
      if !out.Ok? { out := Fail(out, SPIRETPMConfig, PreparedFailed); }
    }

    lemma MarkIsPast()
      requires Sound()
      ensures cluster.logMark <= |cluster.log|
    {
    }

    /** More answers take nothing from what was verified in the running call. */
    lemma VerifiedStays(before: seq<Check>)
      requires cluster.logMark <= |before| && before <= cluster.log
      requires AllVerified(journal, Slice(before, Span(cluster.logMark, |before|)))
      ensures Verified()
    {
      AllStays(journal, Slice(before, Span(cluster.logMark, |before|)), Slice(cluster.log, cluster.Since()));
    }

    lemma MatchingOneMore(before: seq<StepRecord>, step: Step, evidence: Evidence)
      requires |journal.steps| == |before| + 1 && before <= journal.steps
      requires journal.steps[|before|].step == step && journal.steps[|before|].evidence == evidence
      requires EvidenceMatches(store.forms, config, step, evidence)
      ensures Matching(before) ==> Matching(journal.steps)
    {
      hide EvidenceMatches;
    }

    /** Runs all remaining steps. */
    method RunRemaining() returns (out: Outcome)
      requires Sound() && Synced() && Verified() && |journal.steps| < STEPS
      modifies this`ticks, this`journal, store, cluster`calls, cluster`log, cluster`actions
      ensures Sound()
      ensures out.Ok? ==> Synced() && journal.state == Complete && Verified()
      ensures old(Calm() && Matching(journal.steps) && Roomy()) ==> out.Ok?
    {
      hide AllVerified, Sound, Calm, Matching, Roomy;
      out := Ok;
      while |journal.steps| < STEPS
        invariant Sound() && Synced() && Verified() && out.Ok?
        invariant |journal.steps| <= STEPS && (|journal.steps| == STEPS ==> journal.state == Complete)
        invariant old(Calm() && Matching(journal.steps) && Roomy()) ==> Calm() && Matching(journal.steps) && Roomy()
        decreases STEPS - |journal.steps|
      {
        out := RunStep();
        if !out.Ok? { return; }
      }
    }

    /** Everything is recorded and verified: the journal says so, or is made to. */
    method Restore() returns (out: Outcome)
      requires Sound() && Synced() && |journal.steps| == STEPS && Verified()
      modifies this`ticks, this`journal, store
      ensures Sound()
      ensures out.Ok? ==> Synced() && journal.state == Complete && Verified()
      ensures old(Calm()) && old(journal.revision) < MAX_UINT64 ==> out.Ok?
    {
      SyncedFacts();
      hide AllVerified, TimesBy, StepsInOrder;
      if journal.state != Complete || journal.failure.Some? {
        RestoredIsValid(store.forms, journal, clock(ticks));
        hide ValidShape;
        ghost var checks := Slice(cluster.log, cluster.Since());
        SameVerified(journal, Restored(journal), checks);
        out := Advance(Restored(journal));
        if out.Ok? { SameVerified(old(journal), journal, checks); }
        return;
      }
      return Ok;
    }

    /** A failed transaction goes on. */
    method Resume() returns (out: Outcome)
      requires Sound() && Synced() && |journal.steps| < STEPS
      modifies this`ticks, this`journal, store
      ensures Sound()
      ensures out.Ok? ==> Synced() && SameRecords(old(journal), journal) && journal.current == old(journal.current)
                          && old(journal.revision) <= journal.revision <= old(journal.revision) + 1
      ensures old(Calm()) && old(journal.revision) < MAX_UINT64 ==> Calm() && out.Ok?
    {
      SyncedFacts();
      hide AllVerified, TimesBy, StepsInOrder;
      if journal.state == Failed || journal.failure.Some? {
        ResumedIsValid(store.forms, journal, clock(ticks));
        hide ValidShape;
        out := Advance(Resumed(journal));
        return;
      }
      return Ok;
    }

    /** Loads the transaction, or starts it. */
    method Begin() returns (out: Outcome)
      requires Sound()
      modifies this`ticks, this`journal, store
      ensures Sound()
      ensures out.Ok? ==> Synced() && Compatible(journal)
      ensures old(store.durable.Some?) ==> store.durable == old(store.durable) && store.history == old(store.history)
      ensures out.Ok? && old(store.durable.None?) ==>
                journal.steps == [] && journal.revision == 1 && journal.current.None?
      ensures old(Calm() && Startable()) ==> Calm() && out.Ok?
    {
      var found;
      out, found := store.Load();
      if !out.Ok? { return; }
      if found.None? {
        out := InitializeJournal();
        return;
      }
      journal := found.value;
      if !Compatible(journal) { return Error; }
    }

    /** The journal was begun under this configuration. */
    predicate Compatible(j: Journal) {
      j.bootstrapVersion == config.bootstrapVersion && j.configuration == config.digest
    }

    /** What is durable can be continued with this configuration, and there is room to finish it. */
    ghost predicate Startable()
      reads this`ticks, store`durable
    {
      if store.durable.None? then GoodIdentifier()
      else
        var j := store.durable.value;
        && Compatible(j)
        && Matching(j.steps)
        && j.revision + 2 * (STEPS - |j.steps|) + 1 <= MAX_UINT64
        && (j.current.Some? ==> j.current.value.attempts < MAX_UINT64)
    }

    /** Starts or resumes the transaction. Its actions and saves rest on checks answered in this very call. */
    method StartBootstrap() returns (out: Outcome)
      requires Sound()
      modifies this`ticks, this`journal, store, cluster
      ensures Sound()
      ensures cluster.logMark == |old(cluster.log)| && cluster.actionMark == |old(cluster.actions)|
      ensures cluster.saveMark == |old(store.history)|
      ensures old(store.durable.Some? && !Compatible(store.durable.value)) ==>
                !out.Ok? && store.history == old(store.history) && cluster.actions == old(cluster.actions)
      ensures out.Ok? ==> Synced() && journal.state == Complete && Verified()
      ensures old(Calm() && Startable()) ==> out.Ok?
    {
      hide AllVerified, Calm, Matching;
      cluster.Mark(store);
      ghost var first := store.durable;
      out := Begin();
      if !out.Ok? { return; }
      assert first.None? ==> Matching(journal.steps) by { NothingToMatch(); }
      assert |journal.steps| <= STEPS && StepsInOrder(store.forms, journal.steps) by { SyncedFacts(); }
      hide Sound;
      out := Continue();
    }

    lemma NothingToMatch()
      ensures Matching([])
    {
    }

    /** Verifies what is recorded, announces readiness, and goes on from there. */
    method Continue() returns (out: Outcome)
      requires Sound() && Synced() && StepsInOrder(store.forms, journal.steps)
      modifies this`ticks, this`journal, store, cluster`calls, cluster`log, cluster`actions
      ensures Sound()
      ensures out.Ok? ==> Synced() && journal.state == Complete && Verified()
      ensures old(Calm() && Matching(journal.steps) && Roomy())
              && old(journal.revision + 2 * (STEPS - |journal.steps|)) < MAX_UINT64
              ==> out.Ok?
    {
      hide AllVerified, Calm, Matching, Sound, StepsInOrder;
      assert |journal.steps| <= STEPS by { OrderBounds(store.forms, journal.steps); }
      out := CheckRecorded();
      if !out.Ok? { return; }
      if journal.prepared {
        out := Announce();
        if !out.Ok? { return; }
      }
      if |journal.steps| == STEPS {
        out := Restore();
        return;
      }
      ghost var recorded := journal;
      out := Resume();
      if !out.Ok? { return; }
      SameVerified(recorded, journal, Slice(cluster.log, cluster.Since()));
      out := RunRemaining();
    }

    /** Verifies the recorded steps; the first that does not hold is recorded as the failure. */
    method CheckRecorded() returns (out: Outcome)
      requires Sound() && Synced() && StepsInOrder(store.forms, journal.steps)
      modifies this`ticks, this`journal, store, cluster`calls, cluster`log
      ensures Sound()
      ensures out.Ok? ==> Synced() && journal == old(journal) && Verified()
      ensures old(Calm() && Matching(journal.steps)) ==> Calm() && out.Ok?
    {
      hide AllVerified, StepsInOrder;
      var failing;
      ghost var start := |cluster.log|;
      out, failing := VerifyCompleted();
      if out.Ok? { AllStays(journal, cluster.log[start..], Slice(cluster.log, cluster.Since())); }
      if !out.Ok? { out := Fail(out, failing, VerificationFailed); }
    }

    /** Reports what is durable. No state of a valid journal leaves it without an answer. */
    method GetStatus() returns (out: Outcome, status: Status)
      requires Sound()
      modifies store`calls
      ensures Sound()
      ensures old(store.Quiet()) && (store.durable.Some? ==> Compatible(store.durable.value)) ==> out.Ok?
      ensures out.Ok? ==> (status.state == NotStarted <==> store.durable.None?)
      ensures out.Ok? && store.durable.Some? ==>
                && Compatible(store.durable.value)
                && (status.state == StatusComplete <==> store.durable.value.state == Complete)
                && (status.state == StatusInProgress <==> store.durable.value.state == InProgress)
                && (status.state == StatusFailed <==> store.durable.value.state == Failed)
      ensures out.Ok? && status.state == StatusComplete ==>
                && |store.durable.value.steps| == STEPS
                && AllVerified(store.durable.value, Slice(cluster.log, store.proofs[|store.proofs| - 1]))
      ensures out.Ok? && status.state == StatusInProgress ==>
                |store.durable.value.steps| < STEPS && status.step == ORDERED[|store.durable.value.steps|]
      ensures out.Ok? && status.state == StatusFailed ==>
                store.durable.value.failure.Some? && status.step == store.durable.value.failure.value.step
    {
      hide TimesBy, StepsInOrder;
      status := Status(NotStarted, CASigning);
      var found;
      out, found := store.Load();
      if !out.Ok? { return; }
      if found.None? { return; }
      var j := found.value;
      if !Compatible(j) { return Error, status; }
      assert ValidJournal(store.forms, j);
      assert |j.steps| <= STEPS by { OrderBounds(store.forms, j.steps); }
      match j.state
      case Complete => status := Status(StatusComplete, MarkComplete);
      case Failed => status := Status(StatusFailed, j.failure.value.step);
      case InProgress =>
        status := Status(StatusInProgress, if j.current.Some? then j.current.value.step else ORDERED[|j.steps|]);
    }
  }

  // Answers once given stay in every longer log.

  lemma StepStays(operation: Operation, evidence: Evidence, before: seq<Check>, after: seq<Check>)
    requires StepVerified(operation, evidence, before)
    requires forall x :: x in before ==> x in after
    ensures StepVerified(operation, evidence, after)
  {
  }

  lemma AllStays(j: Journal, before: seq<Check>, after: seq<Check>)
    requires AllVerified(j, before)
    requires forall x :: x in before ==> x in after
    ensures AllVerified(j, after)
  {
    forall i | 0 <= i < |j.steps|
      ensures StepVerified(OperationFor(j, j.steps[i].step), j.steps[i].evidence, after)
    {
      StepStays(OperationFor(j, j.steps[i].step), j.steps[i].evidence, before, after);
    }
  }

  lemma SameVerified(a: Journal, b: Journal, checks: seq<Check>)
    requires SameRecords(a, b) && AllVerified(a, checks)
    ensures AllVerified(b, checks)
  {
    hide StepVerified;
    forall i | 0 <= i < |b.steps|
      ensures StepVerified(OperationFor(b, b.steps[i].step), b.steps[i].evidence, checks)
    {
      assert StepVerified(OperationFor(a, a.steps[i].step), a.steps[i].evidence, checks);
    }
  }

  lemma OneMoreVerified(a: Journal, b: Journal, checks: seq<Check>)
    requires |b.steps| == |a.steps| + 1 && b.steps[..|a.steps|] == a.steps && SameRecords(a, b.(steps := a.steps))
    requires AllVerified(a, checks)
    requires StepVerified(OperationFor(a, b.steps[|a.steps|].step), b.steps[|a.steps|].evidence, checks)
    ensures AllVerified(b, checks)
  {
    hide StepVerified;
    forall i | 0 <= i < |b.steps|
      ensures StepVerified(OperationFor(b, b.steps[i].step), b.steps[i].evidence, checks)
    {
      if i < |a.steps| {
        assert b.steps[i] == a.steps[i];
        assert StepVerified(OperationFor(a, a.steps[i].step), a.steps[i].evidence, checks);
      }
    }
  }

  /** What a begun attempt is, and what it is once it is stamped and saved. */
  lemma BegunFacts(forms: Forms, j: Journal, step: Step, now: nat, later: nat)
    requires ValidShape(forms, j) && |j.steps| < STEPS && step == ORDERED[|j.steps|] && now > 0
    ensures j.current.Some? ==> j.current.value.step == step
    ensures var next := Begun(j, step, now);
            && ValidShape(forms, next) && Follows(j, next.(revision := j.revision + 1)) && next.state == InProgress
            && (TimesBy(j, now) && now <= later ==> TimesBy(next, later))
    ensures var saved := Begun(j, step, now).(revision := j.revision + 1, updatedAt := later);
            Intended(saved, step) && SameRecords(j, saved)
  {
    hide ValidShape, TimesBy, Follows, Begun, Intended, SameRecords;
    if j.current.Some? { CurrentIsNext(forms, j); }
    BegunIsValid(forms, j, now);
    BegunFollows(j, step, now);
    BegunIsIntended(j, step, now);
    StampedIsIntended(j, Begun(j, step, now), step, j.revision + 1, later);
    if TimesBy(j, now) && now <= later { TimesLater(Begun(j, step, now), now, later); }
  }

  lemma BegunIsIntended(j: Journal, step: Step, now: nat)
    requires |j.steps| < STEPS && step == ORDERED[|j.steps|]
    requires j.current.Some? ==> j.current.value.step == step
    ensures Intended(Begun(j, step, now), step) && SameRecords(j, Begun(j, step, now))
  {
  }

  lemma StampedIsIntended(before: Journal, j: Journal, step: Step, revision: nat, now: nat)
    requires Intended(j, step) && SameRecords(before, j)
    ensures var saved := j.(revision := revision, updatedAt := now);
            Intended(saved, step) && SameRecords(before, saved)
  {
  }

  lemma RecordedIsVerified(j: Journal, step: Step, evidence: Evidence, now: nat, checks: seq<Check>)
    requires AllVerified(j, checks) && StepVerified(OperationFor(j, step), evidence, checks)
    ensures AllVerified(Recorded(j, step, evidence, now), checks)
  {
    hide AllVerified, StepVerified;
    OneMoreVerified(j, Recorded(j, step, evidence, now), checks);
  }

  lemma AllowedStays(a: Action, history: seq<Journal>, log: seq<Check>, longerHistory: seq<Journal>,
                     longerLog: seq<Check>)
    requires Allowed(a, history, log) && history <= longerHistory && log <= longerLog
    ensures Allowed(a, longerHistory, longerLog)
  {
    assert Slice(longerLog, a.span) == Slice(log, a.span);
  }

  /** A longer history takes nothing from the actions. */
  lemma HistoryGrew(before: seq<Journal>, history: seq<Journal>, log: seq<Check>, actions: seq<Action>)
    requires before <= history && ActionsAllowed(actions, before, log)
    ensures ActionsAllowed(actions, history, log)
  {
    hide Allowed;
    forall k | 0 <= k < |actions|
      ensures Allowed(actions[k], history, log)
    {
      AllowedStays(actions[k], before, log, history, log);
    }
  }

  /** Nor does a longer log, from the actions or the proofs. */
  lemma LogGrew(proofs: seq<Span>, history: seq<Journal>, before: seq<Check>, log: seq<Check>, actions: seq<Action>)
    requires before <= log && ActionsAllowed(actions, history, before) && Proved(proofs, history, before)
    ensures ActionsAllowed(actions, history, log) && Proved(proofs, history, log)
  {
    hide Allowed, ProvedBy;
    forall k | 0 <= k < |actions|
      ensures Allowed(actions[k], history, log)
    {
      AllowedStays(actions[k], history, before, history, log);
    }
    forall i | 0 <= i < |proofs|
      ensures ProvedBy(history[i], proofs[i], log)
    {
      ProvedStays(history[i], proofs[i], before, log);
    }
  }

  lemma ProvedStays(j: Journal, span: Span, log: seq<Check>, longerLog: seq<Check>)
    requires ProvedBy(j, span, log) && log <= longerLog
    ensures ProvedBy(j, span, longerLog)
  {
    assert Slice(longerLog, span) == Slice(log, span);
  }

  lemma StampedIsValid(forms: Forms, next: Journal, revision: nat, now: nat)
    requires ValidShape(forms, next) && TimesBy(next, now) && revision > 0 && now > 0
    ensures ValidJournal(forms, next.(revision := revision, updatedAt := now))
  {
    hide StepsInOrder;
  }

  lemma OrderBounds(forms: Forms, steps: seq<StepRecord>)
    requires StepsInOrder(forms, steps)
    ensures |steps| <= STEPS
  {
  }

  /** Two attempts of one step ask under the same key. */
  predicate SameKeys(actions: seq<Action>) {
    forall i, j :: 0 <= i < j < |actions| && actions[i].operation.step == actions[j].operation.step ==>
      actions[i].operation.key == actions[j].operation.key
  }

  lemma AttemptsShareTheirKey(forms: Forms, history: seq<Journal>, log: seq<Check>, actions: seq<Action>)
    requires GoodHistory(forms, history)
    requires forall k :: 0 <= k < |actions| ==> Allowed(actions[k], history, log)
    ensures SameKeys(actions)
  {
    hide GoodHistory, AllVerified;
    forall i, j | 0 <= i < j < |actions| && actions[i].operation.step == actions[j].operation.step
      ensures actions[i].operation.key == actions[j].operation.key
    {
      RecordsOnlyGrow(forms, history, 0, actions[i].version);
      RecordsOnlyGrow(forms, history, 0, actions[j].version);
    }
  }

  /** One coordinator: its configuration, its clock and the transaction identifiers it would draw. */
  datatype Round = Round(config: Configuration, clock: nat -> nat, identifiers: nat -> Option<string>)

  /**
   * Any number of coordinators one after the other, each with its own configuration and clock, going on after every
   * failure and crash. Every action was allowed when it started: the journal that was durable at that moment carried
   * its intent, and every component of every step recorded there had answered. Attempts of a step share their key, the
   * saved journals are valid, belong to one transaction of one configuration and their records only grow, and what says
   * complete was saved when all components of all its records had answered.
   */
  method Run(store: JournalStore, cluster: Cluster, rounds: seq<Round>)
    requires World(store, cluster)
    modifies store, cluster
    ensures World(store, cluster)
    ensures forall k :: 0 <= k < |cluster.actions| ==> Allowed(cluster.actions[k], store.history, cluster.log)
    ensures SameKeys(cluster.actions)
    ensures var history := store.history;
            && (forall i :: 0 <= i < |history| ==> ValidJournal(store.forms, history[i]))
            && (forall i, j :: 0 <= i <= j < |history| ==>
                  history[i].steps <= history[j].steps && history[i].configuration == history[j].configuration)
            && (forall i :: 0 <= i < |history| && history[i].state == Complete ==>
                  AllVerified(history[i], Slice(cluster.log, store.proofs[i])))
  {
    hide ValidJournal, AllVerified, Allowed;
    for n := 0 to |rounds|
      invariant World(store, cluster)
    {
      var config := rounds[n].config;
      if store.forms.pinned(config.bootstrapVersion) && store.forms.digest(config.digest) {
        var coordinator := new Coordinator(config, store, cluster, rounds[n].clock, rounds[n].identifiers);
        var out := coordinator.StartBootstrap();
      }
    }
    ghost var history := store.history;
    forall i, j | 0 <= i <= j < |history|
      ensures history[i].steps <= history[j].steps && history[i].configuration == history[j].configuration
    {
      RecordsOnlyGrow(store.forms, history, i, j);
    }
    AttemptsShareTheirKey(store.forms, history, cluster.log, cluster.actions);
  }
}
