/** The bootstrap journal: the nine steps, what a journal may say, and how one journal may follow another. */
module BootstrapJournal {
  import opened Common

  const JOURNAL_VERSION: nat := 1

  datatype Step =
    | CASigning
    | KubeletConfig
    | CalicoIPv6
    | IstioIngress
    | SPIRETPMConfig
    | InitializeAPIServer
    | WaitControlPlane
    | ApplyClusterConfigs
    | MarkComplete

  /** The only order. */
  const ORDERED: seq<Step> := [
    CASigning, KubeletConfig, CalicoIPv6, IstioIngress, SPIRETPMConfig,
    InitializeAPIServer, WaitControlPlane, ApplyClusterConfigs, MarkComplete]

  const STEPS: nat := 9

  datatype Component = KeyManagerComponent | Kubernetes | Calico | Istio | SPIRE | Dex

  datatype Observation = Observation(component: Component, version: string, artifact: string, resource: string,
                                     ready: bool)

  type Evidence = seq<Observation>

  datatype StepRecord = StepRecord(step: Step, evidence: Evidence, completedAt: nat)

  datatype Attempt = Attempt(step: Step, startedAt: nat, attempts: nat)

  datatype FailureCode = ActionFailed | VerificationFailed | PreparedFailed

  /** The fixed sentences a failure may be described with. */
  datatype Message = StepFailed(step: Step) | VerificationOf(step: Step) | ReadinessAfter(step: Step)

  datatype Failure = Failure(step: Step, code: FailureCode, message: Message, at: nat)

  datatype JournalState = InProgress | Complete | Failed

  /** Times are natural numbers; 0 is the zero time. */
  datatype Journal = Journal(
    version: nat,
    revision: nat,
    transactionID: string,
    bootstrapVersion: string,
    configuration: string,
    state: JournalState,
    prepared: bool,
    preparedAt: Option<nat>,
    steps: seq<StepRecord>,
    current: Option<Attempt>,
    failure: Option<Failure>,
    updatedAt: nat)

  /** Which texts are well-formed transaction identifiers, pinned versions and digests. */
  datatype Forms = Forms(transactionID: string -> bool, pinned: string -> bool, digest: string -> bool)

  function MessageFor(step: Step, code: FailureCode): Message {
    match code
    case ActionFailed => StepFailed(step)
    case VerificationFailed => VerificationOf(step)
    case PreparedFailed => ReadinessAfter(step)
  }

  function Components(step: Step): (cs: seq<Component>)
    ensures |cs| == 1 || |cs| == 5
  {
    match step
    case CASigning => [KeyManagerComponent]
    case KubeletConfig => [Kubernetes]
    case CalicoIPv6 => [Calico]
    case IstioIngress => [Istio]
    case SPIRETPMConfig => [SPIRE]
    case InitializeAPIServer => [Kubernetes]
    case WaitControlPlane => [Kubernetes]
    case ApplyClusterConfigs => [Kubernetes, Calico, Istio, SPIRE, Dex]
    case MarkComplete => [Kubernetes, Calico, Istio, SPIRE, Dex]
  }

  predicate NeedsReady(step: Step) {
    step == WaitControlPlane || step == ApplyClusterConfigs || step == MarkComplete
  }

  predicate ObservationFits(forms: Forms, step: Step, component: Component, o: Observation) {
    && o.component == component
    && forms.pinned(o.version) && forms.digest(o.artifact) && forms.digest(o.resource)
    && (NeedsReady(step) ==> o.ready)
  }

  /** One observation for each component of the step, in order. */
  predicate EvidenceShape(forms: Forms, step: Step, evidence: Evidence) {
    && |evidence| == |Components(step)|
    && (forall i :: 0 <= i < |evidence| ==> ObservationFits(forms, step, Components(step)[i], evidence[i]))
  }

  predicate StepsInOrder(forms: Forms, steps: seq<StepRecord>) {
    && |steps| <= STEPS
    && (forall i :: 0 <= i < |steps| ==>
          steps[i].step == ORDERED[i] && EvidenceShape(forms, steps[i].step, steps[i].evidence))
  }

  predicate PreparedInStep(j: Journal) {
    (j.prepared <==> |j.steps| >= 5) && (j.prepared <==> j.preparedAt.Some?)
  }

  predicate StateFits(j: Journal) {
    match j.state
    case InProgress => j.failure.None? && |j.steps| != STEPS
    case Complete => |j.steps| == STEPS && j.current.None? && j.failure.None? && j.prepared
    case Failed => j.failure.Some?
  }

  predicate CurrentFits(j: Journal) {
    j.current.Some? ==> |j.steps| < STEPS && j.current.value.step == ORDERED[|j.steps|] && j.current.value.attempts > 0
  }

  predicate FailureFits(j: Journal) {
    j.failure.Some? ==> j.failure.value.message == MessageFor(j.failure.value.step, j.failure.value.code)
  }

  /** Everything but the revision and the times. */
  predicate ValidShape(forms: Forms, j: Journal) {
    && j.version == JOURNAL_VERSION
    && forms.transactionID(j.transactionID) && forms.pinned(j.bootstrapVersion) && forms.digest(j.configuration)
    && StepsInOrder(forms, j.steps)
    && PreparedInStep(j)
    && StateFits(j)
    && CurrentFits(j)
    && FailureFits(j)
  }

  predicate TimeBy(t: nat, now: nat) {
    0 < t <= now
  }

  /** Every time in the journal is set and not after this one. */
  predicate TimesBy(j: Journal, now: nat) {
    && (forall i :: 0 <= i < |j.steps| ==> TimeBy(j.steps[i].completedAt, now))
    && (j.preparedAt.Some? ==> TimeBy(j.preparedAt.value, now))
    && (j.current.Some? ==> TimeBy(j.current.value.startedAt, now))
    && (j.failure.Some? ==> TimeBy(j.failure.value.at, now))
  }

  predicate ValidJournal(forms: Forms, j: Journal) {
    && j.revision != 0
    && j.updatedAt != 0
    && ValidShape(forms, j)
    && TimesBy(j, j.updatedAt)
  }

  // One journal after another.

  /** The same transaction, one revision on, with the same records or one more. */
  predicate Follows(before: Journal, after: Journal) {
    && after.revision == before.revision + 1
    && after.transactionID == before.transactionID
    && after.bootstrapVersion == before.bootstrapVersion
    && after.configuration == before.configuration
    && before.steps <= after.steps && |after.steps| <= |before.steps| + 1
  }

  /** The journals a store has had, oldest first. */
  predicate GoodHistory(forms: Forms, history: seq<Journal>) {
    && (forall i :: 0 <= i < |history| ==> ValidJournal(forms, history[i]))
    && (forall i :: 0 <= i < |history| - 1 ==> Follows(history[i], history[i + 1]))
  }

  /** Over a whole run the records only grow, and stay a prefix of the one order; neither the transaction nor its
      configuration ever changes. */
  lemma {:induction false} RecordsOnlyGrow(forms: Forms, history: seq<Journal>, i: nat, j: nat)
    requires GoodHistory(forms, history) && i <= j < |history|
    ensures history[i].steps <= history[j].steps
    ensures history[i].transactionID == history[j].transactionID
    ensures history[i].bootstrapVersion == history[j].bootstrapVersion
            && history[i].configuration == history[j].configuration
    ensures forall k :: 0 <= k < |history[j].steps| ==> history[j].steps[k].step == ORDERED[k]
    decreases j - i
  {
    assert ValidJournal(forms, history[j]);
    if i < j {
      RecordsOnlyGrow(forms, history, i, j - 1);
      assert Follows(history[j - 1], history[(j - 1) + 1]);
    }
  }

  lemma HistoryExtends(forms: Forms, history: seq<Journal>, next: Journal)
    requires GoodHistory(forms, history) && ValidJournal(forms, next)
    requires history == [] || Follows(history[|history| - 1], next)
    ensures GoodHistory(forms, history + [next])
  {
    hide ValidJournal, Follows;
    var more := history + [next];
    forall i | 0 <= i < |more| - 1
      ensures Follows(more[i], more[i + 1])
    {
      if i < |history| - 1 { assert Follows(history[i], history[i + 1]); }
    }
  }

  // The edits the coordinator makes.

  function Begun(j: Journal, step: Step, now: nat): Journal {
    var attempt := if j.current.None? then Attempt(step, now, 1)
                   else j.current.value.(attempts := j.current.value.attempts + 1);
    j.(current := Some(attempt), state := InProgress, failure := None)
  }

  function Recorded(j: Journal, step: Step, evidence: Evidence, now: nat): Journal {
    j.(steps := j.steps + [StepRecord(step, evidence, now)],
       current := None,
       failure := None,
       prepared := j.prepared || step == SPIRETPMConfig,
       preparedAt := if step == SPIRETPMConfig then Some(now) else j.preparedAt,
       state := if step == MarkComplete then Complete else InProgress)
  }

  function WithFailure(j: Journal, step: Step, code: FailureCode, now: nat): Journal {
    j.(state := Failed, failure := Some(Failure(step, code, MessageFor(step, code), now)))
  }

  function Resumed(j: Journal): Journal {
    j.(state := InProgress, failure := None)
  }

  function Restored(j: Journal): Journal {
    j.(state := Complete, failure := None, current := None)
  }

  function Fresh(transactionID: string, bootstrapVersion: string, configuration: string, now: nat): Journal {
    Journal(JOURNAL_VERSION, 1, transactionID, bootstrapVersion, configuration, InProgress, false, None, [], None, None,
            now)
  }

  lemma OrderedAt(i: nat)
    requires i < STEPS
    ensures i < |ORDERED| && (ORDERED[i] == SPIRETPMConfig <==> i == 4) && (ORDERED[i] == MarkComplete <==> i == 8)
  {
  }

  // Every edit keeps the shape; its times are in order whenever the journal's were and the clock has not gone back.

  lemma BegunIsValid(forms: Forms, j: Journal, now: nat)
    requires ValidShape(forms, j) && |j.steps| < STEPS && now > 0
    ensures var next := Begun(j, ORDERED[|j.steps|], now);
            ValidShape(forms, next) && (TimesBy(j, now) ==> TimesBy(next, now))
  {
    hide StepsInOrder;
  }

  lemma RecordedIsValid(forms: Forms, j: Journal, evidence: Evidence, now: nat)
    requires ValidShape(forms, j) && |j.steps| < STEPS && now > 0
    requires EvidenceShape(forms, ORDERED[|j.steps|], evidence)
    ensures var next := Recorded(j, ORDERED[|j.steps|], evidence, now);
            ValidShape(forms, next) && (TimesBy(j, now) ==> TimesBy(next, now))
  {
    hide EvidenceShape;
    OrderedAt(|j.steps|);
    var next := Recorded(j, ORDERED[|j.steps|], evidence, now);
    assert StepsInOrder(forms, next.steps);
    hide StepsInOrder;
  }

  lemma FailureIsValid(forms: Forms, j: Journal, step: Step, code: FailureCode, now: nat)
    requires ValidShape(forms, j) && now > 0
    ensures var next := WithFailure(j, step, code, now);
            ValidShape(forms, next) && (TimesBy(j, now) ==> TimesBy(next, now))
  {
    hide StepsInOrder;
  }

  lemma ResumedIsValid(forms: Forms, j: Journal, now: nat)
    requires ValidShape(forms, j) && |j.steps| < STEPS
    ensures ValidShape(forms, Resumed(j)) && (TimesBy(j, now) ==> TimesBy(Resumed(j), now))
  {
    hide StepsInOrder;
  }

  lemma RestoredIsValid(forms: Forms, j: Journal, now: nat)
    requires ValidShape(forms, j) && |j.steps| == STEPS
    ensures ValidShape(forms, Restored(j)) && (TimesBy(j, now) ==> TimesBy(Restored(j), now))
  {
    hide StepsInOrder;
  }

  /** An attempt is always at the next step. */
  lemma CurrentIsNext(forms: Forms, j: Journal)
    requires ValidShape(forms, j) && j.current.Some? && |j.steps| < STEPS
    ensures j.current.value.step == ORDERED[|j.steps|]
  {
    hide StepsInOrder, PreparedInStep, FailureFits;
  }

  // What an edit changes, once it is saved under the next revision.

  lemma BegunFollows(j: Journal, step: Step, now: nat)
    ensures var next := Begun(j, step, now);
            Follows(j, next.(revision := j.revision + 1)) && next.state == InProgress && next.steps == j.steps
  {
  }

  lemma RecordedFollows(j: Journal, step: Step, evidence: Evidence, now: nat)
    ensures var next := Recorded(j, step, evidence, now);
            && Follows(j, next.(revision := j.revision + 1))
            && next.steps == j.steps + [StepRecord(step, evidence, now)] && next.current.None? && next.failure.None?
            && (next.state == Complete <==> step == MarkComplete)
  {
  }

  lemma FailureFollows(j: Journal, step: Step, code: FailureCode, now: nat)
    ensures var next := WithFailure(j, step, code, now);
            && Follows(j, next.(revision := j.revision + 1)) && next.steps == j.steps && next.state == Failed
            && next.failure == Some(Failure(step, code, MessageFor(step, code), now))
  {
  }

  lemma TimesLater(j: Journal, now: nat, later: nat)
    ensures TimesBy(j, now) && now <= later ==> TimesBy(j, later)
  {
  }
}
