/** The trust state file and its revision anchor: two files, replaced one after the other, that act as one register. */
module TrustStore {
  import opened Common
  import opened Faults
  import opened TrustTypes
  import opened TrustChecks

  /** How a load or a commit can end. After a crash nothing more runs. */
  datatype Reply = Done | Conflict | RolledBack | Failed | Crashed

  /** The anchor names a revision and, from revision 1 on, the content it stands for. */
  datatype Anchor = Anchor(revision: nat, digest: Option<Snapshot>)

  function AnchorOf(s: Snapshot): Anchor {
    if s.revision == 0 then Anchor(0, None) else Anchor(s.revision, Some(s))
  }

  predicate Formed(a: Anchor) {
    a.revision == 0 <==> a.digest.None?
  }

  function ReplyOf(f: Fault): Reply {
    match f case Answers => Done case Fails(_) => Failed case Crashes(_) => Crashed
  }

  /** An anchor never goes back, never skips, and never changes what a revision stands for. */
  predicate MayFollow(before: Option<Anchor>, after: Anchor) {
    before.Some? ==>
      && before.value.revision <= after.revision <= before.value.revision + 1
      && (after.revision == before.value.revision ==> after.digest == before.value.digest)
  }

  class FileStore {
    const env: Env
    const faults: nat -> Fault
    var calls: nat
    var state: Option<Snapshot>
    var anchor: Option<Anchor>
    /** Every revision that a load or a commit has reported, with its content. */
    ghost var witnessed: map<nat, Snapshot>

    constructor (env: Env, faults: nat -> Fault)
      ensures this.env == env && this.faults == faults && calls == 0
      ensures state == None && anchor == None && witnessed == map[]
      ensures Guarded() && Intact()
    {
      this.env, this.faults := env, faults;
      calls, state, anchor, witnessed := 0, None, None, map[];
    }

    /** Nothing reported is above the anchor, and what is reported at the anchor's revision is what it stands for. */
    ghost predicate Guarded()
      reads this`anchor, this`witnessed
    {
      forall r :: r in witnessed ==>
        && witnessed[r].revision == r && (r == 0 ==> witnessed[r] == EMPTY)
        && anchor.Some? && r <= anchor.value.revision
        && (r == anchor.value.revision ==> anchor.value == AnchorOf(witnessed[r]))
    }

    /** The files as the store itself leaves them, crashes included: the anchor is at the state or one behind. */
    ghost predicate Intact()
      reads this`state, this`anchor
    {
      match state
      case None => anchor.None? || anchor == Some(Anchor(0, None))
      case Some(s) =>
        && ValidSnapshot(env, s) && s.revision > 0
        && anchor.Some?
        && (anchor.value == AnchorOf(s) || (Formed(anchor.value) && anchor.value.revision + 1 == s.revision))
    }

    /** The register the two files stand for. */
    ghost function Register(): Snapshot
      reads this`state
    {
      if state.None? then EMPTY else state.value
    }

    ghost predicate Quiet()
      reads this`calls
    {
      forall n :: calls <= n ==> faults(n) == Answers
    }

    method ReadState() returns (out: Reply, content: Option<Snapshot>)
      modifies this`calls
      ensures out.Done? ==> content == state
      ensures !out.Conflict? && !out.RolledBack?
      ensures old(Quiet()) ==> Quiet() && out.Done?
    {
      out, content := ReplyOf(faults(calls)), state;
      calls := calls + 1;
    }

    method ReadAnchor() returns (out: Reply, content: Option<Anchor>)
      modifies this`calls
      ensures out.Done? ==> content == anchor && (anchor.Some? ==> Formed(anchor.value))
      ensures !out.Conflict? && !out.RolledBack?
      ensures old(Quiet()) ==> Quiet() && ((anchor.Some? ==> Formed(anchor.value)) ==> out.Done?)
    {
      out, content := ReplyOf(faults(calls)), anchor;
      calls := calls + 1;
      if out.Done? && content.Some? && !Formed(content.value) { return Failed, content; }
    }

    method ReplaceState(next: Snapshot) returns (out: Reply)
      modifies this`calls, this`state
      ensures state == old(state) || state == Some(next)
      ensures out.Done? ==> state == Some(next)
      ensures !out.Conflict? && !out.RolledBack?
      ensures old(Quiet()) ==> Quiet() && out.Done?
    {
      var fault := faults(calls);
      calls := calls + 1;
      if TookEffect(fault) { state := Some(next); }
      out := ReplyOf(fault);
    }

    method ReplaceAnchor(next: Anchor) returns (out: Reply)
      modifies this`calls, this`anchor
      ensures anchor == old(anchor) || anchor == Some(next)
      ensures out.Done? ==> anchor == Some(next)
      ensures !out.Conflict? && !out.RolledBack?
      ensures old(Quiet()) ==> Quiet() && out.Done?
    {
      var fault := faults(calls);
      calls := calls + 1;
      if TookEffect(fault) { anchor := Some(next); }
      out := ReplyOf(fault);
    }

    method WriteAnchor(next: Anchor) returns (out: Reply)
      requires Formed(next)
      modifies this`calls, this`anchor
      ensures anchor == old(anchor) || (anchor == Some(next) && MayFollow(old(anchor), next))
      ensures out.Done? ==> anchor == Some(next)
      ensures out.RolledBack? ==> !MayFollow(old(anchor), next) && anchor == old(anchor)
      ensures !out.Conflict?
      ensures old(Quiet()) && MayFollow(old(anchor), next) && (old(anchor).Some? ==> Formed(old(anchor).value)) ==>
                Quiet() && out.Done?
    {
      var existing: Option<Anchor>;
      out, existing := ReadAnchor();
      if !out.Done? { return; }
      if existing.Some? {
        if next.revision < existing.value.revision { return RolledBack; }
        if next.revision > existing.value.revision + 1 { return RolledBack; }
        if next.revision == existing.value.revision && next.digest != existing.value.digest { return RolledBack; }
      }
      out := ReplaceAnchor(next);
    }

    /** Reads the state, checks it against the anchor, and brings an anchor that is one behind up to date. */
    method Read() returns (out: Reply, s: Snapshot)
      modifies this`calls, this`anchor
      ensures anchor == old(anchor) || (anchor.Some? && MayFollow(old(anchor), anchor.value))
      ensures out.Done? ==> anchor == Some(AnchorOf(s)) && s == Register() && ValidSnapshot(env, s)
      ensures old(Intact()) ==> Intact() && !out.RolledBack? && !out.Conflict?
      ensures old(Intact()) && old(Quiet()) ==> Quiet() && out.Done?
    {
      hide ValidSnapshot;
      var content: Option<Snapshot>;
      s := EMPTY;
      out, content := ReadState();
      if !out.Done? { return; }
      var known: Option<Anchor>;
      if content.None? {
        out, known := ReadAnchor();
        if !out.Done? { return; }
        if known.None? {
          out := WriteAnchor(Anchor(0, None));
          if !out.Done? { return; }
        } else if known.value.revision != 0 || known.value.digest.Some? {
          return RolledBack, s;
        }
        EmptyIsValid(env);
        return Done, s;
      }
      s := content.value;
      var valid := CheckSnapshot(env, s);
      if !valid { return Failed, s; }
      out, known := ReadAnchor();
      if !out.Done? { return; }
      if known.None? { return RolledBack, s; }
      if s.revision < known.value.revision { return RolledBack, s; }
      if s.revision == known.value.revision {
        if known.value.digest != Some(s) { return RolledBack, s; }
        return Done, s;
      }
      if s.revision != known.value.revision + 1 { return RolledBack, s; }
      out := WriteAnchor(AnchorOf(s));
    }

    lemma GuardedByAnchor(s: Snapshot)
      requires Guarded() && anchor == Some(AnchorOf(s)) && (s.revision == 0 ==> s == EMPTY)
      ensures NotBelow(witnessed, s)
    {
    }

    /** Reports the register. Whatever happened to the state file, never a revision below a reported one, and at a
        reported revision never other content. */
    method Load() returns (out: Reply, s: Snapshot)
      requires Guarded()
      modifies this`calls, this`anchor, this`witnessed
      ensures Guarded()
      ensures out.Done? ==> NotBelow(old(witnessed), s) && witnessed == old(witnessed)[s.revision := s]
      ensures !out.Done? ==> witnessed == old(witnessed)
      ensures old(Intact()) ==> Intact() && !out.RolledBack? && !out.Conflict? && (out.Done? ==> s == Register())
      ensures old(Intact()) && old(Quiet()) ==> Quiet() && out.Done?
    {
      hide Intact, ValidSnapshot;
      out, s := Read();
      if !out.Done? { return; }
      RevisionZeroIsEmpty(env, s);
      GuardedByAnchor(s);
      witnessed := witnessed[s.revision := s];
    }

    /** First the state, then its anchor. A crash in between leaves the anchor one behind. */
    method ReplaceBoth(ghost current: Snapshot, next: Snapshot) returns (out: Reply)
      requires Guarded() && ValidSnapshot(env, current) && ValidSnapshot(env, next)
      requires current == Register() && anchor == Some(AnchorOf(current)) && next.revision == current.revision + 1
      modifies this`calls, this`state, this`anchor, this`witnessed
      ensures Guarded()
      ensures out.Done? ==> NotBelow(old(witnessed), next) && witnessed == old(witnessed)[next.revision := next]
      ensures !out.Done? ==> witnessed == old(witnessed)
      ensures old(Intact()) ==> Intact()
      ensures Register() == current || Register() == next
      ensures out.Done? ==> Register() == next
      ensures !out.RolledBack? && !out.Conflict?
      ensures old(Quiet()) ==> Quiet() && out.Done?
    {
      hide ValidSnapshot;
      RevisionZeroIsEmpty(env, current);
      GuardedByAnchor(current);
      out := ReplaceState(next);
      if !out.Done? { return; }
      out := WriteAnchor(AnchorOf(next));
      if !out.Done? { return; }
      witnessed := witnessed[next.revision := next];
    }

    /** Replaces the register by its successor, if it is still at the expected revision. */
    method Commit(expected: nat, next: Snapshot) returns (out: Reply)
      requires Guarded()
      modifies this`calls, this`state, this`anchor, this`witnessed
      ensures Guarded()
      ensures out.Done? ==> NotBelow(old(witnessed), next) && witnessed == old(witnessed)[next.revision := next]
      ensures !out.Done? ==> witnessed == old(witnessed)
      ensures old(Intact()) ==> Intact() && !out.RolledBack?
      ensures old(Intact()) ==> Register() == old(Register())
                                || (Register() == next && next.revision == expected + 1 == old(Register().revision) + 1)
      ensures old(Intact()) && (out.Done? || Register() != old(Register())) ==>
                Register() == next && ValidSnapshot(env, next) && old(Register().revision) == expected < MAX_UINT64
      ensures old(Intact()) && out.Conflict? ==> Register() == old(Register()) && Register().revision != expected
      ensures old(Intact()) && old(Quiet())
              && expected < MAX_UINT64 && next.revision == expected + 1 && ValidSnapshot(env, next) ==>
                Quiet() && out == if old(Register().revision) == expected then Done else Conflict
    {
      hide ValidSnapshot, Intact;
      if expected >= MAX_UINT64 || next.revision != expected + 1 { return Failed; }
      var valid := CheckSnapshot(env, next);
      if !valid { return Failed; }
      var current: Snapshot;
      out, current := Read();
      if !out.Done? { return; }
      if current.revision != expected { return Conflict; }
      out := ReplaceBoth(current, next);
    }

    /** Someone deletes the state file or puts any content there. The anchor is out of reach. */
    method Tamper(content: Option<Snapshot>)
      requires Guarded()
      modifies this`state
      ensures Guarded() && state == content
    {
      state := content;
    }
  }

  /** A snapshot is not older than anything witnessed, and the same at the same revision. */
  ghost predicate NotBelow(witnessed: map<nat, Snapshot>, s: Snapshot) {
    forall r :: r in witnessed ==> r <= s.revision && (r == s.revision ==> witnessed[r] == s)
  }

  lemma RevisionZeroIsEmpty(env: Env, s: Snapshot)
    requires ValidSnapshot(env, s)
    ensures s.revision == 0 ==> s == EMPTY
  {
    hide ValidContent;
  }

  datatype Call = LoadCall | CommitCall(expected: nat, next: Snapshot) | TamperCall(content: Option<Snapshot>)

  /** Reports along a run never go back, and two reports of one revision are the same. */
  ghost predicate NeverBack(reports: seq<Snapshot>) {
    forall i, j :: 0 <= i < j < |reports| ==>
      reports[i].revision <= reports[j].revision
      && (reports[i].revision == reports[j].revision ==> reports[i] == reports[j])
  }

  ghost predicate AllWitnessed(reports: seq<Snapshot>, witnessed: map<nat, Snapshot>) {
    forall i :: 0 <= i < |reports| ==> reports[i].revision in witnessed && witnessed[reports[i].revision] == reports[i]
  }

  lemma OneMoreReport(reports: seq<Snapshot>, witnessed: map<nat, Snapshot>, s: Snapshot)
    requires NeverBack(reports) && AllWitnessed(reports, witnessed) && NotBelow(witnessed, s)
    ensures NeverBack(reports + [s]) && AllWitnessed(reports + [s], witnessed[s.revision := s])
  {
  }

  /** Any sequence of loads, commits and tamperings, going on after every failure and crash. */
  method Run(store: FileStore, run: seq<Call>) returns (reports: seq<Snapshot>)
    requires store.Guarded()
    modifies store
    ensures store.Guarded() && NeverBack(reports)
  {
    reports := [];
    var n := 0;
    while n < |run|
      invariant 0 <= n <= |run|
      invariant store.Guarded() && NeverBack(reports) && AllWitnessed(reports, store.witnessed)
    {
      hide NeverBack, AllWitnessed, NotBelow;
      ghost var before := store.witnessed;
      match run[n] {
        case LoadCall =>
          var out, s := store.Load();
          if out.Done? {
            OneMoreReport(reports, before, s);
            reports := reports + [s];
          }
        case CommitCall(expected, next) =>
          var out := store.Commit(expected, next);
          if out.Done? {
            OneMoreReport(reports, before, next);
            reports := reports + [next];
          }
        case TamperCall(content) =>
          store.Tamper(content);
      }
      n := n + 1;
    }
  }
}
