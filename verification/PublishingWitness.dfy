/** A first publication whose last commit goes wrong: what the caller is told, and what is completed all the same. */
module PublishingWitness {
  import opened Common
  import opened Faults
  import opened Codec
  import opened PublicData
  import opened PublicSnapshots
  import opened IpnsRecord
  import opened Kubo
  import opened PublicationStates
  import opened Publishing

  // A way to write content identifiers: the version in unary, a mark for the codec, and two digits for every byte.

  function Digits(bytes: Bytes): Bytes {
    if bytes == [] then [] else [bytes[0] / 16, bytes[0] % 16] + Digits(bytes[1..])
  }

  function ReadDigits(text: Bytes): Option<Bytes> {
    if text == [] then Some([])
    else if |text| == 1 || text[0] >= 16 || text[1] >= 16 then None
    else
      var rest := ReadDigits(text[2..]);
      if rest.None? then None else Some([16 * text[0] + text[1]] + rest.value)
  }

  lemma {:induction false} DigitsRoundTrip(bytes: Bytes)
    ensures ReadDigits(Digits(bytes)) == Some(bytes) && forall b :: b in Digits(bytes) ==> b < 16
  {
    if bytes != [] {
      DigitsRoundTrip(bytes[1..]);
      assert Digits(bytes)[2..] == Digits(bytes[1..]);
      assert bytes == [bytes[0]] + bytes[1..];
    }
  }

  function Unversioned(c: Cid): Bytes {
    [if c.dagProtobuf then 2 else 3] + Digits(c.multihash)
  }

  function Versioned(version: nat, text: Bytes): Bytes {
    if version == 0 then text else [1] + Versioned(version - 1, text)
  }

  function Text(c: Cid): Bytes {
    Versioned(c.version, Unversioned(c))
  }

  function ReadUnversioned(text: Bytes, version: nat): Option<Cid> {
    if text == [] || (text[0] != 2 && text[0] != 3) then None
    else
      var multihash := ReadDigits(text[1..]);
      if multihash.None? then None else Some(Cid(version, text[0] == 2, multihash.value))
  }

  function ReadFrom(text: Bytes, version: nat): Option<Cid> {
    if text != [] && text[0] == 1 then ReadFrom(text[1..], version + 1) else ReadUnversioned(text, version)
  }

  function ReadText(text: Bytes): Option<Cid> {
    ReadFrom(text, 0)
  }

  predicate Plain(text: Bytes) {
    text != [] && forall i :: 0 <= i < |text| ==> text[i] != SLASH
  }

  lemma UnversionedRoundTrip(c: Cid)
    ensures ReadUnversioned(Unversioned(c), c.version) == Some(c)
    ensures Plain(Unversioned(c)) && Unversioned(c)[0] != 1
  {
    hide Digits, ReadDigits;
    DigitsRoundTrip(c.multihash);
    assert Unversioned(c)[1..] == Digits(c.multihash);
    assert forall i :: 0 < i < |Unversioned(c)| ==> Unversioned(c)[i] in Digits(c.multihash);
  }

  lemma {:induction false} VersionedRoundTrip(version: nat, text: Bytes, from: nat)
    requires Plain(text) && text[0] != 1
    ensures ReadFrom(Versioned(version, text), from) == ReadUnversioned(text, from + version)
    ensures Plain(Versioned(version, text))
    decreases version
  {
    hide ReadUnversioned;
    if version > 0 {
      VersionedRoundTrip(version - 1, text, from + 1);
      assert Versioned(version, text)[1..] == Versioned(version - 1, text);
    }
  }

  lemma TextRoundTrip(c: Cid)
    ensures ReadText(Text(c)) == Some(c) && Plain(Text(c))
  {
    hide Versioned, Unversioned, ReadFrom, ReadUnversioned, Plain;
    UnversionedRoundTrip(c);
    VersionedRoundTrip(c.version, Unversioned(c), 0);
  }

  const NAMES := Naming(name => true, ReadText, Text)
  const RULES := Rules(d => true, d => true)
  const HASHING := Hashing((c, bytes) => Some(c), bytes => false)
  const POLICY := RecordPolicy(NANOSECONDS, NANOSECONDS, NANOSECONDS, 0)
  const KEY := PublicKey([1], (payload, signature) => true)
  const ROOT := Cid(1, true, [])
  const DOCUMENT := Document([1], [], [])
  const INSPECTION := Inspection(Some(ROOT), [InspectedFile([1], [], File, [])], [Block(Some(ROOT), [])])

  lemma NamesAreCoherent()
    ensures NAMES.Coherent()
  {
    forall c
      ensures NAMES.decodeCid(NAMES.cidText(c)) == Some(c) && NAMES.cidText(c) != [] && SLASH !in NAMES.cidText(c)
    {
      TextRoundTrip(c);
    }
  }

  lemma InspectionIsAccepted()
    ensures Accepts(HASHING, ROOT, [DOCUMENT], INSPECTION)
  {
    assert INSPECTION.blocks[0].cid == Some(ROOT);
    assert BlockBytes(INSPECTION.blocks) == 0;
    assert AsDocuments(INSPECTION.files) == [DOCUMENT];
  }

  lemma PublicationIsAdmissible(publication: Option<Publication>)
    requires publication == NewPublication(RULES, KEY.name, 1, [DOCUMENT], 1)
    ensures publication.Some? && Admissible(NAMES, RULES, publication.value, KEY.name)
    ensures publication.value.documents == [DOCUMENT] && publication.value.stateRevision == 1
  {
    assert TotalBytes([DOCUMENT]) == 0;
    assert Publishable(RULES, 1, [DOCUMENT], 1);
    BuiltPublicationIsAdmissible(NAMES, RULES, KEY.name, 1, [DOCUMENT], 1);
  }

  lemma FirstIsOurs()
    ensures ValidState(NAMES, EMPTY_STATE) && OursToContinue(NAMES, KEY, EMPTY_STATE)
  {
  }

  /** The parts, none of them used yet. */
  ghost predicate Assembled(publisher: Publisher, fault: Fault)
    reads publisher, publisher.store, publisher.node, publisher.signer
  {
    && publisher.nm == NAMES && publisher.rules == RULES && publisher.hashing == HASHING && publisher.policy == POLICY
    && publisher.signer.key == KEY
    && publisher.store.durable == EMPTY_STATE && publisher.store.calls == 0 && publisher.node.calls == 0
    && (forall n :: publisher.store.faults(n) == if n == 2 then fault else Answers)
    && (forall n :: publisher.node.faults(n) == Answers && publisher.node.roots(n) == ROOT
                    && publisher.node.inspections(n) == INSPECTION && publisher.node.pins(n))
    && (forall n :: publisher.signer.faults(n) == Answers)
    && (forall n, payload :: publisher.signer.signatures(n, payload) == [1])
    && (forall n :: publisher.clock(n) == 0)
  }

  lemma EverythingIsWilling(publisher: Publisher, fault: Fault)
    requires Assembled(publisher, fault)
    ensures publisher.Able(1) && publisher.Preparing()
  {
  }

  lemma RootIsReachable(publisher: Publisher, fault: Fault, snapshot: PublicSnapshot)
    requires Assembled(publisher, fault) && snapshot.files == [DOCUMENT]
    ensures publisher.Reachable(snapshot)
  {
    InspectionIsAccepted();
    hide Accepts;
  }

  lemma FirstCanPublish(publisher: Publisher, fault: Fault, publication: Publication)
    requires Assembled(publisher, fault)
    requires Admissible(NAMES, RULES, publication, KEY.name)
    requires publication.documents == [DOCUMENT] && publication.stateRevision == 1
    ensures publisher.CanPublish(publication) && publisher.Preparing()
  {
    hide Admissible, OursToContinue, Publisher.Able, Publisher.Reachable;
    FirstIsOurs();
    EverythingIsWilling(publisher, fault);
    RootIsReachable(publisher, fault, SnapshotOf(publication));
  }

  /** A publisher whose store fails as given when the completion is committed. */
  method Assemble(fault: Fault) returns (publisher: Publisher)
    ensures fresh(publisher) && fresh(publisher.store) && fresh(publisher.node) && fresh(publisher.signer)
    ensures Assembled(publisher, fault) && publisher.Sound()
  {
    NamesAreCoherent();
    FirstIsOurs();
    hide Naming.Coherent, ValidState;
    var store := new StateStore(NAMES, n => if n == 2 then fault else Answers);
    var node := new Node(n => Answers, n => ROOT, n => INSPECTION, n => true);
    var signer := new Signer(KEY, n => Answers, (n, payload) => [1]);
    publisher := new Publisher(NAMES, RULES, HASHING, POLICY, n => 0, store, node, signer);
  }

  /**
   * Everything answers but the commit that stores the completion. Publish ends as that commit did; the completed fields
   * have moved exactly if it took effect. With `Fails(true)` the call fails and the publication is completed.
   */
  method LastCommitDecides(fault: Fault) returns (before: State, after: State, out: Outcome)
    ensures before == EMPTY_STATE
    ensures out == OutcomeOf(fault)
    ensures !SameLast(before, after) <==> TookEffect(fault)
    ensures TookEffect(fault) ==> after.lastTrustRevision == 1 && after.lastPublicationID.Some?
  {
    hide Admissible, Accepts, Publisher.CanPublish, Publisher.Sound, Publisher.Preparing, Publisher.PinnedNow, SafeCall;
    var publisher := Assemble(fault);
    var publication := BuildPublication(RULES, KEY.name, 1, [DOCUMENT], 1);
    PublicationIsAdmissible(publication);
    FirstCanPublish(publisher, fault, publication.value);
    before := publisher.store.durable;
    var receipt;
    out, receipt := publisher.Publish(publication.value);
    after := publisher.store.durable;
  }
}
