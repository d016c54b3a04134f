/** The publisher's side of a publication: it is checked again before anything is imported. */
module PublicSnapshots {
  import opened Common
  import opened Codec
  import opened PublicData
  import opened IpnsRecord

  datatype PublicSnapshot = PublicSnapshot(
    publicationID: Digest,
    digest: Digest,
    ipnsName: Bytes,
    stateRevision: nat,
    createdAt: nat,
    files: seq<Document>)

  /** The publication's own validation. */
  predicate Validates(nm: Naming, rules: Rules, p: Publication) {
    nm.canonicalName(p.ipnsName) && ValidPublication(rules, p.ipnsName, p)
  }

  predicate Importable(rules: Rules, d: Document) {
    d.path != [] && rules.importable(d) && rules.allowed(d)
  }

  /** What the import seam accepts. */
  predicate Admissible(nm: Naming, rules: Rules, p: Publication, expectedName: Bytes) {
    && Validates(nm, rules, p)
    && expectedName != []
    && p.ipnsName == expectedName
    && (forall i :: 0 <= i < |p.documents| ==> Importable(rules, p.documents[i]))
    && StrictlySorted(p.documents)
  }

  function SnapshotOf(p: Publication): PublicSnapshot {
    PublicSnapshot(p.id, p.digest, p.ipnsName, p.stateRevision, p.createdAt, p.documents)
  }

  const SNAPSHOT_DOMAIN: Bytes := Ascii("github.com/sovereignite/sovereignite/trust-publication/v1\0")

  /** What a hash has been fed with after these writes. */
  function Joined(writes: seq<Bytes>): Bytes {
    if writes == [] then [] else Joined(writes[..|writes| - 1]) + writes[|writes| - 1]
  }

  lemma JoinedOneMore(writes: seq<Bytes>, value: Bytes)
    ensures Joined(writes + [value]) == Joined(writes) + value
  {
    assert (writes + [value])[..|writes|] == writes;
  }

  /** Two writes: the length, then the value. */
  method WriteDigestField(writes: seq<Bytes>, value: Bytes) returns (more: seq<Bytes>)
    ensures Joined(more) == Joined(writes) + Field(value)
  {
    hide Joined, Uint64;
    more := writes + [Uint64(|value|)];
    JoinedOneMore(writes, Uint64(|value|));
    JoinedOneMore(more, value);
    more := more + [value];
  }

  /** The three fields of one file. */
  method WriteFile(writes: seq<Bytes>, file: Document) returns (more: seq<Bytes>)
    ensures Joined(more) == Joined(writes) + FieldsOf(file)
  {
    hide Joined, Field;
    more := WriteDigestField(writes, file.path);
    more := WriteDigestField(more, file.mediaType);
    more := WriteDigestField(more, file.content);
  }

  /** The digest as the publishing side computes it, with its own domain constant, its own field writer and its own loop
      over its copy of the files. It is the digest of the trust side. */
  method SnapshotDigest(name: Bytes, revision: nat, files: seq<Document>) returns (digest: Digest)
    ensures digest == DigestOf(name, revision, files)
  {
    hide Joined, Field, Uint64, FieldsOf, DocumentBytes;
    JoinedOneMore([], SNAPSHOT_DOMAIN);
    assert Joined([]) == [] by { JoinedNothing(); }
    assert [] + [SNAPSHOT_DOMAIN] == [SNAPSHOT_DOMAIN];
    var writes := [SNAPSHOT_DOMAIN];
    writes := WriteDigestField(writes, name);
    JoinedOneMore(writes, Uint64(revision));
    writes := writes + [Uint64(revision)];
    ghost var header := SNAPSHOT_DOMAIN + Field(name) + Uint64(revision);
    assert DocumentBytes(files[..0]) == [] by { EmptyDocumentBytes(files); }
    for i := 0 to |files|
      invariant Joined(writes) == header + DocumentBytes(files[..i])
    {
      DocumentBytesSnoc(files[..i], files[i]);
      assert files[..i + 1] == files[..i] + [files[i]];
      writes := WriteFile(writes, files[i]);
    }
    assert files[..|files|] == files;
    assert header + DocumentBytes(files) == TRUST_DOMAIN + (Field(name) + (Uint64(revision) + DocumentBytes(files)));
    return Sha256(Joined(writes));
  }

  lemma JoinedNothing()
    ensures Joined([]) == []
  {
  }

  lemma ArrangedAlready(docs: seq<Document>)
    requires StrictlySorted(docs)
    ensures Arrange(docs) == docs
  {
    StrictIsDistinct(docs);
    ArrangedIsStrict(docs);
    StrictArrangementUnique(Arrange(docs), docs);
  }

  lemma StrictIsDistinct(docs: seq<Document>)
    requires StrictlySorted(docs)
    ensures DistinctPaths(docs)
  {
    forall i, j | 0 <= i < j < |docs|
      ensures docs[i].path != docs[j].path
    {
      LessIrreflexive(docs[i].path);
    }
  }

  /** Copies the documents one by one, demanding that each is allowed, after the last one, and within the total. */
  method CopyFiles(rules: Rules, docs: seq<Document>) returns (files: Option<seq<Document>>)
    ensures files.Some? <==>
            && (forall i :: 0 <= i < |docs| ==> Importable(rules, docs[i])) && StrictlySorted(docs)
            && TotalBytes(docs) <= MAX_PUBLICATION_BYTES
    ensures files.Some? ==> files.value == docs
  {
    hide Importable, TotalBytes, Less, Rising, StrictlySorted;
    var copied: seq<Document> := [];
    var previousPath: Bytes := [];
    var total := 0;
    var i := 0;
    NoBytes(docs);
    NothingRises(docs);
    while i < |docs|
      invariant 0 <= i <= |docs|
      invariant copied == docs[..i]
      invariant total == TotalBytes(docs[..i]) <= MAX_PUBLICATION_BYTES
      invariant forall k :: 0 <= k < i ==> Importable(rules, docs[k])
      invariant previousPath == (if i == 0 then [] else docs[i - 1].path)
      invariant Rising(docs, i)
    {
      var d := docs[i];
      var importable := Importable(rules, d);
      if !importable { return None; }
      if previousPath != [] && !Less(previousPath, d.path) {
        if StrictlySorted(docs) { NeighboursRise(docs, i); }
        return None;
      }
      if i > 0 { ImportableHasPath(rules, docs[i - 1]); }
      ExtendOrder(docs, i);
      TotalOneMore(docs, i);
      previousPath := d.path;
      total := total + |d.content|;
      if total > MAX_PUBLICATION_BYTES { return None; }
      copied := copied + [d];
      i := i + 1;
    }
    assert docs[..i] == docs;
    RisingIsSorted(docs);
    return Some(copied);
  }

  lemma ImportableHasPath(rules: Rules, d: Document)
    requires Importable(rules, d)
    ensures d.path != []
  {
  }

  /** The first documents are in strictly rising order. */
  ghost predicate Rising(docs: seq<Document>, i: nat) {
    forall j, k :: 0 <= j < k < i && k < |docs| ==> Less(docs[j].path, docs[k].path)
  }

  lemma NothingRises(docs: seq<Document>)
    ensures Rising(docs, 0)
  {
  }

  lemma RisingIsSorted(docs: seq<Document>)
    ensures Rising(docs, |docs|) <==> StrictlySorted(docs)
  {
    hide Less;
  }

  lemma NeighboursRise(docs: seq<Document>, i: nat)
    requires 0 < i < |docs| && StrictlySorted(docs)
    ensures Less(docs[i - 1].path, docs[i].path)
  {
    hide Less;
  }

  lemma ExtendOrder(docs: seq<Document>, i: nat)
    requires i < |docs| && (i == 0 || Less(docs[i - 1].path, docs[i].path)) && Rising(docs, i)
    ensures Rising(docs, i + 1)
  {
    hide Less;
    forall j | 0 <= j < i
      ensures Less(docs[j].path, docs[i].path)
    {
      if j < i - 1 { LessTransitive(docs[j].path, docs[i - 1].path, docs[i].path); }
    }
  }

  /** The import seam: exactly the admissible publications get through, unchanged. */
  method NewPublicSnapshot(nm: Naming, rules: Rules, p: Publication, expectedName: Bytes)
    returns (snapshot: Option<PublicSnapshot>)
    ensures snapshot.Some? <==> Admissible(nm, rules, p, expectedName)
    ensures snapshot.Some? ==> snapshot.value == SnapshotOf(p)
  {
    if !Validates(nm, rules, p) { return None; }
    if expectedName == [] || !nm.canonicalName(expectedName) || p.ipnsName != expectedName { return None; }
    var files := CopyFiles(rules, p.documents);
    if files.None? { return None; }
    var digest := SnapshotDigest(p.ipnsName, p.stateRevision, files.value);
    ArrangedAlready(p.documents);
    if p.id != digest || p.digest != digest { return None; }
    return Some(PublicSnapshot(p.id, p.digest, p.ipnsName, p.stateRevision, p.createdAt, files.value));
  }

  /** Whatever the trust side builds for this name, of documents the import seam knows, gets through it. */
  lemma BuiltPublicationIsAdmissible(nm: Naming, rules: Rules, name: Bytes, revision: nat, docs: seq<Document>,
                                     now: nat)
    requires name != [] && nm.canonicalName(name)
    requires forall i :: 0 <= i < |docs| ==> Importable(rules, docs[i])
    requires NewPublication(rules, name, revision, docs, now).Some?
    ensures Admissible(nm, rules, NewPublication(rules, name, revision, docs, now).value, name)
  {
    var p := NewPublication(rules, name, revision, docs, now).value;
    NewPublicationValidates(rules, name, revision, docs, now);
    forall i | 0 <= i < |p.documents|
      ensures Importable(rules, p.documents[i])
    {
      PermutedMember(p.documents, docs, p.documents[i]);
    }
  }
}
