/** Public documents, the publications that bind them, and the digest both ends compute. */
module PublicData {
  import opened Common
  import opened Codec

  const MAX_DOCUMENTS: nat := 256
  const MAX_PUBLICATION_BYTES: nat := 0x40_0000

  datatype Document = Document(path: Bytes, mediaType: Bytes, content: Bytes)

  /** SHA-256 taken as collision free: a digest is its preimage under a name. */
  datatype Digest = Sha256(preimage: Bytes)

  /** One outbox item. Times are natural numbers; 0 is the zero time. */
  datatype Publication = Publication(
    id: Digest,
    stateRevision: nat,
    ipnsName: Bytes,
    digest: Digest,
    documents: seq<Document>,
    createdAt: nat)

  /** What the two content policies accept: the document rules of the trust side, and the path list of the IPFS side. */
  datatype Rules = Rules(allowed: Document -> bool, importable: Document -> bool)

  // The order of paths.

  /** Byte-wise lexicographic order. */
  predicate Less(a: Bytes, b: Bytes) {
    b != [] && (a == [] || a[0] < b[0] || (a[0] == b[0] && Less(a[1..], b[1..])))
  }

  lemma {:induction false} LessIrreflexive(a: Bytes)
    ensures !Less(a, a)
  {
    if a != [] { LessIrreflexive(a[1..]); }
  }

  lemma {:induction false} LessTransitive(a: Bytes, b: Bytes, c: Bytes)
    requires Less(a, b) && Less(b, c)
    ensures Less(a, c)
  {
    if a != [] && a[0] == b[0] && b[0] == c[0] { LessTransitive(a[1..], b[1..], c[1..]); }
  }

  lemma {:induction false} LessTotal(a: Bytes, b: Bytes)
    ensures Less(a, b) || a == b || Less(b, a)
  {
    if a != [] && b != [] && a[0] == b[0] {
      LessTotal(a[1..], b[1..]);
      assert a == [a[0]] + a[1..] && b == [b[0]] + b[1..];
    }
  }

  /** No path is before an earlier one. */
  predicate Sorted(docs: seq<Document>) {
    forall i, j :: 0 <= i < j < |docs| ==> !Less(docs[j].path, docs[i].path)
  }

  predicate StrictlySorted(docs: seq<Document>) {
    forall i, j :: 0 <= i < j < |docs| ==> Less(docs[i].path, docs[j].path)
  }

  predicate DistinctPaths(docs: seq<Document>) {
    forall i, j :: 0 <= i < j < |docs| ==> docs[i].path != docs[j].path
  }

  lemma SortedDistinctIsStrict(docs: seq<Document>)
    requires Sorted(docs)
    ensures DistinctPaths(docs) <==> StrictlySorted(docs)
  {
    forall i, j | 0 <= i < j < |docs|
      ensures docs[i].path != docs[j].path <==> Less(docs[i].path, docs[j].path)
    {
      LessTotal(docs[i].path, docs[j].path);
      LessIrreflexive(docs[i].path);
    }
  }

  /** A sorted list repeats a path exactly when two neighbours do. */
  lemma RepeatsAreNeighbours(docs: seq<Document>)
    requires Sorted(docs)
    requires forall i :: 0 < i < |docs| ==> docs[i - 1].path != docs[i].path
    ensures DistinctPaths(docs)
  {
    forall i, j | 0 <= i < j < |docs|
      ensures docs[i].path != docs[j].path
    {
      var k := i + 1;
      LessTotal(docs[i].path, docs[k].path);
      assert docs[k - 1].path != docs[k].path;
      assert !Less(docs[k].path, docs[i].path);
      assert k == j || !Less(docs[j].path, docs[k].path);
    }
  }

  // Two arrangements of the same documents.

  predicate Permutes(a: seq<Document>, b: seq<Document>) {
    multiset(a) == multiset(b)
  }

  lemma PermutedMember(a: seq<Document>, b: seq<Document>, d: Document)
    requires Permutes(a, b)
    ensures d in a <==> d in b
  {
    assert d in a <==> d in multiset(a);
    assert d in b <==> d in multiset(b);
  }

  lemma PermutedTail(a: seq<Document>, b: seq<Document>)
    requires a != [] && b != [] && a[0] == b[0] && Permutes(a, b)
    ensures Permutes(a[1..], b[1..])
  {
    assert a == [a[0]] + a[1..] && b == [b[0]] + b[1..];
    assert multiset(a[1..]) == multiset(a) - multiset{a[0]};
    assert multiset(b[1..]) == multiset(b) - multiset{b[0]};
  }

  lemma PermutedLength(a: seq<Document>, b: seq<Document>)
    requires Permutes(a, b)
    ensures |a| == |b|
  {
    assert |multiset(a)| == |a| && |multiset(b)| == |b|;
  }

  lemma StrictHeadIsLeast(docs: seq<Document>, d: Document)
    requires docs != [] && StrictlySorted(docs) && d in docs && d != docs[0]
    ensures Less(docs[0].path, d.path)
  {
    var i :| 0 <= i < |docs| && docs[i] == d;
    assert i != 0;
  }

  /** There is only one strictly sorted arrangement of given documents. */
  lemma {:induction false} StrictArrangementUnique(a: seq<Document>, b: seq<Document>)
    requires StrictlySorted(a) && StrictlySorted(b) && Permutes(a, b)
    ensures a == b
  {
    PermutedLength(a, b);
    if a != [] {
      PermutedMember(a, b, a[0]);
      PermutedMember(a, b, b[0]);
      if a[0] != b[0] {
        StrictHeadIsLeast(a, b[0]);
        StrictHeadIsLeast(b, a[0]);
        LessTransitive(a[0].path, b[0].path, a[0].path);
        LessIrreflexive(a[0].path);
        assert false;
      }
      PermutedTail(a, b);
      StrictArrangementUnique(a[1..], b[1..]);
      assert a == [a[0]] + a[1..] && b == [b[0]] + b[1..];
    }
  }

  lemma {:induction false} DistinctIsUnordered(a: seq<Document>, b: seq<Document>)
    requires Permutes(a, b) && DistinctPaths(a)
    ensures DistinctPaths(b)
  {
    forall i, j | 0 <= i < j < |b|
      ensures b[i].path != b[j].path
    {
      PermutedMember(a, b, b[i]);
      PermutedMember(a, b, b[j]);
      if b[i] == b[j] {
        TwiceInMultiset(b, i, j);
        OnceInMultiset(a, b[i]);
      }
    }
  }

  lemma TwiceInMultiset(docs: seq<Document>, i: nat, j: nat)
    requires i < j < |docs| && docs[i] == docs[j]
    ensures multiset(docs)[docs[i]] >= 2
  {
    var front, back := docs[..j], docs[j..];
    assert docs == front + back;
    assert docs[i] == front[i] && docs[j] == back[0];
    assert docs[i] in multiset(front) && docs[j] in multiset(back);
  }

  lemma DistinctTail(docs: seq<Document>)
    requires docs != [] && DistinctPaths(docs)
    ensures DistinctPaths(docs[1..]) && docs[0] !in docs[1..]
  {
    var rest := docs[1..];
    forall i | 0 <= i < |rest|
      ensures rest[i] != docs[0]
    {
      assert docs[0].path != docs[i + 1].path;
    }
    forall i, j | 0 <= i < j < |rest|
      ensures rest[i].path != rest[j].path
    {
      assert docs[i + 1].path != docs[j + 1].path;
    }
  }

  lemma {:induction false} OnceInMultiset(docs: seq<Document>, d: Document)
    requires DistinctPaths(docs)
    ensures multiset(docs)[d] <= 1
  {
    if docs != [] {
      DistinctTail(docs);
      hide DistinctPaths;
      assert docs == [docs[0]] + docs[1..];
      assert multiset(docs) == multiset{docs[0]} + multiset(docs[1..]);
      OnceInMultiset(docs[1..], d);
    }
  }

  function TotalBytes(docs: seq<Document>): nat {
    if docs == [] then 0 else TotalBytes(docs[..|docs| - 1]) + |docs[|docs| - 1].content|
  }

  lemma {:induction false} TotalBytesSplit(a: seq<Document>, b: seq<Document>)
    ensures TotalBytes(a + b) == TotalBytes(a) + TotalBytes(b)
    decreases |b|
  {
    if b == [] {
      assert a + b == a;
    } else {
      assert (a + b)[..|a + b| - 1] == a + b[..|b| - 1];
      TotalBytesSplit(a, b[..|b| - 1]);
    }
  }

  /** The list without one of its documents. */
  function Without(docs: seq<Document>, i: nat): seq<Document>
    requires i < |docs|
  {
    docs[..i] + docs[i + 1..]
  }

  lemma TotalFirst(docs: seq<Document>)
    requires docs != []
    ensures TotalBytes(docs) == |docs[0].content| + TotalBytes(docs[1..])
  {
    assert docs == [docs[0]] + docs[1..];
    TotalBytesSplit([docs[0]], docs[1..]);
  }

  lemma TotalWithout(docs: seq<Document>, i: nat)
    requires i < |docs|
    ensures TotalBytes(docs) == TotalBytes(Without(docs, i)) + |docs[i].content|
  {
    assert docs == docs[..i] + ([docs[i]] + docs[i + 1..]);
    TotalBytesSplit(docs[..i], [docs[i]] + docs[i + 1..]);
    TotalBytesSplit([docs[i]], docs[i + 1..]);
    TotalBytesSplit(docs[..i], docs[i + 1..]);
  }

  /** Taking the same document out of both keeps a permutation. */
  lemma PermutedWithout(a: seq<Document>, b: seq<Document>, i: nat)
    requires Permutes(a, b) && a != [] && i < |b| && b[i] == a[0]
    ensures Permutes(a[1..], Without(b, i))
  {
    assert a == [a[0]] + a[1..];
    assert b == b[..i] + ([b[i]] + b[i + 1..]);
    assert multiset(b[..i] + b[i + 1..]) == multiset(b) - multiset{b[i]};
    assert multiset(a[1..]) == multiset(a) - multiset{a[0]};
  }

  lemma {:induction false} TotalIsUnordered(a: seq<Document>, b: seq<Document>)
    requires Permutes(a, b)
    ensures TotalBytes(a) == TotalBytes(b)
    decreases |a|
  {
    PermutedLength(a, b);
    if a != [] {
      hide TotalBytes, Permutes, Without;
      PermutedMember(a, b, a[0]);
      var i :| 0 <= i < |b| && b[i] == a[0];
      var others := Without(b, i);
      PermutedWithout(a, b, i);
      TotalWithout(b, i);
      TotalFirst(a);
      TotalIsUnordered(a[1..], others);
    }
  }

  // The digest.

  /** The hashed form of one document. */
  function FieldsOf(d: Document): (bytes: Bytes)
    ensures |bytes| == 24 + |d.path| + |d.mediaType| + |d.content|
  {
    Field(d.path) + (Field(d.mediaType) + Field(d.content))
  }

  /** The hashed form of a list of documents. */
  function DocumentBytes(docs: seq<Document>): Bytes {
    if docs == [] then [] else FieldsOf(docs[0]) + DocumentBytes(docs[1..])
  }

  function Preimage(domain: Bytes, name: Bytes, revision: nat, docs: seq<Document>): Bytes {
    domain + (Field(name) + (Uint64(revision) + DocumentBytes(docs)))
  }

  predicate FitsDocument(d: Document) {
    |d.path| < TWO_64 && |d.mediaType| < TWO_64 && |d.content| < TWO_64
  }

  predicate FitDocuments(docs: seq<Document>) {
    forall i :: 0 <= i < |docs| ==> FitsDocument(docs[i])
  }

  function ReadDocument(bytes: Bytes): (r: Option<Parsed<Document>>)
    ensures r.Some? ==> |r.value.rest| < |bytes|
  {
    var path := ReadField(bytes);
    if path.None? then None
    else
      var mediaType := ReadField(path.value.rest);
      if mediaType.None? then None
      else
        var content := ReadField(mediaType.value.rest);
        if content.None? then None
        else Some(Parsed(Document(path.value.value, mediaType.value.value, content.value.value), content.value.rest))
  }

  function ReadDocuments(bytes: Bytes): Option<seq<Document>>
    decreases |bytes|
  {
    if bytes == [] then Some([])
    else
      var first := ReadDocument(bytes);
      if first.None? then None
      else
        var rest := ReadDocuments(first.value.rest);
        if rest.None? then None else Some([first.value.value] + rest.value)
  }

  lemma DocumentRoundTrip(d: Document, rest: Bytes)
    requires FitsDocument(d)
    ensures ReadDocument(FieldsOf(d) + rest) == Some(Parsed(d, rest))
  {
    hide Field, ReadField;
    var tail2 := Field(d.content) + rest;
    var tail1 := Field(d.mediaType) + tail2;
    assert FieldsOf(d) + rest == Field(d.path) + tail1;
    FieldRoundTrip(d.path, tail1);
    FieldRoundTrip(d.mediaType, tail2);
    FieldRoundTrip(d.content, rest);
  }

  lemma ReadOneMore(bytes: Bytes, d: Document, rest: Bytes, docs: seq<Document>)
    requires bytes != [] && ReadDocument(bytes) == Some(Parsed(d, rest)) && ReadDocuments(rest) == Some(docs)
    ensures ReadDocuments(bytes) == Some([d] + docs)
  {
    hide ReadDocument;
  }

  lemma {:induction false} DocumentsRoundTrip(docs: seq<Document>)
    requires FitDocuments(docs)
    ensures ReadDocuments(DocumentBytes(docs)) == Some(docs)
  {
    if docs != [] {
      hide FieldsOf, ReadDocument, ReadDocuments, FitsDocument, FitDocuments, DocumentBytes;
      var d, tail := docs[0], docs[1..];
      assert docs == [d] + tail;
      FitFirst(docs);
      DocumentBytesFirst(docs);
      var rest := DocumentBytes(tail);
      DocumentsRoundTrip(tail);
      DocumentRoundTrip(d, rest);
      ReadOneMore(DocumentBytes(docs), d, rest, tail);
    }
  }

  lemma FitFirst(docs: seq<Document>)
    requires docs != [] && FitDocuments(docs)
    ensures FitsDocument(docs[0]) && FitDocuments(docs[1..])
  {
  }

  lemma DocumentBytesFirst(docs: seq<Document>)
    requires docs != []
    ensures DocumentBytes(docs) == FieldsOf(docs[0]) + DocumentBytes(docs[1..]) && DocumentBytes(docs) != []
  {
  }

  datatype Bound = Bound(name: Bytes, revision: nat, documents: seq<Document>)

  function ReadPreimage(domainLength: nat, bytes: Bytes): Option<Bound> {
    if |bytes| < domainLength then None
    else
      var name := ReadField(bytes[domainLength..]);
      if name.None? then None
      else
        var revision := ReadUint64(name.value.rest);
        if revision.None? then None
        else
          var docs := ReadDocuments(revision.value.rest);
          if docs.None? then None else Some(Bound(name.value.value, revision.value.value, docs.value))
  }

  /** The hashed bytes determine the name, the revision and every document, however many there are. */
  lemma PreimageRoundTrip(domain: Bytes, name: Bytes, revision: nat, docs: seq<Document>)
    requires |name| < TWO_64 && revision < TWO_64 && FitDocuments(docs)
    ensures ReadPreimage(|domain|, Preimage(domain, name, revision, docs)) == Some(Bound(name, revision, docs))
  {
    hide Field, ReadField, Uint64, ReadUint64, DocumentBytes, ReadDocuments, FitDocuments;
    var tail2 := DocumentBytes(docs);
    var tail1 := Uint64(revision) + tail2;
    assert Preimage(domain, name, revision, docs)[|domain|..] == Field(name) + tail1;
    FieldRoundTrip(name, tail1);
    Uint64RoundTrip(revision, tail2);
    DocumentsRoundTrip(docs);
  }

  const TRUST_DOMAIN: Bytes := Ascii("github.com/sovereignite/sovereignite/trust-publication/v1\0")

  function DigestOf(name: Bytes, revision: nat, docs: seq<Document>): Digest {
    Sha256(Preimage(TRUST_DOMAIN, name, revision, docs))
  }

  lemma {:induction false} DocumentBytesSnoc(docs: seq<Document>, d: Document)
    ensures DocumentBytes(docs + [d]) == DocumentBytes(docs) + FieldsOf(d)
  {
    hide FieldsOf;
    if docs == [] {
      assert docs + [d] == [d];
      assert DocumentBytes([d]) == FieldsOf(d) + [];
    } else {
      assert (docs + [d])[1..] == docs[1..] + [d];
      DocumentBytesSnoc(docs[1..], d);
    }
  }

  /** Writes one document into a running hash. */
  method WriteDocument(written: Bytes, d: Document) returns (longer: Bytes)
    ensures longer == written + FieldsOf(d)
  {
    hide Field;
    longer := written + Field(d.path);
    longer := longer + Field(d.mediaType);
    longer := longer + Field(d.content);
  }

  lemma EmptyDocumentBytes(docs: seq<Document>)
    ensures DocumentBytes(docs[..0]) == []
  {
  }

  /** The digest as the trust side computes it, feeding a running hash with the name, the revision and the documents in
      order. From the hashed bytes all of them can be read back. */
  method PublicationDigest(name: Bytes, revision: nat, docs: seq<Document>) returns (digest: Digest)
    ensures digest == DigestOf(name, revision, docs)
    ensures |name| < TWO_64 && revision < TWO_64 && FitDocuments(docs)
            ==> ReadPreimage(|TRUST_DOMAIN|, digest.preimage) == Some(Bound(name, revision, docs))
  {
    hide Field, Uint64, FieldsOf, DocumentBytes, ReadPreimage, FitDocuments;
    var written := TRUST_DOMAIN + Field(name);
    written := written + Uint64(revision);
    ghost var header := written;
    assert DocumentBytes(docs[..0]) == [] by { EmptyDocumentBytes(docs); }
    var i := 0;
    while i < |docs|
      invariant 0 <= i <= |docs|
      invariant written == header + DocumentBytes(docs[..i])
    {
      DocumentBytesSnoc(docs[..i], docs[i]);
      assert docs[..i + 1] == docs[..i] + [docs[i]];
      written := WriteDocument(written, docs[i]);
      i := i + 1;
    }
    assert docs[..i] == docs;
    assert header + DocumentBytes(docs) == TRUST_DOMAIN + (Field(name) + (Uint64(revision) + DocumentBytes(docs)));
    digest := Sha256(written);
    if |name| < TWO_64 && revision < TWO_64 && FitDocuments(docs) {
      PreimageRoundTrip(TRUST_DOMAIN, name, revision, docs);
    }
  }

  // Publications.

  predicate AllAllowed(rules: Rules, docs: seq<Document>) {
    forall i :: 0 <= i < |docs| ==> rules.allowed(docs[i])
  }

  /** What a publication may bind. */
  predicate Publishable(rules: Rules, revision: nat, docs: seq<Document>, now: nat) {
    && revision != 0
    && now != 0
    && 1 <= |docs| <= MAX_DOCUMENTS
    && AllAllowed(rules, docs)
    && TotalBytes(docs) <= MAX_PUBLICATION_BYTES
    && DistinctPaths(docs)
  }

  /** A document put at its place in a sorted list. */
  function Insert(d: Document, docs: seq<Document>): (r: seq<Document>)
    requires Sorted(docs)
    ensures Sorted(r) && multiset(r) == multiset(docs) + multiset{d}
  {
    if docs == [] then [d]
    else if Less(docs[0].path, d.path) then
      var r := [docs[0]] + Insert(d, docs[1..]);
      assert docs == [docs[0]] + docs[1..];
      InsertBehind(d, docs, Insert(d, docs[1..]));
      r
    else
      InsertBefore(d, docs);
      [d] + docs
  }

  lemma InsertBefore(d: Document, docs: seq<Document>)
    requires docs != [] && Sorted(docs) && !Less(docs[0].path, d.path)
    ensures Sorted([d] + docs)
  {
    var r := [d] + docs;
    forall i, j | 0 <= i < j < |r|
      ensures !Less(r[j].path, r[i].path)
    {
      if i == 0 && j > 1 && Less(docs[j - 1].path, d.path) {
        LessTotal(docs[0].path, docs[j - 1].path);
        if Less(docs[0].path, docs[j - 1].path) { LessTransitive(docs[0].path, docs[j - 1].path, d.path); }
      }
    }
  }

  lemma InsertBehind(d: Document, docs: seq<Document>, rest: seq<Document>)
    requires docs != [] && Sorted(docs) && Less(docs[0].path, d.path)
    requires Sorted(rest) && multiset(rest) == multiset(docs[1..]) + multiset{d}
    ensures Sorted([docs[0]] + rest)
  {
    var r := [docs[0]] + rest;
    forall i, j | 0 <= i < j < |r|
      ensures !Less(r[j].path, r[i].path)
    {
      if i == 0 {
        assert rest[j - 1] in multiset(rest);
        if rest[j - 1] == d {
          if Less(d.path, docs[0].path) {
            LessTransitive(docs[0].path, d.path, docs[0].path);
            LessIrreflexive(docs[0].path);
          }
        } else {
          assert rest[j - 1] in multiset(docs[1..]);
          assert rest[j - 1] in docs[1..];
        }
      }
    }
  }

  /** The documents in path order. */
  function Arrange(docs: seq<Document>): (r: seq<Document>)
    ensures Sorted(r) && Permutes(r, docs)
  {
    if docs == [] then []
    else
      assert docs == [docs[0]] + docs[1..];
      Insert(docs[0], Arrange(docs[1..]))
  }

  function NewPublication(rules: Rules, name: Bytes, revision: nat, docs: seq<Document>,
                          now: nat): Option<Publication> {
    if Publishable(rules, revision, docs, now) then
      var arranged := Arrange(docs);
      var digest := DigestOf(name, revision, arranged);
      Some(Publication(digest, revision, name, digest, arranged, now))
    else None
  }

  lemma AllowedIsUnordered(rules: Rules, a: seq<Document>, b: seq<Document>)
    requires Permutes(a, b) && AllAllowed(rules, a)
    ensures AllAllowed(rules, b)
  {
    forall i | 0 <= i < |b|
      ensures rules.allowed(b[i])
    {
      PermutedMember(a, b, b[i]);
    }
  }

  lemma PublishableIsUnordered(rules: Rules, revision: nat, a: seq<Document>, b: seq<Document>, now: nat)
    requires Permutes(a, b) && Publishable(rules, revision, a, now)
    ensures Publishable(rules, revision, b, now)
  {
    PermutedLength(a, b);
    AllowedIsUnordered(rules, a, b);
    TotalIsUnordered(a, b);
    DistinctIsUnordered(a, b);
  }

  lemma ArrangedIsStrict(docs: seq<Document>)
    requires DistinctPaths(docs)
    ensures StrictlySorted(Arrange(docs))
  {
    DistinctIsUnordered(docs, Arrange(docs));
    SortedDistinctIsStrict(Arrange(docs));
  }

  /** A publication, its identifier included, does not depend on the order its documents were given in. */
  lemma NewPublicationIsUnordered(rules: Rules, name: Bytes, revision: nat, a: seq<Document>, b: seq<Document>,
                                  now: nat)
    requires Permutes(a, b)
    ensures NewPublication(rules, name, revision, a, now) == NewPublication(rules, name, revision, b, now)
  {
    if Publishable(rules, revision, a, now) {
      PublishableIsUnordered(rules, revision, a, b, now);
      ArrangedIsStrict(a);
      ArrangedIsStrict(b);
      StrictArrangementUnique(Arrange(a), Arrange(b));
    } else if Publishable(rules, revision, b, now) {
      PublishableIsUnordered(rules, revision, b, a, now);
    }
  }

  /** Rebuilding a publication from what it holds gives the same identity. */
  predicate ValidPublication(rules: Rules, name: Bytes, p: Publication) {
    var rebuilt := NewPublication(rules, name, p.stateRevision, p.documents, p.createdAt);
    rebuilt.Some? && p.id == rebuilt.value.id && p.digest == rebuilt.value.digest
    && p.ipnsName == rebuilt.value.ipnsName
  }

  /** What a publication is built to be is what its validators accept, and its documents are strictly sorted. */
  lemma NewPublicationValidates(rules: Rules, name: Bytes, revision: nat, docs: seq<Document>, now: nat)
    requires NewPublication(rules, name, revision, docs, now).Some?
    ensures ValidPublication(rules, name, NewPublication(rules, name, revision, docs, now).value)
    ensures StrictlySorted(NewPublication(rules, name, revision, docs, now).value.documents)
  {
    ArrangedIsStrict(docs);
    NewPublicationIsUnordered(rules, name, revision, docs, Arrange(docs), now);
  }

  /** One identifier never stands for two different contents. */
  lemma IdentifierBindsContent(rules: Rules, p: Publication, q: Publication)
    requires ValidPublication(rules, p.ipnsName, p) && ValidPublication(rules, q.ipnsName, q) && p.id == q.id
    requires |p.ipnsName| < TWO_64 && |q.ipnsName| < TWO_64 && p.stateRevision < TWO_64 && q.stateRevision < TWO_64
    requires FitDocuments(p.documents) && FitDocuments(q.documents)
    ensures p.ipnsName == q.ipnsName && p.stateRevision == q.stateRevision && Permutes(p.documents, q.documents)
  {
    hide Preimage, ReadPreimage, Publishable, FitsDocument;
    var a, b := Arrange(p.documents), Arrange(q.documents);
    FitsIsUnordered(p.documents, a);
    FitsIsUnordered(q.documents, b);
    PreimageRoundTrip(TRUST_DOMAIN, p.ipnsName, p.stateRevision, a);
    PreimageRoundTrip(TRUST_DOMAIN, q.ipnsName, q.stateRevision, b);
  }

  lemma FitsIsUnordered(a: seq<Document>, b: seq<Document>)
    requires Permutes(a, b) && FitDocuments(a)
    ensures FitDocuments(b)
  {
    forall i | 0 <= i < |b|
      ensures FitsDocument(b[i])
    {
      PermutedMember(a, b, b[i]);
    }
  }

  /** Sorts a copied list by path: any sorting will do, since equal paths are refused afterwards. */
  method SortByPath(docs: seq<Document>) returns (sorted: seq<Document>)
    ensures Sorted(sorted) && Permutes(sorted, docs)
  {
    sorted := [];
    var i := 0;
    while i < |docs|
      invariant 0 <= i <= |docs|
      invariant Sorted(sorted) && Permutes(sorted, docs[..i])
    {
      assert docs[..i + 1] == docs[..i] + [docs[i]];
      sorted := Insert(docs[i], sorted);
      i := i + 1;
    }
    assert docs[..i] == docs;
  }

  lemma NoBytes(docs: seq<Document>)
    ensures TotalBytes(docs[..0]) == 0
  {
  }

  lemma TotalOneMore(docs: seq<Document>, i: nat)
    requires i < |docs|
    ensures TotalBytes(docs[..i + 1]) == TotalBytes(docs[..i]) + |docs[i].content| <= TotalBytes(docs)
  {
    assert docs[..i + 1][..i] == docs[..i];
    assert docs == docs[..i + 1] + docs[i + 1..];
    TotalBytesSplit(docs[..i + 1], docs[i + 1..]);
  }

  /** Checks the sorted documents one by one while adding up their sizes. */
  method CheckDocuments(rules: Rules, sorted: seq<Document>) returns (ok: bool)
    requires Sorted(sorted)
    ensures ok <==> AllAllowed(rules, sorted) && TotalBytes(sorted) <= MAX_PUBLICATION_BYTES && DistinctPaths(sorted)
  {
    hide Less, Sorted, TotalBytes;
    var total := 0;
    var i := 0;
    assert TotalBytes(sorted[..0]) == 0 by { NoBytes(sorted); }
    while i < |sorted|
      invariant 0 <= i <= |sorted|
      invariant total == TotalBytes(sorted[..i]) <= MAX_PUBLICATION_BYTES
      invariant forall k :: 0 <= k < i ==> rules.allowed(sorted[k])
      invariant forall k :: 0 < k < i ==> sorted[k - 1].path != sorted[k].path
    {
      if !rules.allowed(sorted[i]) { return false; }
      TotalOneMore(sorted, i);
      total := total + |sorted[i].content|;
      if total > MAX_PUBLICATION_BYTES { return false; }
      if i > 0 && sorted[i - 1].path == sorted[i].path { return false; }
      i := i + 1;
    }
    assert sorted[..i] == sorted;
    RepeatsAreNeighbours(sorted);
    return true;
  }

  /** The building loop computes NewPublication. */
  method BuildPublication(rules: Rules, name: Bytes, revision: nat, docs: seq<Document>, now: nat)
    returns (publication: Option<Publication>)
    ensures publication == NewPublication(rules, name, revision, docs, now)
  {
    if revision == 0 || now == 0 || |docs| == 0 || |docs| > MAX_DOCUMENTS { return None; }
    var sorted := SortByPath(docs);
    var ok := CheckDocuments(rules, sorted);
    if ok != Publishable(rules, revision, docs, now) {
      PermutedLength(sorted, docs);
      if ok {
        PublishableIsUnordered(rules, revision, sorted, docs, now);
      } else {
        PublishableIsUnordered(rules, revision, docs, sorted, now);
      }
    }
    if !ok { return None; }
    ArrangedIsStrict(docs);
    DistinctIsUnordered(docs, sorted);
    SortedDistinctIsStrict(sorted);
    StrictArrangementUnique(sorted, Arrange(docs));
    var digest := PublicationDigest(name, revision, sorted);
    return Some(Publication(digest, revision, name, digest, sorted, now));
  }
}
