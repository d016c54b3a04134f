/** What the content node reports about an imported snapshot, and when that report is believed. */
module Kubo {
  import opened Common
  import opened Codec
  import opened PublicData
  import opened IpnsRecord

  const MAX_BLOCKS: nat := 4096
  const MAX_REACHABLE_BYTES: nat := 0x400_0000

  datatype EntryKind = File | Directory | Symlink | Other

  datatype InspectedFile = InspectedFile(path: Bytes, mediaType: Bytes, kind: EntryKind, content: Bytes)

  /** None is the undefined identifier. */
  datatype Block = Block(cid: Option<Cid>, bytes: Bytes)

  datatype Inspection = Inspection(root: Option<Cid>, files: seq<InspectedFile>, blocks: seq<Block>)

  /** The hash of a block under an identifier's prefix, and the search for private key text. */
  datatype Hashing = Hashing(sum: (Cid, Bytes) -> Option<Cid>, privateKeyText: Bytes -> bool)

  function BlockBytes(blocks: seq<Block>): nat {
    if blocks == [] then 0 else BlockBytes(blocks[..|blocks| - 1]) + |blocks[|blocks| - 1].bytes|
  }

  lemma {:induction false} BlockBytesGrow(blocks: seq<Block>, i: nat)
    requires i <= |blocks|
    ensures BlockBytes(blocks[..i]) <= BlockBytes(blocks)
    decreases |blocks| - i
  {
    if i < |blocks| {
      assert blocks[..i + 1][..i] == blocks[..i];
      BlockBytesGrow(blocks, i + 1);
    } else {
      assert blocks[..i] == blocks;
    }
  }

  predicate SoundBlock(h: Hashing, b: Block) {
    b.cid.Some? && h.sum(b.cid.value, b.bytes) == b.cid && !h.privateKeyText(b.bytes)
  }

  predicate DistinctBlocks(blocks: seq<Block>) {
    forall i, j :: 0 <= i < j < |blocks| ==> blocks[i].cid != blocks[j].cid
  }

  /** The block inventory holds the root, each block once, every block under its own hash. */
  predicate SoundBlocks(h: Hashing, root: Cid, blocks: seq<Block>) {
    && 1 <= |blocks| <= MAX_BLOCKS
    && (forall i :: 0 <= i < |blocks| ==> SoundBlock(h, blocks[i]))
    && DistinctBlocks(blocks)
    && (exists i :: 0 <= i < |blocks| && blocks[i].cid == Some(root))
    && BlockBytes(blocks) <= MAX_REACHABLE_BYTES
  }

  /** The identifiers among the first blocks. */
  ghost predicate Noted(blocks: seq<Block>, i: nat, seen: set<Option<Cid>>)
    requires i <= |blocks|
  {
    && (forall k :: 0 <= k < i ==> blocks[k].cid in seen)
    && (forall c :: c in seen ==> exists k :: 0 <= k < i && blocks[k].cid == c)
  }

  ghost predicate DistinctSoFar(blocks: seq<Block>, i: nat)
    requires i <= |blocks|
  {
    forall j, k :: 0 <= j < k < i ==> blocks[j].cid != blocks[k].cid
  }

  lemma NoteBlock(blocks: seq<Block>, i: nat, seen: set<Option<Cid>>)
    requires i < |blocks| && Noted(blocks, i, seen) && DistinctSoFar(blocks, i)
    ensures blocks[i].cid !in seen ==> Noted(blocks, i + 1, seen + {blocks[i].cid}) && DistinctSoFar(blocks, i + 1)
    ensures blocks[i].cid in seen ==> !DistinctBlocks(blocks)
  {
    if blocks[i].cid !in seen {
      var more := seen + {blocks[i].cid};
      forall c | c in more
        ensures exists k :: 0 <= k < i + 1 && blocks[k].cid == c
      {
        if c !in seen { assert blocks[i].cid == c; }
      }
    }
  }

  ghost predicate RootAmong(root: Cid, blocks: seq<Block>, i: nat)
    requires i <= |blocks|
  {
    exists k :: 0 <= k < i && blocks[k].cid == Some(root)
  }

  /** Walks the inventory, adding up sizes and looking for the root. */
  method CheckBlocks(h: Hashing, root: Cid, blocks: seq<Block>) returns (ok: bool)
    ensures ok <==> SoundBlocks(h, root, blocks)
  {
    if |blocks| == 0 || |blocks| > MAX_BLOCKS { return false; }
    var totalBytes := 0;
    var rootFound := false;
    var seen: set<Option<Cid>> := {};
    var i := 0;
    while i < |blocks|
      invariant 0 <= i <= |blocks|
      invariant totalBytes == BlockBytes(blocks[..i]) <= MAX_REACHABLE_BYTES
      invariant rootFound <==> RootAmong(root, blocks, i)
      invariant Noted(blocks, i, seen) && DistinctSoFar(blocks, i)
      invariant forall k :: 0 <= k < i ==> SoundBlock(h, blocks[k])
    {
      hide Noted, DistinctSoFar, DistinctBlocks, BlockBytes;
      var block := blocks[i];
      if block.cid.None? { return false; }
      NoteBlock(blocks, i, seen);
      if block.cid in seen { return false; }
      seen := seen + {block.cid};
      if h.sum(block.cid.value, block.bytes) != block.cid { return false; }
      if block.cid.value == root { rootFound := true; }
      totalBytes := totalBytes + |block.bytes|;
      OneMoreBlock(blocks, i);
      if totalBytes > MAX_REACHABLE_BYTES { return false; }
      if h.privateKeyText(block.bytes) { return false; }
      i := i + 1;
    }
    assert blocks[..i] == blocks;
    return rootFound;
  }

  lemma OneMoreBlock(blocks: seq<Block>, i: nat)
    requires i < |blocks|
    ensures BlockBytes(blocks[..i + 1]) == BlockBytes(blocks[..i]) + |blocks[i].bytes| <= BlockBytes(blocks)
  {
    assert blocks[..i + 1][..i] == blocks[..i];
    BlockBytesGrow(blocks, i + 1);
  }

  // The files.

  function AsDocument(f: InspectedFile): Document {
    Document(f.path, f.mediaType, f.content)
  }

  function AsDocuments(files: seq<InspectedFile>): (docs: seq<Document>)
    ensures |docs| == |files|
  {
    seq(|files|, i requires 0 <= i < |files| => AsDocument(files[i]))
  }

  /** Every entry is a file, and together they are the expected ones, each exactly once, in any order. */
  predicate SameFiles(files: seq<InspectedFile>, expected: seq<Document>) {
    && (forall i :: 0 <= i < |files| ==> files[i].kind == File)
    && Permutes(AsDocuments(files), expected)
  }

  /** The elements of a list of documents without repetition are as many as the list is long. */
  lemma {:induction false} DistinctSize(docs: seq<Document>)
    requires DistinctPaths(docs)
    ensures |set d | d in docs| == |docs|
  {
    if docs != [] {
      DistinctTail(docs);
      hide DistinctPaths;
      DistinctSize(docs[1..]);
      assert docs == [docs[0]] + docs[1..];
      assert (set d | d in docs) == {docs[0]} + (set d | d in docs[1..]);
    }
  }

  lemma SubsetOfSameSize(a: set<Document>, b: set<Document>)
    requires a <= b && |a| == |b|
    ensures a == b
  {
    assert b == a + (b - a);
    assert |b - a| == 0;
  }

  /** The counting argument: as many entries as expected, all expected, none twice, means all of them. */
  lemma NoneMissing(docs: seq<Document>, expected: seq<Document>)
    requires DistinctPaths(docs) && DistinctPaths(expected) && |docs| == |expected|
    requires forall i :: 0 <= i < |docs| ==> docs[i] in expected
    ensures Permutes(docs, expected)
  {
    var a, b := set d | d in docs, set d | d in expected;
    DistinctSize(docs);
    DistinctSize(expected);
    SubsetOfSameSize(a, b);
    forall d: Document
      ensures multiset(docs)[d] == multiset(expected)[d]
    {
      OnceInMultiset(docs, d);
      OnceInMultiset(expected, d);
      assert d in docs <==> d in a;
      assert d in expected <==> d in b;
      assert d in docs <==> d in multiset(docs);
      assert d in expected <==> d in multiset(expected);
    }
  }

  predicate IndexedByPath(docs: seq<Document>, byPath: map<Bytes, Document>) {
    && (forall i :: 0 <= i < |docs| ==> docs[i].path in byPath && byPath[docs[i].path] == docs[i])
    && (forall p :: p in byPath ==> byPath[p].path == p && byPath[p] in docs)
  }

  method IndexFiles(expected: seq<Document>) returns (byPath: map<Bytes, Document>)
    requires DistinctPaths(expected)
    ensures IndexedByPath(expected, byPath)
  {
    byPath := map[];
    var i := 0;
    while i < |expected|
      invariant 0 <= i <= |expected|
      invariant IndexedByPath(expected[..i], byPath)
    {
      byPath := byPath[expected[i].path := expected[i]];
      i := i + 1;
    }
    assert expected[..i] == expected;
  }

  /** The paths among the first documents. */
  ghost predicate Listed(docs: seq<Document>, i: nat, seen: set<Bytes>)
    requires i <= |docs|
  {
    && (forall k :: 0 <= k < i ==> docs[k].path in seen)
    && (forall p :: p in seen ==> exists k :: 0 <= k < i && docs[k].path == p)
  }

  ghost predicate PathsDifferSoFar(docs: seq<Document>, i: nat)
    requires i <= |docs|
  {
    forall j, k :: 0 <= j < k < i ==> docs[j].path != docs[k].path
  }

  lemma ListPath(docs: seq<Document>, expected: seq<Document>, i: nat, seen: set<Bytes>)
    requires i < |docs| && Listed(docs, i, seen) && PathsDifferSoFar(docs, i) && DistinctPaths(expected)
    ensures docs[i].path !in seen ==> Listed(docs, i + 1, seen + {docs[i].path}) && PathsDifferSoFar(docs, i + 1)
    ensures docs[i].path in seen ==> !Permutes(docs, expected)
  {
    if docs[i].path !in seen {
      var more := seen + {docs[i].path};
      forall p | p in more
        ensures exists k :: 0 <= k < i + 1 && docs[k].path == p
      {
        if p !in seen { assert docs[i].path == p; }
      }
    } else if Permutes(docs, expected) {
      DistinctIsUnordered(expected, docs);
    }
  }

  /** Looks every entry up among the expected files and refuses strangers, repeats and changed bytes. */
  method CheckFiles(files: seq<InspectedFile>, expected: seq<Document>) returns (ok: bool)
    requires DistinctPaths(expected)
    ensures ok <==> SameFiles(files, expected)
  {
    ghost var docs := AsDocuments(files);
    if |files| != |expected| {
      if Permutes(docs, expected) { PermutedLength(docs, expected); }
      return false;
    }
    var byPath := IndexFiles(expected);
    var seen: set<Bytes> := {};
    var i := 0;
    while i < |files|
      invariant 0 <= i <= |files|
      invariant Listed(docs, i, seen) && PathsDifferSoFar(docs, i)
      invariant forall k :: 0 <= k < i ==> files[k].kind == File && docs[k] in expected
    {
      hide Listed, PathsDifferSoFar, Permutes, DistinctPaths;
      var actual := files[i];
      assert docs[i] == AsDocument(actual);
      if actual.kind != File { return false; }
      if actual.path !in byPath || AsDocument(actual) != byPath[actual.path] {
        Stranger(docs, expected, byPath, i);
        return false;
      }
      ListPath(docs, expected, i, seen);
      if actual.path in seen { return false; }
      seen := seen + {actual.path};
      i := i + 1;
    }
    NoneMissing(docs, expected);
    return true;
  }

  lemma Stranger(docs: seq<Document>, expected: seq<Document>, byPath: map<Bytes, Document>, i: nat)
    requires i < |docs| && IndexedByPath(expected, byPath)
    requires docs[i].path !in byPath || docs[i] != byPath[docs[i].path]
    ensures !Permutes(docs, expected)
  {
    if Permutes(docs, expected) {
      PermutedMember(docs, expected, docs[i]);
    }
  }

  /** When an inspection proves that the whole expected content, and nothing else, is reachable under a root. */
  predicate Accepts(h: Hashing, root: Cid, expected: seq<Document>, inspection: Inspection) {
    && root.version == 1 && root.dagProtobuf
    && inspection.root == Some(root)
    && SoundBlocks(h, root, inspection.blocks)
    && SameFiles(inspection.files, expected)
  }

  method ValidateImportedSnapshot(h: Hashing, root: Cid, expected: seq<Document>,
                                  inspection: Inspection) returns (ok: bool)
    requires DistinctPaths(expected)
    ensures ok <==> Accepts(h, root, expected, inspection)
  {
    if root.version != 1 || !root.dagProtobuf { return false; }
    if inspection.root != Some(root) { return false; }
    var blocksOk := CheckBlocks(h, root, inspection.blocks);
    if !blocksOk { return false; }
    var filesOk := CheckFiles(inspection.files, expected);
    return filesOk;
  }
}
