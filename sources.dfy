/**
  The `sources` list of a document-chat answer: the `source` metadata of every retrieved
  document, each value kept the first time it appears, a missing one read as "Unknown".
 */
module Sources {

  /** A retrieved document chunk; only its metadata matters here. */
  datatype Document = Document(pageContent: string, metadata: map<string, string>)

  /** `doc.metadata.get('source', 'Unknown')`. */
  function SourceOf(doc: Document): (source: string)
    ensures "source" in doc.metadata ==> source == doc.metadata["source"]
    ensures "source" !in doc.metadata ==> source == "Unknown"
    ensures source == "Unknown" <==> ("source" !in doc.metadata || doc.metadata["source"] == "Unknown")
  {
    if "source" in doc.metadata then doc.metadata["source"] else "Unknown"
  }

  /** The source of every retrieved document, in retrieval order, duplicates included. */
  function Labels(docs: seq<Document>): (labels: seq<string>)
    ensures |labels| == |docs|
    ensures forall i :: 0 <= i < |docs| ==> labels[i] == SourceOf(docs[i])
  {
    seq(|docs|, i requires 0 <= i < |docs| => SourceOf(docs[i]))
  }

  predicate Distinct(s: seq<string>) {
    forall i, j :: 0 <= i < j < |s| ==> s[i] != s[j]
  }

  /**
    The first occurrence of each element of `s`, in order: the value of the source-collecting
    loop after it has seen `s`.
   */
  function Dedup(s: seq<string>): (r: seq<string>)
    ensures Distinct(r)
    ensures forall x :: x in r <==> x in s
    ensures |r| <= |s|
    decreases |s|
  {
    if s == [] then []
    else
      var done := Dedup(s[..|s| - 1]);
      var x := s[|s| - 1];
      if x in done then done else done + [x]
  }

  /** The position of the first occurrence of `x` in `s`. */
  function FirstIndex(s: seq<string>, x: string): (k: nat)
    requires x in s
    ensures k < |s| && s[k] == x && x !in s[..k]
  {
    if s[0] == x then 0
    else
      var k := 1 + FirstIndex(s[1..], x);
      assert s[..k] == [s[0]] + s[1..][..k - 1];
      k
  }

  lemma FirstIndexUnique(s: seq<string>, x: string, k: nat)
    requires k < |s| && s[k] == x && x !in s[..k]
    ensures FirstIndex(s, x) == k
  {
  }

  lemma FirstIndexExtend(p: seq<string>, x: string, y: string)
    requires y in p
    ensures FirstIndex(p + [x], y) == FirstIndex(p, y)
  {
    var k := FirstIndex(p, y);
    assert (p + [x])[..k] == p[..k];
    FirstIndexUnique(p + [x], y, k);
  }

  /** The sources come out in the order in which each first appeared among the documents. */
  lemma {:induction false} DedupKeepsFirstOccurrenceOrder(s: seq<string>)
    ensures forall i, j :: 0 <= i < j < |Dedup(s)| ==> FirstIndex(s, Dedup(s)[i]) < FirstIndex(s, Dedup(s)[j])
    decreases |s|
  {
    if s != [] {
      var p, x := s[..|s| - 1], s[|s| - 1];
      assert s == p + [x];
      DedupKeepsFirstOccurrenceOrder(p);
      var done := Dedup(p);
      forall y | y in done
        ensures FirstIndex(s, y) == FirstIndex(p, y) < |p|
      {
        FirstIndexExtend(p, x, y);
      }
      if x !in done {
        assert s[..|p|] == p;
        FirstIndexUnique(s, x, |p|);
        assert Dedup(s) == done + [x];
      }
    }
  }

  /** A list that already has no duplicates passes through unchanged. */
  lemma {:induction false} DedupOfDistinct(s: seq<string>)
    requires Distinct(s)
    ensures Dedup(s) == s
    decreases |s|
  {
    if s != [] {
      var p := s[..|s| - 1];
      DedupOfDistinct(p);
      assert s[|s| - 1] !in p;
      assert p + [s[|s| - 1]] == s;
    }
  }

  /** Collecting sources a second time changes nothing. */
  lemma DedupIdempotent(s: seq<string>)
    ensures Dedup(Dedup(s)) == Dedup(s)
  {
    DedupOfDistinct(Dedup(s));
  }

  /** The loop of `pdf_chat` that builds `sources` by appending each unseen source. */
  method CollectSources(docs: seq<Document>) returns (sources: seq<string>)
    ensures sources == Dedup(Labels(docs))
    ensures Distinct(sources)
    ensures forall x :: x in sources <==> exists d :: d in docs && SourceOf(d) == x
    ensures |sources| <= |docs|
  {
    ghost var labels := Labels(docs);
    sources := [];
    for i := 0 to |docs|
      invariant sources == Dedup(labels[..i])
    {
      var source := SourceOf(docs[i]);
      assert labels[..i + 1][..i] == labels[..i];
      if source !in sources {
        sources := sources + [source];
      }
    }
    assert labels[..|docs|] == labels;
    forall x | x in sources
      ensures exists d :: d in docs && SourceOf(d) == x
    {
      var k :| 0 <= k < |labels| && labels[k] == x;
      assert docs[k] in docs;
    }
    forall d | d in docs
      ensures SourceOf(d) in sources
    {
      var k :| 0 <= k < |docs| && docs[k] == d;
      assert labels[k] == SourceOf(d);
    }
  }
}
