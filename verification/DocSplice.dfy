/** Splicing a generated block into a document between two markers
    (cmd/catalog-tool/docs.go, spliceGeneratedBlock). */
module DocSplice {
  const BEGIN_MARKER: string := "<!-- BEGIN GENERATED: catalog-tool docs -->"
  const END_MARKER: string := "<!-- END GENERATED: catalog-tool docs -->"

  datatype Result = Ok(doc: string) | NoBegin | NoEnd | EndFirst

  // ----- Searching ------------------------------------------------------

  predicate At(s: string, m: string, i: int) {
    0 <= i <= |s| - |m| && forall k :: 0 <= k < |m| ==> s[i + k] == m[k]
  }

  predicate Occurs(s: string, m: string) {
    exists i :: 0 <= i <= |s| && At(s, m, i)
  }

  /** The first occurrence at or after `from`, or -1. */
  function Index(s: string, m: string, from: nat := 0): (i: int)
    ensures i == -1 || (from <= i && At(s, m, i))
    ensures forall j :: from <= j && (i == -1 || j < i) ==> !At(s, m, j)
    decreases |s| - from
  {
    if from + |m| > |s| then -1
    else if At(s, m, from) then from
    else Index(s, m, from + 1)
  }

  lemma IndexIs(s: string, m: string, i: int)
    requires At(s, m, i) && forall j :: 0 <= j < i ==> !At(s, m, j)
    ensures Index(s, m) == i
  {
  }

  /** What the two markers have in common and where they differ. */
  ghost predicate Markers(b: string, e: string) {
    |b| > 5 && |e| > 5 && b[5] != e[5] && OneBracket(b) && OneBracket(e) && OneLine(e)
  }

  ghost predicate OneBracket(m: string) {
    m != [] && m[0] == '<' && forall i :: 0 < i < |m| ==> m[i] != '<'
  }

  ghost predicate OneLine(m: string) {
    forall i :: 0 <= i < |m| ==> m[i] != '\n'
  }

  lemma TheMarkers()
    ensures Markers(BEGIN_MARKER, END_MARKER)
  {
    BeginOpensOnce();
    EndOpensOnce();
  }

  lemma BeginOpensOnce()
    ensures OneBracket(BEGIN_MARKER)
  {
  }

  lemma EndOpensOnce()
    ensures OneBracket(END_MARKER) && OneLine(END_MARKER)
  {
  }

  // ----- Splicing -------------------------------------------------------

  function Splice(doc: string, block: string): Result {
    SpliceBetween(BEGIN_MARKER, END_MARKER, doc, block)
  }

  function SpliceBetween(b: string, e: string, doc: string, block: string): Result {
    var bi := Index(doc, b);
    if bi < 0 then NoBegin
    else
      var ei := Index(doc, e);
      if ei < 0 then NoEnd
      else if ei < bi then EndFirst
      else Ok(doc[..bi + |b|] + "\n\n" + block + "\n" + doc[ei..])
  }

  /** What lies between the markers. */
  ghost function Between(b: string, e: string, doc: string): string
    requires var bi, ei := Index(doc, b), Index(doc, e); 0 <= bi && bi + |b| <= ei
  {
    doc[Index(doc, b) + |b|..Index(doc, e)]
  }

  lemma AtChar(s: string, m: string, i: int, k: int)
    requires At(s, m, i)
    ensures 0 <= k < |m| ==> s[i + k] == m[k]
  {
  }

  /** The end marker can neither start inside the begin marker nor coincide with it. */
  lemma MarkersApart(b: string, e: string, s: string, i: int, j: int)
    requires Markers(b, e) && At(s, b, i) && At(s, e, j) && i <= j
    ensures i + |b| <= j
  {
    assert s[i + 5] == b[5] && s[j + 5] == e[5] && s[j + 0] == e[0];
    if i < j < i + |b| {
      AtChar(s, b, i, j - i);
      assert false;
    }
  }

  /** A document with the same text up to n holds the same occurrences up to n. */
  lemma AtPrefix(s: string, r: string, n: nat, m: string, i: int)
    requires n <= |s| && n <= |r| && (forall t :: 0 <= t < n ==> s[t] == r[t]) && 0 <= i && i + |m| <= n
    ensures At(s, m, i) <==> At(r, m, i)
  {
  }

  lemma BeginStays(b: string, doc: string, r: string, bi: int)
    requires Index(doc, b) == bi >= 0 && bi + |b| <= |r| && (forall t :: 0 <= t < bi + |b| ==> doc[t] == r[t])
    ensures Index(r, b) == bi
  {
    forall j | 0 <= j <= bi ensures At(r, b, j) <==> At(doc, b, j) {
      AtPrefix(doc, r, bi + |b|, b, j);
    }
    IndexIs(r, b, bi);
  }

  /** The spliced document, by position: the old text up to and with the begin marker, two
      newlines, the block, a newline, and the old text from the end marker on. */
  ghost predicate Spliced(doc: string, head: nat, tail: nat, block: string, r: string)
    requires head <= tail <= |doc|
  {
    && |r| == head + 2 + |block| + 1 + |doc| - tail
    && forall text :: text == r ==> SplicedText(doc, head, tail, block, text)
  }

  ghost predicate SplicedText(doc: string, head: nat, tail: nat, block: string, r: string)
    requires head <= tail <= |doc|
  {
    var p := head + 2;
    && |r| == p + |block| + 1 + |doc| - tail
    && (forall t :: 0 <= t < head ==> r[t] == doc[t])
    && r[head] == r[head + 1] == '\n' && r[p + |block|] == '\n'
    && (forall t :: 0 <= t < |block| ==> r[p + t] == block[t])
    && (forall t :: tail <= t < |doc| ==> r[t - tail + p + |block| + 1] == doc[t])
  }

  /** An end marker in the spliced text before the old one can only be the block's own. */
  lemma OnlyInBlock(b: string, e: string, doc: string, bi: nat, ei: nat, block: string, r: string, i: int)
    requires Markers(b, e) && Index(doc, b) == bi && Index(doc, e) == ei && bi + |b| <= ei
    requires Spliced(doc, bi + |b|, ei, block, r)
    requires At(r, e, i) && i <= bi + |b| + 2 + |block|
    ensures i >= bi + |b| + 2 && At(block, e, i - (bi + |b| + 2))
  {
    assert SplicedText(doc, bi + |b|, ei, block, r);
    var head := bi + |b|;
    var p := head + 2;
    assert r[i + 0] == e[0];
    assert i != p + |block| && i != head && i != head + 1;
    if i < head {
      if i + |e| <= head {
        AtPrefix(doc, r, head, e, i);
        assert false;
      } else {
        assert forall k :: 0 <= k < |b| ==> r[bi + k] == b[k];
        assert At(r, b, bi);
        BracketInside(b, e, r, bi, i);
        assert false;
      }
    }
    AtChar(r, e, i, p + |block| - i);
    forall k | 0 <= k < |e| ensures block[i - p + k] == e[k] {
      AtChar(r, e, i, k);
      assert r[p + (i - p + k)] == block[i - p + k];
    }
  }

  /** Two overlapping occurrences: one of them starts inside the other. */
  lemma BracketInside(b: string, e: string, r: string, i: int, j: int)
    requires Markers(b, e) && At(r, b, i) && At(r, e, j)
    ensures i + |b| <= j || j + |e| <= i
  {
    if i <= j {
      MarkersApart(b, e, r, i, j);
    } else {
      AtChar(r, b, i, 0);
      AtChar(r, e, j, i - j);
    }
  }

  /** Where the markers are, in a document that can be spliced. */
  ghost predicate Spliceable(b: string, e: string, doc: string, bi: int, ei: int) {
    Markers(b, e) && Index(doc, b) == bi && Index(doc, e) == ei && 0 <= bi && bi + |b| <= ei
  }

  lemma SpliceIs(b: string, e: string, doc: string, block: string) returns (bi: int, ei: int)
    requires Markers(b, e) && SpliceBetween(b, e, doc, block).Ok?
    ensures Spliceable(b, e, doc, bi, ei)
    ensures Spliced(doc, bi + |b|, ei, block, SpliceBetween(b, e, doc, block).doc)
  {
    bi, ei := Index(doc, b), Index(doc, e);
    MarkersApart(b, e, doc, bi, ei);
  }

  lemma SplicedUnique(doc: string, head: nat, tail: nat, block: string, r: string, q: string)
    requires head <= tail <= |doc| && Spliced(doc, head, tail, block, r) && Spliced(doc, head, tail, block, q)
    ensures r == q
  {
    assert SplicedText(doc, head, tail, block, r) && SplicedText(doc, head, tail, block, q);
    var p := head + 2 + |block| + 1;
    forall t | 0 <= t < |r| ensures r[t] == q[t] {
      if head + 2 <= t < p - 1 {
        assert r[head + 2 + (t - head - 2)] == block[t - head - 2];
      } else if p <= t {
        assert r[(t - p + tail) - tail + p] == doc[t - p + tail];
      }
    }
  }

  /** A block without the end marker: both markers are where a reader expects them. */
  lemma MarkersAfter(b: string, e: string, doc: string, bi: int, ei: int, block: string, r: string)
    requires Spliceable(b, e, doc, bi, ei) && Spliced(doc, bi + |b|, ei, block, r) && !Occurs(block, e)
    ensures Spliceable(b, e, r, bi, bi + |b| + 2 + |block| + 1)
  {
    assert SplicedText(doc, bi + |b|, ei, block, r);
    var n := bi + |b| + 2 + |block| + 1;
    BeginStays(b, doc, r, bi);
    forall k | 0 <= k < |e| ensures r[n + k] == e[k] {
      AtChar(doc, e, ei, k);
      assert r[(ei + k) - ei + n] == doc[ei + k];
    }
    forall j | 0 <= j < n ensures !At(r, e, j) {
      if At(r, e, j) {
        OnlyInBlock(b, e, doc, bi, ei, block, r, j);
        assert false;
      }
    }
    IndexIs(r, e, n);
  }

  /** A block with the end marker: the splice will cut at the block's own. */
  lemma EndInBlock(b: string, e: string, doc: string, bi: int, ei: int, block: string, r: string)
    requires Spliceable(b, e, doc, bi, ei) && Spliced(doc, bi + |b|, ei, block, r) && Occurs(block, e)
    ensures Index(r, b) == bi && bi + |b| + 2 <= Index(r, e) <= bi + |b| + 2 + |block| - |e|
  {
    assert SplicedText(doc, bi + |b|, ei, block, r);
    var p := bi + |b| + 2;
    BeginStays(b, doc, r, bi);
    var j :| 0 <= j <= |block| && At(block, e, j);
    forall k | 0 <= k < |e| ensures r[p + j + k] == e[k] {
      AtChar(block, e, j, k);
      assert r[p + (j + k)] == block[j + k];
    }
    assert At(r, e, p + j);
    OnlyInBlock(b, e, doc, bi, ei, block, r, Index(r, e));
  }

  lemma SplicedAgain(doc: string, head: nat, tail: nat, x: string, r: string, y: string, q: string)
    requires head <= tail <= |doc| && Spliced(doc, head, tail, x, r)
    requires Spliced(r, head, head + 2 + |x| + 1, y, q)
    ensures Spliced(doc, head, tail, y, q)
  {
    assert SplicedText(doc, head, tail, x, r) && SplicedText(r, head, head + 2 + |x| + 1, y, q);
    var n, m := head + 2 + |x| + 1, head + 2 + |y| + 1;
    forall t | tail <= t < |doc| ensures q[t - tail + m] == doc[t] {
      assert q[(t - tail + n) - n + m] == r[t - tail + n];
    }
  }

  lemma AgainIsOnce(doc: string, head: nat, tail: nat, x: string, r: string, y: string, q: string, once: string)
    requires head <= tail <= |doc| && Spliced(doc, head, tail, x, r)
    requires Spliced(r, head, head + 2 + |x| + 1, y, q) && Spliced(doc, head, tail, y, once)
    ensures q == once
  {
    SplicedAgain(doc, head, tail, x, r, y, q);
    SplicedUnique(doc, head, tail, y, q, once);
  }

  lemma SpliceAt(b: string, e: string, doc: string, bi: int, ei: int, block: string)
    requires Spliceable(b, e, doc, bi, ei)
    ensures SpliceBetween(b, e, doc, block).Ok?
    ensures Spliced(doc, bi + |b|, ei, block, SpliceBetween(b, e, doc, block).doc)
  {
    var _, _ := SpliceIs(b, e, doc, block);
  }

  lemma SpliceTwice(b: string, e: string, doc: string, bi: int, ei: int, x: string, r: string, y: string)
    requires Spliceable(b, e, doc, bi, ei) && Spliced(doc, bi + |b|, ei, x, r) && !Occurs(x, e)
    ensures SpliceBetween(b, e, r, y) == SpliceBetween(b, e, doc, y)
  {
    MarkersAfter(b, e, doc, bi, ei, x, r);
    SpliceAt(b, e, doc, bi, ei, y);
    SpliceAt(b, e, r, bi, bi + |b| + 2 + |x| + 1, y);
    AgainIsOnce(doc, bi + |b|, ei, x, r, y, SpliceBetween(b, e, r, y).doc, SpliceBetween(b, e, doc, y).doc);
  }

  lemma OutsideBetween(b: string, e: string, doc: string, block: string)
    requires Markers(b, e)
    ensures SpliceBetween(b, e, doc, block).Ok? <==> Occurs(doc, b) && Occurs(doc, e) && Index(doc, b) < Index(doc, e)
    ensures SpliceBetween(b, e, doc, block).Ok? ==>
              var bi, ei, r := Index(doc, b), Index(doc, e), SpliceBetween(b, e, doc, block).doc;
              bi + |b| <= ei <= |doc| && |doc| - ei <= |r|
              && r[..bi + |b|] == doc[..bi + |b|] && r[|r| - (|doc| - ei)..] == doc[ei..]
  {
    if SpliceBetween(b, e, doc, block).Ok? {
      var bi, ei := SpliceIs(b, e, doc, block);
      KeptEnds(doc, bi + |b|, ei, block, SpliceBetween(b, e, doc, block).doc);
    }
  }

  lemma KeptEnds(doc: string, head: nat, tail: nat, block: string, r: string)
    requires head <= tail <= |doc| && Spliced(doc, head, tail, block, r)
    ensures |doc| - tail <= |r| && r[..head] == doc[..head] && r[|r| - (|doc| - tail)..] == doc[tail..]
  {
    assert SplicedText(doc, head, tail, block, r);
    var m := |r| - (|doc| - tail);
    forall t | 0 <= t < |doc| - tail ensures r[m..][t] == doc[tail..][t] {
      assert r[(tail + t) - tail + head + 2 + |block| + 1] == doc[tail + t];
    }
  }

  lemma BetweenIs(doc: string, head: nat, tail: nat, block: string, r: string)
    requires head <= tail <= |doc| && Spliced(doc, head, tail, block, r)
    ensures r[head..head + 2 + |block| + 1] == "\n\n" + block + "\n"
  {
    assert SplicedText(doc, head, tail, block, r);
    var mid, want := r[head..head + 2 + |block| + 1], "\n\n" + block + "\n";
    forall t | 0 <= t < |mid| ensures mid[t] == want[t] {
      if 2 <= t < 2 + |block| {
        assert r[head + 2 + (t - 2)] == block[t - 2];
      }
    }
  }

  lemma PutBack(b: string, e: string, doc: string, x: string)
    requires Index(doc, b) >= 0 && Index(doc, b) + |b| <= Index(doc, e) && |b| > 0
    requires Between(b, e, doc) == "\n\n" + x + "\n"
    ensures SpliceBetween(b, e, doc, x) == Ok(doc)
  {
    var head, ei := Index(doc, b) + |b|, Index(doc, e);
    assert doc == doc[..head] + doc[head..ei] + doc[ei..];
    assert doc[..head] + "\n\n" + x + "\n" + doc[ei..] == doc[..head] + ("\n\n" + x + "\n") + doc[ei..];
  }

  // ----- The laws -------------------------------------------------------

  /** Splicing keeps everything outside the markers, and refuses a document exactly when a
      marker is missing or the first end marker comes before the first begin marker. */
  lemma OutsideUnchanged(doc: string, block: string)
    ensures Splice(doc, block).Ok? <==>
              Occurs(doc, BEGIN_MARKER) && Occurs(doc, END_MARKER) && Index(doc, BEGIN_MARKER) < Index(doc, END_MARKER)
    ensures Splice(doc, block).Ok? ==>
              var bi, ei, r := Index(doc, BEGIN_MARKER), Index(doc, END_MARKER), Splice(doc, block).doc;
              && bi + |BEGIN_MARKER| <= ei <= |doc|
              && r[..bi + |BEGIN_MARKER|] == doc[..bi + |BEGIN_MARKER|]
              && |doc| - ei <= |r| && r[|r| - (|doc| - ei)..] == doc[ei..]
  {
    TheMarkers();
    OutsideBetween(BEGIN_MARKER, END_MARKER, doc, block);
  }

  /** Splicing twice keeps only the last block. */
  lemma LastBlockWins(doc: string, x: string, y: string)
    requires Splice(doc, x).Ok? && !Occurs(x, END_MARKER)
    ensures Splice(Splice(doc, x).doc, y) == Splice(doc, y)
  {
    TheMarkers();
    var bi, ei := SpliceIs(BEGIN_MARKER, END_MARKER, doc, x);
    SpliceTwice(BEGIN_MARKER, END_MARKER, doc, bi, ei, x, Splice(doc, x).doc, y);
  }

  /** Re-splicing the same block is byte-identical exactly when it does not hold the end
      marker itself; otherwise the document grows. */
  lemma IdempotentIff(doc: string, x: string)
    requires Splice(doc, x).Ok?
    ensures Splice(Splice(doc, x).doc, x) == Splice(doc, x) <==> !Occurs(x, END_MARKER)
  {
    TheMarkers();
    var b, e, r := BEGIN_MARKER, END_MARKER, Splice(doc, x).doc;
    var bi, ei := SpliceIs(b, e, doc, x);
    if !Occurs(x, e) {
      SpliceTwice(b, e, doc, bi, ei, x, r, x);
    } else {
      EndInBlock(b, e, doc, bi, ei, x, r);
      GrowsPastBlock(b, e, doc, bi, ei, x, r);
    }
  }

  lemma GrowsPastBlock(b: string, e: string, doc: string, bi: int, ei: int, x: string, r: string)
    requires Spliceable(b, e, doc, bi, ei) && Spliced(doc, bi + |b|, ei, x, r)
    requires Index(r, b) == bi && bi + |b| + 2 <= Index(r, e) < bi + |b| + 2 + |x|
    ensures SpliceBetween(b, e, r, x).Ok? && |SpliceBetween(b, e, r, x).doc| > |r|
  {
    assert SplicedText(doc, bi + |b|, ei, x, r);
  }

  /** What was put between the markers is what is found there, and putting back what is
      there changes nothing. */
  lemma PutThenGet(doc: string, x: string)
    requires Splice(doc, x).Ok? && !Occurs(x, END_MARKER)
    ensures var r := Splice(doc, x).doc;
            && Index(r, BEGIN_MARKER) >= 0 && Index(r, BEGIN_MARKER) + |BEGIN_MARKER| <= Index(r, END_MARKER)
            && Between(BEGIN_MARKER, END_MARKER, r) == "\n\n" + x + "\n"
  {
    TheMarkers();
    var b, e, r := BEGIN_MARKER, END_MARKER, Splice(doc, x).doc;
    var bi, ei := SpliceIs(b, e, doc, x);
    MarkersAfter(b, e, doc, bi, ei, x, r);
    BetweenIs(doc, bi + |b|, ei, x, r);
  }

  lemma GetThenPut(doc: string, x: string)
    requires Index(doc, BEGIN_MARKER) >= 0 && Index(doc, BEGIN_MARKER) + |BEGIN_MARKER| <= Index(doc, END_MARKER)
    requires Between(BEGIN_MARKER, END_MARKER, doc) == "\n\n" + x + "\n"
    ensures Splice(doc, x) == Ok(doc)
  {
    TheMarkers();
    PutBack(BEGIN_MARKER, END_MARKER, doc, x);
  }
}
