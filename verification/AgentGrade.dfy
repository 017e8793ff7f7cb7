/** Probe verdicts and their tallies (internal/agentgrade/verdict.go, internal/agentgrade/probe.go). */
module Verdicts {
  /** A stored verdict is a string; Other stands for every spelling that is not one of the
      named classes. */
  datatype Verdict =
    | Pass
    | Unstructured     // fail_unstructured_tool_call
    | UnknownTool      // fail_unknown_tool
    | NoCall           // fail_no_tool_call
    | Unprompted       // warn_unprompted_tool_call
    | BadArguments     // fail_invalid_tool_arguments
    | BadArgumentsOld  // warn_invalid_tool_arguments, the spelling before the promotion
    | Malformed        // fail_malformed_tool_call
    | Error
    | Other(spelling: string)

  predicate IsFailure(v: Verdict) {
    v == Unstructured || v == UnknownTool || v == NoCall || v == Malformed || v == BadArguments
  }

  function Severity(v: Verdict): (n: nat)
    ensures n <= 6
  {
    if v == Error then 6
    else if v == Malformed || v == UnknownTool then 5
    else if v == Unstructured then 4
    else if v == NoCall then 3
    else if v == BadArguments then 2
    else if v == Unprompted then 1
    else 0
  }

  function Canonical(v: Verdict): Verdict {
    if v == BadArgumentsOld then BadArguments else v
  }

  function Worse(a: Verdict, b: Verdict): Verdict {
    if Severity(a) >= Severity(b) then a else b
  }

  /** Failing is a band of the severity order, not its top: an error outranks every
      failure and is not one. Severity is injective above the pass rank except that a
      malformed call and an unknown tool share a rank. */
  lemma SeverityBands(a: Verdict, b: Verdict)
    ensures IsFailure(a) <==> 2 <= Severity(a) <= 5
    ensures Severity(a) == Severity(b) && Severity(a) > 0 && a != b ==>
              (a == Malformed && b == UnknownTool) || (a == UnknownTool && b == Malformed)
  {
  }

  // ----- The worst of several verdicts ----------------------------------

  /** What keeping the worse of each pair, first come first kept, leaves. */
  function WorstOf(vs: seq<Verdict>): Verdict
    requires vs != []
  {
    if |vs| == 1 then vs[0] else Worse(WorstOf(vs[..|vs| - 1]), vs[|vs| - 1])
  }

  ghost predicate TopRank(vs: seq<Verdict>, v: Verdict) {
    v in vs && forall w <- vs :: Severity(w) <= Severity(v)
  }

  lemma {:induction false} WorstIsTopRank(vs: seq<Verdict>)
    requires vs != []
    ensures TopRank(vs, WorstOf(vs))
    ensures TopRank(vs, vs[0]) ==> WorstOf(vs) == vs[0]
  {
    if |vs| > 1 {
      var init := vs[..|vs| - 1];
      WorstIsTopRank(init);
      assert forall w <- vs :: w in init || w == vs[|vs| - 1];
      assert forall w <- init :: w in vs;
    }
  }

  /** None of the runs said any of these. */
  ghost predicate Without(vs: seq<Verdict>, classes: set<Verdict>) {
    forall v <- vs :: v !in classes
  }

  const SHARED_TOP := {Malformed, UnknownTool}

  /** Which class outranks which, said by the verdict kept: an error whenever there is one, then
      a malformed call or an unknown tool, then an unstructured call, a missing one, bad
      arguments, an unprompted call, and otherwise the first verdict of all. */
  lemma WorstByClass(vs: seq<Verdict>)
    requires vs != []
    ensures WorstOf(vs) == Error <==> Error in vs
    ensures WorstOf(vs) in SHARED_TOP <==> Without(vs, {Error}) && !Without(vs, SHARED_TOP)
    ensures WorstOf(vs) == Unstructured <==> Unstructured in vs && Without(vs, {Error} + SHARED_TOP)
    ensures WorstOf(vs) == NoCall <==> NoCall in vs && Without(vs, {Error, Unstructured} + SHARED_TOP)
    ensures WorstOf(vs) == BadArguments <==>
            BadArguments in vs && Without(vs, {Error, Unstructured, NoCall} + SHARED_TOP)
    ensures WorstOf(vs) == Unprompted <==>
            Unprompted in vs && Without(vs, {Error, Unstructured, NoCall, BadArguments} + SHARED_TOP)
    ensures Without(vs, {Error, Unstructured, NoCall, BadArguments, Unprompted} + SHARED_TOP) ==>
              WorstOf(vs) == vs[0]
  {
    WorstIsTopRank(vs);
  }

  ghost predicate Permuted(a: seq<Verdict>, b: seq<Verdict>) {
    multiset(a) == multiset(b)
  }

  /** The verdict kept does not depend on the order of the runs exactly when only one
      verdict has the top rank. */
  lemma WorstIsOrderFreeIff(vs: seq<Verdict>)
    requires vs != []
    ensures (forall ws :: Permuted(ws, vs) && ws != [] ==> WorstOf(ws) == WorstOf(vs))
            <==> (forall a, b :: TopRank(vs, a) && TopRank(vs, b) ==> a == b)
  {
    if forall a, b :: TopRank(vs, a) && TopRank(vs, b) ==> a == b {
      forall ws | Permuted(ws, vs) && ws != [] ensures WorstOf(ws) == WorstOf(vs) {
        SameMembers(ws, vs);
        WorstIsTopRank(ws);
        WorstIsTopRank(vs);
        assert TopRank(vs, WorstOf(ws));
      }
    } else {
      var a, b :| TopRank(vs, a) && TopRank(vs, b) && a != b;
      var wa, wb := BringToFront(vs, a), BringToFront(vs, b);
      SameMembers(wa, vs);
      SameMembers(wb, vs);
      WorstIsTopRank(wa);
      WorstIsTopRank(wb);
    }
  }

  lemma SameMembers(a: seq<Verdict>, b: seq<Verdict>)
    requires Permuted(a, b)
    ensures forall x :: x in a <==> x in b
  {
    forall x ensures x in a <==> x in b {
      assert x in multiset(a) <==> x in a;
      assert x in multiset(b) <==> x in b;
    }
  }

  ghost function BringToFront(vs: seq<Verdict>, v: Verdict): (ws: seq<Verdict>)
    requires v in vs
    ensures ws != [] && ws[0] == v && Permuted(ws, vs)
  {
    var i :| 0 <= i < |vs| && vs[i] == v;
    assert vs == vs[..i] + [v] + vs[i + 1..];
    [v] + vs[..i] + vs[i + 1..]
  }

  // ----- Tallies --------------------------------------------------------

  type Tally = map<Verdict, int>

  function Get(t: Tally, k: Verdict): int {
    if k in t then t[k] else 0
  }

  function Add(a: Tally, b: Tally): (t: Tally)
    ensures t.Keys == a.Keys + b.Keys
    ensures forall k :: Get(t, k) == Get(a, k) + Get(b, k)
  {
    map k | k in a.Keys + b.Keys :: Get(a, k) + Get(b, k)
  }

  lemma SameCounts(a: Tally, b: Tally)
    requires a.Keys == b.Keys && forall k :: Get(a, k) == Get(b, k)
    ensures a == b
  {
    assert forall k <- a :: a[k] == Get(a, k) && b[k] == Get(b, k);
  }

  lemma AddLaws(a: Tally, b: Tally, c: Tally)
    ensures Add(a, b) == Add(b, a)
    ensures Add(Add(a, b), c) == Add(a, Add(b, c))
  {
    SameCounts(Add(a, b), Add(b, a));
    SameCounts(Add(Add(a, b), c), Add(a, Add(b, c)));
  }
}
