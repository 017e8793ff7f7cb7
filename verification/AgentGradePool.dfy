/** Pooling probe reports of one model into one verdict (cmd/catalog-tool/agentgrade.go). */
module Pooling {
  import opened Verdicts

  /** One case of one run. An empty tally is a run from before classes were counted. */
  datatype CaseResult = CaseResult(name: string, verdict: Verdict, trials: int, failed: int, tally: Tally)

  // ----- The fold -------------------------------------------------------

  function Merge(c: CaseResult, rc: CaseResult): CaseResult {
    CaseResult(c.name, Worse(c.verdict, rc.verdict), c.trials + rc.trials, c.failed + rc.failed,
               if c.tally != map[] && rc.tally != map[] then Add(c.tally, rc.tally) else map[])
  }

  /** Fold one case in: into the first entry of that name, or at the end. */
  function Fold(acc: seq<CaseResult>, rc: CaseResult): (r: seq<CaseResult>)
    ensures |acc| <= |r| <= |acc| + 1
  {
    if acc == [] then [rc]
    else if acc[0].name == rc.name then [Merge(acc[0], rc)] + acc[1..]
    else [acc[0]] + Fold(acc[1..], rc)
  }

  function FoldAll(acc: seq<CaseResult>, rs: seq<CaseResult>): seq<CaseResult> {
    if rs == [] then acc else Fold(FoldAll(acc, rs[..|rs| - 1]), rs[|rs| - 1])
  }

  /** The cases of several runs, in order; the first run's are taken as they are. */
  function PoolCases(runs: seq<seq<CaseResult>>): seq<CaseResult>
    requires runs != []
  {
    if |runs| == 1 then runs[0] else FoldAll(PoolCases(runs[..|runs| - 1]), runs[|runs| - 1])
  }

  // ----- What a set of runs says about one case -------------------------

  /** The evidence about one case: totals, the tally if every run has one, and the
      worst rank. Absent when no run holds the case. */
  datatype Sum = Absent | Present(trials: int, failed: int, tally: Tally, tallied: bool, rank: nat)

  function Max(a: nat, b: nat): nat {
    if a < b then b else a
  }

  function Plus(a: Sum, b: Sum): Sum {
    match (a, b)
    case (Absent, _) => b
    case (_, Absent) => a
    case (Present(t, f, m, k, r), Present(t', f', m', k', r')) =>
      Present(t + t', f + f', if k && k' then Add(m, m') else map[], k && k', Max(r, r'))
  }

  function SumOfCase(c: CaseResult): Sum {
    Present(c.trials, c.failed, c.tally, c.tally != map[], Severity(c.verdict))
  }

  function SumOf(cs: seq<CaseResult>, name: string): Sum {
    if cs == [] then Absent
    else Plus(if cs[0].name == name then SumOfCase(cs[0]) else Absent, SumOf(cs[1..], name))
  }

  function SumOfRuns(runs: seq<seq<CaseResult>>, name: string): Sum {
    if runs == [] then Absent else Plus(SumOf(runs[0], name), SumOfRuns(runs[1..], name))
  }

  lemma AddNotEmpty(a: Tally, b: Tally)
    requires a != map[]
    ensures Add(a, b) != map[]
  {
    var k :| k in a;
    assert k in Add(a, b);
  }

  lemma PlusLaws(a: Sum, b: Sum, c: Sum)
    ensures Plus(a, b) == Plus(b, a)
    ensures Plus(Plus(a, b), c) == Plus(a, Plus(b, c))
  {
    if a.Present? && b.Present? {
      AddLaws(a.tally, b.tally, map[]);
      if c.Present? {
        AddLaws(a.tally, b.tally, c.tally);
      }
    }
  }

  lemma MergeAdds(c: CaseResult, rc: CaseResult)
    ensures SumOfCase(Merge(c, rc)) == Plus(SumOfCase(c), SumOfCase(rc))
  {
    if c.tally != map[] {
      AddNotEmpty(c.tally, rc.tally);
    }
  }

  /** Folding a case in adds exactly its evidence, to its own name only. */
  lemma {:induction false} FoldAdds(acc: seq<CaseResult>, rc: CaseResult, name: string)
    ensures SumOf(Fold(acc, rc), name) == Plus(SumOf(acc, name), if rc.name == name then SumOfCase(rc) else Absent)
  {
    var x := if rc.name == name then SumOfCase(rc) else Absent;
    if acc == [] {
      assert [rc][1..] == [];
    } else {
      var hd := if acc[0].name == name then SumOfCase(acc[0]) else Absent;
      var tl := SumOf(acc[1..], name);
      var r := Fold(acc, rc);
      if acc[0].name == rc.name {
        assert r[1..] == acc[1..];
        MergeAdds(acc[0], rc);
        PlusLaws(hd, x, tl);
        PlusLaws(hd, tl, x);
        PlusLaws(tl, x, Absent);
      } else {
        assert r[1..] == Fold(acc[1..], rc);
        FoldAdds(acc[1..], rc, name);
        PlusLaws(hd, tl, x);
      }
    }
  }

  lemma {:induction false} SumSnoc(cs: seq<CaseResult>, c: CaseResult, name: string)
    ensures SumOf(cs + [c], name) == Plus(SumOf(cs, name), if c.name == name then SumOfCase(c) else Absent)
  {
    var x := if c.name == name then SumOfCase(c) else Absent;
    if cs == [] {
      assert ([] + [c])[1..] == [];
    } else {
      assert (cs + [c])[1..] == cs[1..] + [c];
      SumSnoc(cs[1..], c, name);
      PlusLaws(if cs[0].name == name then SumOfCase(cs[0]) else Absent, SumOf(cs[1..], name), x);
    }
  }

  lemma {:induction false} FoldAllAdds(acc: seq<CaseResult>, rs: seq<CaseResult>, name: string)
    ensures SumOf(FoldAll(acc, rs), name) == Plus(SumOf(acc, name), SumOf(rs, name))
  {
    if rs == [] {
      PlusLaws(SumOf(acc, name), Absent, Absent);
    } else {
      var init, c := rs[..|rs| - 1], rs[|rs| - 1];
      FoldAllAdds(acc, init, name);
      FoldAdds(FoldAll(acc, init), c, name);
      assert init + [c] == rs;
      SumSnoc(init, c, name);
      PlusLaws(SumOf(acc, name), SumOf(init, name), if c.name == name then SumOfCase(c) else Absent);
    }
  }

  lemma {:induction false} RunsSnoc(runs: seq<seq<CaseResult>>, r: seq<CaseResult>, name: string)
    ensures SumOfRuns(runs + [r], name) == Plus(SumOfRuns(runs, name), SumOf(r, name))
  {
    if runs == [] {
      assert ([] + [r])[1..] == [];
      PlusLaws(SumOf(r, name), Absent, Absent);
    } else {
      assert (runs + [r])[1..] == runs[1..] + [r];
      RunsSnoc(runs[1..], r, name);
      PlusLaws(SumOf(runs[0], name), SumOfRuns(runs[1..], name), SumOf(r, name));
    }
  }

  /** Pooling conserves. For every case the pooled record holds exactly the trials, the
      failures and the per-class counts of all the runs together, at the worst rank any
      of them reached; it keeps a tally exactly when every run holding the case has one;
      and it holds the case exactly when some run does. */
  lemma {:induction false} PoolConserves(runs: seq<seq<CaseResult>>, name: string)
    requires runs != []
    ensures SumOf(PoolCases(runs), name) == SumOfRuns(runs, name)
  {
    if |runs| == 1 {
      assert runs[1..] == [];
      PlusLaws(SumOf(runs[0], name), Absent, Absent);
    } else {
      var init, r := runs[..|runs| - 1], runs[|runs| - 1];
      PoolConserves(init, name);
      FoldAllAdds(PoolCases(init), r, name);
      assert init + [r] == runs;
      RunsSnoc(init, r, name);
    }
  }

  // ----- Order ----------------------------------------------------------

  lemma {:induction false} RunsSplit(xs: seq<seq<CaseResult>>, ys: seq<seq<CaseResult>>, name: string)
    ensures SumOfRuns(xs + ys, name) == Plus(SumOfRuns(xs, name), SumOfRuns(ys, name))
  {
    if xs == [] {
      assert xs + ys == ys;
    } else {
      assert (xs + ys)[1..] == xs[1..] + ys;
      RunsSplit(xs[1..], ys, name);
      PlusLaws(SumOf(xs[0], name), SumOfRuns(xs[1..], name), SumOfRuns(ys, name));
    }
  }

  lemma {:induction false} SumIsOrderFree(xs: seq<seq<CaseResult>>, ys: seq<seq<CaseResult>>, name: string)
    requires multiset(xs) == multiset(ys)
    ensures SumOfRuns(xs, name) == SumOfRuns(ys, name)
    decreases |xs|
  {
    if xs == [] {
      assert |multiset(ys)| == 0;
    } else {
      var x := xs[0];
      assert x in multiset(ys);
      var i :| 0 <= i < |ys| && ys[i] == x;
      var front, back := ys[..i], ys[i + 1..];
      assert ys == front + ([x] + back);
      assert xs == [x] + xs[1..];
      assert multiset(xs[1..]) == multiset(xs) - multiset{x};
      assert multiset(front + back) == multiset(ys) - multiset{x};
      SumIsOrderFree(xs[1..], front + back, name);
      RunsSplit(front, back, name);
      RunsSplit(front, [x] + back, name);
      assert ([x] + back)[1..] == back;
      PlusLaws(SumOf(x, name), SumOfRuns(front, name), SumOfRuns(back, name));
      PlusLaws(SumOfRuns(front, name), SumOf(x, name), SumOfRuns(back, name));
    }
  }

  /** Totals, tallies and the worst rank of every case are the same for every order of the runs. */
  lemma PoolIsOrderFree(xs: seq<seq<CaseResult>>, ys: seq<seq<CaseResult>>, name: string)
    requires xs != [] && multiset(xs) == multiset(ys)
    ensures ys != [] && SumOf(PoolCases(xs), name) == SumOf(PoolCases(ys), name)
  {
    assert |multiset(xs)| == |xs| && |multiset(ys)| == |ys|;
    PoolConserves(xs, name);
    PoolConserves(ys, name);
    SumIsOrderFree(xs, ys, name);
  }

  // ----- The grade ------------------------------------------------------

  predicate DistinctNames(cs: seq<CaseResult>) {
    forall i, j :: 0 <= i < j < |cs| ==> cs[i].name != cs[j].name
  }

  /** The pooled grade: some case's worst verdict is a failure. */
  predicate Fails(cs: seq<CaseResult>) {
    exists i :: 0 <= i < |cs| && IsFailure(cs[i].verdict)
  }

  lemma {:induction false} SumAbsent(cs: seq<CaseResult>, name: string)
    ensures SumOf(cs, name) == Absent <==> forall i :: 0 <= i < |cs| ==> cs[i].name != name
  {
    if cs != [] {
      SumAbsent(cs[1..], name);
      assert forall i :: 0 < i < |cs| ==> cs[i] == cs[1..][i - 1];
    }
  }

  lemma {:induction false} SumOfDistinct(cs: seq<CaseResult>, i: nat)
    requires DistinctNames(cs) && i < |cs|
    ensures SumOf(cs, cs[i].name) == SumOfCase(cs[i])
  {
    if i == 0 {
      SumAbsent(cs[1..], cs[0].name);
      PlusLaws(SumOfCase(cs[0]), Absent, Absent);
    } else {
      SumOfDistinct(cs[1..], i - 1);
    }
  }

  lemma FoldNames(acc: seq<CaseResult>, rc: CaseResult)
    requires DistinctNames(acc)
    ensures DistinctNames(Fold(acc, rc))
  {
    FoldAt(acc, rc, FirstNamed(acc, rc.name));
  }

  lemma {:induction false} FoldAllNames(acc: seq<CaseResult>, rs: seq<CaseResult>)
    requires DistinctNames(acc)
    ensures DistinctNames(FoldAll(acc, rs))
  {
    if rs != [] {
      FoldAllNames(acc, rs[..|rs| - 1]);
      FoldNames(FoldAll(acc, rs[..|rs| - 1]), rs[|rs| - 1]);
    }
  }

  lemma {:induction false} PoolNames(runs: seq<seq<CaseResult>>)
    requires runs != [] && DistinctNames(runs[0])
    ensures DistinctNames(PoolCases(runs))
  {
    if |runs| > 1 {
      PoolNames(runs[..|runs| - 1]);
      FoldAllNames(PoolCases(runs[..|runs| - 1]), runs[|runs| - 1]);
    }
  }

  ghost predicate FailingRank(s: Sum) {
    s.Present? && 2 <= s.rank <= 5
  }

  /** A case fails by its rank alone, so the grade can be read off the sums. */
  lemma FailsHasRank(cs: seq<CaseResult>) returns (name: string)
    requires DistinctNames(cs) && Fails(cs)
    ensures FailingRank(SumOf(cs, name))
  {
    var i :| 0 <= i < |cs| && IsFailure(cs[i].verdict);
    name := cs[i].name;
    SumOfDistinct(cs, i);
    SeverityBands(cs[i].verdict, Pass);
  }

  lemma RankFails(cs: seq<CaseResult>, name: string)
    requires DistinctNames(cs) && FailingRank(SumOf(cs, name))
    ensures Fails(cs)
  {
    SumAbsent(cs, name);
    var i :| 0 <= i < |cs| && cs[i].name == name;
    SumOfDistinct(cs, i);
    SeverityBands(cs[i].verdict, Pass);
  }

  lemma SameSumsSameGrade(ps: seq<CaseResult>, qs: seq<CaseResult>)
    requires DistinctNames(ps) && DistinctNames(qs)
    requires forall name :: SumOf(ps, name) == SumOf(qs, name)
    ensures Fails(ps) ==> Fails(qs)
  {
    if Fails(ps) {
      var name := FailsHasRank(ps);
      RankFails(qs, name);
    }
  }

  lemma SameRuns(xs: seq<seq<CaseResult>>, ys: seq<seq<CaseResult>>)
    requires xs != [] && multiset(xs) == multiset(ys)
    ensures ys != [] && ys[0] in xs
  {
    assert |multiset(xs)| == |xs| && |multiset(ys)| == |ys|;
    var y := ys[0];
    assert y in multiset(ys) <==> y in ys;
    assert y in multiset(xs) <==> y in xs;
  }

  /** The grade is the same for every order of the runs. */
  lemma GradeIsOrderFree(xs: seq<seq<CaseResult>>, ys: seq<seq<CaseResult>>)
    requires xs != [] && multiset(xs) == multiset(ys)
    requires forall r <- xs :: DistinctNames(r)
    ensures ys != [] && (Fails(PoolCases(xs)) <==> Fails(PoolCases(ys)))
  {
    SameRuns(xs, ys);
    PoolNames(xs);
    PoolNames(ys);
    var ps, qs := PoolCases(xs), PoolCases(ys);
    forall name ensures SumOf(ps, name) == SumOf(qs, name) {
      PoolIsOrderFree(xs, ys, name);
    }
    SameSumsSameGrade(ps, qs);
    SameSumsSameGrade(qs, ps);
  }

  // ----- When a tally is kept -------------------------------------------

  ghost predicate CountedIn(cs: seq<CaseResult>, name: string) {
    forall j :: 0 <= j < |cs| && cs[j].name == name ==> cs[j].tally != map[]
  }

  lemma {:induction false} SumCounted(cs: seq<CaseResult>, name: string)
    ensures if SumOf(cs, name).Absent? then CountedIn(cs, name) else SumOf(cs, name).tallied == CountedIn(cs, name)
  {
    if cs != [] {
      SumCounted(cs[1..], name);
      SumAbsent(cs, name);
      assert forall j :: 0 < j < |cs| ==> cs[j] == cs[1..][j - 1];
      assert forall j :: 0 <= j < |cs| - 1 ==> cs[1..][j] == cs[j + 1];
    }
  }

  lemma {:induction false} RunsCounted(runs: seq<seq<CaseResult>>, name: string)
    ensures var sum := SumOfRuns(runs, name);
            var counted := forall q :: 0 <= q < |runs| ==> CountedIn(runs[q], name);
            if sum.Absent? then counted else sum.tallied == counted
  {
    if runs != [] {
      RunsCounted(runs[1..], name);
      SumCounted(runs[0], name);
      assert forall q :: 0 < q < |runs| ==> runs[q] == runs[1..][q - 1];
      assert forall q :: 0 <= q < |runs| - 1 ==> runs[1..][q] == runs[q + 1];
    }
  }

  /** A pooled case has a tally exactly when every case of that name, in every run, has one. */
  lemma TallyKeptIff(runs: seq<seq<CaseResult>>, i: nat)
    requires runs != [] && DistinctNames(runs[0]) && i < |PoolCases(runs)|
    ensures PoolCases(runs)[i].tally != map[] <==>
              forall q :: 0 <= q < |runs| ==> CountedIn(runs[q], PoolCases(runs)[i].name)
  {
    var cs := PoolCases(runs);
    PoolNames(runs);
    SumOfDistinct(cs, i);
    PoolConserves(runs, cs[i].name);
    RunsCounted(runs, cs[i].name);
  }

  // ----- The verdict kept -----------------------------------------------

  lemma {:induction false} FoldAt(acc: seq<CaseResult>, rc: CaseResult, i: nat)
    requires i <= |acc| && (forall j :: 0 <= j < i ==> acc[j].name != rc.name)
    requires i < |acc| ==> acc[i].name == rc.name
    ensures Fold(acc, rc) == if i == |acc| then acc + [rc] else acc[i := Merge(acc[i], rc)]
  {
    if acc != [] && i > 0 {
      FoldAt(acc[1..], rc, i - 1);
      if i < |acc| {
        assert acc[i := Merge(acc[i], rc)] == [acc[0]] + acc[1..][i - 1 := Merge(acc[i], rc)];
      } else {
        assert acc + [rc] == [acc[0]] + (acc[1..] + [rc]);
      }
    } else if acc != [] {
      assert acc[0 := Merge(acc[0], rc)] == [Merge(acc[0], rc)] + acc[1..];
    }
  }

  function VerdictsIn(cs: seq<CaseResult>, name: string): seq<Verdict> {
    if cs == [] then []
    else VerdictsIn(cs[..|cs| - 1], name) + if cs[|cs| - 1].name == name then [cs[|cs| - 1].verdict] else []
  }

  /** What the runs said about one case, in order. */
  function VerdictsOf(runs: seq<seq<CaseResult>>, name: string): seq<Verdict> {
    if runs == [] then [] else VerdictsOf(runs[..|runs| - 1], name) + VerdictsIn(runs[|runs| - 1], name)
  }

  /** The pool's entry for a name carries the worst of the verdicts seen, if any were. */
  ghost predicate Carries(acc: seq<CaseResult>, name: string, vs: seq<Verdict>) {
    if vs == [] then forall i :: 0 <= i < |acc| ==> acc[i].name != name
    else exists i :: 0 <= i < |acc| && acc[i].name == name && acc[i].verdict == WorstOf(vs)
  }

  lemma WorstSnoc(vs: seq<Verdict>, v: Verdict)
    ensures WorstOf(vs + [v]) == if vs == [] then v else Worse(WorstOf(vs), v)
  {
    assert (vs + [v])[..|vs|] == vs;
  }

  lemma FoldCarriesOwn(acc: seq<CaseResult>, rc: CaseResult, vs: seq<Verdict>)
    requires DistinctNames(acc) && Carries(acc, rc.name, vs)
    ensures Carries(Fold(acc, rc), rc.name, vs + [rc.verdict])
  {
    var i := FirstNamed(acc, rc.name);
    FoldAt(acc, rc, i);
    WorstSnoc(vs, rc.verdict);
    assert Fold(acc, rc)[i].name == rc.name && Fold(acc, rc)[i].verdict == WorstOf(vs + [rc.verdict]);
  }

  lemma FoldCarriesOther(acc: seq<CaseResult>, rc: CaseResult, name: string, vs: seq<Verdict>)
    requires Carries(acc, name, vs) && rc.name != name
    ensures Carries(Fold(acc, rc), name, vs)
  {
    var i := FirstNamed(acc, rc.name);
    FoldAt(acc, rc, i);
    if vs != [] {
      var k :| 0 <= k < |acc| && acc[k].name == name && acc[k].verdict == WorstOf(vs);
      assert Fold(acc, rc)[k] == acc[k];
    }
  }

  function FirstNamed(cs: seq<CaseResult>, name: string): (i: nat)
    ensures i <= |cs| && (forall j :: 0 <= j < i ==> cs[j].name != name) && (i < |cs| ==> cs[i].name == name)
  {
    if cs == [] then 0 else if cs[0].name == name then 0 else 1 + FirstNamed(cs[1..], name)
  }

  lemma {:induction false} FoldAllCarries(acc: seq<CaseResult>, rs: seq<CaseResult>, name: string, vs: seq<Verdict>)
    requires DistinctNames(acc) && Carries(acc, name, vs)
    ensures Carries(FoldAll(acc, rs), name, vs + VerdictsIn(rs, name))
  {
    if rs == [] {
      assert vs + [] == vs;
    } else {
      var init, c := rs[..|rs| - 1], rs[|rs| - 1];
      FoldAllCarries(acc, init, name, vs);
      FoldAllNames(acc, init);
      if c.name == name {
        FoldCarriesOwn(FoldAll(acc, init), c, vs + VerdictsIn(init, name));
        assert vs + VerdictsIn(init, name) + [c.verdict] == vs + VerdictsIn(rs, name);
      } else {
        FoldCarriesOther(FoldAll(acc, init), c, name, vs + VerdictsIn(init, name));
        assert VerdictsIn(rs, name) == VerdictsIn(init, name);
      }
    }
  }

  lemma {:induction false} NoVerdicts(cs: seq<CaseResult>, name: string)
    requires forall i :: 0 <= i < |cs| ==> cs[i].name != name
    ensures VerdictsIn(cs, name) == []
  {
    if cs != [] {
      NoVerdicts(cs[..|cs| - 1], name);
    }
  }

  lemma {:induction false} DistinctCarries(cs: seq<CaseResult>, name: string)
    requires DistinctNames(cs)
    ensures Carries(cs, name, VerdictsIn(cs, name)) && |VerdictsIn(cs, name)| <= 1
  {
    if cs != [] {
      var n := |cs| - 1;
      var init := cs[..n];
      if cs[n].name == name {
        NoVerdicts(init, name);
      } else {
        DistinctCarries(init, name);
        assert VerdictsIn(cs, name) == VerdictsIn(init, name);
        if VerdictsIn(init, name) != [] {
          var k :| 0 <= k < n && init[k].name == name && init[k].verdict == WorstOf(VerdictsIn(init, name));
          assert cs[k] == init[k];
        }
      }
    }
  }

  /** The pooled verdict of a case is the worst the runs gave it, the earliest of that rank. */
  lemma {:induction false} PoolCarriesWorst(runs: seq<seq<CaseResult>>, name: string)
    requires runs != [] && DistinctNames(runs[0])
    ensures Carries(PoolCases(runs), name, VerdictsOf(runs, name))
  {
    if |runs| == 1 {
      DistinctCarries(runs[0], name);
      assert VerdictsOf(runs[..0], name) == [];
      assert [] + VerdictsIn(runs[0], name) == VerdictsIn(runs[0], name);
    } else {
      var init := runs[..|runs| - 1];
      PoolCarriesWorst(init, name);
      PoolNames(init);
      FoldAllCarries(PoolCases(init), runs[|runs| - 1], name, VerdictsOf(init, name));
    }
  }

  // ----- When the order of the runs matters -----------------------------

  ghost predicate SameSet(xs: seq<seq<CaseResult>>, ys: seq<seq<CaseResult>>) {
    multiset(xs) == multiset(ys)
  }

  lemma VerdictsSnoc(xs: seq<seq<CaseResult>>, r: seq<CaseResult>, name: string)
    ensures VerdictsOf(xs + [r], name) == VerdictsOf(xs, name) + VerdictsIn(r, name)
  {
    assert (xs + [r])[..|xs|] == xs;
  }

  lemma {:induction false} VerdictsSplit(xs: seq<seq<CaseResult>>, ys: seq<seq<CaseResult>>, name: string)
    ensures VerdictsOf(xs + ys, name) == VerdictsOf(xs, name) + VerdictsOf(ys, name)
    decreases |ys|
  {
    if ys == [] {
      assert xs + ys == xs;
    } else {
      var init, r := ys[..|ys| - 1], ys[|ys| - 1];
      assert xs + ys == (xs + init) + [r] && ys == init + [r];
      VerdictsSplit(xs, init, name);
      VerdictsSnoc(xs + init, r, name);
      VerdictsSnoc(init, r, name);
    }
  }

  lemma OneRun(r: seq<CaseResult>, name: string)
    ensures VerdictsOf([r], name) == VerdictsIn(r, name)
  {
    assert [r][..0] == [];
  }

  lemma VerdictsWithout(xs: seq<seq<CaseResult>>, i: nat, name: string)
    requires i < |xs|
    ensures multiset(VerdictsOf(xs, name)) ==
            multiset(VerdictsOf(xs[..i] + xs[i + 1..], name)) + multiset(VerdictsIn(xs[i], name))
    ensures multiset(xs[..i] + xs[i + 1..]) == multiset(xs) - multiset{xs[i]}
  {
    assert xs == xs[..i] + ([xs[i]] + xs[i + 1..]);
    VerdictsSplit(xs[..i], [xs[i]] + xs[i + 1..], name);
    VerdictsSplit([xs[i]], xs[i + 1..], name);
    VerdictsSplit(xs[..i], xs[i + 1..], name);
    OneRun(xs[i], name);
  }

  /** A run the other sequence has as well, and what is left of both without it. */
  lemma SameWithout(xs: seq<seq<CaseResult>>, ys: seq<seq<CaseResult>>) returns (i: nat)
    requires SameSet(xs, ys) && xs != []
    ensures i < |ys| && ys[i] == xs[0]
    ensures SameSet(xs[..0] + xs[1..], ys[..i] + ys[i + 1..])
  {
    assert xs[0] in multiset(xs);
    assert xs[0] in multiset(ys);
    i :| 0 <= i < |ys| && ys[i] == xs[0];
    VerdictsWithout(xs, 0, "");
    VerdictsWithout(ys, i, "");
  }

  lemma {:induction false} VerdictsPermute(xs: seq<seq<CaseResult>>, ys: seq<seq<CaseResult>>, name: string)
    requires SameSet(xs, ys)
    ensures Permuted(VerdictsOf(xs, name), VerdictsOf(ys, name))
    decreases |xs|
  {
    if xs == [] {
      assert |multiset(ys)| == 0;
      assert ys == [];
    } else {
      var i := SameWithout(xs, ys);
      var xr, yr := xs[..0] + xs[1..], ys[..i] + ys[i + 1..];
      VerdictsPermute(xr, yr, name);
      PermuteWith(xs, xr, 0, ys, yr, i, name);
    }
  }

  lemma PermuteWith(xs: seq<seq<CaseResult>>, xr: seq<seq<CaseResult>>, j: nat,
                    ys: seq<seq<CaseResult>>, yr: seq<seq<CaseResult>>, i: nat, name: string)
    requires j < |xs| && i < |ys| && xs[j] == ys[i]
    requires xr == xs[..j] + xs[j + 1..] && yr == ys[..i] + ys[i + 1..]
    requires Permuted(VerdictsOf(xr, name), VerdictsOf(yr, name))
    ensures Permuted(VerdictsOf(xs, name), VerdictsOf(ys, name))
  {
    VerdictsWithout(xs, j, name);
    VerdictsWithout(ys, i, name);
  }

  lemma {:induction false} WhoSaid(runs: seq<seq<CaseResult>>, name: string, v: Verdict) returns (q: nat)
    requires v in VerdictsOf(runs, name)
    ensures q < |runs| && v in VerdictsIn(runs[q], name)
  {
    var n := |runs| - 1;
    if v in VerdictsIn(runs[n], name) {
      return n;
    }
    q := WhoSaid(runs[..n], name, v);
  }

  /** One run moved to the front. */
  lemma ToFront(runs: seq<seq<CaseResult>>, q: nat) returns (rest: seq<seq<CaseResult>>)
    requires q < |runs|
    ensures SameSet([runs[q]] + rest, runs)
  {
    rest := runs[..q] + runs[q + 1..];
    assert runs == runs[..q] + ([runs[q]] + runs[q + 1..]);
  }

  lemma FrontVerdict(r: seq<CaseResult>, rest: seq<seq<CaseResult>>, name: string, v: Verdict)
    requires DistinctNames(r) && v in VerdictsIn(r, name)
    ensures VerdictsOf([r] + rest, name) != [] && VerdictsOf([r] + rest, name)[0] == v
  {
    DistinctCarries(r, name);
    OneRun(r, name);
    VerdictsSplit([r], rest, name);
  }

  /** The same runs, one that gave a top-rank verdict first: that verdict is kept. */
  lemma RunFirst(runs: seq<seq<CaseResult>>, name: string, v: Verdict) returns (ys: seq<seq<CaseResult>>)
    requires forall q :: 0 <= q < |runs| ==> DistinctNames(runs[q])
    requires TopRank(VerdictsOf(runs, name), v)
    ensures SameSet(ys, runs) && VerdictsOf(ys, name) != [] && WorstOf(VerdictsOf(ys, name)) == v
  {
    var q := WhoSaid(runs, name, v);
    var rest := ToFront(runs, q);
    ys := [runs[q]] + rest;
    FrontVerdict(runs[q], rest, name, v);
    VerdictsPermute(ys, runs, name);
    KeptFirst(VerdictsOf(ys, name), VerdictsOf(runs, name), v);
  }

  lemma KeptFirst(ws: seq<Verdict>, vs: seq<Verdict>, v: Verdict)
    requires Permuted(ws, vs) && TopRank(vs, v) && ws != [] && ws[0] == v
    ensures WorstOf(ws) == v
  {
    SameMembers(ws, vs);
    WorstIsTopRank(ws);
  }

  lemma WorstIsRunOrderFreeIff(runs: seq<seq<CaseResult>>, name: string)
    requires forall q :: 0 <= q < |runs| ==> DistinctNames(runs[q])
    requires VerdictsOf(runs, name) != []
    ensures (forall ys :: SameSet(ys, runs) ==>
               VerdictsOf(ys, name) != [] && WorstOf(VerdictsOf(ys, name)) == WorstOf(VerdictsOf(runs, name)))
            <==> (forall a, b :: TopRank(VerdictsOf(runs, name), a) && TopRank(VerdictsOf(runs, name), b) ==> a == b)
  {
    var vs := VerdictsOf(runs, name);
    if forall a, b :: TopRank(vs, a) && TopRank(vs, b) ==> a == b {
      forall ys | SameSet(ys, runs)
        ensures VerdictsOf(ys, name) != [] && WorstOf(VerdictsOf(ys, name)) == WorstOf(vs)
      {
        VerdictsPermute(ys, runs, name);
        OrderFree(VerdictsOf(ys, name), vs);
      }
    } else {
      var a, b :| TopRank(vs, a) && TopRank(vs, b) && a != b;
      var ya := RunFirst(runs, name, a);
      var yb := RunFirst(runs, name, b);
    }
  }

  /** The pool keeps this verdict for the case. */
  ghost predicate Keeps(runs: seq<seq<CaseResult>>, name: string, v: Verdict) {
    runs != [] && exists i :: 0 <= i < |PoolCases(runs)| && PoolCases(runs)[i].name == name
                              && PoolCases(runs)[i].verdict == v
  }

  lemma KeepsWorst(runs: seq<seq<CaseResult>>, name: string, v: Verdict)
    requires forall q :: 0 <= q < |runs| ==> DistinctNames(runs[q])
    requires VerdictsOf(runs, name) != []
    ensures Keeps(runs, name, v) <==> v == WorstOf(VerdictsOf(runs, name))
  {
    PoolCarriesWorst(runs, name);
    PoolNames(runs);
  }

  /** The order of the classes, as a pool of any number of runs shows it: a class is kept for a
      case exactly when some run gave it and no run gave one that outranks it. */
  lemma KeptByClass(runs: seq<seq<CaseResult>>, name: string)
    requires forall q :: 0 <= q < |runs| ==> DistinctNames(runs[q])
    requires VerdictsOf(runs, name) != []
    ensures var vs := VerdictsOf(runs, name);
            && (Keeps(runs, name, Error) <==> Error in vs)
            && (Keeps(runs, name, Malformed) || Keeps(runs, name, UnknownTool)
                <==> Without(vs, {Error}) && !Without(vs, SHARED_TOP))
            && (Keeps(runs, name, Unstructured) <==> Unstructured in vs && Without(vs, {Error} + SHARED_TOP))
            && (Keeps(runs, name, NoCall) <==> NoCall in vs && Without(vs, {Error, Unstructured} + SHARED_TOP))
            && (Keeps(runs, name, BadArguments)
                <==> BadArguments in vs && Without(vs, {Error, Unstructured, NoCall} + SHARED_TOP))
            && (Keeps(runs, name, Unprompted)
                <==> Unprompted in vs && Without(vs, {Error, Unstructured, NoCall, BadArguments} + SHARED_TOP))
  {
    var vs := VerdictsOf(runs, name);
    WorstByClass(vs);
    forall v ensures Keeps(runs, name, v) <==> v == WorstOf(vs) {
      KeepsWorst(runs, name, v);
    }
  }

  lemma SameSetDistinct(ys: seq<seq<CaseResult>>, runs: seq<seq<CaseResult>>)
    requires SameSet(ys, runs) && forall q :: 0 <= q < |runs| ==> DistinctNames(runs[q])
    ensures forall q :: 0 <= q < |ys| ==> DistinctNames(ys[q])
  {
    forall q | 0 <= q < |ys| ensures DistinctNames(ys[q]) {
      assert ys[q] in multiset(ys);
      assert ys[q] in multiset(runs);
      var k :| 0 <= k < |runs| && runs[k] == ys[q];
    }
  }

  lemma SameSetVerdicts(ys: seq<seq<CaseResult>>, runs: seq<seq<CaseResult>>, name: string)
    requires SameSet(ys, runs) && VerdictsOf(runs, name) != []
    ensures VerdictsOf(ys, name) != []
  {
    VerdictsPermute(ys, runs, name);
    assert |multiset(VerdictsOf(ys, name))| == |multiset(VerdictsOf(runs, name))|;
  }

  /** The verdict the pool keeps for a case is the same for every order of the runs exactly
      when only one of the verdicts given to it has the top rank. */
  lemma VerdictIsOrderFreeIff(runs: seq<seq<CaseResult>>, name: string)
    requires forall q :: 0 <= q < |runs| ==> DistinctNames(runs[q])
    requires VerdictsOf(runs, name) != []
    ensures (forall ys, v, w :: SameSet(ys, runs) && Keeps(ys, name, v) && Keeps(runs, name, w) ==> v == w)
            <==> (forall a, b :: TopRank(VerdictsOf(runs, name), a) && TopRank(VerdictsOf(runs, name), b) ==> a == b)
  {
    var kept := WorstOf(VerdictsOf(runs, name));
    WorstIsRunOrderFreeIff(runs, name);
    KeepsWorst(runs, name, kept);
    forall ys | SameSet(ys, runs) ensures VerdictsOf(ys, name) != []
      ensures forall v :: Keeps(ys, name, v) <==> v == WorstOf(VerdictsOf(ys, name))
    {
      SameSetDistinct(ys, runs);
      SameSetVerdicts(ys, runs, name);
      forall v ensures Keeps(ys, name, v) <==> v == WorstOf(VerdictsOf(ys, name)) {
        KeepsWorst(ys, name, v);
      }
    }
    if ys :| SameSet(ys, runs) && WorstOf(VerdictsOf(ys, name)) != kept {
      assert Keeps(ys, name, WorstOf(VerdictsOf(ys, name)));
    }
    assert forall w :: Keeps(runs, name, w) ==> w == kept by {
      assert SameSet(runs, runs);
    }
  }

  lemma OrderFree(ws: seq<Verdict>, vs: seq<Verdict>)
    requires vs != [] && Permuted(ws, vs)
    requires forall a, b :: TopRank(vs, a) && TopRank(vs, b) ==> a == b
    ensures ws != [] && WorstOf(ws) == WorstOf(vs)
  {
    assert |multiset(ws)| == |ws| && |multiset(vs)| == |vs|;
    WorstIsOrderFreeIff(vs);
  }
}
