/** Re-deriving stored verdicts from their tallies (cmd/catalog-tool/agentgrade.go,
    recomputeAgentGrades). */
module Recompute {
  import opened Verdicts
  import opened Pooling

  datatype Outcome = Outcome(verdict: Verdict, trials: int, failed: int, tally: Tally)

  /** One variant's record, as far as re-derivation goes: its cases and its grade. */
  datatype Record = Record(fails: bool, cases: map<string, Outcome>)

  // ----- What a tally determines ----------------------------------------

  function CanonTally(t: Tally): Tally {
    if BadArgumentsOld !in t then t
    else (t - {BadArgumentsOld})[BadArguments := Get(t, BadArguments) + t[BadArgumentsOld]]
  }

  function FailedIn(t: Tally): int {
    Get(t, Unstructured) + Get(t, UnknownTool) + Get(t, NoCall) + Get(t, Malformed) + Get(t, BadArguments)
  }

  predicate HasFailure(t: Tally) {
    exists k :: k in t && IsFailure(k)
  }

  /** w is the worst class of t; a tally of nothing above the pass rank reads as a pass. */
  ghost predicate TopClass(t: Tally, w: Verdict) {
    && (forall k <- t :: Severity(k) <= Severity(w))
    && (w in t || w == Pass) && (Severity(w) == 0 ==> w == Pass)
  }

  /** Two classes share the top rank: then the walk order of the map decides. */
  predicate Tied(t: Tally) {
    Malformed in t && UnknownTool in t && Error !in t
  }

  lemma CanonIsIdempotent(t: Tally)
    ensures CanonTally(CanonTally(t)) == CanonTally(t)
    ensures t != map[] ==> CanonTally(t) != map[]
  {
    if BadArgumentsOld in t {
      assert BadArguments in CanonTally(t);
    } else if t != map[] {
      var k :| k in t;
    }
  }

  /** The worst class of a tally is unique exactly when no two classes are tied. */
  lemma TopClassUniqueIff(t: Tally)
    ensures (forall a, b :: TopClass(t, a) && TopClass(t, b) ==> a == b) <==> !Tied(t)
  {
    if Tied(t) {
      forall k | k in t ensures Severity(k) <= 5 {
        assert k != Error;
      }
      assert TopClass(t, Malformed) && TopClass(t, UnknownTool) && Malformed != UnknownTool;
    } else {
      forall a, b | TopClass(t, a) && TopClass(t, b) ensures a == b {
        assert Severity(a) == Severity(b);
        SeverityBands(a, b);
      }
    }
  }

  // ----- One case -------------------------------------------------------

  ghost predicate Recounted(c: Outcome, next: Outcome) {
    forall t :: t == CanonTally(c.tally) ==> ReadOff(t, c.trials, next)
  }

  /** Everything in the outcome but the number of trials is read off the tally. */
  ghost predicate ReadOff(t: Tally, trials: int, next: Outcome) {
    next.trials == trials && next.tally == t && next.failed == FailedIn(t) && TopClass(t, next.verdict)
  }

  /** What has been counted once the classes `seen` of t have been walked. */
  function Walked(t: Tally, seen: set<Verdict>): Tally {
    CanonTally(map k | k in t && k in seen :: t[k])
  }

  lemma WalkOne(t: Tally, seen: set<Verdict>, k: Verdict)
    requires k in t && k !in seen
    ensures Walked(t, seen + {k}) ==
            Walked(t, seen)[Canonical(k) := Get(Walked(t, seen), Canonical(k)) + t[k]]
    ensures FailedIn(Walked(t, seen + {k})) == FailedIn(Walked(t, seen)) + if IsFailure(Canonical(k)) then t[k] else 0
  {
    var a, b := Walked(t, seen), Walked(t, seen + {k});
    var c := a[Canonical(k) := Get(a, Canonical(k)) + t[k]];
    assert b.Keys == c.Keys;
    SameCounts(b, c);
  }

  lemma ClassAdded(t: Tally, v: Verdict, n: int, w: Verdict)
    requires TopClass(t, w)
    ensures HasFailure(t[v := n]) <==> HasFailure(t) || IsFailure(v)
    ensures TopClass(t[v := n], if Severity(v) > Severity(w) then v else w)
  {
    if k :| k in t && IsFailure(k) {
      assert k in t[v := n];
    }
    if IsFailure(v) {
      assert v in t[v := n];
    }
  }

  /** Where the walk over one case's classes stands. */
  ghost predicate CaseWalk(t: Tally, seen: set<Verdict>, tally: Tally, failed: int, worst: Verdict, anyFailure: bool) {
    forall w :: w == Walked(t, seen) ==> Derived(w, tally, failed, worst, anyFailure)
  }

  ghost predicate Derived(w: Tally, tally: Tally, failed: int, worst: Verdict, anyFailure: bool) {
    tally == w && failed == FailedIn(w) && anyFailure == HasFailure(w) && TopClass(w, worst)
  }

  lemma CaseWalkStep(t: Tally, seen: set<Verdict>, tally: Tally, failed: int, worst: Verdict, anyFailure: bool,
                     k: Verdict)
    requires CaseWalk(t, seen, tally, failed, worst, anyFailure) && k in t && k !in seen
    ensures var v := Canonical(k);
            CaseWalk(t, seen + {k}, tally[v := Get(tally, v) + t[k]], if IsFailure(v) then failed + t[k] else failed,
                     if Severity(v) > Severity(worst) then v else worst, anyFailure || IsFailure(v))
  {
    assert Derived(Walked(t, seen), tally, failed, worst, anyFailure);
    WalkOne(t, seen, k);
    ClassAdded(tally, Canonical(k), Get(tally, Canonical(k)) + t[k], worst);
  }

  lemma CaseWalkEnds(t: Tally)
    ensures Walked(t, t.Keys) == CanonTally(t)
    ensures CaseWalk(t, {}, map[], 0, Pass, false)
  {
    assert (map k | k in t && k in t.Keys :: t[k]) == t;
    assert Walked(t, {}) == map[] by {
      assert forall k :: k !in Walked(t, {});
    }
  }

  lemma CaseWalkNext(t: Tally, left: set<Verdict>, tally: Tally, failed: int, worst: Verdict, anyFailure: bool,
                     k: Verdict)
    requires CaseWalk(t, t.Keys - left, tally, failed, worst, anyFailure) && k in left && left <= t.Keys
    ensures var v := Canonical(k);
            CaseWalk(t, t.Keys - (left - {k}), tally[v := Get(tally, v) + t[k]],
                     if IsFailure(v) then failed + t[k] else failed,
                     if Severity(v) > Severity(worst) then v else worst, anyFailure || IsFailure(v))
  {
    assert t.Keys - (left - {k}) == (t.Keys - left) + {k};
    CaseWalkStep(t, t.Keys - left, tally, failed, worst, anyFailure, k);
  }

  method RecountCase(c: Outcome) returns (next: Outcome, anyFailure: bool)
    ensures Recounted(c, next) && anyFailure == HasFailure(CanonTally(c.tally))
  {
    var tally: Tally, failed, worst := map[], 0, Pass;
    anyFailure := false;
    CaseWalkEnds(c.tally);
    var left := c.tally.Keys;
    assert c.tally.Keys - left == {};
    while left != {}
      invariant left <= c.tally.Keys
      invariant CaseWalk(c.tally, c.tally.Keys - left, tally, failed, worst, anyFailure)
    {
      var k :| k in left;
      CaseWalkNext(c.tally, left, tally, failed, worst, anyFailure, k);
      var v := Canonical(k);
      tally := tally[v := Get(tally, v) + c.tally[k]];
      failed := if IsFailure(v) then failed + c.tally[k] else failed;
      anyFailure := anyFailure || IsFailure(v);
      worst := if Severity(v) > Severity(worst) then v else worst;
      left := left - {k};
    }
    assert c.tally.Keys - left == c.tally.Keys;
    assert Derived(Walked(c.tally, c.tally.Keys), tally, failed, worst, anyFailure);
    next := Outcome(worst, c.trials, failed, tally);
  }

  // ----- One record -----------------------------------------------------

  /** A case without a tally keeps its recorded verdict, which still counts. */
  ghost predicate CaseFails(c: Outcome) {
    if c.tally == map[] then IsFailure(c.verdict) else HasFailure(CanonTally(c.tally))
  }

  ghost predicate CaseRecounted(c: Outcome, next: Outcome) {
    if c.tally == map[] then next == c else Recounted(c, next)
  }

  ghost predicate SomeCaseFails(cases: map<string, Outcome>) {
    exists n :: n in cases && CaseFails(cases[n])
  }

  ghost predicate RecordRecounted(rec: Record, next: Record) {
    && next.cases.Keys == rec.cases.Keys
    && (forall n <- rec.cases :: CaseRecounted(rec.cases[n], next.cases[n]))
    && (next.fails <==> SomeCaseFails(rec.cases))
  }

  function Untallied(rec: Record): set<string> {
    set n | n in rec.cases && rec.cases[n].tally == map[]
  }

  /** Where the walk over one record's cases stands, `left` still to come. */
  ghost predicate RecordWalk(rec: Record, left: set<string>, w: RecordSoFar) {
    forall seen :: seen == rec.cases.Keys - left ==> WalkedCases(rec, seen, w)
  }

  datatype RecordSoFar = RecordSoFar(cases: map<string, Outcome>, anyFailure: bool, touched: bool, bare: set<string>)

  ghost predicate WalkedCases(rec: Record, seen: set<string>, w: RecordSoFar) {
    && seen <= rec.cases.Keys == w.cases.Keys
    && (forall n <- w.cases :: n !in seen ==> w.cases[n] == rec.cases[n])
    && (forall n <- seen :: CaseRecounted(rec.cases[n], w.cases[n]))
    && (w.anyFailure <==> exists n :: n in seen && CaseFails(rec.cases[n]))
    && (w.touched <==> w.cases != rec.cases)
    && w.bare == set n | n in seen && rec.cases[n].tally == map[]
  }

  function WithCase(w: RecordSoFar, name: string, c: Outcome, out: Outcome, failing: bool): RecordSoFar {
    RecordSoFar(w.cases[name := out], w.anyFailure || failing, w.touched || out != c,
                if c.tally == map[] then w.bare + {name} else w.bare)
  }

  lemma FailsStep(cases: map<string, Outcome>, seen: set<string>, name: string)
    requires seen <= cases.Keys && name in cases
    ensures (exists n :: n in seen + {name} && CaseFails(cases[n])) <==>
            (exists n :: n in seen && CaseFails(cases[n])) || CaseFails(cases[name])
  {
    if n :| n in seen && CaseFails(cases[n]) {
      assert n in seen + {name};
    }
    assert name in seen + {name};
  }

  lemma TouchedStep(was: map<string, Outcome>, cases: map<string, Outcome>, name: string, out: Outcome)
    requires was.Keys == cases.Keys && name in was && cases[name] == was[name]
    ensures cases[name := out] != was <==> cases != was || out != was[name]
  {
    var next := cases[name := out];
    if out != was[name] {
      assert next[name] != was[name];
    } else {
      assert next == cases;
    }
    if cases != was {
      var n :| n in cases && cases[n] != was[n];
      assert next[n] != was[n];
    }
  }

  lemma RecordWalkStep(rec: Record, left: set<string>, w: RecordSoFar, name: string, out: Outcome, failing: bool)
    requires RecordWalk(rec, left, w) && name in left && left <= rec.cases.Keys
    requires CaseRecounted(rec.cases[name], out) && failing == CaseFails(rec.cases[name])
    ensures RecordWalk(rec, left - {name}, WithCase(w, name, rec.cases[name], out, failing))
  {
    var seen := rec.cases.Keys - left;
    assert WalkedCases(rec, seen, w);
    assert rec.cases.Keys - (left - {name}) == seen + {name};
    FailsStep(rec.cases, seen, name);
    TouchedStep(rec.cases, w.cases, name, out);
  }

  lemma RecordWalkEnds(rec: Record, w: RecordSoFar)
    requires RecordWalk(rec, {}, w)
    ensures RecordRecounted(rec, Record(w.anyFailure, w.cases)) && w.bare == Untallied(rec)
    ensures w.touched <==> w.cases != rec.cases
  {
    assert rec.cases.Keys - {} == rec.cases.Keys;
    assert WalkedCases(rec, rec.cases.Keys, w);
  }

  method RecountOrKeep(c: Outcome) returns (out: Outcome, failing: bool)
    ensures CaseRecounted(c, out) && failing == CaseFails(c)
  {
    if c.tally == map[] {
      return c, IsFailure(c.verdict);
    }
    out, failing := RecountCase(c);
  }

  method RecountRecord(rec: Record) returns (next: Record, touched: bool, bare: set<string>)
    ensures RecordRecounted(rec, next)
    ensures touched == (next != rec) && bare == Untallied(rec)
  {
    var w := RecordSoFar(rec.cases, false, false, {});
    var left := rec.cases.Keys;
    while left != {}
      invariant left <= rec.cases.Keys && RecordWalk(rec, left, w)
    {
      var name :| name in left;
      var out, failing := RecountOrKeep(rec.cases[name]);
      RecordWalkStep(rec, left, w, name, out, failing);
      w := WithCase(w, name, rec.cases[name], out, failing);
      left := left - {name};
    }
    RecordWalkEnds(rec, w);
    next, bare := Record(w.anyFailure, w.cases), w.bare;
    touched := w.touched || rec.fails != w.anyFailure;
  }

  // ----- The store ------------------------------------------------------

  /** A variant of a model. */
  type Key = (string, string)

  function Uncounted(recs: map<Key, Record>): set<(Key, string)> {
    set k, n | k in recs && n in recs[k].cases && recs[k].cases[n].tally == map[] :: (k, n)
  }

  function Differing(a: map<Key, Record>, b: map<Key, Record>): set<Key> {
    set k | k in a && k in b && a[k] != b[k]
  }

  ghost predicate StoreRecounted(a: map<Key, Record>, b: map<Key, Record>) {
    b.Keys == a.Keys && forall k <- a :: RecordRecounted(a[k], b[k])
  }

  /** Where the walk over the store stands, `left` still to come. */
  ghost predicate StoreWalk(was: map<Key, Record>, left: set<Key>, recs: map<Key, Record>, touched: set<Key>,
                            bare: set<(Key, string)>)
  {
    forall seen :: seen == was.Keys - left ==> WalkedRecords(was, seen, recs, touched, bare)
  }

  ghost predicate WalkedRecords(was: map<Key, Record>, seen: set<Key>, recs: map<Key, Record>, touched: set<Key>,
                                bare: set<(Key, string)>)
  {
    && recs.Keys == was.Keys
    && (forall k <- was :: if k in seen then RecordRecounted(was[k], recs[k]) else recs[k] == was[k])
    && touched == Differing(was, recs)
    && bare == UncountedIn(was, seen)
  }

  function UncountedIn(recs: map<Key, Record>, seen: set<Key>): set<(Key, string)> {
    set k, n | k in recs && k in seen && n in recs[k].cases && recs[k].cases[n].tally == map[] :: (k, n)
  }

  lemma StoreWalkStep(was: map<Key, Record>, left: set<Key>, recs: map<Key, Record>, touched: set<Key>,
                      bare: set<(Key, string)>, k: Key, next: Record)
    requires StoreWalk(was, left, recs, touched, bare) && k in left && left <= was.Keys
    requires RecordRecounted(was[k], next)
    ensures StoreWalk(was, left - {k}, recs[k := next], if next != was[k] then touched + {k} else touched,
                      bare + set n | n in Untallied(was[k]) :: (k, n))
  {
    var seen := was.Keys - left;
    assert WalkedRecords(was, seen, recs, touched, bare);
    assert was.Keys - (left - {k}) == seen + {k};
    assert UncountedIn(was, seen + {k}) == UncountedIn(was, seen) + set n | n in Untallied(was[k]) :: (k, n);
    assert Differing(was, recs[k := next]) == if next != was[k] then touched + {k} else touched;
  }

  lemma StoreWalkEnds(was: map<Key, Record>, recs: map<Key, Record>, touched: set<Key>, bare: set<(Key, string)>)
    requires StoreWalk(was, {}, recs, touched, bare)
    ensures StoreRecounted(was, recs) && touched == Differing(was, recs) && bare == Uncounted(was)
  {
    assert was.Keys - {} == was.Keys;
    assert WalkedRecords(was, was.Keys, recs, touched, bare);
  }

  class GradeStore {
    var recs: map<Key, Record>

    /** Rewrites every record from its tallies, in whatever order the maps are walked, and
        says how many records changed and how many cases could not be recounted. */
    method Recompute() returns (changed: nat, skipped: nat)
      modifies this
      ensures StoreRecounted(old(recs), recs)
      ensures changed == |Differing(old(recs), recs)|
      ensures skipped == |Uncounted(old(recs))|
    {
      var was := recs;
      var left, touched: set<Key>, bare: set<(Key, string)> := recs.Keys, {}, {};
      while left != {}
        invariant left <= was.Keys && StoreWalk(was, left, recs, touched, bare)
      {
        var k :| k in left;
        var next, changes, skips := RecountRecord(was[k]);
        StoreWalkStep(was, left, recs, touched, bare, k, next);
        bare := bare + set n | n in skips :: (k, n);
        touched := if changes then touched + {k} else touched;
        recs := recs[k := next];
        left := left - {k};
      }
      StoreWalkEnds(was, recs, touched, bare);
      changed, skipped := |touched|, |bare|;
    }
  }
}
