/** How pooling and re-derivation agree, and when re-deriving twice is the same as once. */
module Rederive {
  import opened Verdicts
  import opened Pooling
  import opened Recompute

  // ----- Some recount always exists -------------------------------------

  lemma {:induction false} SomeTopClass(t: Tally) returns (w: Verdict)
    ensures TopClass(t, w)
    decreases |t|
  {
    if t == map[] {
      return Pass;
    }
    var k :| k in t;
    var rest := t - {k};
    assert |rest| < |t| by { assert rest.Keys == t.Keys - {k}; }
    w := SomeTopClass(rest);
    ClassAdded(rest, k, t[k], w);
    assert rest[k := t[k]] == t;
    w := if Severity(k) > Severity(w) then k else w;
  }

  ghost function Recounting(c: Outcome, w: Verdict): Outcome {
    var t := CanonTally(c.tally);
    Outcome(w, c.trials, FailedIn(t), t)
  }

  lemma RecountingIs(c: Outcome, next: Outcome)
    ensures Recounted(c, next) <==> next == Recounting(c, next.verdict) && TopClass(CanonTally(c.tally), next.verdict)
  {
    assert Recounted(c, next) ==> ReadOff(CanonTally(c.tally), c.trials, next);
  }

  // ----- One case -------------------------------------------------------

  lemma {:induction false} RecountTwice(c: Outcome, a: Outcome, b: Outcome)
    requires Recounted(c, a) && Recounted(a, b)
    ensures Recounted(c, b) && (!Tied(CanonTally(c.tally)) ==> a == b)
  {
    RecountingIs(c, a);
    RecountingIs(a, b);
    CanonIsIdempotent(c.tally);
    RecountingIs(c, b);
    TopClassUniqueIff(CanonTally(c.tally));
  }

  /** A tied case can be recounted to either class, and to the other one after that. */
  lemma TiedRecounts(c: Outcome)
    requires Tied(CanonTally(c.tally))
    ensures var a, b := Recounting(c, Malformed), Recounting(c, UnknownTool);
            Recounted(c, a) && Recounted(a, b) && a != b
  {
    var t := CanonTally(c.tally);
    assert forall k <- t :: Severity(k) <= 5;
    CanonIsIdempotent(c.tally);
    RecountingIs(c, Recounting(c, Malformed));
    RecountingIs(Recounting(c, Malformed), Recounting(c, UnknownTool));
  }

  // ----- One record -----------------------------------------------------

  ghost predicate TiedCase(c: Outcome) {
    c.tally != map[] && Tied(CanonTally(c.tally))
  }

  ghost predicate NoTies(rec: Record) {
    forall n <- rec.cases :: !TiedCase(rec.cases[n])
  }

  lemma CaseTwice(c: Outcome, a: Outcome, b: Outcome)
    requires CaseRecounted(c, a) && CaseRecounted(a, b)
    ensures CaseFails(a) <==> CaseFails(c)
    ensures !TiedCase(c) ==> a == b
  {
    if c.tally != map[] {
      RecountingIs(c, a);
      CanonIsIdempotent(c.tally);
      RecountTwice(c, a, b);
    }
  }

  /** Recounting a record twice, in any walk orders, is recounting it once. */
  lemma RecordTwice(rec: Record, a: Record, b: Record)
    requires RecordRecounted(rec, a) && RecordRecounted(a, b) && NoTies(rec)
    ensures a == b
  {
    forall n | n in rec.cases ensures a.cases[n] == b.cases[n] && (CaseFails(a.cases[n]) <==> CaseFails(rec.cases[n])) {
      CaseTwice(rec.cases[n], a.cases[n], b.cases[n]);
    }
    assert a.cases == b.cases;
    if n :| n in rec.cases && CaseFails(rec.cases[n]) {
      assert n in a.cases && CaseFails(a.cases[n]);
    }
    if n :| n in a.cases && CaseFails(a.cases[n]) {
      assert n in rec.cases && CaseFails(rec.cases[n]);
    }
  }

  lemma SomeRecount(c: Outcome) returns (next: Outcome)
    ensures CaseRecounted(c, next)
  {
    if c.tally == map[] {
      return c;
    }
    var w := SomeTopClass(CanonTally(c.tally));
    next := Recounting(c, w);
    RecountingIs(c, next);
  }

  /** Some recount of a record, with a chosen outcome for one case. */
  lemma SomeRecordWith(rec: Record, n: string, out: Outcome) returns (next: Record)
    requires n in rec.cases && CaseRecounted(rec.cases[n], out)
    ensures RecordRecounted(rec, next) && next.cases[n] == out
  {
    forall m | m in rec.cases ensures exists o :: CaseRecounted(rec.cases[m], o) {
      var o := SomeRecount(rec.cases[m]);
    }
    var cases := map m | m in rec.cases :: if m == n then out else var o :| CaseRecounted(rec.cases[m], o); o;
    next := Record(SomeCaseFails(rec.cases), cases);
  }

  /** Recounting is idempotent for every walk order exactly when no case has both a
      malformed call and an unknown tool as its worst classes. */
  lemma IdempotentIff(rec: Record)
    ensures (forall a, b :: RecordRecounted(rec, a) && RecordRecounted(a, b) ==> a == b) <==> NoTies(rec)
  {
    if NoTies(rec) {
      forall a, b | RecordRecounted(rec, a) && RecordRecounted(a, b) ensures a == b {
        RecordTwice(rec, a, b);
      }
    } else {
      var n :| n in rec.cases && TiedCase(rec.cases[n]);
      var c := rec.cases[n];
      TiedRecounts(c);
      CanonIsIdempotent(c.tally);
      var a := SomeRecordWith(rec, n, Recounting(c, Malformed));
      var b := SomeRecordWith(a, n, Recounting(c, UnknownTool));
    }
  }

  lemma StoreTwice(s: map<Key, Record>, a: map<Key, Record>, b: map<Key, Record>)
    requires StoreRecounted(s, a) && StoreRecounted(a, b)
    requires forall k <- s :: NoTies(s[k])
    ensures a == b
  {
    forall k | k in s ensures a[k] == b[k] {
      RecordTwice(s[k], a[k], b[k]);
    }
  }

  lemma SomeRecord(rec: Record) returns (next: Record)
    ensures RecordRecounted(rec, next)
  {
    if rec.cases == map[] {
      next := Record(SomeCaseFails(rec.cases), map[]);
    } else {
      var n :| n in rec.cases;
      var out := SomeRecount(rec.cases[n]);
      next := SomeRecordWith(rec, n, out);
    }
  }

  /** Some recount of a store, with a chosen outcome for one record. */
  lemma SomeStoreWith(s: map<Key, Record>, k: Key, rec: Record) returns (next: map<Key, Record>)
    requires k in s && RecordRecounted(s[k], rec)
    ensures StoreRecounted(s, next) && next[k] == rec
  {
    forall m | m in s ensures exists r :: RecordRecounted(s[m], r) {
      var r := SomeRecord(s[m]);
    }
    next := map m | m in s :: if m == k then rec else var r :| RecordRecounted(s[m], r); r;
  }

  /** Re-deriving a whole store is idempotent for every walk order exactly when no case of
      any record is tied. */
  lemma StoreIdempotentIff(s: map<Key, Record>)
    ensures (forall a, b :: StoreRecounted(s, a) && StoreRecounted(a, b) ==> a == b) <==> forall k <- s :: NoTies(s[k])
  {
    if forall k <- s :: NoTies(s[k]) {
      forall a, b | StoreRecounted(s, a) && StoreRecounted(a, b) ensures a == b {
        StoreTwice(s, a, b);
      }
    } else {
      var k :| k in s && !NoTies(s[k]);
      IdempotentIff(s[k]);
      var ra, rb :| RecordRecounted(s[k], ra) && RecordRecounted(ra, rb) && ra != rb;
      var a := SomeStoreWith(s, k, ra);
      var b := SomeStoreWith(a, k, rb);
    }
  }

  // ----- Pooled records -------------------------------------------------

  /** What a run reports about a case it counted: nothing its tally does not say. */
  ghost predicate Consistent(c: CaseResult) {
    c.tally != map[] ==>
      BadArgumentsOld !in c.tally && c.failed == FailedIn(c.tally) && TopClass(c.tally, c.verdict)
  }

  ghost predicate AllConsistent(cs: seq<CaseResult>) {
    forall i :: 0 <= i < |cs| ==> Consistent(cs[i])
  }

  lemma MergeConsistent(c: CaseResult, rc: CaseResult)
    requires Consistent(c) && Consistent(rc)
    ensures Consistent(Merge(c, rc))
  {
  }

  lemma {:induction false} FoldConsistent(acc: seq<CaseResult>, rc: CaseResult)
    requires AllConsistent(acc) && Consistent(rc)
    ensures AllConsistent(Fold(acc, rc))
  {
    if acc != [] {
      MergeConsistent(acc[0], rc);
      FoldConsistent(acc[1..], rc);
    }
  }

  lemma {:induction false} FoldAllConsistent(acc: seq<CaseResult>, rs: seq<CaseResult>)
    requires AllConsistent(acc) && AllConsistent(rs)
    ensures AllConsistent(FoldAll(acc, rs))
  {
    if rs != [] {
      FoldAllConsistent(acc, rs[..|rs| - 1]);
      FoldConsistent(FoldAll(acc, rs[..|rs| - 1]), rs[|rs| - 1]);
    }
  }

  /** Pooling keeps tallies and what is derived from them in step. */
  lemma {:induction false} PoolConsistent(runs: seq<seq<CaseResult>>)
    requires runs != [] && forall q :: 0 <= q < |runs| ==> AllConsistent(runs[q])
    ensures AllConsistent(PoolCases(runs))
  {
    if |runs| > 1 {
      PoolConsistent(runs[..|runs| - 1]);
      FoldAllConsistent(PoolCases(runs[..|runs| - 1]), runs[|runs| - 1]);
    }
  }

  function OutcomeOf(c: CaseResult): Outcome {
    Outcome(c.verdict, c.trials, c.failed, c.tally)
  }

  /** The cases as the import files them, by name. */
  function StoredCases(cs: seq<CaseResult>): map<string, Outcome> {
    if cs == [] then map[] else StoredCases(cs[..|cs| - 1])[cs[|cs| - 1].name := OutcomeOf(cs[|cs| - 1])]
  }

  ghost function Stored(cs: seq<CaseResult>): Record {
    Record(Fails(cs), StoredCases(cs))
  }

  lemma {:induction false} StoredAt(cs: seq<CaseResult>)
    requires DistinctNames(cs)
    ensures forall i :: 0 <= i < |cs| ==>
              cs[i].name in StoredCases(cs) && StoredCases(cs)[cs[i].name] == OutcomeOf(cs[i])
    ensures forall n <- StoredCases(cs) :: exists i :: 0 <= i < |cs| && cs[i].name == n
  {
    if cs != [] {
      var init := cs[..|cs| - 1];
      StoredAt(init);
      assert forall i :: 0 <= i < |init| ==> init[i] == cs[i];
      forall n | n in StoredCases(cs) ensures exists i :: 0 <= i < |cs| && cs[i].name == n {
        if n in StoredCases(init) {
          var i :| 0 <= i < |init| && init[i].name == n;
          assert cs[i].name == n;
        } else {
          assert cs[|cs| - 1].name == n;
        }
      }
    }
  }

  /** An errored trial that outranks a failing one of the same case. */
  ghost predicate MaskedFailure(c: CaseResult) {
    Error in c.tally && HasFailure(c.tally)
  }

  lemma FailsOrMasked(c: CaseResult)
    requires Consistent(c)
    ensures CaseFails(OutcomeOf(c)) <==> IsFailure(c.verdict) || MaskedFailure(c)
  {
    if c.tally != map[] {
      SeverityBands(c.verdict, Pass);
      if k :| k in c.tally && IsFailure(k) {
        SeverityBands(k, Pass);
      }
    }
  }

  /** The re-derived grade of a consistent record: failing as pooled, or failing behind
      an error. */
  lemma RederivedGrade(cs: seq<CaseResult>)
    requires DistinctNames(cs) && AllConsistent(cs)
    ensures SomeCaseFails(StoredCases(cs)) <==> Fails(cs) || exists i :: 0 <= i < |cs| && MaskedFailure(cs[i])
  {
    StoredAt(cs);
    if i :| 0 <= i < |cs| && (IsFailure(cs[i].verdict) || MaskedFailure(cs[i])) {
      FailsOrMasked(cs[i]);
      assert CaseFails(StoredCases(cs)[cs[i].name]);
    }
    if n :| n in StoredCases(cs) && CaseFails(StoredCases(cs)[n]) {
      var i :| 0 <= i < |cs| && cs[i].name == n;
      FailsOrMasked(cs[i]);
    }
  }

  lemma ConsistentIsRecounted(c: CaseResult)
    requires Consistent(c)
    ensures CaseRecounted(OutcomeOf(c), OutcomeOf(c))
    ensures CanonTally(c.tally) == c.tally || c.tally == map[]
  {
    if c.tally != map[] {
      RecountingIs(OutcomeOf(c), OutcomeOf(c));
    }
  }

  /** Every walk order re-derives the record as it stands. */
  ghost predicate Stable(rec: Record) {
    forall next :: RecordRecounted(rec, next) ==> next == rec
  }

  ghost predicate SettledCases(cs: seq<CaseResult>) {
    && (forall i :: 0 <= i < |cs| ==> !Tied(cs[i].tally))
    && (Fails(cs) || forall i :: 0 <= i < |cs| ==> !MaskedFailure(cs[i]))
  }

  lemma SelfRecount(cs: seq<CaseResult>)
    requires DistinctNames(cs) && AllConsistent(cs)
    ensures RecordRecounted(Stored(cs), Record(SomeCaseFails(StoredCases(cs)), StoredCases(cs)))
  {
    StoredAt(cs);
    forall n | n in StoredCases(cs) ensures CaseRecounted(StoredCases(cs)[n], StoredCases(cs)[n]) {
      var i :| 0 <= i < |cs| && cs[i].name == n;
      ConsistentIsRecounted(cs[i]);
    }
  }

  lemma SettledIsStable(cs: seq<CaseResult>, next: Record)
    requires DistinctNames(cs) && AllConsistent(cs) && SettledCases(cs)
    requires RecordRecounted(Stored(cs), next)
    ensures next == Stored(cs)
  {
    StoredAt(cs);
    RederivedGrade(cs);
    forall n | n in StoredCases(cs) ensures next.cases[n] == StoredCases(cs)[n] {
      var i :| 0 <= i < |cs| && cs[i].name == n;
      ConsistentIsRecounted(cs[i]);
      CaseTwice(OutcomeOf(cs[i]), OutcomeOf(cs[i]), next.cases[n]);
    }
    assert next.cases == StoredCases(cs);
  }

  lemma TieIsUnstable(cs: seq<CaseResult>, i: nat)
    requires DistinctNames(cs) && AllConsistent(cs) && i < |cs| && Tied(cs[i].tally)
    ensures !Stable(Stored(cs))
  {
    StoredAt(cs);
    var c, n := OutcomeOf(cs[i]), cs[i].name;
    ConsistentIsRecounted(cs[i]);
    TiedRecounts(c);
    var other := Recounting(c, if c.verdict == Malformed then UnknownTool else Malformed);
    RecountTwice(c, Recounting(c, Malformed), Recounting(c, UnknownTool));
    var next := SomeRecordWith(Stored(cs), n, other);
    assert next.cases[n] != c;
  }

  /** A pooled record whose runs report what their tallies say is its own re-derivation,
      whatever the walk order, exactly when no case is tied and no failing class is hidden
      behind an error in a record graded as passing. Runs with an errored trial are not
      imported, which leaves the ties. */
  lemma PooledIsStableIff(runs: seq<seq<CaseResult>>)
    requires runs != [] && DistinctNames(runs[0])
    requires forall q :: 0 <= q < |runs| ==> AllConsistent(runs[q])
    ensures Stable(Stored(PoolCases(runs))) <==> SettledCases(PoolCases(runs))
  {
    var cs := PoolCases(runs);
    PoolNames(runs);
    PoolConsistent(runs);
    StableIff(cs);
  }

  lemma StableIff(cs: seq<CaseResult>)
    requires DistinctNames(cs) && AllConsistent(cs)
    ensures Stable(Stored(cs)) <==> SettledCases(cs)
  {
    if SettledCases(cs) {
      forall next | RecordRecounted(Stored(cs), next) ensures next == Stored(cs) {
        SettledIsStable(cs, next);
      }
    } else if i :| 0 <= i < |cs| && Tied(cs[i].tally) {
      TieIsUnstable(cs, i);
    } else {
      SelfRecount(cs);
      RederivedGrade(cs);
    }
  }
}
