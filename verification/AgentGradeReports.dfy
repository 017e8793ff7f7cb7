/** Pooling on the reports themselves (pool in cmd/catalog-tool/agentgrade.go), where a
    case's class counts are a map held by reference and may be shared. */
module PoolReports {
  import opened Verdicts
  import opened Pooling

  class TallyMap {
    var counts: Tally

    constructor (c: Tally)
      ensures counts == c
    {
      counts := c;
    }
  }

  datatype Case = Case(name: string, verdict: Verdict, trials: int, failed: int, tally: TallyMap?)

  datatype Report = Report(model: string, fixture: string, agent: string, trials: int, results: seq<Case>)

  datatype Pooled = Pooled(trials: int, results: seq<Case>, fails: bool) | Mismatch

  // ----- Views ----------------------------------------------------------

  function Counts(m: TallyMap?): Tally
    reads m
  {
    if m == null then map[] else m.counts
  }

  function View(c: Case): CaseResult
    reads c.tally
  {
    CaseResult(c.name, c.verdict, c.trials, c.failed, Counts(c.tally))
  }

  ghost function Views(cs: seq<Case>): (vs: seq<CaseResult>)
    reads set c | c in cs :: c.tally
    ensures |vs| == |cs| && forall i :: 0 <= i < |cs| ==> vs[i] == View(cs[i])
  {
    seq(|cs|, i requires 0 <= i < |cs| reads set c | c in cs :: c.tally => View(cs[i]))
  }

  ghost function Maps(cs: seq<Case>): set<TallyMap> {
    set c | c in cs && c.tally != null :: c.tally
  }

  /** The cases of the reports after the first, up to report k, in order. */
  ghost function Later(reps: seq<Report>, k: nat): seq<Case>
    requires k <= |reps|
  {
    if k <= 1 then [] else Later(reps, k - 1) + reps[k - 1].results
  }

  /** Every report is parsed on its own, so no two cases start out sharing a map. */
  ghost predicate Unshared(cs: seq<Case>) {
    forall i, j :: 0 <= i < j < |cs| && cs[i].tally != null ==> cs[i].tally != cs[j].tally
  }

  // ----- What becomes of one case's map ---------------------------------

  /** The map a name's first later case brought with it: still the pooled one (Live), or
      dropped from the pool when an uncounted run was folded in (Dropped). */
  datatype Track = NotSeen | Live(origin: nat, t: Tally) | Dropped(origin: nat, t: Tally)

  ghost function TrackOf(cs: seq<CaseResult>, name: string): (r: Track)
    ensures !r.NotSeen? ==> r.origin < |cs| && cs[r.origin].name == name
    ensures r.NotSeen? <==> forall i :: 0 <= i < |cs| ==> cs[i].name != name
  {
    if cs == [] then NotSeen
    else
      var prev, c := TrackOf(cs[..|cs| - 1], name), cs[|cs| - 1];
      if c.name != name then prev
      else match prev
           case NotSeen => Live(|cs| - 1, c.tally)
           case Live(o, t) => if t != map[] && c.tally != map[] then Live(o, Add(t, c.tally)) else Dropped(o, t)
           case Dropped(_, _) => prev
  }

  ghost predicate Named(cs: seq<CaseResult>, name: string) {
    exists i :: 0 <= i < |cs| && cs[i].name == name
  }

  /** What the map of later case o holds once `later` has been folded after `first`. */
  ghost function After(first: seq<CaseResult>, later: seq<CaseResult>, o: nat): Tally
    requires o < |later|
  {
    var tr := TrackOf(later, later[o].name);
    if !Named(first, later[o].name) && !tr.NotSeen? && tr.origin == o then tr.t else later[o].tally
  }

  // ----- One case -------------------------------------------------------

  function IndexOf(cs: seq<Case>, name: string): (i: nat)
    ensures i <= |cs|
    ensures i < |cs| ==> cs[i].name == name
    ensures forall j :: 0 <= j < i ==> cs[j].name != name
  {
    if cs == [] then 0 else if cs[0].name == name then 0 else 1 + IndexOf(cs[1..], name)
  }

  ghost predicate BothCounted(a: CaseResult, b: CaseResult) {
    a.tally != map[] && b.tally != map[]
  }

  /** Count by count, in whatever order the map is walked. */
  method AddInto(dst: TallyMap, src: TallyMap)
    requires dst != src
    modifies dst
    ensures dst.counts == Add(old(dst.counts), src.counts)
  {
    ghost var was := dst.counts;
    var left := src.counts.Keys;
    while left != {}
      invariant left <= src.counts.Keys && src.counts == old(src.counts)
      invariant dst.counts.Keys == was.Keys + (src.counts.Keys - left)
      invariant forall k :: Get(dst.counts, k) == Get(was, k) + if k in left then 0 else Get(src.counts, k)
    {
      var v :| v in left;
      dst.counts := dst.counts[v := Get(dst.counts, v) + src.counts[v]];
      left := left - {v};
    }
    SameCounts(dst.counts, Add(was, src.counts));
  }

  method MergeCase(c: Case, rc: Case) returns (m: Case)
    requires c.tally != null ==> c.tally != rc.tally
    modifies c.tally
    ensures View(m) == Merge(old(View(c)), old(View(rc)))
    ensures BothCounted(old(View(c)), old(View(rc))) ==>
              m.tally == c.tally && Counts(c.tally) == Add(old(Counts(c.tally)), old(Counts(rc.tally)))
    ensures !BothCounted(old(View(c)), old(View(rc))) ==>
              m.tally == null && Counts(c.tally) == old(Counts(c.tally))
  {
    var kept: TallyMap? := null;
    if c.tally != null && c.tally.counts != map[] && rc.tally != null && rc.tally.counts != map[] {
      AddInto(c.tally, rc.tally);
      kept := c.tally;
    }
    m := Case(c.name, Worse(c.verdict, rc.verdict), c.trials + rc.trials, c.failed + rc.failed, kept);
  }

  /** Where a folded case goes, and what it does to the maps already pooled. */
  ghost predicate Folded(acc: seq<Case>, was: seq<CaseResult>, rc: Case, rv: CaseResult, r: seq<Case>,
                         now: seq<CaseResult>)
    requires |was| == |now| == |acc|
  {
    var i := IndexOf(acc, rc.name);
    if i == |acc| then r == acc + [rc] && now == was
    else
      && |r| == |acc| && r == acc[i := r[i]] && r[i].name == rc.name
      && r[i].tally == (if BothCounted(was[i], rv) then acc[i].tally else null)
      && now[i].tally == (if BothCounted(was[i], rv) then Add(was[i].tally, rv.tally) else was[i].tally)
      && (forall j :: 0 <= j < |acc| && j != i ==> now[j] == was[j])
  }

  method FoldCase(acc: seq<Case>, rc: Case) returns (r: seq<Case>)
    requires Unshared(acc) && (rc.tally != null ==> rc.tally !in Maps(acc))
    modifies Maps(acc)
    ensures Folded(acc, old(Views(acc)), rc, old(View(rc)), r, Views(acc))
    ensures Views(r) == Fold(old(Views(acc)), old(View(rc)))
  {
    var i := IndexOf(acc, rc.name);
    ghost var was, rv := Views(acc), View(rc);
    FoldAt(was, rv, i);
    if i == |acc| {
      r := acc + [rc];
    } else {
      assert acc[i].tally != null ==> acc[i].tally in Maps(acc);
      var m := MergeCase(acc[i], rc);
      assert forall j :: 0 <= j < |acc| && j != i ==> View(acc[j]) == was[j];
      r := acc[i := m];
    }
    assert Views(r) == Fold(was, rv);
  }

  // ----- Every case -----------------------------------------------------

  /** After the cases `done` (first holding `dv`, now holding `now`): the pool's entries
      keep the first report's names in place, every further entry is a later name's own
      entry, on that name's first map or on none, and the maps are as tracked. */
  ghost predicate Tracks(first: seq<CaseResult>, done: seq<Case>, dv: seq<CaseResult>,
                         now: seq<CaseResult>, acc: seq<Case>)
  {
    && |dv| == |now| && (forall o :: 0 <= o < |dv| ==> now[o].tally == After(first, dv, o))
    && Shape(first, done, dv, acc)
  }

  ghost predicate Shape(first: seq<CaseResult>, done: seq<Case>, dv: seq<CaseResult>, acc: seq<Case>) {
    && |done| == |dv| && |first| <= |acc|
    && (forall o :: 0 <= o < |done| ==> done[o].name == dv[o].name && NameIn(acc, dv[o].name))
    && (forall i :: 0 <= i < |first| ==> acc[i].name == first[i].name && acc[i].tally !in Maps(done))
    && (forall i :: |first| <= i < |acc| ==> EntryTracks(first, done, dv, acc[i]))
    && (forall i, j :: 0 <= i < j < |acc| && |first| <= j ==> acc[i].name != acc[j].name)
  }

  ghost predicate NameIn(acc: seq<Case>, name: string) {
    exists i :: 0 <= i < |acc| && acc[i].name == name
  }

  ghost predicate EntryTracks(first: seq<CaseResult>, done: seq<Case>, dv: seq<CaseResult>, e: Case)
    requires |done| == |dv|
  {
    var tr := TrackOf(dv, e.name);
    && !Named(first, e.name) && !tr.NotSeen?
    && e.tally == if tr.Live? then done[tr.origin].tally else null
  }

  lemma TrackSnoc(dv: seq<CaseResult>, rv: CaseResult, name: string)
    ensures rv.name != name ==> TrackOf(dv + [rv], name) == TrackOf(dv, name)
    ensures rv.name == name ==>
      TrackOf(dv + [rv], name) == match TrackOf(dv, name)
                                  case NotSeen => Live(|dv|, rv.tally)
                                  case Live(o, t) => if t != map[] && rv.tally != map[]
                                      then Live(o, Add(t, rv.tally)) else Dropped(o, t)
                                  case Dropped(o, t) => Dropped(o, t)
  {
    assert (dv + [rv])[..|dv|] == dv;
  }

  /** Views of the same maps, through the pool's entries and through the done cases,
      before (was, now) and after (then, next) one case is folded in. */
  ghost predicate Linked(done: seq<Case>, acc: seq<Case>, was: seq<CaseResult>, then': seq<CaseResult>,
                         now: seq<CaseResult>, next: seq<CaseResult>)
  {
    && |acc| == |was| == |then'| && |done| == |now| == |next|
    && (forall i, o :: 0 <= i < |acc| && 0 <= o < |done| && acc[i].tally == done[o].tally ==>
          was[i].tally == now[o].tally && then'[i].tally == next[o].tally)
    && (forall o :: 0 <= o < |done| && (forall i :: 0 <= i < |acc| ==> acc[i].tally != done[o].tally) ==>
          next[o].tally == now[o].tally)
    && (forall i :: 0 <= i < |acc| && acc[i].tally == null ==> was[i].tally == map[])
    && (forall o :: 0 <= o < |done| && done[o].tally == null ==> now[o].tally == next[o].tally == map[])
  }

  /** A done case's map is in the pool only through the entry that tracks it. */
  lemma Owner(first: seq<CaseResult>, done: seq<Case>, dv: seq<CaseResult>, now: seq<CaseResult>,
              acc: seq<Case>, i: nat, o: nat)
    requires Tracks(first, done, dv, now, acc) && Unshared(done) && i < |acc| && o < |done|
    requires done[o].tally != null && acc[i].tally == done[o].tally
    ensures |first| <= i && acc[i].name == done[o].name && TrackOf(dv, done[o].name).Live?
    ensures TrackOf(dv, done[o].name).origin == o
  {
    assert done[o] in done;
    assert done[o].tally in Maps(done);
    assert |first| <= i;
    assert EntryTracks(first, done, dv, acc[i]);
    var tr := TrackOf(dv, acc[i].name);
    assert done[tr.origin].tally == done[o].tally;
  }

  /** The map is in the pool, through entry k. */
  lemma HeldMapAfter(first: seq<CaseResult>, done: seq<Case>, dv: seq<CaseResult>, now: seq<CaseResult>, acc: seq<Case>,
                     was: seq<CaseResult>, rc: Case, rv: CaseResult, r: seq<Case>, then': seq<CaseResult>,
                     next: seq<CaseResult>, o: nat, k: nat)
    requires Tracks(first, done, dv, now, acc) && Unshared(done) && Linked(done, acc, was, then', now, next)
    requires Folded(acc, was, rc, rv, r, then') && rc.name == rv.name && o < |done|
    requires k < |acc| && acc[k].tally == done[o].tally != null
    ensures next[o].tally == After(first, dv + [rv], o)
  {
    var name := dv[o].name;
    Owner(first, done, dv, now, acc, k, o);
    assert !Named(first, name) by { assert EntryTracks(first, done, dv, acc[k]); }
    TrackSnoc(dv, rv, name);
    assert (dv + [rv])[o] == dv[o];
    assert then'[k].tally == next[o].tally && was[k].tally == now[o].tally == TrackOf(dv, name).t;
    assert name == rv.name ==> IndexOf(acc, rc.name) == k;
  }

  /** The map is not in the pool, so nothing can change it. */
  lemma LooseMapAfter(first: seq<CaseResult>, done: seq<Case>, dv: seq<CaseResult>, now: seq<CaseResult>,
                      acc: seq<Case>,
                      rv: CaseResult, o: nat)
    requires Tracks(first, done, dv, now, acc) && Unshared(done) && o < |done|
    requires done[o].tally == null ==> now[o].tally == map[]
    requires done[o].tally == null || forall k :: 0 <= k < |acc| ==> acc[k].tally != done[o].tally
    ensures now[o].tally == After(first, dv + [rv], o)
  {
    var name := dv[o].name;
    TrackSnoc(dv, rv, name);
    assert (dv + [rv])[o] == dv[o];
    if name == rv.name && !Named(first, name) && TrackOf(dv, name).origin == o {
      var k :| 0 <= k < |acc| && acc[k].name == name;
      assert |first| <= k;
      assert EntryTracks(first, done, dv, acc[k]);
    }
  }

  lemma StepMaps(first: seq<CaseResult>, done: seq<Case>, dv: seq<CaseResult>, now: seq<CaseResult>, acc: seq<Case>,
                 was: seq<CaseResult>, rc: Case, rv: CaseResult, r: seq<Case>, then': seq<CaseResult>,
                 next: seq<CaseResult>, o: nat)
    requires Tracks(first, done, dv, now, acc) && Unshared(done) && Linked(done, acc, was, then', now, next)
    requires Folded(acc, was, rc, rv, r, then') && rc.name == rv.name && o <= |done|
    ensures (next + [rv])[o].tally == After(first, dv + [rv], o)
  {
    if o == |done| {
      TrackSnoc(dv, rv, rv.name);
    } else if k :| 0 <= k < |acc| && acc[k].tally == done[o].tally && done[o].tally != null {
      HeldMapAfter(first, done, dv, now, acc, was, rc, rv, r, then', next, o, k);
    } else {
      LooseMapAfter(first, done, dv, now, acc, rv, o);
    }
  }

  lemma StepEntry(first: seq<CaseResult>, done: seq<Case>, dv: seq<CaseResult>, now: seq<CaseResult>, acc: seq<Case>,
                  was: seq<CaseResult>, rc: Case, rv: CaseResult, r: seq<Case>, then': seq<CaseResult>,
                  next: seq<CaseResult>, i: nat)
    requires Tracks(first, done, dv, now, acc) && Linked(done, acc, was, then', now, next)
    requires Folded(acc, was, rc, rv, r, then') && rc.name == rv.name
    requires |first| <= i < |r|
    ensures EntryTracks(first, done + [rc], dv + [rv], r[i])
  {
    TrackSnoc(dv, rv, r[i].name);
    if i < |acc| {
      assert EntryTracks(first, done, dv, acc[i]);
      assert acc[i].name == rc.name ==> IndexOf(acc, rc.name) == i;
    } else {
      assert !Named(first, rc.name) by { assert forall j :: 0 <= j < |first| ==> first[j].name == acc[j].name; }
      assert TrackOf(dv, rc.name).NotSeen?;
    }
  }

  lemma StepNames(first: seq<CaseResult>, done: seq<Case>, dv: seq<CaseResult>, acc: seq<Case>,
                  was: seq<CaseResult>, rc: Case, rv: CaseResult, r: seq<Case>, then': seq<CaseResult>)
    requires Shape(first, done, dv, acc) && |acc| == |was| == |then'|
    requires Folded(acc, was, rc, rv, r, then') && rc.name == rv.name
    ensures |acc| <= |r| && forall i :: 0 <= i < |acc| ==> r[i].name == acc[i].name
    ensures forall o :: 0 <= o <= |done| ==> NameIn(r, (dv + [rv])[o].name)
    ensures forall i, j :: 0 <= i < j < |r| && |first| <= j ==> r[i].name != r[j].name
  {
    assert NameIn(r, rv.name) by { assert r[IndexOf(acc, rc.name)].name == rv.name; }
    forall o | 0 <= o < |done| ensures NameIn(r, (dv + [rv])[o].name) {
      var i :| 0 <= i < |acc| && acc[i].name == dv[o].name;
      assert r[i].name == acc[i].name;
    }
  }

  /** Folding in one more case keeps the tracking. */
  lemma StepTracks(first: seq<CaseResult>, done: seq<Case>, dv: seq<CaseResult>, now: seq<CaseResult>, acc: seq<Case>,
                   was: seq<CaseResult>, rc: Case, rv: CaseResult, r: seq<Case>, then': seq<CaseResult>,
                   next: seq<CaseResult>)
    requires Tracks(first, done, dv, now, acc) && Unshared(done) && Linked(done, acc, was, then', now, next)
    requires Folded(acc, was, rc, rv, r, then') && rc.name == rv.name
    requires forall i :: 0 <= i < |first| ==> acc[i].tally == null || acc[i].tally != rc.tally
    ensures Tracks(first, done + [rc], dv + [rv], next + [rv], r)
  {
    forall o | 0 <= o <= |done| ensures (next + [rv])[o].tally == After(first, dv + [rv], o) {
      StepMaps(first, done, dv, now, acc, was, rc, rv, r, then', next, o);
    }
    forall i | |first| <= i < |r| ensures EntryTracks(first, done + [rc], dv + [rv], r[i]) {
      StepEntry(first, done, dv, now, acc, was, rc, rv, r, then', next, i);
    }
    StepNames(first, done, dv, acc, was, rc, rv, r, then');
    StepFirst(first, done, acc, was, rc, rv, r, then');
  }

  lemma StepFirst(first: seq<CaseResult>, done: seq<Case>, acc: seq<Case>,
                  was: seq<CaseResult>, rc: Case, rv: CaseResult, r: seq<Case>, then': seq<CaseResult>)
    requires |first| <= |acc| == |was| == |then'| && Folded(acc, was, rc, rv, r, then')
    requires forall i :: 0 <= i < |first| ==> acc[i].tally !in Maps(done)
    requires forall i :: 0 <= i < |first| ==> acc[i].tally == null || acc[i].tally != rc.tally
    ensures |first| <= |r| && forall i :: 0 <= i < |first| ==> r[i].tally !in Maps(done + [rc])
  {
    assert forall i :: 0 <= i < |first| ==> r[i].tally == acc[i].tally || r[i].tally == null;
    assert forall m <- Maps(done + [rc]) :: m in Maps(done) || m == rc.tally;
  }

  // ----- The loops ------------------------------------------------------

  /** The pool after the cases `done`, which held `dv` to begin with and hold `now`. The
      entries of the first report are on copies of their own. */
  ghost predicate PoolInv(first: seq<CaseResult>, own: set<TallyMap>, done: seq<Case>, dv: seq<CaseResult>,
                          now: seq<CaseResult>, acc: seq<Case>, views: seq<CaseResult>)
  {
    && Unshared(acc) && Unshared(done) && own !! Maps(done)
    && Tracks(first, done, dv, now, acc)
    && Maps(acc) <= own + Maps(done)
    && (forall i :: 0 <= i < |first| ==> acc[i].tally == null || acc[i].tally in own)
    && views == FoldAll(first, dv)
  }

  lemma FoldedMaps(acc: seq<Case>, was: seq<CaseResult>, rc: Case, rv: CaseResult, r: seq<Case>, then': seq<CaseResult>)
    requires |was| == |then'| == |acc| && Folded(acc, was, rc, rv, r, then')
    requires Unshared(acc) && (rc.tally != null ==> rc.tally !in Maps(acc))
    ensures Unshared(r)
    ensures forall m <- Maps(r) :: m in Maps(acc) || m == rc.tally
    ensures forall i :: 0 <= i < |acc| ==> i < |r| && (r[i].tally == acc[i].tally || r[i].tally == null)
  {
    assert forall i :: 0 <= i < |acc| ==> r[i].tally == acc[i].tally || r[i].tally == null;
    assert forall i :: 0 <= i < |acc| && acc[i].tally != null ==> acc[i] in acc;
    assert forall i :: 0 <= i < |acc| && acc[i].tally != null ==> acc[i].tally in Maps(acc);
  }

  lemma GrownMaps(done: seq<Case>, rc: Case)
    requires Unshared(done) && (rc.tally != null ==> rc.tally !in Maps(done))
    ensures Unshared(done + [rc])
    ensures Maps(done + [rc]) == Maps(done) + if rc.tally == null then {} else {rc.tally}
  {
    forall i | 0 <= i < |done| && done[i].tally != null ensures done[i].tally in Maps(done) {
      assert done[i] in done;
    }
    assert rc in done + [rc];
    assert forall c <- done :: c in done + [rc];
  }

  lemma FoldAllSnoc(first: seq<CaseResult>, dv: seq<CaseResult>, rv: CaseResult)
    ensures FoldAll(first, dv + [rv]) == Fold(FoldAll(first, dv), rv)
  {
    assert (dv + [rv])[..|dv|] == dv;
  }

  lemma PoolStep(first: seq<CaseResult>, own: set<TallyMap>, done: seq<Case>, dv: seq<CaseResult>, now: seq<CaseResult>,
                 acc: seq<Case>, was: seq<CaseResult>, rc: Case, rv: CaseResult, r: seq<Case>, then': seq<CaseResult>,
                 next: seq<CaseResult>)
    requires PoolInv(first, own, done, dv, now, acc, was) && Linked(done, acc, was, then', now, next)
    requires Folded(acc, was, rc, rv, r, then') && rc.name == rv.name
    requires rc.tally != null ==> rc.tally !in own && rc.tally !in Maps(done)
    ensures PoolInv(first, own, done + [rc], dv + [rv], next + [rv], r, Fold(was, rv))
  {
    StepTracks(first, done, dv, now, acc, was, rc, rv, r, then', next);
    FoldedMaps(acc, was, rc, rv, r, then');
    GrownMaps(done, rc);
    FoldAllSnoc(first, dv, rv);
  }

  method FoldLinked(acc: seq<Case>, rc: Case, ghost done: seq<Case>) returns (r: seq<Case>)
    requires Unshared(acc) && (rc.tally != null ==> rc.tally !in Maps(acc))
    modifies Maps(acc)
    ensures Folded(acc, old(Views(acc)), rc, old(View(rc)), r, Views(acc))
    ensures Views(r) == Fold(old(Views(acc)), old(View(rc)))
    ensures Linked(done, acc, old(Views(acc)), Views(acc), old(Views(done)), Views(done))
    ensures Views(done + [rc]) == Views(done) + [old(View(rc))]
  {
    r := FoldCase(acc, rc);
    assert forall i :: 0 <= i < |acc| && acc[i].tally != null ==> acc[i] in acc;
    assert Views(done + [rc]) == Views(done) + [View(rc)];
  }

  method FoldNext(ghost first: seq<CaseResult>, ghost own: set<TallyMap>, ghost done: seq<Case>,
                  ghost dv: seq<CaseResult>,
                  acc: seq<Case>, rc: Case) returns (r: seq<Case>)
    requires PoolInv(first, own, done, dv, Views(done), acc, Views(acc))
    requires rc.tally != null ==> rc.tally !in own && rc.tally !in Maps(done)
    modifies Maps(acc)
    ensures PoolInv(first, own, done + [rc], dv + [old(View(rc))], Views(done + [rc]), r, Views(r))
  {
    ghost var now, was, rv := Views(done), Views(acc), View(rc);
    r := FoldLinked(acc, rc, done);
    PoolStep(first, own, done, dv, now, acc, was, rc, rv, r, Views(acc), Views(done));
  }

  lemma {:induction false} LaterPrefix(reps: seq<Report>, k: nat, n: nat)
    requires k <= n <= |reps|
    ensures Later(reps, k) <= Later(reps, n)
  {
    if k < n {
      LaterPrefix(reps, k, n - 1);
    }
  }

  lemma ApartFrom(a: seq<Case>, b: seq<Case>, i: nat)
    requires Unshared(a + b) && i < |b| && b[i].tally != null
    ensures b[i].tally !in Maps(a) && b[i].tally in Maps(a + b)
  {
    assert (a + b)[|a| + i] == b[i];
    assert b[i] in a + b;
    assert forall j :: 0 <= j < |a| ==> (a + b)[j] == a[j];
  }

  method CopyFirst(cs: seq<Case>, ghost taken: set<TallyMap>) returns (acc: seq<Case>)
    ensures |acc| == |cs| && Views(acc) == old(Views(cs)) && Unshared(acc)
    ensures fresh(Maps(acc)) && Maps(acc) !! taken
  {
    acc := [];
    var i := 0;
    while i < |cs|
      invariant 0 <= i == |acc| <= |cs|
      invariant Unshared(acc) && fresh(Maps(acc)) && Maps(acc) !! taken
      invariant forall j :: 0 <= j < i ==> View(acc[j]) == old(View(cs[j]))
    {
      var c := cs[i];
      var copy: TallyMap? := null;
      if c.tally != null {
        copy := new TallyMap(c.tally.counts);
      }
      GrownMaps(acc, c.(tally := copy));
      acc := acc + [c.(tally := copy)];
      i := i + 1;
    }
  }

  /** The pool once the first n of the later cases are in it. The later cases held `lv`
      to begin with, and those still to come hold it now. */
  ghost predicate At(first: seq<CaseResult>, own: set<TallyMap>, later: seq<Case>, lv: seq<CaseResult>, n: nat,
                     acc: seq<Case>)
    reads Maps(later), Maps(acc)
  {
    && n <= |later| == |lv|
    && forall now, views :: now == Views(later[..n]) && views == Views(acc) ==>
         PoolInv(first, own, later[..n], lv[..n], now, acc, views)
         && forall i :: n <= i < |later| ==> View(later[i]) == lv[i]
  }

  lemma NextIsApart(own: set<TallyMap>, later: seq<Case>, n: nat)
    requires n < |later| && Unshared(later) && own !! Maps(later)
    ensures forall i :: n <= i < |later| && later[i].tally != null ==> later[i].tally !in own + Maps(later[..n])
    ensures Maps(later[..n]) <= Maps(later)
    ensures later[..n + 1] == later[..n] + [later[n]]
  {
    assert later[..n] + later[n..] == later;
    forall i | n <= i < |later| && later[i].tally != null ensures later[i].tally !in own + Maps(later[..n]) {
      ApartFrom(later[..n], later[n..], i - n);
    }
    assert forall c <- later[..n] :: c in later;
  }

  method FoldAtNext(ghost first: seq<CaseResult>, ghost own: set<TallyMap>, ghost later: seq<Case>,
                    ghost lv: seq<CaseResult>,
                    ghost n: nat, acc: seq<Case>, rc: Case) returns (r: seq<Case>)
    requires At(first, own, later, lv, n, acc) && n < |later| && rc == later[n]
    requires Unshared(later) && own !! Maps(later)
    modifies own, Maps(later)
    ensures At(first, own, later, lv, n + 1, r)
  {
    assert PoolInv(first, own, later[..n], lv[..n], Views(later[..n]), acc, Views(acc));
    NextIsApart(own, later, n);
    assert lv[..n + 1] == lv[..n] + [lv[n]];
    assert Maps(acc) <= own + Maps(later[..n]);
    assert View(later[n]) == lv[n];
    r := FoldNext(first, own, later[..n], lv[..n], acc, rc);
    assert forall i :: n < i < |later| ==> View(later[i]) == lv[i];
  }

  method FoldReport(ghost first: seq<CaseResult>, ghost own: set<TallyMap>, ghost later: seq<Case>,
                    ghost lv: seq<CaseResult>,
                    ghost n: nat, pooled: seq<Case>, rs: seq<Case>) returns (acc: seq<Case>)
    requires At(first, own, later, lv, n, pooled) && n + |rs| <= |later|
    requires forall i :: 0 <= i < |rs| ==> rs[i] == later[n + i]
    requires Unshared(later) && own !! Maps(later)
    modifies own, Maps(later)
    ensures At(first, own, later, lv, n + |rs|, acc)
  {
    acc := pooled;
    var j := 0;
    ghost var m := n;
    while j < |rs|
      invariant 0 <= j <= |rs| && m == n + j
      invariant At(first, own, later, lv, m, acc)
    {
      assert rs[j] == later[n + j];
      acc := FoldAtNext(first, own, later, lv, m, acc, rs[j]);
      j, m := j + 1, m + 1;
    }
  }

  // ----- The whole pool -------------------------------------------------

  ghost function AllMaps(reps: seq<Report>): set<TallyMap> {
    set r, c | r in reps && c in r.results && c.tally != null :: c.tally
  }

  ghost function Runs(reps: seq<Report>): (runs: seq<seq<CaseResult>>)
    reads AllMaps(reps)
    ensures |runs| == |reps| && forall q :: 0 <= q < |reps| ==> runs[q] == Views(reps[q].results)
  {
    seq(|reps|, q requires 0 <= q < |reps| reads AllMaps(reps) => Views(reps[q].results))
  }

  ghost function LaterRuns(runs: seq<seq<CaseResult>>, k: nat): seq<CaseResult>
    requires k <= |runs|
  {
    if k <= 1 then [] else LaterRuns(runs, k - 1) + runs[k - 1]
  }

  /** Only runs of one model, fixture and harness are samples of the same thing. */
  predicate SameSetup(a: Report, b: Report) {
    a.model == b.model && a.fixture == b.fixture && a.agent == b.agent
  }

  function TrialsOf(reps: seq<Report>, k: nat): int
    requires k <= |reps|
  {
    if k == 0 then 0 else TrialsOf(reps, k - 1) + reps[k - 1].trials
  }

  lemma {:induction false} FoldAllSplit(acc: seq<CaseResult>, a: seq<CaseResult>, b: seq<CaseResult>)
    ensures FoldAll(acc, a + b) == FoldAll(FoldAll(acc, a), b)
    decreases |b|
  {
    if b == [] {
      assert a + b == a;
    } else {
      var init, c := b[..|b| - 1], b[|b| - 1];
      assert a + b == (a + init) + [c];
      FoldAllSnoc(acc, a + init, c);
      FoldAllSplit(acc, a, init);
    }
  }

  lemma {:induction false} PoolIsOneFold(runs: seq<seq<CaseResult>>, k: nat)
    requires 1 <= k <= |runs|
    ensures PoolCases(runs[..k]) == FoldAll(runs[0], LaterRuns(runs, k))
  {
    if k > 1 {
      PoolIsOneFold(runs, k - 1);
      assert runs[..k][..k - 1] == runs[..k - 1];
      FoldAllSplit(runs[0], LaterRuns(runs, k - 1), runs[k - 1]);
    }
  }

  method AnyFailure(cs: seq<Case>) returns (fails: bool)
    ensures fails == Fails(Views(cs))
  {
    var i := 0;
    while i < |cs|
      invariant 0 <= i <= |cs| && forall j :: 0 <= j < i ==> !IsFailure(cs[j].verdict)
    {
      if IsFailure(cs[i].verdict) {
        assert IsFailure(Views(cs)[i].verdict);
        return true;
      }
      i := i + 1;
    }
    return false;
  }

  /** How many later cases come before report k. */
  function Offset(reps: seq<Report>, k: nat): nat
    requires k <= |reps|
  {
    if k <= 1 then 0 else Offset(reps, k - 1) + |reps[k - 1].results|
  }

  lemma {:induction false} OffsetIs(reps: seq<Report>, k: nat)
    requires k <= |reps|
    ensures Offset(reps, k) == |Later(reps, k)|
  {
    if k > 1 {
      OffsetIs(reps, k - 1);
    }
  }

  /** Report k's cases, where they are among the later ones. */
  ghost predicate LiesAt(reps: seq<Report>, later: seq<Case>, k: nat)
    requires 1 <= k < |reps|
  {
    var n, rs := Offset(reps, k), reps[k].results;
    n + |rs| <= |later| && forall i :: 0 <= i < |rs| ==> rs[i] == later[n + i]
  }

  lemma PartOf(a: seq<Case>, b: seq<Case>, c: seq<Case>)
    requires a + b <= c
    ensures |a| + |b| <= |c| && forall i :: 0 <= i < |b| ==> b[i] == c[|a| + i]
  {
    assert forall i :: 0 <= i < |b| ==> (a + b)[|a| + i] == b[i];
  }

  lemma ReportInLater(reps: seq<Report>, k: nat)
    requires 1 <= k < |reps|
    ensures LiesAt(reps, Later(reps, |reps|), k)
  {
    OffsetIs(reps, k);
    LaterPrefix(reps, k + 1, |reps|);
    PartOf(Later(reps, k), reps[k].results, Later(reps, |reps|));
  }

  method FoldReports(ghost first: seq<CaseResult>, ghost own: set<TallyMap>, ghost later: seq<Case>,
                     ghost lv: seq<CaseResult>, reps: seq<Report>, start: seq<Case>)
    returns (matched: bool, trials: int, acc: seq<Case>)
    requires reps != [] && Offset(reps, |reps|) == |lv|
    requires forall k :: 1 <= k < |reps| ==> LiesAt(reps, later, k)
    requires At(first, own, later, lv, 0, start)
    requires Unshared(later) && own !! Maps(later)
    modifies own, Maps(later)
    ensures matched <==> forall k :: 1 <= k < |reps| ==>
                           && reps[k].model == reps[0].model && reps[k].fixture == reps[0].fixture
                           && reps[k].agent == reps[0].agent
    ensures matched ==> trials == TrialsOf(reps, |reps|)
    ensures matched ==> At(first, own, later, lv, |lv|, acc)
  {
    acc := start;
    trials := reps[0].trials;
    var k := 1;
    ghost var m := 0;
    while k < |reps|
      invariant 1 <= k <= |reps| && trials == TrialsOf(reps, k) && m == Offset(reps, k)
      invariant At(first, own, later, lv, m, acc)
      invariant forall q :: 1 <= q < k ==> SameSetup(reps[0], reps[q])
    {
      if !SameSetup(reps[0], reps[k]) {
        return false, trials, acc;
      }
      trials := trials + reps[k].trials;
      assert LiesAt(reps, later, k);
      acc := FoldReport(first, own, later, lv, m, acc, reps[k].results);
      k, m := k + 1, m + |reps[k].results|;
    }
    matched := true;
  }

  lemma {:induction false} LaterViews(reps: seq<Report>, runs: seq<seq<CaseResult>>, k: nat)
    requires 1 <= k <= |reps| && runs == Runs(reps)
    ensures LaterRuns(runs, k) == Views(Later(reps, k))
  {
    if k > 1 {
      LaterViews(reps, runs, k - 1);
    }
  }

  method StartPool(reps: seq<Report>, ghost runs: seq<seq<CaseResult>>, ghost later: seq<Case>) returns (acc: seq<Case>)
    requires reps != [] && runs == Runs(reps) && later == Later(reps, |reps|)
    ensures fresh(Maps(acc)) && Maps(acc) !! Maps(later)
    ensures At(runs[0], Maps(acc), later, LaterRuns(runs, |runs|), 0, acc)
  {
    acc := CopyFirst(reps[0].results, Maps(later));
    LaterViews(reps, runs, |reps|);
    assert Views(acc) == runs[0];
    StartInv(runs[0], acc);
    assert later[..0] == [] && LaterRuns(runs, |runs|)[..0] == [] && Views(later[..0]) == [];
  }

  lemma StartInv(first: seq<CaseResult>, acc: seq<Case>)
    requires |first| == |acc| && Unshared(acc) && forall i :: 0 <= i < |acc| ==> acc[i].name == first[i].name
    ensures PoolInv(first, Maps(acc), [], [], [], acc, first)
  {
    assert forall i :: 0 <= i < |acc| && acc[i].tally != null ==> acc[i] in acc;
  }

  /** Every later case's map holds what its tracking says. */
  ghost predicate MapsAsTracked(first: seq<CaseResult>, later: seq<Case>, lv: seq<CaseResult>)
    reads Maps(later)
  {
    |later| == |lv| && forall o :: 0 <= o < |later| ==> Counts(later[o].tally) == After(first, lv, o)
  }

  lemma PoolDone(first: seq<CaseResult>, own: set<TallyMap>, later: seq<Case>, lv: seq<CaseResult>, acc: seq<Case>)
    requires At(first, own, later, lv, |lv|, acc)
    ensures Views(acc) == FoldAll(first, lv) && MapsAsTracked(first, later, lv)
  {
    assert later[..|lv|] == later && lv[..|lv|] == lv;
    assert PoolInv(first, own, later[..|lv|], lv[..|lv|], Views(later[..|lv|]), acc, Views(acc));
  }

  /** Pooling: refused exactly when some run was set up differently. Otherwise the record
      is the fold of the runs, and each later case's own map is left as tracked. The maps
      of the first report are not written. */
  method Pool(reps: seq<Report>) returns (r: Pooled)
    requires reps != [] && Unshared(Later(reps, |reps|))
    modifies Maps(Later(reps, |reps|))
    ensures r.Mismatch? <==> exists k :: 1 <= k < |reps| &&
                               (|| reps[k].model != reps[0].model || reps[k].fixture != reps[0].fixture
                                || reps[k].agent != reps[0].agent)
    ensures r.Pooled? ==> r.trials == TrialsOf(reps, |reps|)
    ensures r.Pooled? ==> Views(r.results) == PoolCases(old(Runs(reps)))
    ensures r.Pooled? ==> r.fails == Fails(PoolCases(old(Runs(reps))))
    ensures r.Pooled? ==> MapsAsTracked(old(Views(reps[0].results)), Later(reps, |reps|), old(Views(Later(reps,
        |reps|))))
  {
    ghost var runs, later := Runs(reps), Later(reps, |reps|);
    ghost var lv := LaterRuns(runs, |runs|);
    LaterViews(reps, runs, |reps|);
    PoolIsOneFold(runs, |runs|);
    assert runs[..|runs|] == runs;
    ghost var first := runs[0];
    assert first == old(Views(reps[0].results)) && lv == old(Views(later));
    var start := StartPool(reps, runs, later);
    OffsetIs(reps, |reps|);
    forall k | 1 <= k < |reps| ensures LiesAt(reps, later, k) {
      ReportInLater(reps, k);
    }
    var matched, trials, acc := FoldReports(first, Maps(start), later, lv, reps, start);
    if matched {
      var fails := AnyFailure(acc);
      PoolDone(first, Maps(start), later, lv, acc);
      r := Pooled(trials, acc, fails);
    } else {
      r := Mismatch;
    }
  }

  // ----- Which inputs a pool edits --------------------------------------

  /** Trials are counted, so no class has a negative count. */
  ghost predicate CountsAreNatural(cs: seq<CaseResult>) {
    forall i, k :: 0 <= i < |cs| && k in cs[i].tally ==> cs[i].tally[k] >= 0
  }

  /** Adding d to a map that holds s shows: a class s lacks, or a trial. */
  ghost predicate Shows(s: Tally, d: Tally) {
    exists k :: k in d && (k !in s || d[k] > 0)
  }

  ghost predicate GrownFrom(s: Tally, t: Tally) {
    s.Keys <= t.Keys && forall k :: Get(s, k) <= Get(t, k)
  }

  lemma AddShows(s: Tally, t: Tally, d: Tally)
    requires GrownFrom(s, t) && forall k <- d :: d[k] >= 0
    ensures GrownFrom(s, Add(t, d))
    ensures Add(t, d) == s <==> t == s && !Shows(s, d)
  {
    var u := Add(t, d);
    if t == s && !Shows(s, d) {
      SameCounts(u, s);
    }
    if t != s && u == s {
      SameCounts(t, s);
    }
    if k :| k in d && (k !in s || d[k] > 0) {
      assert k in u && Get(u, k) == Get(t, k) + Get(d, k);
    }
  }

  /** Case a is the first of its name, and every case of that name up to b was counted. */
  ghost predicate Merged(cs: seq<CaseResult>, a: int, b: int) {
    && 0 <= a < b < |cs| && cs[a].name == cs[b].name
    && (forall c :: 0 <= c < a ==> cs[c].name != cs[a].name)
    && (forall c :: a <= c <= b && cs[c].name == cs[a].name ==> cs[c].tally != map[])
  }

  ghost predicate AllCounted(cs: seq<CaseResult>, a: int) {
    forall c :: 0 <= a <= c < |cs| && cs[c].name == cs[a].name ==> cs[c].tally != map[]
  }

  /** How one name's tracking has come about. */
  ghost predicate TrackIs(cs: seq<CaseResult>, tr: Track)
    requires !tr.NotSeen? ==> tr.origin < |cs|
  {
    tr.NotSeen? ||
    (var a := tr.origin;
     && (forall c :: 0 <= c < a ==> cs[c].name != cs[a].name)
     && GrownFrom(cs[a].tally, tr.t)
     && (AllCounted(cs, a) <==> tr.Live? && tr.t != map[])
     && (tr.t == cs[a].tally <==> forall b :: Merged(cs, a, b) ==> !Shows(cs[a].tally, cs[b].tally)))
  }

  lemma MergedSnoc(cs: seq<CaseResult>, c: CaseResult, a: nat)
    requires a < |cs| && forall i :: 0 <= i < a ==> cs[i].name != cs[a].name
    ensures forall b :: 0 <= b < |cs| ==> (Merged(cs + [c], a, b) <==> Merged(cs, a, b))
    ensures Merged(cs + [c], a, |cs|) <==> c.name == cs[a].name && c.tally != map[] && AllCounted(cs, a)
    ensures AllCounted(cs + [c], a) <==> AllCounted(cs, a) && (c.name == cs[a].name ==> c.tally != map[])
  {
    var ds := cs + [c];
    assert forall i :: 0 <= i < |cs| ==> ds[i] == cs[i];
    assert ds[|cs|] == c;
  }

  lemma {:induction false} TrackMeans(cs: seq<CaseResult>, name: string)
    requires CountsAreNatural(cs)
    ensures TrackIs(cs, TrackOf(cs, name))
  {
    if cs != [] {
      var init, c := cs[..|cs| - 1], cs[|cs| - 1];
      assert cs == init + [c];
      assert forall i :: 0 <= i < |init| ==> init[i] == cs[i];
      TrackMeans(init, name);
      TrackMeansStep(init, c, name);
    }
  }

  lemma TrackMeansStep(init: seq<CaseResult>, c: CaseResult, name: string)
    requires CountsAreNatural(init + [c]) && TrackIs(init, TrackOf(init, name))
    ensures TrackIs(init + [c], TrackOf(init + [c], name))
  {
    var cs, prev := init + [c], TrackOf(init, name);
    TrackSnoc(init, c, name);
    assert forall i :: 0 <= i < |init| ==> cs[i] == init[i];
    assert cs[|init|] == c;
    if prev.NotSeen? {
      assert c.name == name ==> forall b :: !Merged(cs, |init|, b);
    } else {
      var a := prev.origin;
      MergedSnoc(init, c, a);
      if c.name == name && AllCounted(init, a) && c.tally != map[] {
        AddShows(init[a].tally, prev.t, c.tally);
        AddNotEmpty(prev.t, c.tally);
      }
      TrackUnfolds(init, c, a);
    }
  }

  /** What is true of every merged case is true of the old ones and of the new one. */
  lemma TrackUnfolds(init: seq<CaseResult>, c: CaseResult, a: nat)
    requires a < |init| && forall i :: 0 <= i < a ==> init[i].name != init[a].name
    ensures (forall b :: Merged(init + [c], a, b) ==> !Shows((init + [c])[a].tally, (init + [c])[b].tally)) <==>
            (forall b :: Merged(init, a, b) ==> !Shows(init[a].tally, init[b].tally))
            && (Merged(init + [c], a, |init|) ==> !Shows(init[a].tally, c.tally))
  {
    var cs := init + [c];
    MergedSnoc(init, c, a);
    assert forall i :: 0 <= i < |init| ==> cs[i] == init[i];
    assert cs[|init|] == c;
    forall b | Merged(init, a, b) ensures Merged(cs, a, b) {
    }
  }

  /** Pooling leaves every report as it was exactly when, for every name missing from the
      first report, nothing merged into its first later case shows: no class that case lacks
      and no trial. In particular every case the first report also has is safe, in any
      number of runs. */
  lemma InputsUntouchedIff(first: seq<CaseResult>, later: seq<CaseResult>)
    requires CountsAreNatural(later)
    ensures (forall o :: 0 <= o < |later| ==> After(first, later, o) == later[o].tally)
            <==> (forall a, b :: Merged(later, a, b) && !Named(first, later[a].name) ==>
                    !Shows(later[a].tally, later[b].tally))
  {
    forall o | 0 <= o < |later|
      ensures After(first, later, o) == later[o].tally <==>
                Named(first, later[o].name) || forall b :: Merged(later, o, b) ==>
                    !Shows(later[o].tally, later[b].tally)
    {
      TrackMeans(later, later[o].name);
    }
  }

  /** Three runs, the first without the case the other two counted: the pool adds the third
      run's counts into the second run's own map. */
  method ThirdRunEditsTheSecond(setup: Report, a: Case, b: Case, c: Case) returns (r: Pooled)
    requires b.name == c.name != a.name && b.tally != null && c.tally != null && b.tally != c.tally
    requires b.tally.counts != map[] && c.tally.counts != map[]
    modifies b.tally, c.tally
    ensures r.Pooled? && b.tally.counts == Add(old(b.tally.counts), old(c.tally.counts))
  {
    var reps := [setup.(results := [a]), setup.(results := [b]), setup.(results := [c])];
    ghost var first, lv := Views([a]), Views([b, c]);
    assert Later(reps, 3) == [b, c] by {
      LaterOfThree(reps);
    }
    SecondIsEdited(first, lv);
    PoolsSame(reps);
    r := Pool(reps);
    assert MapsAsTracked(first, [b, c], lv);
    assert Counts([b, c][0].tally) == After(first, lv, 0);
  }

  lemma LaterOfThree(reps: seq<Report>)
    requires |reps| == 3 && |reps[1].results| == |reps[2].results| == 1
    ensures Later(reps, 3) == [reps[1].results[0], reps[2].results[0]]
  {
    assert Later(reps, 2) == [] + reps[1].results;
  }

  lemma PoolsSame(reps: seq<Report>)
    requires |reps| == 3 && reps[1].(results := []) == reps[0].(results := []) == reps[2].(results := [])
    ensures forall k :: 1 <= k < |reps| ==> SameSetup(reps[0], reps[k])
  {
  }

  lemma SecondIsEdited(first: seq<CaseResult>, lv: seq<CaseResult>)
    requires |first| == 1 && |lv| == 2 && first[0].name != lv[0].name == lv[1].name
    requires lv[0].tally != map[] && lv[1].tally != map[]
    ensures After(first, lv, 0) == Add(lv[0].tally, lv[1].tally)
  {
    var b, c := lv[0], lv[1];
    TrackSnoc([], b, b.name);
    TrackSnoc([b], c, b.name);
    assert [] + [b] == [b] && [b] + [c] == lv;
  }

  /** It shows: one trial of a class in each run, and the second report says two. */
  method EditedReport(v: Verdict) returns (before: Tally, after: Tally)
    ensures before == map[v := 1] && after == map[v := 2]
  {
    before := map[v := 1];
    var mb := new TallyMap(before);
    var mc := new TallyMap(before);
    assert before != map[] by { assert v in before; }
    assert "a" != "b" by { assert "a"[0] != "b"[0]; }
    var r := ThirdRunEditsTheSecond(Report("m", "f", "h", 1, []), Case("a", Pass, 1, 0, null),
                                    Case("b", v, 1, 0, mb), Case("b", v, 1, 0, mc));
    after := mb.counts;
    SameCounts(after, map[v := 2]);
  }
}
