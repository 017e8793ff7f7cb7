/** Measuring a host and what the published figure means: the screen, the samples, the
    record and its re-reading (cmd/waired-agent/host_cutoff_probe.go,
    cmd/waired-agent/host_cutoff.go). */
module HostCutoff {
  import opened Counting
  import opened HostProbes

  const SAMPLES := 3
  const STRADDLE_SAMPLES := 5
  const SCREEN_MARGIN: real := 1.5
  const SCREEN_MIN_PROMPT := 1500

  datatype Option<T> = None | Some(value: T)

  /** How a figure was obtained; Unnamed is what builds before the screen wrote. */
  datatype Method = PrefillFloor | EngineCounters | Unnamed

  datatype Measurement = Measurement(probe: Probe, floor: real, how: Method, samples: nat)

  // ----- The samples ----------------------------------------------------

  datatype Sample = Failed | Took(probe: Probe)

  /** What the engine and the clock have in store for one sample. */
  datatype Event = Event(overBudget: bool, sample: Sample)

  function Usable(events: seq<Event>, n: nat): (ps: seq<Probe>)
    requires n <= |events|
    ensures |ps| <= n && forall i :: 0 <= i < |ps| ==> Measured(ps[i])
  {
    if n == 0 then []
    else
      var e := events[n - 1];
      Usable(events, n - 1) + if e.sample.Took? && Measured(e.sample.probe) then [e.sample.probe] else []
  }

  /** The samples disagree about the budget. */
  predicate Straddles(ps: seq<Probe>) {
    (exists i :: 0 <= i < |ps| && Meets(ps[i])) && exists i :: 0 <= i < |ps| && !Meets(ps[i])
  }

  lemma StraddleCounts(ps: seq<Probe>)
    ensures Straddles(ps) <==> 0 < Meeting(ps) < |ps|
  {
    CountBounds(ps, set p | p in ps && Meets(p));
  }

  method Reduce(ps: seq<Probe>) returns (m: Measurement)
    requires ps != [] && AllMeasured(ps)
    ensures m.probe in ps && m.floor == TurnFloor(m.probe.prefill) && m.how == EngineCounters && m.samples == |ps|
    ensures Meets(m.probe) <==> 2 * Meeting(ps) > |ps|
  {
    var sorted := SortByTurn(ps);
    MedianIsMajority(ps, sorted);
    var median := sorted[|ps| / 2];
    m := Measurement(median, TurnFloor(median.prefill), EngineCounters, |ps|);
  }

  /** Any sort will do: nothing below depends on how ties are ordered. */
  method SortByTurn(ps: seq<Probe>) returns (sorted: seq<Probe>)
    ensures Sorts(ps, sorted)
  {
    sorted := [];
    var i := 0;
    while i < |ps|
      invariant 0 <= i <= |ps|
      invariant multiset(sorted) == multiset(ps[..i]) && SortedByTurn(sorted)
    {
      sorted := Insert(sorted, ps[i]);
      assert ps[..i + 1] == ps[..i] + [ps[i]];
      i := i + 1;
    }
    assert ps[..i] == ps;
  }

  method Insert(s: seq<Probe>, p: Probe) returns (r: seq<Probe>)
    requires SortedByTurn(s)
    ensures multiset(r) == multiset(s) + multiset{p} && SortedByTurn(r)
  {
    var j := |s|;
    while j > 0 && Turn(p) < Turn(s[j - 1])
      invariant 0 <= j <= |s|
      invariant j < |s| ==> Turn(p) <= Turn(s[j])
    {
      j := j - 1;
    }
    InsertKeepsOrder(s, j, p);
    InsertAdds(s, j, p);
    r := s[..j] + [p] + s[j..];
  }

  lemma InsertAdds(s: seq<Probe>, j: nat, p: Probe)
    requires j <= |s|
    ensures multiset(s[..j] + [p] + s[j..]) == multiset(s) + multiset{p}
  {
    assert s == s[..j] + s[j..];
  }

  lemma InsertKeepsOrder(s: seq<Probe>, j: nat, p: Probe)
    requires SortedByTurn(s) && j <= |s|
    requires j > 0 ==> Turn(s[j - 1]) <= Turn(p)
    requires j < |s| ==> Turn(p) <= Turn(s[j])
    ensures SortedByTurn(s[..j] + [p] + s[j..])
  {
    var r := s[..j] + [p] + s[j..];
    forall a, b | 0 <= a < b < |r| ensures Turn(r[a]) <= Turn(r[b]) {
      assert r[a] == if a < j then s[a] else if a == j then p else s[a - 1];
      assert r[b] == if b < j then s[b] else if b == j then p else s[b - 1];
    }
  }

  /** Why sampling stopped after `taken` samples. */
  ghost predicate StoppedRightly(events: seq<Event>, taken: nat)
    requires STRADDLE_SAMPLES <= |events| && taken <= STRADDLE_SAMPLES
  {
    || taken == STRADDLE_SAMPLES
    || (taken == SAMPLES && !Straddles(Usable(events, SAMPLES)))
    || (taken > 0 && events[taken].overBudget)
    || events[taken].sample.Failed?
  }

  /** What the samples taken have in common: they completed, and all but the first were
      started inside the budget. */
  ghost predicate Completed(events: seq<Event>, taken: nat)
    requires taken <= |events|
  {
    forall i :: 0 <= i < taken ==> events[i].sample.Took? && (i > 0 ==> !events[i].overBudget)
  }

  /** Whether the samples disagree, by one flag for each side of the budget. */
  method Disagree(ps: seq<Probe>) returns (b: bool)
    ensures b == Straddles(ps)
  {
    var below, above, i := false, false, 0;
    while i < |ps|
      invariant 0 <= i <= |ps|
      invariant below <==> exists k :: 0 <= k < i && Meets(ps[k])
      invariant above <==> exists k :: 0 <= k < i && !Meets(ps[k])
    {
      if Meets(ps[i]) {
        below := true;
      } else {
        above := true;
      }
      i := i + 1;
    }
    b := below && above;
  }

  /** The sampling loop. Three samples, five only when the first three disagree about the
      budget; it stops early on the clock or on a failed sample. */
  method SampleLoop(events: seq<Event>) returns (usable: seq<Probe>, last: Probe, taken: nat)
    requires |events| >= STRADDLE_SAMPLES
    ensures taken <= STRADDLE_SAMPLES && StoppedRightly(events, taken) && Completed(events, taken)
    ensures taken > SAMPLES ==> Straddles(Usable(events, SAMPLES))
    ensures usable == Usable(events, taken) && (usable == [] ==> !Measured(last))
  {
    usable, last, taken := [], Probe(0, 0.0, 0.0), 0;
    var max := SAMPLES;
    while taken < max
      invariant 0 <= taken <= max <= STRADDLE_SAMPLES
      invariant usable == Usable(events, taken) && Completed(events, taken)
      invariant max == SAMPLES || (max == STRADDLE_SAMPLES && taken >= SAMPLES && Straddles(Usable(events, SAMPLES)))
      invariant taken == max == SAMPLES ==> !Straddles(Usable(events, SAMPLES))
      invariant usable == [] ==> !Measured(last)
      decreases STRADDLE_SAMPLES - taken
    {
      if (taken > 0 && events[taken].overBudget) || events[taken].sample.Failed? {
        return;
      }
      last := events[taken].sample.probe;
      if Measured(last) {
        usable := usable + [last];
      }
      taken := taken + 1;
      if taken == SAMPLES {
        var differ := Disagree(usable);
        max := if differ then STRADDLE_SAMPLES else SAMPLES;
      }
    }
  }

  /** The samples and the judgement on those that are usable: the kept one meets the budget
      exactly when a strict majority does. A failure with nothing usable is no measurement. */
  method TakeSamples(events: seq<Event>) returns (m: Option<Measurement>, taken: nat)
    requires |events| >= STRADDLE_SAMPLES
    ensures taken <= STRADDLE_SAMPLES && StoppedRightly(events, taken) && Completed(events, taken)
    ensures taken > SAMPLES ==> Straddles(Usable(events, SAMPLES))
    ensures m.None? ==> taken < STRADDLE_SAMPLES && events[taken].sample.Failed?
    ensures var ps := Usable(events, taken);
            if ps == [] then m.Some? ==> !Measured(m.value.probe) && m.value.how == Unnamed
            else
              && m.Some? && m.value.probe in ps && m.value.samples == |ps| && m.value.how == EngineCounters
              && m.value.floor == TurnFloor(m.value.probe.prefill)
              && (Meets(m.value.probe) <==> 2 * Meeting(ps) > |ps|)
  {
    var usable, last;
    usable, last, taken := SampleLoop(events);
    if usable != [] {
      var r := Reduce(usable);
      return Some(r), taken;
    }
    if taken < SAMPLES && !(taken > 0 && events[taken].overBudget) {
      return None, taken;
    }
    m := Some(Measurement(last, 0.0, Unnamed, 0));
  }

  // ----- The screen -----------------------------------------------------

  datatype Reading = NoReading | Reading(promptTokens: int, prefill: real)

  /** One pass of the screen: the readings, the engine's process generation when the pass
      looked at it and while each reading was served, and whether the host was idle. */
  datatype Pass = Pass(gen: nat, first: Reading, genFirst: nat, genAfterFirst: nat, quiet: bool,
                       second: Reading, genSecond: nat, genAfter: nat, quietAfter: bool)

  /** Generations only ever move forward. */
  ghost predicate InOrder(p: Pass) {
    p.gen <= p.genFirst <= p.genAfterFirst <= p.genSecond <= p.genAfter
  }

  predicate Fires(r: Reading) {
    && r.Reading? && TurnFloor(r.prefill) > 0.0 && r.promptTokens >= SCREEN_MIN_PROMPT
    && TurnFloor(r.prefill) > BUDGET * SCREEN_MARGIN
  }

  datatype Outcome = FellThrough | Interrupted | Below(m: Measurement)

  function Screened(a: Reading, b: Reading): Measurement
    requires a.Reading? && b.Reading?
  {
    var keep := if TurnFloor(b.prefill) < TurnFloor(a.prefill) then b else a;
    Measurement(Probe(keep.promptTokens, keep.prefill, 0.0), TurnFloor(keep.prefill), PrefillFloor, 2)
  }

  function ScreenOnce(p: Pass): Outcome {
    if p.first.NoReading? then (if p.genAfterFirst != p.gen then Interrupted else FellThrough)
    else if !Fires(p.first) then FellThrough
    else if !p.quiet then FellThrough
    else if p.second.NoReading? then (if p.genAfter != p.gen then Interrupted else FellThrough)
    else if p.genAfter != p.gen then Interrupted
    else if !p.quietAfter then FellThrough
    else if !Fires(p.second) then FellThrough
    else Below(Screened(p.first, p.second))
  }

  /** When a pass concludes. */
  ghost predicate Concludes(p: Pass) {
    Fires(p.first) && Fires(p.second) && p.quiet && p.quietAfter && p.gen == p.genAfter
  }

  lemma ConcludesOnOneEngine(p: Pass)
    requires InOrder(p)
    ensures ScreenOnce(p).Below? <==> Concludes(p)
    ensures ScreenOnce(p).Below? ==> p.genFirst == p.genSecond == p.gen
  {
  }

  /** A reading fires exactly when its prompt is long enough to count and the prefill alone
      takes more than one and a half budgets. */
  lemma FiresIff(r: Reading)
    ensures Fires(r) <==>
              && r.Reading? && r.promptTokens >= 1500 && r.prefill > 0.0
              && DEPTH as real > BUDGET * 1.5 * r.prefill
  {
    if r.Reading? && r.prefill > 0.0 {
      assert TurnFloor(r.prefill) * r.prefill == DEPTH as real;
      ScaleBoth(TurnFloor(r.prefill), BUDGET * 1.5, r.prefill);
    }
  }

  /** The engine was restarted under the pass: under a first reading that never came, or behind
      one that fired on an idle host. */
  ghost predicate Disturbed(p: Pass) {
    if p.first.NoReading? then p.genAfterFirst != p.gen else Fires(p.first) && p.quiet && p.genAfter != p.gen
  }

  /** A measurement at one of the readings' prefill rates, or slower. */
  ghost predicate NoFaster(full: Probe, p: Pass) {
    (p.first.Reading? && full.prefill <= p.first.prefill) || (p.second.Reading? && full.prefill <= p.second.prefill)
  }

  /** A concluded screen is out of reach of the full measurement: at either reading's
      prefill rate, or any slower one, no decode rate makes the turn fit. */
  lemma BelowMeansBelow(p: Pass, full: Probe)
    requires InOrder(p) && ScreenOnce(p).Below?
    ensures var m := ScreenOnce(p).m;
            && m.floor == TurnFloor(m.probe.prefill) > BUDGET * SCREEN_MARGIN
            && m.floor <= TurnFloor(p.first.prefill) && m.floor <= TurnFloor(p.second.prefill)
            && (m.probe.prefill == p.first.prefill || m.probe.prefill == p.second.prefill)
            && !Measured(m.probe)
    ensures NoFaster(full, p) ==> !Meets(full)
  {
    if Measured(full) {
      if full.prefill <= p.first.prefill {
        TurnIsAboveFloor(full, p.first.prefill);
      }
      if full.prefill <= p.second.prefill {
        TurnIsAboveFloor(full, p.second.prefill);
      }
    }
  }

  /** The screen: a pass the engine restarted under is repeated once, and never charged. */
  method Screen(passes: seq<Pass>) returns (m: Option<Measurement>, used: nat)
    requires |passes| >= 2 && forall i :: 0 <= i < |passes| ==> InOrder(passes[i])
    ensures 1 <= used <= 2 && (used == 2 <==> Disturbed(passes[0]))
    ensures m.Some? <==> Concludes(passes[used - 1])
    ensures m.Some? ==> ScreenOnce(passes[used - 1]) == Below(m.value)
  {
    var grace := 1;
    used := 0;
    while true
      invariant 0 <= grace <= 1 && used == 1 - grace
      invariant used == 1 ==> Disturbed(passes[0])
      decreases grace
    {
      var out := ScreenOnce(passes[used]);
      ConcludesOnOneEngine(passes[used]);
      used := used + 1;
      if out.Below? {
        return Some(out.m), used;
      }
      if out.FellThrough? || grace <= 0 {
        return None, used;
      }
      grace := grace - 1;
    }
  }

  // ----- The published record -------------------------------------------

  datatype Record = Record(promptTokens: int, prefill: real, decode: real, turn: real, floor: real, how: Method,
                           kind: string, version: string)

  datatype Verdict = Verdict(meets: bool, turn: real, floor: real, how: Method)

  /** What a record stands for, when it is published and when it is read a boot later. */
  function VerdictOf(r: Record): Option<Verdict> {
    if r.how == PrefillFloor then
      if r.floor <= BUDGET then None else Some(Verdict(false, 0.0, r.floor, r.how))
    else
      var p := Probe(r.promptTokens, r.prefill, r.decode);
      if !Measured(p) then None
      else Some(Verdict(Meets(p), Turn(p), TurnFloor(p.prefill), if r.how == Unnamed then EngineCounters else r.how))
  }

  function StillApplies(r: Option<Record>, kind: string, version: string): Option<Verdict> {
    if r.None? || r.value.kind != kind || r.value.version == "" || r.value.version != version then None
    else VerdictOf(r.value)
  }

  function RecordOf(m: Measurement, kind: string, version: string): Record {
    Record(m.probe.promptTokens, m.probe.prefill, m.probe.decode, Turn(m.probe), m.floor, m.how, kind, version)
  }

  /** What is stored, if anything, and the verdict the call returns. The version is read
      again after the measurement when it could not be read before. */
  function Publish(m: Measurement, kind: string, before: string, after: string): Option<(Record, Verdict)> {
    if m.how != PrefillFloor && !Measured(m.probe) then None
    else
      var r := RecordOf(m, kind, if before == "" then after else before);
      match VerdictOf(r)
      case None => None
      case Some(v) => Some((r, v))
  }

  /** A stored record re-reads as the verdict it was published with, on the same engine
      kind and version, and on no other; without a version it is never reused. */
  lemma RereadsAsPublished(m: Measurement, kind: string, before: string, after: string, kind': string, version': string)
    requires Publish(m, kind, before, after).Some?
    ensures var (r, v) := Publish(m, kind, before, after).value;
            && (StillApplies(Some(r), kind', version').Some? <==>
                  kind' == kind && version' != "" && version' == if before == "" then after else before)
            && (StillApplies(Some(r), kind', version').Some? ==> StillApplies(Some(r), kind', version') == Some(v))
            && (m.how == PrefillFloor || m.floor == TurnFloor(m.probe.prefill) ==> v.floor == r.floor)
            && (m.how != PrefillFloor || !Measured(m.probe) ==> v.turn == r.turn)
  {
  }

  // ----- Measure, publish, restart --------------------------------------

  /** The whole measurement as one call: screen, else samples, then the record. What is
      published follows from the readings alone, and a restart on the same engine reads
      the same verdict back. */
  method MeasureHost(passes: seq<Pass>, events: seq<Event>, kind: string, before: string, after: string)
    returns (stored: Option<Record>, verdict: Option<Verdict>, used: nat, taken: nat)
    requires |passes| >= 2 && forall i :: 0 <= i < |passes| ==> InOrder(passes[i])
    requires |events| >= STRADDLE_SAMPLES
    ensures 1 <= used <= 2 && taken <= STRADDLE_SAMPLES
    ensures stored.Some? <==> verdict.Some?
    ensures Concludes(passes[used - 1]) ==>
              taken == 0 && verdict.Some? && !verdict.value.meets && verdict.value.how == PrefillFloor
              && forall full: Probe :: NoFaster(full, passes[used - 1]) ==> !Meets(full)
    ensures !Concludes(passes[used - 1]) ==>
              var ps := Usable(events, taken);
              && StoppedRightly(events, taken) && (verdict.Some? <==> ps != [])
              && (verdict.Some? ==> verdict.value.how == EngineCounters)
              && (verdict.Some? ==> (verdict.value.meets <==> 2 * Affording(ps) > |ps|))
    ensures verdict.Some? ==>
              forall version :: version != "" && version == (if before == "" then after else before) ==>
                StillApplies(stored, kind, version) == verdict
  {
    taken := 0;
    var m: Option<Measurement>;
    m, used := Screen(passes);
    if m.Some? {
      forall full: Probe | NoFaster(full, passes[used - 1]) ensures !Meets(full) {
        BelowMeansBelow(passes[used - 1], full);
      }
    } else {
      m, taken := TakeSamples(events);
      MeetingIsAffording(Usable(events, taken));
    }
    stored, verdict := None, None;
    if m.Some? {
      BoundOrMeasured(passes[used - 1], m.value);
      var p := Publish(m.value, kind, before, after);
      if p.Some? {
        stored, verdict := Some(p.value.0), Some(p.value.1);
        forall version | version != "" && version == (if before == "" then after else before)
          ensures StillApplies(stored, kind, version) == verdict
        {
          RereadsAsPublished(m.value, kind, before, after, kind, version);
        }
      }
    }
  }

  /** Either kind of measurement publishes, except a full-depth one that was truncated. */
  lemma BoundOrMeasured(p: Pass, m: Measurement)
    requires InOrder(p)
    ensures ScreenOnce(p) == Below(m) ==>
              forall kind, v0, v1 :: Publish(m, kind, v0, v1).Some? && !Publish(m, kind, v0, v1).value.1.meets
    ensures m.how != PrefillFloor ==>
              forall kind, v0, v1 :: Publish(m, kind, v0, v1).Some? == Measured(m.probe)
  {
    if ScreenOnce(p) == Below(m) {
      BelowMeansBelow(p, m.probe);
    }
  }
}
