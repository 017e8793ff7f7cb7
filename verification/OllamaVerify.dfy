/** The post-load verification of cmd/waired-agent/inference_ollama_verify.go: what the
    engine reported is classified, and on evidence of a bad load the tuning is stepped
    down and the engine restarted once. */
module OllamaVerify {
  import opened OllamaSizing
  import opened OllamaTuning

  datatype Verdict = OK | Inconclusive | F16Fallback | Spill | OKPlannedSpill | VRAMExhausted | GPUNotEngaged

  // ----- The verdict ----------------------------------------------------

  /** llama.cpp's own record of where it put the load. kv "" is "not named". */
  datatype Place = Place(offloadedLayers: int, deviceMiB: real, hostMiB: real, kv: string)

  datatype Probe = NotAsked | Served | OutOfMemory | OtherFailure

  /** What one inspection of the engine found. `NotVisible` is every way of having no
      witness: the process list unreachable, nothing loadable, another model resident. */
  datatype Evidence =
    | NotVisible
    | Loaded(reportedCtx: int, size: int, sizeVRAM: int, place: Option<Place>, probe: Probe,
             hostResidentMiB: Option<real>, tagSize: Option<int>)

  datatype Machine = Machine(unified: bool, gpus: nat) {
    predicate Accelerated() { unified || gpus > 0 }
    predicate Discrete() { !unified && gpus > 0 }
  }

  const F16_DETECT_MIN_MARGIN := 1_500_000_000.0

  function KVFactor(kv: string): real {
    if kv == Q8 then 34.0 / 64.0 else if kv == Q4 then 18.0 / 64.0 else 1.0
  }

  function NotNegative(x: real): real {
    if x < 0.0 then 0.0 else x
  }

  /** Weights the fit moved to system RAM beyond those that always live there. */
  function Moved(p: Placement, place: Place, hostResident: Option<real>): real {
    var fromFile := if p.hostWeightsMB <= 0 && hostResident.Some? && hostResident.value > 0.0
        then hostResident.value else 0.0;
    var hostPlanned := if fromFile > 0.0 then fromFile else p.hostWeightsMB as real;
    NotNegative(if p.deviceWeightMB > 0 && place.deviceMiB > 0.0
                then p.deviceWeightMB as real - fromFile - place.deviceMiB
                else place.hostMiB - hostPlanned)
  }

  function Tolerance(p: Placement, place: Place): real {
    if p.layerWeightMB > 0 then p.layerWeightMB as real else 0.05 * (place.deviceMiB + place.hostMiB)
  }

  /** The loaded size looks like an f16 cache although a quantised one was asked for. */
  predicate LooksF16(t: Tuning, e: Evidence)
    requires e.Loaded?
  {
    && (t.kv == Q8 || t.kv == Q4) && t.window.ctx > 0
    && e.tagSize.Some? && e.tagSize.value > 0
    && var tokens := if e.reportedCtx > 0 then e.reportedCtx else t.window.ctx * t.slots.num;
       var f16 := t.kvBytesPerToken as real * tokens as real;
       var quant := f16 * KVFactor(t.kv);
       && f16 - quant >= F16_DETECT_MIN_MARGIN
       && (e.size - e.tagSize.value) as real > (quant + f16) / 2.0
  }

  /** The window the engine reports is neither the one asked for nor that times the slots. */
  predicate WindowIgnored(t: Tuning, e: Evidence)
    requires e.Loaded?
  {
    t.window.ctx > 0 && e.reportedCtx > 0 && e.reportedCtx != t.window.ctx
        && e.reportedCtx != t.window.ctx * t.slots.num
  }

  predicate ProbeAsked(t: Tuning, hw: Machine) {
    hw.Discrete() && t.window.spill > 0.0
  }

  /** How the moved weights compare with the plan. */
  datatype SpillReading = None_ | Within | Hot | TooMuch

  function ReadSpill(t: Tuning, hw: Machine, e: Evidence): SpillReading
    requires e.Loaded?
  {
    if !hw.Accelerated() || e.place.None? then None_
    else
      var p, place := t.window.placement, e.place.value;
      var moved, tolerance := Moved(p, place, e.hostResidentMiB), Tolerance(p, place);
      var serves := ProbeAsked(t, hw) && e.probe == Served;
      if moved > p.cpuWeightMB as real + tolerance then (if serves then Hot else TooMuch)
      else if t.window.spill > 0.0 && moved > tolerance then Within
      else None_
  }

  /** verifyOllamaTuning: the verdict, and whether its detail is not empty. */
  function Verify(t: Tuning, hw: Machine, e: Evidence): (Verdict, bool) {
    if e.NotVisible? then (Inconclusive, true)
    else if hw.Accelerated() && e.place.Some? && (e.place.value.offloadedLayers == 0
        || e.place.value.deviceMiB == 0.0) then
      (GPUNotEngaged, true)
    else if hw.Discrete() && e.place.None? && e.size > 0 && e.sizeVRAM == 0 then (GPUNotEngaged, true)
    else if ProbeAsked(t, hw) && e.probe == OutOfMemory then (VRAMExhausted, true)
    else
      var spill := ReadSpill(t, hw, e);
      if spill == TooMuch then (Spill, true)
      else if e.place.Some? && e.place.value.kv != "" && t.kv != F16 && t.kv != "" && e.place.value.kv == F16 then
        (F16Fallback, true)
      else if !(e.place.Some? && e.place.value.kv != "") && LooksF16(t, e) then (F16Fallback, true)
      else if !WindowIgnored(t, e) && spill != None_ then (OKPlannedSpill, true)
      else (OK, WindowIgnored(t, e))
  }

  /** What each verdict says about the tuning it was reached for. */
  lemma VerdictMeans(t: Tuning, hw: Machine, e: Evidence)
    ensures var v := Verify(t, hw, e).0;
            && (v == F16Fallback ==> t.kv != F16 && t.kv != "")
            && (v == VRAMExhausted || v == OKPlannedSpill ==> t.window.spill > 0.0)
            && (v == Spill || v == GPUNotEngaged ==> hw.Accelerated())
            && (v == Inconclusive <==> e.NotVisible?)
  {
  }

  /** The device took part in the load and nothing says it ran out of memory. */
  predicate Engaged(t: Tuning, hw: Machine, e: Evidence) {
    && e.Loaded? && !(ProbeAsked(t, hw) && e.probe == OutOfMemory)
    && !(hw.Accelerated() && e.place.Some? && (e.place.value.offloadedLayers == 0 || e.place.value.deviceMiB == 0.0))
    && !(hw.Discrete() && e.place.None? && e.size > 0 && e.sizeVRAM == 0)
  }

  /** Host weights known only from the file, and counted twice by the device plan. */
  predicate FromFile(p: Placement, e: Evidence)
    requires e.Loaded?
  {
    p.hostWeightsMB <= 0 && e.hostResidentMiB.Some? && e.hostResidentMiB.value > 0.0
  }

  /** A load is a spill exactly when an engaged accelerator took on less than planned by more
      than the tolerance, counted on the device where the plan knows its share and on the
      host otherwise, and the card was not seen to serve a prompt all the same. */
  lemma SpillIff(t: Tuning, hw: Machine, e: Evidence)
    ensures Verify(t, hw, e).0 == Spill <==>
              && Engaged(t, hw, e) && hw.Accelerated() && e.place.Some?
              && !(ProbeAsked(t, hw) && e.probe == Served)
              && (var p := t.window.placement; var place := e.place.value;
                  var allowed := p.cpuWeightMB as real + Tolerance(p, place);
                  var file := if FromFile(p, e) then e.hostResidentMiB.value else 0.0;
                  || allowed < 0.0
                  || (if p.deviceWeightMB > 0 && place.deviceMiB > 0.0
                      then place.deviceMiB + file + allowed < p.deviceWeightMB as real
                      else place.hostMiB > allowed + if FromFile(p, e) then file else p.hostWeightsMB as real))
  {
  }

  /** What a cache of this many bytes at f16 would be, per 64 bytes, at the quantised type. */
  function Quantised(kv: string): int {
    if kv == Q8 then 34 else 18
  }

  /** Where the engine does not name its cache, an f16 one is inferred exactly when the two
      types differ by at least 1.5 GB and what the load takes beyond the weights is more than
      halfway from the quantised size to the f16 one. */
  lemma InferredF16Iff(t: Tuning, hw: Machine, e: Evidence)
    requires Engaged(t, hw, e) && !(e.place.Some? && e.place.value.kv != "") && Verify(t, hw, e).0 != Spill
    ensures Verify(t, hw, e).0 == F16Fallback <==>
              && (t.kv == Q8 || t.kv == Q4) && t.window.ctx > 0 && e.tagSize.Some? && e.tagSize.value > 0
              && (var tokens := if e.reportedCtx > 0 then e.reportedCtx else t.window.ctx * t.slots.num;
                  var f16 := t.kvBytesPerToken * tokens;
                  && f16 * (64 - Quantised(t.kv)) >= 96_000_000_000
                  && (e.size - e.tagSize.value) * 128 > f16 * (64 + Quantised(t.kv)))
  {
    SizeDecides(t, hw, e);
    LooksF16Iff(t, e);
  }

  lemma SizeDecides(t: Tuning, hw: Machine, e: Evidence)
    requires Engaged(t, hw, e) && !(e.place.Some? && e.place.value.kv != "") && Verify(t, hw, e).0 != Spill
    ensures Verify(t, hw, e).0 == F16Fallback <==> LooksF16(t, e)
  {
  }

  lemma LooksF16Iff(t: Tuning, e: Evidence)
    requires e.Loaded?
    ensures LooksF16(t, e) <==>
              && (t.kv == Q8 || t.kv == Q4) && t.window.ctx > 0 && e.tagSize.Some? && e.tagSize.value > 0
              && (var tokens := if e.reportedCtx > 0 then e.reportedCtx else t.window.ctx * t.slots.num;
                  var f16 := t.kvBytesPerToken * tokens;
                  && f16 * (64 - Quantised(t.kv)) >= 96_000_000_000
                  && (e.size - e.tagSize.value) * 128 > f16 * (64 + Quantised(t.kv)))
  {
    if (t.kv == Q8 || t.kv == Q4) && e.tagSize.Some? {
      var tokens := if e.reportedCtx > 0 then e.reportedCtx else t.window.ctx * t.slots.num;
      SizesScale(t.kvBytesPerToken * tokens, t.kv, e.size - e.tagSize.value);
      assert (t.kvBytesPerToken * tokens) as real == t.kvBytesPerToken as real * tokens as real;
    }
  }

  /** The thresholds without fractions. */
  lemma SizesScale(f16: int, kv: string, excess: int)
    requires kv == Q8 || kv == Q4
    ensures var quant := f16 as real * KVFactor(kv);
            && (f16 as real - quant >= F16_DETECT_MIN_MARGIN <==> f16 * (64 - Quantised(kv)) >= 96_000_000_000)
            && (excess as real > (quant + f16 as real) / 2.0 <==> excess * 128 > f16 * (64 + Quantised(kv)))
  {
    assert Q8 != Q4 by { assert Q8[1] == '8' && Q4[1] == '4'; }
  }

  /** Where it does name it, the name decides. */
  lemma NamedF16Iff(t: Tuning, hw: Machine, e: Evidence)
    requires Engaged(t, hw, e) && e.place.Some? && e.place.value.kv != "" && Verify(t, hw, e).0 != Spill
    ensures Verify(t, hw, e).0 == F16Fallback <==> e.place.value.kv == F16 && t.kv != F16 && t.kv != ""
  {
  }

  /** The verdicts that end the inspection before any weights are compared. */
  lemma EarlyVerdictsIff(t: Tuning, hw: Machine, e: Evidence)
    ensures Verify(t, hw, e).0 == GPUNotEngaged <==>
              && e.Loaded? && hw.Accelerated()
              && if e.place.Some? then e.place.value.offloadedLayers == 0 || e.place.value.deviceMiB == 0.0
                 else hw.gpus > 0 && !hw.unified && e.size > 0 && e.sizeVRAM == 0
    ensures Verify(t, hw, e).0 == VRAMExhausted <==>
              && e.Loaded? && Verify(t, hw, e).0 != GPUNotEngaged
              && !hw.unified && hw.gpus > 0 && t.window.spill > 0.0 && e.probe == OutOfMemory
  {
  }

  /** The engine serves the window it was asked for, or that times its slots, or does not say. */
  predicate Honoured(t: Tuning, e: Evidence)
    requires e.Loaded?
  {
    t.window.ctx > 0 && e.reportedCtx > 0 ==>
      e.reportedCtx == t.window.ctx || e.reportedCtx == t.window.ctx * t.slots.num
  }

  /** A load that is neither a spill nor an f16 one reads as a planned spill exactly when one
      was planned, the weights moved exceed the tolerance, with or without the planned share on
      top, and the window is the one asked for; otherwise it is plainly fine. */
  lemma PlannedSpillIff(t: Tuning, hw: Machine, e: Evidence)
    requires Engaged(t, hw, e) && Verify(t, hw, e).0 != Spill && Verify(t, hw, e).0 != F16Fallback
    ensures Verify(t, hw, e).0 == OKPlannedSpill || Verify(t, hw, e).0 == OK
    ensures Verify(t, hw, e).0 == OKPlannedSpill <==>
              && hw.Accelerated() && e.place.Some? && t.window.spill > 0.0 && Honoured(t, e)
              && (var p := t.window.placement; var tolerance := Tolerance(p, e.place.value);
                  var moved := Moved(p, e.place.value, e.hostResidentMiB);
                  moved > tolerance || moved > p.cpuWeightMB as real + tolerance)
  {
  }

  /** The one inspection with nothing to say is a plain load at the window asked for. */
  lemma SilentIff(t: Tuning, hw: Machine, e: Evidence)
    ensures !Verify(t, hw, e).1 <==> Verify(t, hw, e).0 == OK && Honoured(t, e)
  {
  }

  // ----- The degrade ladder ---------------------------------------------

  datatype StepKind = NoStep | EnvStep

  function Recompute(m: Manifest, v: Variant, h: Host, predict: Predictor, kv: string, ceiling: int): Tuning {
    Compute(m, v, h, predict, Opts(kv, ceiling, 0, false, 0, NOTHING_OBSERVED))
  }

  /** degradeStep: the configuration below t, if the verdict has one. */
  function DegradeStep(t: Tuning, m: Manifest, v: Variant, h: Host, predict: Predictor, verdict: Verdict): (Tuning,
                       StepKind) {
    match verdict
    case F16Fallback => (Recompute(m, v, h, predict, F16, t.window.ctx), EnvStep)
    case Spill => SpillStep(t, m, v, h, predict)
    case VRAMExhausted => SpillStep(t, m, v, h, predict)
    case _ => (t, NoStep)
  }

  function SpillStep(t: Tuning, m: Manifest, v: Variant, h: Host, predict: Predictor): (Tuning, StepKind) {
    var below := RungBelow(ServedWindows(m), t.window.ctx);
    if below <= 0 then (t, NoStep) else (Recompute(m, v, h, predict, t.kv, below), EnvStep)
  }

  /** A tuning the sizing can have produced for this build on this host. */
  predicate SizedFor(m: Manifest, v: Variant, h: Host, t: Tuning) {
    t.kv != AUTO && ServedBy(m, v, h, t.window.ctx)
  }

  lemma ComputedIsSized(m: Manifest, v: Variant, h: Host, predict: Predictor, o: Opts)
    ensures SizedFor(m, v, h, Compute(m, v, h, predict, o))
  {
    WindowIsServed(m, v, h, predict, o);
  }

  /** The step the pass acts on: there is one and it changes the window or the KV type. */
  predicate Accepted(t: Tuning, next: Tuning, kind: StepKind) {
    kind == EnvStep && (next.window.ctx != t.window.ctx || next.kv != t.kv)
  }

  /** A window nobody had to ask for. */
  predicate OnPlainLadder(m: Manifest, v: Variant, h: Host, ctx: int) {
    ServedBy(m, v, h, ctx) && (ctx in ServedWindows(m) || ServedWindows(m) == [] || Unsizable(v, h))
  }

  /** The planner under a ceiling that is itself a window of the build: never above it. */
  lemma RecomputeStaysBelow(m: Manifest, v: Variant, h: Host, predict: Predictor, kv: string, ctx: int)
    requires ServedBy(m, v, h, ctx) && kv != AUTO
    ensures var next := Recompute(m, v, h, predict, kv, ctx);
            && next.window.ctx <= ctx && next.kv == kv && SizedFor(m, v, h, next)
            && OnPlainLadder(m, v, h, next.window.ctx)
  {
    ComputedIsSized(m, v, h, predict, Opts(kv, ctx, 0, false, 0, NOTHING_OBSERVED));
    if ServedWindows(m) != [] && !Unsizable(v, h) {
      PlanIsHighestReachable(m, v, h, kv, ctx, 0);
      LadderShape(m, 0);
    }
  }

  /** Every accepted step goes down: the window is never raised, and it is lowered or
      a quantised cache is dropped to f16. */
  lemma StepDescends(t: Tuning, m: Manifest, v: Variant, h: Host, predict: Predictor, hw: Machine, e: Evidence)
    requires SizedFor(m, v, h, t)
    ensures var (next, kind) := DegradeStep(t, m, v, h, predict, Verify(t, hw, e).0);
            && SizedFor(m, v, h, next)
            && (kind == EnvStep ==> next.window.ctx <= t.window.ctx && OnPlainLadder(m, v, h, next.window.ctx))
            && (Accepted(t, next, kind) ==>
                  || (next.window.ctx < t.window.ctx && next.kv == t.kv)
                  || (next.window.ctx <= t.window.ctx && t.kv != F16 && next.kv == F16))
  {
    var verdict := Verify(t, hw, e).0;
    VerdictMeans(t, hw, e);
    if verdict == F16Fallback {
      RecomputeStaysBelow(m, v, h, predict, F16, t.window.ctx);
    } else if verdict == Spill || verdict == VRAMExhausted {
      LadderShape(m, 0);
      RungBelowIsNext(ServedWindows(m), t.window.ctx, 0);
      var below := RungBelow(ServedWindows(m), t.window.ctx);
      if below > 0 {
        RecomputeStaysBelow(m, v, h, predict, t.kv, below);
      }
    }
  }

  /** A walk down the ladder: each tuning is the accepted step of the one before,
      under whatever evidence the engine showed. */
  ghost predicate Walk(m: Manifest, v: Variant, h: Host, predict: Predictor, hw: Machine, ts: seq<Tuning>,
                       es: seq<Evidence>) {
    && |ts| == |es| + 1
    && forall i :: 0 <= i < |es| ==>
         var (next, kind) := DegradeStep(ts[i], m, v, h, predict, Verify(ts[i], hw, es[i]).0);
         Accepted(ts[i], next, kind) && ts[i + 1] == next
  }

  /** How many steps a tuning can still take. */
  function Height(m: Manifest, t: Tuning): nat {
    (if RungBelow(ServedWindows(m), t.window.ctx) > 0 then 1 else 0) + (if t.kv != F16 then 1 else 0)
  }

  /** Below a window of the build, the plain ladder has at most the last rung left. */
  lemma RungsLeft(m: Manifest, v: Variant, h: Host, lower: int, upper: int)
    requires ServedBy(m, v, h, upper) && OnPlainLadder(m, v, h, lower) && lower <= upper
    ensures RungBelow(ServedWindows(m), lower) > 0 ==> RungBelow(ServedWindows(m), upper) > 0
    ensures lower < upper && RungBelow(ServedWindows(m), upper) > 0 ==> RungBelow(ServedWindows(m), lower) == 0
  {
    LadderShape(m, 0);
    RungBelowIsNext(ServedWindows(m), lower, 0);
    RungBelowIsNext(ServedWindows(m), upper, 0);
  }

  lemma StepLowersHeight(t: Tuning, m: Manifest, v: Variant, h: Host, predict: Predictor, hw: Machine, e: Evidence)
    requires SizedFor(m, v, h, t)
    ensures var (next, kind) := DegradeStep(t, m, v, h, predict, Verify(t, hw, e).0);
            Accepted(t, next, kind) ==> Height(m, next) < Height(m, t)
  {
    var verdict := Verify(t, hw, e).0;
    var (next, kind) := DegradeStep(t, m, v, h, predict, verdict);
    StepDescends(t, m, v, h, predict, hw, e);
    if Accepted(t, next, kind) {
      RungsLeft(m, v, h, next.window.ctx, t.window.ctx);
      if next.kv == t.kv {
        assert RungBelow(ServedWindows(m), t.window.ctx) > 0;
      }
    }
  }

  /** From any sized tuning the ladder is spent after at most two accepted steps,
      whatever the engine shows: one down the window rungs and one to f16. */
  lemma {:induction false} WalkIsShort(m: Manifest, v: Variant, h: Host, predict: Predictor, hw: Machine,
                                       ts: seq<Tuning>, es: seq<Evidence>)
    requires Walk(m, v, h, predict, hw, ts, es) && SizedFor(m, v, h, ts[0])
    ensures |es| <= Height(m, ts[0]) <= 2
    ensures forall i :: 0 <= i < |ts| ==> SizedFor(m, v, h, ts[i]) && ts[i].window.ctx <= ts[0].window.ctx
    decreases |es|
  {
    if |es| > 0 {
      StepDescends(ts[0], m, v, h, predict, hw, es[0]);
      StepLowersHeight(ts[0], m, v, h, predict, hw, es[0]);
      WalkIsShort(m, v, h, predict, hw, ts[1..], es[1..]);
      forall i | 0 <= i < |ts| ensures SizedFor(m, v, h, ts[i]) && ts[i].window.ctx <= ts[0].window.ctx {
        if i > 0 {
          assert ts[i] == ts[1..][i - 1];
        }
      }
    }
  }

  /** After a step to f16 the f16 verdict cannot come back. */
  lemma F16NeverRecurs(m: Manifest, v: Variant, h: Host, predict: Predictor, hw: Machine, ts: seq<Tuning>,
                       es: seq<Evidence>, i: nat, j: nat)
    requires Walk(m, v, h, predict, hw, ts, es) && SizedFor(m, v, h, ts[0])
    requires i < j < |es| && Verify(ts[i], hw, es[i]).0 == F16Fallback
    ensures ts[j].kv == F16 && Verify(ts[j], hw, es[j]).0 != F16Fallback
  {
    WalkIsShort(m, v, h, predict, hw, ts, es);
    assert j == i + 1;
    RecomputeStaysBelow(m, v, h, predict, F16, ts[i].window.ctx);
    VerdictMeans(ts[j], hw, es[j]);
  }

  // ----- The pass -------------------------------------------------------

  datatype Event =
    | SetEnv(t: Tuning)
    | Stopped(ok: bool)
    | Started(ok: bool)
    | Recorded(t: Tuning, verified: bool)

  /** The adapter the pass drives, by the calls it receives. */
  class Engine {
    var log: seq<Event>

    constructor ()
      ensures log == []
    {
      log := [];
    }

    method SetModelEnv(t: Tuning)
      modifies this
      ensures log == old(log) + [SetEnv(t)]
    {
      log := log + [SetEnv(t)];
    }

    method Stop(ok: bool)
      modifies this
      ensures log == old(log) + [Stopped(ok)]
    {
      log := log + [Stopped(ok)];
    }

    method EnsureRunning(ok: bool)
      modifies this
      ensures log == old(log) + [Started(ok)]
    {
      log := log + [Started(ok)];
    }

    method SetAppliedTuning(t: Tuning, verified: bool)
      modifies this
      ensures log == old(log) + [Recorded(t, verified)]
    {
      log := log + [Recorded(t, verified)];
    }
  }

  function Latched(t: Tuning): Tuning {
    t.(degraded := true, window := t.window.(fits := false))
  }

  /** The outcomes the pass does not control: the two inspections, the stop, the start. */
  datatype World = World(first: Evidence, second: Evidence, stopOk: bool, startOk: bool)

  /** What the pass does, as the calls the engine receives. */
  function PassLog(t: Tuning, next: Tuning, kind: StepKind, verdict: Verdict, verdict2: Verdict, w: World): seq<Event> {
    match verdict
    case Inconclusive => [Recorded(t, false)]
    case OK => [Recorded(t, true)]
    case OKPlannedSpill => [Recorded(t, true)]
    case GPUNotEngaged => [Recorded(t.(degraded := true), true)]
    case _ =>
      if !Accepted(t, next, kind) then [Recorded(Latched(t), true)]
      else RestartLog(t, next, verdict2, w)
  }

  /** The restart onto the next tuning and what is recorded after it. */
  function RestartLog(t: Tuning, next: Tuning, verdict2: Verdict, w: World): seq<Event> {
    if !w.stopOk then [SetEnv(next), Stopped(false), Recorded(t, true)]
    else if !w.startOk then [SetEnv(next), Stopped(true), Started(false), Recorded(next, true)]
    else [SetEnv(next), Stopped(true), Started(true),
          match verdict2
          case OK => Recorded(next, true)
          case Inconclusive => Recorded(next, false)
          case _ => Recorded(Latched(next), true)]
  }

  method Restart(sw: Engine, t: Tuning, next: Tuning, verdict2: Verdict, w: World)
    modifies sw
    ensures sw.log == old(sw.log) + RestartLog(t, next, verdict2, w)
  {
    sw.SetModelEnv(next);
    sw.Stop(w.stopOk);
    if !w.stopOk {
      sw.SetAppliedTuning(t, true);
      return;
    }
    sw.EnsureRunning(w.startOk);
    if !w.startOk {
      sw.SetAppliedTuning(next, true);
      return;
    }
    match verdict2 {
      case OK => sw.SetAppliedTuning(next, true);
      case Inconclusive => sw.SetAppliedTuning(next, false);
      case _ => sw.SetAppliedTuning(Latched(next), true);
    }
  }

  /** The part of the pass after both verdicts and the step are known. */
  method Act(sw: Engine, t: Tuning, next: Tuning, kind: StepKind, verdict: Verdict, verdict2: Verdict, w: World)
    modifies sw
    ensures sw.log == old(sw.log) + PassLog(t, next, kind, verdict, verdict2, w)
  {
    match verdict {
      case Inconclusive => sw.SetAppliedTuning(t, false); return;
      case OK => sw.SetAppliedTuning(t, true); return;
      case OKPlannedSpill => sw.SetAppliedTuning(t, true); return;
      case GPUNotEngaged => sw.SetAppliedTuning(t.(degraded := true), true); return;
      case _ =>
    }
    if kind == NoStep || (next.window.ctx == t.window.ctx && next.kv == t.kv) {
      sw.SetAppliedTuning(Latched(t), true);
      return;
    }
    Restart(sw, t, next, verdict2, w);
  }

  /** What applyOllamaTuningVerification does to the engine. */
  function Pass(t: Tuning, m: Manifest, v: Variant, h: Host, predict: Predictor, hw: Machine, w: World): seq<Event> {
    var verdict := Verify(t, hw, w.first).0;
    var (next, kind) := DegradeStep(t, m, v, h, predict, verdict);
    PassLog(t, next, kind, verdict, Verify(next, hw, w.second).0, w)
  }

  method ApplyVerification(sw: Engine, t: Tuning, m: Manifest, v: Variant, h: Host, predict: Predictor, hw: Machine,
                           w: World)
    modifies sw
    ensures sw.log == old(sw.log) + Pass(t, m, v, h, predict, hw, w)
  {
    var verdict := Verify(t, hw, w.first).0;
    var (next, kind) := DegradeStep(t, m, v, h, predict, verdict);
    Act(sw, t, next, kind, verdict, Verify(next, hw, w.second).0, w);
  }

  function Last(log: seq<Event>): Event
    requires log != []
  {
    log[|log| - 1]
  }

  /** One record, last; at most one stop and one start, in order. */
  ghost predicate WellOrdered(log: seq<Event>) {
    && log != []
    && (forall i :: 0 <= i < |log| ==> (log[i].Recorded? <==> i == |log| - 1))
    && (forall i, j :: 0 <= i < |log| && 0 <= j < |log| && log[i].Stopped? && log[j].Stopped? ==> i == j)
    && (forall i, j :: 0 <= i < |log| && 0 <= j < |log| && log[i].Started? && log[j].Started? ==> i == j)
    && (forall i :: 0 <= i < |log| && log[i].Stopped? ==> i > 0 && log[i - 1].SetEnv?)
    && (forall i :: 0 <= i < |log| && log[i].Started? ==> i > 0 && log[i - 1] == Stopped(true))
  }

  predicate SameServe(t: Tuning, u: Tuning) {
    t.window.ctx == u.window.ctx && t.kv == u.kv
  }

  lemma PassLogShape(t: Tuning, next: Tuning, kind: StepKind, verdict: Verdict, verdict2: Verdict, w: World)
    requires kind == EnvStep ==> next.window.ctx <= t.window.ctx
    ensures var log := PassLog(t, next, kind, verdict, verdict2, w);
            && WellOrdered(log)
            && Last(log).t.window.ctx <= t.window.ctx
            && (forall i :: 0 <= i < |log| && log[i].SetEnv? ==>
                  (SameServe(log[i].t, Last(log).t) <==> Stopped(false) !in log))
  {
    var log := PassLog(t, next, kind, verdict, verdict2, w);
    if |log| > 1 {
      RestartShape(t, next, verdict2, w);
    }
  }

  lemma RestartShape(t: Tuning, next: Tuning, verdict2: Verdict, w: World)
    ensures var log := RestartLog(t, next, verdict2, w);
            && WellOrdered(log)
            && SameServe(Last(log).t, if w.stopOk then next else t)
            && (Stopped(false) in log <==> !w.stopOk)
            && (forall i :: 0 <= i < |log| && log[i].SetEnv? ==> log[i].t == next)
  {
    var log := RestartLog(t, next, verdict2, w);
    assert log[1] == Stopped(w.stopOk);
  }

  /** Every path of the pass: one record, and it is the last call; at most one stop and
      one start, the start only behind a stop that succeeded and the stop only behind
      the new environment; the window recorded is never above the one it came in with;
      and the environment left on the engine is the recorded tuning's unless the stop failed. */
  lemma EveryPathRecordsOnce(t: Tuning, m: Manifest, v: Variant, h: Host, predict: Predictor, hw: Machine, w: World)
    requires SizedFor(m, v, h, t)
    ensures var log := Pass(t, m, v, h, predict, hw, w);
            && WellOrdered(log)
            && Last(log).t.window.ctx <= t.window.ctx
            && (forall i :: 0 <= i < |log| && log[i].SetEnv? ==>
                  (SameServe(log[i].t, Last(log).t) <==> Stopped(false) !in log))
  {
    var verdict := Verify(t, hw, w.first).0;
    var (next, kind) := DegradeStep(t, m, v, h, predict, verdict);
    StepDescends(t, m, v, h, predict, hw, w.first);
    PassLogShape(t, next, kind, verdict, Verify(next, hw, w.second).0, w);
  }

  // ----- The step is taken ----------------------------------------------

  /** A load that spills is stepped down whenever the ladder goes further down: the engine is
      set to a window no higher than the highest rung below, at the same KV type. At the
      bottom the tuning is recorded as degraded and the engine is left alone. */
  lemma SpillStepsDown(t: Tuning, m: Manifest, v: Variant, h: Host, predict: Predictor, hw: Machine, w: World)
    requires SizedFor(m, v, h, t)
    requires Verify(t, hw, w.first).0 == Spill || Verify(t, hw, w.first).0 == VRAMExhausted
    ensures var log := Pass(t, m, v, h, predict, hw, w); var rungs := ServedWindows(m);
            if RungsBelow(rungs, t.window.ctx)
            then log[0].SetEnv? && log[0].t.kv == t.kv && NextRungDown(rungs, t.window.ctx, log[0].t.window.ctx)
            else log == [Recorded(Latched(t), true)]
  {
    var verdict := Verify(t, hw, w.first).0;
    var (next, kind) := DegradeStep(t, m, v, h, predict, verdict);
    SpillNext(t, m, v, h, predict);
    SteppedLog(t, next, kind, verdict, Verify(next, hw, w.second).0, w);
  }

  lemma SteppedLog(t: Tuning, next: Tuning, kind: StepKind, verdict: Verdict, verdict2: Verdict, w: World)
    requires Bad(verdict)
    ensures var log := PassLog(t, next, kind, verdict, verdict2, w);
            && (kind == EnvStep && next.window.ctx < t.window.ctx ==> log[0] == SetEnv(next))
            && (kind == NoStep ==> log == [Recorded(Latched(t), true)])
  {
  }

  lemma SpillNext(t: Tuning, m: Manifest, v: Variant, h: Host, predict: Predictor)
    requires SizedFor(m, v, h, t)
    ensures var (next, kind) := SpillStep(t, m, v, h, predict); var rungs := ServedWindows(m);
            if RungsBelow(rungs, t.window.ctx)
            then kind == EnvStep && next.kv == t.kv && NextRungDown(rungs, t.window.ctx, next.window.ctx)
            else kind == NoStep
  {
    var rungs := ServedWindows(m);
    var below := RungBelow(rungs, t.window.ctx);
    LadderShape(m, 0);
    BelowIsNext(rungs, t.window.ctx);
    if below > 0 {
      RecomputeStaysBelow(m, v, h, predict, t.kv, below);
      assert SpillStep(t, m, v, h, predict).0.window.ctx <= below;
    }
  }

  lemma BelowIsNext(rungs: seq<int>, ctx: int)
    requires StrictlyDescending(rungs) && forall i :: 0 <= i < |rungs| ==> rungs[i] > 0
    ensures RungsBelow(rungs, ctx) <==> RungBelow(rungs, ctx) > 0
    ensures RungsBelow(rungs, ctx) ==> forall n :: n <= RungBelow(rungs, ctx) ==> NextRungDown(rungs, ctx, n)
  {
    RungBelowIsNext(rungs, ctx, 0);
  }

  ghost predicate RungsBelow(rungs: seq<int>, ctx: int) {
    exists i :: 0 <= i < |rungs| && rungs[i] < ctx
  }

  /** At most the highest rung below the window. */
  ghost predicate NextRungDown(rungs: seq<int>, ctx: int, next: int) {
    && next < ctx
    && exists i :: 0 <= i < |rungs| && next <= rungs[i] < ctx
                   && forall j :: 0 <= j < |rungs| && rungs[j] < ctx ==> rungs[j] <= rungs[i]
  }

  /** An f16 cache under a quantised tuning always sets the engine to f16, at no higher a
      window: this step never finds the bottom. */
  lemma F16StepsToF16(t: Tuning, m: Manifest, v: Variant, h: Host, predict: Predictor, hw: Machine, w: World)
    requires SizedFor(m, v, h, t) && Verify(t, hw, w.first).0 == F16Fallback
    ensures var log := Pass(t, m, v, h, predict, hw, w);
            && t.kv != F16
            && log[0].SetEnv? && log[0].t.kv == F16 && !log[0].t.flash && log[0].t.window.ctx <= t.window.ctx
  {
    VerdictMeans(t, hw, w.first);
    RecomputeStaysBelow(m, v, h, predict, F16, t.window.ctx);
    FlashWithQuantisedCache(m, v, h, predict, Opts(F16, t.window.ctx, 0, false, 0, NOTHING_OBSERVED));
  }

  /** The engine is touched exactly when the first inspection asks for a step and there is
      one: any other verdict leaves it running as it is. */
  lemma TouchedIff(t: Tuning, m: Manifest, v: Variant, h: Host, predict: Predictor, hw: Machine, w: World)
    requires SizedFor(m, v, h, t)
    ensures var verdict := Verify(t, hw, w.first).0; var rungs := ServedWindows(m);
            |Pass(t, m, v, h, predict, hw, w)| > 1 <==>
              || verdict == F16Fallback
              || ((verdict == Spill || verdict == VRAMExhausted) && RungsBelow(rungs, t.window.ctx))
  {
    var verdict := Verify(t, hw, w.first).0;
    if verdict == F16Fallback {
      F16StepsToF16(t, m, v, h, predict, hw, w);
    } else if verdict == Spill || verdict == VRAMExhausted {
      SpillStepsDown(t, m, v, h, predict, hw, w);
    }
  }

  /** What the record says of the load: it is verified unless the inspection that counts could
      not see one, and it is the tuning the engine was left on. */
  lemma RecordMeans(t: Tuning, m: Manifest, v: Variant, h: Host, predict: Predictor, hw: Machine, w: World)
    requires SizedFor(m, v, h, t)
    ensures var log := Pass(t, m, v, h, predict, hw, w);
            var restarted := Started(true) in log; var stopped := Stopped(true) in log;
            && (Last(log).verified <==> !(if restarted then w.second else w.first).NotVisible?)
            && SameServe(Last(log).t, if stopped then log[0].t else t)
            && (restarted <==> |log| > 1 && w.stopOk && w.startOk)
            && (stopped <==> |log| > 1 && w.stopOk)
  {
    var verdict := Verify(t, hw, w.first).0;
    var (next, kind) := DegradeStep(t, m, v, h, predict, verdict);
    var verdict2 := Verify(next, hw, w.second).0;
    VerdictMeans(t, hw, w.first);
    VerdictMeans(next, hw, w.second);
    LogIs(t, next, kind, verdict, verdict2, w);
    LogHolds(t, next, kind, verdict, verdict2, w);
  }

  lemma LogHolds(t: Tuning, next: Tuning, kind: StepKind, verdict: Verdict, verdict2: Verdict, w: World)
    ensures var log := PassLog(t, next, kind, verdict, verdict2, w);
            && (Started(true) in log <==> |log| == 4 && w.startOk)
            && (Stopped(true) in log <==> |log| == 4)
  {
    var log := PassLog(t, next, kind, verdict, verdict2, w);
    if |log| == 4 {
      assert log[1] == Stopped(true) && log[2] == Started(w.startOk);
    }
  }

  /** The calls by position, for a log of any length. */
  lemma LogIs(t: Tuning, next: Tuning, kind: StepKind, verdict: Verdict, verdict2: Verdict, w: World)
    ensures var log := PassLog(t, next, kind, verdict, verdict2, w);
            && (|log| == 1 || |log| == 3 || |log| == 4)
            && (|log| > 1 ==> Bad(verdict) && log[0] == SetEnv(next) && log[1] == Stopped(w.stopOk))
            && (|log| == 3 <==> |log| > 1 && !w.stopOk)
            && (|log| == 4 ==> log[2] == Started(w.startOk))
            && Last(log).Recorded?
            && (Last(log).verified <==> (if |log| == 4 && w.startOk then verdict2 else verdict) != Inconclusive)
            && SameServe(Last(log).t, if |log| == 4 then next else t)
  {
  }

  /** The verdicts that ask for a step down. */
  predicate Bad(v: Verdict) {
    v == F16Fallback || v == Spill || v == VRAMExhausted
  }

  /** Which tuning is recorded as degraded, by the two inspections: no GPU, no step left, or
      a step that did not read as plainly OK or unreadable after the restart. */
  lemma DegradedMeans(t: Tuning, m: Manifest, v: Variant, h: Host, predict: Predictor, hw: Machine, w: World)
    requires SizedFor(m, v, h, t) && !t.degraded
    ensures var verdict := Verify(t, hw, w.first).0;
            var (next, kind) := DegradeStep(t, m, v, h, predict, verdict);
            var verdict2 := Verify(next, hw, w.second).0;
            Last(Pass(t, m, v, h, predict, hw, w)).t.degraded <==>
              || verdict == GPUNotEngaged
              || (Bad(verdict) && !Accepted(t, next, kind))
              || (Bad(verdict) && Accepted(t, next, kind) && w.stopOk && w.startOk
                  && verdict2 != OK && verdict2 != Inconclusive)
    ensures var last := Last(Pass(t, m, v, h, predict, hw, w)).t;
            last.degraded && Verify(t, hw, w.first).0 != GPUNotEngaged ==> !last.window.fits
  {
  }

  // ----- A planned spill after the restart ------------------------------

  /** Evidence an engine can show: the sizes it logs are not negative. */
  predicate Physical(e: Evidence) {
    e.Loaded? && e.place.Some? ==> e.place.value.deviceMiB >= 0.0 && e.place.value.hostMiB >= 0.0
  }

  /** Whether some inspection of this tuning on this machine can read as a planned spill:
      one was planned, the machine allows for it, and a load can lack more device weights
      than the tolerance forgives. */
  predicate SpillReadable(t: Tuning, hw: Machine) {
    var p := t.window.placement;
    && t.window.spill > 0.0
    && (hw.Discrete() || (hw.unified && p.cpuWeightMB > 0))
    && (p.deviceWeightMB <= 0 || p.layerWeightMB <= 0 || p.deviceWeightMB > p.layerWeightMB + Min(p.cpuWeightMB, 0))
  }

  lemma ReadableOnlyIf(t: Tuning, hw: Machine, e: Evidence)
    requires Physical(e) && Verify(t, hw, e).0 == OKPlannedSpill
    ensures SpillReadable(t, hw)
  {
  }

  /** The inspection of a load with these figures, serving, its cache named as quantised. */
  function Shown(deviceMiB: real, hostMiB: real, hostResident: Option<real>): Evidence {
    Loaded(0, 0, 0, Some(Place(1, deviceMiB, hostMiB, Q8)), Served, hostResident, None)
  }

  /** Such a load reads as a planned spill when it exceeds the tolerance within the plan, or
      exceeds the plan on a discrete card that serves all the same. */
  lemma ShownReads(t: Tuning, hw: Machine, device: real, host: real, resident: Option<real>)
    requires t.window.spill > 0.0 && hw.Accelerated() && device > 0.0 && host >= 0.0
    requires var p := t.window.placement; var place := Place(1, device, host, Q8);
             var moved, tolerance := Moved(p, place, resident), Tolerance(p, place);
             || tolerance < moved <= p.cpuWeightMB as real + tolerance
             || (hw.Discrete() && moved > p.cpuWeightMB as real + tolerance)
    ensures Physical(Shown(device, host, resident)) && Verify(t, hw, Shown(device, host, resident)).0 == OKPlannedSpill
  {
  }

  /** How far past the tolerance the witness goes: within the plan when there is one. */
  function Excess(p: Placement, room: real): real {
    if p.cpuWeightMB > 0 && (p.cpuWeightMB as real) < room then p.cpuWeightMB as real else room
  }

  lemma ReadableWithDevicePlan(t: Tuning, hw: Machine) returns (e: Evidence)
    requires SpillReadable(t, hw) && t.window.placement.deviceWeightMB > 0
    ensures Physical(e) && Verify(t, hw, e).0 == OKPlannedSpill
  {
    var p := t.window.placement;
    var d, l, c := p.deviceWeightMB as real, p.layerWeightMB as real, p.cpuWeightMB as real;
    var moved: real;
    if p.layerWeightMB <= 0 {
      var x := Excess(p, d / 2.0);
      var device := (d - x) / 1.05;
      assert device + 0.05 * device == d - x;
      e := Shown(device, 0.0, None);
      ShownReads(t, hw, device, 0.0, None);
    } else {
      if p.deviceWeightMB > p.layerWeightMB {
        moved := l + Excess(p, (d - l) / 2.0);
      } else if l + c < 0.0 {
        moved := 0.0;
      } else {
        moved := (l + c + d) / 2.0;
      }
      e := Shown(d - moved, 0.0, None);
      ShownReads(t, hw, d - moved, 0.0, None);
    }
  }

  lemma ReadableWithoutDevicePlan(t: Tuning, hw: Machine) returns (e: Evidence)
    requires SpillReadable(t, hw) && t.window.placement.deviceWeightMB <= 0
    ensures Physical(e) && Verify(t, hw, e).0 == OKPlannedSpill
  {
    var p := t.window.placement;
    var resident := if p.hostWeightsMB <= 0 then Some(1.0) else None;
    var planned := if p.hostWeightsMB <= 0 then 1.0 else p.hostWeightsMB as real;
    var x := Excess(p, 1.0);
    var host: real;
    if p.layerWeightMB > 0 {
      host := planned + p.layerWeightMB as real + x;
    } else {
      host := (planned + 0.05 + x) / 0.95;
      assert host - 0.05 * host == planned + 0.05 + x;
    }
    e := Shown(1.0, host, resident);
    ShownReads(t, hw, 1.0, host, resident);
  }

  /** Some inspection reads as a planned spill exactly when the tuning and the machine allow it. */
  lemma ReadableIff(t: Tuning, hw: Machine)
    ensures (exists e :: Physical(e) && Verify(t, hw, e).0 == OKPlannedSpill) <==> SpillReadable(t, hw)
  {
    if e :| Physical(e) && Verify(t, hw, e).0 == OKPlannedSpill {
      ReadableOnlyIf(t, hw, e);
    }
    if SpillReadable(t, hw) {
      var e;
      if t.window.placement.deviceWeightMB > 0 {
        e := ReadableWithDevicePlan(t, hw);
      } else {
        e := ReadableWithoutDevicePlan(t, hw);
      }
      assert Physical(e);
    }
  }

  /** The reading that is fine on a first inspection is recorded as degraded behind a restart. */
  lemma SameReadingTwoRecords(t: Tuning, m: Manifest, v: Variant, h: Host, predict: Predictor, hw: Machine,
                              w: World, again: World)
    requires var (next, kind) := DegradeStep(t, m, v, h, predict, Verify(t, hw, w.first).0);
             Accepted(t, next, kind) && w.stopOk && w.startOk && again.first == w.second
             && Verify(next, hw, w.second).0 == OKPlannedSpill
    ensures var next := DegradeStep(t, m, v, h, predict, Verify(t, hw, w.first).0).0;
            && Last(Pass(t, m, v, h, predict, hw, w)) == Recorded(Latched(next), true)
            && Pass(next, m, v, h, predict, hw, again) == [Recorded(next, true)]
  {
  }

  /** Behind an accepted step that restarts, a planned spill can be recorded as degraded
      exactly when the stepped tuning and the machine make it readable: nothing about the
      second inspection is needed to tell. */
  lemma RestartDegradesPlannedSpillIff(t: Tuning, m: Manifest, v: Variant, h: Host, predict: Predictor, hw: Machine,
                                       first: Evidence)
    requires var (next, kind) := DegradeStep(t, m, v, h, predict, Verify(t, hw, first).0); Accepted(t, next, kind)
    ensures var next := DegradeStep(t, m, v, h, predict, Verify(t, hw, first).0).0;
            (exists e :: Physical(e) && Verify(next, hw, e).0 == OKPlannedSpill
               && Last(Pass(t, m, v, h, predict, hw, World(first, e, true, true))) == Recorded(Latched(next), true))
            <==> SpillReadable(next, hw)
  {
    var next := DegradeStep(t, m, v, h, predict, Verify(t, hw, first).0).0;
    ReadableIff(next, hw);
    forall e | Physical(e) && Verify(next, hw, e).0 == OKPlannedSpill
      ensures Last(Pass(t, m, v, h, predict, hw, World(first, e, true, true))) == Recorded(Latched(next), true)
    {
      var w := World(first, e, true, true);
      SameReadingTwoRecords(t, m, v, h, predict, hw, w, World(e, e, true, true));
    }
  }

  /** One host where it happens: q8_0 fits outright, the engine falls back to f16, and at f16
      the window is reached by the spill the planner allows. */
  function ExampleHost(): Host {
    Host(true, true, 20000, 64000,
         kv => if kv == Q8 then 300000 else 150000,
         kv => 0,
         (kv, ctx) => if kv == F16 then 0.1 else 0.0,
         (kv, ctx, slots) => 30000)
  }

  function ExamplePlacement(kv: string, ctx: int): Placement {
    if kv == F16 then Placement(2000, 18000, 500, 400) else Placement(0, 20000, 500, 400)
  }

  const EXAMPLE_MODEL := Manifest("m", 262144, None)
  const EXAMPLE_BUILD := Variant("v", 0, [], 18.0, 65536, true)

  function ExampleTuning(kv: string, ceiling: int): Tuning {
    Compute(EXAMPLE_MODEL, EXAMPLE_BUILD, ExampleHost(), ExamplePlacement, Opts(kv, ceiling, 0, false, 0,
        NOTHING_OBSERVED))
  }

  lemma ExampleSized(kv: string, ceiling: int)
    requires (kv == Q8 && ceiling == 0) || (kv == F16 && ceiling == WINDOW_200K)
    ensures var t := ExampleTuning(kv, ceiling);
            && t.window.ctx == WINDOW_200K && t.kv == kv && !t.degraded
            && t.window.placement == ExamplePlacement(kv, WINDOW_200K)
            && t.window.spill == (if kv == F16 then 0.1 else 0.0)
  {
    assert ServedWindowsWith(EXAMPLE_MODEL, 0) == [WINDOW_200K];
    assert Q8 != F16 && Q8 != AUTO && F16 != AUTO by {
      assert |Q8| == 4 && |F16| == 3 && Q8[0] == 'q' && AUTO[0] == 'a';
    }
  }

  /** The whole pass on that host: the planned spill it restarts into is recorded as degraded. */
  lemma PlannedSpillAfterRestartExample()
    ensures var t := ExampleTuning(Q8, 0);
            var f16 := Loaded(0, 0, 0, Some(Place(33, 20000.0, 500.0, F16)), NotAsked, None, None);
            var spilled := Loaded(0, 0, 0, Some(Place(30, 16500.0, 2000.0, F16)), Served, None, None);
            var hw := Machine(false, 1);
            var next := ExampleTuning(F16, WINDOW_200K);
            && Verify(t, hw, f16).0 == F16Fallback && Verify(next, hw, spilled).0 == OKPlannedSpill
            && Pass(t, EXAMPLE_MODEL, EXAMPLE_BUILD, ExampleHost(), ExamplePlacement, hw, World(f16, spilled, true,
                true))
               == [SetEnv(next), Stopped(true), Started(true), Recorded(Latched(next), true)]
  {
    ExampleSized(Q8, 0);
    ExampleSized(F16, WINDOW_200K);
    assert Q8 != F16 by { assert |Q8| == 4 && |F16| == 3; }
  }
}
