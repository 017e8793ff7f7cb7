/** The serve tuning of cmd/waired-agent/inference_ollama_tuning.go: window, KV-cache
    type, flash attention and request slots for one build on one host. */
module OllamaTuning {
  import opened OllamaSizing

  const MAX_AUTO_PARALLEL := 2

  /** The predicted placement the verification pass compares the engine's with. */
  datatype Placement = Placement(cpuWeightMB: int, deviceWeightMB: int, hostWeightsMB: int, layerWeightMB: int)

  const NO_PLACEMENT := Placement(0, 0, 0, 0)

  datatype Window = Window(ctx: int, fits: bool, spill: real, roped: bool, placement: Placement)

  datatype Slots = Slots(num: int, recommended: int)

  datatype Tuning = Tuning(
    modelID: string, variantID: string,
    window: Window, kv: string, flash: bool, slots: Slots,
    kvBytesPerToken: int, warned: bool, degraded: bool)

  /** What the engine was last seen serving; numParallel 0 is "nothing observed". */
  datatype Observed = Observed(modelID: string, variantID: string, ctx: int, numParallel: int)

  const NOTHING_OBSERVED := Observed("", "", 0, 0)

  datatype Opts = Opts(kv: string, ceiling: int, chosen: int, windowWarning: bool, operatorParallel: int,
                       observed: Observed)

  /** The estimator's placement of the build at a KV type and window. */
  type Predictor = (string, int) -> Placement

  // ----- The pieces -----------------------------------------------------

  datatype KVPlan = KVPlan(kv: string, flash: bool)

  /** planOllamaKV: a pin is taken as it is, "auto" is the first type the build allows. */
  function PlanKV(v: Variant, requested: string): (p: KVPlan)
    ensures p.kv != AUTO
    ensures p.flash <==> p.kv != F16
    ensures requested != AUTO ==> p.kv == requested
    ensures requested == AUTO ==> p.kv in KVChoices(v)
  {
    if requested != AUTO then KVPlan(requested, requested != F16)
    else KVPlan(ResolveKV(v, ""), ResolveKV(v, "") != F16)
  }

  function Min(a: int, b: int): int {
    if a < b then a else b
  }

  /** How many full windows the budget holds, at least 1. */
  function RecommendedParallel(maxCtx: int, ctx: int): (n: int)
    ensures n >= 1
    ensures ctx > 0 && n > 1 ==> n * ctx <= maxCtx
    ensures ctx > 0 && maxCtx > 0 ==> maxCtx < (n + 1) * ctx
  {
    if ctx <= 0 || maxCtx <= 0 then 1 else if maxCtx / ctx > 1 then maxCtx / ctx else 1
  }

  /** The observed slot count, only for the same model, build and window. */
  function GrantedFor(o: Observed, m: Manifest, v: Variant, ctx: int): (n: int)
    ensures n >= 0
    ensures n > 0 <==> o.numParallel > 0 && ctx > 0 && o == Observed(m.modelID, v.variantID, ctx, o.numParallel)
    ensures n > 0 ==> n == o.numParallel
  {
    if o.numParallel <= 0 || ctx <= 0 then 0
    else if o.modelID != m.modelID || o.variantID != v.variantID || o.ctx != ctx then 0
    else o.numParallel
  }

  /** Whether that many full-window slots fit the accelerator outright. */
  predicate SlotsFit(v: Variant, h: Host, kv: string, ctx: int, slots: int, maxCtx: int) {
    if v.hasLayout && h.hasGPU && h.vramBudgetMB > 0 then h.deviceMB(kv, ctx, slots) <= h.vramBudgetMB
    else maxCtx >= slots * ctx
  }

  function Capped(s: Slots, limit: int): Slots {
    if limit <= 0 then s else Slots(Min(s.num, limit), Min(s.recommended, limit))
  }

  function Overridden(s: Slots, operator: int, limit: int): Slots {
    if operator <= 0 then s
    else if 0 < limit < operator then s.(num := limit)
    else s.(num := operator)
  }

  /** An override above the recommendation is honoured with a warning. */
  predicate OverrideWarns(s: Slots, operator: int, limit: int) {
    operator > 0 && !(0 < limit < operator) && 0 < s.recommended < operator
  }

  /** The tuning the deferred caps change through a reference. */
  class TuningCell {
    var t: Tuning

    constructor (t0: Tuning)
      ensures t == t0
    {
      t := t0;
    }

    method CapToBuild(limit: int)
      modifies this
      ensures t == old(t).(slots := Capped(old(t.slots), limit))
      ensures limit > 0 ==> t.slots.num <= limit && t.slots.recommended <= limit
    {
      if limit <= 0 {
        return;
      }
      var s := t.slots.(num := Min(t.slots.num, limit));
      if s.recommended > limit {
        s := s.(recommended := limit);
      }
      t := t.(slots := s);
    }

    method FinalizeParallel(operator: int, limit: int)
      modifies this
      ensures t == old(t).(slots := Overridden(old(t.slots), operator, limit),
                           warned := old(t.warned) || OverrideWarns(old(t.slots), operator, limit))
      ensures operator > 0 ==> t.slots.num == (if 0 < limit < operator then limit else operator)
    {
      if operator <= 0 {
        return;
      }
      if limit > 0 && operator > limit {
        t := t.(slots := t.slots.(num := limit));
        return;
      }
      if t.slots.recommended > 0 && operator > t.slots.recommended {
        t := t.(warned := true);
      }
      t := t.(slots := t.slots.(num := operator));
    }
  }

  // ----- The sizing -----------------------------------------------------

  const UNSIZED := Window(0, false, 0.0, false, NO_PLACEMENT)

  function SizedWindow(m: Manifest, h: Host, predict: Predictor, kv: string, p: Plan): Window {
    if p.ctx <= 0 then UNSIZED.(ctx := if m.contextLength >= WINDOW_200K then WINDOW_200K else 0)
    else Window(p.ctx, p.fits, p.spill, p.ctx > m.contextLength && ExtendedContextLength(m) >= p.ctx,
                if h.hasGPU && h.vramBudgetMB > 0 then predict(kv, p.ctx) else NO_PLACEMENT)
  }

  /** Room for a second slot: the top rung, held outright twice over. */
  predicate SecondSlot(m: Manifest, v: Variant, h: Host, kv: string, p: Plan) {
    CeilingWindow(m) > 0 && p.ctx == CeilingWindow(m) && SlotsFit(v, h, kv, p.ctx, MAX_AUTO_PARALLEL, p.maxCtx)
  }

  function SizedSlots(m: Manifest, v: Variant, h: Host, kv: string, p: Plan, observed: Observed): Slots {
    if p.ctx <= 0 || p.spill > 0.0 then Slots(1, 1)
    else
      var s := Slots(if SecondSlot(m, v, h, kv, p) then MAX_AUTO_PARALLEL else 1, RecommendedParallel(p.maxCtx, p.ctx));
      var granted := GrantedFor(observed, m, v, p.ctx);
      if granted > 0 then Slots(Min(s.num, granted), Min(s.recommended, granted)) else s
  }

  predicate SizingWarns(p: Plan) {
    p.ctx > 0 && (p.spill > 0.0 || p.maxCtx < p.ctx)
  }

  function Compute(m: Manifest, v: Variant, h: Host, predict: Predictor, o: Opts): Tuning {
    var kv := PlanKV(v, o.kv);
    var p := PlannedRung(m, v, h, kv.kv, o.ceiling, o.chosen);
    var s := Capped(SizedSlots(m, v, h, kv.kv, p, o.observed), v.maxParallel);
    Tuning(m.modelID, v.variantID, SizedWindow(m, h, predict, kv.kv, p), kv.kv, kv.flash,
           Overridden(s, o.operatorParallel, v.maxParallel), v.kvBytesPerToken,
           o.windowWarning || SizingWarns(p) || OverrideWarns(s, o.operatorParallel, v.maxParallel), false)
  }

  method FillWindow(m: Manifest, h: Host, predict: Predictor, kv: string, p: Plan) returns (w: Window)
    ensures w == SizedWindow(m, h, predict, kv, p)
  {
    w := UNSIZED;
    if p.ctx <= 0 {
      if m.contextLength >= WINDOW_200K {
        w := w.(ctx := WINDOW_200K);
      }
      return;
    }
    w := w.(ctx := p.ctx, fits := p.fits, spill := p.spill);
    if p.ctx > m.contextLength && ExtendedContextLength(m) >= p.ctx {
      w := w.(roped := true);
    }
    if h.hasGPU && h.vramBudgetMB > 0 {
      w := w.(placement := predict(kv, p.ctx));
    }
  }

  method FillSlots(m: Manifest, v: Variant, h: Host, kv: string, p: Plan, observed: Observed) returns (s: Slots)
    ensures s == SizedSlots(m, v, h, kv, p, observed)
  {
    s := Slots(1, 1);
    if p.ctx <= 0 || p.spill > 0.0 {
      return;
    }
    var ceiling := CeilingWindow(m);
    if ceiling > 0 && p.ctx == ceiling && SlotsFit(v, h, kv, p.ctx, MAX_AUTO_PARALLEL, p.maxCtx) {
      s := s.(num := MAX_AUTO_PARALLEL);
    }
    s := s.(recommended := RecommendedParallel(p.maxCtx, p.ctx));
    var granted := GrantedFor(observed, m, v, p.ctx);
    if granted > 0 {
      s := Slots(Min(s.num, granted), Min(s.recommended, granted));
    }
  }

  /** computeOllamaTuningOpts in the shape the source has it: a tuning filled in step
      by step, and the two caps applied at the one exit. */
  method ComputeOllamaTuning(m: Manifest, v: Variant, h: Host, predict: Predictor, o: Opts) returns (t: Tuning)
    ensures t == Compute(m, v, h, predict, o)
  {
    var kv := PlanKV(v, o.kv);
    var p := PlannedRung(m, v, h, kv.kv, o.ceiling, o.chosen);
    var window := FillWindow(m, h, predict, kv.kv, p);
    var slots := FillSlots(m, v, h, kv.kv, p, o.observed);
    var cell := new TuningCell(Tuning(m.modelID, v.variantID, window, kv.kv, kv.flash, slots, v.kvBytesPerToken,
                                      o.windowWarning || SizingWarns(p), false));
    cell.CapToBuild(v.maxParallel);
    cell.FinalizeParallel(o.operatorParallel, v.maxParallel);
    t := cell.t;
  }

  // ----- What the sizing promises ---------------------------------------

  /** Slots, on every branch: at least 1, never above the build's limit; an operator's
      figure is taken up to that limit; without one at most 2, at most what the engine
      was seen granting for this model, build and window, and more than 1 exactly when
      a rung was planned outright at the top of the ladder with room for two full
      windows and neither the build nor the engine said otherwise. */
  lemma SlotCounts(m: Manifest, v: Variant, h: Host, predict: Predictor, o: Opts)
    ensures var t := Compute(m, v, h, predict, o); var limit := v.maxParallel;
            && t.slots.num >= 1 && t.slots.recommended >= 1
            && (limit > 0 ==> t.slots.num <= limit && t.slots.recommended <= limit)
            && (o.operatorParallel > 0 ==>
                  t.slots.num == (if limit > 0 then Min(limit, o.operatorParallel) else o.operatorParallel))
            && (o.operatorParallel <= 0 ==>
                  var granted := GrantedFor(o.observed, m, v, t.window.ctx);
                  var p := PlannedRung(m, v, h, t.kv, o.ceiling, o.chosen);
                  && t.slots.num <= MAX_AUTO_PARALLEL
                  && (granted > 0 ==> t.slots.num <= granted)
                  && (t.slots.num > 1 <==>
                        && p.ctx > 0 && p.spill <= 0.0
                        && t.window.ctx == CeilingWindow(m)
                        && (if v.hasLayout && h.hasGPU && h.vramBudgetMB > 0
                            then h.deviceMB(t.kv, t.window.ctx, 2) <= h.vramBudgetMB
                            else h.capacity(t.kv) >= 2 * t.window.ctx)
                        && (granted > 0 ==> granted > 1)
                        && (limit > 0 ==> limit > 1)))
  {
  }

  /** The KV type is never "auto" and flash attention is on exactly when it is quantised. */
  lemma FlashWithQuantisedCache(m: Manifest, v: Variant, h: Host, predict: Predictor, o: Opts)
    ensures var t := Compute(m, v, h, predict, o);
            && t.kv == PlanKV(v, o.kv).kv && t.kv != AUTO
            && (t.flash <==> t.kv != F16)
  {
  }

  /** The window is a rung of the ladder the person opened, or, when there is nothing
      to size with, the 200k tier for a model that reaches it and none otherwise. */
  predicate ServedBy(m: Manifest, v: Variant, h: Host, ctx: int) {
    || (!Unsizable(v, h) && (ctx in ServedWindows(m) || ctx in ServedWindowsWith(m, WINDOW_1M)))
    || (Unsizable(v, h) && ctx == (if m.contextLength >= WINDOW_200K then WINDOW_200K else 0))
    || (ServedWindows(m) == [] && ctx == 0)
  }

  lemma WindowIsServed(m: Manifest, v: Variant, h: Host, predict: Predictor, o: Opts)
    ensures ServedBy(m, v, h, Compute(m, v, h, predict, o).window.ctx)
  {
    if ServedWindowsWith(m, o.chosen) != [] && !Unsizable(v, h) {
      PlanIsHighestReachable(m, v, h, PlanKV(v, o.kv).kv, o.ceiling, o.chosen);
    }
  }

  /** There was something to size with. */
  predicate Sized(m: Manifest, v: Variant, h: Host, o: Opts) {
    !Unsizable(v, h) && ServedWindowsWith(m, o.chosen) != []
  }

  /** What the window says: it fits exactly when a rung the ceiling keeps is reachable; the
      planned spill is the estimator's share on a card; it is reached by scaling exactly when
      it is longer than the model's own; and it is warned about exactly when the person's
      choice was, when it spills or does not fit outright, or when the operator asks for more
      slots than recommended within the build's limit. */
  lemma WindowMeans(m: Manifest, v: Variant, h: Host, predict: Predictor, o: Opts)
    ensures var t := Compute(m, v, h, predict, o); var w := t.window; var ladder := ServedWindowsWith(m, o.chosen);
            var sized := Sized(m, v, h, o); var carded := h.hasGPU && h.vramBudgetMB > 0;
            && (w.fits <==> sized && exists i :: 0 <= i < |ladder| && Kept(ladder, o.ceiling, i)
                                                 && Reachable(m, h, t.kv, ladder[i]))
            && w.spill == (if sized && carded then h.cpuShare(t.kv, w.ctx) else 0.0)
            && w.placement == (if sized && carded then predict(t.kv, w.ctx) else NO_PLACEMENT)
            && (w.roped <==> sized && w.ctx > m.contextLength)
            && (t.warned <==>
                  || o.windowWarning
                  || (sized && (w.spill > 0.0 || h.capacity(t.kv) < w.ctx))
                  || (t.slots.recommended < o.operatorParallel
                      && (v.maxParallel <= 0 || o.operatorParallel <= v.maxParallel)))
  {
    SlotCounts(m, v, h, predict, o);
    if Sized(m, v, h, o) {
      var t := Compute(m, v, h, predict, o);
      PlanIsHighestReachable(m, v, h, t.kv, o.ceiling, o.chosen);
      LadderRungs(m, o.chosen, t.window.ctx);
    }
  }

  /** Which window: the highest rung the ceiling keeps and the memory reaches, the lowest one
      when it reaches none, and with nothing to size with the 200k tier where the model has it. */
  lemma WindowIsHighest(m: Manifest, v: Variant, h: Host, predict: Predictor, o: Opts)
    ensures var t := Compute(m, v, h, predict, o); var ladder := ServedWindowsWith(m, o.chosen);
            var ctx := t.window.ctx;
            if !Sized(m, v, h, o) then ctx == (if m.contextLength >= WINDOW_200K then WINDOW_200K else 0)
            else if t.window.fits then
              && Reachable(m, h, t.kv, ctx)
              && (exists i :: 0 <= i < |ladder| && ladder[i] == ctx && Kept(ladder, o.ceiling, i))
              && forall i :: 0 <= i < |ladder| && Kept(ladder, o.ceiling, i) && Reachable(m, h, t.kv, ladder[i]) ==>
                   ladder[i] <= ctx
            else ctx == ladder[|ladder| - 1]
  {
    if Sized(m, v, h, o) {
      PlanIsHighestReachable(m, v, h, Compute(m, v, h, predict, o).kv, o.ceiling, o.chosen);
    }
  }

  lemma Scaled(a: int, b: int, ctx: int)
    requires ctx > 0 && a <= b
    ensures a * ctx <= b * ctx
  {
    assert b * ctx - a * ctx == (b - a) * ctx;
  }

  lemma FullWindows(maxCtx: int, ctx: int, n: int)
    requires ctx > 0 && n > 1
    ensures RecommendedParallel(maxCtx, ctx) >= n <==> n * ctx <= maxCtx
  {
    var r := RecommendedParallel(maxCtx, ctx);
    if r >= n {
      Scaled(n, r, ctx);
    } else {
      Scaled(r + 1, n, ctx);
    }
  }

  /** At least n slots are recommended, for n above 1, exactly when a rung was planned outright
      with room for n full windows and neither the engine nor the build said fewer. */
  lemma RecommendedIff(m: Manifest, v: Variant, h: Host, predict: Predictor, o: Opts, n: int)
    requires n > 1
    ensures var t := Compute(m, v, h, predict, o);
            var granted := GrantedFor(o.observed, m, v, t.window.ctx);
            t.slots.recommended >= n <==>
              && Sized(m, v, h, o) && t.window.spill <= 0.0 && n * t.window.ctx <= h.capacity(t.kv)
              && (granted > 0 ==> granted >= n)
              && (v.maxParallel > 0 ==> v.maxParallel >= n)
  {
    if Sized(m, v, h, o) {
      var t := Compute(m, v, h, predict, o);
      PlanIsHighestReachable(m, v, h, t.kv, o.ceiling, o.chosen);
      FullWindows(h.capacity(t.kv), t.window.ctx, n);
    }
  }
}
