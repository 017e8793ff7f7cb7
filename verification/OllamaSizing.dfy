/** Which window and which KV-cache type a host serves a model at
    (proto/hostfit/window.go, proto/hostfit/kvcache.go, proto/catalog/rope_scaling.go). */
module OllamaSizing {
  const WINDOW_200K: int := 200704
  const WINDOW_1M: int := 1048576

  const F16 := "f16"
  const Q8 := "q8_0"
  const Q4 := "q4_0"
  const AUTO := "auto"

  datatype Option<T> = None | Some(value: T)

  datatype RopeScaling = RopeScaling(factor: real, original: int)

  datatype Manifest = Manifest(modelID: string, contextLength: int, rope: Option<RopeScaling>)

  datatype Variant = Variant(variantID: string, maxParallel: int, kvTypes: seq<string>,
                             weightGB: real, kvBytesPerToken: int, hasLayout: bool)

  /** What the memory estimator answers for one build on one host: the accelerator's
      budget, system RAM after the operating system's share, the tokens that fit
      outright with and without the card, the predicted share of weights in system
      RAM, and the device memory one load takes. */
  datatype Host = Host(
    hasGPU: bool, discrete: bool, vramBudgetMB: int, ramMB: nat,
    capacity: string -> int, cardless: string -> int,
    cpuShare: (string, int) -> real, deviceMB: (string, int, int) -> int)

  // ----- The ladder of served windows -----------------------------------

  /** The window the model's published rope scaling reaches beyond its own; 0 for none. */
  function ExtendedContextLength(m: Manifest): (n: int)
    ensures n == 0 || m.contextLength < n <= 0x7FFF_FFFF
  {
    if m.rope.None? || m.rope.value.factor <= 1.0 || m.rope.value.original <= 0 then 0
    else
      var reach := m.rope.value.factor * m.rope.value.original as real;
      if reach > 2147483647.0 then 0
      else if reach.Floor <= m.contextLength then 0
      else reach.Floor
  }

  function EffectiveFloor(m: Manifest): int {
    if 0 < m.contextLength < WINDOW_200K then m.contextLength else WINDOW_200K
  }

  function ServedWindows(m: Manifest): seq<int> {
    if m.contextLength <= 0 then []
    else if m.contextLength >= WINDOW_1M then [WINDOW_1M, WINDOW_200K]
    else [EffectiveFloor(m)]
  }

  /** The 1M rung opens for a model that reaches it by scaling, only when asked for. */
  function ServedWindowsWith(m: Manifest, chosen: int): seq<int> {
    if chosen == WINDOW_1M && ExtendedContextLength(m) >= WINDOW_1M && m.contextLength < WINDOW_1M
    then [WINDOW_1M, WINDOW_200K]
    else ServedWindows(m)
  }

  function CeilingWindow(m: Manifest): int {
    var w := ServedWindows(m);
    if w == [] then 0 else w[0]
  }

  ghost predicate StrictlyDescending(w: seq<int>) {
    forall i, j :: 0 <= i < j < |w| ==> w[i] > w[j]
  }

  /** Strictly descending, positive, at most two rungs, all served windows or the model's own. */
  lemma LadderShape(m: Manifest, chosen: int)
    ensures var w := ServedWindowsWith(m, chosen);
            && StrictlyDescending(w) && |w| <= 2
            && (forall r <- w :: 0 < r && (r == WINDOW_1M || r == WINDOW_200K || r == m.contextLength))
            && (forall r <- w :: r < WINDOW_200K ==> r == m.contextLength)
  {
  }

  /** Which rungs there are: 1M for a model that reaches it, by itself or asked for through
      scaling; 200k for every model that long; the model's own window below that. */
  lemma LadderRungs(m: Manifest, chosen: int, r: int)
    ensures var w := ServedWindowsWith(m, chosen);
            var long := m.contextLength >= WINDOW_1M || (chosen == WINDOW_1M && ExtendedContextLength(m) >= WINDOW_1M);
            && (r in w <==>
                  || (r == WINDOW_1M && long)
                  || (r == WINDOW_200K && (long || m.contextLength >= WINDOW_200K))
                  || (r == m.contextLength && 0 < r < WINDOW_200K && !long))
            && (w == [] <==> m.contextLength <= 0 && !long)
            && (m.contextLength >= WINDOW_1M ==> WINDOW_1M in ServedWindows(m) && WINDOW_200K in ServedWindows(m))
  {
    if m.contextLength >= WINDOW_1M {
      assert ServedWindows(m)[0] == WINDOW_1M && ServedWindows(m)[1] == WINDOW_200K;
    }
  }

  /** rungBelow: the highest rung strictly below ctx, 0 if there is none. */
  function RungBelow(w: seq<int>, ctx: int, k: nat := 0): (r: int)
    requires k <= |w|
    decreases |w| - k
  {
    if k == |w| then 0
    else if w[k] < ctx then w[k]
    else RungBelow(w, ctx, k + 1)
  }

  lemma {:induction false} RungBelowIsNext(w: seq<int>, ctx: int, k: nat)
    requires k <= |w| && StrictlyDescending(w) && forall i :: 0 <= i < |w| ==> w[i] > 0
    requires forall i :: 0 <= i < k ==> w[i] >= ctx
    ensures var r := RungBelow(w, ctx, k);
            && (r == 0 <==> forall i :: 0 <= i < |w| ==> w[i] >= ctx)
            && (r != 0 ==> r in w && 0 < r < ctx && forall i :: 0 <= i < |w| && w[i] < ctx ==> w[i] <= r)
    decreases |w| - k
  {
    if k < |w| && w[k] >= ctx {
      RungBelowIsNext(w, ctx, k + 1);
    }
  }

  // ----- The planner ----------------------------------------------------

  datatype Plan = Plan(ctx: int, fits: bool, maxCtx: int, spill: real)

  /** How many rungs the ceiling drops: those above it, but never the last one. */
  function Dropped(rungs: seq<int>, ceiling: int, k: nat := 0): (n: nat)
    requires k < |rungs|
    ensures k <= n < |rungs|
    ensures forall i :: k <= i < n ==> ceiling > 0 && rungs[i] > ceiling
    ensures ceiling > 0 && n + 1 < |rungs| ==> rungs[n] <= ceiling
    ensures ceiling <= 0 ==> n == k
    decreases |rungs| - k
  {
    if ceiling > 0 && k + 1 < |rungs| && rungs[k] > ceiling then Dropped(rungs, ceiling, k + 1) else k
  }

  /** The three reachability rules: it fits outright, or on a discrete card and not
      above the effective floor, by a bounded planned spill or as the machine without
      the card would. */
  predicate Reachable(m: Manifest, h: Host, kv: string, rung: int) {
    || h.capacity(kv) >= rung
    || (&& h.discrete
        && rung <= EffectiveFloor(m)
        && (|| 0.0 < h.cpuShare(kv, rung) <= 0.20
            || h.cardless(kv) >= rung))
  }

  /** The first reachable rung from k on, or |rungs|. */
  function FirstReachable(m: Manifest, h: Host, kv: string, rungs: seq<int>, k: nat): (n: nat)
    requires k <= |rungs|
    ensures k <= n <= |rungs|
    ensures n < |rungs| ==> Reachable(m, h, kv, rungs[n])
    ensures forall i :: k <= i < n ==> !Reachable(m, h, kv, rungs[i])
    decreases |rungs| - k
  {
    if k == |rungs| || Reachable(m, h, kv, rungs[k]) then k else FirstReachable(m, h, kv, rungs, k + 1)
  }

  /** The build or the machine gives the planner nothing to size with. */
  predicate Unsizable(v: Variant, h: Host) {
    v.weightGB <= 0.0 || v.kvBytesPerToken <= 0 || (h.vramBudgetMB <= 0 && h.ramMB == 0)
  }

  function PlannedRung(m: Manifest, v: Variant, h: Host, kv: string, ceiling: int, chosen: int): Plan {
    var ladder := ServedWindowsWith(m, chosen);
    if ladder == [] || Unsizable(v, h) then Plan(0, false, 0, 0.0)
    else
      var n := FirstReachable(m, h, kv, ladder, Dropped(ladder, ceiling));
      var ctx := if n < |ladder| then ladder[n] else ladder[|ladder| - 1];
      Plan(ctx, n < |ladder|, h.capacity(kv), if h.hasGPU && h.vramBudgetMB > 0 then h.cpuShare(kv, ctx) else 0.0)
  }

  /** Rung i of the ladder survives the ceiling. */
  predicate Kept(ladder: seq<int>, ceiling: int, i: int)
    requires 0 <= i < |ladder|
  {
    ceiling <= 0 || ladder[i] <= ceiling || i == |ladder| - 1
  }

  /** The plan is the highest kept rung that is reachable, or, with none reachable,
      the lowest rung, reported as not fitting. The lowest rung is kept even under a
      ceiling below it. */
  lemma PlanIsHighestReachable(m: Manifest, v: Variant, h: Host, kv: string, ceiling: int, chosen: int)
    requires ServedWindowsWith(m, chosen) != [] && !Unsizable(v, h)
    ensures var ladder := ServedWindowsWith(m, chosen); var p := PlannedRung(m, v, h, kv, ceiling, chosen);
            && p.ctx in ladder && p.ctx > 0
            && (ceiling > 0 ==> p.ctx <= ceiling || p.ctx == ladder[|ladder| - 1])
            && (p.fits <==> exists i :: 0 <= i < |ladder| && Kept(ladder, ceiling, i) && Reachable(m, h, kv, ladder[i]))
            && (p.fits ==> Reachable(m, h, kv, p.ctx))
            && (p.fits ==> forall i :: 0 <= i < |ladder| && Kept(ladder, ceiling, i) && Reachable(m, h, kv, ladder[i])
                                       ==> ladder[i] <= p.ctx)
            && (!p.fits ==> p.ctx == ladder[|ladder| - 1])
  {
    var ladder := ServedWindowsWith(m, chosen);
    LadderShape(m, chosen);
    var d := Dropped(ladder, ceiling);
    assert forall i :: 0 <= i < |ladder| && Kept(ladder, ceiling, i) ==> d <= i;
    var n := FirstReachable(m, h, kv, ladder, d);
    if n < |ladder| {
      assert Kept(ladder, ceiling, n);
    }
  }

  /** There is something to size with. */
  predicate Sizable(v: Variant, h: Host) {
    v.weightGB > 0.0 && v.kvBytesPerToken > 0 && (h.vramBudgetMB > 0 || h.ramMB > 0)
  }

  /** Fit is decided at the lowest rung: it is held outright, or the card is a discrete one and
      the rung, not above the model's floor, is reached with at most a fifth of the weights in
      system RAM or by the machine without the card. The 1M window is planned exactly when it
      is open, the ceiling leaves it and it is held outright. */
  lemma PlanIff(m: Manifest, v: Variant, h: Host, kv: string, ceiling: int, chosen: int)
    ensures var p := PlannedRung(m, v, h, kv, ceiling, chosen); var ladder := ServedWindowsWith(m, chosen);
            && (p.fits <==>
                  && Sizable(v, h) && ladder != []
                  && var low := ladder[|ladder| - 1];
                     || h.capacity(kv) >= low
                     || (h.discrete && low <= EffectiveFloor(m)
                         && (0.0 < h.cpuShare(kv, low) <= 0.20 || h.cardless(kv) >= low)))
            && (p.ctx == WINDOW_1M <==>
                  && Sizable(v, h) && WINDOW_1M in ladder && (ceiling <= 0 || ceiling >= WINDOW_1M)
                  && h.capacity(kv) >= WINDOW_1M)
            && (p.ctx == 0 <==> !Sizable(v, h) || ladder == [])
  {
    var ladder := ServedWindowsWith(m, chosen);
    if ladder != [] && Sizable(v, h) {
      PlanIsHighestReachable(m, v, h, kv, ceiling, chosen);
      assert Kept(ladder, ceiling, |ladder| - 1);
      assert WINDOW_1M in ladder ==> ladder[0] == WINDOW_1M && ladder[|ladder| - 1] == WINDOW_200K;
      if WINDOW_1M in ladder && h.capacity(kv) >= WINDOW_1M {
        assert Kept(ladder, ceiling, 0) ==> Reachable(m, h, kv, ladder[0]);
      }
    }
  }

  /** The same machine with the card taken out. */
  function WithoutCard(h: Host): Host {
    Host(false, false, 0, h.ramMB, h.cardless, h.cardless, h.cpuShare, h.deviceMB)
  }

  /** Fitting a card shrinks the planned window exactly when the machine without it would serve
      the 1M window and the card does not hold that window outright. Short of that, it never
      does. */
  lemma CardShrinksIff(m: Manifest, v: Variant, h: Host, kv: string, ceiling: int, chosen: int)
    requires h.discrete
    ensures var p, bare := PlannedRung(m, v, h, kv, ceiling, chosen),
                           PlannedRung(m, v, WithoutCard(h), kv, ceiling, chosen);
            p.ctx < bare.ctx <==> bare.ctx == WINDOW_1M && h.capacity(kv) < WINDOW_1M
  {
    PlanIff(m, v, h, kv, ceiling, chosen);
    PlanIff(m, v, WithoutCard(h), kv, ceiling, chosen);
    if ServedWindowsWith(m, chosen) != [] {
      if Sizable(v, h) {
        PlanIsARung(m, v, h, kv, ceiling, chosen);
      }
      if Sizable(v, WithoutCard(h)) {
        PlanIsARung(m, v, WithoutCard(h), kv, ceiling, chosen);
      }
    }
  }

  lemma PlanIsARung(m: Manifest, v: Variant, h: Host, kv: string, ceiling: int, chosen: int)
    requires Sizable(v, h) && ServedWindowsWith(m, chosen) != []
    ensures var p := PlannedRung(m, v, h, kv, ceiling, chosen); var ladder := ServedWindowsWith(m, chosen);
            && 0 < p.ctx <= WINDOW_1M && p.ctx in ladder
            && (p.ctx != WINDOW_1M ==> p.ctx == ladder[|ladder| - 1])
  {
    PlanIsHighestReachable(m, v, h, kv, ceiling, chosen);
  }

  /** And it takes the fit away exactly for a window reached by scaling whose lowest rung lies
      above the model's own, when the card does not hold that rung outright. */
  lemma CardLosesFitIff(m: Manifest, v: Variant, h: Host, kv: string, ceiling: int, chosen: int)
    requires h.discrete && PlannedRung(m, v, WithoutCard(h), kv, ceiling, chosen).fits
    ensures ServedWindowsWith(m, chosen) != []
    ensures var p := PlannedRung(m, v, h, kv, ceiling, chosen); var ladder := ServedWindowsWith(m, chosen);
            var low := ladder[|ladder| - 1];
            !p.fits <==> low > EffectiveFloor(m) && h.capacity(kv) < low
  {
    PlanIff(m, v, h, kv, ceiling, chosen);
    PlanIff(m, v, WithoutCard(h), kv, ceiling, chosen);
  }

  // ----- KV-cache types -------------------------------------------------

  predicate Allowed(v: Variant, t: string) {
    t == F16 || (if v.kvTypes == [] then t == Q8 else t in v.kvTypes)
  }

  /** KVCacheChoices for ollama: the ladder q4_0, q8_0, f16 narrowed by the build. */
  function KVChoices(v: Variant): (c: seq<string>)
    ensures c != [] && c[|c| - 1] == F16
    ensures forall t :: t in c <==> (t == Q4 || t == Q8 || t == F16) && Allowed(v, t)
  {
    (if Allowed(v, Q4) then [Q4] else []) + (if Allowed(v, Q8) then [Q8] else []) + [F16]
  }

  /** The type asked for if the build allows it, otherwise the first allowed one. */
  function ResolveKV(v: Variant, want: string): (t: string)
    ensures t in KVChoices(v) && t != AUTO
    ensures want != "" && want in KVChoices(v) ==> t == want
    ensures !(want != "" && want in KVChoices(v)) ==>
              t == (if Allowed(v, Q4) then Q4 else if Allowed(v, Q8) then Q8 else F16)
  {
    var c := KVChoices(v);
    if want != "" && want in c then want else c[0]
  }
}
