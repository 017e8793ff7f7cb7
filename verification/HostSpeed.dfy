/** Counting the members of a set in a sequence. */
module Counting {
  function CountIn<T(==)>(s: seq<T>, good: set<T>): (n: nat)
    ensures n <= |s|
  {
    if s == [] then 0 else (if s[0] in good then 1 else 0) + CountIn(s[1..], good)
  }

  lemma {:induction false} CountSplit<T>(a: seq<T>, b: seq<T>, good: set<T>)
    ensures CountIn(a + b, good) == CountIn(a, good) + CountIn(b, good)
  {
    if a == [] {
      assert a + b == b;
    } else {
      assert (a + b)[1..] == a[1..] + b;
      CountSplit(a[1..], b, good);
    }
  }

  lemma CountWithout<T>(s: seq<T>, i: nat, good: set<T>)
    requires i < |s|
    ensures CountIn(s, good) == CountIn(s[..i] + s[i + 1..], good) + if s[i] in good then 1 else 0
    ensures multiset(s[..i] + s[i + 1..]) == multiset(s) - multiset{s[i]}
  {
    assert s == s[..i] + ([s[i]] + s[i + 1..]);
    CountSplit(s[..i], [s[i]] + s[i + 1..], good);
    CountSplit([s[i]], s[i + 1..], good);
    CountSplit(s[..i], s[i + 1..], good);
  }

  lemma {:induction false} CountIsOrderFree<T>(a: seq<T>, b: seq<T>, good: set<T>)
    requires multiset(a) == multiset(b)
    ensures CountIn(a, good) == CountIn(b, good) && |a| == |b|
    decreases |a|
  {
    assert |multiset(a)| == |a| && |multiset(b)| == |b|;
    if a != [] {
      assert a[0] in multiset(b);
      var i :| 0 <= i < |b| && b[i] == a[0];
      CountWithout(a, 0, good);
      CountWithout(b, i, good);
      CountIsOrderFree(a[..0] + a[1..], b[..i] + b[i + 1..], good);
    }
  }

  lemma SameMembers<T>(a: seq<T>, b: seq<T>)
    requires multiset(a) == multiset(b)
    ensures forall i :: 0 <= i < |b| ==> b[i] in a
  {
    forall i | 0 <= i < |b| ensures b[i] in a {
      assert b[i] in multiset(b);
    }
  }

  /** When the members come first, they are the first CountIn of them. */
  lemma {:induction false} CountIsPrefix<T>(s: seq<T>, good: set<T>, i: nat)
    requires i < |s| && forall j, k :: 0 <= j < k < |s| && s[k] in good ==> s[j] in good
    ensures s[i] in good <==> i < CountIn(s, good)
  {
    var n := |s| - 1;
    assert s == s[..n] + [s[n]];
    CountSplit(s[..n], [s[n]], good);
    if i < n {
      CountIsPrefix(s[..n], good, i);
    } else if n > 0 {
      CountIsPrefix(s[..n], good, n - 1);
    }
  }

  lemma {:induction false} CountBounds<T>(s: seq<T>, good: set<T>)
    ensures 0 < CountIn(s, good) <==> exists i :: 0 <= i < |s| && s[i] in good
    ensures CountIn(s, good) < |s| <==> exists i :: 0 <= i < |s| && s[i] !in good
  {
    if s != [] {
      CountBounds(s[1..], good);
      assert forall i :: 0 < i < |s| ==> s[i] == s[1..][i - 1];
      assert forall i :: 0 <= i < |s| - 1 ==> s[1..][i] == s[i + 1];
    }
  }
}

/** The host-speed probe's arithmetic: one coding turn, its prefill floor, the median of
    several samples, and the serve window (proto/hostfit/host_cutoff.go,
    cmd/waired-agent/host_cutoff_probe.go). Rates are exact reals. */
module HostProbes {
  import opened Counting

  const DEPTH: int := 21000
  const COMPLETION: int := 1000
  const BUDGET: real := 45.0
  const DEPTH_LOW: int := 14700
  const DEPTH_HIGH: int := 31500

  datatype Probe = Probe(promptTokens: int, prefill: real, decode: real)

  predicate Measured(p: Probe) {
    p.prefill > 0.0 && p.decode > 0.0 && DEPTH_LOW <= p.promptTokens <= DEPTH_HIGH
  }

  function TurnFloor(prefill: real): real {
    if prefill <= 0.0 then 0.0 else DEPTH as real / prefill
  }

  function Turn(p: Probe): real {
    if !Measured(p) then 0.0 else DEPTH as real / p.prefill + COMPLETION as real / p.decode
  }

  predicate Meets(p: Probe) {
    Measured(p) && Turn(p) <= BUDGET
  }

  lemma QuotientGrows(n: real, a: real, b: real)
    requires n > 0.0 && 0.0 < a <= b
    ensures 0.0 < n / b <= n / a
  {
    var x, y := n / a, n / b;
    assert x * a == n && y * b == n;
    assert x * (b - a) >= 0.0;
    assert (x - y) * b == x * (b - a);
  }

  /** A turn is never shorter than its prefill, at that rate or at any faster one. */
  lemma TurnIsAboveFloor(p: Probe, rate: real)
    requires Measured(p) && p.prefill <= rate
    ensures TurnFloor(rate) < Turn(p)
  {
    QuotientGrows(DEPTH as real, p.prefill, rate);
    QuotientGrows(COMPLETION as real, p.decode, p.decode);
  }

  /** The budget without quotients: the turn's tokens at each rate, on both sides. */
  predicate Affords(p: Probe) {
    DEPTH as real * p.decode + COMPLETION as real * p.prefill <= BUDGET * p.prefill * p.decode
  }

  /** A measured host meets the budget exactly when it affords the prefill and the decode. */
  lemma MeetsIff(p: Probe)
    requires Measured(p)
    ensures Meets(p) <==> Affords(p)
  {
    var x, y := DEPTH as real / p.prefill, COMPLETION as real / p.decode;
    assert x * p.prefill == DEPTH as real && y * p.decode == COMPLETION as real;
    CrossMultiply(x, y, BUDGET, p.prefill, p.decode);
  }

  lemma CrossMultiply(x: real, y: real, b: real, pr: real, de: real)
    requires pr > 0.0 && de > 0.0
    ensures x + y <= b <==> x * pr * de + y * de * pr <= b * pr * de
  {
    ScaleBoth(x + y, b, pr);
    ScaleBoth((x + y) * pr, b * pr, de);
    Distribute(x, y, pr, de);
  }

  lemma Distribute(x: real, y: real, pr: real, de: real)
    ensures (x + y) * pr * de == x * pr * de + y * de * pr
  {
    assert (x + y) * pr == x * pr + y * pr;
    assert y * pr * de == y * de * pr;
  }

  lemma ScaleBoth(a: real, b: real, k: real)
    requires k > 0.0
    ensures a <= b <==> a * k <= b * k
  {
    if a <= b {
      assert (b - a) * k >= 0.0;
    } else {
      assert (a - b) * k > 0.0;
    }
  }

  lemma QuotientShrinks(n: real, a: real, b: real)
    requires n > 0.0 && 0.0 < a < b
    ensures n / b < n / a
  {
    var x, y := n / a, n / b;
    assert x * a == n && y * b == n;
    assert x > 0.0;
    assert (x - y) * b == x * (b - a) > 0.0;
  }

  /** A slower rate, of either kind, is a longer turn. */
  lemma SlowerIsLonger(p: Probe, q: Probe)
    requires Measured(p) && Measured(q) && q.prefill <= p.prefill && q.decode <= p.decode
    ensures Turn(p) <= Turn(q)
    ensures q.prefill < p.prefill || q.decode < p.decode ==> Turn(p) < Turn(q)
  {
    QuotientGrows(DEPTH as real, q.prefill, p.prefill);
    QuotientGrows(COMPLETION as real, q.decode, p.decode);
    if q.prefill < p.prefill {
      QuotientShrinks(DEPTH as real, q.prefill, p.prefill);
    }
    if q.decode < p.decode {
      QuotientShrinks(COMPLETION as real, q.decode, p.decode);
    }
  }

  /** Both rates decide: a prefill rate above depth over budget leaves room for a decode that
      meets the budget and for one that does not; at or below it no decode does. */
  lemma DecodeDecides(tokens: int, prefill: real) returns (fast: Probe, slow: Probe)
    requires DEPTH_LOW <= tokens <= DEPTH_HIGH && prefill > 0.0
    ensures fast.promptTokens == slow.promptTokens == tokens && fast.prefill == slow.prefill == prefill
    ensures Measured(fast) && Measured(slow) && !Meets(slow)
    ensures Meets(fast) <==> BUDGET * prefill > DEPTH as real
    ensures BUDGET * prefill <= DEPTH as real ==>
              forall p: Probe :: Measured(p) && p.prefill <= prefill ==> !Meets(p)
  {
    slow := Probe(tokens, prefill, COMPLETION as real / BUDGET);
    MeetsIff(slow);
    SlowDecodeMisses(slow);
    var room := BUDGET * prefill - DEPTH as real;
    if room > 0.0 {
      var decode := COMPLETION as real * prefill / room;
      assert decode * room == COMPLETION as real * prefill;
      assert decode > 0.0;
      fast := Probe(tokens, prefill, decode);
      assert decode * room == BUDGET * prefill * decode - DEPTH as real * decode;
      MeetsIff(fast);
    } else {
      fast := slow;
      forall p: Probe | Measured(p) && p.prefill <= prefill ensures !Meets(p) {
        NoDecodeHelps(p, prefill);
      }
    }
  }

  lemma SlowDecodeMisses(p: Probe)
    requires p.prefill > 0.0 && p.decode == COMPLETION as real / BUDGET
    ensures !Affords(p)
  {
    assert BUDGET * p.decode == COMPLETION as real;
    assert BUDGET * p.prefill * p.decode == COMPLETION as real * p.prefill;
  }

  lemma NoDecodeHelps(p: Probe, prefill: real)
    requires Measured(p) && p.prefill <= prefill && BUDGET * prefill <= DEPTH as real
    ensures !Meets(p)
  {
    MeetsIff(p);
    assert BUDGET * p.prefill <= DEPTH as real;
    ScaleBoth(BUDGET * p.prefill, DEPTH as real, p.decode);
    assert COMPLETION as real * p.prefill > 0.0;
  }

  // ----- The median sample ----------------------------------------------

  ghost predicate AllMeasured(ps: seq<Probe>) {
    forall i :: 0 <= i < |ps| ==> Measured(ps[i])
  }

  predicate SortedByTurn(ps: seq<Probe>) {
    forall i, j :: 0 <= i < j < |ps| ==> Turn(ps[i]) <= Turn(ps[j])
  }

  ghost predicate Sorts(ps: seq<Probe>, sorted: seq<Probe>) {
    multiset(sorted) == multiset(ps) && SortedByTurn(sorted)
  }

  function Meeting(ps: seq<Probe>): nat {
    CountIn(ps, set p | p in ps && Meets(p))
  }

  /** How many samples afford the turn. */
  function Affording(ps: seq<Probe>): nat {
    CountIn(ps, set p | p in ps && Affords(p))
  }

  lemma MeetingIsAffording(ps: seq<Probe>)
    requires AllMeasured(ps)
    ensures Meeting(ps) == Affording(ps)
  {
    forall p | p in ps ensures Meets(p) <==> Affords(p) {
      MeetsIff(p);
    }
    assert (set p | p in ps && Meets(p)) == set p | p in ps && Affords(p);
  }

  lemma MeetsDownward(a: Probe, b: Probe)
    requires Measured(a) && Turn(a) <= Turn(b) && Meets(b)
    ensures Meets(a)
  {
  }

  /** However the samples are sorted, the median meets the budget exactly when a strict
      majority of them do: on an even split the slower middle sample is the one judged. */
  lemma MedianIsMajority(ps: seq<Probe>, sorted: seq<Probe>)
    requires ps != [] && AllMeasured(ps) && Sorts(ps, sorted)
    ensures |sorted| == |ps| && sorted[|ps| / 2] in ps
    ensures Meets(sorted[|ps| / 2]) <==> 2 * Meeting(ps) > |ps|
  {
    var good := set p | p in ps && Meets(p);
    CountIsOrderFree(ps, sorted, good);
    SameMembers(ps, sorted);
    forall i | 0 <= i < |sorted| ensures Measured(sorted[i]) {
      var k :| 0 <= k < |ps| && ps[k] == sorted[i];
    }
    forall i, j | 0 <= i < j < |sorted| && sorted[j] in good ensures sorted[i] in good {
      MeetsDownward(sorted[i], sorted[j]);
    }
    CountIsPrefix(sorted, good, |ps| / 2);
  }

  // ----- The serve window -----------------------------------------------

  const WINDOW_MARGIN: int := 2048
  const FIRST_WINDOW: int := 2 * DEPTH + WINDOW_MARGIN
  const MAX_ATTEMPTS := 2

  /** The window asked for after the engine capped the prompt at `got`. */
  function Widened(window: int, got: int): int
    requires got > 0
  {
    window * DEPTH / got + WINDOW_MARGIN
  }

  /** If the engine splits its window over k slots and no slot holds more than it was
      asked for, one slot of the widened window holds the whole depth. */
  lemma WideningSuffices(window: int, k: int, got: int)
    requires k > 0 && 0 < got <= window / k
    ensures Widened(window, got) / k >= DEPTH
  {
    assert window >= k * got by {
      assert window >= window / k * k;
      assert (window / k - got) * k >= 0;
    }
    assert window * DEPTH >= k * DEPTH * got by {
      assert k * DEPTH * got == (k * got) * DEPTH;
    }
    DivideBack(window * DEPTH, k * DEPTH, got);
    DivideBack(Widened(window, got), DEPTH, k);
  }

  lemma TimesGrows(a: int, b: int, d: int)
    requires a < b && d > 0
    ensures a * d + d <= b * d
  {
    var k := b - a - 1;
    TimesNat(k, d);
    assert b * d == (a + 1 + k) * d == a * d + d + k * d;
  }

  lemma TimesNat(k: nat, d: nat)
    ensures k * d >= 0
  {
    if k > 0 {
      TimesNat(k - 1, d);
      assert k * d == (k - 1) * d + d;
    }
  }

  lemma DivideBack(n: int, q: int, d: int)
    requires d > 0 && n >= q * d
    ensures n / d >= q
  {
    if n / d < q {
      TimesGrows(n / d, q, d);
      assert false;
    }
  }

  lemma SlotIsEmpty(window: int, k: int)
    requires k > 0 && window >= 0
    ensures window / k > 0 <==> k <= window
  {
    if k <= window {
      DivideBack(window, 1, k);
    }
  }

  function Min(a: int, b: int): int {
    if a < b then a else b
  }

  /** How the engine serves one request: over how many slots, and at what rates. */
  datatype Serving = Serving(slots: int, prefill: real, decode: real)

  /** What the engine prefills when it is sent `sent` tokens. */
  function Served(e: Serving, sent: int, window: int): Probe
    requires e.slots > 0
  {
    Probe(Min(sent, window / e.slots), e.prefill, e.decode)
  }

  lemma FewerSlots(window: int, k: int, k': int)
    requires 0 < k' <= k && window / k >= DEPTH
    ensures window / k' >= DEPTH
  {
    assert window >= window / k * k;
    assert window / k * k >= DEPTH * k by {
      assert (window / k - DEPTH) * k >= 0;
    }
    DivideBack(window, DEPTH, k');
  }

  /** One sample: at most two requests, the second only when the engine capped the first
      below the depth; `answers` says which requests complete. One correction is enough: as
      long as the engine does not split its window further in between, a prompt of
      acceptable length ends up measured unless a slot holds no token at all. */
  method MeasureSample(served: seq<Serving>, sent: int, answers: seq<bool>)
    returns (ok: bool, probe: Probe, requests: nat)
    requires sent >= 0 && |answers| >= MAX_ATTEMPTS && |served| >= MAX_ATTEMPTS
    requires forall i :: 0 <= i < |served| ==> served[i].slots > 0
    ensures 1 <= requests <= MAX_ATTEMPTS
    ensures !ok <==> exists i :: 0 <= i < requests && !answers[i]
    ensures ok && requests == 2 && served[1].slots <= served[0].slots ==> probe.promptTokens >= Min(sent, DEPTH)
    ensures ok && sent <= DEPTH_HIGH && served[1].slots <= served[0].slots
            && (forall i :: 0 <= i < MAX_ATTEMPTS ==> served[i].prefill > 0.0 && served[i].decode > 0.0) ==>
              (Measured(probe) <==> DEPTH_LOW <= sent && served[0].slots <= FIRST_WINDOW)
  {
    SlotIsEmpty(FIRST_WINDOW, served[0].slots);
    var window, attempt := FIRST_WINDOW, 1;
    probe, requests := Probe(0, 0.0, 0.0), 0;
    while attempt <= MAX_ATTEMPTS
      invariant 1 <= attempt <= MAX_ATTEMPTS + 1 && requests == attempt - 1
      invariant forall i :: 0 <= i < requests ==> answers[i]
      invariant attempt == 1 ==> window == FIRST_WINDOW
      invariant attempt == 2 ==> window / served[0].slots >= DEPTH && 0 < FIRST_WINDOW / served[0].slots
      invariant attempt == 3 ==>
        && 0 < FIRST_WINDOW / served[0].slots && !Measured(probe)
        && exists w :: w / served[0].slots >= DEPTH && probe == Served(served[1], sent, w)
    {
      var e := served[attempt - 1];
      requests := requests + 1;
      if !answers[attempt - 1] {
        return false, Probe(0, 0.0, 0.0), requests;
      }
      probe := Served(e, sent, window);
      if attempt == 2 && e.slots <= served[0].slots {
        FewerSlots(window, served[0].slots, e.slots);
      }
      if Measured(probe) {
        return true, probe, requests;
      }
      if probe.promptTokens <= 0 || probe.promptTokens >= DEPTH {
        return true, probe, requests;
      }
      WideningSuffices(window, e.slots, probe.promptTokens);
      window := Widened(window, probe.promptTokens);
      attempt := attempt + 1;
    }
    if served[1].slots <= served[0].slots {
      var w :| w / served[0].slots >= DEPTH && probe == Served(served[1], sent, w);
      FewerSlots(w, served[0].slots, served[1].slots);
    }
    ok := true;
  }
}
