/** The keys a speed measurement is filed under (cmd/waired-agent/inference_bench_cache.go,
    inference_boot_bench_loop.go, inference_model_speed_provider.go). */
module BenchKeys {
  const MIN_INT := -0x8000_0000_0000_0000
  const MAX_INT := 0x7fff_ffff_ffff_ffff

  predicate IsInt(n: int) {
    MIN_INT <= n <= MAX_INT
  }

  // ----- Decimal numbers ------------------------------------------------

  function Digit(d: int): char
    requires 0 <= d < 10
  {
    d as char + '0'
  }

  function Digits(n: nat): (s: string)
    ensures s != [] && forall i :: 0 <= i < |s| ==> '0' <= s[i] <= '9'
  {
    if n < 10 then [Digit(n)] else Digits(n / 10) + [Digit(n % 10)]
  }

  function Value(s: string): int {
    if s == [] then 0 else 10 * Value(s[..|s| - 1]) + (s[|s| - 1] as int - '0' as int)
  }

  lemma {:induction false} DigitsRead(n: nat)
    ensures Value(Digits(n)) == n
  {
    var s := Digits(n);
    if n < 10 {
      assert s[..0] == [];
    } else {
      DigitsRead(n / 10);
      assert s[..|s| - 1] == Digits(n / 10);
    }
  }

  /** What %d prints. */
  function Decimal(n: int): string {
    if n < 0 then "-" + Digits(-n) else Digits(n)
  }

  /** What itoa prints: negating the least integer leaves it negative, so it has no digits. */
  function ItoaOf(n: int): string {
    if n == MIN_INT then "-" else Decimal(n)
  }

  lemma NegativeReads(n: int)
    requires n < 0
    ensures |Decimal(n)| > 1 && Decimal(n)[0] == '-' && Value(Decimal(n)[1..]) == -n
  {
    var d := Digits(-n);
    DigitsRead(-n);
    assert Decimal(n)[1..] == d;
  }

  lemma DecimalReads(n: int)
    ensures Decimal(n) != [] && (Decimal(n)[0] == '-' <==> n < 0)
    ensures n < 0 ==> |Decimal(n)| > 1 && Value(Decimal(n)[1..]) == -n
    ensures n >= 0 ==> Value(Decimal(n)) == n
  {
    if n < 0 {
      NegativeReads(n);
    } else {
      DigitsRead(n);
      assert Digits(n)[0] != '-';
    }
  }

  lemma DecimalIsInjective(m: int, n: int)
    requires Decimal(m) == Decimal(n)
    ensures m == n
  {
    DecimalReads(m);
    DecimalReads(n);
  }

  /** itoa tells every two machine integers apart, the least one included. */
  lemma ItoaIsInjective(m: int, n: int)
    requires ItoaOf(m) == ItoaOf(n)
    ensures m == n
  {
    DecimalReads(m);
    DecimalReads(n);
  }

  function Pow10(k: nat): int {
    if k == 0 then 1 else 10 * Pow10(k - 1)
  }

  /** Negation on 64 bits. */
  function Negated(n: int): int {
    if n == MIN_INT then MIN_INT else -n
  }

  lemma NineteenDigits()
    ensures MAX_INT < Pow10(19)
  {
    assert Pow10(5) == 100000;
    assert Pow10(10) == 10000000000 by { assert Pow10(6) == 1000000 && Pow10(8) == 100000000; }
    assert Pow10(12) == 1000000000000 && Pow10(14) == 100000000000000;
    assert Pow10(16) == 10000000000000000 && Pow10(18) == 1000000000000000000;
  }

  /** The digits of m, written into the buffer from the right; a machine integer leaves
      room for a sign. A negative m, which only the least integer can be, writes nothing. */
  method FillDigits(b: array<char>, start: int) returns (i: nat)
    requires b.Length == 20 && start < Pow10(19) && start != 0
    modifies b
    ensures 1 <= i <= 20
    ensures start > 0 ==> b[i..] == Digits(start)
    ensures start < 0 ==> i == 20
  {
    var m := start;
    i := 20;
    while m > 0
      invariant 1 <= i <= 20
      invariant if start < 0 then m == start && i == 20 else 0 <= m < Pow10(i - 1)
      invariant start > 0 ==> Digits(start) == (if m > 0 then Digits(m) else []) + b[i..]
    {
      ghost var before := b[i..];
      i := i - 1;
      b[i] := Digit(m % 10);
      assert b[i..] == [Digit(m % 10)] + before;
      OneMoreDigit(m, before);
      m := m / 10;
    }
  }

  lemma OneMoreDigit(m: int, rest: string)
    requires m > 0
    ensures Digits(m) + rest == (if m / 10 > 0 then Digits(m / 10) else []) + ([Digit(m % 10)] + rest)
  {
    if m >= 10 {
      assert Digits(m / 10) + [Digit(m % 10)] + rest == Digits(m / 10) + ([Digit(m % 10)] + rest);
    }
  }

  /** itoa: a 20-byte buffer filled from the right, which never runs off its left end. */
  method Itoa(n: int) returns (s: string)
    requires IsInt(n)
    ensures s == ItoaOf(n)
  {
    if n == 0 {
      return "0";
    }
    var neg := n < 0;
    var m := if neg then Negated(n) else n;
    var b := new char[20];
    NineteenDigits();
    var i := FillDigits(b, m);
    if neg {
      ghost var before := b[i..];
      i := i - 1;
      b[i] := '-';
      assert b[i..] == ['-'] + before;
    }
    return b[i..];
  }

  // ----- Joining with NUL -----------------------------------------------

  const NUL: char := '\0'

  predicate NulFree(s: string) {
    forall i :: 0 <= i < |s| ==> s[i] != NUL
  }

  predicate AllNulFree(ts: seq<string>) {
    forall i :: 0 <= i < |ts| ==> NulFree(ts[i])
  }

  function Join(ts: seq<string>): string
    requires ts != []
  {
    if |ts| == 1 then ts[0] else ts[0] + [NUL] + Join(ts[1..])
  }

  lemma CutAtNul(x: string, r: string, y: string, s: string)
    requires NulFree(x) && NulFree(y) && x + [NUL] + r == y + [NUL] + s
    ensures x == y && r == s
  {
    var l, m := x + [NUL] + r, y + [NUL] + s;
    assert l[|x|] == NUL && m[|y|] == NUL;
    assert forall i :: 0 <= i < |x| ==> l[i] == x[i];
    assert forall i :: 0 <= i < |y| ==> m[i] == y[i];
    assert x == l[..|x|] && y == m[..|y|] && r == l[|x| + 1..] && s == m[|y| + 1..];
  }

  lemma JoinHasNul(ts: seq<string>)
    requires ts != [] && AllNulFree(ts)
    ensures NulFree(Join(ts)) <==> |ts| == 1
  {
    if |ts| > 1 {
      assert Join(ts)[|ts[0]|] == NUL;
    }
  }

  /** Joined NUL-free terms can be taken apart again: the lists are equal. */
  lemma {:induction false} JoinIsInjective(a: seq<string>, b: seq<string>)
    requires a != [] && b != [] && AllNulFree(a) && AllNulFree(b) && Join(a) == Join(b)
    ensures a == b
  {
    JoinHasNul(a);
    JoinHasNul(b);
    if |a| > 1 {
      CutAtNul(a[0], Join(a[1..]), b[0], Join(b[1..]));
      JoinIsInjective(a[1..], b[1..]);
      assert a == [a[0]] + a[1..] && b == [b[0]] + b[1..];
    }
  }

  lemma NumbersAreNulFree(n: int)
    ensures NulFree(Decimal(n)) && NulFree(ItoaOf(n))
  {
  }

  // ----- The configuration and its keys ---------------------------------

  /** The serving configuration a figure was taken under. */
  datatype Serving = Serving(window: int, kv: string, parallel: int, draft: string, draftTokens: int)

  datatype Config = Config(model: string, variant: string, kind: string, version: string, serving: Serving,
                           gpu: string, vram: int, driver: string, sha: string, engineModel: string)

  ghost predicate Clean(c: Config) {
    && NulFree(c.model) && NulFree(c.variant) && NulFree(c.kind) && NulFree(c.version) && NulFree(c.serving.kv)
    && NulFree(c.serving.draft) && NulFree(c.gpu) && NulFree(c.driver) && NulFree(c.sha) && NulFree(c.engineModel)
  }

  /** The draft counts only when there is one. */
  function DraftTerms(s: Serving, shown: string): seq<string> {
    if s.draft == "" then [] else [s.draft, shown]
  }

  function SelectionTerms(c: Config): seq<string> {
    [c.model, c.variant, c.kind, c.version, ItoaOf(c.serving.window), c.serving.kv, ItoaOf(c.serving.parallel)]
    + DraftTerms(c.serving, ItoaOf(c.serving.draftTokens))
  }

  function SelectionKey(c: Config): string {
    if c.model == "" then "" else Join(SelectionTerms(c))
  }

  function CacheTerms(c: Config): seq<string> {
    [c.gpu, Decimal(c.vram), c.driver, c.sha, c.kind, c.engineModel, c.version, Decimal(c.serving.window), c.serving.kv,
     Decimal(c.serving.parallel)]
    + DraftTerms(c.serving, Decimal(c.serving.draftTokens))
  }

  predicate Cacheable(c: Config) {
    c.gpu != "" && c.sha != "" && c.version != ""
  }

  /** The text that is hashed into the cache key. */
  function CacheText(c: Config): string {
    if !Cacheable(c) then "" else Join(CacheTerms(c))
  }

  ghost predicate SameServing(a: Serving, b: Serving) {
    && a.window == b.window && a.kv == b.kv && a.parallel == b.parallel && a.draft == b.draft
    && (a.draft == "" || a.draftTokens == b.draftTokens)
  }

  lemma SelectionTermsClean(c: Config)
    requires Clean(c)
    ensures AllNulFree(SelectionTerms(c))
  {
    NumbersAreNulFree(c.serving.window);
    NumbersAreNulFree(c.serving.parallel);
    NumbersAreNulFree(c.serving.draftTokens);
  }

  lemma CacheTermsClean(c: Config)
    requires Clean(c)
    ensures AllNulFree(CacheTerms(c))
  {
    NumbersAreNulFree(c.vram);
    NumbersAreNulFree(c.serving.window);
    NumbersAreNulFree(c.serving.parallel);
    NumbersAreNulFree(c.serving.draftTokens);
  }

  lemma SelectionTermsIff(a: Config, b: Config)
    ensures SelectionTerms(a) == SelectionTerms(b) <==>
              a.model == b.model && a.variant == b.variant && a.kind == b.kind && a.version == b.version
              && SameServing(a.serving, b.serving)
  {
    var x, y := SelectionTerms(a), SelectionTerms(b);
    if x == y {
      assert x[0] == y[0] && x[1] == y[1] && x[2] == y[2] && x[3] == y[3] && x[4] == y[4] && x[5] == y[5]
          && x[6] == y[6];
      ItoaIsInjective(a.serving.window, b.serving.window);
      ItoaIsInjective(a.serving.parallel, b.serving.parallel);
      assert a.serving.draft != "" ==> |x| == 9;
      assert b.serving.draft != "" ==> |y| == 9;
      if a.serving.draft != "" {
        assert x[7] == y[7] && x[8] == y[8];
        ItoaIsInjective(a.serving.draftTokens, b.serving.draftTokens);
      }
    }
  }

  lemma CacheTermsIff(a: Config, b: Config)
    ensures CacheTerms(a) == CacheTerms(b) <==>
              a.gpu == b.gpu && a.vram == b.vram && a.driver == b.driver && a.sha == b.sha && a.kind == b.kind
              && a.engineModel == b.engineModel && a.version == b.version && SameServing(a.serving, b.serving)
  {
    var x, y := CacheTerms(a), CacheTerms(b);
    if x == y {
      assert x[0] == y[0] && x[1] == y[1] && x[2] == y[2] && x[3] == y[3] && x[4] == y[4];
      assert x[5] == y[5] && x[6] == y[6] && x[7] == y[7] && x[8] == y[8] && x[9] == y[9];
      DecimalIsInjective(a.vram, b.vram);
      DecimalIsInjective(a.serving.window, b.serving.window);
      DecimalIsInjective(a.serving.parallel, b.serving.parallel);
      assert a.serving.draft != "" ==> |x| == 12;
      assert b.serving.draft != "" ==> |y| == 12;
      if a.serving.draft != "" {
        assert x[10] == y[10] && x[11] == y[11];
        DecimalIsInjective(a.serving.draftTokens, b.serving.draftTokens);
      }
    }
  }

  /** Two selections share a key exactly when they agree on every field it covers. */
  lemma SelectionKeyIff(a: Config, b: Config)
    requires Clean(a) && Clean(b) && a.model != "" && b.model != ""
    ensures SelectionKey(a) == SelectionKey(b) <==>
              a.model == b.model && a.variant == b.variant && a.kind == b.kind && a.version == b.version
              && SameServing(a.serving, b.serving)
  {
    SelectionTermsClean(a);
    SelectionTermsClean(b);
    SelectionTermsIff(a, b);
    if SelectionKey(a) == SelectionKey(b) {
      JoinIsInjective(SelectionTerms(a), SelectionTerms(b));
    }
  }

  /** Two configurations share a cache key's text exactly when they agree on every field
      it covers; one that cannot be cached shares it with no cacheable one. */
  lemma CacheTextIff(a: Config, b: Config)
    requires Clean(a) && Clean(b) && Cacheable(a)
    ensures CacheText(a) == CacheText(b) <==>
              a.gpu == b.gpu && a.vram == b.vram && a.driver == b.driver && a.sha == b.sha && a.kind == b.kind
              && a.engineModel == b.engineModel && a.version == b.version && SameServing(a.serving, b.serving)
  {
    CacheTermsClean(a);
    CacheTermsClean(b);
    CacheTermsIff(a, b);
    if Cacheable(b) && CacheText(a) == CacheText(b) {
      JoinIsInjective(CacheTerms(a), CacheTerms(b));
    }
  }

  // ----- The state ledger -----------------------------------------------

  /** A ledger entry, filed under the variant's digest: everything the cache key covers
      except the engine's own name for the model. */
  datatype Entry = Entry(turn: real, kind: string, version: string, gpu: string, vram: int, driver: string,
                         serving: Serving)

  function EntryOf(c: Config, turn: real): Entry {
    Entry(turn, c.kind, c.version, c.gpu, c.vram, c.driver, c.serving)
  }

  /** Whether the ledger answers for this configuration. */
  predicate LedgerAnswers(ledger: map<string, Entry>, c: Config) {
    && c.sha != "" && c.version != "" && c.sha in ledger
    && (var m := ledger[c.sha];
        && m.turn > 0.0 && m.kind == c.kind && m.version == c.version && m.gpu == c.gpu && m.vram == c.vram
        && m.driver == c.driver && m.serving == c.serving)
  }

  /** A finished figure taken under `at` answers for c exactly when both share a cache key,
      given the engine's name for the model and, where there is no draft, the draft length
      the key leaves out. */
  lemma LedgerMatchesKey(ledger: map<string, Entry>, at: Config, turn: real, c: Config)
    requires Clean(at) && Clean(c) && Cacheable(at) && turn > 0.0
    requires at.sha in ledger && ledger[at.sha] == EntryOf(at, turn) && c.sha == at.sha
    ensures LedgerAnswers(ledger, c) && c.engineModel == at.engineModel <==>
              CacheText(c) == CacheText(at) && c.serving.draftTokens == at.serving.draftTokens
  {
    CacheTextIff(at, c);
  }
}
