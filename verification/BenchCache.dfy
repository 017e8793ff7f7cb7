/** The file-backed measurement cache and what a benchmark run puts in it
    (cmd/waired-agent/inference_bench_cache.go, inference_bench.go). */
module BenchCaches {
  const SCHEMA := 5
  const UNMEASURED_CAPACITY := 1
  const BOUNCE_GRACE := 2

  datatype Option<T> = None | Some(value: T)

  /** The figures an entry holds. */
  datatype Figures = Figures(capacity: int, tokps: real, prefill: real, turn: real, samples: nat)

  datatype File = Absent | Corrupt | File(version: int, entries: map<string, Figures>)

  // ----- The file -------------------------------------------------------

  function Lookup(f: File, key: string): Option<Figures> {
    if key != "" && f.File? && f.version == SCHEMA && key in f.entries then Some(f.entries[key]) else None
  }

  /** Other keys survive a store unless the file cannot be read or is of another schema. */
  function Stored(f: File, key: string, r: Figures, readable: bool): File {
    if key == "" then f
    else File(SCHEMA, (if readable && f.File? && f.version == SCHEMA then f.entries else map[])[key := r])
  }

  class Cache {
    var file: File

    /** A read that fails is reported and taken as a miss. */
    method Load(key: string, readable: bool) returns (hit: Option<Figures>, err: bool)
      ensures hit == if readable then Lookup(file, key) else None
      ensures err <==> key != "" && !readable
    {
      if key == "" {
        return None, false;
      }
      if !readable {
        return None, true;
      }
      err := false;
      if file.Absent? {
        return None, false;
      }
      if file.Corrupt? || file.version != SCHEMA {
        return None, false;
      }
      hit := if key in file.entries then Some(file.entries[key]) else None;
    }

    /** The write lands whole or not at all. A file that cannot be read is started over. */
    method Store(key: string, r: Figures, readable: bool, lands: bool)
      modifies this
      ensures file == if lands then Stored(old(file), key, r, readable) else old(file)
    {
      if key == "" {
        return;
      }
      var next := if readable && file.File? then file else File(0, map[]);
      if next.version != SCHEMA {
        next := File(SCHEMA, map[]);
      }
      next := next.(entries := next.entries[key := r]);
      if lands {
        file := next;
      }
    }

    method Invalidate()
      modifies this
      ensures file == Absent
    {
      file := Absent;
    }
  }

  // ----- Traces ---------------------------------------------------------

  /** What can happen to the file. Replaced is anything from outside that leaves it without
      readable entries of this schema: a truncated file, or an older build's. */
  datatype Op = StoreOp(key: string, figures: Figures, readable: bool, lands: bool)
      | InvalidateOp | Replaced(with: File)

  ghost predicate WellFormed(op: Op) {
    op.Replaced? ==> !(op.with.File? && op.with.version == SCHEMA)
  }

  function Step(f: File, op: Op): File {
    match op
    case StoreOp(k, r, readable, lands) => if lands then Stored(f, k, r, readable) else f
    case InvalidateOp => Absent
    case Replaced(g) => g
  }

  function Run(ops: seq<Op>): File {
    if ops == [] then Absent else Step(Run(ops[..|ops| - 1]), ops[|ops| - 1])
  }

  ghost predicate StoresAt(ops: seq<Op>, i: int, key: string, r: Figures) {
    0 <= i < |ops| && ops[i].StoreOp? && ops[i].lands && ops[i].key == key && ops[i].figures == r
  }

  /** The file starts over: it is removed or replaced, or a store lands that could not read it. */
  ghost predicate StartsOver(op: Op) {
    !op.StoreOp? || (op.lands && !op.readable && op.key != "")
  }

  /** Nothing after i starts the file over or stores under the key. */
  ghost predicate Undisturbed(ops: seq<Op>, i: int, key: string) {
    forall j :: i < j < |ops| && 0 <= j ==> !StartsOver(ops[j]) && !(ops[j].lands && ops[j].key == key)
  }

  /** Load answers with the figures last stored under the key since the file last started
      over, and with nothing if there are none. */
  lemma {:induction false} LoadIsLastStored(ops: seq<Op>, key: string, r: Figures)
    requires key != "" && forall i :: 0 <= i < |ops| ==> WellFormed(ops[i])
    ensures Lookup(Run(ops), key) == Some(r) <==> exists i :: StoresAt(ops, i, key, r) && Undisturbed(ops, i, key)
  {
    if ops != [] {
      var n := |ops| - 1;
      var init, op := ops[..n], ops[n];
      LoadIsLastStored(init, key, r);
      if StoresAt(ops, n, key, r) {
        assert Undisturbed(ops, n, key);
      }
      if i :| StoresAt(init, i, key, r) && Undisturbed(init, i, key) {
        assert StoresAt(ops, i, key, r);
        assert Undisturbed(ops, i, key) <==> !StartsOver(op) && !(op.lands && op.key == key);
      }
      if i :| StoresAt(ops, i, key, r) && Undisturbed(ops, i, key) {
        if i < n {
          assert StoresAt(init, i, key, r) && Undisturbed(init, i, key);
        }
      }
    }
  }

  // ----- One benchmark run ----------------------------------------------

  datatype Outcome = Skipped | NotReady | Failed | Measured

  /** A bound is a verdict on a stalled engine, not a speed. */
  datatype Result = Result(outcome: Outcome, cached: bool, bound: bool, figures: Figures)

  datatype Speed = Switched | Yielded | Broke | Took(figures: Figures, bound: bool)

  /** What one try meets: whether the engine is quiet, whether the warm-up completes, how
      the measurement ends, and whether the engine process changed under a failure. */
  datatype Attempt = Attempt(quiet: bool, warmed: bool, speed: Speed, restarted: bool)

  /** What surrounds the run. */
  datatype Setting = Setting(supported: bool, ready: bool, skipLoad: bool, ledger: Option<Figures>, cacheOnly: bool,
                             tuningPending: bool, idle: bool, claimed: bool, warmSlots: int)

  /** Whether the cache file can be read when it is looked up, read again for the store, and
      written. */
  datatype Disk = Disk(loads: bool, readable: bool, lands: bool)

  const NO_FIGURES := Figures(UNMEASURED_CAPACITY, 0.0, 0.0, 0.0, 0)

  function Capacity(warmSlots: int): int {
    if warmSlots > 0 then warmSlots else UNMEASURED_CAPACITY
  }

  /** A try that failed because the engine was restarted under it. */
  predicate Bounced(a: Attempt) {
    a.quiet && a.restarted && (!a.warmed || a.speed.Broke?)
  }

  /** The try that decides: the first one not bounced, or the third. */
  function LastTry(attempts: seq<Attempt>): (i: nat)
    requires |attempts| > BOUNCE_GRACE
    ensures i <= BOUNCE_GRACE && (i < BOUNCE_GRACE ==> !Bounced(attempts[i]))
    ensures forall k :: 0 <= k < i ==> Bounced(attempts[k])
  {
    if !Bounced(attempts[0]) then 0 else if !Bounced(attempts[1]) then 1 else 2
  }

  /** A try that took a speed: an undisturbed measurement that is not a bound. */
  predicate TookSpeed(a: Attempt) {
    a.quiet && a.warmed && a.speed.Took? && !a.speed.bound
  }

  /** A try that took a verdict, be it a speed or a bound. */
  predicate TookVerdict(a: Attempt) {
    a.quiet && a.warmed && a.speed.Took?
  }

  /** A try that found the engine busy, or gave it up for something else. */
  predicate GaveWay(a: Attempt) {
    !a.quiet || (a.warmed && (a.speed.Switched? || a.speed.Yielded?))
  }

  /** How a try ends when it is not repeated. */
  function Ending(a: Attempt, warmSlots: int): Result {
    if !a.quiet then Result(NotReady, false, false, NO_FIGURES)
    else if !a.warmed then Result(Failed, false, false, NO_FIGURES)
    else match a.speed
         case Switched => Result(NotReady, false, false, NO_FIGURES)
         case Yielded => Result(NotReady, false, false, NO_FIGURES)
         case Broke => Result(Failed, false, false, NO_FIGURES)
         case Took(f, bound) => Result(Measured, false, bound, f.(capacity := Capacity(warmSlots)))
  }

  /** The measuring loop: restarts this agent ordered are not charged, at most twice. */
  method MeasureLoop(attempts: seq<Attempt>, warmSlots: int) returns (r: Result, used: nat)
    requires |attempts| > BOUNCE_GRACE
    ensures 1 <= used <= BOUNCE_GRACE + 1
    ensures forall i :: 0 <= i < used - 1 ==> Bounced(attempts[i])
    ensures used <= BOUNCE_GRACE ==> !Bounced(attempts[used - 1])
    ensures used == LastTry(attempts) + 1 && r == Ending(attempts[used - 1], warmSlots)
    ensures r.outcome == Measured <==> TookVerdict(attempts[LastTry(attempts)])
    ensures r.outcome == NotReady <==> GaveWay(attempts[LastTry(attempts)])
    ensures r.outcome != Skipped && !r.cached
    ensures r.outcome == Measured ==> (r.bound <==> !TookSpeed(attempts[LastTry(attempts)]))
    ensures r.outcome == Measured ==>
              r.figures == attempts[LastTry(attempts)].speed.figures.(capacity := Capacity(warmSlots))
  {
    var grace := BOUNCE_GRACE;
    used := 0;
    while true
      invariant 0 <= grace <= BOUNCE_GRACE && used == BOUNCE_GRACE - grace
      invariant forall i :: 0 <= i < used ==> Bounced(attempts[i])
      decreases grace
    {
      var a := attempts[used];
      used := used + 1;
      if !a.quiet {
        return Result(NotReady, false, false, NO_FIGURES), used;
      }
      if !a.warmed {
        if grace > 0 && a.restarted {
          grace := grace - 1;
          continue;
        }
        return Result(Failed, false, false, NO_FIGURES), used;
      }
      match a.speed
      case Switched => return Result(NotReady, false, false, NO_FIGURES), used;
      case Yielded => return Result(NotReady, false, false, NO_FIGURES), used;
      case Broke =>
        if grace > 0 && a.restarted {
          grace := grace - 1;
          continue;
        }
        return Result(Failed, false, false, NO_FIGURES), used;
      case Took(f, bound) => return Result(Measured, false, bound, f.(capacity := Capacity(warmSlots))), used;
    }
  }

  /** The run has to measure: it may, and nothing answers for it. */
  predicate Measures(s: Setting, key: string, file: File, disk: Disk) {
    && s.supported && s.ready && !s.cacheOnly && !s.tuningPending && s.idle && s.claimed
    && (s.skipLoad || (s.ledger.None? && !(disk.loads && Lookup(file, key).Some?)))
  }

  /** The file behind a run: the figures of the try that decided, with the capacity of the warm
      slots, under the key, exactly when the run measured and that try took a speed. */
  function FileAfter(s: Setting, key: string, file: File, attempts: seq<Attempt>, disk: Disk): File
    requires |attempts| > BOUNCE_GRACE
  {
    var a := attempts[LastTry(attempts)];
    if Measures(s, key, file, disk) && TookSpeed(a) && disk.lands
    then Stored(file, key, a.speed.figures.(capacity := Capacity(s.warmSlots)), disk.readable)
    else file
  }

  /** One benchmark run. Running without a cache is running with an empty key. */
  method RunBenchmark(s: Setting, key: string, cache: Cache, attempts: seq<Attempt>, disk: Disk) returns (r: Result)
    requires |attempts| > BOUNCE_GRACE
    modifies cache
    ensures cache.file == FileAfter(s, key, old(cache.file), attempts, disk)
    ensures !s.supported ==> r.outcome == Skipped && r.figures.capacity == 0
    ensures s.supported && !s.ready ==> r.outcome == NotReady && r.figures.capacity == UNMEASURED_CAPACITY
    ensures s.supported && s.ready && !s.skipLoad && disk.loads && Lookup(old(cache.file), key).Some? ==>
              r == Result(Measured, true, false, Lookup(old(cache.file), key).value)
    ensures s.supported && s.ready && !s.skipLoad && s.ledger.Some?
            && !(disk.loads && Lookup(old(cache.file), key).Some?) ==>
              r == Result(Measured, true, false, s.ledger.value.(capacity := Capacity(s.warmSlots)))
    ensures r.cached ==> r.outcome == Measured && !s.skipLoad
    ensures Measures(s, key, old(cache.file), disk) ==>
              var a := attempts[LastTry(attempts)];
              && !r.cached && (r.outcome == Measured <==> TookVerdict(a)) && (r.outcome == NotReady <==> GaveWay(a))
              && (r.outcome == Measured ==> (r.bound <==> !TookSpeed(a)))
    ensures r.outcome == Measured && !r.cached ==> Measures(s, key, old(cache.file), disk)
  {
    if !s.supported {
      return Result(Skipped, false, false, NO_FIGURES.(capacity := 0));
    }
    if !s.ready {
      return Result(NotReady, false, false, NO_FIGURES);
    }
    if key != "" && !s.skipLoad {
      var hit, _ := cache.Load(key, disk.loads);
      if hit.Some? {
        return Result(Measured, true, false, hit.value);
      }
    }
    if !s.skipLoad && s.ledger.Some? {
      return Result(Measured, true, false, s.ledger.value.(capacity := Capacity(s.warmSlots)));
    }
    if s.cacheOnly || s.tuningPending || !s.idle || !s.claimed {
      return Result(NotReady, false, false, NO_FIGURES);
    }
    var used;
    r, used := MeasureLoop(attempts, s.warmSlots);
    if r.outcome == Measured && !r.bound && key != "" {
      cache.Store(key, r.figures, disk.readable, disk.lands);
    }
  }

  // ----- Every run so far -----------------------------------------------

  /** A benchmark run, or something that happened to the file between two. */
  datatype Happening =
    | Ran(s: Setting, key: string, attempts: seq<Attempt>, disk: Disk)
    | Between(op: Op)

  ghost predicate Possible(h: Happening) {
    match h
    case Ran(_, _, attempts, _) => |attempts| > BOUNCE_GRACE
    case Between(op) => !op.StoreOp? && WellFormed(op)
  }

  ghost function FileSince(hs: seq<Happening>): File
    requires forall j :: 0 <= j < |hs| ==> Possible(hs[j])
  {
    if hs == [] then Absent
    else
      var f, h := FileSince(hs[..|hs| - 1]), hs[|hs| - 1];
      assert Possible(h);
      match h
      case Ran(s, key, attempts, disk) => FileAfter(s, key, f, attempts, disk)
      case Between(op) => Step(f, op)
  }

  /** The run measured these figures itself: it had to, and the try that decided was quiet,
      warmed up, finished, and not a bound. */
  ghost predicate MeasuredBy(hs: seq<Happening>, i: nat, key: string, f: Figures)
    requires i < |hs| && forall j :: 0 <= j < |hs| ==> Possible(hs[j])
  {
    && Possible(hs[i])
    && hs[i].Ran? && hs[i].key == key && Measures(hs[i].s, key, FileSince(hs[..i]), hs[i].disk)
    && (var a := hs[i].attempts[LastTry(hs[i].attempts)];
        TookSpeed(a) && f == a.speed.figures.(capacity := Capacity(hs[i].s.warmSlots)))
  }

  /** Over any history of runs and of what happens to the file between them, whatever the
      cache answers under a key was measured as a speed by a run with that key, and nothing has
      removed or replaced the file since. */
  lemma {:induction false} AnswersWereMeasured(hs: seq<Happening>, key: string, f: Figures) returns (i: nat)
    requires forall j :: 0 <= j < |hs| ==> Possible(hs[j])
    requires Lookup(FileSince(hs), key) == Some(f)
    ensures i < |hs| && MeasuredBy(hs, i, key, f)
    ensures forall j :: i < j < |hs| ==> hs[j].Ran?
  {
    var n := |hs| - 1;
    var init, h := hs[..n], hs[n];
    assert h.Ran?;
    var a := h.attempts[LastTry(h.attempts)];
    if h.key == key && Measures(h.s, key, FileSince(init), h.disk) && TookSpeed(a) && h.disk.lands {
      i := n;
    } else {
      i := AnswersWereMeasured(init, key, f);
      assert init[..i] == hs[..i];
    }
  }

  /** And a speed once stored answers: as long as nobody starts the file over or measures
      under that key again, every later run that looks finds it without measuring. */
  lemma {:induction false} SpeedIsKept(hs: seq<Happening>, i: nat, key: string, f: Figures)
    requires key != "" && i < |hs| && forall j :: 0 <= j < |hs| ==> Possible(hs[j])
    requires MeasuredBy(hs, i, key, f) && hs[i].disk.lands
    requires forall j :: i < j < |hs| ==> hs[j].Ran? && hs[j].key != key && hs[j].disk.readable
    ensures Lookup(FileSince(hs), key) == Some(f)
    decreases |hs|
  {
    var n := |hs| - 1;
    var init := hs[..n];
    if i < n {
      assert init[..i] == hs[..i];
      SpeedIsKept(init, i, key, f);
    }
  }
}
