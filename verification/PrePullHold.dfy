/** The boot pre-pull hold of cmd/waired-agent/inference_prepull_hold.go.

    One waiter holds the bundled download back while setup frames, a terminal's claim
    that it is asking the model question, timers and the operator's own switches race
    it. Every mutex section, atomic load or store, file access and select branch is one
    step, and the environment may act between any two of them. */
module PrePullHold {
  import opened Broadcasts

  type Time = int

  /** What the control plane's latest frame said about this host. */
  datatype SetupFrame = SetupFrame(named: string, seen: bool, driving: bool)

  const NO_FRAME := SetupFrame("", false, false)

  /** setupNoteDesired: the first model named sticks. */
  function NoteDesired(f: SetupFrame, modelID: string, driving: bool): SetupFrame {
    SetupFrame(if modelID != "" && f.named == "" then modelID else f.named, true, driving)
  }

  /** The provider's two broadcasts, as the methods that write and read them. */
  class SetupState {
    const frames: Cell<SetupFrame>
    const choice: Cell<Option<Time>>

    constructor ()
      ensures frames.Abs() == Fresh(NO_FRAME) && choice.Abs() == Fresh(None)
    {
      frames := new Cell(NO_FRAME);
      choice := new Cell(None);
    }

    method SetupNoteDesired(modelID: string, driving: bool)
      requires Valid(frames.Abs())
      modifies frames
      ensures frames.Abs() == Announce(old(frames.Abs()), NoteDesired(old(frames.value), modelID, driving))
      ensures Valid(frames.Abs())
      ensures frames.value.named == if old(frames.value.named) != "" then old(frames.value.named) else modelID
      ensures frames.value.seen && frames.value.driving == driving
    {
      frames.Write(NoteDesired(frames.value, modelID, driving));
    }

    method NoteModelChoicePending(pending: bool, now: Time, window: int)
      requires Valid(choice.Abs())
      modifies choice
      ensures choice.Abs() == Announce(old(choice.Abs()), if pending then Some(now + window) else None)
      ensures Valid(choice.Abs())
    {
      choice.Write(if pending then Some(now + window) else None);
    }
  }

  // ---------------------------------------------------------------------
  // The shared state, the waiter and their steps
  // ---------------------------------------------------------------------

  /** A stored preference: an answer, or the record that nobody answered. */
  datatype Preference = Model(id: string) | NoLocalModel | Unanswered

  type Answer = p: Preference | p != Unanswered witness NoLocalModel

  datatype PrefFile = Absent | Unreadable | Record(pref: Preference)

  predicate HoldsAnswer(f: PrefFile) {
    f.Record? && f.pref != Unanswered
  }

  /** How the waiter can end. `recorded` says whether the abandoned question was
      recorded, or left alone because an answer was found. */
  datatype Ending =
    | Cancelled
    | SetupNamed
    | Abandoned(how: Abandonment, recorded: bool)
    | NotWanted
    | CutOff
    | Dispatched(id: string)

  /** The two ways the question expires: the hold ceiling and the terminal's claim. */
  datatype Abandonment = HoldCeiling | ClaimExpired

  datatype Round = First | Last

  /** The reads of prePullStillWanted, in order. */
  datatype Gate = Override | Swap | NoModel | Question

  /** The reads and writes of persistModelQuestionUnanswered, in order. */
  datatype Persist = ReadOverride | ReadNoModel | ReadFile | SetFlag | SaveFile

  datatype PC =
    | Reading
    | Parked(frame: SetupFrame, ch: Chan)
    | Persisting(stage: Persist, how: Abandonment)
    | Wanted(round: Round, gate: Gate, id: string)
    | Measuring(id: string)
    | ChoiceReading(id: string)
    | ChoiceJudging(id: string, until: Time, ch: Chan)
    | ChoiceParked(id: string, until: Time, ch: Chan)
    | LastNamed(id: string)
    | Dispatching(id: string)
    | Done(ending: Ending)

  datatype Clock = Clock(now: Time, graceAt: Time, ceilingAt: Time, graceUsed: bool, cancelled: bool)

  /** The operator's answers, in process and on disk. `fileSet` is a configured path. */
  datatype Answers = Answers(override: string, pendingSwap: string, noModel: bool, unanswered: bool,
                             file: PrefFile, fileSet: bool)

  datatype State = State(
    frames: Broadcast<SetupFrame>,
    choice: Broadcast<Option<Time>>,
    clock: Clock,
    ans: Answers,
    pc: PC,
    dispatched: seq<string>)

  /** What everybody else may do at any moment. */
  datatype Env =
    | Frame(modelID: string, driving: bool)
    | ClaimPending(until: Time)
    | ClaimGone
    | Tick(dt: nat)
    | CancelContext
    | SetOverride(id: string)
    | SetSwap(id: string)
    | SetNoModel(b: bool)
    | ClearUnanswered
    | WriteAnswer(pref: Answer)
    | RemoveFile
    | CorruptFile

  /** What the waiter's step depends on besides the state: the select branch, the
      target bundledPrePullTarget resolves, the cutoff's answer, a failing read or write. */
  datatype Choice =
    | Proceed
    | OnWake
    | OnGrace
    | OnCeiling
    | OnExpiry
    | OnCancel
    | Target(id: Option<string>)
    | Cutoff(download: bool)
    | ReadFails
    | WriteFails

  datatype Action = World(e: Env) | Waiter(c: Choice)

  function ClockStep(k: Clock, e: Env): Clock {
    match e
    case Tick(dt) => k.(now := k.now + dt)
    case CancelContext => k.(cancelled := true)
    case _ => k
  }

  function AnswersStep(a: Answers, e: Env): Answers {
    match e
    case SetOverride(id) => a.(override := id)
    case SetSwap(id) => a.(pendingSwap := id)
    case SetNoModel(b) => a.(noModel := b)
    case ClearUnanswered => a.(unanswered := false)
    case WriteAnswer(pref) => a.(file := Record(pref))
    case RemoveFile => a.(file := Absent)
    case CorruptFile => a.(file := Unreadable)
    case _ => a
  }

  function EnvStep(s: State, e: Env): State {
    State(
      if e.Frame? then Announce(s.frames, NoteDesired(s.frames.value, e.modelID, e.driving)) else s.frames,
      if e.ClaimPending? then Announce(s.choice, Some(e.until)) else if e.ClaimGone?
          then Announce(s.choice, None) else s.choice,
      ClockStep(s.clock, e),
      AnswersStep(s.ans, e),
      s.pc,
      s.dispatched)
  }

  // A waiter step whose branch is not ready leaves the state as it is.

  function Go(s: State, pc: PC): State {
    s.(pc := pc)
  }

  /** awaitPrePullRelease, after its snapshot. `id` is the model chosen at boot. */
  function ReadPC(f: SetupFrame, ch: Chan, id: string): PC {
    if f.named != "" then Done(SetupNamed)
    else if f.seen && !f.driving then Wanted(First, Override, id)
    else Parked(f, ch)
  }

  /** awaitPrePullRelease, in its select. */
  function ParkedPC(s: State, id: string, c: Choice): PC
    requires s.pc.Parked?
  {
    match c
    case OnWake => if s.pc.ch in s.frames.closed then Reading else s.pc
    case OnGrace =>
      if s.clock.graceUsed || s.clock.now < s.clock.graceAt then s.pc
      else if s.pc.frame.seen then Reading
      else Wanted(First, Override, id)
    case OnCeiling => if s.clock.now < s.clock.ceilingAt then s.pc else Persisting(ReadOverride, HoldCeiling)
    case OnCancel => if s.clock.cancelled then Done(Cancelled) else s.pc
    case _ => s.pc
  }

  /** persistModelQuestionUnanswered, one access at a time. */
  function PersistPC(a: Answers, stage: Persist, how: Abandonment, c: Choice): PC {
    match stage
    case ReadOverride => if a.override != "" then Done(Abandoned(how, false)) else Persisting(ReadNoModel, how)
    case ReadNoModel => if a.noModel then Done(Abandoned(how, false)) else Persisting(ReadFile, how)
    case ReadFile =>
      if c != ReadFails && a.fileSet && a.file.Record? then Done(Abandoned(how, false)) else Persisting(SetFlag, how)
    case SetFlag => if a.fileSet then Persisting(SaveFile, how) else Done(Abandoned(how, true))
    case SaveFile => Done(Abandoned(how, true))
  }

  function PersistAnswers(a: Answers, stage: Persist, c: Choice): Answers {
    match stage
    case SetFlag => a.(unanswered := true)
    case SaveFile => if c == WriteFails then a else a.(file := Record(Unanswered))
    case _ => a
  }

  /** prePullStillWanted, one read at a time. */
  function WantedPC(a: Answers, pc: PC, c: Choice): PC
    requires pc.Wanted?
  {
    var Wanted(round, gate, id) := pc;
    match gate
    case Override => if a.override != "" && a.override != id then Done(NotWanted) else Wanted(round, Swap, id)
    case Swap => if a.pendingSwap != "" && a.pendingSwap != id then Done(NotWanted) else Wanted(round, NoModel, id)
    case NoModel => if a.noModel then Done(NotWanted) else Wanted(round, Question, id)
    case Question =>
      if a.unanswered then Done(NotWanted)
      else if !c.Target? then pc
      else if c.id.None? then Done(NotWanted)
      else if round == First then Measuring(c.id.value)
      else Dispatching(c.id.value)
  }

  /** awaitModelChoice, in its select. */
  function ChoiceParkedPC(s: State, c: Choice): PC
    requires s.pc.ChoiceParked?
  {
    match c
    case OnWake => if s.pc.ch in s.choice.closed then ChoiceReading(s.pc.id) else s.pc
    case OnExpiry => if s.pc.until <= s.clock.now then ChoiceReading(s.pc.id) else s.pc
    case OnCancel => if s.clock.cancelled then Done(Cancelled) else s.pc
    case _ => s.pc
  }

  /** holdBundledPrePull: where the waiter goes next, for the model `id` chosen at boot. */
  function WaiterPC(s: State, id: string, c: Choice): PC {
    match s.pc
    case Reading => ReadPC(s.frames.value, Snapshot(s.frames).2, id)
    case Parked(_, _) => ParkedPC(s, id, c)
    case Persisting(stage, how) => PersistPC(s.ans, stage, how, c)
    case Wanted(_, _, _) => WantedPC(s.ans, s.pc, c)
    case Measuring(m) => if !c.Cutoff? then s.pc else if c.download then ChoiceReading(m) else Done(CutOff)
    case ChoiceReading(m) =>
      if s.choice.value.None? then LastNamed(m) else ChoiceJudging(m, s.choice.value.value, Snapshot(s.choice).2)
    case ChoiceJudging(m, until, ch) =>
      if until <= s.clock.now then Persisting(ReadOverride, ClaimExpired) else ChoiceParked(m, until, ch)
    case ChoiceParked(_, _, _) => ChoiceParkedPC(s, c)
    case LastNamed(m) => if s.frames.value.named != "" then Done(SetupNamed) else Wanted(Last, Override, m)
    case Dispatching(m) => Done(Dispatched(m))
    case Done(_) => s.pc
  }

  /** What one step of the waiter does to the shared state: the two snapshots make a
      channel if there is none, the grace timer is used up, the persisting steps write. */
  function WaiterStep(s: State, id: string, c: Choice): State {
    State(
      if s.pc.Reading? || s.pc.LastNamed? then Snapshot(s.frames).0 else s.frames,
      if s.pc.ChoiceReading? then Snapshot(s.choice).0 else s.choice,
      if s.pc.Parked? && c.OnGrace? && s.clock.graceAt <= s.clock.now then s.clock.(graceUsed := true) else s.clock,
      if s.pc.Persisting? then PersistAnswers(s.ans, s.pc.stage, c) else s.ans,
      WaiterPC(s, id, c),
      if s.pc.Dispatching? then s.dispatched + [s.pc.id] else s.dispatched)
  }

  ghost predicate Step(s: State, id: string, a: Action, t: State) {
    match a
    case World(e) => t == EnvStep(s, e)
    case Waiter(c) => t == WaiterStep(s, id, c)
  }

  ghost predicate Init(s: State) {
    && Valid(s.frames) && Valid(s.choice)
    && s.pc == Reading && s.dispatched == [] && !s.clock.graceUsed
  }

  ghost predicate Path(id: string, states: seq<State>, actions: seq<Action>) {
    && |states| == |actions| + 1
    && forall i :: 0 <= i < |actions| ==> Step(states[i], id, actions[i], states[i + 1])
  }

  ghost predicate Run(id: string, states: seq<State>, actions: seq<Action>) {
    Path(id, states, actions) && Init(states[0])
  }

  // ---------------------------------------------------------------------
  // No update is missed
  // ---------------------------------------------------------------------

  /** Whatever the waiter parks on, an open channel means its snapshot is current. */
  ghost predicate NothingMissed(s: State) {
    && Valid(s.frames) && Valid(s.choice)
    && (s.pc.Parked? ==> Current(s.frames, s.pc.frame, s.pc.ch))
    && (s.pc.ChoiceJudging? ==> Current(s.choice, Some(s.pc.until), s.pc.ch))
    && (s.pc.ChoiceParked? ==> Current(s.choice, Some(s.pc.until), s.pc.ch))
  }

  /** At most one dispatch, and only by the ending that names it; a save only with a path to save to. */
  ghost predicate DispatchLog(s: State) {
    && s.dispatched == (if s.pc.Done? && s.pc.ending.Dispatched? then [s.pc.ending.id] else [])
    && (s.pc.Persisting? && s.pc.stage == SaveFile ==> s.ans.fileSet)
  }

  lemma EnvKeeps(s: State, e: Env)
    requires NothingMissed(s) && DispatchLog(s)
    ensures var t := EnvStep(s, e);
            && NothingMissed(t) && DispatchLog(t)
            && (s.frames.value.named != "" ==> t.frames.value.named == s.frames.value.named)
            && t.ans.fileSet == s.ans.fileSet
  {
  }

  lemma WaiterKeepsSnapshots(s: State, id: string, c: Choice)
    requires NothingMissed(s)
    ensures NothingMissed(WaiterStep(s, id, c))
    ensures WaiterStep(s, id, c).frames.value == s.frames.value
  {
  }

  lemma WaiterKeepsLog(s: State, id: string, c: Choice)
    requires DispatchLog(s)
    ensures DispatchLog(WaiterStep(s, id, c))
    ensures WaiterStep(s, id, c).ans.fileSet == s.ans.fileSet
  {
  }

  lemma StepKeeps(s: State, id: string, a: Action, t: State)
    requires NothingMissed(s) && DispatchLog(s) && Step(s, id, a, t)
    ensures NothingMissed(t) && DispatchLog(t)
    ensures s.frames.value.named != "" ==> t.frames.value.named == s.frames.value.named
    ensures t.ans.fileSet == s.ans.fileSet
  {
    match a
    case World(e) => EnvKeeps(s, e);
    case Waiter(c) => WaiterKeepsSnapshots(s, id, c); WaiterKeepsLog(s, id, c);
  }

  lemma {:induction false} RunKeeps(id: string, states: seq<State>, actions: seq<Action>, i: nat)
    requires Run(id, states, actions) && i < |states|
    ensures NothingMissed(states[i]) && DispatchLog(states[i])
  {
    if i > 0 {
      RunKeeps(id, states, actions, i - 1);
      StepKeeps(states[i - 1], id, actions[i - 1], states[i]);
    }
  }

  /** In every reachable state: a waiter parked on setup frames whose channel is
      still open holds the current frame, and one parked on the model choice holds
      the current claim. Equivalently, once either value has been rewritten the
      waiter's wake-up branch is enabled. */
  lemma NoUpdateMissed(id: string, states: seq<State>, actions: seq<Action>, i: nat)
    requires Run(id, states, actions) && i < |states|
    ensures var s := states[i];
            && (s.pc.Parked? ==> s.pc.frame == s.frames.value || WaiterStep(s, id, OnWake).pc == Reading)
            && (s.pc.ChoiceParked? ==>
                  || s.choice.value == Some(s.pc.until)
                  || WaiterStep(s, id, OnWake).pc == ChoiceReading(s.pc.id))
  {
    RunKeeps(id, states, actions, i);
  }

  // ---------------------------------------------------------------------
  // At most one download, and never one that was already wrong
  // ---------------------------------------------------------------------

  lemma DispatchedAtMostOnce(id: string, states: seq<State>, actions: seq<Action>, i: nat)
    requires Run(id, states, actions) && i < |states|
    ensures |states[i].dispatched| <= 1
    ensures states[i].dispatched != [] <==> states[i].pc.Done? && states[i].pc.ending.Dispatched?
  {
    RunKeeps(id, states, actions, i);
  }

  /** The waiter has re-read the setup frame for the last time. */
  predicate PastLastNamed(pc: PC) {
    || (pc.Wanted? && pc.round == Last)
    || pc.Dispatching?
    || (pc.Done? && pc.ending.Dispatched?)
  }

  lemma {:induction false} NamedModelStandsDown(id: string, states: seq<State>, actions: seq<Action>, i: nat, j: nat)
    requires Run(id, states, actions) && i <= j < |states|
    requires states[i].frames.value.named != "" && !PastLastNamed(states[i].pc)
    ensures states[j].dispatched == []
    ensures states[j].frames.value.named == states[i].frames.value.named && !PastLastNamed(states[j].pc)
    decreases j - i
  {
    RunKeeps(id, states, actions, i);
    if i < j {
      StepKeeps(states[i], id, actions[i], states[i + 1]);
      NamedModelStandsDown(id, states, actions, i + 1, j);
    }
  }

  /** The waiter has seen the hold ceiling or an expired claim. */
  predicate SawAbandonment(pc: PC) {
    pc.Persisting? || (pc.Done? && pc.ending.Abandoned?)
  }

  lemma {:induction false} AbandonedNeverDispatches(id: string, states: seq<State>, actions: seq<Action>, i: nat,
                                                    j: nat)
    requires Run(id, states, actions) && i <= j < |states|
    requires SawAbandonment(states[i].pc)
    ensures SawAbandonment(states[j].pc) && states[j].dispatched == []
    decreases j - i
  {
    RunKeeps(id, states, actions, i);
    if i < j {
      AbandonedNeverDispatches(id, states, actions, i + 1, j);
    }
  }

  /** The order in which the last re-check reads. */
  function Rank(pc: PC): int {
    match pc
    case Wanted(Last, Override, _) => 1
    case Wanted(Last, Swap, _) => 2
    case Wanted(Last, NoModel, _) => 3
    case Wanted(Last, Question, _) => 4
    case Dispatching(_) => 5
    case Done(Dispatched(_)) => 6
    case _ => 0
  }

  /** The state in which the waiter made read number `r` of its last re-check found
      nothing against the download of `m`. */
  ghost predicate Cleared(s: State, r: int, m: string) {
    match r
    case 1 => s.pc == LastNamed(m) && s.frames.value.named == ""
    case 2 => s.pc == Wanted(Last, Override, m) && (s.ans.override == "" || s.ans.override == m)
    case 3 => s.pc == Wanted(Last, Swap, m) && (s.ans.pendingSwap == "" || s.ans.pendingSwap == m)
    case 4 => s.pc == Wanted(Last, NoModel, m) && !s.ans.noModel
    case 5 => s.pc == Wanted(Last, Question, m) && !s.ans.unanswered
    case _ => false
  }

  /** Before state j the waiter made reads 1 to n of the last re-check, in that order. */
  ghost predicate ClearedUpTo(states: seq<State>, j: nat, n: nat, m: string)
    decreases n
  {
    n > 0 ==> exists k: nat :: k < j && k < |states| && Cleared(states[k], n, m) && ClearedUpTo(states, k, n - 1, m)
  }

  lemma {:induction false} LaterStillCleared(states: seq<State>, j: nat, j': nat, n: nat, m: string)
    requires ClearedUpTo(states, j, n, m) && j <= j'
    ensures ClearedUpTo(states, j', n, m)
  {
    if n > 0 {
      var k: nat :| k < j && k < |states| && Cleared(states[k], n, m) && ClearedUpTo(states, k, n - 1, m);
      assert k < j';
    }
  }

  /** The model the last re-check is about: its reads compare against one name. */
  ghost predicate LastChecks(states: seq<State>, j: nat)
    requires j < |states|
  {
    var pc := states[j].pc;
    var r := Rank(pc);
    && (1 <= r <= 4 ==> ClearedUpTo(states, j, r, pc.id))
    && (5 <= r ==> exists m :: ClearedUpTo(states, j, 5, m))
  }

  /** The waiter advances through the last re-check only by finding nothing. */
  lemma LastCheckMoves(s: State, id: string, a: Action, t: State)
    requires Step(s, id, a, t) && Rank(t.pc) != 0 && t.pc != s.pc
    ensures Rank(t.pc) == Rank(s.pc) + 1
    ensures Rank(t.pc) <= 4 ==> Cleared(s, Rank(t.pc), t.pc.id) && (Rank(s.pc) != 0 ==> s.pc.id == t.pc.id)
    ensures Rank(t.pc) == 5 ==> Cleared(s, 5, s.pc.id)
  {
  }

  ghost predicate MovesOn(s: State, t: State) {
    var r := Rank(t.pc);
    || t.pc == s.pc
    || (&& r == Rank(s.pc) + 1
        && (1 <= r <= 4 ==> Cleared(s, r, t.pc.id) && (Rank(s.pc) != 0 ==> s.pc.id == t.pc.id))
        && (r == 5 ==> Cleared(s, 5, s.pc.id)))
  }

  lemma StepMovesOn(s: State, id: string, a: Action, t: State)
    requires Step(s, id, a, t) && Rank(t.pc) != 0
    ensures MovesOn(s, t)
  {
    if t.pc != s.pc {
      LastCheckMoves(s, id, a, t);
    }
  }

  lemma LastChecksExtend(states: seq<State>, j: nat)
    requires 0 < j < |states| && LastChecks(states, j - 1) && Rank(states[j].pc) != 0
    requires MovesOn(states[j - 1], states[j])
    ensures LastChecks(states, j)
  {
    var s, t := states[j - 1], states[j];
    var r := Rank(t.pc);
    if t.pc == s.pc || r == 6 {
      var n := if r <= 4 then r else 5;
      var m :| ClearedUpTo(states, j - 1, n, m) && (r <= 4 ==> m == t.pc.id);
      LaterStillCleared(states, j - 1, j, n, m);
    } else {
      var m := if r <= 4 then t.pc.id else s.pc.id;
      assert Cleared(states[j - 1], r, m) && ClearedUpTo(states, j - 1, r - 1, m);
      assert ClearedUpTo(states, j, r, m);
    }
  }

  lemma {:induction false} LastChecksHold(id: string, states: seq<State>, actions: seq<Action>, j: nat)
    requires Run(id, states, actions) && j < |states|
    ensures LastChecks(states, j)
  {
    if j > 0 && Rank(states[j].pc) != 0 {
      LastChecksHold(id, states, actions, j - 1);
      StepMovesOn(states[j - 1], id, actions[j - 1], states[j]);
      LastChecksExtend(states, j);
    }
  }

  /** A download is dispatched only behind five reads, made in this order after
      every wait: setup named nothing, no other model preferred, no other switch
      downloading, no "run without a model", no abandoned question. */
  lemma DispatchIsBehindLastCheck(id: string, states: seq<State>, actions: seq<Action>, j: nat)
    requires Run(id, states, actions) && j < |states|
    requires states[j].dispatched != []
    ensures exists m :: ClearedUpTo(states, j, 5, m)
  {
    RunKeeps(id, states, actions, j);
    LastChecksHold(id, states, actions, j);
  }

  /** A switch made before the last override read, and not undone, is let through only by
      a last re-check that was about the model switched to. */
  lemma {:induction false} SwitchStandsDown(id: string, states: seq<State>, actions: seq<Action>,
                                            i: nat, j: nat, x: string)
    requires Run(id, states, actions) && i <= j < |states|
    requires x != "" && forall n :: i <= n <= j ==> states[n].ans.override == x
    requires Rank(states[i].pc) < 2
    ensures Rank(states[j].pc) >= 2 ==> exists n :: i <= n < j && states[n].pc == Wanted(Last, Override, x)
    ensures states[j].dispatched != [] ==> exists n :: i <= n < j && states[n].pc == Wanted(Last, Override, x)
  {
    RunKeeps(id, states, actions, j);
    if i < j {
      SwitchStandsDown(id, states, actions, i, j - 1, x);
      var s, t := states[j - 1], states[j];
      if Rank(t.pc) >= 2 && t.pc != s.pc {
        LastCheckMoves(s, id, actions[j - 1], t);
        if Rank(t.pc) == 2 {
          assert states[j - 1].pc == Wanted(Last, Override, x);
        }
      }
    }
  }

  /** The same for a switch that is still downloading. */
  lemma {:induction false} SwapStandsDown(id: string, states: seq<State>, actions: seq<Action>,
                                          i: nat, j: nat, x: string)
    requires Run(id, states, actions) && i <= j < |states|
    requires x != "" && forall n :: i <= n <= j ==> states[n].ans.pendingSwap == x
    requires Rank(states[i].pc) < 3
    ensures Rank(states[j].pc) >= 3 ==> exists n :: i <= n < j && states[n].pc == Wanted(Last, Swap, x)
    ensures states[j].dispatched != [] ==> exists n :: i <= n < j && states[n].pc == Wanted(Last, Swap, x)
  {
    RunKeeps(id, states, actions, j);
    if i < j {
      SwapStandsDown(id, states, actions, i, j - 1, x);
      var s, t := states[j - 1], states[j];
      if Rank(t.pc) >= 3 && t.pc != s.pc {
        LastCheckMoves(s, id, actions[j - 1], t);
        if Rank(t.pc) == 3 {
          assert states[j - 1].pc == Wanted(Last, Swap, x);
        }
      }
    }
  }

  /** Whenever the bundled model resolves, it resolves to the one chosen at boot. */
  ghost predicate OneTarget(id: string, actions: seq<Action>) {
    forall n :: 0 <= n < |actions| && actions[n].Waiter? && actions[n].c.Target? && actions[n].c.id.Some? ==>
      actions[n].c.id.value == id
  }

  ghost predicate About(pc: PC, id: string) {
    match pc
    case Wanted(_, _, m) => m == id
    case Measuring(m) => m == id
    case ChoiceReading(m) => m == id
    case ChoiceJudging(m, _, _) => m == id
    case ChoiceParked(m, _, _) => m == id
    case LastNamed(m) => m == id
    case Dispatching(m) => m == id
    case Done(Dispatched(m)) => m == id
    case _ => true
  }

  lemma {:induction false} OnlyTheTarget(id: string, states: seq<State>, actions: seq<Action>, j: nat)
    requires Run(id, states, actions) && OneTarget(id, actions) && j < |states|
    ensures About(states[j].pc, id) && forall d <- states[j].dispatched :: d == id
  {
    if j > 0 {
      OnlyTheTarget(id, states, actions, j - 1);
      assert Step(states[j - 1], id, actions[j - 1], states[j]);
    }
  }

  /** Nothing is dispatched when another model is preferred before the last override read, or
      is being switched to before the last swap read, and stays so. */
  lemma SwitchRulesOutDispatch(id: string, states: seq<State>, actions: seq<Action>, i: nat, j: nat, x: string)
    requires Run(id, states, actions) && OneTarget(id, actions) && i <= j < |states|
    requires x != "" && x != id
    requires || (Rank(states[i].pc) < 2 && forall n :: i <= n <= j ==> states[n].ans.override == x)
             || (Rank(states[i].pc) < 3 && forall n :: i <= n <= j ==> states[n].ans.pendingSwap == x)
    ensures states[j].dispatched == []
  {
    if Rank(states[i].pc) < 2 && forall n :: i <= n <= j ==> states[n].ans.override == x {
      SwitchStandsDown(id, states, actions, i, j, x);
      if n :| i <= n < j && states[n].pc == Wanted(Last, Override, x) {
        OnlyTheTarget(id, states, actions, n);
        assert false;
      }
    } else {
      SwapStandsDown(id, states, actions, i, j, x);
      if n :| i <= n < j && states[n].pc == Wanted(Last, Swap, x) {
        OnlyTheTarget(id, states, actions, n);
        assert false;
      }
    }
  }

  // ---------------------------------------------------------------------
  // The abandoned question
  // ---------------------------------------------------------------------

  ghost predicate AnswerSeen(s: State) {
    && s.pc.Persisting?
    && (|| (s.pc.stage == ReadOverride && s.ans.override != "")
        || (s.pc.stage == ReadNoModel && s.ans.noModel)
        || (s.pc.stage == ReadFile && s.ans.fileSet && s.ans.file.Record?))
  }

  predicate AtStage(pc: PC, stage: Persist) {
    pc.Persisting? && pc.stage == stage
  }

  /** The step that sets the in-process record of the abandoned question. */
  predicate Flagged(s: State, t: State) {
    AtStage(s.pc, SetFlag) && t.ans.unanswered
  }

  /** What the steps before state j establish about an abandonment's record. */
  ghost predicate PersistHistory(states: seq<State>, j: nat)
    requires j < |states|
  {
    var pc := states[j].pc;
    && (pc.Done? && pc.ending.Abandoned? && !pc.ending.recorded ==> exists k: nat :: k < j && AnswerSeen(states[k]))
    && ((pc.Persisting? && pc.stage == SaveFile) || (pc.Done? && pc.ending.Abandoned? && pc.ending.recorded) ==>
          exists k: nat :: k < j && Flagged(states[k], states[k + 1]))
  }

  lemma {:induction false} PersistHistoryHolds(id: string, states: seq<State>, actions: seq<Action>, j: nat)
    requires Run(id, states, actions) && j < |states|
    ensures PersistHistory(states, j)
  {
    if j > 0 {
      PersistHistoryHolds(id, states, actions, j - 1);
      var s, t := states[j - 1], states[j];
      assert Step(s, id, actions[j - 1], t);
      if s.pc != t.pc && t.pc.Done? && t.pc.ending.Abandoned? && !t.pc.ending.recorded {
        assert AnswerSeen(states[j - 1]);
      }
      if s.pc.Persisting? && s.pc.stage == SetFlag && s.pc != t.pc {
        assert Flagged(states[j - 1], states[j - 1 + 1]);
      }
    }
  }

  /** Both abandonments end either with the in-process record that nobody answered or with
      something found where an answer is looked for: a preferred model, "run without a
      model", or a stored record, which may itself say that nobody answered. */
  lemma AbandonmentIsRecordedOrAnswered(id: string, states: seq<State>, actions: seq<Action>, j: nat)
    requires Run(id, states, actions) && j < |states|
    requires states[j].pc.Done? && states[j].pc.ending.Abandoned?
    ensures if states[j].pc.ending.recorded
            then exists k: nat :: k < j && Flagged(states[k], states[k + 1])
            else exists k: nat :: k < j && AnswerSeen(states[k])
  {
    PersistHistoryHolds(id, states, actions, j);
  }

  predicate TouchesFile(a: Action) {
    a.World? && (a.e.WriteAnswer? || a.e.RemoveFile? || a.e.CorruptFile?)
  }

  /** From the read that found no stored preference (state k) to the save (state j). */
  ghost predicate SaveWindow(id: string, states: seq<State>, actions: seq<Action>, k: nat, j: nat) {
    && Run(id, states, actions) && k < j < |actions|
    && states[k].pc.Persisting? && states[k].pc.stage == ReadFile && actions[k].Waiter?
    && states[j].pc.Persisting? && states[j].pc.stage == SaveFile && actions[j] == Waiter(Proceed)
    && forall m :: k < m <= j ==> AtStage(states[m].pc, SetFlag) || AtStage(states[m].pc, SaveFile)
  }

  /** An answer landed at step m of the window and nothing touched the file after it. */
  ghost predicate LandsInWindow(actions: seq<Action>, k: nat, j: nat, m: nat)
    requires j < |actions|
  {
    && k < m < j
    && actions[m].World? && actions[m].e.WriteAnswer?
    && forall n :: m < n < j ==> !TouchesFile(actions[n])
  }

  /** After the last action of the window that touches it, the file stays as it is. */
  lemma {:induction false} FileStays(id: string, states: seq<State>, actions: seq<Action>, k: nat, j: nat, m: nat)
    requires SaveWindow(id, states, actions, k, j) && k <= m < j
    requires forall n :: m < n < j ==> !TouchesFile(actions[n])
    ensures states[m + 1].ans.file == states[j].ans.file
    decreases j - m
  {
    if m + 1 < j {
      assert Step(states[m + 1], id, actions[m + 1], states[m + 2]);
      FileStays(id, states, actions, k, j, m + 1);
    }
  }

  /** The read failed on a stored answer and nothing touched the file until the save. */
  ghost predicate MissedByRead(states: seq<State>, actions: seq<Action>, k: nat, j: nat)
    requires k < j < |actions| && |states| == |actions| + 1
  {
    && HoldsAnswer(states[k].ans.file) && actions[k] == Waiter(ReadFails)
    && forall n :: k < n < j ==> !TouchesFile(actions[n])
  }

  /** Looking back from the save for the last action that touched the file. */
  lemma {:induction false} LastTouch(id: string, states: seq<State>, actions: seq<Action>, k: nat, j: nat, m: nat)
    returns (n: nat)
    requires SaveWindow(id, states, actions, k, j) && k <= m < j
    requires forall i :: m < i < j ==> !TouchesFile(actions[i])
    ensures k <= n < j && (n == k || TouchesFile(actions[n])) && forall i :: n < i < j ==> !TouchesFile(actions[i])
    decreases m
  {
    if m == k || TouchesFile(actions[m]) {
      n := m;
    } else {
      n := LastTouch(id, states, actions, k, j, m - 1);
    }
  }

  lemma {:induction false} PathIsSet(id: string, states: seq<State>, actions: seq<Action>, i: nat, j: nat)
    requires Run(id, states, actions) && i <= j < |states|
    ensures states[i].ans.fileSet == states[j].ans.fileSet
    decreases j - i
  {
    if i < j {
      assert Step(states[i], id, actions[i], states[i + 1]);
      PathIsSet(id, states, actions, i + 1, j);
    }
  }

  /** Saving happens only with a path configured. */
  lemma {:induction false} SavesWithPath(id: string, states: seq<State>, actions: seq<Action>, j: nat)
    requires Run(id, states, actions) && j < |states|
    ensures states[j].pc.Persisting? && states[j].pc.stage == SaveFile ==> states[j].ans.fileSet
  {
    if j > 0 {
      SavesWithPath(id, states, actions, j - 1);
      assert Step(states[j - 1], id, actions[j - 1], states[j]);
    }
  }

  /** The save is not guarded by the read: it overwrites a stored answer exactly when one
      was written between the two and was still there at the save, or when the read failed
      on one that was already stored and nothing touched the file since. An answer that was
      stored before a read that succeeded is never overwritten. */
  lemma SaveOverwritesAnswerIff(id: string, states: seq<State>, actions: seq<Action>, k: nat, j: nat)
    requires SaveWindow(id, states, actions, k, j)
    ensures HoldsAnswer(states[j].ans.file) <==>
              (exists m: nat :: LandsInWindow(actions, k, j, m)) || MissedByRead(states, actions, k, j)
    ensures states[j + 1].ans.file == Record(Unanswered)
    ensures HoldsAnswer(states[k].ans.file) ==> actions[k] == Waiter(ReadFails)
  {
    assert Step(states[j], id, actions[j], states[j + 1]);
    assert Step(states[k], id, actions[k], states[k + 1]);
    SavesWithPath(id, states, actions, j);
    PathIsSet(id, states, actions, k, j);
    var n := LastTouch(id, states, actions, k, j, j - 1);
    FileStays(id, states, actions, k, j, n);
    assert Step(states[n], id, actions[n], states[n + 1]);
    if HoldsAnswer(states[j].ans.file) && n != k {
      assert LandsInWindow(actions, k, j, n);
    }
    if m: nat :| LandsInWindow(actions, k, j, m) {
      FileStays(id, states, actions, k, j, m);
      assert Step(states[m], id, actions[m], states[m + 1]);
    }
  }

  /** Outside that window the waiter writes the preference file never. */
  lemma OnlyTheSaveWrites(s: State, id: string, c: Choice, t: State)
    requires Step(s, id, Waiter(c), t) && t.ans.file != s.ans.file
    ensures s.pc.Persisting? && s.pc.stage == SaveFile && t.ans.file == Record(Unanswered)
  {
  }

  /** A hold whose ceiling has passed while a wizard drove without naming a model. */
  function AtCeiling(stage: Persist, file: PrefFile, unanswered: bool): State {
    State(Announce(Fresh(NO_FRAME), SetupFrame("", true, true)), Fresh(None), Clock(3600, 30, 3600, false, false),
          Answers("", "", false, unanswered, file, true), Persisting(stage, HoldCeiling), [])
  }

  function Ended(): State {
    Go(AtCeiling(SaveFile, Record(Unanswered), true), Done(Abandoned(HoldCeiling, true)))
  }

  lemma CeilingReached(id: string, file: PrefFile) returns (states: seq<State>, actions: seq<Action>)
    ensures |states| == 5 && |actions| == 4 && Run(id, states, actions)
    ensures states[4] == AtCeiling(ReadOverride, file, false) && states[0].ans.file == file
  {
    var s0 := State(Fresh(NO_FRAME), Fresh(None), Clock(0, 30, 3600, false, false),
                    Answers("", "", false, false, file, true), Reading, []);
    var s1 := EnvStep(s0, Frame("", true));
    var s2 := Go(s1, Parked(SetupFrame("", true, true), 0));
    var s3 := EnvStep(s2, Tick(3600));
    states := [s0, s1, s2, s3, AtCeiling(ReadOverride, file, false)];
    actions := [World(Frame("", true)), Waiter(Proceed), World(Tick(3600)), Waiter(OnCeiling)];
  }

  lemma Extend(id: string, states: seq<State>, actions: seq<Action>, a: Action, t: State)
    returns (states': seq<State>, actions': seq<Action>)
    requires Path(id, states, actions) && Step(states[|actions|], id, a, t)
    ensures states' == states + [t] && actions' == actions + [a] && Path(id, states', actions')
    ensures states'[0] == states[0] && states'[|actions|] == states[|actions|] && states'[|actions| + 1] == t
    ensures actions'[|actions|] == a
  {
    states', actions' := states + [t], actions + [a];
  }

  /** From the ceiling to the read of the preference file. */
  lemma AtTheRead(id: string, file: PrefFile) returns (states: seq<State>, actions: seq<Action>)
    ensures |states| == 7 && |actions| == 6 && Run(id, states, actions)
    ensures states[6] == AtCeiling(ReadFile, file, false) && states[0].ans.file == file
  {
    states, actions := CeilingReached(id, file);
    states, actions := Extend(id, states, actions, Waiter(Proceed), AtCeiling(ReadNoModel, file, false));
    states, actions := Extend(id, states, actions, Waiter(Proceed), AtCeiling(ReadFile, file, false));
  }

  /** The window is reachable: the ceiling passes with nothing stored, the person
      answers between the read and the save, and the answer is gone from the file. */
  lemma LostAnswerExample(id: string) returns (states: seq<State>, actions: seq<Action>, k: nat, j: nat)
    ensures SaveWindow(id, states, actions, k, j)
    ensures states[j].ans.file == Record(Model("chosen"))
    ensures states[j + 1].ans.file == Record(Unanswered)
  {
    states, actions := AtTheRead(id, Absent);
    var chosen := Record(Model("chosen"));
    states, actions := Extend(id, states, actions, Waiter(Proceed), AtCeiling(SetFlag, Absent, false));
    states, actions := Extend(id, states, actions, Waiter(Proceed), AtCeiling(SaveFile, Absent, true));
    states, actions := Extend(id, states, actions, World(WriteAnswer(Model("chosen"))), AtCeiling(SaveFile, chosen,
        true));
    states, actions := Extend(id, states, actions, Waiter(Proceed), Ended());
    k, j := 6, 9;
  }

  /** So is the failing read: an answer is stored all along, the read of it fails, and the
      save writes over it. */
  lemma MissedAnswerExample(id: string) returns (states: seq<State>, actions: seq<Action>, k: nat, j: nat)
    ensures SaveWindow(id, states, actions, k, j) && MissedByRead(states, actions, k, j)
    ensures states[0].ans.file == states[j].ans.file == Record(Model("chosen"))
    ensures states[j + 1].ans.file == Record(Unanswered)
  {
    var chosen := Record(Model("chosen"));
    states, actions := AtTheRead(id, chosen);
    states, actions := Extend(id, states, actions, Waiter(ReadFails), AtCeiling(SetFlag, chosen, false));
    states, actions := Extend(id, states, actions, Waiter(Proceed), AtCeiling(SaveFile, chosen, true));
    states, actions := Extend(id, states, actions, Waiter(Proceed), Ended());
    k, j := 6, 8;
  }
}
