/** Why the engine is held off (cmd/waired-agent/engine_park_reason.go, engine_control.go,
    inference_load_failure.go; the latch in internal/runtime/ollama.go). Each handler is
    one step. */
module EnginePark {
  datatype Cause = NoCause | Operator | OutOfMemory | CannotStart

  predicate LoadFailure(c: Cause) {
    c == OutOfMemory || c == CannotStart
  }

  /** How far a start has got: its child is coming up, the child failed and whatever still
      answers on the port is being asked for its version, or the version came back as the
      pinned one. */
  datatype Flight = NoStart | Starting | Asking | Answered

  /** `latched`, `adopted` and `flight` are the adapter's; `alive` is a process of this
      agent's own, `cause` the recorded reason. `holder` is not recorded anywhere: it is who
      last latched the engine. */
  datatype State = State(latched: bool, adopted: bool, alive: bool, flight: Flight, cause: Cause, holder: Cause)

  /** The reason reported: the latch is the authority, and a latch nobody explained reads
      as the operator's. */
  function Reported(s: State): Cause {
    if !s.latched then NoCause else if s.cause != NoCause then s.cause else Operator
  }

  datatype Event =
    | StopEngine(stopFails: bool)
    | StartEngine(refused: bool)
    | LoadFailed(why: Cause, recorded: bool, stopFails: bool)
    | Resume
    | Review(blocked: bool)
    | Begin
    | ComesUp
    | ChildFails
    | VersionRead(pinned: bool)
    | Land
    | Exit

  // ----- The adapter ----------------------------------------------------

  /** An engine this agent does not own is refused untouched; a stop that cannot end a live
      process drops the latch again; with no process there is nothing to fail. */
  predicate ParkFails(s: State, stopFails: bool) {
    s.adopted || (s.alive && stopFails)
  }

  /** Stopping cancels a start in flight; one whose version probe has already answered is
      past every check and lands all the same. */
  function Cancelled(f: Flight): Flight {
    if f == Answered then Answered else NoStart
  }

  function Parked(s: State, who: Cause, stopFails: bool): State {
    if s.adopted then s
    else if s.alive && stopFails then s.(latched := false, flight := Cancelled(s.flight), holder := NoCause)
    else s.(latched := true, alive := false, flight := Cancelled(s.flight), holder := who)
  }

  function Unparked(s: State): State {
    s.(latched := false, cause := NoCause, holder := NoCause)
  }

  // ----- The handlers ---------------------------------------------------

  function Resumed(s: State): State {
    if LoadFailure(Reported(s)) then Unparked(s) else s
  }

  function ParkedForLoad(s: State, why: Cause, stopFails: bool): State {
    if Reported(s) == Operator then s
    else
      var t := Parked(s, why, stopFails);
      t.(cause := if ParkFails(s, stopFails) then NoCause else why)
  }

  function Next(s: State, e: Event): State {
    match e
    case StopEngine(stopFails) => Parked(s, Operator, stopFails).(cause := Operator)
    case StartEngine(refused) => if refused then s else Unparked(s)
    case LoadFailed(why, recorded, stopFails) =>
      if recorded && LoadFailure(why) then ParkedForLoad(s, why, stopFails) else s
    case Resume => Resumed(s)
    case Review(blocked) => if blocked then s else Resumed(s)
    case Begin => if s.latched || s.flight != NoStart then s else s.(alive := true, flight := Starting)
    case ComesUp =>
      if s.flight != Starting then s else s.(adopted := false, alive := !s.latched, flight := NoStart)
    case ChildFails => if s.flight != Starting then s else s.(alive := false, flight := Asking)
    case VersionRead(pinned) =>
      if s.flight != Asking then s else s.(flight := if pinned then Answered else NoStart)
    case Land => if s.flight != Answered then s else s.(adopted := true, flight := NoStart)
    case Exit => if s.flight == Starting then s else s.(alive := false)
  }

  class Host {
    var latched: bool
    var adopted: bool
    var alive: bool
    var flight: Flight
    var cause: Cause
    ghost var holder: Cause

    ghost function View(): State
      reads this
    {
      State(latched, adopted, alive, flight, cause, holder)
    }

    method Because() returns (c: Cause)
      ensures c == Reported(View())
    {
      if !latched {
        return NoCause;
      }
      if cause != NoCause {
        return cause;
      }
      return Operator;
    }

    method Park(ghost why: Cause, stopFails: bool) returns (ok: bool)
      modifies this
      ensures ok == !ParkFails(old(View()), stopFails) && View() == Parked(old(View()), why, stopFails)
      ensures ok <==> !old(adopted) && !(old(alive) && stopFails)
      ensures ok ==> latched && holder == why && !alive
      ensures !ok && !old(adopted) ==> !latched && holder == NoCause && alive
      ensures old(adopted) ==> View() == old(View())
      ensures !old(adopted) ==> flight == if old(flight) == Answered then Answered else NoStart
      ensures adopted == old(adopted) && cause == old(cause)
    {
      if adopted {
        return false;
      }
      latched, holder := true, why;
      flight := Cancelled(flight);
      if alive && stopFails {
        latched, holder := false, NoCause;
        return false;
      }
      alive := false;
      return true;
    }

    /** A parked engine is not started, and a start in flight is joined. */
    method EnsureRunning() returns (leads: bool)
      modifies this
      ensures View() == Next(old(View()), Begin) && leads == (!old(latched) && old(flight) == NoStart)
      ensures leads ==> alive && flight == Starting
    {
      if latched || flight != NoStart {
        return false;
      }
      alive, flight := true, Starting;
      return true;
    }

    /** The rest of a start. The latch is checked again behind a child that came up, and
        not before an engine that answered with the pinned version is adopted. */
    method FinishStart(step: Event)
      requires step.ComesUp? || step.ChildFails? || step.VersionRead? || step.Land?
      modifies this
      ensures View() == Next(old(View()), step)
      ensures step.ComesUp? && old(flight) == Starting ==> flight == NoStart && !adopted && alive == !latched
      ensures step.ChildFails? && old(flight) == Starting ==> flight == Asking && !alive
      ensures step.VersionRead? && old(flight) == Asking ==> flight == if step.pinned then Answered else NoStart
      ensures step.Land? && old(flight) == Answered ==> flight == NoStart && adopted
      ensures latched == old(latched) && cause == old(cause)
    {
      match step
      case ComesUp =>
        if flight == Starting {
          adopted, flight := false, NoStart;
          alive := !latched;
        }
      case ChildFails =>
        if flight == Starting {
          alive, flight := false, Asking;
        }
      case VersionRead(pinned) =>
        if flight == Asking {
          flight := if pinned then Answered else NoStart;
        }
      case Land =>
        if flight == Answered {
          adopted, flight := true, NoStart;
        }
    }

    method Stop(stopFails: bool) returns (ok: bool)
      modifies this
      ensures View() == Next(old(View()), StopEngine(stopFails))
      ensures ok ==> latched && cause == Operator && holder == Operator && !alive
      ensures ok == !old(ParkFails(View(), stopFails))
    {
      cause := Operator;
      ok := Park(Operator, stopFails);
    }

    method Start(refused: bool) returns (ok: bool)
      modifies this
      ensures View() == Next(old(View()), StartEngine(refused)) && ok == !refused
      ensures ok ==> !latched && cause == NoCause && holder == NoCause
      ensures ok ==> adopted == old(adopted) && alive == old(alive) && flight == old(flight)
      ensures !ok ==> View() == old(View())
    {
      if refused {
        return false;
      }
      cause, latched, holder := NoCause, false, NoCause;
      return true;
    }

    method OnLoadFailure(why: Cause, recorded: bool, stopFails: bool)
      requires LoadFailure(why)
      modifies this
      ensures View() == Next(old(View()), LoadFailed(why, recorded, stopFails))
      ensures recorded && old(Reported(View())) != Operator && !old(ParkFails(View(), stopFails)) ==>
                latched && cause == why && holder == why && !alive
      ensures !recorded || old(Reported(View())) == Operator ==> View() == old(View())
    {
      if !recorded {
        return;
      }
      var c := Because();
      if c == Operator {
        return;
      }
      cause := why;
      var ok := Park(why, stopFails);
      if !ok {
        cause := NoCause;
      }
    }

    method ResumeAfterLoadFailure() returns (did: bool)
      modifies this
      ensures View() == Next(old(View()), Resume) && did == LoadFailure(Reported(old(View())))
      ensures did ==> !latched && cause == NoCause && holder == NoCause
      ensures !did ==> View() == old(View())
    {
      var c := Because();
      if !LoadFailure(c) {
        return false;
      }
      cause, latched, holder := NoCause, false, NoCause;
      return true;
    }

    method ReviewPark(blocked: bool)
      modifies this
      ensures View() == Next(old(View()), Review(blocked))
      ensures !blocked && LoadFailure(Reported(old(View()))) ==> !latched && cause == NoCause && holder == NoCause
      ensures blocked || !LoadFailure(Reported(old(View()))) ==> View() == old(View())
    {
      var c := Because();
      if LoadFailure(c) && !blocked {
        var _ := ResumeAfterLoadFailure();
      }
    }
  }

  // ----- Runs -----------------------------------------------------------

  function Run(s: State, es: seq<Event>): State {
    if es == [] then s else Next(Run(s, es[..|es| - 1]), es[|es| - 1])
  }

  const BOOT := State(false, false, false, NoStart, NoCause, NoCause)

  /** A latched engine has no process of ours and no start a stop could have cancelled;
      exactly the latched have a holder. */
  ghost predicate Inv(s: State) {
    && (s.latched ==> !s.alive && (s.flight == NoStart || s.flight == Answered))
    && (s.alive ==> s.flight != Asking && s.flight != Answered) && (s.flight == Starting ==> s.alive)
    && (s.latched <==> s.holder != NoCause)
    && (s.holder == Operator ==> s.cause == Operator)
  }

  lemma {:induction false} RunKeepsInv(s: State, es: seq<Event>)
    requires Inv(s)
    ensures Inv(Run(s, es))
  {
    if es != [] {
      RunKeepsInv(s, es[..|es| - 1]);
    }
  }

  /** The engine is off because a person stopped it. */
  ghost predicate StoppedByOperator(s: State) {
    s.latched && s.cause == Operator && s.holder == Operator
  }

  /** A stop that succeeds stays, and is reported as the operator's, until a start that is
      not refused: through load failures, resumes, reviews, refused starts, further stops
      that fail, adoptions and everything else. */
  lemma {:induction false} OperatorStopStays(s: State, stopFails: bool, es: seq<Event>)
    requires Inv(s) && !ParkFails(s, stopFails)
    requires forall i :: 0 <= i < |es| ==> !(es[i].StartEngine? && !es[i].refused)
    ensures StoppedByOperator(Run(Next(s, StopEngine(stopFails)), es))
    ensures Reported(Run(Next(s, StopEngine(stopFails)), es)) == Operator
  {
    var s' := Next(s, StopEngine(stopFails));
    if es != [] {
      OperatorStopStays(s, stopFails, es[..|es| - 1]);
      RunKeepsInv(s', es[..|es| - 1]);
    }
  }

  /** The stop has been in force all along. */
  ghost predicate StoppedThroughout(s: State, es: seq<Event>) {
    StoppedByOperator(Run(s, es)) && (es != [] ==> StoppedThroughout(s, es[..|es| - 1]))
  }

  ghost predicate NeverStarted(es: seq<Event>) {
    forall i :: 0 <= i < |es| ==> !(es[i].StartEngine? && !es[i].refused)
  }

  /** And no longer: after a successful stop, a run keeps it in force exactly as long as every
      start in it is refused. */
  lemma {:induction false} StopLastsUntilStart(s: State, stopFails: bool, es: seq<Event>)
    requires Inv(s) && !ParkFails(s, stopFails)
    ensures StoppedThroughout(Next(s, StopEngine(stopFails)), es) <==> NeverStarted(es)
  {
    if es != [] {
      var init, e := es[..|es| - 1], es[|es| - 1];
      StopLastsUntilStart(s, stopFails, init);
      assert NeverStarted(es) <==> NeverStarted(init) && !(e.StartEngine? && !e.refused);
      if NeverStarted(es) {
        OperatorStopStays(s, stopFails, es);
      }
    }
  }

  /** Over every run, a start that is not refused ends whatever park there is: nothing is
      latched or reported, and unless a start is already in flight the next request for the
      engine begins one. */
  lemma StartEndsEveryPark(es: seq<Event>)
    ensures var t := Run(BOOT, es + [StartEngine(false)]);
            && !t.latched && Reported(t) == NoCause
            && (t.flight == NoStart ==> Run(BOOT, es + [StartEngine(false), Begin]).flight == Starting)
            && (t.flight == NoStart ==>
                  Run(BOOT, es + [StartEngine(false), Begin, ComesUp])
                  == State(false, false, true, NoStart, NoCause, NoCause))
  {
    var es1, es2, es3 := es + [StartEngine(false)], es + [StartEngine(false), Begin],
                         es + [StartEngine(false), Begin, ComesUp];
    assert es1[..|es|] == es && es2[..|es| + 1] == es1 && es3[..|es| + 2] == es2;
  }

  /** A stop that cannot end the process drops the latch with it; once the process has gone by
      itself, the same stop holds. */
  lemma StopHoldsAfterExit(es: seq<Event>)
    ensures var s := Run(BOOT, es); var t := Run(BOOT, es + [Exit, StopEngine(true)]);
            && (t.latched <==> if s.adopted then s.latched else s.flight != Starting)
            && (t.latched && !s.adopted ==> Reported(t) == Operator && t.holder == Operator && !t.alive)
  {
    RunKeepsInv(BOOT, es);
    var es1, es2 := es + [Exit], es + [Exit, StopEngine(true)];
    assert es1[..|es|] == es && es2[..|es| + 1] == es1;
  }

  /** A park for a load, by itself, lasts until a resume, a review that finds nothing in the
      way, or a start that is not refused; each of them ends it. */
  lemma LoadParkEndsIff(s: State, e: Event)
    requires Inv(s) && s.latched && LoadFailure(s.cause) && !s.adopted
    requires e.StopEngine? || e.LoadFailed? ==> !ParkFails(s, e.stopFails)
    ensures !Next(s, e).latched <==> e == Resume || e == Review(false) || e == StartEngine(false)
  {
  }

  // ----- Who is named ---------------------------------------------------

  /** The reported cause is whoever latched the engine; nobody, when nobody did. */
  ghost predicate Truthful(s: State) {
    Reported(s) == s.holder
  }

  /** A stop or a further load failure that meets an engine held off for a load and, by
      now, adopted: the adapter refuses without touching the latch, and the record no
      longer says why it is on. */
  ghost predicate Misattributes(s: State, e: Event) {
    && s.latched && s.adopted && LoadFailure(s.holder)
    && (e.StopEngine? || (e.LoadFailed? && e.recorded && LoadFailure(e.why)))
  }

  lemma StepIsTruthfulIff(s: State, e: Event)
    requires Inv(s) && Truthful(s)
    ensures Truthful(Next(s, e)) <==> !Misattributes(s, e)
    ensures Misattributes(s, e) ==> Reported(Next(s, e)) == Operator
  {
  }

  ghost predicate TruthfulThroughout(es: seq<Event>) {
    Truthful(Run(BOOT, es)) && (es != [] ==> TruthfulThroughout(es[..|es| - 1]))
  }

  ghost predicate NeverMisattributes(es: seq<Event>) {
    es != [] ==>
      NeverMisattributes(es[..|es| - 1]) && !Misattributes(Run(BOOT, es[..|es| - 1]), es[|es| - 1])
  }

  /** Along a whole run the report stays truthful exactly as long as no step misattributes. */
  lemma {:induction false} RunIsTruthfulIff(es: seq<Event>)
    ensures TruthfulThroughout(es) <==> NeverMisattributes(es)
  {
    if es != [] {
      var init := es[..|es| - 1];
      RunIsTruthfulIff(init);
      RunKeepsInv(BOOT, init);
      if Truthful(Run(BOOT, init)) {
        StepIsTruthfulIff(Run(BOOT, init), es[|es| - 1]);
      }
    }
  }

  // ----- The one way there ----------------------------------------------

  /** A load failure that parks while a start has its answer and has not adopted yet: the
      stop it makes has nothing left to cancel. */
  ghost predicate ParksTooLate(s: State, e: Event) {
    e.LoadFailed? && s.flight == Answered && !s.latched && Next(s, e).latched
  }

  ghost predicate NeverParksTooLate(es: seq<Event>) {
    es != [] ==>
      NeverParksTooLate(es[..|es| - 1]) && !ParksTooLate(Run(BOOT, es[..|es| - 1]), es[|es| - 1])
  }

  /** Without such a park no engine held off for a load is ever adopted, and every report of
      every run names whoever latched the engine. */
  lemma {:induction false} TruthfulUnlessTooLate(es: seq<Event>)
    requires NeverParksTooLate(es)
    ensures var s := Run(BOOT, es); LoadFailure(s.holder) ==> !s.adopted && s.flight == NoStart
    ensures TruthfulThroughout(es)
  {
    if es != [] {
      var init := es[..|es| - 1];
      TruthfulUnlessTooLate(init);
      RunKeepsInv(BOOT, init);
      StepIsTruthfulIff(Run(BOOT, init), es[|es| - 1]);
    }
  }

  /** And with one, the report can be turned: for every state in which a load failure's park
      comes too late, landing the start and asking for a stop reports the park as the
      operator's, and neither a resume nor a review releases it. */
  lemma TooLateCanMisattribute(s: State, why: Cause, stopFails: bool, more: bool, blocked: bool)
    requires Inv(s) && LoadFailure(why) && ParksTooLate(s, LoadFailed(why, true, stopFails))
    ensures var t := Next(Next(Next(s, LoadFailed(why, true, stopFails)), Land), StopEngine(more));
            && t.latched && t.holder == why && Reported(t) == Operator
            && Next(t, Resume) == t && Next(t, Review(blocked)) == t
  {
  }

  /** Such a park can be reached: the child fails, the port answers with the pinned version,
      and a load failure is handled before the start adopts it. */
  lemma MisattributedPark()
    ensures var es := [Begin, ChildFails, VersionRead(true), LoadFailed(OutOfMemory, true, false), Land,
        StopEngine(false)];
            var s := Run(BOOT, es);
            s.latched && s.holder == OutOfMemory && Reported(s) == Operator
  {
    var es := [Begin, ChildFails, VersionRead(true), LoadFailed(OutOfMemory, true, false), Land, StopEngine(false)];
    assert es[..5][..4] == es[..4] && es[..4][..3] == es[..3] && es[..3][..2] == es[..2]
           && es[..2][..1] == es[..1] && es[..1][..0] == [];
    assert Run(BOOT, es[..1]) == State(false, false, true, Starting, NoCause, NoCause);
    assert Run(BOOT, es[..2]) == State(false, false, false, Asking, NoCause, NoCause);
    assert Run(BOOT, es[..3]) == State(false, false, false, Answered, NoCause, NoCause);
    assert es[..5] == es[..|es| - 1];
    TooLateCanMisattribute(Run(BOOT, es[..3]), OutOfMemory, false, false, false);
  }
}
