/** The local-inference choice across boots, requests and measurements
    (cmd/waired-agent/inference_startup.go, inference_control.go, host_cutoff.go; the files
    under internal/runtime/state). Each handler is one step. */
module InferenceToggle {
  datatype Option<T> = None | Some(value: T)

  /** The persisted choice; Unset means nobody has moved the toggle. */
  datatype Choice = Unset | On | Off

  /** Who last wrote the choice; not recorded anywhere. */
  datatype Writer = Nobody | Flag | Person | Cutoff

  /** `mark` is the stored claim that the measurement turned local inference off; `enabled`
      is the live state of the running agent. */
  datatype State = State(choice: Choice, mark: bool, enabled: bool, writer: Writer)

  function ChoiceOf(on: bool): Choice {
    if on then On else Off
  }

  // ----- The files ------------------------------------------------------

  /** Writing the choice drops the mark, if that second write succeeds. */
  function Written(s: State, on: bool, lands: bool, clears: bool, who: Writer): State {
    if !lands then s
    else s.(choice := ChoiceOf(on), mark := s.mark && !clears, writer := who)
  }

  // ----- The boot plan --------------------------------------------------

  datatype Plan = Plan(on: bool, persist: bool)

  function InitialPlan(configured: bool, persisted: Choice, flag: Option<bool>): Plan {
    if flag.Some? then Plan(flag.value, ChoiceOf(flag.value) != persisted)
    else if persisted != Unset then Plan(persisted == On, false)
    else Plan(configured, false)
  }

  // ----- Steps ----------------------------------------------------------

  /** The cutoff's circumstances: its verdict, whether the choice can be read, whether there
      is a controller to turn off, and whether a measurement is held in memory. */
  datatype CutoffRun = CutoffRun(decided: bool, meets: bool, readable: bool, controller: bool, measured: bool)

  datatype Event =
    | Boot(configured: bool, flag: Option<bool>, lands: bool, clears: bool)
    | Request(on: bool, lands: bool, clears: bool)
    | Published(recordReadable: bool, stores: bool)
    | ApplyCutoff(run: CutoffRun, lands: bool, clears: bool, marks: bool)

  function Transition(s: State, on: bool, lands: bool, clears: bool, who: Writer): State {
    if lands then Written(s, on, true, clears, who).(enabled := on) else s
  }

  /** Whether the cutoff turns local inference off. */
  predicate CutsOff(s: State, run: CutoffRun) {
    (!run.readable || s.choice == Unset) && run.decided && !run.meets && run.controller
  }

  function Next(s: State, e: Event): State {
    match e
    case Boot(configured, flag, lands, clears) =>
      var plan := InitialPlan(configured, s.choice, flag);
      if plan.persist && !lands then s
      else (if plan.persist then Written(s, plan.on, true, clears, Flag) else s).(enabled := plan.on)
    case Request(on, lands, clears) => Transition(s, on, lands, clears, Person)
    case Published(recordReadable, stores) => if stores then s.(mark := s.mark && recordReadable) else s
    case ApplyCutoff(run, lands, clears, marks) =>
      if !CutsOff(s, run) || !lands then s
      else
        var t := Transition(s, false, true, clears, Cutoff);
        if run.measured && marks then t.(mark := true) else t
  }

  class Agent {
    var choice: Choice
    var mark: bool
    var enabled: bool
    ghost var writer: Writer

    ghost function View(): State
      reads this
    {
      State(choice, mark, enabled, writer)
    }

    method WriteChoice(on: bool, lands: bool, clears: bool, ghost who: Writer) returns (ok: bool)
      modifies this
      ensures ok == lands && View() == Written(old(View()), on, lands, clears, who)
      ensures ok ==> choice == ChoiceOf(on) && (clears ==> !mark) && enabled == old(enabled)
      ensures !ok ==> View() == old(View())
    {
      if !lands {
        return false;
      }
      choice, writer := ChoiceOf(on), who;
      if mark && clears {
        mark := false;
      }
      return true;
    }

    method MoveTo(on: bool, lands: bool, clears: bool, ghost who: Writer) returns (ok: bool)
      modifies this
      ensures ok == lands && View() == Transition(old(View()), on, lands, clears, who)
    {
      ok := WriteChoice(on, lands, clears, who);
      if ok {
        enabled := on;
      }
    }

    /** Enable and Disable. */
    method Request(on: bool, lands: bool, clears: bool) returns (ok: bool)
      modifies this
      ensures ok == lands && View() == Next(old(View()), Event.Request(on, lands, clears))
      ensures ok ==> choice == ChoiceOf(on) && enabled == on && (clears ==> !mark)
      ensures !ok ==> View() == old(View())
    {
      ok := MoveTo(on, lands, clears, Person);
    }

    /** A flag that cannot be persisted stops the boot. */
    method BootUp(configured: bool, flag: Option<bool>, lands: bool, clears: bool) returns (up: bool)
      modifies this
      ensures View() == Next(old(View()), Boot(configured, flag, lands, clears))
      ensures up && flag.Some? ==> choice == ChoiceOf(flag.value) && enabled == flag.value
      ensures up && flag.None? ==> choice == old(choice) && mark == old(mark)
      ensures up && flag.None? ==> enabled == if choice == Unset then configured else choice == On
      ensures up || (flag.Some? && !lands)
    {
      var plan := InitialPlan(configured, choice, flag);
      if plan.persist {
        up := WriteChoice(plan.on, lands, clears, Flag);
        if !up {
          return;
        }
      }
      enabled, up := plan.on, true;
    }

    /** Whether the caller should go on and download the bundled model. */
    method RunCutoff(run: CutoffRun, lands: bool, clears: bool, marks: bool) returns (download: bool)
      modifies this
      ensures View() == Next(old(View()), ApplyCutoff(run, lands, clears, marks))
      ensures download <==> (run.readable && old(choice) != Unset) || !run.decided || run.meets
      ensures !download && run.controller && lands ==> choice == Off && !enabled
      ensures !download && run.controller && lands && run.measured && marks ==> mark
      ensures download || !run.controller || !lands ==> View() == old(View())
    {
      if run.readable && choice != Unset {
        return true;
      }
      if !run.decided || run.meets {
        return true;
      }
      if !run.controller {
        return false;
      }
      var ok := MoveTo(false, lands, clears, Cutoff);
      if ok && run.measured && marks {
        mark := true;
      }
      return false;
    }
  }

  // ----- Runs -----------------------------------------------------------

  function Run(s: State, es: seq<Event>): State {
    if es == [] then s else Next(Run(s, es[..|es| - 1]), es[|es| - 1])
  }

  /** The choice could be read. */
  predicate Readable(e: Event) {
    e.ApplyCutoff? ==> e.run.readable
  }

  /** Somebody said so: a boot flag or a request. */
  predicate Said(e: Event) {
    (e.Boot? && e.flag.Some?) || e.Request?
  }

  /** A written choice is changed by the cutoff exactly when the cutoff cannot read it. */
  lemma CutoffOverwritesIff(s: State, e: Event)
    requires s.choice != Unset && e.ApplyCutoff?
    ensures Next(s, e).choice != s.choice <==> !Readable(e) && s.choice == On && CutsOff(s, e.run) && e.lands
  {
  }

  /** Once written, the choice outlives every boot, measurement and cutoff that says
      nothing itself, and each boot comes up as chosen. */
  lemma {:induction false} ChoiceSurvives(s: State, es: seq<Event>)
    requires s.choice != Unset
    requires forall i :: 0 <= i < |es| ==> Readable(es[i]) && !Said(es[i])
    ensures Run(s, es).choice == s.choice && Run(s, es).writer == s.writer
    ensures (s.enabled == (s.choice == On)) || (exists i :: 0 <= i < |es| && es[i].Boot?) ==>
              Run(s, es).enabled == (s.choice == On)
  {
    if es != [] {
      var n := |es| - 1;
      var init := es[..n];
      ChoiceSurvives(s, init);
      if i :| 0 <= i < |es| && es[i].Boot? {
        assert i < n ==> init[i].Boot?;
      }
    }
  }

  lemma SplitRun(s: State, es: seq<Event>, fs: seq<Event>)
    ensures Run(s, es + fs) == Run(Run(s, es), fs)
    decreases |fs|
  {
    if fs == [] {
      assert es + fs == es;
    } else {
      assert (es + fs)[..|es + fs| - 1] == es + fs[..|fs| - 1];
      SplitRun(s, es, fs[..|fs| - 1]);
    }
  }

  /** A request that lands decides: over any boots, measurements and cutoffs after it that can
      read it and carry no flag, local inference stays, and comes back, as requested. */
  lemma RequestDecides(s: State, on: bool, clears: bool, es: seq<Event>)
    requires forall i :: 0 <= i < |es| ==> Readable(es[i]) && !Said(es[i])
    ensures var t := Run(s, [Request(on, true, clears)] + es);
            t.choice == ChoiceOf(on) && t.enabled == on && t.writer == Person
  {
    var first := [Request(on, true, clears)];
    assert first[..0] == [];
    SplitRun(s, first, es);
    ChoiceSurvives(Run(s, first), es);
  }

  /** A boot flag decides in the same way. */
  lemma FlagDecides(s: State, configured: bool, on: bool, clears: bool, es: seq<Event>)
    requires forall i :: 0 <= i < |es| ==> Readable(es[i]) && !Said(es[i])
    ensures var t := Run(s, [Boot(configured, Some(on), true, clears)] + es);
            t.choice == ChoiceOf(on) && t.enabled == on
  {
    var first := [Boot(configured, Some(on), true, clears)];
    assert first[..0] == [];
    SplitRun(s, first, es);
    ChoiceSurvives(Run(s, first), es);
  }

  /** With nothing ever said, the cutoff of a measured slow host turns local inference off and
      says so, and that too survives until somebody says otherwise. */
  lemma SlowHostStaysOff(s: State, run: CutoffRun, clears: bool, es: seq<Event>)
    requires s.choice == Unset && run.decided && !run.meets && run.controller && run.measured
    requires forall i :: 0 <= i < |es| ==> Readable(es[i]) && !Said(es[i])
    ensures var first := ApplyCutoff(run, true, clears, true);
            && Next(s, first).mark && Next(s, first).writer == Cutoff
            && Run(s, [first] + es).choice == Off && !Run(s, [first] + es).enabled
  {
    var first := [ApplyCutoff(run, true, clears, true)];
    assert first[..0] == [];
    SplitRun(s, first, es);
    ChoiceSurvives(Run(s, first), es);
  }

  /** The mark is there only while the cutoff's own "off" is the last thing written. */
  ghost predicate MarkInv(s: State) {
    s.mark ==> s.writer == Cutoff && s.choice == Off
  }

  /** Somebody writes over the cutoff's choice and the mark fails to clear. */
  ghost predicate LeavesMark(s: State, e: Event) {
    && s.mark
    && ((e.Request? && e.lands && !e.clears)
        || (e.Boot? && e.lands && !e.clears && InitialPlan(e.configured, s.choice, e.flag).persist))
  }

  lemma StepKeepsMarkIff(s: State, e: Event)
    requires MarkInv(s)
    ensures MarkInv(Next(s, e)) <==> !LeavesMark(s, e)
  {
  }

  ghost predicate MarkedRightThroughout(s: State, es: seq<Event>) {
    MarkInv(Run(s, es)) && (es != [] ==> MarkedRightThroughout(s, es[..|es| - 1]))
  }

  ghost predicate AlwaysCleared(s: State, es: seq<Event>) {
    es != [] ==>
      AlwaysCleared(s, es[..|es| - 1]) && !LeavesMark(Run(s, es[..|es| - 1]), es[|es| - 1])
  }

  /** Along a whole run the mark means what it says exactly as long as it is cleared
      whenever somebody writes over the cutoff's choice. */
  lemma {:induction false} MarkMeansCutoffIff(s: State, es: seq<Event>)
    requires MarkInv(s)
    ensures MarkedRightThroughout(s, es) <==> AlwaysCleared(s, es)
  {
    if es != [] {
      var init := es[..|es| - 1];
      MarkMeansCutoffIff(s, init);
      if MarkInv(Run(s, init)) {
        StepKeepsMarkIff(Run(s, init), es[|es| - 1]);
      }
    }
  }

  /** The cutoff turned local inference off and said so. */
  predicate Claims(e: Event) {
    e.ApplyCutoff? && e.run.measured && e.marks
  }

  /** A measurement stored over a record that cannot be read forgets the claim, and only a later
      cutoff makes it again; stored over a readable one it carries the claim along. */
  lemma MarkIsCarried(s: State, readable: bool, es: seq<Event>)
    requires forall i :: 0 <= i < |es| ==> !Claims(es[i])
    ensures var t := Run(s, [Published(readable, true)] + es);
            && (t.mark ==> s.mark && readable)
            && ((forall i :: 0 <= i < |es| ==> es[i].Published? && es[i].recordReadable) ==>
                  (t.mark <==> s.mark && readable))
  {
    var first := [Published(readable, true)];
    assert first[..0] == [];
    SplitRun(s, first, es);
    MarkNeedsClaim(Run(s, first), es);
  }

  lemma {:induction false} MarkNeedsClaim(s: State, es: seq<Event>)
    requires forall i :: 0 <= i < |es| ==> !Claims(es[i])
    ensures Run(s, es).mark ==> s.mark
    ensures (forall i :: 0 <= i < |es| ==> es[i].Published? && es[i].recordReadable) ==> Run(s, es).mark == s.mark
  {
    if es != [] {
      MarkNeedsClaim(s, es[..|es| - 1]);
    }
  }

  // ----- What goes wrong when a file does --------------------------------

  /** A host that never had a choice written. */
  const FRESH := State(Unset, false, true, Nobody)

  /** A slow host, measured, with everything else in order. */
  const SLOW := CutoffRun(true, false, true, true, true)

  /** A person turns local inference on; a later cutoff cannot read that and turns it off. */
  lemma OverwrittenChoice()
    ensures var s := Run(FRESH, [Request(true, true, true)]);
            var t := Next(s, ApplyCutoff(SLOW.(readable := false), true, true, true));
            s.choice == On && t.choice == Off && t.writer == Cutoff
  {
    var es := [Request(true, true, true)];
    assert es[..0] == [];
  }

  /** The cutoff turns it off, a person confirms that, and the mark is not cleared: it still
      says the measurement did it. */
  lemma StaleMark()
    ensures var es := [ApplyCutoff(SLOW, true, true, true), Request(false, true, false)];
            var s := Run(FRESH, es);
            s.mark && s.writer == Person && s.choice == Off && !AlwaysCleared(FRESH, es)
  {
    var es := [ApplyCutoff(SLOW, true, true, true), Request(false, true, false)];
    assert es[..1] == [es[0]] && es[..1][..0] == [];
    assert Run(FRESH, es[..1]) == State(Off, true, false, Cutoff);
  }
}
