/** How a pre-pull hold ends: the cutoff's answer, the cause behind every ending, and the
    holds that do dispatch (cmd/waired-agent/inference_prepull_hold.go:104-390). */
module PrePullEndings {
  import opened Broadcasts
  import opened PrePullHold

  // ---------------------------------------------------------------------
  // The cutoff
  // ---------------------------------------------------------------------

  /** The host cutoff let the hold go on. */
  predicate Passes(s: State, a: Action) {
    s.pc.Measuring? && a == Waiter(Cutoff(true))
  }

  /** It did not. */
  predicate Fails(s: State, a: Action) {
    s.pc.Measuring? && a == Waiter(Cutoff(false))
  }

  lemma {:induction false} DoneStays(id: string, states: seq<State>, actions: seq<Action>, i: nat, j: nat)
    requires Run(id, states, actions) && i <= j < |states| && states[i].pc.Done?
    ensures states[j].pc == states[i].pc && states[j].dispatched == states[i].dispatched
    decreases j - i
  {
    if i < j {
      assert Step(states[i], id, actions[i], states[i + 1]);
      DoneStays(id, states, actions, i + 1, j);
    }
  }

  /** A host below the budget downloads nothing, in any state after the cutoff said so. */
  lemma CutoffStopsTheDownload(id: string, states: seq<State>, actions: seq<Action>, i: nat, j: nat)
    requires Run(id, states, actions) && i < |actions| && i < j < |states| && Fails(states[i], actions[i])
    ensures states[j].pc == Done(CutOff) && states[j].dispatched == []
  {
    assert Step(states[i], id, actions[i], states[i + 1]);
    DoneStays(id, states, actions, i + 1, j);
    RunKeeps(id, states, actions, j);
  }

  /** Stages only a hold that passed the cutoff reaches. */
  predicate BehindCutoff(pc: PC) {
    match pc
    case ChoiceReading(_) => true
    case ChoiceJudging(_, _, _) => true
    case ChoiceParked(_, _, _) => true
    case LastNamed(_) => true
    case Wanted(round, _, _) => round == Last
    case Dispatching(_) => true
    case Done(Dispatched(_)) => true
    case _ => false
  }

  lemma {:induction false} PassedBefore(id: string, states: seq<State>, actions: seq<Action>, j: nat) returns (i: nat)
    requires Run(id, states, actions) && j < |states| && BehindCutoff(states[j].pc)
    ensures i < j && Passes(states[i], actions[i])
  {
    assert j > 0;
    assert Step(states[j - 1], id, actions[j - 1], states[j]);
    if BehindCutoff(states[j - 1].pc) {
      i := PassedBefore(id, states, actions, j - 1);
    } else {
      i := j - 1;
    }
  }

  /** The reads of a last re-check, by the states they were made in. */
  lemma {:induction false} ReadStates(states: seq<State>, j: nat, n: nat, m: string) returns (ks: seq<nat>)
    requires ClearedUpTo(states, j, n, m)
    ensures |ks| == n && forall r :: 0 <= r < n ==> ks[r] < j && ks[r] < |states| && Cleared(states[ks[r]], r + 1, m)
    ensures forall q, r :: 0 <= q < r < n ==> ks[q] < ks[r]
  {
    if n == 0 {
      return [];
    }
    var k: nat :| k < j && k < |states| && Cleared(states[k], n, m) && ClearedUpTo(states, k, n - 1, m);
    ks := ReadStates(states, k, n - 1, m);
    ks := ks + [k];
  }

  lemma LastReads(id: string, states: seq<State>, actions: seq<Action>, j: nat) returns (ks: seq<nat>, m: string)
    requires Run(id, states, actions) && j < |states| && states[j].dispatched != []
    ensures |ks| == 5 && forall r :: 0 <= r < 5 ==> ks[r] < j && Cleared(states[ks[r]], r + 1, m)
    ensures forall q, r :: 0 <= q < r < 5 ==> ks[q] < ks[r]
  {
    DispatchIsBehindLastCheck(id, states, actions, j);
    m :| ClearedUpTo(states, j, 5, m);
    ks := ReadStates(states, j, 5, m);
  }

  lemma FirstReadIsLate(id: string, states: seq<State>, actions: seq<Action>, k: nat, m: string) returns (i: nat)
    requires Run(id, states, actions) && k < |states| && Cleared(states[k], 1, m)
    ensures i < k && Passes(states[i], actions[i])
  {
    i := PassedBefore(id, states, actions, k);
  }

  /** A dispatch has behind it the cutoff's leave and, after that, the five reads of the last
      re-check, in order. */
  lemma DispatchPassedCutoff(id: string, states: seq<State>, actions: seq<Action>, j: nat)
    returns (i: nat, ks: seq<nat>, m: string)
    requires Run(id, states, actions) && j < |states| && states[j].dispatched != []
    ensures |ks| == 5 && i < ks[0] < j && Passes(states[i], actions[i])
    ensures forall r :: 0 <= r < 5 ==> ks[r] < j && Cleared(states[ks[r]], r + 1, m)
    ensures forall q, r :: 0 <= q < r < 5 ==> ks[q] < ks[r]
  {
    ks, m := LastReads(id, states, actions, j);
    i := FirstReadIsLate(id, states, actions, ks[0], m);
  }

  // ---------------------------------------------------------------------
  // What it waits for
  // ---------------------------------------------------------------------

  /** The step that ends the wait for setup: a frame that says nobody is driving, or the grace
      running out with no frame read. */
  predicate Releases(s: State, a: Action) {
    || (s.pc.Reading? && s.frames.value.named == "" && s.frames.value.seen && !s.frames.value.driving)
    || (s.pc.Parked? && a == Waiter(OnGrace) && s.clock.graceAt <= s.clock.now && !s.pc.frame.seen)
  }

  /** Stages behind the wait for setup. */
  predicate Released(pc: PC) {
    match pc
    case Reading => false
    case Parked(_, _) => false
    case Persisting(_, how) => how == ClaimExpired
    case Done(SetupNamed) => false
    case Done(Cancelled) => false
    case Done(Abandoned(how, _)) => how == ClaimExpired
    case _ => true
  }

  lemma {:induction false} ReleaseHasReason(id: string, states: seq<State>, actions: seq<Action>, j: nat)
    returns (k: nat)
    requires Run(id, states, actions) && j < |states| && Released(states[j].pc)
    ensures k < j && Releases(states[k], actions[k])
  {
    assert j > 0;
    assert Step(states[j - 1], id, actions[j - 1], states[j]);
    if Released(states[j - 1].pc) {
      k := ReleaseHasReason(id, states, actions, j - 1);
    } else {
      k := j - 1;
    }
  }

  /** The frame a parked waiter holds was current when it was read. */
  lemma {:induction false} ParkedFrameWasRead(id: string, states: seq<State>, actions: seq<Action>, j: nat)
    returns (k: nat)
    requires Run(id, states, actions) && j < |states| && states[j].pc.Parked?
    ensures k < j && states[k].pc == Reading && states[k].frames.value == states[j].pc.frame
  {
    assert j > 0;
    assert Step(states[j - 1], id, actions[j - 1], states[j]);
    if states[j - 1].pc.Parked? {
      k := ParkedFrameWasRead(id, states, actions, j - 1);
    } else {
      k := j - 1;
    }
  }

  /** Behind every release is a look at the frame that found no wizard at work. */
  lemma ReleaseSawNobody(id: string, states: seq<State>, actions: seq<Action>, j: nat) returns (k: nat)
    requires Run(id, states, actions) && j < |states| && Released(states[j].pc)
    ensures k < j && states[k].pc == Reading && !(states[k].frames.value.seen && states[k].frames.value.driving)
  {
    k := ReleaseHasReason(id, states, actions, j);
    if states[k].pc.Parked? {
      k := ParkedFrameWasRead(id, states, actions, k);
    }
  }

  /** A wizard at work holds the download back: as long as every frame says that somebody is
      driving, neither the grace nor anything else lets the hold past its wait. */
  lemma DrivingHolds(id: string, states: seq<State>, actions: seq<Action>, j: nat)
    requires Run(id, states, actions) && j < |states|
    requires forall k :: 0 <= k <= j ==> states[k].frames.value.seen && states[k].frames.value.driving
    ensures !Released(states[j].pc) && states[j].dispatched == []
  {
    RunKeeps(id, states, actions, j);
    if Released(states[j].pc) {
      var k := ReleaseSawNobody(id, states, actions, j);
    }
  }

  /** Stages behind the wait for the terminal's question. */
  predicate PastClaim(pc: PC) {
    match pc
    case LastNamed(_) => true
    case Wanted(round, _, _) => round == Last
    case Dispatching(_) => true
    case Done(Dispatched(_)) => true
    case _ => false
  }

  /** The hold gets past the question only by reading that no claim is open; a claim that stays
      open keeps it from downloading, whatever wakes it. */
  lemma {:induction false} NoClaimWasRead(id: string, states: seq<State>, actions: seq<Action>, j: nat)
    returns (k: nat)
    requires Run(id, states, actions) && j < |states| && PastClaim(states[j].pc)
    ensures k < j && states[k].pc.ChoiceReading? && states[k].choice.value.None?
  {
    assert j > 0;
    assert Step(states[j - 1], id, actions[j - 1], states[j]);
    if PastClaim(states[j - 1].pc) {
      k := NoClaimWasRead(id, states, actions, j - 1);
    } else {
      k := j - 1;
    }
  }

  /** How many reads of the first re-check the waiter has behind it. */
  function FirstRank(pc: PC): nat {
    match pc
    case Wanted(First, Swap, _) => 1
    case Wanted(First, NoModel, _) => 2
    case Wanted(First, Question, _) => 3
    case Measuring(_) => 4
    case _ => 0
  }

  /** Read number r of the first re-check found nothing against the model. */
  predicate FirstClear(s: State, a: Action, r: nat) {
    && s.pc.Wanted? && s.pc.round == First
    && match r
       case 1 => s.pc.gate == Override && (s.ans.override == "" || s.ans.override == s.pc.id)
       case 2 => s.pc.gate == Swap && (s.ans.pendingSwap == "" || s.ans.pendingSwap == s.pc.id)
       case 3 => s.pc.gate == NoModel && !s.ans.noModel
       case 4 => s.pc.gate == Question && !s.ans.unanswered && a.Waiter? && a.c.Target? && a.c.id.Some?
       case _ => false
  }

  /** The host is measured only behind a re-check whose four reads, in order, found nothing. */
  lemma {:induction false} MeasuringIsBehindFirstCheck(id: string, states: seq<State>, actions: seq<Action>, j: nat)
    returns (ks: seq<nat>)
    requires Run(id, states, actions) && j < |states|
    ensures |ks| == FirstRank(states[j].pc)
    ensures forall r :: 0 <= r < |ks| ==> ks[r] < j && FirstClear(states[ks[r]], actions[ks[r]], r + 1)
    ensures forall q, r :: 0 <= q < r < |ks| ==> ks[q] < ks[r]
  {
    ks := [];
    if FirstRank(states[j].pc) > 0 {
      assert j > 0;
      ks := MeasuringIsBehindFirstCheck(id, states, actions, j - 1);
      FirstRankMoves(id, states[j - 1], actions[j - 1], states[j]);
      if |ks| < FirstRank(states[j].pc) {
        ks := ks + [j - 1];
      }
    }
  }

  lemma FirstRankMoves(id: string, s: State, a: Action, t: State)
    requires Step(s, id, a, t) && FirstRank(t.pc) > 0
    ensures FirstRank(t.pc) == FirstRank(s.pc) || FirstRank(t.pc) == FirstRank(s.pc) + 1
    ensures FirstRank(t.pc) > FirstRank(s.pc) ==> FirstClear(s, a, FirstRank(t.pc))
  {
  }

  // ---------------------------------------------------------------------
  // Every ending has its cause
  // ---------------------------------------------------------------------

  /** What a re-check finds against downloading m. */
  predicate Objects(a: Answers, gate: Gate, m: string, c: Choice) {
    match gate
    case Override => a.override != "" && a.override != m
    case Swap => a.pendingSwap != "" && a.pendingSwap != m
    case NoModel => a.noModel
    case Question => a.unanswered || c == Target(None)
  }

  /** The step that decides for this ending. */
  predicate Causes(s: State, a: Action, e: Ending) {
    && a.Waiter?
    && match e
       case Cancelled => (s.pc.Parked? || s.pc.ChoiceParked?) && s.clock.cancelled
       case SetupNamed => (s.pc.Reading? || s.pc.LastNamed?) && s.frames.value.named != ""
       case Abandoned(HoldCeiling, _) => s.pc.Parked? && s.clock.ceilingAt <= s.clock.now
       case Abandoned(ClaimExpired, _) => s.pc.ChoiceJudging? && s.pc.until <= s.clock.now
       case NotWanted => s.pc.Wanted? && Objects(s.ans, s.pc.gate, s.pc.id, a.c)
       case CutOff => Fails(s, a)
       case Dispatched(m) => s.pc == Dispatching(m)
  }

  /** What the waiter has committed to. */
  predicate HeadedFor(pc: PC, e: Ending) {
    || pc == Done(e)
    || (pc.Persisting? && e.Abandoned? && pc.how == e.how)
  }

  lemma StepHeads(id: string, s: State, a: Action, t: State, e: Ending)
    requires Step(s, id, a, t) && HeadedFor(t.pc, e) && !HeadedFor(s.pc, e)
    ensures Causes(s, a, e)
  {
  }

  /** Whatever way a hold ends, the step that decided it was taken for its reason. */
  lemma {:induction false} EndingHasCause(id: string, states: seq<State>, actions: seq<Action>, j: nat, e: Ending)
    returns (k: nat)
    requires Run(id, states, actions) && j < |states| && HeadedFor(states[j].pc, e)
    ensures k < j && Causes(states[k], actions[k], e)
  {
    assert j > 0;
    if HeadedFor(states[j - 1].pc, e) {
      k := EndingHasCause(id, states, actions, j - 1, e);
    } else {
      StepHeads(id, states[j - 1], actions[j - 1], states[j], e);
      k := j - 1;
    }
  }

  /** A claim judged to have expired was in force when it was read. */
  lemma {:induction false} JudgedClaimWasRead(id: string, states: seq<State>, actions: seq<Action>, j: nat)
    returns (k: nat)
    requires Run(id, states, actions) && j < |states| && states[j].pc.ChoiceJudging?
    ensures k < j && states[k].pc == ChoiceReading(states[j].pc.id)
    ensures states[k].choice.value == Some(states[j].pc.until)
  {
    assert j > 0;
    assert Step(states[j - 1], id, actions[j - 1], states[j]);
    if states[j - 1].pc.ChoiceJudging? {
      k := JudgedClaimWasRead(id, states, actions, j - 1);
    } else {
      k := j - 1;
    }
  }

  // ---------------------------------------------------------------------
  // Holds that dispatch
  // ---------------------------------------------------------------------

  /** Nobody has said anything against the bundled download. */
  predicate Unopposed(s: State) {
    && s.frames.value.named == "" && s.choice.value.None?
    && s.ans.override == "" && s.ans.pendingSwap == "" && !s.ans.noModel && !s.ans.unanswered
  }

  /** One step of the waiter that stays out of the way of the answers. */
  lemma Go1(id: string, states: seq<State>, actions: seq<Action>, c: Choice)
    returns (states': seq<State>, actions': seq<Action>)
    requires Path(id, states, actions) && Unopposed(states[|actions|]) && !states[|actions|].pc.Persisting?
    ensures Path(id, states', actions') && states'[0] == states[0]
    ensures actions <= actions' == actions + [Waiter(c)]
    ensures Unopposed(states'[|actions'|])
    ensures states'[|actions'|].pc == WaiterPC(states[|actions|], id, c)
    ensures states'[|actions'|].clock == states[|actions|].clock || c.OnGrace?
    ensures states'[|actions'|].dispatched ==
            if states[|actions|].pc.Dispatching? then states[|actions|].dispatched + [states[|actions|].pc.id]
            else states[|actions|].dispatched
  {
    states', actions' := Extend(id, states, actions, Waiter(c), WaiterStep(states[|actions|], id, c));
  }

  /** A re-check that finds nothing goes on with the model the target resolves to. */
  lemma PassesGates(id: string, states: seq<State>, actions: seq<Action>, round: Round, m: string, n: string)
    returns (states': seq<State>, actions': seq<Action>)
    requires Path(id, states, actions) && Unopposed(states[|actions|])
    requires states[|actions|].pc == Wanted(round, Override, m)
    ensures Path(id, states', actions') && states'[0] == states[0] && actions <= actions'
    ensures forall i :: |actions| <= i < |actions'| ==> actions'[i].Waiter?
    ensures Unopposed(states'[|actions'|])
    ensures states'[|actions'|].pc == if round == First then Measuring(n) else Dispatching(n)
    ensures states'[|actions'|].dispatched == states[|actions|].dispatched
  {
    states', actions' := Go1(id, states, actions, Proceed);
    states', actions' := Go1(id, states', actions', Proceed);
    states', actions' := Go1(id, states', actions', Proceed);
    states', actions' := Go1(id, states', actions', Target(Some(n)));
  }

  /** A host within the budget, and nobody asking: on to the last re-check. */
  lemma PassesCutoff(id: string, states: seq<State>, actions: seq<Action>, m: string)
    returns (states': seq<State>, actions': seq<Action>)
    requires Path(id, states, actions) && Unopposed(states[|actions|])
    requires states[|actions|].pc == Measuring(m)
    ensures Path(id, states', actions') && states'[0] == states[0] && actions <= actions'
    ensures forall i :: |actions| <= i < |actions'| ==> actions'[i].Waiter?
    ensures Unopposed(states'[|actions'|]) && states'[|actions'|].pc == Wanted(Last, Override, m)
    ensures states'[|actions'|].dispatched == states[|actions|].dispatched
  {
    states', actions' := Go1(id, states, actions, Cutoff(true));
    states', actions' := Go1(id, states', actions', Proceed);
    states', actions' := Go1(id, states', actions', Proceed);
  }

  /** From the first re-check on, an unopposed hold on a host within the budget dispatches. */
  lemma UnopposedDispatches(id: string, states: seq<State>, actions: seq<Action>, m: string, n: string)
    returns (states': seq<State>, actions': seq<Action>)
    requires Path(id, states, actions) && Unopposed(states[|actions|])
    requires states[|actions|].pc == Wanted(First, Override, m) && states[|actions|].dispatched == []
    ensures Path(id, states', actions') && states'[0] == states[0] && actions <= actions'
    ensures forall i :: |actions| <= i < |actions'| ==> actions'[i].Waiter?
    ensures states'[|actions'|].pc == Done(Dispatched(n)) && states'[|actions'|].dispatched == [n]
  {
    states', actions' := PassesGates(id, states, actions, First, m, n);
    states', actions' := PassesCutoff(id, states', actions', n);
    states', actions' := PassesGates(id, states', actions', Last, n, n);
    states', actions' := Go1(id, states', actions', Proceed);
  }

  /** Complete runs: from every unopposed start, a frame that says nobody is driving leads to
      the download. */
  lemma NonDrivingFrameDispatches(id: string, s: State, n: string) returns (states: seq<State>, actions: seq<Action>)
    requires Init(s) && Unopposed(s)
    ensures Run(id, states, actions) && states[0] == s && actions != [] && actions[0] == World(Frame("", false))
    ensures states[|actions|].pc == Done(Dispatched(n)) && states[|actions|].dispatched == [n]
  {
    states, actions := Extend(id, [s], [], World(Frame("", false)), EnvStep(s, Frame("", false)));
    states, actions := Go1(id, states, actions, Proceed);
    states, actions := UnopposedDispatches(id, states, actions, id, n);
  }

  /** So does the grace timer when no frame comes at all. */
  lemma GraceDispatches(id: string, s: State, n: string) returns (states: seq<State>, actions: seq<Action>)
    requires Init(s) && Unopposed(s) && !s.frames.value.seen
    ensures Run(id, states, actions) && states[0] == s
    ensures forall a <- actions :: a.World? ==> a.e.Tick?
    ensures states[|actions|].pc == Done(Dispatched(n)) && states[|actions|].dispatched == [n]
  {
    var wait: nat := if s.clock.graceAt <= s.clock.now then 0 else s.clock.graceAt - s.clock.now;
    states, actions := Extend(id, [s], [], World(Tick(wait)), EnvStep(s, Tick(wait)));
    states, actions := Go1(id, states, actions, Proceed);
    states, actions := Go1(id, states, actions, OnGrace);
    states, actions := UnopposedDispatches(id, states, actions, id, n);
  }

  /** A parked hold whose context has ended can stop at once, whatever else is ready, and then
      nothing has been or will be downloaded. */
  lemma CancelEndsTheWait(id: string, states: seq<State>, actions: seq<Action>)
    returns (states': seq<State>, actions': seq<Action>)
    requires Run(id, states, actions) && states[|actions|].clock.cancelled
    requires states[|actions|].pc.Parked? || states[|actions|].pc.ChoiceParked?
    ensures Run(id, states', actions') && actions' == actions + [Waiter(OnCancel)]
    ensures states'[|actions'|].pc == Done(Cancelled) && states'[|actions'|].dispatched == []
  {
    var s := states[|actions|];
    states', actions' := Extend(id, states, actions, Waiter(OnCancel), WaiterStep(s, id, OnCancel));
    RunKeeps(id, states', actions', |actions'|);
  }

  // ---------------------------------------------------------------------
  // No hold is stuck
  // ---------------------------------------------------------------------

  /** How many steps of the waiter are left at most, once time is up. */
  function Left(pc: PC): nat {
    match pc
    case Reading => 7
    case Parked(_, _) => 6
    case Persisting(ReadOverride, _) => 5
    case Persisting(ReadNoModel, _) => 4
    case Persisting(ReadFile, _) => 3
    case Persisting(SetFlag, _) => 2
    case Persisting(SaveFile, _) => 1
    case Wanted(_, Override, _) => 4
    case Wanted(_, Swap, _) => 3
    case Wanted(_, NoModel, _) => 2
    case Wanted(_, Question, _) => 1
    case Measuring(_) => 1
    case ChoiceParked(_, _, _) => 8
    case ChoiceReading(_) => 7
    case ChoiceJudging(_, _, _) => 6
    case LastNamed(_) => 5
    case Dispatching(_) => 1
    case Done(_) => 0
  }

  /** The ceiling has passed, and so has every claim the waiter holds or can read. */
  predicate TimeIsUp(s: State) {
    && s.clock.ceilingAt <= s.clock.now
    && (s.choice.value.Some? ==> s.choice.value.value <= s.clock.now)
    && (s.pc.ChoiceJudging? || s.pc.ChoiceParked? ==> s.pc.until <= s.clock.now)
  }

  /** A branch that is ready and leads on. */
  function ReadyBranch(pc: PC): Choice {
    match pc
    case Parked(_, _) => OnCeiling
    case ChoiceParked(_, _, _) => OnExpiry
    case Wanted(_, Question, _) => Target(None)
    case Measuring(_) => Cutoff(false)
    case _ => Proceed
  }

  lemma ReadyBranchLeadsOn(id: string, s: State)
    requires TimeIsUp(s) && !s.pc.Done?
    ensures var t := WaiterStep(s, id, ReadyBranch(s.pc)); TimeIsUp(t) && Left(t.pc) < Left(s.pc)
  {
  }

  lemma {:induction false} EndsOnceTimeIsUp(id: string, states: seq<State>, actions: seq<Action>)
    returns (states': seq<State>, actions': seq<Action>)
    requires Path(id, states, actions) && TimeIsUp(states[|actions|])
    ensures Path(id, states', actions') && states'[0] == states[0] && states'[|actions'|].pc.Done?
    ensures actions <= actions' && |actions'| <= |actions| + Left(states[|actions|].pc)
    ensures forall i :: |actions| <= i < |actions'| ==> actions'[i].Waiter?
    decreases Left(states[|actions|].pc)
  {
    states', actions' := states, actions;
    var s := states[|actions|];
    if !s.pc.Done? {
      ReadyBranchLeadsOn(id, s);
      var c := ReadyBranch(s.pc);
      states', actions' := Extend(id, states, actions, Waiter(c), WaiterStep(s, id, c));
      states', actions' := EndsOnceTimeIsUp(id, states', actions');
    }
  }

  /** From any state, once enough time passes the hold can end by the waiter's steps alone,
      in at most eight of them: no stage waits for somebody who need not come. */
  lemma NoHoldIsStuck(id: string, s: State) returns (states: seq<State>, actions: seq<Action>)
    ensures Path(id, states, actions) && states[0] == s && states[|actions|].pc.Done?
    ensures 1 <= |actions| <= 9 && actions[0].World? && actions[0].e.Tick?
    ensures forall i :: 1 <= i < |actions| ==> actions[i].Waiter?
  {
    var until := Latest(s.clock.ceilingAt, Latest(Claimed(s), Held(s.pc)));
    var wait: nat := if until <= s.clock.now then 0 else until - s.clock.now;
    states, actions := Extend(id, [s], [], World(Tick(wait)), EnvStep(s, Tick(wait)));
    states, actions := EndsOnceTimeIsUp(id, states, actions);
  }

  function Latest(a: Time, b: Time): Time {
    if a < b then b else a
  }

  function Claimed(s: State): Time {
    if s.choice.value.Some? then s.choice.value.value else 0
  }

  function Held(pc: PC): Time {
    if pc.ChoiceJudging? || pc.ChoiceParked? then pc.until else 0
  }
}
