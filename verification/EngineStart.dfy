/** The coalesced engine start of cmd/waired-agent/engine_bootstrap.go.

    `runEngineBootstrap` is guarded by two atomic flags. A caller that loses the
    claim leaves a mark (`again`) and returns; the owner re-runs the start body when
    it finds the mark. Every atomic operation is one step here, and any number of
    callers interleave. */
module EngineStart {
  type Pid = nat

  /** Where one caller of runEngineBootstrap is. */
  datatype PC =
    | Idle
    | Enter   // about to try the claim
    | Mark    // lost the claim; about to store again := true
    | Claim   // owns the claim; about to store again := false
    | Ready   // owns the claim; about to begin the start body
    | Body    // inside the start body
    | Free    // body over; about to store inFlight := false
    | Look    // about to load again
    | Retry   // saw the mark; about to try the claim once more

  datatype State = State(inFlight: bool, again: bool, bodies: nat, pcs: map<Pid, PC>)

  datatype Action = Call(p: Pid) | Move(p: Pid)

  ghost predicate Init(s: State) {
    !s.inFlight && !s.again && s.bodies == 0 && forall p <- s.pcs :: s.pcs[p] == Idle
  }

  function At(s: State, p: Pid, pc: PC): State {
    s.(pcs := s.pcs[p := pc])
  }

  /** The next atomic operation of caller `p`. */
  function Advance(s: State, p: Pid): State
    requires p in s.pcs
  {
    match s.pcs[p]
    case Idle => s
    case Enter => if s.inFlight then At(s, p, Mark) else At(s.(inFlight := true), p, Claim)
    case Mark => At(s.(again := true), p, Idle)
    case Claim => At(s.(again := false), p, Ready)
    case Ready => At(s.(bodies := s.bodies + 1), p, Body)
    case Body => At(s, p, Free)
    case Free => At(s.(inFlight := false), p, Look)
    case Look => At(s, p, if s.again then Retry else Idle)
    case Retry => if s.inFlight then At(s, p, Idle) else At(s.(inFlight := true), p, Claim)
  }

  ghost predicate Step(s: State, a: Action, t: State) {
    && a.p in s.pcs
    && match a
       case Call(p) => s.pcs[p] == Idle && t == At(s, p, Enter)
       case Move(p) => s.pcs[p] != Idle && t == Advance(s, p)
  }

  ghost predicate Path(states: seq<State>, actions: seq<Action>) {
    && |states| == |actions| + 1
    && forall i :: 0 <= i < |actions| ==> Step(states[i], actions[i], states[i + 1])
  }

  ghost predicate Run(states: seq<State>, actions: seq<Action>) {
    Path(states, actions) && Init(states[0])
  }

  predicate Owner(pc: PC) {
    pc.Claim? || pc.Ready? || pc.Body? || pc.Free?
  }

  /** The claim has exactly one owner when taken and none when free. */
  ghost predicate Inv(s: State) {
    && (s.inFlight <==> exists p <- s.pcs :: Owner(s.pcs[p]))
    && forall p <- s.pcs, q <- s.pcs :: Owner(s.pcs[p]) && Owner(s.pcs[q]) ==> p == q
  }

  lemma StepKeepsInv(s: State, a: Action, t: State)
    requires Inv(s) && Step(s, a, t)
    ensures Inv(t)
  {
    if t.inFlight && s.inFlight {
      var q :| q in s.pcs && Owner(s.pcs[q]);
      assert Owner(t.pcs[q]);
    } else if t.inFlight {
      assert Owner(t.pcs[a.p]);
    }
  }

  lemma {:induction false} RunKeepsInv(states: seq<State>, actions: seq<Action>, i: nat)
    requires Run(states, actions) && i < |states|
    ensures Inv(states[i])
  {
    if i > 0 {
      RunKeepsInv(states, actions, i - 1);
      StepKeepsInv(states[i - 1], actions[i - 1], states[i]);
    }
  }

  /** Start bodies never overlap. */
  lemma BodiesNeverOverlap(states: seq<State>, actions: seq<Action>, i: nat, p: Pid, q: Pid)
    requires Run(states, actions) && i < |states|
    requires p in states[i].pcs && q in states[i].pcs
    requires states[i].pcs[p] == Body && states[i].pcs[q] == Body
    ensures p == q && states[i].inFlight
  {
    RunKeepsInv(states, actions, i);
    assert Owner(states[i].pcs[p]) && Owner(states[i].pcs[q]);
  }

  // ---------------------------------------------------------------------
  // Which marks are followed by a start
  // ---------------------------------------------------------------------

  predicate Busy(pc: PC) {
    pc != Idle && pc != Mark
  }

  /** Some caller has entered and neither returned nor settled for leaving a mark. */
  ghost predicate Active(s: State) {
    exists p <- s.pcs :: Busy(s.pcs[p])
  }

  ghost predicate Quiet(s: State) {
    forall p <- s.pcs :: s.pcs[p] == Idle
  }

  /** A mark left when `n` bodies had begun is not lost: a later body has begun,
      or is committed, or the mark still stands in front of an active caller. */
  ghost predicate Followed(s: State, n: nat) {
    && s.bodies >= n
    && (|| s.bodies > n
        || (exists p <- s.pcs :: s.pcs[p] == Claim || s.pcs[p] == Ready)
        || (s.again && Active(s)))
  }

  lemma StepKeepsFollowed(s: State, a: Action, t: State, n: nat)
    requires Inv(s) && Step(s, a, t) && Followed(s, n)
    ensures Followed(t, n)
  {
    if s.bodies <= n && t.bodies <= n {
      if q :| q in s.pcs && (s.pcs[q] == Claim || s.pcs[q] == Ready) {
        assert t.pcs[q] == Claim || t.pcs[q] == Ready;
      } else {
        var q :| q in s.pcs && Busy(s.pcs[q]);
        if q != a.p || Busy(t.pcs[q]) {
          assert Busy(t.pcs[q]);
        } else {
          // The active caller gave way, so another one owns the claim.
          var o :| o in s.pcs && Owner(s.pcs[o]);
          assert Busy(t.pcs[o]);
        }
      }
    }
  }

  lemma {:induction false} FollowedPersists(states: seq<State>, actions: seq<Action>, i: nat, j: nat, n: nat)
    requires Run(states, actions) && i <= j < |states|
    requires Followed(states[i], n)
    ensures Followed(states[j], n)
    decreases j - i
  {
    if i < j {
      RunKeepsInv(states, actions, i);
      StepKeepsFollowed(states[i], actions[i], states[i + 1], n);
      FollowedPersists(states, actions, i + 1, j, n);
    }
  }

  predicate Marks(s: State, a: Action) {
    a.Move? && a.p in s.pcs && s.pcs[a.p] == Mark
  }

  /** A mark left while some other caller is active is followed by a body that
      begins after the mark, whoever runs it, by the time everybody has returned. */
  lemma MarkIsFollowed(states: seq<State>, actions: seq<Action>, i: nat, j: nat)
    requires Run(states, actions) && i < |actions| && i < j < |states|
    requires Marks(states[i], actions[i]) && Active(states[i])
    requires Quiet(states[j])
    ensures states[j].bodies > states[i].bodies
  {
    var q :| q in states[i].pcs && Busy(states[i].pcs[q]);
    assert Busy(states[i + 1].pcs[q]);
    assert Followed(states[i + 1], states[i].bodies);
    FollowedPersists(states, actions, i + 1, j, states[i].bodies);
  }

  /** In particular when the claim is still held at the moment of the mark. */
  lemma MarkUnderClaimIsFollowed(states: seq<State>, actions: seq<Action>, i: nat, j: nat)
    requires Run(states, actions) && i < |actions| && i < j < |states|
    requires Marks(states[i], actions[i]) && states[i].inFlight
    requires Quiet(states[j])
    ensures states[j].bodies > states[i].bodies
  {
    RunKeepsInv(states, actions, i);
    var q :| q in states[i].pcs && Owner(states[i].pcs[q]);
    assert Busy(states[i].pcs[q]);
    MarkIsFollowed(states, actions, i, j);
  }

  /** The condition is exact: if nobody is active, letting the remaining callers
      finish what they are doing reaches rest without a single new body. */
  lemma {:induction false} IdleMarkIsLost(s: State, marking: set<Pid>)
    returns (states: seq<State>, actions: seq<Action>)
    requires !Active(s)
    requires marking == set p | p in s.pcs && s.pcs[p] == Mark
    ensures Path(states, actions) && states[0] == s
    ensures Quiet(states[|actions|]) && states[|actions|].bodies == s.bodies
    ensures forall a <- actions :: a.Move?
    ensures marking != {} ==> states[|actions|].again
    decreases marking
  {
    if marking == {} {
      forall p <- s.pcs ensures s.pcs[p] == Idle {
        assert !Busy(s.pcs[p]);
        assert p !in marking;
      }
      return [s], [];
    }
    var p :| p in marking;
    var t := Advance(s, p);
    assert forall q <- t.pcs :: t.pcs[q] == (if q == p then Idle else s.pcs[q]);
    var rest := set q | q in t.pcs && t.pcs[q] == Mark;
    assert rest == marking - {p};
    assert !Active(t) by {
      forall q <- t.pcs ensures !Busy(t.pcs[q]) { assert !Busy(s.pcs[q]); }
    }
    var states', actions' := IdleMarkIsLost(t, rest);
    NeverClears(states', actions');
    states, actions := [s] + states', [Move(p)] + actions';
  }

  /** Without an active caller nobody withdraws a mark. */
  lemma {:induction false} NeverClears(states: seq<State>, actions: seq<Action>)
    requires Path(states, actions) && !Active(states[0])
    requires forall a <- actions :: a.Move?
    ensures states[0].again ==> states[|actions|].again
    ensures !Active(states[|actions|]) && states[|actions|].bodies == states[0].bodies
    decreases |actions|
  {
    if |actions| > 0 {
      var n := |actions| - 1;
      assert forall i :: 0 <= i < n ==> Step(states[..n + 1][i], actions[..n][i], states[..n + 1][i + 1]);
      assert Path(states[..n + 1], actions[..n]);
      NeverClears(states[..n + 1], actions[..n]);
      var s, t := states[n], states[n + 1];
      var p := actions[n].p;
      assert Step(s, actions[n], t) && actions[n] in actions;
      assert !Busy(s.pcs[p]);
      assert t == Advance(s, p) && s.pcs[p] == Mark;
      forall q <- t.pcs ensures !Busy(t.pcs[q]) { assert !Busy(s.pcs[q]); }
    }
  }

  /** A reachable instance: caller 1 loses the claim, caller 0 finishes and
      returns, and only then caller 1 leaves its mark. Everyone has returned, the
      mark stands, and the one body that ran began before it. */
  lemma LateMarkExample() returns (states: seq<State>, actions: seq<Action>, i: nat)
    ensures Run(states, actions) && i < |actions|
    ensures Marks(states[i], actions[i]) && !Active(states[i])
    ensures Quiet(states[|actions|]) && states[|actions|].again
    ensures states[|actions|].bodies == states[i].bodies == 1
  {
    states, actions := BothInside();
    states, actions := Extend(states, actions, Move(0), State(true, false, 1, map[0 := Body, 1 := Mark]));
    states, actions := Extend(states, actions, Move(0), State(true, false, 1, map[0 := Free, 1 := Mark]));
    states, actions := Extend(states, actions, Move(0), State(false, false, 1, map[0 := Look, 1 := Mark]));
    states, actions := Extend(states, actions, Move(0), State(false, false, 1, map[0 := Idle, 1 := Mark]));
    i := |actions|;
    states, actions := Extend(states, actions, Move(1), State(false, true, 1, map[0 := Idle, 1 := Idle]));
  }

  /** Caller 0 has cleared the flag, caller 1 has lost the claim and is about to mark. */
  lemma BothInside() returns (states: seq<State>, actions: seq<Action>)
    ensures Run(states, actions) && states[|actions|] == State(true, false, 0, map[0 := Ready, 1 := Mark])
  {
    states, actions := [State(false, false, 0, map[0 := Idle, 1 := Idle])], [];
    states, actions := Extend(states, actions, Call(0), State(false, false, 0, map[0 := Enter, 1 := Idle]));
    states, actions := Extend(states, actions, Move(0), State(true, false, 0, map[0 := Claim, 1 := Idle]));
    states, actions := Extend(states, actions, Call(1), State(true, false, 0, map[0 := Claim, 1 := Enter]));
    states, actions := Extend(states, actions, Move(1), State(true, false, 0, map[0 := Claim, 1 := Mark]));
    states, actions := Extend(states, actions, Move(0), State(true, false, 0, map[0 := Ready, 1 := Mark]));
  }

  lemma Extend(states: seq<State>, actions: seq<Action>, a: Action, t: State)
    returns (states': seq<State>, actions': seq<Action>)
    requires Path(states, actions) && Step(states[|actions|], a, t)
    ensures states' == states + [t] && actions' == actions + [a] && Path(states', actions')
    ensures states'[0] == states[0] && states'[|actions|] == states[|actions|] && states'[|actions| + 1] == t
    ensures actions'[|actions|] == a
  {
    states', actions' := states + [t], actions + [a];
  }

  // ---------------------------------------------------------------------
  // How many starts
  // ---------------------------------------------------------------------

  /** The calls caller p has made, the bodies it has begun and the marks anybody has raised,
      in the first n steps. */
  function CallsBy(states: seq<State>, actions: seq<Action>, p: Pid, n: nat): nat
    requires n <= |actions|
  {
    if n == 0 then 0 else CallsBy(states, actions, p, n - 1) + if actions[n - 1] == Call(p) then 1 else 0
  }

  function BodiesBy(states: seq<State>, actions: seq<Action>, p: Pid, n: nat): nat
    requires n <= |actions| < |states|
  {
    if n == 0 then 0
    else
      BodiesBy(states, actions, p, n - 1)
      + if actions[n - 1] == Move(p) && p in states[n - 1].pcs && states[n - 1].pcs[p] == Ready then 1 else 0
  }

  function MarksRaised(states: seq<State>, actions: seq<Action>, n: nat): nat
    requires n <= |actions| < |states|
  {
    if n == 0 then 0
    else MarksRaised(states, actions, n - 1) + if Marks(states[n - 1], actions[n - 1]) then 1 else 0
  }

  /** The bodies caller p is still due. */
  function Due(s: State, p: Pid): nat {
    if p !in s.pcs then 0
    else
      var mark := if s.again then 1 else 0;
      match s.pcs[p]
      case Idle => 0
      case Enter => 1
      case Mark => 0
      case Claim => 1
      case Ready => 1 + mark
      case Body => mark
      case Free => mark
      case Look => mark
      case Retry => 1
  }

  lemma StepPaysForBody(s: State, a: Action, t: State, p: Pid)
    requires Step(s, a, t)
    ensures (if a == Move(p) && s.pcs[p] == Ready then 1 else 0) + Due(t, p)
            <= Due(s, p) + (if a == Call(p) then 1 else 0) + (if Marks(s, a) then 1 else 0)
  {
  }

  /** A caller runs at most one start for each call it makes and one more for each mark
      raised: a mark is cleared before the start it leads to, so it cannot drive a loop. */
  lemma {:induction false} StartsAreBounded(states: seq<State>, actions: seq<Action>, p: Pid, n: nat)
    requires Run(states, actions) && n <= |actions|
    ensures BodiesBy(states, actions, p, n) + Due(states[n], p)
            <= CallsBy(states, actions, p, n) + MarksRaised(states, actions, n)
  {
    if n > 0 {
      StartsAreBounded(states, actions, p, n - 1);
      StepPaysForBody(states[n - 1], actions[n - 1], states[n], p);
    }
  }

  /** A call that finds the claim free, up to its look at the mark. */
  lemma RunToLook(states: seq<State>, actions: seq<Action>, p: Pid) returns (states': seq<State>, actions': seq<Action>)
    requires Path(states, actions)
    requires var s := states[|actions|]; p in s.pcs && s.pcs[p] == Idle && !s.inFlight
    ensures Path(states', actions') && states'[0] == states[0]
    ensures actions' == actions + [Call(p), Move(p), Move(p), Move(p), Move(p), Move(p)]
    ensures states'[|actions'|] ==
            State(false, false, states[|actions|].bodies + 1, states[|actions|].pcs[p := Look])
  {
    var State(_, again, n, pcs) := states[|actions|];
    states', actions' := Extend(states, actions, Call(p), State(false, again, n, pcs[p := Enter]));
    states', actions' := Extend(states', actions', Move(p), State(true, again, n, pcs[p := Claim]));
    states', actions' := Extend(states', actions', Move(p), State(true, false, n, pcs[p := Ready]));
    states', actions' := Extend(states', actions', Move(p), State(true, false, n + 1, pcs[p := Body]));
    states', actions' := Extend(states', actions', Move(p), State(true, false, n + 1, pcs[p := Free]));
    states', actions' := Extend(states', actions', Move(p), State(false, false, n + 1, pcs[p := Look]));
  }

  /** From rest, a call on its own runs exactly one start and comes back to rest unmarked. */
  lemma CallAloneStartsOnce(s: State, p: Pid) returns (states: seq<State>, actions: seq<Action>)
    requires Inv(s) && Quiet(s) && p in s.pcs
    ensures Path(states, actions) && states[0] == s && Quiet(states[|actions|])
    ensures states[|actions|].bodies == s.bodies + 1 && !states[|actions|].again && !states[|actions|].inFlight
    ensures actions == [Call(p), Move(p), Move(p), Move(p), Move(p), Move(p), Move(p)]
  {
    assert !s.inFlight;
    states, actions := RunToLook([s], [], p);
    states, actions := Extend(states, actions, Move(p), State(false, false, s.bodies + 1, s.pcs[p := Idle]));
  }

  /** A caller that saw the mark and finds the claim free. */
  lemma RunAgain(states: seq<State>, actions: seq<Action>, p: Pid) returns (states': seq<State>, actions': seq<Action>)
    requires Path(states, actions)
    requires var s := states[|actions|]; p in s.pcs && s.pcs[p] == Retry && !s.inFlight
    ensures Path(states', actions') && states'[0] == states[0]
    ensures actions' == actions + [Move(p), Move(p), Move(p), Move(p), Move(p), Move(p)]
    ensures states'[|actions'|] ==
            State(false, false, states[|actions|].bodies + 1, states[|actions|].pcs[p := Idle])
  {
    var State(_, again, n, pcs) := states[|actions|];
    states', actions' := Extend(states, actions, Move(p), State(true, again, n, pcs[p := Claim]));
    states', actions' := Extend(states', actions', Move(p), State(true, false, n, pcs[p := Ready]));
    states', actions' := Extend(states', actions', Move(p), State(true, false, n + 1, pcs[p := Body]));
    states', actions' := Extend(states', actions', Move(p), State(true, false, n + 1, pcs[p := Free]));
    states', actions' := Extend(states', actions', Move(p), State(false, false, n + 1, pcs[p := Look]));
    states', actions' := Extend(states', actions', Move(p), State(false, false, n + 1, pcs[p := Idle]));
  }

  function Three(a: PC, b: PC, c: PC): map<Pid, PC> {
    map[0 := a, 1 := b, 2 := c]
  }

  /** Callers 0 and 1 call one after the other; 0 is done with its start, 1 is inside its own. */
  lemma OneInsideOneDone() returns (states: seq<State>, actions: seq<Action>)
    ensures Run(states, actions) && |actions| == 10
    ensures states[10] == State(true, false, 2, Three(Look, Body, Idle))
    ensures forall i :: 0 <= i < 10 ==> (actions[i].Call? <==> i == 0 || i == 6)
  {
    states, actions := RunToLook([State(false, false, 0, Three(Idle, Idle, Idle))], [], 0);
    assert Three(Idle, Idle, Idle)[0 := Look] == Three(Look, Idle, Idle);
    states, actions := Extend(states, actions, Call(1), State(false, false, 1, Three(Look, Enter, Idle)));
    states, actions := Extend(states, actions, Move(1), State(true, false, 1, Three(Look, Claim, Idle)));
    states, actions := Extend(states, actions, Move(1), State(true, false, 1, Three(Look, Ready, Idle)));
    states, actions := Extend(states, actions, Move(1), State(true, false, 2, Three(Look, Body, Idle)));
  }

  /** Caller 2 marks, and both others find the mark. */
  lemma BothFound() returns (states: seq<State>, actions: seq<Action>)
    ensures Run(states, actions) && |actions| == 17
    ensures states[17] == State(false, true, 2, Three(Retry, Retry, Idle))
    ensures forall i :: 0 <= i < 17 ==> (actions[i].Call? <==> i == 0 || i == 6 || i == 10)
  {
    states, actions := OneInsideOneDone();
    states, actions := Extend(states, actions, Call(2), State(true, false, 2, Three(Look, Body, Enter)));
    states, actions := Extend(states, actions, Move(2), State(true, false, 2, Three(Look, Body, Mark)));
    states, actions := Extend(states, actions, Move(2), State(true, true, 2, Three(Look, Body, Idle)));
    states, actions := Extend(states, actions, Move(1), State(true, true, 2, Three(Look, Free, Idle)));
    states, actions := Extend(states, actions, Move(1), State(false, true, 2, Three(Look, Look, Idle)));
    states, actions := Extend(states, actions, Move(0), State(false, true, 2, Three(Retry, Look, Idle)));
    states, actions := Extend(states, actions, Move(1), State(false, true, 2, Three(Retry, Retry, Idle)));
  }

  /** The starts can outnumber the calls: two callers past their own starts find one mark,
      and three calls lead to four starts. */
  lemma ThreeCallsFourStarts() returns (states: seq<State>, actions: seq<Action>)
    ensures Run(states, actions) && Quiet(states[|actions|]) && states[|actions|].bodies == 4
    ensures forall i :: 0 <= i < |actions| ==> (actions[i].Call? <==> i == 0 || i == 6 || i == 10)
  {
    states, actions := BothFound();
    states, actions := RunAgain(states, actions, 0);
    states, actions := RunAgain(states, actions, 1);
  }
}
