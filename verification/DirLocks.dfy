/** The per-directory lock of cmd/waired-agent/hf_dir.go: at most one download
    writes into a Hugging Face model directory at a time.

    `HfDirLocks` is the object with its two mutex-protected sections. The rest of
    the module interleaves any number of callers at the granularity the mutex and
    the channels give them: one step per locked section, per channel close, per
    wake-up and per cancellation. */
module DirLocks {
  type Dir = string
  type Chan = nat
  type Pid = nat

  /** What the mutex protects: who holds which directory, by the channel the
      holder closes on release. `next` is the next channel identity to allocate. */
  datatype Table = Table(held: map<Dir, Chan>, next: Chan)

  /** The outcome of the locked section of one `acquire` round. */
  datatype Attempt = Taken(done: Chan) | Busy(busy: Chan)

  function Take(t: Table, dir: Dir): (Table, Attempt) {
    if dir in t.held then (t, Busy(t.held[dir]))
    else (Table(t.held[dir := t.next], t.next + 1), Taken(t.next))
  }

  function Drop(t: Table, dir: Dir): Table {
    t.(held := t.held - {dir})
  }

  class HfDirLocks {
    var held: map<Dir, Chan>
    var next: Chan

    function Abs(): Table
      reads this
    {
      Table(held, next)
    }

    constructor ()
      ensures Abs() == Table(map[], 0)
    {
      held, next := map[], 0;
    }

    /** The locked section at the top of the retry loop. */
    method TryAcquire(dir: Dir) returns (a: Attempt)
      modifies this
      ensures (Abs(), a) == Take(old(Abs()), dir)
      ensures a.Taken? <==> dir !in old(held)
      ensures dir in held && held[dir] == (if a.Taken? then a.done else a.busy)
    {
      if dir in held {
        a := Busy(held[dir]);
      } else {
        a := Taken(next);
        held, next := held[dir := next], next + 1;
      }
    }

    /** The locked section of the release closure. */
    method Forget(dir: Dir)
      modifies this
      ensures Abs() == Drop(old(Abs()), dir)
      ensures dir !in held
    {
      held := held - {dir};
    }
  }

  // ---------------------------------------------------------------------
  // Interleavings
  // ---------------------------------------------------------------------

  /** Where one caller is. `Releasing` is a releaser past its delete that has
      not closed its channel yet. */
  datatype PC =
    | Idle
    | Want(dir: Dir)
    | Waiting(dir: Dir, ch: Chan)
    | Holding(dir: Dir, ch: Chan)
    | Releasing(dir: Dir, ch: Chan)

  datatype State = State(table: Table, closed: set<Chan>, pcs: map<Pid, PC>)

  datatype Action =
    | Begin(p: Pid, dir: Dir)
    | Lock(p: Pid)
    | Wake(p: Pid)
    | Cancel(p: Pid)
    | Delete(p: Pid)
    | Close(p: Pid)

  ghost predicate Init(s: State) {
    && s.table == Table(map[], 0)
    && s.closed == {}
    && forall p <- s.pcs :: s.pcs[p] == Idle
  }

  ghost predicate Step(s: State, a: Action, t: State) {
    && a.p in s.pcs
    && var pc := s.pcs[a.p];
       match a
       case Begin(p, dir) =>
         pc == Idle && t == s.(pcs := s.pcs[p := Want(dir)])
       case Lock(p) =>
         && pc.Want?
         && var (table, attempt) := Take(s.table, pc.dir);
            t == State(table, s.closed, s.pcs[p := match attempt
                                                   case Taken(c) => Holding(pc.dir, c)
                                                   case Busy(c) => Waiting(pc.dir, c)])
       case Wake(p) =>
         pc.Waiting? && pc.ch in s.closed && t == s.(pcs := s.pcs[p := Want(pc.dir)])
       case Cancel(p) =>
         pc.Waiting? && t == s.(pcs := s.pcs[p := Idle])
       case Delete(p) =>
         && pc.Holding?
         && t == State(Drop(s.table, pc.dir), s.closed, s.pcs[p := Releasing(pc.dir, pc.ch)])
       case Close(p) =>
         && pc.Releasing?
         && t == s.(closed := s.closed + {pc.ch}, pcs := s.pcs[p := Idle])
  }

  ghost predicate Run(states: seq<State>, actions: seq<Action>) {
    && |states| == |actions| + 1
    && Init(states[0])
    && forall i :: 0 <= i < |actions| ==> Step(states[i], actions[i], states[i + 1])
  }

  predicate Owns(pc: PC) {
    pc.Holding? || pc.Releasing?
  }

  /** The map holds exactly the held directories, each under its holder's channel. */
  ghost predicate TableIsHolders(s: State) {
    && (forall p <- s.pcs :: s.pcs[p].Holding? ==>
          s.pcs[p].dir in s.table.held && s.table.held[s.pcs[p].dir] == s.pcs[p].ch)
    && (forall d <- s.table.held :: exists p <- s.pcs :: s.pcs[p] == Holding(d, s.table.held[d]))
  }

  /** Channels are allocated once, owned by one caller, and open while owned. */
  ghost predicate ChannelsAreOwned(s: State) {
    && (forall c <- s.closed :: c < s.table.next)
    && (forall p <- s.pcs :: Owns(s.pcs[p]) ==> s.pcs[p].ch < s.table.next && s.pcs[p].ch !in s.closed)
    && (forall p <- s.pcs, q <- s.pcs :: Owns(s.pcs[p]) && Owns(s.pcs[q]) && s.pcs[p].ch == s.pcs[q].ch ==> p == q)
  }

  /** A waiter's channel is closed, is the current holder's, or is about to be
      closed by a releaser that is past its delete. */
  ghost predicate Attended(s: State, p: Pid)
    requires p in s.pcs && s.pcs[p].Waiting?
  {
    var Waiting(d, c) := s.pcs[p];
    || c in s.closed
    || (exists q <- s.pcs :: s.pcs[q] == Holding(d, c))
    || (exists q <- s.pcs :: s.pcs[q] == Releasing(d, c))
  }

  ghost predicate Inv(s: State) {
    && TableIsHolders(s)
    && ChannelsAreOwned(s)
    && forall p <- s.pcs :: s.pcs[p].Waiting? ==> Attended(s, p)
  }

  lemma StepKeepsTable(s: State, a: Action, t: State)
    requires Inv(s) && Step(s, a, t)
    ensures TableIsHolders(t)
  {
    forall d <- t.table.held
      ensures exists p <- t.pcs :: t.pcs[p] == Holding(d, t.table.held[d])
    {
      if d in s.table.held {
        var p :| p in s.pcs && s.pcs[p] == Holding(d, s.table.held[d]);
        assert t.pcs[p] == Holding(d, t.table.held[d]);
      } else {
        assert t.pcs[a.p] == Holding(d, t.table.held[d]);
      }
    }
  }

  lemma StepKeepsAttended(s: State, a: Action, t: State, p: Pid)
    requires Inv(s) && Step(s, a, t)
    requires p in t.pcs && t.pcs[p].Waiting?
    ensures Attended(t, p)
  {
    var Waiting(d, c) := t.pcs[p];
    if s.pcs[p] == t.pcs[p] {
      if q :| q in s.pcs && s.pcs[q] == Holding(d, c) {
        assert t.pcs[q] == Holding(d, c) || t.pcs[q] == Releasing(d, c);
      } else if q :| q in s.pcs && s.pcs[q] == Releasing(d, c) {
        assert t.pcs[q] == Releasing(d, c) || c in t.closed;
      }
    } else {
      var q :| q in s.pcs && s.pcs[q] == Holding(d, s.table.held[d]);
      assert t.pcs[q] == Holding(d, c);
    }
  }

  lemma StepKeepsInv(s: State, a: Action, t: State)
    requires Inv(s) && Step(s, a, t)
    ensures Inv(t)
  {
    StepKeepsTable(s, a, t);
    assert ChannelsAreOwned(t);
    forall p <- t.pcs | t.pcs[p].Waiting? ensures Attended(t, p) {
      StepKeepsAttended(s, a, t, p);
    }
  }

  lemma {:induction false} RunKeepsInv(states: seq<State>, actions: seq<Action>)
    requires Run(states, actions)
    ensures forall i :: 0 <= i < |states| ==> Inv(states[i])
  {
    if |actions| > 0 {
      var n := |actions| - 1;
      RunKeepsInv(states[..n + 1], actions[..n]);
      StepKeepsInv(states[n], actions[n], states[n + 1]);
      forall i | 0 <= i < |states| ensures Inv(states[i]) {
        if i <= n {
          assert states[i] == states[..n + 1][i];
        }
      }
    }
  }

  /** Over all interleavings: one holder per directory, and the map's keys are
      exactly the directories someone holds. */
  lemma MutualExclusion(states: seq<State>, actions: seq<Action>, i: nat)
    requires Run(states, actions) && i < |states|
    ensures var s := states[i];
            && (forall p <- s.pcs, q <- s.pcs ::
                  s.pcs[p].Holding? && s.pcs[q].Holding? && s.pcs[p].dir == s.pcs[q].dir ==> p == q)
            && s.table.held.Keys == (set p <- s.pcs | s.pcs[p].Holding? :: s.pcs[p].dir)
  {
    RunKeepsInv(states, actions);
    var s := states[i];
    forall d | d in s.table.held
      ensures d in (set p <- s.pcs | s.pcs[p].Holding? :: s.pcs[p].dir)
    {
      var p :| p in s.pcs && s.pcs[p] == Holding(d, s.table.held[d]);
      assert s.pcs[p].Holding? && s.pcs[p].dir == d;
    }
  }

  /** No waiter is stranded: in every reachable state the waiter's next round is
      either enabled now or enabled after the one or two steps its holder or
      releaser still has to take, and those steps are enabled. */
  lemma NoWaiterStranded(states: seq<State>, actions: seq<Action>, i: nat, p: Pid)
    returns (future: seq<State>, moves: seq<Action>)
    requires Run(states, actions) && i < |states|
    requires p in states[i].pcs && states[i].pcs[p].Waiting?
    ensures 1 <= |moves| <= 3 && |future| == |moves| + 1 && future[0] == states[i]
    ensures forall k :: 0 <= k < |moves| ==> Step(future[k], moves[k], future[k + 1])
    ensures p in future[|moves|].pcs && future[|moves|].pcs[p] == Want(states[i].pcs[p].dir)
    ensures moves[|moves| - 1] == Wake(p)
  {
    RunKeepsInv(states, actions);
    var s := states[i];
    var Waiting(d, c) := s.pcs[p];
    if c in s.closed {
      future, moves := [s, s.(pcs := s.pcs[p := Want(d)])], [Wake(p)];
    } else if q :| q in s.pcs && s.pcs[q] == Releasing(d, c) {
      future, moves := ReleaserWakes(s, p, q);
    } else {
      var q :| q in s.pcs && s.pcs[q] == Holding(d, c);
      var s1 := State(Drop(s.table, d), s.closed, s.pcs[q := Releasing(d, c)]);
      var later, rest := ReleaserWakes(s1, p, q);
      future, moves := [s] + later, [Delete(q)] + rest;
    }
  }

  /** A releaser that closes its channel lets a waiter on it run. */
  lemma ReleaserWakes(s: State, p: Pid, q: Pid) returns (future: seq<State>, moves: seq<Action>)
    requires p in s.pcs && s.pcs[p].Waiting?
    requires q in s.pcs && s.pcs[q] == Releasing(s.pcs[p].dir, s.pcs[p].ch)
    ensures |moves| == 2 && |future| == 3 && future[0] == s
    ensures forall k :: 0 <= k < |moves| ==> Step(future[k], moves[k], future[k + 1])
    ensures p in future[2].pcs && future[2].pcs[p] == Want(s.pcs[p].dir) && moves[1] == Wake(p)
  {
    var Waiting(d, c) := s.pcs[p];
    var s1 := s.(closed := s.closed + {c}, pcs := s.pcs[q := Idle]);
    future, moves := [s, s1, s1.(pcs := s1.pcs[p := Want(d)])], [Close(q), Wake(p)];
  }

  /** Once nobody holds or is releasing a directory, every caller still waiting
      for it can run, and whichever of them locks next gets it. */
  lemma FreeDirectoryIsTakeable(states: seq<State>, actions: seq<Action>, i: nat, d: Dir)
    requires Run(states, actions) && i < |states|
    requires forall q <- states[i].pcs :: Owns(states[i].pcs[q]) ==> states[i].pcs[q].dir != d
    ensures d !in states[i].table.held
    ensures forall p <- states[i].pcs :: states[i].pcs[p].Waiting? && states[i].pcs[p].dir == d ==>
              states[i].pcs[p].ch in states[i].closed
  {
    RunKeepsInv(states, actions);
  }

  /** A caller that takes a free directory and gives it back leaves the map, every other caller
      and every channel of theirs as they were. */
  lemma TakenAndGivenBack(states: seq<State>, actions: seq<Action>, i: nat, p: Pid, d: Dir)
    returns (future: seq<State>)
    requires Run(states, actions) && i < |states|
    requires p in states[i].pcs && states[i].pcs[p] == Idle && d !in states[i].table.held
    ensures |future| == 5 && future[0] == states[i]
    ensures var moves := [Begin(p, d), Lock(p), Delete(p), Close(p)];
            forall k :: 0 <= k < 4 ==> Step(future[k], moves[k], future[k + 1])
    ensures p in future[2].pcs && future[2].pcs[p] == Holding(d, states[i].table.next)
    ensures future[4].table.held == states[i].table.held && future[4].pcs == states[i].pcs
    ensures future[4].closed == states[i].closed + {states[i].table.next} && states[i].table.next !in states[i].closed
  {
    RunKeepsInv(states, actions);
    var s := states[i];
    var c := s.table.next;
    var wants := s.(pcs := s.pcs[p := Want(d)]);
    var holds := State(Table(s.table.held[d := c], c + 1), s.closed, wants.pcs[p := Holding(d, c)]);
    var lets := State(Drop(holds.table, d), s.closed, holds.pcs[p := Releasing(d, c)]);
    var idle := lets.(closed := s.closed + {c}, pcs := lets.pcs[p := Idle]);
    future := [s, wants, holds, lets, idle];
  }

  /** A caller that finds a directory taken and gives up leaves no trace at all. */
  lemma CancelLeavesNoTrace(states: seq<State>, actions: seq<Action>, i: nat, p: Pid, d: Dir)
    returns (future: seq<State>)
    requires Run(states, actions) && i < |states|
    requires p in states[i].pcs && states[i].pcs[p] == Idle && d in states[i].table.held
    ensures |future| == 4 && future[0] == future[3] == states[i]
    ensures var moves := [Begin(p, d), Lock(p), Cancel(p)];
            forall k :: 0 <= k < 3 ==> Step(future[k], moves[k], future[k + 1])
    ensures p in future[2].pcs && future[2].pcs[p] == Waiting(d, states[i].table.held[d])
  {
    var s := states[i];
    var wants := s.(pcs := s.pcs[p := Want(d)]);
    var waits := s.(pcs := wants.pcs[p := Waiting(d, s.table.held[d])]);
    assert waits.pcs[p := Idle] == s.pcs;
    future := [s, wants, waits, s];
  }
}
