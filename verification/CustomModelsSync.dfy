/** The custom-model revision sync of cmd/waired-agent/custom_models_sync.go.

    A revision is modelled by its position in the account's history, so "newer" is
    `>` and two revisions are equal exactly when the strings are. The control plane
    answers a fetch with a revision that was current at some moment of the fetch. */
module CustomModelsSync {
  type Revision = nat
  type Pid = nat

  datatype Option<T> = None | Some(value: T)

  /** The object, when its methods are not interleaved with anything. */
  class Sync {
    var seen: bool
    var latest: Option<Revision>
    var held: Revision
    var kick: bool

    constructor (kept: Revision)
      ensures !seen && latest == None && held == kept && !kick
    {
      seen, latest, held, kick := false, None, kept, false;
    }

    /** Does nothing until a revision has been seen; a queued kick absorbs others. */
    method Kick()
      modifies this`kick
      ensures kick == (old(kick) || seen)
    {
      if seen {
        kick := true;
      }
    }

    method NoteRevision(rev: Revision)
      modifies this`seen, this`latest, this`kick
      ensures seen && latest == Some(rev)
      ensures kick == (old(kick) || rev != held)
      ensures Settled() <==> rev == held
    {
      seen := true;
      latest := Some(rev);
      if rev != held {
        Kick();
      }
    }

    predicate Settled()
      reads this
    {
      seen && latest == Some(held)
    }
  }

  // ---------------------------------------------------------------------
  // Interleavings
  // ---------------------------------------------------------------------

  /** A map frame inside NoteRevision, by the atomic operation it does next. */
  datatype Frame =
    | Idle
    | StoreSeen(rev: Revision)
    | StoreLatest(rev: Revision)
    | Compare(rev: Revision)
    | Send(rev: Revision)

  /** The Run goroutine. A fetch remembers how many notes preceded it (`covers`)
      and the oldest revision the control plane may answer with (`since`). */
  datatype Worker = Selecting | Fetching(since: Revision, covers: nat) | Stopped

  /** `notes` and `done` are history: the revisions whose NoteRevision found them
      not held and sent its kick, and how many of them a successful fetch begun
      later has covered. */
  datatype State = State(
    seen: bool, latest: Option<Revision>, held: Revision, server: Revision,
    kick: bool, retry: bool, worker: Worker, frames: map<Pid, Frame>,
    notes: seq<Revision>, done: nat)

  datatype Action =
    | Publish                        // the account's list changes
    | Arrive(p: Pid, rev: Revision)  // a map frame names rev
    | Note(p: Pid)                   // the next operation of that frame
    | AskAgain                       // Kick from elsewhere
    | TakeKick
    | TakeRefresh
    | TakeRetry
    | Succeed(rev: Revision)
    | Fail
    | Stop

  ghost predicate Init(s: State) {
    && !s.seen && s.latest == None && !s.kick && !s.retry
    && s.worker == Selecting && s.held <= s.server
    && (forall p <- s.frames :: s.frames[p] == Idle)
    && s.notes == [] && s.done == 0
  }

  function Begin(s: State): State {
    s.(worker := Fetching(s.server, |s.notes|))
  }

  function NoteStep(s: State, p: Pid): State
    requires p in s.frames && s.frames[p] != Idle
  {
    match s.frames[p]
    case StoreSeen(rev) => s.(seen := true, frames := s.frames[p := StoreLatest(rev)])
    case StoreLatest(rev) => s.(latest := Some(rev), frames := s.frames[p := Compare(rev)])
    case Compare(rev) => s.(frames := s.frames[p := if rev != s.held then Send(rev) else Idle])
    case Send(rev) =>
      if s.seen then s.(kick := true, notes := s.notes + [rev], frames := s.frames[p := Idle])
      else s.(frames := s.frames[p := Idle])
  }

  ghost predicate Step(s: State, a: Action, t: State) {
    match a
    case Publish => t == s.(server := s.server + 1)
    case Arrive(p, rev) =>
      p in s.frames && s.frames[p] == Idle && rev <= s.server && t == s.(frames := s.frames[p := StoreSeen(rev)])
    case Note(p) => p in s.frames && s.frames[p] != Idle && t == NoteStep(s, p)
    case AskAgain => t == s.(kick := s.kick || s.seen)
    case TakeKick => s.worker == Selecting && s.kick && t == Begin(s.(kick := false))
    case TakeRefresh => s.worker == Selecting && t == if s.seen then Begin(s) else s
    case TakeRetry => s.worker == Selecting && s.retry && t == Begin(s.(retry := false))
    case Succeed(rev) =>
      && s.worker.Fetching?
      && s.worker.since <= rev <= s.server
      && t == s.(worker := Selecting, held := rev,
                 done := if s.done < s.worker.covers then s.worker.covers else s.done)
    case Fail => s.worker.Fetching? && t == s.(worker := Selecting, retry := true)
    case Stop => t == s.(worker := Stopped)
  }

  ghost predicate Run(states: seq<State>, actions: seq<Action>) {
    && |states| == |actions| + 1
    && Init(states[0])
    && forall i :: 0 <= i < |actions| ==> Step(states[i], actions[i], states[i + 1])
  }

  /** Note number k (counting from 0) is in somebody's hands. */
  ghost predicate Remembered(s: State, k: nat) {
    || k < s.done
    || s.kick
    || s.retry
    || (s.worker.Fetching? && k < s.worker.covers)
  }

  /** Revisions only move forward, and a fetch covers the notes made before it began. */
  ghost predicate Bounds(s: State) {
    && s.held <= s.server
    && s.done <= |s.notes|
    && (forall k :: 0 <= k < |s.notes| ==> s.notes[k] <= s.server)
    && (forall k :: 0 <= k < s.done ==> s.notes[k] <= s.held)
    && (s.worker.Fetching? ==>
          && s.held <= s.worker.since <= s.server
          && s.worker.covers <= |s.notes|
          && (forall k :: 0 <= k < s.worker.covers ==> s.notes[k] <= s.worker.since)
          && (s.worker.covers < |s.notes| ==> s.kick))
  }

  ghost predicate AllRemembered(s: State) {
    s.worker != Stopped ==> forall k: nat :: k < |s.notes| ==> Remembered(s, k)
  }

  ghost predicate FramesAreSeen(s: State) {
    forall p <- s.frames :: s.frames[p] != Idle ==>
      s.frames[p].rev <= s.server && (s.frames[p].StoreSeen? || s.seen)
  }

  ghost predicate Inv(s: State) {
    Bounds(s) && AllRemembered(s) && FramesAreSeen(s)
  }

  lemma StepKeepsBounds(s: State, a: Action, t: State)
    requires Bounds(s) && FramesAreSeen(s) && Step(s, a, t)
    ensures Bounds(t) && s.held <= t.held && s.notes <= t.notes
  {
  }

  lemma StepKeepsRemembered(s: State, a: Action, t: State)
    requires Bounds(s) && AllRemembered(s) && FramesAreSeen(s) && Step(s, a, t)
    ensures AllRemembered(t)
  {
    if t.worker != Stopped {
      forall k: nat | k < |t.notes| ensures Remembered(t, k) {
        if k < |s.notes| && s.worker != Stopped {
          assert Remembered(s, k);
        }
      }
    }
  }

  lemma StepKeepsInv(s: State, a: Action, t: State)
    requires Inv(s) && Step(s, a, t)
    ensures Inv(t)
    ensures s.held <= t.held && s.notes <= t.notes
  {
    StepKeepsBounds(s, a, t);
    StepKeepsRemembered(s, a, t);
  }

  lemma {:induction false} RunKeepsInv(states: seq<State>, actions: seq<Action>, i: nat)
    requires Run(states, actions) && i < |states|
    ensures Inv(states[i])
  {
    if i > 0 {
      RunKeepsInv(states, actions, i - 1);
      StepKeepsInv(states[i - 1], actions[i - 1], states[i]);
    }
  }

  lemma {:induction false} NotesOnlyGrow(states: seq<State>, actions: seq<Action>, i: nat, j: nat)
    requires Run(states, actions) && i <= j < |states|
    ensures states[i].notes <= states[j].notes && states[i].held <= states[j].held
    decreases j - i
  {
    if i < j {
      RunKeepsInv(states, actions, i);
      StepKeepsInv(states[i], actions[i], states[i + 1]);
      NotesOnlyGrow(states, actions, i + 1, j);
    }
  }

  /** No noted revision is forgotten. Step i is the last operation of a frame
      that named `rev` and found it not held. In every later state in which the
      worker is not stopped, a kick is queued, or a retry is armed, or a fetch that
      began after the note is running, or such a fetch has succeeded — and in the
      last case the set held is at least as new as the revision named. */
  lemma NoNoteForgotten(states: seq<State>, actions: seq<Action>, i: nat, j: nat, p: Pid, rev: Revision)
    requires Run(states, actions) && i < |actions| && i < j < |states|
    requires actions[i] == Note(p) && p in states[i].frames && states[i].frames[p] == Send(rev)
    ensures var s := states[j]; var k := |states[i].notes|;
            && (s.worker == Stopped || Remembered(s, k))
            && (k < s.done ==> rev <= s.held)
  {
    RunKeepsInv(states, actions, i);
    RunKeepsInv(states, actions, j);
    NotesOnlyGrow(states, actions, i + 1, j);
    assert states[i + 1].notes == states[i].notes + [rev];
    assert states[j].notes[|states[i].notes|] == rev;
  }

  /** At rest nothing is owed: with the worker selecting, no kick and no retry,
      every revision any frame ever found missing is covered by the set held. */
  lemma RestMeansCaughtUp(states: seq<State>, actions: seq<Action>, j: nat)
    requires Run(states, actions) && j < |states|
    requires states[j].worker == Selecting && !states[j].kick && !states[j].retry
    ensures forall k :: 0 <= k < |states[j].notes| ==> states[j].notes[k] <= states[j].held
  {
    RunKeepsInv(states, actions, j);
    forall k: nat | k < |states[j].notes| ensures states[j].notes[k] <= states[j].held {
      assert Remembered(states[j], k);
    }
  }

  // ----- From a named revision to a held one -----------------------------

  /** A frame of p found this revision held when it compared. */
  ghost predicate FoundHeld(states: seq<State>, actions: seq<Action>, k: nat, p: Pid, rev: Revision) {
    && k < |actions| && k < |states| && actions[k] == Note(p)
    && p in states[k].frames && states[k].frames[p] == Compare(rev) && states[k].held == rev
  }

  /** What became of the revision a frame of p named at step i: the frame is still at it, or the
      revision was held when the frame compared, or it has been noted since. */
  ghost predicate Followed(states: seq<State>, actions: seq<Action>, i: nat, j: nat, p: Pid, rev: Revision)
    requires i < j < |states|
  {
    || (p in states[j].frames && states[j].frames[p] != Idle && states[j].frames[p].rev == rev)
    || (exists k: nat :: i < k < j && FoundHeld(states, actions, k, p, rev))
    || (|states[i].notes| <= |states[j].notes| && rev in states[j].notes[|states[i].notes|..])
  }

  lemma FrameMoves(s: State, a: Action, t: State, p: Pid, rev: Revision)
    requires FramesAreSeen(s) && Step(s, a, t) && p in s.frames && s.frames[p] != Idle && s.frames[p].rev == rev
    ensures || (p in t.frames && t.frames[p] != Idle && t.frames[p].rev == rev)
            || (a == Note(p) && s.frames[p] == Compare(rev) && s.held == rev)
            || t.notes == s.notes + [rev]
  {
  }

  lemma {:induction false} StaysFollowed(states: seq<State>, actions: seq<Action>, i: nat, j: nat, p: Pid,
                                         rev: Revision)
    requires Run(states, actions) && i < j < |states| && actions[i] == Arrive(p, rev)
    ensures Followed(states, actions, i, j, p, rev)
    decreases j
  {
    if j > i + 1 {
      StaysFollowed(states, actions, i, j - 1, p, rev);
      RunKeepsInv(states, actions, j - 1);
      NotesOnlyGrow(states, actions, i, j - 1);
      NotesOnlyGrow(states, actions, j - 1, j);
      var s, t := states[j - 1], states[j];
      var n := |states[i].notes|;
      assert s.notes[n..] <= t.notes[n..];
      if p in s.frames && s.frames[p] != Idle && s.frames[p].rev == rev {
        FrameMoves(s, actions[j - 1], t, p, rev);
        if t.notes == s.notes + [rev] {
          assert t.notes[n..] == s.notes[n..] + [rev];
        } else if actions[j - 1] == Note(p) && s.frames[p] == Compare(rev) && s.held == rev {
          assert FoundHeld(states, actions, j - 1, p, rev);
        }
      } else if k: nat :| i < k < j - 1 && FoundHeld(states, actions, k, p, rev) {
        assert i < k < j;
      }
    } else {
      assert Step(states[i], actions[i], states[j]);
    }
  }

  /** A revision named by a frame is not dropped: once that frame has ended, the revision was
      held when the frame compared or it has been noted, and then `NoNoteForgotten` applies. */
  lemma NamedIsNoted(states: seq<State>, actions: seq<Action>, i: nat, j: nat, p: Pid, rev: Revision)
    requires Run(states, actions) && i < j < |states| && actions[i] == Arrive(p, rev)
    requires p in states[j].frames ==> states[j].frames[p] == Idle
    ensures || (exists k: nat :: i < k < j && FoundHeld(states, actions, k, p, rev))
            || (|states[i].notes| <= |states[j].notes| && rev in states[j].notes[|states[i].notes|..])
  {
    StaysFollowed(states, actions, i, j, p, rev);
  }

  /** The revision reported as the latest is held, or noted, or about to be compared. */
  ghost predicate LatestAccounted(s: State) {
    s.latest.Some? ==>
      || s.latest.value <= s.held
      || s.latest.value in s.notes
      || exists p :: p in s.frames && AtHand(s.frames[p], s.latest.value)
  }

  ghost predicate AtHand(f: Frame, rev: Revision) {
    f == Compare(rev) || f == Send(rev)
  }

  lemma StepKeepsLatest(s: State, a: Action, t: State)
    requires Inv(s) && LatestAccounted(s) && Step(s, a, t)
    ensures LatestAccounted(t)
  {
    StepKeepsInv(s, a, t);
    if t.latest.Some? {
      var r := t.latest.value;
      if a.Note? && s.frames[a.p] == StoreLatest(r) {
        assert AtHand(t.frames[a.p], r);
      } else if p :| p in s.frames && AtHand(s.frames[p], r) {
        assert p in t.frames;
        if a == Note(p) && s.frames[p] == Send(r) {
          assert r == t.notes[|s.notes|];
        } else if a == Note(p) && s.held == r {
        } else {
          assert AtHand(t.frames[p], r);
        }
      }
    }
  }

  lemma {:induction false} RunKeepsLatest(states: seq<State>, actions: seq<Action>, i: nat)
    requires Run(states, actions) && i < |states|
    ensures LatestAccounted(states[i])
  {
    if i > 0 {
      RunKeepsLatest(states, actions, i - 1);
      RunKeepsInv(states, actions, i - 1);
      StepKeepsLatest(states[i - 1], actions[i - 1], states[i]);
    }
  }

  /** At rest, and with no frame under way, the agent holds the revision it reports as the
      latest, or one that came after it. */
  lemma RestMeansCurrent(states: seq<State>, actions: seq<Action>, j: nat)
    requires Run(states, actions) && j < |states|
    requires states[j].worker == Selecting && !states[j].kick && !states[j].retry
    requires forall p <- states[j].frames :: states[j].frames[p] == Idle
    ensures states[j].latest.Some? ==> states[j].latest.value <= states[j].held
  {
    RunKeepsLatest(states, actions, j);
    RestMeansCaughtUp(states, actions, j);
  }

  /** What is reported as the latest is what the last frame to say so named. */
  lemma {:induction false} LatestIsLastStored(states: seq<State>, actions: seq<Action>, i: nat, j: nat, p: Pid,
                                              rev: Revision)
    requires Run(states, actions) && i < j < |states|
    requires actions[i] == Note(p) && p in states[i].frames && states[i].frames[p] == StoreLatest(rev)
    requires forall k, q :: i < k < j && actions[k] == Note(q) && q in states[k].frames ==>
               !states[k].frames[q].StoreLatest?
    ensures states[j].latest == Some(rev)
    decreases j
  {
    assert Step(states[j - 1], actions[j - 1], states[j]);
    if j > i + 1 {
      LatestIsLastStored(states, actions, i, j - 1, p, rev);
    }
  }

  ghost predicate Then(s: State, actions: seq<Action>, t: State)
    decreases |actions|
  {
    if actions == [] then s == t
    else exists m :: Step(s, actions[0], m) && Then(m, actions[1..], t)
  }

  /** The agent can always catch up: from every reachable state with a worker, the worker alone
      can get to where every noted revision is covered by the set held, in two steps at most. */
  lemma CanCatchUp(states: seq<State>, actions: seq<Action>, j: nat) returns (next: seq<Action>, t: State)
    requires Run(states, actions) && j < |states| && states[j].worker != Stopped
    ensures |next| <= 2 && Then(states[j], next, t)
    ensures forall a <- next :: a == TakeKick || a == TakeRetry || a.Succeed?
    ensures t.worker == Selecting && t.notes == states[j].notes
    ensures forall k :: 0 <= k < |t.notes| ==> t.notes[k] <= t.held
  {
    RunKeepsInv(states, actions, j);
    var s := states[j];
    if s.worker.Fetching? {
      next, t := Answer(s);
    } else if s.kick || s.retry {
      var a := if s.kick then TakeKick else TakeRetry;
      var m := Begin(if s.kick then s.(kick := false) else s.(retry := false));
      assert Step(s, a, m);
      var rest;
      rest, t := Answer(m);
      next := [a] + rest;
      assert next[1..] == rest;
    } else {
      next, t := [], s;
      RestMeansCaughtUp(states, actions, j);
    }
  }

  /** A fetch that is answered with what the control plane holds now. */
  lemma Answer(s: State) returns (next: seq<Action>, t: State)
    requires Bounds(s) && s.worker.Fetching?
    ensures next == [Succeed(s.server)] && Then(s, next, t)
    ensures t.worker == Selecting && t.notes == s.notes && t.held == s.server
  {
    next := [Succeed(s.server)];
    t := s.(worker := Selecting, held := s.server,
            done := if s.done < s.worker.covers then s.worker.covers else s.done);
    assert Step(s, next[0], t) && next[1..] == [];
    assert Then(t, [], t);
  }
}
