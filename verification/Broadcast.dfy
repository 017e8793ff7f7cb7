/** The close-and-replace broadcast of cmd/waired-agent/inference_prepull_hold.go.

    A value guarded by a mutex travels with a channel. Every write closes the channel
    and replaces it, so a reader that took the value and the channel together can park
    on the channel without missing a write. The setup frame and the model-choice claim
    are both one of these. */
module Broadcasts {
  type Chan = nat

  datatype Option<T> = None | Some(value: T)

  /** `ch` is None until somebody reads or writes; `closed` are the channels closed so far. */
  datatype Broadcast<V> = Broadcast(value: V, ch: Option<Chan>, closed: set<Chan>, next: Chan)

  function Fresh<V>(v: V): Broadcast<V> {
    Broadcast(v, None, {}, 0)
  }

  /** Write the value, close the channel there was, leave an open one. */
  function Announce<V>(b: Broadcast<V>, v: V): Broadcast<V> {
    Broadcast(v, Some(b.next), if b.ch.Some? then b.closed + {b.ch.value} else b.closed, b.next + 1)
  }

  /** Read the value together with the channel to park on, making one if there is none. */
  function Snapshot<V>(b: Broadcast<V>): (Broadcast<V>, V, Chan) {
    if b.ch.Some? then (b, b.value, b.ch.value)
    else (b.(ch := Some(b.next), next := b.next + 1), b.value, b.next)
  }

  ghost predicate Valid<V>(b: Broadcast<V>) {
    && (forall c <- b.closed :: c < b.next)
    && (b.ch.Some? ==> b.ch.value < b.next && b.ch.value !in b.closed)
  }

  /** While the channel taken with a snapshot is open, the snapshot is current. */
  ghost predicate Current<V>(b: Broadcast<V>, v: V, c: Chan) {
    && c < b.next
    && (c !in b.closed ==> b.ch == Some(c) && b.value == v)
  }

  /** The object the two write paths and the two read paths go through. */
  class Cell<V> {
    var value: V
    var ch: Option<Chan>
    var closed: set<Chan>
    var next: Chan

    ghost function Abs(): Broadcast<V>
      reads this
    {
      Broadcast(value, ch, closed, next)
    }

    constructor (v: V)
      ensures Abs() == Fresh(v) && Valid(Abs())
    {
      value, ch, closed, next := v, None, {}, 0;
    }

    method Write(v: V)
      requires Valid(Abs())
      modifies this
      ensures Abs() == Announce(old(Abs()), v) && Valid(Abs())
      ensures forall w, c :: Current(old(Abs()), w, c) ==> Current(Abs(), w, c) && c in closed
    {
      if ch.Some? {
        closed := closed + {ch.value};
      }
      value, ch, next := v, Some(next), next + 1;
    }

    method Read() returns (v: V, c: Chan)
      requires Valid(Abs())
      modifies this
      ensures (Abs(), v, c) == Snapshot(old(Abs())) && Valid(Abs())
      ensures Current(Abs(), v, c) && c !in closed
      ensures forall w, d :: Current(old(Abs()), w, d) ==> Current(Abs(), w, d)
    {
      if ch.None? {
        ch, next := Some(next), next + 1;
      }
      v, c := value, ch.value;
    }
  }
}
