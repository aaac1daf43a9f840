/** The window of in-flight appends (src/tracker/inflights.rs): a ring buffer that behaves as a
    bounded first-in first-out queue whose limit may change at any time. */
module InflightWindow {
  import opened Options

  /** The queue without its leading items up to `to`. */
  function DropUpTo(q: seq<nat>, to: nat): (r: seq<nat>)
    ensures |r| <= |q| && r == q[|q| - |r|..]
    ensures forall i | 0 <= i < |q| - |r| :: q[i] <= to
    ensures r != [] ==> r[0] > to
  {
    if q == [] || q[0] > to then q else DropUpTo(q[1..], to)
  }

  /** Only one suffix is what remains after dropping the longest prefix of items up to `to`. */
  lemma {:induction false} DropUpToUnique(q: seq<nat>, to: nat, n: nat)
    requires n <= |q| && (forall i | 0 <= i < n :: q[i] <= to) && (n < |q| ==> q[n] > to)
    ensures DropUpTo(q, to) == q[n..]
  {
    if n > 0 {
      DropUpToUnique(q[1..], to, n - 1);
    }
  }

  predicate Increasing(q: seq<nat>) {
    forall i, j | 0 <= i < j < |q| :: q[i] < q[j]
  }

  /** In a strictly increasing window, freeing up to the first item frees that item alone. */
  lemma FirstOnly(q: seq<nat>)
    requires q != [] && Increasing(q)
    ensures DropUpTo(q, q[0]) == q[1..] && Increasing(q[1..])
  {
    DropUpToUnique(q, q[0], 1);
  }

  /** Freeing keeps a strictly increasing window so, and everything left is beyond `to`. */
  lemma FreedIncreasing(q: seq<nat>, to: nat)
    requires Increasing(q)
    ensures Increasing(DropUpTo(q, to)) && forall i | 0 <= i < |DropUpTo(q, to)| :: DropUpTo(q, to)[i] > to
  {
    hide DropUpTo;
    var r := DropUpTo(q, to);
    assert forall i | 0 <= i < |r| :: r[i] == q[|q| - |r| + i];
  }

  /** The position `i` steps into a window that starts at `start`. */
  function Wrap(start: nat, cap: nat, i: nat): nat {
    if start + i >= cap && cap > 0 then start + i - cap else start + i
  }

  predicate RingOk(buffer: seq<nat>, start: nat, count: nat, cap: nat) {
    && count <= cap && |buffer| <= cap
    && (start < cap || start == 0)
    && (start + count <= |buffer| || |buffer| == cap)
  }

  /** The `count` items from `start` on, wrapping around at `cap`. */
  function Ring(buffer: seq<nat>, start: nat, count: nat, cap: nat): (q: seq<nat>)
    requires RingOk(buffer, start, count, cap)
    ensures |q| == count && forall i | 0 <= i < count :: q[i] == buffer[Wrap(start, cap, i)]
  {
    seq(count, i requires 0 <= i < count && RingOk(buffer, start, count, cap) => buffer[Wrap(start, cap, i)])
  }

  lemma RingDrop(buffer: seq<nat>, start: nat, count: nat, cap: nat, i: nat)
    requires RingOk(buffer, start, count, cap) && i <= count && count > 0
    ensures RingOk(buffer, Wrap(start, cap, i), count - i, cap)
    ensures Ring(buffer, Wrap(start, cap, i), count - i, cap) == Ring(buffer, start, count, cap)[i..]
  {
    var q, r := Ring(buffer, start, count, cap), Ring(buffer, Wrap(start, cap, i), count - i, cap);
    forall x | 0 <= x < count - i ensures r[x] == q[i..][x] {
      assert Wrap(Wrap(start, cap, i), cap, x) == Wrap(start, cap, i + x);
    }
  }

  class Inflights {
    var start: nat
    var count: nat
    var buffer: seq<nat>
    var cap: nat
    var incomingCap: Option<nat>

    ghost predicate Valid()
      reads this
    {
      && RingOk(buffer, start, count, cap)
      && (incomingCap.Some? ==> count > 0 && incomingCap.value < cap)
    }

    /** The queue the window stands for. */
    ghost function Contents(): seq<nat>
      reads this
      requires Valid()
    {
      Ring(buffer, start, count, cap)
    }

    /** How many items the window may hold, counting a change that waits for it to drain. */
    function Limit(): nat
      reads this
    {
      if incomingCap.Some? then incomingCap.value else cap
    }

    constructor (c: nat)
      ensures Valid() && Contents() == [] && Limit() == c
    {
      start, count, buffer, cap, incomingCap := 0, 0, [], c, None;
    }

    method Full() returns (r: bool)
      requires Valid()
      ensures r <==> |Contents()| >= Limit()
    {
      r := count == cap || (incomingCap.Some? && count >= incomingCap.value);
    }

    /** Adding to a full window is refused by the source. */
    method Add(inflight: nat)
      requires Valid() && |Contents()| < Limit()
      modifies this
      ensures Valid() && Contents() == old(Contents()) + [inflight] && Limit() == old(Limit())
    {
      ghost var was := Contents();
      ghost var b := buffer;
      var next := start + count;
      if next >= cap {
        next := next - cap;
      }
      if next == |buffer| {
        buffer := buffer + [inflight];
      } else {
        buffer := buffer[next := inflight];
      }
      count := count + 1;
      forall i | 0 <= i < count - 1 ensures Contents()[i] == was[i] {
        assert Wrap(start, cap, i) != next;
      }
      assert Wrap(start, cap, count - 1) == next;
      assert Contents() == was + [inflight];
    }

    method FreeTo(to: nat)
      requires Valid()
      modifies this
      ensures Valid() && Contents() == DropUpTo(old(Contents()), to) && Limit() == old(Limit())
    {
      hide DropUpTo, Ring;
      ghost var was := Contents();
      if count == 0 || to < buffer[start] {
        DropUpToUnique(was, to, 0);
        return;
      }
      var i, idx := 0, start;
      while i < count
        invariant 0 <= i <= count && idx == Wrap(start, cap, i)
        invariant forall x | 0 <= x < i :: was[x] <= to
      {
        if to < buffer[idx] {
          break;
        }
        idx := idx + 1;
        if idx >= cap {
          idx := idx - cap;
        }
        i := i + 1;
      }
      DropUpToUnique(was, to, i);
      RingDrop(buffer, start, count, cap, i);
      count := count - i;
      start := idx;
      if count == 0 && incomingCap.Some? {
        start, cap, buffer, incomingCap := 0, incomingCap.value, [], None;
      }
    }

    method FreeFirstOne()
      requires Valid()
      modifies this
      ensures Valid() && Limit() == old(Limit())
      ensures Contents() == if old(Contents()) == [] then [] else DropUpTo(old(Contents()), old(Contents())[0])
    {
      if count > 0 {
        assert Contents()[0] == buffer[start];
        FreeTo(buffer[start]);
      }
    }

    method Reset()
      requires Valid()
      modifies this
      ensures Valid() && Contents() == [] && Limit() == old(Limit()) == cap
    {
      count, start, buffer := 0, 0, [];
      cap := if incomingCap.Some? then incomingCap.value else cap;
      incomingCap := None;
    }

    method MaybeFreeBuffer()
      requires Valid()
      modifies this
      ensures Valid() && Contents() == old(Contents()) && Limit() == old(Limit())
      ensures old(Contents()) == [] ==> buffer == []
    {
      if count == 0 {
        start, buffer := 0, [];
      }
      assert Contents() == old(Contents());
    }

    /** Changes the limit without touching the queue: growing at once, shrinking when it has drained. */
    method SetCap(incoming: nat)
      requires Valid()
      modifies this
      ensures Valid() && Contents() == old(Contents()) && Limit() == incoming
      ensures incomingCap.Some? <==> incoming < old(cap) && old(Contents()) != []
    {
      ghost var was := Contents();
      if cap == incoming {
        incomingCap := None;
      } else if cap < incoming {
        if start + count > cap {
          ghost var b, s, c := buffer, start, cap;
          buffer := buffer[start..] + buffer[0..count - (cap - start)];
          start := 0;
          assert forall i | 0 <= i < count :: buffer[i] == b[Wrap(s, c, i)] == was[i];
        }
        cap := incoming;
        incomingCap := None;
      } else if count == 0 {
        cap, incomingCap, start, buffer := incoming, None, 0, [];
      } else {
        incomingCap := Some(incoming);
      }
      assert Contents() == was;
    }
  }
}
