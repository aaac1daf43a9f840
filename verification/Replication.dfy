/** Flow control towards one peer (src/tracker/progress.rs) and sending appends to it (src/raft.rs). */
module Replication {
  import opened Options
  import opened RaftLogs
  import opened EntryLimits
  import opened InflightWindow

  datatype ProgressState = Probe | Replicate | Snapshot

  const INVALID_INDEX: nat := 0

  class Progress {
    var matched: nat
    var nextIdx: nat
    var state: ProgressState
    var paused: bool
    var pendingSnapshot: nat
    var pendingRequestSnapshot: nat
    const ins: Inflights

    /** What every operation keeps. */
    ghost predicate Valid()
      reads this, ins
    {
      ins.Valid() && matched < nextIdx
    }

    /** The window of a replicating peer: increasing indices, all sent already. */
    ghost predicate Windowed()
      reads this, ins
      requires Valid()
    {
      state == Replicate ==> Increasing(ins.Contents()) && forall x | x in ins.Contents() :: x < nextIdx
    }

    constructor (next: nat, size: nat)
      requires next > 0
      ensures Valid() && Windowed() && fresh(ins) && matched == 0 && nextIdx == next && state == Probe && !paused
      ensures pendingRequestSnapshot == INVALID_INDEX && ins.Limit() == size
    {
      matched, nextIdx, state, paused, pendingSnapshot, pendingRequestSnapshot := 0, next, Probe, false, 0, INVALID_INDEX;
      ins := new Inflights(size);
    }

    method ResetState(s: ProgressState)
      requires ins.Valid()
      modifies this`paused, this`pendingSnapshot, this`state, ins
      ensures ins.Valid() && ins.Contents() == [] && ins.Limit() == old(ins.Limit())
      ensures !paused && pendingSnapshot == 0 && state == s
    {
      paused, pendingSnapshot, state := false, 0, s;
      ins.Reset();
    }

    /** After a snapshot the probe starts behind it, otherwise behind what matched. */
    method BecomeProbe()
      requires Valid()
      modifies this, ins
      ensures Valid() && Windowed() && state == Probe && !paused && ins.Contents() == [] && ins.Limit() == old(ins.Limit())
      ensures pendingSnapshot == 0 && matched == old(matched) && pendingRequestSnapshot == old(pendingRequestSnapshot)
      ensures nextIdx == 1 + if old(state) == Snapshot && old(pendingSnapshot) > matched then old(pendingSnapshot) else matched
    {
      if state == Snapshot {
        var pending := pendingSnapshot;
        ResetState(Probe);
        nextIdx := if matched + 1 > pending + 1 then matched + 1 else pending + 1;
      } else {
        ResetState(Probe);
        nextIdx := matched + 1;
      }
    }

    method BecomeReplicate()
      requires Valid()
      modifies this, ins
      ensures Valid() && Windowed() && state == Replicate && !paused && ins.Contents() == [] && nextIdx == matched + 1
      ensures ins.Limit() == old(ins.Limit()) && pendingSnapshot == 0 && matched == old(matched) && pendingRequestSnapshot == old(pendingRequestSnapshot)
    {
      ResetState(Replicate);
      nextIdx := matched + 1;
    }

    method BecomeSnapshot(index: nat)
      requires Valid()
      modifies this, ins
      ensures Valid() && Windowed() && state == Snapshot && !paused && pendingSnapshot == index
      ensures ins.Contents() == [] && ins.Limit() == old(ins.Limit())
      ensures matched == old(matched) && nextIdx == old(nextIdx) && pendingRequestSnapshot == old(pendingRequestSnapshot)
    {
      ResetState(Snapshot);
      pendingSnapshot := index;
    }

    /** An acknowledgment never moves `matched` or `nextIdx` back. */
    method MaybeUpdate(n: nat) returns (updated: bool)
      requires Valid()
      modifies this`matched, this`nextIdx, this`paused
      ensures Valid() && (updated <==> old(matched) < n)
      ensures matched == (if old(matched) < n then n else old(matched))
      ensures nextIdx == (if old(nextIdx) < n + 1 then n + 1 else old(nextIdx))
      ensures paused == (old(paused) && !updated)
    {
      updated := matched < n;
      if updated {
        matched := n;
        paused := false;
      }
      if nextIdx < n + 1 {
        nextIdx := n + 1;
      }
    }

    /** A rejection that is not stale moves the next index back, never to what already matched. */
    method MaybeDecrTo(rejected: nat, hint: nat, requestSnapshot: nat) returns (r: bool)
      requires Valid()
      modifies this`nextIdx, this`paused, this`pendingRequestSnapshot
      ensures Valid()
      ensures !r ==> unchanged(this)
      ensures state == Replicate ==>
                (r <==> rejected > matched || (rejected == matched && requestSnapshot != INVALID_INDEX))
      ensures state != Replicate ==> (r <==> rejected == old(nextIdx) - 1 || requestSnapshot != INVALID_INDEX)
      ensures r && requestSnapshot != INVALID_INDEX ==>
                && nextIdx == old(nextIdx)
                && pendingRequestSnapshot ==
                   if state == Replicate || old(pendingRequestSnapshot) == INVALID_INDEX then requestSnapshot else old(pendingRequestSnapshot)
      ensures r ==> paused == (old(paused) && state == Replicate)
      ensures r && requestSnapshot == INVALID_INDEX ==> pendingRequestSnapshot == old(pendingRequestSnapshot)
      ensures r && requestSnapshot == INVALID_INDEX && state == Replicate ==> nextIdx == matched + 1
      ensures r && requestSnapshot == INVALID_INDEX && state != Replicate ==>
                nextIdx - 1 == (var p := if rejected - 1 < hint then rejected - 1 else hint; if p < matched then matched else p)
    {
      if state == Replicate {
        if rejected < matched || (rejected == matched && requestSnapshot == INVALID_INDEX) {
          return false;
        }
        if requestSnapshot == INVALID_INDEX {
          nextIdx := matched + 1;
        } else {
          pendingRequestSnapshot := requestSnapshot;
        }
        return true;
      }
      if (nextIdx == 0 || nextIdx - 1 != rejected) && requestSnapshot == INVALID_INDEX {
        return false;
      }
      if requestSnapshot == INVALID_INDEX {
        nextIdx := if rejected < hint + 1 then rejected else hint + 1;
        if nextIdx < matched + 1 {
          nextIdx := matched + 1;
        }
      } else if pendingRequestSnapshot == INVALID_INDEX {
        pendingRequestSnapshot := requestSnapshot;
      }
      paused := false;
      return true;
    }

    method IsPaused() returns (r: bool)
      requires Valid()
      ensures r <==> match state
                     case Probe => paused
                     case Replicate => |ins.Contents()| >= ins.Limit()
                     case Snapshot => true
    {
      match state
      case Probe => r := paused;
      case Replicate => r := ins.Full();
      case Snapshot => r := true;
    }

    /** Entries up to `last` were sent. A peer being sent a snapshot gets none. */
    method UpdateState(last: nat)
      requires Valid() && Windowed() && state != Snapshot && last >= nextIdx
      requires state == Replicate ==> |ins.Contents()| < ins.Limit()
      modifies this, ins
      ensures Valid() && Windowed() && matched == old(matched) && state == old(state)
      ensures pendingRequestSnapshot == old(pendingRequestSnapshot) && ins.Limit() == old(ins.Limit())
      ensures state == Replicate ==> nextIdx == last + 1 && ins.Contents() == old(ins.Contents()) + [last]
      ensures state == Probe ==> paused && nextIdx == old(nextIdx) && ins.Contents() == old(ins.Contents())
    {
      if state == Replicate {
        ghost var w := ins.Contents();
        assert forall i | 0 <= i < |w| :: w[i] in w && w[i] < last;
        nextIdx := last + 1;
        ins.Add(last);
      } else {
        paused := true;
      }
    }
  }

  // ---- Sending ---------------------------------------------------------------------------------------------

  /** An append: it continues the log behind `prev`. */
  datatype AppendMsg = AppendMsg(prev: nat, prevTerm: nat, ents: Log)

  /** The message carries the leader's log from `prev` on. */
  predicate Carries(log: Log, m: AppendMsg) {
    m.prev + |m.ents| <= |log| && m.prevTerm == TermAt(log, m.prev) && m.ents == log[m.prev..m.prev + |m.ents|]
  }

  /** `maybe_send_append` towards a regular peer that asked for no snapshot, batching off. */
  method MaybeSendAppend(log: Log, pr: Progress, allowEmpty: bool, max: Limit) returns (m: Option<AppendMsg>)
    requires pr.Valid() && pr.Windowed() && pr.pendingRequestSnapshot == INVALID_INDEX && pr.nextIdx <= |log| + 1
    modifies pr, pr.ins
    ensures pr.Valid() && pr.Windowed() && pr.pendingRequestSnapshot == INVALID_INDEX && pr.nextIdx <= |log| + 1
    ensures pr.state == old(pr.state) && pr.matched == old(pr.matched) && pr.ins.Limit() == old(pr.ins.Limit())
    ensures m.Some? ==>
              && Carries(log, m.value) && m.value.prev == old(pr.nextIdx) - 1 && (!allowEmpty ==> m.value.ents != [])
              && IsLimited(log[m.value.prev..], max, m.value.ents)
    ensures m.None? || m.value.ents == [] ==>
              pr.nextIdx == old(pr.nextIdx) && pr.ins.Contents() == old(pr.ins.Contents()) && pr.paused == old(pr.paused)
    ensures pr.state == Replicate ==>
              (m.None? <==> |old(pr.ins.Contents())| >= pr.ins.Limit() || (!allowEmpty && old(pr.nextIdx) == |log| + 1))
    ensures pr.state == Replicate && m.Some? && m.value.ents != [] ==>
              && pr.nextIdx == old(pr.nextIdx) + |m.value.ents|
              && pr.ins.Contents() == old(pr.ins.Contents()) + [pr.nextIdx - 1]
    ensures pr.state == Probe && m.Some? && m.value.ents != [] ==> pr.paused && pr.nextIdx == old(pr.nextIdx)
    ensures pr.state == Snapshot ==> m.None?
  {
    var paused := pr.IsPaused();
    if paused {
      return None;
    }
    var prev := pr.nextIdx - 1;
    var ents := LimitSize(log[prev..], max);
    if !allowEmpty && ents == [] {
      return None;
    }
    if ents != [] {
      pr.UpdateState(prev + |ents|);
    }
    return Some(AppendMsg(prev, TermAt(log, prev), ents));
  }

  /** The entries of all messages, one after the other. */
  function Sent(msgs: seq<AppendMsg>): Log {
    if msgs == [] then [] else Sent(msgs[..|msgs| - 1]) + msgs[|msgs| - 1].ents
  }

  /** Each message continues the log right behind the one before. */
  predicate Consecutive(log: Log, from: nat, msgs: seq<AppendMsg>) {
    msgs != [] ==>
      && Consecutive(log, from, msgs[..|msgs| - 1])
      && Carries(log, msgs[|msgs| - 1]) && msgs[|msgs| - 1].ents != []
      && msgs[|msgs| - 1].prev == from + |Sent(msgs[..|msgs| - 1])|
  }

  /** `send_append_aggressively` to a replicating peer: sends until the window is full or the log is
      exhausted; together the messages are the log from the old to the new next index. */
  method SendAggressively(log: Log, pr: Progress, max: Limit) returns (msgs: seq<AppendMsg>)
    requires pr.Valid() && pr.Windowed() && pr.pendingRequestSnapshot == INVALID_INDEX && pr.nextIdx <= |log| + 1
    requires pr.state == Replicate
    modifies pr, pr.ins
    ensures pr.Valid() && pr.Windowed() && pr.state == Replicate && pr.matched == old(pr.matched)
    ensures pr.ins.Limit() == old(pr.ins.Limit())
    ensures old(pr.nextIdx) <= pr.nextIdx <= |log| + 1
    ensures Consecutive(log, old(pr.nextIdx) - 1, msgs)
    ensures Sent(msgs) == log[old(pr.nextIdx) - 1..pr.nextIdx - 1]
    ensures |pr.ins.Contents()| == |old(pr.ins.Contents())| + |msgs| && old(pr.ins.Contents()) <= pr.ins.Contents()
    ensures |pr.ins.Contents()| >= pr.ins.Limit() || pr.nextIdx == |log| + 1
    ensures |old(pr.ins.Contents())| <= pr.ins.Limit() ==> |pr.ins.Contents()| <= pr.ins.Limit()
  {
    hide Ring, IsLimited, Increasing;
    msgs := [];
    ghost var from, window := pr.nextIdx - 1, pr.ins.Contents();
    while true
      invariant pr.Valid() && pr.Windowed() && pr.state == Replicate && pr.matched == old(pr.matched)
      invariant pr.pendingRequestSnapshot == INVALID_INDEX && from + 1 <= pr.nextIdx <= |log| + 1
      invariant pr.ins.Limit() == old(pr.ins.Limit())
      invariant Consecutive(log, from, msgs) && Sent(msgs) == log[from..pr.nextIdx - 1]
      invariant |pr.ins.Contents()| == |window| + |msgs| && window <= pr.ins.Contents()
      invariant |window| <= pr.ins.Limit() ==> |pr.ins.Contents()| <= pr.ins.Limit()
      decreases |log| + 1 - pr.nextIdx
    {
      var m := MaybeSendAppend(log, pr, false, max);
      if m.None? {
        break;
      }
      ghost var before := msgs;
      msgs := msgs + [m.value];
      assert msgs[..|msgs| - 1] == before;
      SentNext(log, from, before, m.value);
    }
  }

  lemma SentNext(log: Log, from: nat, msgs: seq<AppendMsg>, m: AppendMsg)
    requires Carries(log, m) && m.prev == from + |Sent(msgs)| && from <= m.prev && Sent(msgs) == log[from..m.prev]
    ensures Sent(msgs + [m]) == log[from..m.prev + |m.ents|]
  {
    assert (msgs + [m])[..|msgs|] == msgs;
  }
}
