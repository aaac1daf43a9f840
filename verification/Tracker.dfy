/** The leader's view of its peers (src/tracker.rs): vote counting, commit indices, and the
    replication sets of the witness extension. */
module Tracker {
  import opened Options
  import opened Quorum
  import opened QuorumIndex
  import C = ClusterState

  datatype Peer = Peer(matched: nat, group: nat, recentActive: bool, replicating: bool, isWitness: bool)

  /** The voters of one half the leader replicates to; at most one voter is left out. */
  datatype ReplicationSet = ReplicationSet(wid: NodeId, excluded: NodeId, members: set<NodeId>)

  const NO_SET := ReplicationSet(INVALID_ID, INVALID_ID, {})

  datatype Epoch = Epoch(subterm: nat, sets: seq<ReplicationSet>, contacted: seq<nat>, pending: seq<nat>)

  /** The voters of a half, with its witness whether or not it is listed among them. */
  function All(voters: set<NodeId>, wid: NodeId): set<NodeId> {
    if wid == INVALID_ID then voters else voters + {wid}
  }

  /** The replication-set invariant of one half: set and excluded node together are the voters, the
      excluded node is not in the set, and it is never the leader. Without a witness nobody is excluded. */
  ghost predicate SetOk(voters: set<NodeId>, wid: NodeId, leader: NodeId, r: ReplicationSet) {
    && r.wid == wid && (wid == INVALID_ID ==> r.excluded == INVALID_ID)
    && (if r.excluded == INVALID_ID then r.members == All(voters, wid)
        else r.members + {r.excluded} == All(voters, wid) && r.excluded !in r.members && r.excluded != leader)
  }

  /** The leader is inside its own replication set. */
  lemma LeaderInSet(voters: set<NodeId>, wid: NodeId, leader: NodeId, r: ReplicationSet)
    requires SetOk(voters, wid, leader, r) && leader in voters
    ensures leader in r.members
  {
    assert leader in All(voters, wid);
  }

  // ---- Adjusting a replication set ---------------------------------------------------------------------------

  /** `id` may be swapped out: unreachable, and not the leader. */
  predicate Inactive(progress: map<NodeId, Peer>, leader: NodeId, id: NodeId) {
    id in progress && !progress[id].recentActive && id != leader
  }

  ghost predicate HasInactive(progress: map<NodeId, Peer>, leader: NodeId, ids: set<NodeId>) {
    exists id {:trigger Inactive(progress, leader, id)} :: id in ids && Inactive(progress, leader, id)
  }

  /** The excluded node may come back. */
  predicate Ready(progress: map<NodeId, Peer>, r: ReplicationSet) {
    && r.excluded != INVALID_ID && r.excluded in progress && progress[r.excluded].recentActive
    && (r.excluded == r.wid || progress[r.excluded].replicating)
  }

  ghost predicate Recovers(progress: map<NodeId, Peer>, leader: NodeId, r: ReplicationSet) {
    Ready(progress, r) && (HasInactive(progress, leader, r.members + {r.wid}) || r.excluded != r.wid)
  }

  ghost predicate Degrades(progress: map<NodeId, Peer>, leader: NodeId, r: ReplicationSet) {
    r.wid != INVALID_ID && r.wid !in r.members && HasInactive(progress, leader, r.members)
  }

  /** One node in, one node out: an unreachable one, or the witness. */
  ghost predicate Swapped(progress: map<NodeId, Peer>, leader: NodeId, r: ReplicationSet, r': ReplicationSet) {
    && r'.wid == r.wid && r'.excluded != r.excluded
    && r'.members == r.members + {if r.excluded == INVALID_ID then r.wid else r.excluded} - {r'.excluded}
    && (Inactive(progress, leader, r'.excluded) || r'.excluded == r.wid)
  }

  /** A swap keeps the invariant. */
  lemma SwapKeeps(progress: map<NodeId, Peer>, voters: set<NodeId>, wid: NodeId, leader: NodeId,
                  r: ReplicationSet, r': ReplicationSet)
    requires SetOk(voters, wid, leader, r) && Swapped(progress, leader, r, r')
    requires leader != wid && r'.excluded in r.members && r.excluded != INVALID_ID && r'.excluded != INVALID_ID
    ensures SetOk(voters, wid, leader, r')
  {
  }

  /** The first unreachable node among `ids`, in whatever order the map is visited. */
  method FindInactive(progress: map<NodeId, Peer>, leader: NodeId, ids: set<NodeId>) returns (id: Option<NodeId>)
    ensures id.None? <==> !HasInactive(progress, leader, ids)
    ensures id.Some? ==> id.value in ids && Inactive(progress, leader, id.value)
  {
    var rest := progress.Keys;
    while rest != {}
      invariant rest <= progress.Keys
      invariant forall x {:trigger Inactive(progress, leader, x)} | x in ids && Inactive(progress, leader, x) :: x in rest
      decreases rest
    {
      var x :| x in rest;
      if !progress[x].recentActive && x != leader && x in ids {
        assert Inactive(progress, leader, x);
        return Some(x);
      }
      rest := rest - {x};
    }
    return None;
  }

  /** What `change_replication_set` does with one half. */
  method AdjustHalf(progress: map<NodeId, Peer>, leader: NodeId, r: ReplicationSet) returns (r': Option<ReplicationSet>)
    ensures r'.Some? <==> Recovers(progress, leader, r) || Degrades(progress, leader, r)
    ensures Recovers(progress, leader, r) ==>
              && r'.value.wid == r.wid && r'.value.members == r.members - {r'.value.excluded} + {r.excluded}
              && (if HasInactive(progress, leader, r.members + {r.wid})
                  then Inactive(progress, leader, r'.value.excluded) && r'.value.excluded in r.members + {r.wid}
                  else r'.value.excluded == r.wid)
    ensures !Recovers(progress, leader, r) && Degrades(progress, leader, r) ==>
              && r'.value.wid == r.wid && r'.value.members == r.members - {r'.value.excluded} + {r.wid}
              && Inactive(progress, leader, r'.value.excluded) && r'.value.excluded in r.members
    ensures r'.Some? && (r.excluded != INVALID_ID && r.excluded !in r.members) && (r.wid in r.members + {r.excluded}) ==>
              && Swapped(progress, leader, r, r'.value) && r'.value.excluded in r.members
              && (r'.value.excluded == r.wid || Inactive(progress, leader, r'.value.excluded))
  {
    if r.excluded != INVALID_ID && r.excluded in progress {
      var ready := progress[r.excluded].recentActive
                   && (r.excluded == r.wid || progress[r.excluded].replicating);
      if ready {
        var inactive := FindInactive(progress, leader, r.members + {r.wid});
        if inactive.Some? || r.excluded != r.wid {
          var out := if inactive.Some? then inactive.value else r.wid;
          return Some(ReplicationSet(r.wid, out, r.members - {out} + {r.excluded}));
        }
      }
    }
    if r.wid != INVALID_ID && r.wid !in r.members {
      var inactive := FindInactive(progress, leader, r.members);
      if inactive.Some? {
        return Some(ReplicationSet(r.wid, inactive.value, r.members - {inactive.value} + {r.wid}));
      }
    }
    return None;
  }

  /** Who counts as active: the asker, witnesses, and peers heard from since the last check. */
  function ActiveIn(progress: map<NodeId, Peer>, self: NodeId): set<NodeId> {
    set v | v in progress && (v == self || progress[v].isWitness || progress[v].recentActive)
  }

  /** A peer after the check: only the asker and witnesses stay marked. */
  function Unmarked(progress: map<NodeId, Peer>, self: NodeId, v: NodeId): Peer
    requires v in progress
  {
    progress[v].(recentActive := v == self || progress[v].isWitness)
  }

  class ProgressTracker {
    var progress: map<NodeId, Peer>
    var incoming: set<NodeId>
    var outgoing: set<NodeId>
    var witnesses: seq<NodeId>
    var votes: map<NodeId, bool>
    var groupCommit: bool
    var epoch: Epoch

    ghost predicate Shaped()
      reads this
    {
      |witnesses| == 2 && |epoch.sets| == 2 && |epoch.contacted| == 2 && |epoch.pending| == 2
    }

    /** The voters of half `i`. */
    function Half(i: nat): set<NodeId>
      reads this
    {
      if i == 0 then incoming else outgoing
    }

    constructor ()
      ensures Shaped() && progress == map[] && incoming == {} && outgoing == {} && votes == map[] && epoch.subterm == 0
    {
      progress, incoming, outgoing, witnesses, votes, groupCommit := map[], {}, {}, [INVALID_ID, INVALID_ID], map[], false;
      epoch := Epoch(0, [NO_SET, NO_SET], [0, 0], [0, 0]);
    }

    /** The first vote of a voter counts. */
    method RecordVote(id: NodeId, vote: bool)
      modifies this`votes
      ensures votes == if id in old(votes) then old(votes) else old(votes)[id := vote]
    {
      if id !in votes {
        votes := votes[id := vote];
      }
    }

    /** What the peers have acknowledged. */
    function Acked(scope: set<NodeId>): Acks
      reads this
    {
      map v | v in progress && v in scope :: Index(progress[v].matched, progress[v].group)
    }

    method MaximalCommittedIndex() returns (index: nat, byGroups: bool)
      requires forall v | v in progress :: progress[v].matched <= NO_LIMIT
      ensures incoming != {} && !groupCommit ==> IsJointCommit(incoming, outgoing, Acked(progress.Keys), index)
      ensures incoming != {} && groupCommit ==> IsJointGroupCommit(incoming, outgoing, Acked(progress.Keys), index, byGroups)
    {
      index, byGroups := JointCommittedIndex(incoming, outgoing, groupCommit, Acked(progress.Keys));
    }

    /** Whether the votes recorded so far decide the election. */
    method TallyVotes() returns (granted: nat, rejected: nat, r: VoteResult)
      ensures granted == |Granted(incoming + outgoing, votes)|
      ensures rejected == |Rejected(incoming + outgoing, votes)|
      ensures r == Won <==> IsQuorum(incoming, outgoing, Granted(incoming + outgoing, votes))
      ensures r == Lost <==> !CanWin(incoming, outgoing, votes)
    {
      hide CanWin, IsQuorum;
      granted, rejected := 0, 0;
      ghost var voters, seen := incoming + outgoing, {};
      var rest := votes.Keys;
      while rest != {}
        invariant rest !! seen && rest + seen == votes.Keys
        invariant granted == |Granted(voters * seen, votes)| && rejected == |Rejected(voters * seen, votes)|
        decreases rest
      {
        var v :| v in rest;
        if v in incoming || v in outgoing {
          assert voters * (seen + {v}) == voters * seen + {v};
          CountOne(voters * seen, v, votes);
          if votes[v] {
            granted := granted + 1;
          } else {
            rejected := rejected + 1;
          }
        } else {
          assert voters * (seen + {v}) == voters * seen;
        }
        seen, rest := seen + {v}, rest - {v};
      }
      assert Granted(voters * seen, votes) == Granted(voters, votes) && Rejected(voters * seen, votes) == Rejected(voters, votes);
      var result, _, _ := JointVoteResult(incoming, outgoing, votes);
      r := result;
    }

    /** Recently active peers, the asker and witnesses form a quorum; the marks are cleared. */
    method QuorumRecentlyActive(self: NodeId) returns (r: bool)
      modifies this`progress
      ensures progress.Keys == old(progress.Keys)
      ensures r <==> IsQuorum(incoming, outgoing, ActiveIn(old(progress), self))
      ensures forall v | v in progress :: progress[v] == Unmarked(old(progress), self, v)
    {
      ghost var was := progress;
      var active, rest := {}, progress.Keys;
      while rest != {}
        invariant rest <= progress.Keys == was.Keys
        invariant active == ActiveIn(was, self) - rest
        invariant forall v | v in progress :: progress[v] == if v in rest then was[v] else Unmarked(was, self, v)
        decreases rest
      {
        var v :| v in rest;
        if v == self || progress[v].isWitness {
          progress := progress[v := progress[v].(recentActive := true)];
          active := active + {v};
        } else if progress[v].recentActive {
          active := active + {v};
          progress := progress[v := progress[v].(recentActive := false)];
        }
        rest := rest - {v};
      }
      assert active == ActiveIn(was, self);
      r := HasQuorum(incoming, outgoing, active);
    }

    // ---- Replication sets --------------------------------------------------------------------------------------

    /** A new leader starts, or a configuration change restarts, with every regular voter; the witness
        is left out as long as there are two regular voters to replicate to. */
    method ResetReplicationSet(resetSubterm: bool)
      requires Shaped()
      modifies this`epoch
      ensures Shaped() && epoch.subterm == (if resetSubterm then 0 else old(epoch.subterm) + 1)
      ensures epoch.contacted == [0, 0] && epoch.pending == [0, 0]
      ensures forall i | 0 <= i < 2 :: ResetSet(Half(i), witnesses[i], epoch.sets[i])
      ensures forall i, leader {:trigger SetOk(Half(i), witnesses[i], leader, epoch.sets[i])}
                | 0 <= i < 2 && leader != witnesses[i] && INVALID_ID !in Half(i) :: SetOk(Half(i), witnesses[i], leader, epoch.sets[i])
    {
      var r0 := ResetHalf(incoming, witnesses[0]);
      var r1 := ResetHalf(outgoing, witnesses[1]);
      epoch := Epoch(if resetSubterm then 0 else epoch.subterm + 1, [r0, r1], [0, 0], [0, 0]);
    }

    /** Adjusts the sets to who is reachable. Every half that needs it is swapped, a half that does
        not is left empty, and a new subterm begins. */
    method ChangeReplicationSet(leader: NodeId) returns (changed: bool)
      requires Shaped()
      modifies this`epoch
      ensures Shaped()
      ensures changed <==> exists i :: 0 <= i < 2 && Adjusts(old(progress), leader, old(epoch.sets[i]))
      ensures !changed ==> epoch == old(epoch)
      ensures changed ==> epoch.subterm == old(epoch.subterm) + 1 && epoch.contacted == [0, 0] && epoch.pending == [0, 0]
      ensures changed ==>
                forall i | 0 <= i < 2 ::
                  if Adjusts(progress, leader, old(epoch.sets[i])) then
                    Proper(old(epoch.sets[i])) ==>
                      Swapped(progress, leader, old(epoch.sets[i]), epoch.sets[i])
                      && epoch.sets[i].excluded in old(epoch.sets[i]).members
                  else epoch.sets[i] == NO_SET
      ensures forall i | 0 <= i < 2 && leader != witnesses[i] && INVALID_ID !in Half(i)
                         && SetOk(Half(i), witnesses[i], leader, old(epoch.sets[i]))
                         && (changed ==> Adjusts(progress, leader, old(epoch.sets[i]))) ::
                SetOk(Half(i), witnesses[i], leader, epoch.sets[i])
    {
      var n0 := AdjustHalf(progress, leader, epoch.sets[0]);
      var n1 := AdjustHalf(progress, leader, epoch.sets[1]);
      changed := n0.Some? || n1.Some?;
      if n0.Some? { AdjustedOk(progress, incoming, witnesses[0], leader, epoch.sets[0], n0.value); }
      if n1.Some? { AdjustedOk(progress, outgoing, witnesses[1], leader, epoch.sets[1], n1.value); }
      assert n0.Some? ==> Adjusts(progress, leader, epoch.sets[0]);
      assert n1.Some? ==> Adjusts(progress, leader, epoch.sets[1]);
      if changed {
        epoch := Epoch(epoch.subterm + 1,
                       [if n0.Some? then n0.value else NO_SET, if n1.Some? then n1.value else NO_SET], [0, 0], [0, 0]);
      }
    }

    /** The index one voter less than a quorum has acknowledged inside the incoming replication set. */
    method ShortcutIndex() returns (index: Option<nat>)
      requires Shaped()
      ensures index.Some? <==> epoch.sets[0].wid != INVALID_ID && epoch.sets[0].excluded != epoch.sets[0].wid
      ensures index.Some? && |incoming| >= 3 ==>
                IsLargestReached(incoming, Acked(epoch.sets[0].members), Majority(|incoming|) - 1, index.value)
    {
      var r := epoch.sets[0];
      if r.wid == INVALID_ID || r.excluded == r.wid {
        return None;
      }
      var k := OneLessThanQuorum(incoming, Acked(r.members));
      return Some(k);
    }
  }

  /** Who voted against. */
  function Rejected(voters: set<NodeId>, votes: map<NodeId, bool>): set<NodeId> {
    set v | v in voters && v in votes && !votes[v]
  }

  lemma CountOne(seen: set<NodeId>, v: NodeId, votes: map<NodeId, bool>)
    requires v !in seen && v in votes
    ensures |Granted(seen + {v}, votes)| == |Granted(seen, votes)| + if votes[v] then 1 else 0
    ensures |Rejected(seen + {v}, votes)| == |Rejected(seen, votes)| + if votes[v] then 0 else 1
  {
    assert Granted(seen + {v}, votes) == Granted(seen, votes) + if votes[v] then {v} else {};
    assert Rejected(seen + {v}, votes) == Rejected(seen, votes) + if votes[v] then {} else {v};
  }

  /** A half that satisfies the invariant and needs an adjustment leaves a voter out, and satisfies it again. */
  lemma AdjustedOk(progress: map<NodeId, Peer>, voters: set<NodeId>, wid: NodeId, leader: NodeId, r: ReplicationSet, r': ReplicationSet)
    requires Adjusts(progress, leader, r)
    requires Proper(r) ==> Swapped(progress, leader, r, r') && r'.excluded in r.members
    ensures SetOk(voters, wid, leader, r) ==> Proper(r)
    ensures SetOk(voters, wid, leader, r) && leader != wid && INVALID_ID !in voters ==> SetOk(voters, wid, leader, r')
  {
    if SetOk(voters, wid, leader, r) {
      assert r.excluded == INVALID_ID ==> r.members == All(voters, wid);
      if leader != wid && INVALID_ID !in voters {
        SwapKeeps(progress, voters, wid, leader, r, r');
      }
    }
  }

  /** A set that leaves one voter out and accounts for its witness. */
  predicate Proper(r: ReplicationSet) {
    r.excluded != INVALID_ID && r.excluded !in r.members && r.wid in r.members + {r.excluded}
  }

  ghost predicate Adjusts(progress: map<NodeId, Peer>, leader: NodeId, r: ReplicationSet) {
    Recovers(progress, leader, r) || Degrades(progress, leader, r)
  }

  predicate ResetSet(voters: set<NodeId>, wid: NodeId, r: ReplicationSet) {
    var regular := voters - {wid};
    if wid == INVALID_ID then r == ReplicationSet(wid, INVALID_ID, regular)
    else if |regular| >= 2 then r == ReplicationSet(wid, wid, regular)
    else r == ReplicationSet(wid, INVALID_ID, regular + {wid})
  }

  lemma ResetKeeps(voters: set<NodeId>, wid: NodeId, leader: NodeId, r: ReplicationSet)
    requires INVALID_ID !in voters && ResetSet(voters, wid, r) && leader != wid
    ensures SetOk(voters, wid, leader, r)
  {
  }

  method Regular(voters: set<NodeId>, wid: NodeId) returns (regular: set<NodeId>)
    ensures regular == voters - {wid}
  {
    var rest := voters;
    regular := {};
    while rest != {}
      invariant rest <= voters && regular == (voters - rest) - {wid}
      decreases rest
    {
      var v :| v in rest;
      if v != wid {
        regular := regular + {v};
      }
      rest := rest - {v};
    }
  }

  method ResetHalf(voters: set<NodeId>, wid: NodeId) returns (r: ReplicationSet)
    ensures ResetSet(voters, wid, r)
  {
    var regular := Regular(voters, wid);
    if wid == INVALID_ID {
      r := ReplicationSet(INVALID_ID, INVALID_ID, regular);
    } else if |regular| >= 2 {
      r := ReplicationSet(wid, wid, regular);
    } else {
      r := ReplicationSet(wid, INVALID_ID, regular + {wid});
    }
  }

  // ---- What the cluster proof relies on -------------------------------------------------------------------------

  /** The leader `v` of a cluster with one witness and its tracker's incoming set. */
  ghost predicate Represents(cfg: C.Config, v: NodeId, n: C.Node, r: ReplicationSet) {
    && C.HasWitness(cfg) && r.wid == cfg.wid && r.excluded == n.epoch.excluded != INVALID_ID
    && SetOk(cfg.incoming, cfg.wid, v, r)
  }

  /** Resetting on election gives the epoch the new leader starts with. */
  lemma ResetRepresents(cfg: C.Config, v: NodeId, n: C.Node, r: ReplicationSet)
    requires C.ValidConfig(cfg) && C.HasWitness(cfg) && v != cfg.wid && INVALID_ID !in cfg.incoming
    requires ResetSet(cfg.incoming, cfg.wid, r)
    ensures Represents(cfg, v, C.BecomeLeader(cfg, n, v), r)
    ensures r.members == C.ReplicationSet(cfg, C.BecomeLeader(cfg, n, v))
  {
    assert |cfg.incoming - {cfg.wid}| == |cfg.incoming| - 1;
  }

  /** An adjustment is exactly a new subterm of the cluster model, which it enables. */
  lemma ChangeIsNewSubterm(cfg: C.Config, s: C.Cluster, v: NodeId, progress: map<NodeId, Peer>, r: ReplicationSet, r': ReplicationSet)
    requires C.ValidConfig(cfg) && C.IsRole(s, v, C.Leader) && v != cfg.wid
    requires Represents(cfg, v, s.nodes[v], r) && Swapped(progress, v, r, r')
    requires r'.excluded in r.members && r'.excluded != INVALID_ID
    ensures C.Enabled(cfg, s, C.NewSubterm(v, r'.excluded))
    ensures var n' := C.Apply(cfg, s, C.NewSubterm(v, r'.excluded)).nodes[v];
            Represents(cfg, v, n', r') && r'.members == C.ReplicationSet(cfg, n')
  {
    SwapKeeps(progress, cfg.incoming, cfg.wid, v, r, r');
  }

  /** The joint commit index the tracker computes is the one the cluster's commit rule uses. */
  lemma CommitIndexIs(cfg: C.Config, acks: Acks, matched: map<NodeId, nat>, k: nat)
    requires forall v | v in cfg.incoming + cfg.outgoing :: AckOf(acks, v).index == C.MatchOf(matched, v)
    ensures IsJointCommit(cfg.incoming, cfg.outgoing, acks, k) <==> C.IsCommitIndex(cfg, matched, k)
  {
    var all := cfg.incoming + cfg.outgoing;
    assert forall j: nat :: Reached(all, acks, j) == C.AckedBy(all, matched, j);
  }

  /** The scoped index is the shortcut index of the cluster's commit rule. */
  lemma ShortcutIndexIs(cfg: C.Config, n: C.Node, scoped: Acks, k: nat)
    requires C.ValidConfig(cfg) && C.HasWitness(cfg) && n.epoch.excluded in cfg.incoming
    requires forall v | v in cfg.incoming ::
               AckOf(scoped, v).index == if v == n.epoch.excluded then 0 else C.MatchOf(n.matched, v)
    requires IsLargestReached(cfg.incoming, scoped, Majority(|cfg.incoming|) - 1, k)
    ensures C.IsShortcutIndex(cfg, n, k)
  {
    var r := C.ReplicationSet(cfg, n);
    forall j: nat | j >= 1 ensures Reached(cfg.incoming, scoped, j) == C.AckedBy(r, n.matched, j) {}
    if k == 0 {
      assert C.AckedBy(r, n.matched, 0) == r;
      assert |r| == |cfg.incoming| - 1;
    }
  }
}
