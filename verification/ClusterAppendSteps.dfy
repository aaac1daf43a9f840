/** A leader adding an entry to its own log keeps the invariant. */
module ClusterAppendSteps {
  import opened Quorum
  import opened RaftLogs
  import opened ClusterState
  import opened ClusterInv
  import opened ClusterGrowth
  import opened ClusterQuietSteps
  import opened ClusterAckSteps
  import opened ClusterElectStep

  /** The leader of `n.term` adds `e` to its log. */
  predicate Extends(s: Cluster, v: NodeId, n: Node, n': Node, e: Entry, h': History) {
    && IsRole(s, v, Leader) && n == s.nodes[v]
    && n' == n.(log := n.log + [e], epoch := n'.epoch)
    && e.term == n.term && e.subterm == n'.epoch.subterm && n.epoch.subterm <= e.subterm
    && h' == s.h.(logs := s.h.logs[n.term := n'.log])
  }

  lemma ExtendsGrows(cfg: Config, s: Cluster, v: NodeId, n: Node, n': Node, e: Entry, h': History)
    requires Inv(cfg, s) && Extends(s, v, n, n', e, h')
    ensures Grows(s.h, h') && OnlyBy(s.h, h', v) && Keeps(n, n')
    ensures n.term in s.h.logs && s.h.logs[n.term] == n.log && n.term in s.h.elect
  {
    hide Inv;
    OfNode(cfg, s, v);
  }

  lemma ExtendedLog(cfg: Config, s: Cluster, v: NodeId, n: Node, n': Node, e: Entry, h': History)
    requires Inv(cfg, s) && Extends(s, v, n, n', e, h')
    ensures n.term in h'.elect && TermLogOk(h', n.term)
  {
    hide Inv;
    OfHistory(cfg, s);
    ExtendsGrows(cfg, s, v, n, n', e, h');
    OfNode(cfg, s, v);
    assert TermLogOk(s.h, n.term);
    var own := s.h.elect[n.term].log;
    ValidStays(s.h, h', own);
    hide LogsOk, ReplicaOk;
    assert |own| <= |n.log| - 1;
    forall i | |own| <= i < |n'.log| ensures n'.log[i].subterm <= e.subterm {
      assert i < |n.log| ==> n.log[i].subterm <= n.log[|n.log| - 1].subterm;
    }
    assert forall i, j | |own| <= i <= j < |n'.log| :: n'.log[i].subterm <= n'.log[j].subterm;
  }

  lemma ExtendedLogs(cfg: Config, s: Cluster, v: NodeId, n: Node, n': Node, e: Entry, h': History)
    requires LogsOk(cfg, s.h) && Extends(s, v, n, n', e, h') && Grows(s.h, h')
    requires n.term in h'.elect && TermLogOk(h', n.term)
    ensures LogsOk(cfg, h')
  {
    hide TermLogOk, ElectionOk;
    forall t | t in s.h.elect ensures TermLogOk(h', t) && ElectionOk(cfg, h', t) {
      if t != n.term { OldTermStays(cfg, s.h, h', t); } else { SameElection(cfg, s.h, h', t); }
    }
    forall t, u | t in h'.elect && u in h'.elect ensures Ordered(h', t, u) {
      assert Ordered(s.h, t, u);
    }
  }

  lemma SameElection(cfg: Config, h: History, h': History, t: nat)
    requires Grows(h, h') && LogsOk(cfg, h) && t in h.elect
    ensures ElectionOk(cfg, h', t)
  {
    assert ElectionOk(cfg, h, t);
    assert h'.elect[t] == h.elect[t];
    assert h'.camp[(t, h.elect[t].leader)] == h.camp[(t, h.elect[t].leader)];
  }

  /** No later leader started with an entry that is only now added. */
  lemma NewEntryLacked(cfg: Config, s: Cluster, v: NodeId, n: Node, n': Node, e: Entry, h': History, u: nat)
    requires Inv(cfg, s) && Extends(s, v, n, n', e, h') && u in s.h.elect
    ensures Lacks(h', u, n.term, |n'.log|)
  {
    hide Inv;
    OfHistory(cfg, s);
    OfNode(cfg, s, v);
    assert TermLogOk(s.h, u);
    var l := s.h.elect[u].log;
    assert n'.log[..|n'.log|] == n'.log;
    assert |n.log| < |l| ==> EntryOk(s.h, l, |n.log|);
    assert |n.log| < |l| ==> l[|n.log|] != e;
  }

  /** An acknowledgment that already reached the new entry is one past the end of the log. */
  lemma ExtendedAck(cfg: Config, s: Cluster, v: NodeId, n: Node, n': Node, e: Entry, h': History, a: Ack) returns (u: nat)
    requires Inv(cfg, s) && Extends(s, v, n, n', e, h')
    requires a in s.h.acks && a.term == n.term && a.index > |n.log|
    ensures IsFirstLater(s.h, n.term, u) && a.node !in s.h.elect[u].voters
    ensures a.node in s.nodes && a.index <= s.nodes[a.node].durable
    ensures Lacks(h', u, n.term, |n'.log|) && Superseded(h', n.term, |n'.log|)
  {
    hide Inv;
    OfNode(cfg, s, v);
    OfAck(cfg, s, a);
    u :| IsFirstLater(s.h, a.term, u) && a.node !in s.h.elect[u].voters;
    NewEntryLacked(cfg, s, v, n, n', e, h', u);
  }

  lemma ExtendedAcks(cfg: Config, s: Cluster, v: NodeId, n: Node, n': Node, e: Entry, h': History, a: Ack)
    requires Inv(cfg, s) && Extends(s, v, n, n', e, h') && a in s.h.acks
    ensures AckOk(h', s.nodes[v := n'], a)
  {
    hide Inv;
    var nodes' := s.nodes[v := n'];
    ExtendsGrows(cfg, s, v, n, n', e, h');
    SelfKeeps(cfg, s, v);
    OfAck(cfg, s, a);
    SelfKeeps(cfg, s, a.node);
    if a.term != n.term {
      AckStays(s.h, h', s.nodes, nodes', a);
    } else {
      if a.index > |n.log| { var u := ExtendedAck(cfg, s, v, n, n', e, h', a); }
      forall k | 1 <= k <= a.index && k <= |h'.logs[a.term]| ensures Kept(h', nodes'[a.node], a.term, k) {
        if k <= |n.log| {
          assert Kept(s.h, s.nodes[a.node], a.term, k);
          KeptStays(s.h, h', s.nodes[a.node], nodes'[a.node], a.term, k);
        }
      }
      if a.index > |h'.logs[a.term]| { BeyondStays(s.h, h', a); }
    }
  }

  lemma ExtendedVoteCovers(cfg: Config, s: Cluster, v: NodeId, n: Node, n': Node, e: Entry, h': History, b: Vote, a: Ack)
    requires Inv(cfg, s) && Extends(s, v, n, n', e, h') && b in s.h.votes && a in s.h.acks
    ensures VoteCovers(h', b, a)
  {
    hide Inv;
    OfHistory(cfg, s);
    ExtendsGrows(cfg, s, v, n, n', e, h');
    OfVote(cfg, s, b);
    assert VoteCovers(s.h, b, a);
    if a.term != n.term {
      VoteCoversStays(s.h, h', b, a);
    } else if b.term !in h'.elect && a.node == b.voter && a.term < b.term {
      forall k: nat | OwnEntry(h', a, k)
        ensures h'.logs[a.term][..k] <= h'.camp[(b.term, b.cand)] || Superseded(h', a.term, k)
      {
        if k <= |n.log| {
          assert OwnEntry(s.h, a, k);
          PrefixStays(s.h, h', a.term, k);
          if Superseded(s.h, a.term, k) { SupersededStays(s.h, h', a.term, k); }
        } else {
          var u := ExtendedAck(cfg, s, v, n, n', e, h', a);
        }
      }
    }
  }

  lemma ExtendedElectionCovers(cfg: Config, s: Cluster, v: NodeId, n: Node, n': Node, e: Entry, h': History, t: nat, a: Ack)
    requires Inv(cfg, s) && Extends(s, v, n, n', e, h') && t in s.h.elect && a in s.h.acks
    ensures ElectionCovers(h', t, a)
  {
    hide Inv;
    OfHistory(cfg, s);
    ExtendsGrows(cfg, s, v, n, n', e, h');
    assert ElectionCovers(s.h, t, a);
    if a.term != n.term {
      ElectionCoversStays(s.h, h', t, a);
    } else if a.node in h'.elect[t].voters && a.term < t {
      forall k: nat | OwnEntry(h', a, k)
        ensures h'.logs[a.term][..k] <= h'.elect[t].log || SupersededBefore(h', t, a.term, k)
      {
        if k <= |n.log| {
          assert OwnEntry(s.h, a, k);
          PrefixStays(s.h, h', a.term, k);
          if SupersededBefore(s.h, t, a.term, k) { SupersededBeforeStays(s.h, h', t, a.term, k); }
        } else {
          var u := ExtendedAck(cfg, s, v, n, n', e, h', a);
          assert Ordered(s.h, t, u);
        }
      }
    }
  }

  lemma ExtendedReplica(cfg: Config, s: Cluster, v: NodeId, n: Node, n': Node, e: Entry, h': History)
    requires Inv(cfg, s) && Extends(s, v, n, n', e, h')
    ensures ReplicaOk(h', n')
  {
    hide Inv;
    ExtendsGrows(cfg, s, v, n, n', e, h');
    OfNode(cfg, s, v);
    ValidStays(s.h, h', n.log);
    forall i | 0 <= i < |n'.log| ensures EntryOk(h', n'.log, i) {
      if i < |n.log| {
        assert EntryOk(h', n.log, i);
        assert n'.log[..i + 1] == n.log[..i + 1];
      }
    }
    assert n'.log[..n.committed] == n.log[..n.committed];
    CommittedStays(s.h, h', n.log, n.committed);
    CommittedSame(h', n.log, n'.log, n.committed);
  }

  lemma ExtendedNode(cfg: Config, s: Cluster, v: NodeId, n: Node, n': Node, e: Entry, h': History)
    requires Inv(cfg, s) && Extends(s, v, n, n', e, h') && EpochOk(cfg, h', v, n')
    ensures NodeOk(cfg, h', v, n')
  {
    hide Inv;
    OfHistory(cfg, s);
    ExtendedReplica(cfg, s, v, n, n', e, h');
    ExtendsGrows(cfg, s, v, n, n', e, h');
    OfNode(cfg, s, v);
    assert ReadsOk(s.h);
    hide ReplicaOk, EpochOk;
    forall x | x in n'.matched ensures MatchOk(cfg, h', n'.term, x, n'.matched[x]) {
      assert MatchOk(cfg, s.h, n.term, x, n.matched[x]);
      MatchStays(cfg, s.h, h', n.term, x, n.matched[x]);
    }
    QueueCarries(s.h, n, n');
    QueueStays(cfg, s.h, h', n');
  }

  lemma AppendStep(cfg: Config, s: Cluster, v: NodeId, n: Node, n': Node, e: Entry, h': History)
    requires ValidConfig(cfg) && Inv(cfg, s) && Extends(s, v, n, n', e, h') && EpochOk(cfg, h', v, n')
    ensures Inv(cfg, Put(s, v, n', {}, h'))
  {
    var s' := Put(s, v, n', {}, h');
    hide Inv, LogsOk, AckOk, CommitsOk, MsgOk, NodeOk, WitnessOk, GrantsOk, ReadsOk, VoteCovers, ElectionCovers,
      EpochOk, TermLogOk;
    OfHistory(cfg, s);
    ExtendsGrows(cfg, s, v, n, n', e, h');
    ExtendedLog(cfg, s, v, n, n', e, h');
    ExtendedLogs(cfg, s, v, n, n', e, h');
    ExtendedNode(cfg, s, v, n, n', e, h');
    forall a | a in h'.acks ensures AckOk(h', s'.nodes, a) {
      ExtendedAcks(cfg, s, v, n, n', e, h', a);
    }
    forall b, a | b in h'.votes && a in h'.acks ensures VoteCovers(h', b, a) {
      ExtendedVoteCovers(cfg, s, v, n, n', e, h', b, a);
    }
    forall t, a | t in h'.elect && a in h'.acks ensures ElectionCovers(h', t, a) {
      ExtendedElectionCovers(cfg, s, v, n, n', e, h', t, a);
    }
    assert Moves(s, s', v);
    OthersStay(cfg, s, s', v);
    OldStay(cfg, s, s', v);
    CommitsStay(cfg, s.h, h');
    WitnessStays(cfg, s, s');
    GrantsStay(cfg, s, s');
    ReadsStay(s.h, h');
    Assembled(cfg, s');
  }

  lemma StepPropose(cfg: Config, s: Cluster, v: NodeId, data: nat)
    requires ValidConfig(cfg) && Inv(cfg, s) && Enabled(cfg, s, Propose(v, data))
    ensures Inv(cfg, Apply(cfg, s, Propose(v, data)))
  {
    hide Inv;
    var n := s.nodes[v];
    var e := Entry(n.term, n.epoch.subterm, data);
    var n' := n.(log := n.log + [e]);
    var h' := s.h.(logs := s.h.logs[n.term := n'.log]);
    OfNode(cfg, s, v);
    assert EpochOk(cfg, h', v, n');
    AppendStep(cfg, s, v, n, n', e, h');
  }

  lemma StepNewSubterm(cfg: Config, s: Cluster, v: NodeId, excluded: NodeId)
    requires ValidConfig(cfg) && Inv(cfg, s) && Enabled(cfg, s, NewSubterm(v, excluded))
    ensures Inv(cfg, Apply(cfg, s, NewSubterm(v, excluded)))
  {
    hide Inv;
    var n := s.nodes[v];
    var epoch := Epoch(n.epoch.subterm + 1, excluded, 0, 0, W.EMPTY_APPEND);
    var e := Entry(n.term, epoch.subterm, 0);
    var n' := n.(epoch := epoch, log := n.log + [e]);
    var h' := s.h.(logs := s.h.logs[n.term := n'.log]);
    OfNode(cfg, s, v);
    assert EpochOk(cfg, h', v, n');
    AppendStep(cfg, s, v, n, n', e, h');
  }
}
