/** A witness append that is stored and confirmed keeps the invariant. */
module ClusterWitnessStep {
  import opened Quorum
  import opened ClusterState
  import opened ClusterInv
  import opened ClusterGrowth
  import opened ClusterQuietSteps

  /** The leader `n` at `v` has its outstanding append stored by the witness `w'`. */
  predicate Stored(cfg: Config, s: Cluster, v: NodeId, n: Node, n': Node, h': History, w': W.State) {
    && IsRole(s, v, Leader) && HasWitness(cfg) && n == s.nodes[v]
    && n.epoch.pending != 0 && n.epoch.outbox.term >= s.wit.term
    && n' == n.(epoch := n.epoch.(contacted := n.epoch.subterm, pending := 0))
    && h' == s.h.(confirmed := s.h.confirmed[(n.term, n.epoch.subterm) := n.epoch.outbox.replicationSet])
    && w' == W.OnAppend(s.wit, n.epoch.outbox)
  }

  lemma StoredShape(cfg: Config, s: Cluster, v: NodeId, n: Node, n': Node, h': History, w': W.State)
    requires ValidConfig(cfg) && Inv(cfg, s) && Stored(cfg, s, v, n, n', h', w')
    ensures w'.term == n.term >= s.wit.term && (w'.term == s.wit.term ==> w'.vote == s.wit.vote)
    ensures w'.lastTerm == n.term && w'.lastSubterm == n.epoch.subterm && w'.replicationSet == ReplicationSet(cfg, n)
    ensures n.epoch.outbox.replicationSet == ReplicationSet(cfg, n) && SetOk(cfg, ReplicationSet(cfg, n))
    ensures n.term in s.h.elect && n.term in s.h.logs && s.h.elect[n.term].leader == v
    ensures Grows(s.h, h') && OnlyBy(s.h, h', v) && Keeps(n, n')
  {
    hide Inv;
    OfNode(cfg, s, v);
  }

  lemma StoredEpoch(cfg: Config, h: History, h': History, v: NodeId, n: Node, n': Node)
    requires LeaderOk(cfg, h, v, n) && EpochOk(cfg, h, v, n) && n.role == Leader && HasWitness(cfg)
    requires n' == n.(epoch := n.epoch.(contacted := n.epoch.subterm, pending := 0))
    requires h' == h.(confirmed := h.confirmed[(n.term, n.epoch.subterm) := ReplicationSet(cfg, n)])
    ensures EpochOk(cfg, h', v, n')
  {
  }

  lemma StoredNode(cfg: Config, s: Cluster, v: NodeId, n: Node, n': Node, h': History, w': W.State)
    requires ValidConfig(cfg) && Inv(cfg, s) && Stored(cfg, s, v, n, n', h', w')
    ensures NodeOk(cfg, h', v, n')
  {
    hide Inv, W.OnAppend, SetOk, LogsOk, CoversOk, CommitsOk, WitnessOk, GrantsOk, EpochOk, ReplicaOk, QueueOk;
    StoredShape(cfg, s, v, n, n', h', w');
    OfNode(cfg, s, v);
    OfHistory(cfg, s);
    StoredEpoch(cfg, s.h, h', v, n, n');
    SameReplica(s.h, n, n');
    ReplicaStays(s.h, h', n');
    forall x | x in n'.matched ensures MatchOk(cfg, h', n'.term, x, n'.matched[x]) {
      assert MatchOk(cfg, s.h, n.term, x, n.matched[x]);
      MatchStays(cfg, s.h, h', n.term, x, n.matched[x]);
    }
    QueueCarries(s.h, n, n');
    QueueStays(cfg, s.h, h', n');
  }

  lemma SameReplica(h: History, n: Node, n': Node)
    requires ReplicaOk(h, n) && n' == n.(epoch := n'.epoch)
    ensures ReplicaOk(h, n')
  {
  }

  lemma StoredVotes(cfg: Config, s: Cluster, s': Cluster, v: NodeId, n: Node, n': Node)
    requires ValidConfig(cfg) && Inv(cfg, s) && Stored(cfg, s, v, n, n', s'.h, s'.wit)
    requires s'.nodes == s.nodes[v := n']
    ensures forall b {:trigger VoteOk(cfg, s', b)} | b in s'.h.votes :: VoteOk(cfg, s', b)
  {
    StoredShape(cfg, s, v, n, n', s'.h, s'.wit);
    hide Inv, W.OnAppend, SetOk;
    forall b | b in s'.h.votes ensures VoteOk(cfg, s', b) { OfVote(cfg, s, b); }
  }

  lemma StoredWitness(cfg: Config, s: Cluster, s': Cluster, v: NodeId, n: Node, n': Node)
    requires ValidConfig(cfg) && Inv(cfg, s) && Stored(cfg, s, v, n, n', s'.h, s'.wit)
    ensures WitnessOk(cfg, s')
  {
    StoredShape(cfg, s, v, n, n', s'.h, s'.wit);
    hide Inv, W.OnAppend, SetOk, LogsOk, CoversOk, CommitsOk, ReadsOk, GrantsOk;
    OfHistory(cfg, s);
    OfNode(cfg, s, v);
    hide ReplicaOk, LeaderOk, QueueOk, CandidateOk;
    forall t, sub | (t, sub) in s'.h.confirmed ensures ConfirmedOk(cfg, s', t, sub) {
      if (t, sub) in s.h.confirmed { assert ConfirmedOk(cfg, s, t, sub); }
    }
  }

  lemma StoredGrants(cfg: Config, s: Cluster, s': Cluster, v: NodeId, n: Node, n': Node)
    requires ValidConfig(cfg) && Inv(cfg, s) && Stored(cfg, s, v, n, n', s'.h, s'.wit) && s'.msgs == s.msgs
    ensures GrantsOk(cfg, s')
  {
    StoredShape(cfg, s, v, n, n', s'.h, s'.wit);
    hide Inv, W.OnAppend, SetOk, LogsOk, CoversOk, CommitsOk, ReadsOk, WitnessOk;
    OfHistory(cfg, s);
    forall g | g in s'.h.grants ensures GrantOk(cfg, s'.h, g) && g.term <= s'.wit.term && PollOf(g) in s'.msgs {
      assert GrantOk(cfg, s.h, g);
      forall t, sub | (t, sub) in s'.h.confirmed && t < g.term
        ensures ConfirmedBehind(s'.h, t, sub, g.heldTerm, g.heldSubterm, g.heldSet)
      {
        assert ConfirmedBehind(s.h, t, sub, g.heldTerm, g.heldSubterm, g.heldSet);
      }
    }
    forall b | b in s'.h.votes && b.voter == cfg.wid ensures HasGrant(s'.h, b) { assert HasGrant(s.h, b); }
    forall t | t in s'.h.elect && cfg.wid in s'.h.elect[t].voters ensures WonByGrant(s'.h, t) { assert WonByGrant(s.h, t); }
  }

  lemma StoreStep(cfg: Config, s: Cluster, s': Cluster, v: NodeId, n: Node, n': Node)
    requires ValidConfig(cfg) && Inv(cfg, s) && Stored(cfg, s, v, n, n', s'.h, s'.wit)
    requires s'.nodes == s.nodes[v := n'] && s'.msgs == s.msgs
    ensures Inv(cfg, s')
  {
    var h' := s'.h;
    var s1 := Put(s, v, n', {}, h');
    hide Inv, W.OnAppend, SetOk, LogsOk, CoversOk, CommitsOk, ReadsOk, WitnessOk, GrantsOk, NodeOk, MsgOk, AckOk,
      VoteOk, CampOk;
    OfHistory(cfg, s);
    StoredShape(cfg, s, v, n, n', h', s'.wit);
    StoredNode(cfg, s, v, n, n', h', s'.wit);
    StoredVotes(cfg, s, s', v, n, n');
    StoredWitness(cfg, s, s', v, n, n');
    StoredGrants(cfg, s, s', v, n, n');
    assert Moves(s, s1, v);
    hide Moves;
    OthersStay(cfg, s, s1, v);
    OldStay(cfg, s, s1, v);
    LogsStay(cfg, s.h, h');
    CommitsStay(cfg, s.h, h');
    ReadsStay(s.h, h');
    AcksStay(cfg, s, s1, v);
    StoredCovers(cfg, s, h');
    assert s1.msgs == s'.msgs && s1.nodes == s'.nodes;
    Assembled(cfg, s');
  }

  lemma StoredCovers(cfg: Config, s: Cluster, h': History)
    requires Inv(cfg, s) && Grows(s.h, h') && h' == s.h.(confirmed := h'.confirmed)
    ensures CoversOk(h')
  {
    hide Inv, VoteCovers, ElectionCovers;
    CoversStay(cfg, s, h');
  }

  lemma StepWitnessWrite(cfg: Config, s: Cluster, v: NodeId)
    requires ValidConfig(cfg) && Inv(cfg, s) && Enabled(cfg, s, WitnessWrite(v))
    ensures Inv(cfg, Apply(cfg, s, WitnessWrite(v)))
  {
    hide Inv;
    var n := s.nodes[v];
    if n.epoch.outbox.term < s.wit.term {
      DropOutbox(cfg, s, v, {AppendResp(cfg.wid, v, s.wit.term, 0, true)});
    } else {
      StoreStep(cfg, s, Apply(cfg, s, WitnessWrite(v)), v, n,
                n.(epoch := n.epoch.(contacted := n.epoch.subterm, pending := 0)));
    }
  }
}
