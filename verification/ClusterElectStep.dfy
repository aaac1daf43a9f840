/** Winning an election keeps the invariant. */
module ClusterElectStep {
  import opened Quorum
  import opened RaftLogs
  import opened ClusterState
  import opened ClusterInv
  import opened ClusterGrowth
  import opened ClusterQuietSteps
  import opened ClusterAckSteps

  /** One vote per voter and term, and quorums meet: one winner per term. */
  lemma OneWinner(cfg: Config, h: History, t: nat, c: NodeId, a: set<NodeId>, d: NodeId, b: set<NodeId>)
    requires ValidConfig(cfg) && VotesUnique(h)
    requires Quorate(cfg, a) && forall x | x in a :: Vote(x, t, c) in h.votes
    requires Quorate(cfg, b) && forall x | x in b :: Vote(x, t, d) in h.votes
    ensures c == d
  {
    QuorumsIntersect(cfg.incoming, cfg.outgoing, a, b);
    var x :| x in a && x in b;
    assert Vote(x, t, c) in h.votes && Vote(x, t, d) in h.votes;
  }

  /** Nobody has won the term a candidate is about to win. */
  lemma NotYetElected(cfg: Config, s: Cluster, v: NodeId)
    requires ValidConfig(cfg) && Inv(cfg, s) && Enabled(cfg, s, Elect(v))
    ensures s.nodes[v].term !in s.h.elect && s.nodes[v].term !in s.h.logs
  {
    hide Inv;
    OfHistory(cfg, s);
    var n := s.nodes[v];
    OfNode(cfg, s, v);
    if n.term in s.h.elect {
      var e := s.h.elect[n.term];
      assert ElectionOk(cfg, s.h, n.term);
      OneWinner(cfg, s.h, n.term, v, GrantedSet(n.votes), e.leader, e.voters);
    }
  }

  /** The history after the election, and the new leader. */
  ghost predicate Elected(cfg: Config, s: Cluster, v: NodeId, n: Node, l: Node, h': History) {
    && v in s.nodes && n == s.nodes[v] && n.role == Candidate && l == BecomeLeader(cfg, n, v)
    && Quorate(cfg, GrantedSet(n.votes))
    && n.term !in s.h.elect && n.term !in s.h.logs
    && h' == ElectHistory(s.h, v, n, l)
    && Grows(s.h, h')
  }

  lemma ElectedLog(cfg: Config, s: Cluster, v: NodeId, n: Node, l: Node, h': History)
    requires ValidConfig(cfg) && Inv(cfg, s) && Elected(cfg, s, v, n, l, h')
    ensures TermLogOk(h', n.term)
  {
    hide Inv, CoversOk, CommitsOk, WitnessOk, GrantsOk, ReadsOk;
    OfHistory(cfg, s);
    OfNode(cfg, s, v);
    OfCamp(cfg, s, n.term, v);
    forall i | 0 <= i < |n.log| ensures n.log[i].term < n.term && n.log[i].term in s.h.elect.Keys {
      assert EntryOk(s.h, n.log, i);
    }
    ValidStays(s.h, h', n.log);
  }

  lemma PriorBelow(cfg: Config, h: History, u: nat)
    requires LogsOk(cfg, h) && u in h.elect
    ensures h.elect[u].prior < h.elect.Keys
  {
    assert ElectionOk(cfg, h, u);
    assert u in h.elect.Keys;
  }

  lemma GrantersVoted(cfg: Config, h: History, v: NodeId, n: Node)
    requires CandidateOk(cfg, h, v, n) && n.role == Candidate && Quorate(cfg, GrantedSet(n.votes))
    ensures Quorate(cfg, VotersOf(h, n.term, v))
    ensures forall x | x in VotersOf(h, n.term, v) :: Vote(x, n.term, v) in h.votes
  {
    forall x | x in GrantedSet(n.votes) ensures x in VotersOf(h, n.term, v) {
      assert Vote(x, n.term, v) in h.votes;
    }
    QuorumMonotone(cfg.incoming, cfg.outgoing, GrantedSet(n.votes), VotersOf(h, n.term, v));
  }

  lemma ElectedElection(cfg: Config, s: Cluster, v: NodeId, n: Node, l: Node, h': History)
    requires ValidConfig(cfg) && Inv(cfg, s) && Elected(cfg, s, v, n, l, h')
    ensures ElectionOk(cfg, h', n.term)
  {
    hide Inv, LogsOk, CoversOk, CommitsOk, WitnessOk, GrantsOk, ReadsOk;
    OfHistory(cfg, s);
    OfNode(cfg, s, v);
    hide ReplicaOk, LeaderOk, EpochOk, QueueOk;
    GrantersVoted(cfg, s.h, v, n);
    hide GrantedSet, VotersOf, Quorate;
    forall u | u in s.h.elect.Keys ensures h'.elect[u].prior < s.h.elect.Keys {
      PriorBelow(cfg, s.h, u);
    }
  }

  lemma OldTermStays(cfg: Config, h: History, h': History, t: nat)
    requires Grows(h, h') && LogsOk(cfg, h) && t in h.elect && h'.logs[t] == h.logs[t]
    ensures TermLogOk(h', t) && ElectionOk(cfg, h', t)
  {
    assert TermLogOk(h, t) && ElectionOk(cfg, h, t);
    ValidStays(h, h', h.elect[t].log);
    assert h'.elect[t] == h.elect[t];
    assert h'.camp[(t, h.elect[t].leader)] == h.camp[(t, h.elect[t].leader)];
  }

  lemma ElectedLogs(cfg: Config, s: Cluster, v: NodeId, n: Node, l: Node, h': History)
    requires Elected(cfg, s, v, n, l, h') && LogsOk(cfg, s.h)
    requires TermLogOk(h', n.term) && ElectionOk(cfg, h', n.term)
    ensures LogsOk(cfg, h')
  {
    hide Quorate, TermLogOk, ElectionOk;
    forall t | t in s.h.elect ensures TermLogOk(h', t) && ElectionOk(cfg, h', t) {
      OldTermStays(cfg, s.h, h', t);
    }
    forall t, u | t in h'.elect && u in h'.elect ensures Ordered(h', t, u) {
      assert Ordered(s.h, t, u);
    }
  }

  /** Nothing was committed or confirmed in a term without a leader. */
  lemma NothingYet(cfg: Config, s: Cluster, t: nat)
    requires Inv(cfg, s) && t !in s.h.elect
    ensures forall c | c in s.h.commits :: c.term != t
    ensures forall t', sub | (t', sub) in s.h.confirmed :: t' != t
  {
    hide Inv;
    OfHistory(cfg, s);
    forall c | c in s.h.commits ensures c.term != t {
      assert Chosen(cfg, s.h, c.term, c.index);
    }
    forall t', sub | (t', sub) in s.h.confirmed ensures t' != t {
      assert ConfirmedOk(cfg, s, t', sub);
    }
  }

  lemma ElectedNode(cfg: Config, s: Cluster, v: NodeId, n: Node, l: Node, h': History)
    requires ValidConfig(cfg) && Inv(cfg, s) && Elected(cfg, s, v, n, l, h')
    ensures NodeOk(cfg, h', v, l) && Keeps(n, l)
  {
    hide Inv, Quorate, GrantedSet, EpochOk, QueueOk, LeaderOk, CandidateOk;
    OfNode(cfg, s, v);
    assert v != cfg.wid;
    NothingYet(cfg, s, n.term);
    ElectedReplica(s.h, h', n, l);
    assert l.log[..|n.log|] == n.log;
    hide ReplicaOk, VotersOf;
    ElectedLeader(cfg, v, n, l, h');
  }

  lemma ElectedLeader(cfg: Config, v: NodeId, n: Node, l: Node, h': History)
    requires ValidConfig(cfg) && v != cfg.wid && l == BecomeLeader(cfg, n, v)
    requires n.term in h'.logs && h'.logs[n.term] == l.log && n.term in h'.elect && h'.elect[n.term].leader == v
    requires |n.log| > 0 ==> Ack(v, n.term, |n.log|) in h'.acks
    requires forall c | c in h'.commits :: c.term != n.term
    requires forall t, sub | (t, sub) in h'.confirmed :: t != n.term
    ensures CandidateOk(cfg, h', v, l) && LeaderOk(cfg, h', v, l) && EpochOk(cfg, h', v, l) && QueueOk(h', l)
  {
  }

  /** A log with one entry added by the leader of its term. */
  lemma ElectedReplica(h: History, h': History, n: Node, l: Node)
    requires Grows(h, h') && ReplicaOk(h, n) && n.role != Leader
    requires l.term == n.term && l.log == n.log + [Entry(n.term, 0, 0)] && n.term in h'.logs && h'.logs[n.term] == l.log
    requires l.committed == n.committed == l.durable && l.persisted == |n.log| && l.role == Leader
    ensures ReplicaOk(h', l)
  {
    ValidStays(h, h', n.log);
    forall i | 0 <= i < |l.log| ensures EntryOk(h', l.log, i) {
      if i < |n.log| {
        assert EntryOk(h', n.log, i);
        assert l.log[..i + 1] == n.log[..i + 1];
      }
    }
    assert l.log[..n.committed] == n.log[..n.committed];
    CommittedStays(h, h', n.log, n.committed);
    CommittedSame(h', n.log, l.log, n.committed);
  }

  /** The votes that decided the election cover what their voters had acknowledged. */
  lemma ElectedCovers(cfg: Config, s: Cluster, v: NodeId, n: Node, l: Node, h': History, a: Ack)
    requires ValidConfig(cfg) && Inv(cfg, s) && Elected(cfg, s, v, n, l, h') && a in s.h.acks
    ensures ElectionCovers(h', n.term, a)
  {
    hide Inv, LogsOk, WitnessOk, ReadsOk, CommitsOk, GrantsOk, Quorate;
    OfHistory(cfg, s);
    OfNode(cfg, s, v);
    OfAck(cfg, s, a);
    if a.node in h'.elect[n.term].voters && a.term < n.term {
      var b := Vote(a.node, n.term, v);
      assert b in s.h.votes;
      assert VoteCovers(s.h, b, a);
      forall k: nat | OwnEntry(h', a, k)
        ensures h'.logs[a.term][..k] <= n.log || SupersededBefore(h', n.term, a.term, k)
      {
        assert OwnEntry(s.h, a, k);
        if Superseded(s.h, a.term, k) {
          var u :| u in s.h.elect && u > a.term && Lacks(s.h, u, a.term, k);
          LacksStays(s.h, h', u, a.term, k);
          assert u in h'.elect[n.term].prior;
        }
      }
    }
  }

  lemma ElectedAllCovers(cfg: Config, s: Cluster, v: NodeId, n: Node, l: Node, h': History)
    requires ValidConfig(cfg) && Inv(cfg, s) && Elected(cfg, s, v, n, l, h')
    ensures CoversOk(h')
  {
    hide Inv, LogsOk, WitnessOk, ReadsOk, CommitsOk, GrantsOk, Quorate;
    OfHistory(cfg, s);
    forall b, a | b in h'.votes && a in h'.acks ensures VoteCovers(h', b, a) {
      OfVote(cfg, s, b);
      if a in s.h.acks {
        OfAck(cfg, s, a);
        assert VoteCovers(s.h, b, a);
        VoteCoversStays(s.h, h', b, a);
      }
    }
    forall t, a | t in h'.elect && a in h'.acks ensures ElectionCovers(h', t, a) {
      if a !in s.h.acks {
        if n.term < t { NotAVoter(cfg, s, v, t); }
      } else if t == n.term {
        ElectedCovers(cfg, s, v, n, l, h', a);
      } else {
        OfAck(cfg, s, a);
        assert ElectionCovers(s.h, t, a);
        ElectionCoversStays(s.h, h', t, a);
      }
    }
  }

  lemma ElectedAcks(cfg: Config, s: Cluster, v: NodeId, n: Node, l: Node, h': History)
    requires ValidConfig(cfg) && Inv(cfg, s) && Elected(cfg, s, v, n, l, h')
    ensures forall a {:trigger AckOk(h', s.nodes[v := l], a)} | a in h'.acks :: AckOk(h', s.nodes[v := l], a)
  {
    hide Inv;
    ElectedNode(cfg, s, v, n, l, h');
    var nodes' := s.nodes[v := l];
    forall a | a in h'.acks ensures AckOk(h', nodes', a) {
      if a in s.h.acks {
        OfAck(cfg, s, a);
        SelfKeeps(cfg, s, a.node);
        AckStays(s.h, h', s.nodes, nodes', a);
      } else {
        assert forall k | 1 <= k <= |n.log| :: Kept(h', l, n.term, k);
      }
    }
  }

  lemma ElectedGrants(cfg: Config, s: Cluster, s': Cluster, v: NodeId, n: Node, l: Node, h': History)
    requires ValidConfig(cfg) && Inv(cfg, s) && Elected(cfg, s, v, n, l, h') && s' == Put(s, v, l, {}, h')
    ensures GrantsOk(cfg, s')
  {
    hide Inv, LogsOk, CoversOk, WitnessOk, ReadsOk, CommitsOk, Quorate;
    OfHistory(cfg, s);
    forall g | g in h'.grants ensures GrantOk(cfg, h', g) && g.term <= s'.wit.term && PollOf(g) in s'.msgs {
      assert GrantOk(cfg, s.h, g);
      GrantStays(cfg, s.h, h', g);
    }
    if HasWitness(cfg) {
      forall b | b in h'.votes && b.voter == cfg.wid ensures HasGrant(h', b) {
        assert HasGrant(s.h, b);
      }
      forall t | t in h'.elect && cfg.wid in h'.elect[t].voters ensures WonByGrant(h', t) {
        if t == n.term {
          assert HasGrant(s.h, Vote(cfg.wid, n.term, v));
          var g :| g in s.h.grants && g.term == n.term && g.cand == v;
          assert GrantOk(cfg, s.h, g);
          forall x | x in g.granted ensures x in VotersOf(s.h, n.term, v) {
            assert Vote(x, n.term, v) in s.h.votes;
          }
        } else {
          assert WonByGrant(s.h, t);
        }
      }
    }
  }

  function ElectHistory(h: History, v: NodeId, n: Node, l: Node): History {
    WithAck(h.(logs := h.logs[n.term := l.log],
            elect := h.elect[n.term := Election(v, n.log, VotersOf(h, n.term, v), h.elect.Keys)]), v, n.term, |n.log|)
  }

  lemma ElectResult(cfg: Config, s: Cluster, v: NodeId)
    requires Enabled(cfg, s, Elect(v))
    ensures var l := BecomeLeader(cfg, s.nodes[v], v);
            Apply(cfg, s, Elect(v)) == Put(s, v, l, {}, ElectHistory(s.h, v, s.nodes[v], l))
  {
  }

  lemma ElectedMoves(cfg: Config, s: Cluster, s': Cluster, v: NodeId, n: Node, l: Node, h': History)
    requires ValidConfig(cfg) && Inv(cfg, s) && Elected(cfg, s, v, n, l, h') && s' == Put(s, v, l, {}, h')
    ensures Moves(s, s', v) && PolledOk(s'.msgs, v, l)
  {
    hide Inv, Quorate;
  }

  lemma StepElect(cfg: Config, s: Cluster, v: NodeId)
    requires ValidConfig(cfg) && Inv(cfg, s) && Enabled(cfg, s, Elect(v))
    ensures Inv(cfg, Apply(cfg, s, Elect(v)))
  {
    hide Inv, Apply, LogsOk, NodeOk, AckOk, CoversOk, GrantsOk, MsgOk, WitnessOk, ReadsOk, CommitsOk, TermLogOk,
      ElectionOk, VoteOk, CampOk, PolledOk;
    OfHistory(cfg, s);
    NotYetElected(cfg, s, v);
    ElectResult(cfg, s, v);
    var n := s.nodes[v];
    var l := BecomeLeader(cfg, n, v);
    var h' := ElectHistory(s.h, v, n, l);
    var s' := Put(s, v, l, {}, h');
    assert Elected(cfg, s, v, n, l, h');
    hide Enabled, ElectHistory, Elected;
    ElectedLog(cfg, s, v, n, l, h');
    ElectedElection(cfg, s, v, n, l, h');
    ElectedLogs(cfg, s, v, n, l, h');
    ElectedNode(cfg, s, v, n, l, h');
    ElectedAcks(cfg, s, v, n, l, h');
    ElectedAllCovers(cfg, s, v, n, l, h');
    ElectedGrants(cfg, s, s', v, n, l, h');
    ElectedMoves(cfg, s, s', v, n, l, h');
    OthersStay(cfg, s, s', v);
    OldStay(cfg, s, s', v);
    ElectedRest(cfg, s, s', v, n, l, h');
    hide Moves, BecomeLeader;
    Assembled(cfg, s');
  }

  lemma ElectedRest(cfg: Config, s: Cluster, s': Cluster, v: NodeId, n: Node, l: Node, h': History)
    requires ValidConfig(cfg) && Inv(cfg, s) && Elected(cfg, s, v, n, l, h') && s' == Put(s, v, l, {}, h')
    ensures h'.votes == s.h.votes && h'.camp == s.h.camp && h'.elect.Keys == s.h.elect.Keys + {n.term}
    ensures WinnerOk(h', s'.nodes, n.term) && VotesUnique(h')
    ensures CommitsOk(cfg, h') && WitnessOk(cfg, s') && ReadsOk(h')
  {
    hide Inv, LogsOk, CoversOk, GrantsOk, WitnessOk, ReadsOk, CommitsOk, Quorate;
    OfHistory(cfg, s);
    CommitsStay(cfg, s.h, h');
    WitnessStays(cfg, s, s');
    ReadsStay(s.h, h');
  }
}
