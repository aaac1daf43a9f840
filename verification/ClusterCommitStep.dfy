/** The leader's commit rule, with the witness shortcut, keeps the invariant. */
module ClusterCommitStep {
  import opened Quorum
  import opened RaftLogs
  import opened ClusterState
  import opened ClusterInv
  import opened ClusterHistory
  import opened ClusterGrowth
  import opened ClusterQuietSteps

  // ---- The witness shortcut ---------------------------------------------------------------------------

  /** Whoever the leader counts for index `k`, the witness aside, acknowledged it. */
  lemma CountedAcked(cfg: Config, s: Cluster, v: NodeId, voters: set<NodeId>, k: nat)
    requires Inv(cfg, s) && IsRole(s, v, Leader) && k >= 1
    ensures AckedBy(voters, s.nodes[v].matched, k) - {cfg.wid} <= AckSet(s.h, s.nodes[v].term, k)
  {
    hide Inv;
    var n := s.nodes[v];
    OfNode(cfg, s, v);
    forall x | x in AckedBy(voters, n.matched, k) - {cfg.wid} ensures x in AckSet(s.h, n.term, k) {
      assert MatchOk(cfg, s.h, n.term, x, n.matched[x]);
      assert Ack(x, n.term, n.matched[x]) in s.h.acks;
    }
  }

  /** Everybody who acknowledged past the end of the leader's log missed one and the same election. */
  lemma AllBeyond(cfg: Config, s: Cluster, t: nat, k: nat, x: NodeId, u: nat)
    requires Inv(cfg, s) && t in s.h.logs && k > |s.h.logs[t]|
    requires x in AckSet(s.h, t, k) && IsFirstLater(s.h, t, u)
    ensures x !in s.h.elect[u].voters
  {
    hide Inv;
    OfHistory(cfg, s);
    var a :| a in s.h.acks && a.term == t && a.index >= k && a.node == x;
    OfAck(cfg, s, a);
    var u' :| IsFirstLater(s.h, t, u') && x !in s.h.elect[u'].voters;
    assert Ordered(s.h, u, u');
  }

  /** One voter less than a quorum, and the leader itself, cannot have acknowledged more than the
      leader's log holds. */
  lemma ShortcutInLog(cfg: Config, s: Cluster, v: NodeId, acked: set<NodeId>, k: nat)
    requires ValidConfig(cfg) && Inv(cfg, s) && IsRole(s, v, Leader) && HasWitness(cfg)
    requires acked <= cfg.incoming && |acked| >= |cfg.incoming| / 2 && v !in acked
    requires acked <= AckSet(s.h, s.nodes[v].term, k)
    ensures k <= |s.nodes[v].log|
  {
    hide Inv;
    OfHistory(cfg, s);
    var t := s.nodes[v].term;
    OfNode(cfg, s, v);
    if k > |s.nodes[v].log| {
      assert ElectionOk(cfg, s.h, t);
      assert acked != {};
      var x :| x in acked;
      var a :| a in s.h.acks && a.term == t && a.index >= k && a.node == x;
      OfAck(cfg, s, a);
      var u :| IsFirstLater(s.h, t, u) && x !in s.h.elect[u].voters;
      NotAVoter(cfg, s, v, u);
      forall y | y in acked ensures y !in s.h.elect[u].voters { AllBeyond(cfg, s, t, k, y, u); }
      assert ElectionOk(cfg, s.h, u);
      assert |acked + {v}| == |acked| + 1;
      assert acked + {v} <= cfg.incoming;
      Pigeonhole(cfg.incoming, acked + {v}, cfg.incoming * s.h.elect[u].voters);
    }
  }

  /** The leader's own count is never past its log. */
  lemma OwnMatch(cfg: Config, s: Cluster, v: NodeId, voters: set<NodeId>, k: nat)
    requires Inv(cfg, s) && IsRole(s, v, Leader) && k > |s.nodes[v].log|
    ensures v !in AckedBy(voters, s.nodes[v].matched, k)
  {
    hide Inv;
    OfNode(cfg, s, v);
  }

  /** The shortcut raises the witness's index only to what stands behind its replication set. */
  lemma ShortcutBacked(cfg: Config, s: Cluster, v: NodeId, k: nat)
    requires ValidConfig(cfg) && Inv(cfg, s) && IsRole(s, v, Leader)
    requires ReplicatesToWitness(cfg, s.nodes[v]) && IsShortcutIndex(cfg, s.nodes[v], k)
    requires s.nodes[v].epoch.contacted == s.nodes[v].epoch.subterm
    requires k >= 1 && k > MatchOf(s.nodes[v].matched, cfg.wid)
    ensures Backed(cfg, s.h, s.nodes[v].term, k)
  {
    hide Inv;
    OfHistory(cfg, s);
    var n := s.nodes[v];
    var r := ReplicationSet(cfg, n);
    var acked := AckedBy(r, n.matched, k);
    OfNode(cfg, s, v);
    CountedAcked(cfg, s, v, r, k);
    assert acked - {cfg.wid} == acked;
    if k > |n.log| {
      OwnMatch(cfg, s, v, r, k);
      ShortcutInLog(cfg, s, v, acked, k);
    }
    assert TermLogOk(s.h, n.term);
    SubtermBound(s.h, n.term, k);
    SubsetSize(acked, (r - {cfg.wid}) * AckSet(s.h, n.term, k));
    assert BackedIn(cfg, s.h, n.term, n.epoch.subterm, k);
  }

  lemma SubtermBound(h: History, t: nat, k: nat)
    requires t in h.logs && t in h.elect && TermLogOk(h, t)
    requires 1 <= k <= |h.logs[t]|
    ensures h.logs[t][k - 1].term == t ==> h.logs[t][k - 1].subterm <= LastSubterm(h.logs[t])
  {
    if h.logs[t][k - 1].term == t { SubtermsGrow(h, t, k - 1, |h.logs[t]| - 1); }
  }

  lemma ShortcutNode(cfg: Config, s: Cluster, v: NodeId, k: nat)
    requires ValidConfig(cfg) && Inv(cfg, s) && IsRole(s, v, Leader)
    requires ReplicatesToWitness(cfg, s.nodes[v]) ==> IsShortcutIndex(cfg, s.nodes[v], k)
    ensures NodeOk(cfg, s.h, v, Shortcut(cfg, s.nodes[v], v, k))
  {
    hide Inv;
    var n := s.nodes[v];
    var n' := Shortcut(cfg, n, v, k);
    OfNode(cfg, s, v);
    if n'.matched != n.matched { ShortcutBacked(cfg, s, v, k); }
    assert v != cfg.wid;
    hide IsShortcutIndex;
    forall x | x in n'.matched ensures MatchOk(cfg, s.h, n'.term, x, n'.matched[x]) {
      if x in n.matched { assert MatchOk(cfg, s.h, n.term, x, n.matched[x]); }
    }
    QueueCarries(s.h, n, n');
    hide ReplicaOk, Backed, QueueOk;
    ShortcutEpoch(cfg, s.h, v, n, k);
  }

  lemma ShortcutEpoch(cfg: Config, h: History, v: NodeId, n: Node, k: nat)
    requires LeaderOk(cfg, h, v, n) && EpochOk(cfg, h, v, n) && n.role == Leader
    ensures EpochOk(cfg, h, v, Shortcut(cfg, n, v, k))
  {
    var n' := Shortcut(cfg, n, v, k);
    if n'.epoch.pending != 0 && n'.epoch != n.epoch {
      assert OutboxOk(cfg, n');
    }
  }

  lemma ShortcutStep(cfg: Config, s: Cluster, v: NodeId, k: nat)
    requires ValidConfig(cfg) && Inv(cfg, s) && IsRole(s, v, Leader)
    requires ReplicatesToWitness(cfg, s.nodes[v]) ==> IsShortcutIndex(cfg, s.nodes[v], k)
    ensures Inv(cfg, Put(s, v, Shortcut(cfg, s.nodes[v], v, k), {}, s.h))
  {
    hide Inv;
    ShortcutNode(cfg, s, v, k);
    SelfKeeps(cfg, s, v);
    hide NodeOk, IsShortcutIndex;
    QuietStep(cfg, s, v, Shortcut(cfg, s.nodes[v], v, k), {});
  }

  // ---- Committing ---------------------------------------------------------------------------------------

  /** What stands behind the witness at index `j` does so at every own entry below. */
  lemma BackedDown(cfg: Config, h: History, t: nat, j: nat, k: nat)
    requires LogsOk(cfg, h) && Backed(cfg, h, t, j) && 1 <= k <= j
    requires t in h.logs && k <= |h.logs[t]| && h.logs[t][k - 1].term == t
    ensures Backed(cfg, h, t, k)
  {
    var sub :| BackedIn(cfg, h, t, sub, j);
    assert TermLogOk(h, t);
    SubtermsGrow(h, t, k - 1, j - 1);
    SubsetSize((h.confirmed[(t, sub)] - {cfg.wid}) * AckSet(h, t, j), (h.confirmed[(t, sub)] - {cfg.wid}) * AckSet(h, t, k));
    assert BackedIn(cfg, h, t, sub, k);
  }

  /** An own entry that a quorum is counted for is chosen. */
  lemma CountedChosen(cfg: Config, s: Cluster, v: NodeId, k: nat)
    requires ValidConfig(cfg) && Inv(cfg, s) && IsRole(s, v, Leader)
    requires Quorate(cfg, AckedBy(cfg.incoming + cfg.outgoing, s.nodes[v].matched, k))
    requires 1 <= k <= |s.nodes[v].log| && TermAt(s.nodes[v].log, k) == s.nodes[v].term
    ensures Chosen(cfg, s.h, s.nodes[v].term, k)
  {
    hide Inv;
    OfHistory(cfg, s);
    var n := s.nodes[v];
    var acked := AckedBy(cfg.incoming + cfg.outgoing, n.matched, k);
    OfNode(cfg, s, v);
    if HasWitness(cfg) && cfg.wid in acked {
      assert MatchOk(cfg, s.h, n.term, cfg.wid, n.matched[cfg.wid]);
      BackedDown(cfg, s.h, n.term, n.matched[cfg.wid], k);
    } else {
      CountedAcked(cfg, s, v, cfg.incoming + cfg.outgoing, k);
      assert cfg.wid !in acked;
      assert acked <= AckSet(s.h, n.term, k);
      QuorumMonotone(cfg.incoming, cfg.outgoing, acked, AckSet(s.h, n.term, k));
    }
  }

  lemma CommittingNode(cfg: Config, s: Cluster, v: NodeId, n': Node, k: nat, h': History)
    requires ValidConfig(cfg) && Inv(cfg, s) && IsRole(s, v, Leader)
    requires s.nodes[v].committed < k <= |s.nodes[v].log| && n' == s.nodes[v].(committed := k)
    requires h' == s.h.(commits := s.h.commits + {Commit(n'.term, k)}) && Grows(s.h, h')
    ensures NodeOk(cfg, h', v, n')
  {
    hide Inv;
    OfHistory(cfg, s);
    var n := s.nodes[v];
    OfNode(cfg, s, v);
    assert ReadsOk(s.h);
    assert Covers(h', Commit(n.term, k), n.log, k);
    ValidStays(s.h, h', n.log);
    forall x | x in n'.matched ensures MatchOk(cfg, h', n'.term, x, n'.matched[x]) {
      assert MatchOk(cfg, s.h, n.term, x, n.matched[x]);
      MatchStays(cfg, s.h, h', n.term, x, n.matched[x]);
    }
    QueueCarries(s.h, n, n');
    QueueStays(cfg, s.h, h', n');
  }

  lemma CommitMoves(cfg: Config, s: Cluster, s': Cluster, v: NodeId, k: nat)
    requires Inv(cfg, s) && IsRole(s, v, Leader)
    requires s' == Put(s, v, s.nodes[v].(committed := k), {}, s.h.(commits := s.h.commits + {Commit(s.nodes[v].term, k)}))
    ensures Moves(s, s', v) && Keeps(s.nodes[v], s'.nodes[v]) && PolledOk(s'.msgs, v, s'.nodes[v])
    ensures Grows(s.h, s'.h)
  {
    hide Inv;
    OfNode(cfg, s, v);
  }

  lemma CommitStep(cfg: Config, s: Cluster, v: NodeId, k: nat)
    requires ValidConfig(cfg) && Inv(cfg, s) && IsRole(s, v, Leader)
    requires Quorate(cfg, AckedBy(cfg.incoming + cfg.outgoing, s.nodes[v].matched, k))
    requires s.nodes[v].committed < k <= |s.nodes[v].log| && TermAt(s.nodes[v].log, k) == s.nodes[v].term
    ensures Inv(cfg, Put(s, v, s.nodes[v].(committed := k), {},
                         s.h.(commits := s.h.commits + {Commit(s.nodes[v].term, k)})))
  {
    var n := s.nodes[v];
    var n' := n.(committed := k);
    var h' := s.h.(commits := s.h.commits + {Commit(n.term, k)});
    var s' := Put(s, v, n', {}, h');
    hide Inv, LogsOk, AckOk, MsgOk, WitnessOk, GrantsOk, ReadsOk, CoversOk, Chosen, Quorate, VoteOk, CampOk,
      NodeOk, PolledOk, Moves;
    OfHistory(cfg, s);
    CommitMoves(cfg, s, s', v, k);
    CommittingNode(cfg, s, v, n', k, h');
    CountedChosen(cfg, s, v, k);
    OthersStay(cfg, s, s', v);
    OldStay(cfg, s, s', v);
    RestStays(cfg, s, s', v);
    ReadsStay(s.h, h');
    forall c | c in h'.commits ensures Chosen(cfg, h', c.term, c.index) {
      assert c in s.h.commits ==> Chosen(cfg, s.h, c.term, c.index);
      ChosenStays(cfg, s.h, h', c.term, c.index);
    }
    Assembled(cfg, s');
  }

  lemma StepMaybeCommit(cfg: Config, s: Cluster, v: NodeId, shortcut: nat, index: nat)
    requires ValidConfig(cfg) && Inv(cfg, s) && Enabled(cfg, s, MaybeCommit(v, shortcut, index))
    ensures Inv(cfg, Apply(cfg, s, MaybeCommit(v, shortcut, index)))
  {
    hide Inv;
    var n := Shortcut(cfg, s.nodes[v], v, shortcut);
    var s1 := Put(s, v, n, {}, s.h);
    ShortcutStep(cfg, s, v, shortcut);
    if index > n.committed && index <= |n.log| && TermAt(n.log, index) == n.term {
      CommitStep(cfg, s1, v, index);
      CommitResult(cfg, s, v, shortcut, index);
    }
  }

  lemma CommitResult(cfg: Config, s: Cluster, v: NodeId, shortcut: nat, index: nat)
    requires Enabled(cfg, s, MaybeCommit(v, shortcut, index))
    ensures var n := Shortcut(cfg, s.nodes[v], v, shortcut);
            var s1 := Put(s, v, n, {}, s.h);
            index > n.committed && index <= |n.log| && TermAt(n.log, index) == n.term ==>
              Apply(cfg, s, MaybeCommit(v, shortcut, index))
              == Put(s1, v, n.(committed := index), {}, s.h.(commits := s.h.commits + {Commit(n.term, index)}))
  {
  }
}
