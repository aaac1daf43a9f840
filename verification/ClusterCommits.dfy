/** When a leader commits, told from what has been acknowledged to it: over every run, `maybe_commit` counts
    the witness exactly when it may, and moves the commit index exactly as far as a quorum counts. */
module ClusterCommits {
  import opened Quorum
  import opened RaftLogs
  import opened ClusterState
  import opened ClusterInv
  import opened ClusterHistory
  import opened ClusterCommitStep
  import opened ClusterSafety

  /** Half of the voters, in the replication set, have acknowledged `k`. */
  predicate HalfAcked(cfg: Config, n: Node, k: nat) {
    |set u | u in cfg.incoming && u != n.epoch.excluded && MatchOf(n.matched, u) >= k| >= |cfg.incoming| / 2
  }

  /** The witness stands for `k`: it is in the replication set, has stored something of the current subterm,
      and half of the voters in the set have acknowledged `k`. */
  predicate WitnessBacks(cfg: Config, n: Node, k: nat) {
    ReplicatesToWitness(cfg, n) && n.epoch.contacted == n.epoch.subterm && HalfAcked(cfg, n, k)
  }

  /** Who counts for `k`: whoever acknowledged it, and the witness if it stands for it. */
  function Counted(cfg: Config, n: Node, k: nat): set<NodeId> {
    set u | u in cfg.incoming + cfg.outgoing && (MatchOf(n.matched, u) >= k || (u == cfg.wid && WitnessBacks(cfg, n, k)))
  }

  /** A leader's own entry that a quorum counts for. */
  predicate Committable(cfg: Config, n: Node, k: nat) {
    1 <= k <= |n.log| && n.log[k - 1].term == n.term && Quorate(cfg, Counted(cfg, n, k))
  }

  // ---- The witness's index ------------------------------------------------------------------------------------

  lemma HalfDown(cfg: Config, n: Node, j: nat, k: nat)
    requires HalfAcked(cfg, n, k) && j <= k
    ensures HalfAcked(cfg, n, j)
  {
    SubsetSize(set u | u in cfg.incoming && u != n.epoch.excluded && MatchOf(n.matched, u) >= k,
               set u | u in cfg.incoming && u != n.epoch.excluded && MatchOf(n.matched, u) >= j);
  }

  lemma HalfIs(cfg: Config, n: Node, k: nat)
    ensures HalfAcked(cfg, n, k) <==> |AckedBy(ReplicationSet(cfg, n), n.matched, k)| >= |cfg.incoming| / 2
  {
    assert (set u | u in cfg.incoming && u != n.epoch.excluded && MatchOf(n.matched, u) >= k)
        == AckedBy(ReplicationSet(cfg, n), n.matched, k);
  }

  /** The shortcut index is the last one half acknowledged. */
  lemma ShortcutIs(cfg: Config, n: Node, shortcut: nat, k: nat)
    requires IsShortcutIndex(cfg, n, shortcut)
    ensures HalfAcked(cfg, n, k) <==> k <= shortcut
  {
    hide HalfAcked;
    HalfIs(cfg, n, k);
    HalfIs(cfg, n, shortcut);
    if k <= shortcut { HalfDown(cfg, n, k, shortcut); }
  }

  /** Looking at the commit index counts the witness for `k` if and only if it stood for it, or was counted
      already; nobody else's index moves. */
  lemma WitnessRaisedIff(cfg: Config, s: Cluster, v: NodeId, shortcut: nat, index: nat, u: NodeId, k: nat)
    requires Enabled(cfg, s, MaybeCommit(v, shortcut, index)) && k >= 1
    ensures var n, n' := s.nodes[v], Apply(cfg, s, MaybeCommit(v, shortcut, index)).nodes[v];
            MatchOf(n'.matched, u) >= k <==> MatchOf(n.matched, u) >= k || (u == cfg.wid && WitnessBacks(cfg, n, k))
  {
    hide IsCommitIndex, HalfAcked;
    var n := s.nodes[v];
    if ReplicatesToWitness(cfg, n) {
      ShortcutIs(cfg, n, shortcut, k);
    }
    hide IsShortcutIndex;
  }

  lemma CountedIs(cfg: Config, s: Cluster, v: NodeId, shortcut: nat, index: nat, k: nat)
    requires Enabled(cfg, s, MaybeCommit(v, shortcut, index)) && k >= 1
    ensures var n' := Apply(cfg, s, MaybeCommit(v, shortcut, index)).nodes[v];
            AckedBy(cfg.incoming + cfg.outgoing, n'.matched, k) == Counted(cfg, s.nodes[v], k)
  {
    var n' := Apply(cfg, s, MaybeCommit(v, shortcut, index)).nodes[v];
    hide Apply, Enabled, WitnessBacks, MatchOf;
    forall u | u in cfg.incoming + cfg.outgoing
      ensures u in AckedBy(cfg.incoming + cfg.outgoing, n'.matched, k) <==> u in Counted(cfg, s.nodes[v], k)
    {
      WitnessRaisedIff(cfg, s, v, shortcut, index, u, k);
    }
  }

  // ---- The commit index -----------------------------------------------------------------------------------------

  /** No quorum acknowledges more than the leader has: whoever is past its end took no part in the election of
      the leader that got further. */
  lemma QuorumInLog(cfg: Config, s: Cluster, v: NodeId, k: nat)
    requires ValidConfig(cfg) && Inv(cfg, s) && IsRole(s, v, Leader)
    requires Quorate(cfg, AckedBy(cfg.incoming + cfg.outgoing, s.nodes[v].matched, k))
    ensures k <= |s.nodes[v].log|
  {
    hide Inv;
    if k > |s.nodes[v].log| {
      var voters := cfg.incoming + cfg.outgoing;
      var acked := AckedBy(voters, s.nodes[v].matched, k);
      NoneBeyond(cfg, s, v, acked, k);
      assert false;
    }
  }

  lemma NoneBeyond(cfg: Config, s: Cluster, v: NodeId, acked: set<NodeId>, k: nat)
    requires ValidConfig(cfg) && Inv(cfg, s) && IsRole(s, v, Leader) && k >= 1
    requires acked == AckedBy(cfg.incoming + cfg.outgoing, s.nodes[v].matched, k) && Quorate(cfg, acked)
    ensures s.nodes[v].term in s.h.logs && k <= |s.h.logs[s.nodes[v].term]| && s.h.logs[s.nodes[v].term] == s.nodes[v].log
  {
    hide Inv, MatchOf;
    OfNode(cfg, s, v);
    OfHistory(cfg, s);
    hide NodeOk, ReplicaOk, QueueOk, EpochOk, CandidateOk, CoversOk, CommitsOk, WitnessOk, GrantsOk, LogsOk;
    var t := s.nodes[v].term;
    if k > |s.h.logs[t]| {
      WitnessInLog(cfg, s, v, k);
      CountedAcked(cfg, s, v, cfg.incoming + cfg.outgoing, k);
      QuorumsIntersect(cfg.incoming, cfg.outgoing, acked, acked);
      var x :| x in acked;
      var u := FirstLater(cfg, s, t, k, x);
      ElectedByQuorum(cfg, s, u);
      QuorumsIntersect(cfg.incoming, cfg.outgoing, acked, s.h.elect[u].voters);
      var y :| y in acked && y in s.h.elect[u].voters;
      AllBeyond(cfg, s, t, k, y, u);
    }
  }

  lemma ElectedByQuorum(cfg: Config, s: Cluster, u: nat)
    requires Inv(cfg, s) && u in s.h.elect
    ensures Quorate(cfg, s.h.elect[u].voters)
  {
    hide Inv;
    OfHistory(cfg, s);
    assert ElectionOk(cfg, s.h, u);
  }

  /** The witness is never counted beyond the log. */
  lemma WitnessInLog(cfg: Config, s: Cluster, v: NodeId, k: nat)
    requires ValidConfig(cfg) && Inv(cfg, s) && IsRole(s, v, Leader) && k > |s.nodes[v].log|
    ensures cfg.wid !in AckedBy(cfg.incoming + cfg.outgoing, s.nodes[v].matched, k)
  {
    hide Inv;
    OfNode(cfg, s, v);
    var n := s.nodes[v];
    if HasWitness(cfg) && cfg.wid in n.matched && n.matched[cfg.wid] > 0 {
      assert MatchOk(cfg, s.h, n.term, cfg.wid, n.matched[cfg.wid]);
      assert n.matched[cfg.wid] <= |n.log|;
    }
  }

  lemma FirstLater(cfg: Config, s: Cluster, t: nat, k: nat, x: NodeId) returns (u: nat)
    requires Inv(cfg, s) && t in s.h.logs && k > |s.h.logs[t]| && x in AckSet(s.h, t, k)
    ensures IsFirstLater(s.h, t, u)
  {
    hide Inv;
    var a :| a in s.h.acks && a.term == t && a.index >= k && a.node == x;
    OfAck(cfg, s, a);
    u :| IsFirstLater(s.h, a.term, u);
  }

  lemma OwnAbove(cfg: Config, s: Cluster, v: NodeId, j: nat, k: nat)
    requires Inv(cfg, s) && IsRole(s, v, Leader) && 1 <= j <= k <= |s.nodes[v].log|
    requires s.nodes[v].log[j - 1].term == s.nodes[v].term
    ensures TermAt(s.nodes[v].log, k) == s.nodes[v].term
  {
    hide Inv;
    OfNode(cfg, s, v);
    OfHistory(cfg, s);
    TermsGrow(cfg, s.h, s.nodes[v].log, j - 1, k - 1);
  }

  /** The highest index a quorum counts for lies in the log. */
  lemma IndexInLog(cfg: Config, s: Cluster, v: NodeId, shortcut: nat, index: nat)
    requires ValidConfig(cfg) && Inv(cfg, s) && Enabled(cfg, s, MaybeCommit(v, shortcut, index))
    ensures index <= |s.nodes[v].log|
  {
    var n := Shortcut(cfg, s.nodes[v], v, shortcut);
    hide Inv, IsShortcutIndex;
    var s1 := Put(s, v, n, {}, s.h);
    ShortcutStep(cfg, s, v, shortcut);
    ShortcutKeeps(cfg, s.nodes[v], v, shortcut);
    hide Shortcut, Quorate;
    QuorumInLog(cfg, s1, v, index);
  }

  lemma ShortcutKeeps(cfg: Config, n: Node, v: NodeId, k: nat)
    ensures var n' := Shortcut(cfg, n, v, k); n' == n.(matched := n'.matched, epoch := n'.epoch)
  {
  }

  /** What `maybe_commit` does to the commit index, given the largest index that counts. */
  lemma CommitsTo(cfg: Config, s: Cluster, v: NodeId, shortcut: nat, index: nat)
    requires Enabled(cfg, s, MaybeCommit(v, shortcut, index)) && index <= |s.nodes[v].log|
    ensures var n, t := s.nodes[v], Apply(cfg, s, MaybeCommit(v, shortcut, index));
            && IsRole(t, v, Leader) && t.nodes[v].log == n.log && t.nodes[v].term == n.term
            && t.nodes[v].committed == if index > n.committed && TermAt(n.log, index) == n.term then index else n.committed
    ensures forall j | j > index && j >= 1 :: !Quorate(cfg, Counted(cfg, s.nodes[v], j))
    ensures index >= 1 ==> Quorate(cfg, Counted(cfg, s.nodes[v], index))
  {
    hide IsShortcutIndex, Quorate, Counted;
    ShortcutKeeps(cfg, s.nodes[v], v, shortcut);
    hide Shortcut;
    forall j | j >= 1
      ensures AckedBy(cfg.incoming + cfg.outgoing, Shortcut(cfg, s.nodes[v], v, shortcut).matched, j) == Counted(cfg, s.nodes[v], j)
    {
      CountedIs(cfg, s, v, shortcut, index, j);
    }
  }

  /** The commit index gets to `k` if and only if it was there or an own entry at or behind `k` is counted for
      by a quorum. */
  lemma CommitLaw(cfg: Config, run: seq<Cluster>, i: nat, v: NodeId, shortcut: nat, index: nat, k: nat)
    requires ValidConfig(cfg) && IsRun(cfg, run) && i < |run| && Enabled(cfg, run[i], MaybeCommit(v, shortcut, index))
    ensures var n, n' := run[i].nodes[v], Apply(cfg, run[i], MaybeCommit(v, shortcut, index)).nodes[v];
            n'.committed >= k <==> n.committed >= k || exists j: nat :: j >= k && Committable(cfg, n, j)
  {
    hide Inv, IsRun, IsCommitIndex, IsShortcutIndex;
    RunInv(cfg, run, i);
    IndexInLog(cfg, run[i], v, shortcut, index);
    CommitsTo(cfg, run[i], v, shortcut, index);
    var n := run[i].nodes[v];
    hide Apply, Enabled, Counted, Quorate;
    TermIsPositive(cfg, run[i], v);
    forall j: nat | j >= k && Committable(cfg, n, j)
      ensures index >= j && TermAt(n.log, index) == n.term
    {
      OwnAbove(cfg, run[i], v, j, index);
    }
    if TermAt(n.log, index) == n.term {
      assert Committable(cfg, n, index);
    }
  }

  /** So the shortcut works: an own entry that half of the voters, all regular members of the replication set,
      have acknowledged is committed, with the witness as the missing vote. */
  lemma ShortcutCommits(cfg: Config, run: seq<Cluster>, i: nat, v: NodeId, shortcut: nat, index: nat, k: nat)
    requires ValidConfig(cfg) && IsRun(cfg, run) && i < |run| && Enabled(cfg, run[i], MaybeCommit(v, shortcut, index))
    requires ReplicatesToWitness(cfg, run[i].nodes[v]) && run[i].nodes[v].epoch.contacted == run[i].nodes[v].epoch.subterm
    requires 1 <= k <= |run[i].nodes[v].log| && run[i].nodes[v].log[k - 1].term == run[i].nodes[v].term
    requires BehindWitness(cfg, run[i].nodes[v], k)
    ensures var n' := Apply(cfg, run[i], MaybeCommit(v, shortcut, index)).nodes[v];
            MatchOf(n'.matched, cfg.wid) >= k && n'.committed >= k
  {
    hide IsRun, Apply;
    var n := run[i].nodes[v];
    BackedCounts(cfg, n, k);
    assert Committable(cfg, n, k);
    hide Counted, Quorate, Enabled, BehindWitness, WitnessBacks;
    WitnessRaisedIff(cfg, run[i], v, shortcut, index, cfg.wid, k);
    CommitLaw(cfg, run, i, v, shortcut, index, k);
  }

  /** Half of the voters, all of them regular and in the replication set, have acknowledged `k`. */
  predicate BehindWitness(cfg: Config, n: Node, k: nat) {
    |set u | u in cfg.incoming && u != n.epoch.excluded && u != cfg.wid && MatchOf(n.matched, u) >= k| >= |cfg.incoming| / 2
  }

  lemma BackedCounts(cfg: Config, n: Node, k: nat)
    requires ValidConfig(cfg) && ReplicatesToWitness(cfg, n) && n.epoch.contacted == n.epoch.subterm && BehindWitness(cfg, n, k)
    ensures WitnessBacks(cfg, n, k) && Quorate(cfg, Counted(cfg, n, k))
  {
    BehindIsHalf(cfg, n, k);
    var backers := set u | u in cfg.incoming && u != n.epoch.excluded && u != cfg.wid && MatchOf(n.matched, u) >= k;
    assert backers + {cfg.wid} <= cfg.incoming * Counted(cfg, n, k);
    SubsetSize(backers + {cfg.wid}, cfg.incoming * Counted(cfg, n, k));
  }

  lemma BehindIsHalf(cfg: Config, n: Node, k: nat)
    requires BehindWitness(cfg, n, k)
    ensures HalfAcked(cfg, n, k)
  {
    SubsetSize(set u | u in cfg.incoming && u != n.epoch.excluded && u != cfg.wid && MatchOf(n.matched, u) >= k,
               set u | u in cfg.incoming && u != n.epoch.excluded && MatchOf(n.matched, u) >= k);
  }

  lemma TermIsPositive(cfg: Config, s: Cluster, v: NodeId)
    requires Inv(cfg, s) && IsRole(s, v, Leader)
    ensures s.nodes[v].term >= 1
  {
    hide Inv;
    OfNode(cfg, s, v);
    OfHistory(cfg, s);
    assert TermLogOk(s.h, s.nodes[v].term);
  }

  // ---- The append to the witness --------------------------------------------------------------------------------

  /** As long as the witness has nothing of the current subterm, the commit attempt that finds half of the voters
      behind anything sends it the rest of the log with the replication set. */
  lemma WitnessAsked(cfg: Config, s: Cluster, v: NodeId, shortcut: nat, index: nat)
    requires Enabled(cfg, s, MaybeCommit(v, shortcut, index)) && ReplicatesToWitness(cfg, s.nodes[v])
    requires s.nodes[v].epoch.contacted != s.nodes[v].epoch.subterm && s.nodes[v].epoch.pending == 0
    requires HalfAcked(cfg, s.nodes[v], 1) && MatchOf(s.nodes[v].matched, cfg.wid) < |s.nodes[v].log|
    ensures var n, n' := s.nodes[v], Apply(cfg, s, MaybeCommit(v, shortcut, index)).nodes[v];
            && n'.epoch.pending == n.epoch.subterm && n'.epoch.contacted == n.epoch.contacted
            && n'.epoch.outbox.from == v && n'.epoch.outbox.term == n.term
            && 1 <= n'.epoch.outbox.first <= |n.log| && n.log == n.log[..n'.epoch.outbox.first - 1] + n'.epoch.outbox.ents && n'.epoch.outbox.ents != []
            && n'.epoch.outbox.replicationSet == cfg.incoming - {n.epoch.excluded}
  {
    hide IsCommitIndex, HalfAcked;
    ShortcutIs(cfg, s.nodes[v], shortcut, 1);
    hide IsShortcutIndex;
  }
}
