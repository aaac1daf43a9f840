/** What the witness is for: half of the voters and the witness can do everything a quorum can. */
module WitnessRecovery {
  import opened Quorum
  import opened RaftLogs
  import opened ClusterState
  import opened ClusterInv
  import opened ClusterCommits
  import opened ClusterProgress
  import opened ClusterRecovery

  /** Only the leader, and what the witness holds, changes; the leader keeps term, log and acknowledgments. */
  ghost predicate OnlyLeaderMoves(s: Cluster, s': Cluster, v: NodeId) {
    && v in s.nodes && v in s'.nodes && s'.nodes == s.nodes[v := s'.nodes[v]] && s'.h.reqs == s.h.reqs
    && s'.nodes[v].role == s.nodes[v].role && s'.nodes[v].term == s.nodes[v].term && s'.nodes[v].log == s.nodes[v].log
    && s'.nodes[v].pend == s.nodes[v].pend
    && s'.nodes[v].epoch.subterm == s.nodes[v].epoch.subterm && s'.nodes[v].epoch.excluded == s.nodes[v].epoch.excluded
    && forall u :: MatchOf(s.nodes[v].matched, u) <= MatchOf(s'.nodes[v].matched, u)
  }

  /** An own entry, acknowledged by half of the voters, all regular and in the replication set. */
  predicate Behind(cfg: Config, n: Node, k: nat) {
    ReplicatesToWitness(cfg, n) && 1 <= k <= |n.log| && n.log[k - 1].term == n.term && BehindWitness(cfg, n, k)
  }

  lemma BehindStays(cfg: Config, s: Cluster, s': Cluster, v: NodeId, k: nat)
    requires OnlyLeaderMoves(s, s', v) && Behind(cfg, s.nodes[v], k)
    ensures Behind(cfg, s'.nodes[v], k)
  {
    var n, n' := s.nodes[v], s'.nodes[v];
    SubsetSize(set u | u in cfg.incoming && u != n.epoch.excluded && u != cfg.wid && MatchOf(n.matched, u) >= k,
               set u | u in cfg.incoming && u != n'.epoch.excluded && u != cfg.wid && MatchOf(n'.matched, u) >= k);
  }

  /** The commit attempt itself. */
  lemma Attempt(cfg: Config, run: seq<Cluster>, s: Cluster, v: NodeId) returns (run': seq<Cluster>, s': Cluster, a: Action)
    requires ValidConfig(cfg) && At(cfg, run, s) && IsRole(s, v, Leader)
    ensures At(cfg, run', s') && run <= run' && OnlyLeaderMoves(s, s', v) && s'.wit == s.wit
    ensures a.MaybeCommit? && a.v == v && Enabled(cfg, s, a) && s' == Apply(cfg, s, a)
  {
    hide IsRun, Inv, Enabled, Apply;
    AtInv(cfg, run, s);
    a := MayCommit(cfg, s, v);
    run', s' := Do(cfg, run, s, a);
    Recounts(cfg, s, a);
    Attempted(cfg, s, a);
  }

  lemma Attempted(cfg: Config, s: Cluster, a: Action)
    requires a.MaybeCommit? && Enabled(cfg, s, a)
    ensures var s' := Apply(cfg, s, a);
            && a.v in s.nodes && a.v in s'.nodes && s'.wit == s.wit
            && s'.nodes[a.v].epoch == s.nodes[a.v].epoch.(pending := s'.nodes[a.v].epoch.pending, outbox := s'.nodes[a.v].epoch.outbox)
  {
    hide IsShortcutIndex, IsCommitIndex;
  }

  /** With the witness contacted, it commits. */
  lemma Settle(cfg: Config, run: seq<Cluster>, s: Cluster, v: NodeId, k: nat) returns (run': seq<Cluster>, s': Cluster)
    requires ValidConfig(cfg) && At(cfg, run, s) && IsRole(s, v, Leader) && Behind(cfg, s.nodes[v], k)
    requires s.nodes[v].epoch.contacted == s.nodes[v].epoch.subterm
    ensures At(cfg, run', s') && run <= run' && OnlyLeaderMoves(s, s', v) && s'.nodes[v].committed >= k
  {
    hide IsRun, Inv, Enabled, Apply, BehindWitness, OnlyLeaderMoves;
    var a;
    run', s', a := Attempt(cfg, run, s, v);
    ShortcutCommits(cfg, run, |run| - 1, v, a.shortcut, a.index, k);
  }

  /** The witness stores the append that waits for it. */
  lemma Write(cfg: Config, run: seq<Cluster>, s: Cluster, v: NodeId) returns (run': seq<Cluster>, s': Cluster)
    requires ValidConfig(cfg) && At(cfg, run, s) && IsRole(s, v, Leader) && HasWitness(cfg) && s.wit.term <= s.nodes[v].term
    requires s.nodes[v].epoch.pending != 0
    ensures At(cfg, run', s') && run <= run' && OnlyLeaderMoves(s, s', v) && s'.nodes[v].epoch.contacted == s'.nodes[v].epoch.subterm
  {
    hide IsRun, Inv;
    AtInv(cfg, run, s);
    OfNode(cfg, s, v);
    hide LeaderOk, QueueOk, CandidateOk, ReplicaOk, W.OnAppend;
    LeaderHasLog(cfg, s, v);
    run', s' := Do(cfg, run, s, WitnessWrite(v));
  }

  lemma LeaderHasLog(cfg: Config, s: Cluster, v: NodeId)
    requires Inv(cfg, s) && IsRole(s, v, Leader)
    ensures s.nodes[v].term in s.h.logs && EpochOk(cfg, s.h, v, s.nodes[v])
  {
    hide Inv;
    OfNode(cfg, s, v);
  }

  lemma MovesJoin(s: Cluster, s1: Cluster, s2: Cluster, v: NodeId)
    requires OnlyLeaderMoves(s, s1, v) && OnlyLeaderMoves(s1, s2, v)
    ensures OnlyLeaderMoves(s, s2, v)
  {
    forall u ensures MatchOf(s.nodes[v].matched, u) <= MatchOf(s2.nodes[v].matched, u) {
      assert MatchOf(s.nodes[v].matched, u) <= MatchOf(s1.nodes[v].matched, u);
    }
  }

  /** Subterm 0 leaves the witness out. */
  lemma LaterSubterm(cfg: Config, s: Cluster, v: NodeId)
    requires Inv(cfg, s) && IsRole(s, v, Leader) && ReplicatesToWitness(cfg, s.nodes[v])
    ensures s.nodes[v].epoch.subterm >= 1
  {
    hide Inv;
    LeaderHasLog(cfg, s, v);
  }

  /** An entry the witness is counted for already is committed by the next attempt. */
  lemma CountedAlready(cfg: Config, n: Node, k: nat)
    requires ValidConfig(cfg) && Behind(cfg, n, k) && MatchOf(n.matched, cfg.wid) >= k
    ensures Committable(cfg, n, k)
  {
    var backers := set u | u in cfg.incoming && u != n.epoch.excluded && u != cfg.wid && MatchOf(n.matched, u) >= k;
    assert backers + {cfg.wid} <= cfg.incoming * Counted(cfg, n, k);
    SubsetSize(backers + {cfg.wid}, cfg.incoming * Counted(cfg, n, k));
  }

  /** An attempt either commits or makes sure that the witness is asked. */
  lemma Prompt(cfg: Config, run: seq<Cluster>, s: Cluster, v: NodeId, k: nat) returns (run': seq<Cluster>, s': Cluster)
    requires ValidConfig(cfg) && At(cfg, run, s) && IsRole(s, v, Leader) && Behind(cfg, s.nodes[v], k)
    requires s.nodes[v].epoch.contacted != s.nodes[v].epoch.subterm && s.nodes[v].epoch.pending == 0
    ensures At(cfg, run', s') && run <= run' && OnlyLeaderMoves(s, s', v) && s'.wit == s.wit
    ensures s'.nodes[v].committed >= k || s'.nodes[v].epoch.pending != 0
  {
    hide IsRun, Inv, Enabled, Apply, OnlyLeaderMoves, Committable;
    var a;
    run', s', a := Attempt(cfg, run, s, v);
    var n := s.nodes[v];
    if MatchOf(n.matched, cfg.wid) >= k {
      CountedAlready(cfg, n, k);
      CommitLaw(cfg, run, |run| - 1, v, a.shortcut, a.index, k);
    } else {
      AtInv(cfg, run, s);
      LaterSubterm(cfg, s, v);
      BehindIsHalf(cfg, n, k);
      HalfDown(cfg, n, 1, k);
      WitnessAsked(cfg, s, v, a.shortcut, a.index);
    }
  }

  lemma Contact(cfg: Config, run: seq<Cluster>, s: Cluster, v: NodeId, k: nat) returns (run': seq<Cluster>, s': Cluster)
    requires ValidConfig(cfg) && At(cfg, run, s) && IsRole(s, v, Leader) && Behind(cfg, s.nodes[v], k)
    requires s.nodes[v].epoch.contacted != s.nodes[v].epoch.subterm && s.wit.term <= s.nodes[v].term
    ensures At(cfg, run', s') && run <= run' && OnlyLeaderMoves(s, s', v)
    ensures s'.nodes[v].committed >= k || s'.nodes[v].epoch.contacted == s'.nodes[v].epoch.subterm
  {
    hide At, BehindWitness;
    if s.nodes[v].epoch.pending != 0 {
      run', s' := Write(cfg, run, s, v);
    } else {
      var run1, s1 := Prompt(cfg, run, s, v, k);
      if s1.nodes[v].committed >= k {
        run', s' := run1, s1;
      } else {
        run', s' := Write(cfg, run1, s1, v);
        MovesJoin(s, s1, s', v);
      }
    }
  }

  /** A leader that half of the voters keep up with gets its entry committed through the witness, unless a later
      term has reached it: by asking the witness, if it was not asked yet, and counting it then. */
  lemma WitnessCommits(cfg: Config, run: seq<Cluster>, s: Cluster, v: NodeId, k: nat) returns (run': seq<Cluster>, s': Cluster)
    requires ValidConfig(cfg) && At(cfg, run, s) && IsRole(s, v, Leader) && Behind(cfg, s.nodes[v], k)
    requires s.wit.term <= s.nodes[v].term
    ensures At(cfg, run', s') && run <= run' && OnlyLeaderMoves(s, s', v) && s'.nodes[v].committed >= k
  {
    hide At, BehindWitness;
    if s.nodes[v].epoch.contacted == s.nodes[v].epoch.subterm {
      run', s' := Settle(cfg, run, s, v, k);
    } else {
      var run1, s1 := Contact(cfg, run, s, v, k);
      if s1.nodes[v].committed >= k {
        run', s' := run1, s1;
      } else {
        BehindStays(cfg, s, s1, v, k);
        run', s' := Settle(cfg, run1, s1, v, k);
        MovesJoin(s, s1, s', v);
      }
    }
  }

  // ---- Recovery with the witness -----------------------------------------------------------------------------------

  /** The witness is swapped in for a regular voter that nobody needs. */
  lemma SwapIn(cfg: Config, run: seq<Cluster>, s: Cluster, v: NodeId, x: NodeId) returns (run': seq<Cluster>, s': Cluster)
    requires At(cfg, run, s) && Leads(s, v) && HasWitness(cfg) && x in cfg.incoming && x != v && x != cfg.wid
    ensures At(cfg, run', s') && run <= run' && Leads(s', v) && s'.wit == s.wit && s'.h.reqs == s.h.reqs
    ensures s'.nodes == s.nodes[v := s'.nodes[v]] && ReplicatesToWitness(cfg, s'.nodes[v]) && s'.nodes[v].epoch.excluded == x
    ensures s'.nodes[v].term == s.nodes[v].term && s'.nodes[v].epoch.subterm == s.nodes[v].epoch.subterm + 1
    ensures s'.nodes[v].log == s.nodes[v].log + [Entry(s.nodes[v].term, s.nodes[v].epoch.subterm + 1, 0)]
  {
    hide IsRun;
    run', s' := Do(cfg, run, s, NewSubterm(v, x));
  }

  /** Half of the voters, all regular, the leader among them. */
  predicate IsHalf(cfg: Config, v: NodeId, q: set<NodeId>) {
    v in q && q <= cfg.incoming - {cfg.wid} && |q| == |cfg.incoming| / 2
  }

  lemma Spare(cfg: Config, v: NodeId, q: set<NodeId>) returns (x: NodeId)
    requires ValidConfig(cfg) && HasWitness(cfg) && IsHalf(cfg, v, q)
    ensures x in cfg.incoming && x != cfg.wid && x !in q
  {
    var rest := cfg.incoming - {cfg.wid} - q;
    assert |cfg.incoming - {cfg.wid}| == |cfg.incoming| - 1;
    assert |rest| == |cfg.incoming| - 1 - |q|;
    x :| x in rest;
  }

  lemma HalfCounts(cfg: Config, v: NodeId, q: set<NodeId>)
    requires ValidConfig(cfg) && HasWitness(cfg) && IsHalf(cfg, v, q)
    ensures Quorate(cfg, q + {cfg.wid}) && |cfg.incoming * q| + 1 == Majority(|cfg.incoming|) && q <= cfg.nodes
  {
    assert cfg.incoming * q == q;
    assert cfg.incoming * (q + {cfg.wid}) == q + {cfg.wid};
  }

  lemma HalfIsBehind(cfg: Config, s: Cluster, v: NodeId, q: set<NodeId>)
    requires Replicated(s, v, q) && IsHalf(cfg, v, q) && ReplicatesToWitness(cfg, s.nodes[v]) && s.nodes[v].epoch.excluded !in q
    requires s.nodes[v].log != [] && LastTerm(s.nodes[v].log) == s.nodes[v].term
    ensures Behind(cfg, s.nodes[v], |s.nodes[v].log|)
  {
    var n, k := s.nodes[v], |s.nodes[v].log|;
    SubsetSize(q, set u | u in cfg.incoming && u != n.epoch.excluded && u != cfg.wid && MatchOf(n.matched, u) >= k);
  }

  /** Data on half of the voters is committed through the witness. */
  lemma CommitHalf(cfg: Config, run: seq<Cluster>, s: Cluster, v: NodeId, q: set<NodeId>) returns (run': seq<Cluster>, s': Cluster)
    requires ValidConfig(cfg) && At(cfg, run, s) && Replicated(s, v, q) && IsHalf(cfg, v, q) && s.wit.term <= s.nodes[v].term
    requires ReplicatesToWitness(cfg, s.nodes[v]) && s.nodes[v].epoch.excluded !in q
    requires s.nodes[v].log != [] && LastTerm(s.nodes[v].log) == s.nodes[v].term
    ensures At(cfg, run', s') && run <= run' && Replicated(s', v, q) && Done(s', v, {v}) && s'.h.reqs == s.h.reqs
    ensures s'.nodes[v].log == s.nodes[v].log && s'.nodes[v].term == s.nodes[v].term
  {
    hide At, IsHalf, Behind, Inv;
    HalfIsBehind(cfg, s, v, q);
    run', s' := WitnessCommits(cfg, run, s, v, |s.nodes[v].log|);
    AtInv(cfg, run', s');
    CommittedInLeader(cfg, s', v, v);
  }

  /** A leader of the highest term, with half of the voters and the witness. */
  lemma CanServeWithWitness(cfg: Config, run: seq<Cluster>, s: Cluster, v: NodeId, q: set<NodeId>, data: nat, ctx: R.Context, from: NodeId)
    returns (run': seq<Cluster>, s': Cluster)
    requires ValidConfig(cfg) && HasWitness(cfg) && At(cfg, run, s) && Leads(s, v) && IsHalf(cfg, v, q) && s.wit.term <= s.nodes[v].term
    requires ctx != R.NO_CONTEXT && ctx !in s.h.reqs
    ensures At(cfg, run', s') && run <= run' && v in s'.nodes && s'.nodes[v].term == s.nodes[v].term
    ensures var t, sub := s.nodes[v].term, s.nodes[v].epoch.subterm + 1;
            Serves(s', v, q, s.nodes[v].log + [Entry(t, sub, 0)] + [Entry(t, sub, data)], ctx, from)
  {
    hide At, Quorate, Serves, Replicated;
    HalfCounts(cfg, v, q);
    var x := Spare(cfg, v, q);
    var run0, s0 := SwapIn(cfg, run, s, v, x);
    var run1, s1 := Extend(cfg, run0, s0, v, data);
    EndsOwn(s1.nodes[v].log, s0.nodes[v].log, Entry(s0.nodes[v].term, s0.nodes[v].epoch.subterm, data));
    hide TermAt, LastTerm, Leads;
    var run2, s2 := ReplicateAll(cfg, run1, s1, v, {v}, q - {v});
    assert {v} + (q - {v}) == q;
    var run3, s3 := CommitHalf(cfg, run2, s2, v, q);
    hide LeaderStays;
    run', s' := Serve(cfg, run3, s3, v, q, ctx, from);
    LedBy(s', v, q, s3.nodes[v].log, ctx, from);
  }

  /** From every state of every run, half of the voters and the witness suffice: a voter up to date with the half,
      that the witness agrees to, can be elected, have new data committed on the half, and answer a read with it. */
  lemma RecoversWithWitness(cfg: Config, run: seq<Cluster>, s: Cluster, v: NodeId, q: set<NodeId>, data: nat, ctx: R.Context, from: NodeId)
    returns (run': seq<Cluster>, s': Cluster)
    requires ValidConfig(cfg) && HasWitness(cfg) && At(cfg, run, s) && IsHalf(cfg, v, q) && v in s.nodes
    requires (forall u | u in q :: AsFresh(s, v, u)) && WitnessAgrees(s.wit, s.nodes[v].log, q)
    requires ctx != R.NO_CONTEXT && ctx !in s.h.reqs
    ensures At(cfg, run', s') && run <= run' && v in s.nodes && v in s'.nodes
    ensures var t := s'.nodes[v].term;
            Serves(s', v, q, s.nodes[v].log + [Entry(t, 0, 0), Entry(t, 1, 0), Entry(t, 1, data)], ctx, from)
  {
    hide At, Inv, Quorate, UpToDate, Serves, WitnessAgrees;
    AtInv(cfg, run, s);
    HalfCounts(cfg, v, q);
    var run1, s1 := CanBeElectedWithWitness(cfg, run, s, v, q);
    run', s' := CanServeWithWitness(cfg, run1, s1, v, q, data, ctx, from);
    var t := s1.nodes[v].term;
    assert s.nodes[v].log + [Entry(t, 0, 0)] + [Entry(t, 1, 0)] + [Entry(t, 1, data)]
        == s.nodes[v].log + [Entry(t, 0, 0), Entry(t, 1, 0), Entry(t, 1, data)];
  }
}
