/** What a leader of the highest term can always do: bring a quorum up to its log, commit it there and answer
    reads. Together with elections: every state of every run can be recovered from. */
module ClusterRecovery {
  import opened Quorum
  import opened RaftLogs
  import opened ClusterState
  import opened ClusterInv
  import opened ClusterHistory
  import opened ClusterAckSteps
  import opened ClusterSafety
  import opened ClusterAnswers
  import opened ClusterCommits
  import opened ClusterReads
  import opened ClusterProgress

  /** `v` leads and nobody has a later term. */
  predicate Leads(s: Cluster, v: NodeId) {
    IsRole(s, v, Leader) && forall u | u in s.nodes :: s.nodes[u].term <= s.nodes[v].term
  }

  lemma AtInv(cfg: Config, run: seq<Cluster>, s: Cluster)
    requires ValidConfig(cfg) && At(cfg, run, s)
    ensures Inv(cfg, s) && s.nodes.Keys == cfg.nodes
  {
    hide Inv, IsRun;
    RunInv(cfg, run, |run| - 1);
    OfHistory(cfg, s);
  }

  // ---- One follower ---------------------------------------------------------------------------------------------

  /** Whatever a replica has committed is in the log of the leader of the highest term. */
  lemma CommittedInLeader(cfg: Config, s: Cluster, v: NodeId, u: NodeId)
    requires ValidConfig(cfg) && Inv(cfg, s) && Leads(s, v) && u in s.nodes
    ensures s.nodes[u].committed <= |s.nodes[u].log| && s.nodes[u].committed <= |s.nodes[v].log|
    ensures s.nodes[u].log[..s.nodes[u].committed] == s.nodes[v].log[..s.nodes[u].committed]
  {
    hide Inv;
    OfNode(cfg, s, v);
    OfNode(cfg, s, u);
    OfHistory(cfg, s);
    hide LogsOk, CoversOk, CommitsOk, WitnessOk, GrantsOk, EpochOk, CandidateOk, QueueOk;
    var n, k := s.nodes[u], s.nodes[u].committed;
    if k > 0 {
      var c :| c in s.h.commits && Covers(s.h, c, n.log, k);
      NoLaterTerm(cfg, s, v, c.term);
      CommittedInTerm(cfg, s, s.nodes[v].term, c, n.log, k);
    }
  }

  lemma NoLaterTerm(cfg: Config, s: Cluster, v: NodeId, t: nat)
    requires Inv(cfg, s) && Leads(s, v) && t in s.h.logs
    ensures t <= s.nodes[v].term
  {
    hide Inv;
    OfHistory(cfg, s);
    assert t in s.h.elect;
    OfWinner(cfg, s, t);
  }

  /** Nobody else leads the same term. */
  lemma OnlyLeader(cfg: Config, s: Cluster, v: NodeId, u: NodeId)
    requires Inv(cfg, s) && IsRole(s, v, Leader) && u in s.nodes && u != v && s.nodes[u].term == s.nodes[v].term
    ensures s.nodes[u].role != Leader
  {
    hide Inv;
    OfNode(cfg, s, v);
    OfNode(cfg, s, u);
  }

  /** The append that continues what `u` has committed. */
  function Rest(v: NodeId, n: Node, u: NodeId, k: nat): Msg
    requires k <= |n.log|
  {
    AppendReq(v, u, n.term, k, TermAt(n.log, k), n.log[k..], n.committed)
  }

  lemma Send(cfg: Config, run: seq<Cluster>, s: Cluster, v: NodeId, u: NodeId, k: nat) returns (run': seq<Cluster>, s': Cluster)
    requires At(cfg, run, s) && IsRole(s, v, Leader) && u in cfg.nodes && u != v && k <= |s.nodes[v].log|
    ensures At(cfg, run', s') && run <= run' && s' == s.(msgs := s.msgs + {Rest(v, s.nodes[v], u, k)})
  {
    hide IsRun;
    var n := s.nodes[v];
    assert s.nodes[v := n] == s.nodes;
    assert n.log[k..|n.log|] == n.log[k..];
    run', s' := Do(cfg, run, s, SendAppend(v, u, k, |n.log|));
  }

  /** The receiver of a message of the highest term follows it. */
  lemma Follow(cfg: Config, run: seq<Cluster>, s: Cluster, v: NodeId, u: NodeId, m: Msg) returns (run': seq<Cluster>, s': Cluster)
    requires ValidConfig(cfg) && At(cfg, run, s) && Leads(s, v) && u in s.nodes && u != v
    requires m in s.msgs && (m.AppendReq? || m.Snapshot?) && m.from == v && m.term == s.nodes[v].term
    ensures At(cfg, run', s') && run <= run' && u in s'.nodes && s' == s.(nodes := s.nodes[u := s'.nodes[u]])
    ensures s'.nodes[u].term == s.nodes[v].term && s'.nodes[u].role != Leader
    ensures s'.nodes[u].log == s.nodes[u].log && s'.nodes[u].committed == s.nodes[u].committed && Leads(s', v)
  {
    hide IsRun, Inv;
    AtInv(cfg, run, s);
    if s.nodes[u].term < m.term {
      run', s' := Do(cfg, run, s, Observe(u, m));
    } else {
      OnlyLeader(cfg, s, v, u);
      assert s.nodes[u := s.nodes[u]] == s.nodes;
      run', s' := run, s;
    }
  }

  /** It takes over the leader's log. */
  lemma Accept(cfg: Config, run: seq<Cluster>, s: Cluster, v: NodeId, u: NodeId, k: nat, m: Msg) returns (run': seq<Cluster>, s': Cluster)
    requires ValidConfig(cfg) && At(cfg, run, s) && Leads(s, v) && u in s.nodes && u != v && k == s.nodes[u].committed
    requires s.nodes[u].term == s.nodes[v].term && s.nodes[u].role != Leader && k <= |s.nodes[v].log|
    requires m == Rest(v, s.nodes[v], u, k) && m in s.msgs
    ensures At(cfg, run', s') && run <= run' && u in s'.nodes && s'.nodes == s.nodes[u := s'.nodes[u]] && s'.h.reqs == s.h.reqs && s'.wit == s.wit
    ensures s'.nodes[u].log == s.nodes[v].log && s'.nodes[u].term == s.nodes[v].term && s'.nodes[u].role == Follower
    ensures AppendResp(u, v, s.nodes[v].term, |s.nodes[v].log|, false) in s'.msgs
  {
    hide IsRun, Inv, Spliced;
    AtInv(cfg, run, s);
    CommittedInLeader(cfg, s, v, u);
    assert TermAt(s.nodes[u].log, k) == TermAt(s.nodes[v].log, k);
    SplicedIsLeader(cfg, s, v, u, k, m);
    run', s' := Do(cfg, run, s, RecvAppend(u, m));
  }

  /** Nothing of the follower's own is left behind the leader's log. */
  lemma SplicedIsLeader(cfg: Config, s: Cluster, v: NodeId, u: NodeId, k: nat, m: Msg)
    requires ValidConfig(cfg) && Inv(cfg, s) && Leads(s, v) && u in s.nodes && k == s.nodes[u].committed <= |s.nodes[u].log|
    requires k <= |s.nodes[v].log| && TermAt(s.nodes[u].log, k) == TermAt(s.nodes[v].log, k)
    requires m == Rest(v, s.nodes[v], u, k) && m in s.msgs
    ensures Spliced(s.nodes[u].log, k, m.ents) == s.nodes[v].log
  {
    hide Inv, Spliced, MsgOk;
    OfNode(cfg, s, u);
    OfNode(cfg, s, v);
    OfMsg(cfg, s, m);
    OfHistory(cfg, s);
    hide CoversOk, CommitsOk, WitnessOk, GrantsOk, EpochOk, CandidateOk, QueueOk, LogsOk, Committed, ValidLog, TermAt;
    AcceptedFacts(cfg, s.h, s.nodes[u], m);
    var log, l := Spliced(s.nodes[u].log, k, m.ents), s.nodes[v].log;
    assert log[..|l|] == l[..|l|] == l;
    if log == s.nodes[u].log {
      NotLonger(cfg, s.h, log, s.nodes[v].term);
    }
  }

  /** A log that extends the log of its highest term is that log. */
  lemma NotLonger(cfg: Config, h: History, log: Log, t: nat)
    requires LogsOk(cfg, h) && ValidLog(h, log) && t in h.logs && h.logs[t] <= log && LastTerm(h.logs[t]) == t
    requires forall i | 0 <= i < |log| :: log[i].term <= t
    ensures log == h.logs[t]
  {
    var k := |h.logs[t]|;
    assert TermLogOk(h, t);
    if |log| > k {
      TermsGrow(cfg, h, log, k - 1, k);
      Within(h, log, k);
    }
  }

  lemma Within(h: History, log: Log, i: nat)
    requires ValidLog(h, log) && i < |log|
    ensures log[i].term in h.logs && i < |h.logs[log[i].term]|
  {
    assert EntryOk(h, log, i);
  }

  lemma Note(cfg: Config, run: seq<Cluster>, s: Cluster, v: NodeId, u: NodeId, k: nat) returns (run': seq<Cluster>, s': Cluster)
    requires At(cfg, run, s) && IsRole(s, v, Leader) && u != v && AppendResp(u, v, s.nodes[v].term, k, false) in s.msgs
    ensures At(cfg, run', s') && run <= run' && v in s'.nodes && s'.nodes == s.nodes[v := s.nodes[v].(matched := s'.nodes[v].matched)]
    ensures MatchOf(s'.nodes[v].matched, u) >= k && s'.h.reqs == s.h.reqs && s'.wit == s.wit
    ensures forall x | x != u :: MatchOf(s'.nodes[v].matched, x) == MatchOf(s.nodes[v].matched, x)
  {
    hide IsRun;
    run', s' := Do(cfg, run, s, RecvAppendResp(v, AppendResp(u, v, s.nodes[v].term, k, false)));
  }

  /** `ids` follow `v`, hold its whole log, and it knows. */
  predicate Replicated(s: Cluster, v: NodeId, ids: set<NodeId>) {
    && Leads(s, v)
    && forall u | u in ids ::
         && u in s.nodes && MatchOf(s.nodes[v].matched, u) >= |s.nodes[v].log|
         && (u != v ==> s.nodes[u].log == s.nodes[v].log && s.nodes[u].term == s.nodes[v].term && s.nodes[u].role == Follower)
  }

  /** Only followers and what the leader knows of them change. */
  predicate LeaderStays(s: Cluster, s': Cluster, v: NodeId) {
    && s'.nodes.Keys == s.nodes.Keys && v in s.nodes && s'.h.reqs == s.h.reqs && s'.wit == s.wit
    && s'.nodes[v] == s.nodes[v].(matched := s'.nodes[v].matched)
  }

  lemma Replicate(cfg: Config, run: seq<Cluster>, s: Cluster, v: NodeId, u: NodeId, done: set<NodeId>) returns (run': seq<Cluster>, s': Cluster)
    requires ValidConfig(cfg) && At(cfg, run, s) && Replicated(s, v, done) && u in cfg.nodes && u != v && u !in done
    ensures At(cfg, run', s') && run <= run' && Replicated(s', v, done + {u}) && LeaderStays(s, s', v)
  {
    hide IsRun, Inv, At;
    AtInv(cfg, run, s);
    CommittedInLeader(cfg, s, v, u);
    var k := s.nodes[u].committed;
    var m := Rest(v, s.nodes[v], u, k);
    run', s' := Send(cfg, run, s, v, u, k);
    run', s' := Follow(cfg, run', s', v, u, m);
    run', s' := Accept(cfg, run', s', v, u, k, m);
    run', s' := Note(cfg, run', s', v, u, |s.nodes[v].log|);
  }

  lemma {:induction false} ReplicateAll(cfg: Config, run: seq<Cluster>, s: Cluster, v: NodeId, done: set<NodeId>, todo: set<NodeId>)
    returns (run': seq<Cluster>, s': Cluster)
    requires ValidConfig(cfg) && At(cfg, run, s) && Replicated(s, v, done) && todo <= cfg.nodes && v !in todo && todo !! done
    ensures At(cfg, run', s') && run <= run' && Replicated(s', v, done + todo) && LeaderStays(s, s', v)
    decreases todo
  {
    hide At, Replicated;
    if todo == {} {
      assert done + todo == done;
      assert v in s.nodes by { assert Replicated(s, v, done); LeadsIn(s, v, done); }
      run', s' := run, s;
    } else {
      var u :| u in todo;
      run', s' := Replicate(cfg, run, s, v, u, done);
      run', s' := ReplicateAll(cfg, run', s', v, done + {u}, todo - {u});
      assert done + {u} + (todo - {u}) == done + todo;
    }
  }

  lemma LeadsIn(s: Cluster, v: NodeId, ids: set<NodeId>)
    requires Replicated(s, v, ids)
    ensures v in s.nodes
  {
  }

  /** A snapshot brings any replica to what it covers. */
  lemma CanCatchUp(cfg: Config, run: seq<Cluster>, s: Cluster, v: NodeId, u: NodeId, index: nat) returns (run': seq<Cluster>, s': Cluster)
    requires ValidConfig(cfg) && At(cfg, run, s) && Leads(s, v) && u in cfg.nodes && u != v && 0 < index <= s.nodes[v].committed
    ensures At(cfg, run', s') && run <= run' && u in s'.nodes && index <= |s.nodes[v].log|
    ensures s'.nodes[u].committed >= index && s.nodes[v].log[..index] <= s'.nodes[u].log
  {
    AtInv(cfg, run, s);
    CommittedInLeader(cfg, s, v, v);
    hide IsRun, Inv;
    var m := Snapshot(v, u, s.nodes[v].term, s.nodes[v].log[..index]);
    run', s' := Ship(cfg, run, s, v, u, index, m);
    run', s' := Follow(cfg, run', s', v, u, m);
    var k := SnapshotAnswered(cfg, run', |run'| - 1, u, m);
    run', s' := Do(cfg, run', s', RecvSnapshot(u, m));
  }

  lemma Ship(cfg: Config, run: seq<Cluster>, s: Cluster, v: NodeId, u: NodeId, index: nat, m: Msg) returns (run': seq<Cluster>, s': Cluster)
    requires At(cfg, run, s) && IsRole(s, v, Leader) && u in cfg.nodes && u != v && 0 < index <= s.nodes[v].committed <= |s.nodes[v].log|
    requires m == Snapshot(v, u, s.nodes[v].term, s.nodes[v].log[..index])
    ensures At(cfg, run', s') && run <= run' && s' == s.(msgs := s.msgs + {m})
  {
    hide IsRun;
    assert s.nodes[v := s.nodes[v]] == s.nodes;
    run', s' := Do(cfg, run, s, SendSnapshot(v, u, index));
  }

  // ---- Committing -----------------------------------------------------------------------------------------------

  lemma {:induction false} MatchBound(matched: map<NodeId, nat>, ids: set<NodeId>) returns (b: nat)
    ensures forall u | u in ids :: MatchOf(matched, u) <= b
    decreases ids
  {
    if ids == {} {
      b := 0;
    } else {
      var u :| u in ids;
      b := MatchBound(matched, ids - {u});
      if MatchOf(matched, u) > b { b := MatchOf(matched, u); }
    }
  }

  /** There always is a largest index a quorum has acknowledged. */
  lemma CommitIndexExists(cfg: Config, matched: map<NodeId, nat>) returns (k: nat)
    requires cfg.incoming != {}
    ensures IsCommitIndex(cfg, matched, k)
  {
    var voters := cfg.incoming + cfg.outgoing;
    k := MatchBound(matched, voters);
    forall j | j > k ensures !Quorate(cfg, AckedBy(voters, matched, j)) {
      assert cfg.incoming * AckedBy(voters, matched, j) == {};
    }
    assert AckedBy(voters, matched, 0) == voters;
    assert cfg.incoming * voters == cfg.incoming && cfg.outgoing * voters == cfg.outgoing;
    hide Quorate, AckedBy;
    while !Quorate(cfg, AckedBy(voters, matched, k))
      invariant forall j | j > k :: !Quorate(cfg, AckedBy(voters, matched, j))
      decreases k
    {
      k := k - 1;
    }
  }

  lemma ShortcutIndexExists(cfg: Config, n: Node) returns (k: nat)
    requires |cfg.incoming| >= 2 && n.epoch.excluded in cfg.incoming
    ensures IsShortcutIndex(cfg, n, k)
  {
    var r := ReplicationSet(cfg, n);
    k := MatchBound(n.matched, r);
    forall j | j > k ensures |AckedBy(r, n.matched, j)| < |cfg.incoming| / 2 {
      assert AckedBy(r, n.matched, j) == {};
    }
    assert AckedBy(r, n.matched, 0) == r && |r| == |cfg.incoming| - 1;
    hide AckedBy;
    while |AckedBy(r, n.matched, k)| < |cfg.incoming| / 2
      invariant forall j | j > k :: |AckedBy(r, n.matched, j)| < |cfg.incoming| / 2
      decreases k
    {
      k := k - 1;
    }
  }

  /** A leader can always look at its commit index. */
  lemma MayCommit(cfg: Config, s: Cluster, v: NodeId) returns (a: Action)
    requires ValidConfig(cfg) && Inv(cfg, s) && IsRole(s, v, Leader)
    ensures a.MaybeCommit? && a.v == v && Enabled(cfg, s, a)
  {
    hide Inv, IsShortcutIndex, IsCommitIndex, Shortcut;
    var shortcut := 0;
    if ReplicatesToWitness(cfg, s.nodes[v]) {
      OfNode(cfg, s, v);
      shortcut := ShortcutIndexExists(cfg, s.nodes[v]);
    }
    var index := CommitIndexExists(cfg, Shortcut(cfg, s.nodes[v], v, shortcut).matched);
    a := MaybeCommit(v, shortcut, index);
  }

  lemma Commit(cfg: Config, run: seq<Cluster>, s: Cluster, v: NodeId, q: set<NodeId>) returns (run': seq<Cluster>, s': Cluster)
    requires ValidConfig(cfg) && At(cfg, run, s) && Replicated(s, v, q) && Quorate(cfg, q) && LastTerm(s.nodes[v].log) == s.nodes[v].term
    ensures At(cfg, run', s') && run <= run' && Replicated(s', v, q) && s'.nodes[v].committed == |s.nodes[v].log|
    ensures s'.nodes[v].log == s.nodes[v].log && s'.nodes[v].term == s.nodes[v].term && s'.h.reqs == s.h.reqs
    ensures s'.nodes == s.nodes[v := s'.nodes[v]]
  {
    hide IsRun, Inv, Enabled, Apply, Quorate;
    AtInv(cfg, run, s);
    TermIsPositive(cfg, s, v);
    var k := |s.nodes[v].log|;
    var a := MayCommit(cfg, s, v);
    run', s' := Do(cfg, run, s, a);
    Recounts(cfg, s, a);
    AllCount(cfg, s.nodes[v], q, k);
    CommitLaw(cfg, run, |run| - 1, v, a.shortcut, a.index, k);
    assert Committable(cfg, s.nodes[v], k);
    AtInv(cfg, run', s');
    OfNode(cfg, s', v);
  }

  lemma AllCount(cfg: Config, n: Node, q: set<NodeId>, k: nat)
    requires Quorate(cfg, q) && forall u | u in q :: MatchOf(n.matched, u) >= k
    ensures Quorate(cfg, Counted(cfg, n, k))
  {
    var voters := cfg.incoming + cfg.outgoing;
    assert cfg.incoming * q == cfg.incoming * (voters * q) && cfg.outgoing * q == cfg.outgoing * (voters * q);
    assert voters * q <= Counted(cfg, n, k);
    QuorumMonotone(cfg.incoming, cfg.outgoing, voters * q, Counted(cfg, n, k));
  }

  /** Looking at the commit index changes the leader only, and takes back nothing it knows. */
  lemma Recounts(cfg: Config, s: Cluster, a: Action)
    requires a.MaybeCommit? && Enabled(cfg, s, a)
    ensures var s' := Apply(cfg, s, a);
            && a.v in s.nodes && a.v in s'.nodes && s'.nodes == s.nodes[a.v := s'.nodes[a.v]] && s'.h.reqs == s.h.reqs
            && s'.nodes[a.v] == s.nodes[a.v].(matched := s'.nodes[a.v].matched, epoch := s'.nodes[a.v].epoch, committed := s'.nodes[a.v].committed)
            && forall u :: MatchOf(s.nodes[a.v].matched, u) <= MatchOf(s'.nodes[a.v].matched, u)
  {
    hide IsShortcutIndex, IsCommitIndex;
  }

  // ---- Reading ----------------------------------------------------------------------------------------------------

  /** The read `ctx` of `from` is queued at `v` with the end of its log, and `ids` have acknowledged it. */
  predicate Reading(s: Cluster, v: NodeId, ctx: R.Context, from: NodeId, ids: set<NodeId>) {
    && v in s.nodes && ctx in s.nodes[v].pend.queue && ctx in s.nodes[v].pend.status && ctx != R.NO_CONTEXT
    && s.nodes[v].pend.status[ctx].index == |s.nodes[v].log| && s.nodes[v].pend.status[ctx].from == from
    && ids <= s.nodes[v].pend.status[ctx].acks
  }

  /** Everything in the log is committed, by the leader and by `ids`. */
  predicate Done(s: Cluster, v: NodeId, ids: set<NodeId>) {
    v in s.nodes && s.nodes[v].committed == |s.nodes[v].log| && forall u | u in ids :: u in s.nodes && s.nodes[u].committed == |s.nodes[v].log|
  }

  lemma StartRead(cfg: Config, run: seq<Cluster>, s: Cluster, v: NodeId, q: set<NodeId>, ctx: R.Context, from: NodeId)
    returns (run': seq<Cluster>, s': Cluster)
    requires ValidConfig(cfg) && At(cfg, run, s) && Replicated(s, v, q) && Done(s, v, {v}) && LastTerm(s.nodes[v].log) == s.nodes[v].term
    requires ctx != R.NO_CONTEXT && ctx !in s.h.reqs
    ensures At(cfg, run', s') && run <= run' && Replicated(s', v, q) && Done(s', v, {v}) && Reading(s', v, ctx, from, {v})
    ensures s'.nodes[v].log == s.nodes[v].log && s'.nodes[v].term == s.nodes[v].term
  {
    hide IsRun, Inv, HighestCommit;
    AtInv(cfg, run, s);
    NotPending(cfg, s, v, ctx);
    run', s' := Do(cfg, run, s, AcceptRead(v, ctx, from));
  }

  lemma NotPending(cfg: Config, s: Cluster, v: NodeId, ctx: R.Context)
    requires Inv(cfg, s) && IsRole(s, v, Leader) && ctx !in s.h.reqs
    ensures ctx !in s.nodes[v].pend.status
  {
    hide Inv;
    OfNode(cfg, s, v);
    if ctx in s.nodes[v].pend.status { PendingKnown(s.h, s.nodes[v], ctx); }
  }

  lemma PendingKnown(h: History, n: Node, c: R.Context)
    requires n.role == Leader && n.term in h.logs && QueueOk(h, n) && c in n.pend.status
    ensures c in h.reqs
  {
    assert PendingOk(h, n, c);
  }

  /** A heartbeat tells a follower what is committed, and its answer counts for the read. */
  lemma Beat(cfg: Config, run: seq<Cluster>, s: Cluster, v: NodeId, q: set<NodeId>, u: NodeId, ctx: R.Context, from: NodeId, done: set<NodeId>)
    returns (run': seq<Cluster>, s': Cluster)
    requires ValidConfig(cfg) && At(cfg, run, s) && Replicated(s, v, q) && u in q && u != v
    requires Done(s, v, done) && Reading(s, v, ctx, from, done)
    ensures At(cfg, run', s') && run <= run' && Replicated(s', v, q) && Done(s', v, done + {u}) && Reading(s', v, ctx, from, done + {u})
    ensures s'.nodes[v].log == s.nodes[v].log && s'.nodes[v].term == s.nodes[v].term
  {
    hide IsRun, Inv;
    AtInv(cfg, run, s);
    CommittedInLeader(cfg, s, v, u);
    var n := s.nodes[v];
    var hb := Heartbeat(v, u, n.term, |n.log|, ctx);
    var resp := HeartbeatResp(u, v, n.term, ctx);
    run', s' := Pulse(cfg, run, s, v, u, ctx, hb);
    run', s' := Reply(cfg, run', s', u, hb);
    run', s' := Mark(cfg, run', s', v, resp);
  }

  lemma Pulse(cfg: Config, run: seq<Cluster>, s: Cluster, v: NodeId, u: NodeId, ctx: R.Context, hb: Msg) returns (run': seq<Cluster>, s': Cluster)
    requires At(cfg, run, s) && IsRole(s, v, Leader) && u in cfg.nodes && u != v && ctx in s.nodes[v].pend.status
    requires hb == Heartbeat(v, u, s.nodes[v].term, Min(MatchOf(s.nodes[v].matched, u), s.nodes[v].committed), ctx)
    ensures At(cfg, run', s') && run <= run' && s' == s.(msgs := s.msgs + {hb})
  {
    hide IsRun;
    assert s.nodes[v := s.nodes[v]] == s.nodes;
    run', s' := Do(cfg, run, s, SendHeartbeat(v, u, ctx));
  }

  lemma Reply(cfg: Config, run: seq<Cluster>, s: Cluster, u: NodeId, hb: Msg) returns (run': seq<Cluster>, s': Cluster)
    requires At(cfg, run, s) && u in s.nodes && s.nodes[u].role == Follower && hb in s.msgs && hb.Heartbeat? && hb.to == u
    requires hb.term == s.nodes[u].term && s.nodes[u].committed <= hb.commit == |s.nodes[u].log|
    ensures At(cfg, run', s') && run <= run' && s' == s.(nodes := s'.nodes, msgs := s.msgs + {HeartbeatResp(u, hb.from, hb.term, hb.ctx)})
    ensures s'.nodes.Keys == s.nodes.Keys && s'.nodes == s.nodes[u := s'.nodes[u]] && s'.nodes[u].committed == hb.commit
    ensures s'.nodes[u].log == s.nodes[u].log && s'.nodes[u].term == s.nodes[u].term && s'.nodes[u].role == Follower
  {
    hide IsRun;
    run', s' := Do(cfg, run, s, RecvHeartbeat(u, hb));
  }

  lemma Mark(cfg: Config, run: seq<Cluster>, s: Cluster, v: NodeId, resp: Msg) returns (run': seq<Cluster>, s': Cluster)
    requires At(cfg, run, s) && IsRole(s, v, Leader) && resp in s.msgs && resp.HeartbeatResp? && resp.to == v && resp.term == s.nodes[v].term
    requires resp.ctx in s.nodes[v].pend.status
    ensures At(cfg, run', s') && run <= run' && s'.nodes.Keys == s.nodes.Keys && s'.msgs == s.msgs
    ensures s'.nodes == s.nodes[v := s.nodes[v].(pend := s'.nodes[v].pend)] && s'.nodes[v].pend.queue == s.nodes[v].pend.queue
    ensures var st := s.nodes[v].pend.status; s'.nodes[v].pend.status == st[resp.ctx := st[resp.ctx].(acks := st[resp.ctx].acks + {resp.from})]
  {
    hide IsRun;
    run', s' := Do(cfg, run, s, RecvHeartbeatResp(v, resp));
  }

  lemma {:induction false} BeatAll(cfg: Config, run: seq<Cluster>, s: Cluster, v: NodeId, q: set<NodeId>, ctx: R.Context, from: NodeId,
                                   done: set<NodeId>, todo: set<NodeId>) returns (run': seq<Cluster>, s': Cluster)
    requires ValidConfig(cfg) && At(cfg, run, s) && Replicated(s, v, q) && todo <= q && v !in todo
    requires Done(s, v, done) && Reading(s, v, ctx, from, done)
    ensures At(cfg, run', s') && run <= run' && Replicated(s', v, q) && Done(s', v, done + todo) && Reading(s', v, ctx, from, done + todo)
    ensures v in s.nodes && v in s'.nodes && s'.nodes[v].log == s.nodes[v].log && s'.nodes[v].term == s.nodes[v].term
    decreases todo
  {
    LeadsIn(s, v, q);
    hide At, Replicated, Done, Reading, ValidConfig;
    if todo == {} {
      assert done + todo == done;
      run', s' := run, s;
    } else {
      var u :| u in todo;
      var run1, s1 := Beat(cfg, run, s, v, q, u, ctx, from, done);
      run', s' := BeatAll(cfg, run1, s1, v, q, ctx, from, done + {u}, todo - {u});
      assert done + {u} + (todo - {u}) == done + todo;
    }
  }

  lemma Release(cfg: Config, run: seq<Cluster>, s: Cluster, v: NodeId, q: set<NodeId>, ctx: R.Context, from: NodeId)
    returns (run': seq<Cluster>, s': Cluster)
    requires At(cfg, run, s) && IsRole(s, v, Leader) && Quorate(cfg, q + {cfg.wid}) && Reading(s, v, ctx, from, q)
    ensures At(cfg, run', s') && run <= run' && s'.nodes.Keys == s.nodes.Keys
    ensures s'.nodes == s.nodes[v := s.nodes[v].(pend := s'.nodes[v].pend, readStates := s'.nodes[v].readStates)]
    ensures Answered(s', if from == INVALID_ID then v else from, ReadState(|s.nodes[v].log|, ctx))
  {
    hide IsRun, Quorate;
    var n := s.nodes[v];
    InReleased(n.pend, ctx);
    Acknowledged(cfg, q, n.pend.status[ctx].acks);
    hide R.Released, R.Advance;
    run', s' := Do(cfg, run, s, ReleaseReads(v, ctx));
    var r, to := ReadState(|n.log|, ctx), if from == INVALID_ID then v else from;
    if from in {INVALID_ID, v} {
      assert r in OwnAnswers(n.pend, v, ctx);
    } else {
      var m := ReadResp(v, from, n.term, |n.log|, ctx);
      assert m in Answers(n.pend, v, n.term, ctx);
      assert Carries(m, to, r);
    }
  }

  lemma Acknowledged(cfg: Config, q: set<NodeId>, acks: set<NodeId>)
    requires Quorate(cfg, q + {cfg.wid}) && q <= acks
    ensures Quorate(cfg, acks + {cfg.wid})
  {
    QuorumMonotone(cfg.incoming, cfg.outgoing, q + {cfg.wid}, acks + {cfg.wid});
  }

  lemma InReleased(q: R.Queue, ctx: R.Context)
    requires ctx in q.queue
    ensures ctx in R.Released(q, ctx)
  {
    var i := R.Position(q.queue, ctx);
    assert q.queue[..|q.queue|] == q.queue;
    assert i < |q.queue| && q.queue[..i + 1][i] == ctx;
  }

  /** Tells everybody what is committed, and answers a read meanwhile. */
  lemma Serve(cfg: Config, run: seq<Cluster>, s: Cluster, v: NodeId, q: set<NodeId>, ctx: R.Context, from: NodeId)
    returns (run': seq<Cluster>, s': Cluster)
    requires ValidConfig(cfg) && At(cfg, run, s) && Replicated(s, v, q) && v in q && Quorate(cfg, q + {cfg.wid}) && Done(s, v, {v})
    requires LastTerm(s.nodes[v].log) == s.nodes[v].term && ctx != R.NO_CONTEXT && ctx !in s.h.reqs
    ensures At(cfg, run', s') && run <= run' && Serves(s', v, q, s.nodes[v].log, ctx, from) && s'.nodes[v].term == s.nodes[v].term
  {
    hide At, Quorate, TermAt, Answered;
    run', s' := StartRead(cfg, run, s, v, q, ctx, from);
    run', s' := BeatAll(cfg, run', s', v, q, ctx, from, {v}, q - {v});
    assert {v} + (q - {v}) == q;
    run', s' := Release(cfg, run', s', v, q, ctx, from);
  }

  /** `v` leads with `log`, everybody in `q` holds and has committed it, and the read is answered with its end. */
  ghost predicate Serves(s: Cluster, v: NodeId, q: set<NodeId>, log: Log, ctx: R.Context, from: NodeId) {
    && IsRole(s, v, Leader) && s.nodes[v].log == log
    && (forall u | u in q :: u in s.nodes && s.nodes[u].log == log && s.nodes[u].committed == |log|)
    && Answered(s, if from == INVALID_ID then v else from, ReadState(|log|, ctx))
  }

  // ---- Recovery ---------------------------------------------------------------------------------------------------

  /** A leader appends and stores it. */
  lemma Extend(cfg: Config, run: seq<Cluster>, s: Cluster, v: NodeId, data: nat) returns (run': seq<Cluster>, s': Cluster)
    requires ValidConfig(cfg) && At(cfg, run, s) && Leads(s, v)
    ensures At(cfg, run', s') && run <= run' && Replicated(s', v, {v}) && s'.nodes == s.nodes[v := s'.nodes[v]] && s'.wit == s.wit
    ensures s'.nodes[v].log == s.nodes[v].log + [Entry(s.nodes[v].term, s.nodes[v].epoch.subterm, data)]
    ensures s'.nodes[v].term == s.nodes[v].term && s'.nodes[v].epoch == s.nodes[v].epoch && s'.h.reqs == s.h.reqs
  {
    hide IsRun, Inv;
    AtInv(cfg, run, s);
    OfNode(cfg, s, v);
    hide EpochOk, CandidateOk, QueueOk;
    run', s' := Do(cfg, run, s, Propose(v, data));
    run', s' := Do(cfg, run', s', Persist(v, |s'.nodes[v].log|));
  }

  /** A leader of the highest term gets any data onto any quorum, committed, and answers reads with it. */
  lemma CanServe(cfg: Config, run: seq<Cluster>, s: Cluster, v: NodeId, q: set<NodeId>, data: nat, ctx: R.Context, from: NodeId)
    returns (run': seq<Cluster>, s': Cluster)
    requires ValidConfig(cfg) && At(cfg, run, s) && Leads(s, v) && v in q && q <= cfg.nodes && Quorate(cfg, q)
    requires ctx != R.NO_CONTEXT && ctx !in s.h.reqs
    ensures At(cfg, run', s') && run <= run' && v in s'.nodes && s'.nodes[v].term == s.nodes[v].term
    ensures Serves(s', v, q, s.nodes[v].log + [Entry(s.nodes[v].term, s.nodes[v].epoch.subterm, data)], ctx, from)
  {
    hide At, Quorate, Serves, Replicated;
    var run1, s1 := Extend(cfg, run, s, v, data);
    EndsOwn(s1.nodes[v].log, s.nodes[v].log, Entry(s.nodes[v].term, s.nodes[v].epoch.subterm, data));
    hide TermAt, LastTerm, Leads;
    var run2, s2 := ReplicateAll(cfg, run1, s1, v, {v}, q - {v});
    assert {v} + (q - {v}) == q;
    var run3, s3 := Commit(cfg, run2, s2, v, q);
    hide LeaderStays;
    CountsWitness(cfg, q);
    run', s' := Serve(cfg, run3, s3, v, q, ctx, from);
    LedBy(s', v, q, s3.nodes[v].log, ctx, from);
  }

  lemma LedBy(s: Cluster, v: NodeId, q: set<NodeId>, log: Log, ctx: R.Context, from: NodeId)
    requires Serves(s, v, q, log, ctx, from)
    ensures v in s.nodes
  {
  }

  lemma EndsOwn(log: Log, before: Log, e: Entry)
    requires log == before + [e]
    ensures LastTerm(log) == e.term
  {
  }

  lemma CountsWitness(cfg: Config, q: set<NodeId>)
    requires Quorate(cfg, q)
    ensures Quorate(cfg, q + {cfg.wid})
  {
    QuorumMonotone(cfg.incoming, cfg.outgoing, q, q + {cfg.wid});
  }

  /** From every state of every run, whatever was lost and whoever led: a voter up to date with every replica of
      a quorum can be elected, have new data committed on all of them, and answer a read with it. */
  lemma Recovers(cfg: Config, run: seq<Cluster>, s: Cluster, v: NodeId, q: set<NodeId>, data: nat, ctx: R.Context, from: NodeId)
    returns (run': seq<Cluster>, s': Cluster)
    requires ValidConfig(cfg) && At(cfg, run, s) && v in cfg.incoming + cfg.outgoing && v in q && Quorate(cfg, q)
    requires (forall u | u in q :: AsFresh(s, v, u)) && ctx != R.NO_CONTEXT && ctx !in s.h.reqs
    ensures At(cfg, run', s') && run <= run' && v in s.nodes && v in s'.nodes
    ensures var t := s'.nodes[v].term; Serves(s', v, q, s.nodes[v].log + [Entry(t, 0, 0), Entry(t, 0, data)], ctx, from)
  {
    hide At, Inv, Quorate, UpToDate, Serves;
    AtInv(cfg, run, s);
    var run1, s1 := CanBeElected(cfg, run, s, v, q);
    run', s' := CanServe(cfg, run1, s1, v, q, data, ctx, from);
    var t := s1.nodes[v].term;
    assert s.nodes[v].log + [Entry(t, 0, 0)] + [Entry(t, 0, data)] == s.nodes[v].log + [Entry(t, 0, 0), Entry(t, 0, data)];
  }
}
