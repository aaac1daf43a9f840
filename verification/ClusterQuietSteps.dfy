/** The actions that add nothing to the history keep the invariant. */
module ClusterQuietSteps {
  import opened Quorum
  import opened RaftLogs
  import opened ClusterState
  import opened ClusterInv
  import opened ClusterHistory
  import opened ClusterGrowth

  lemma FollowerOk(cfg: Config, h: History, v: NodeId, n: Node, t: nat, lead: NodeId)
    requires NodeOk(cfg, h, v, n) && t >= n.term
    ensures NodeOk(cfg, h, v, BecomeFollower(n, t, lead))
    ensures Keeps(n, BecomeFollower(n, t, lead))
  {
  }

  lemma FollowingOk(cfg: Config, h: History, v: NodeId, n: Node, from: NodeId)
    requires NodeOk(cfg, h, v, n) && n.role != Leader
    ensures NodeOk(cfg, h, v, Following(n, from)) && Following(n, from).role == Follower
    ensures Keeps(n, Following(n, from))
    ensures Following(n, from).term == n.term && Following(n, from).vote == n.vote
    ensures Following(n, from).log == n.log && Following(n, from).committed == n.committed
  {
    FollowerOk(cfg, h, v, n, n.term, from);
  }

  lemma StepObserve(cfg: Config, s: Cluster, v: NodeId, m: Msg)
    requires ValidConfig(cfg) && Inv(cfg, s) && Enabled(cfg, s, Observe(v, m))
    ensures Inv(cfg, Apply(cfg, s, Observe(v, m)))
  {
    hide Inv;
    var lead := if m.AppendReq? || m.Heartbeat? || m.Snapshot? then m.from else INVALID_ID;
    OfNode(cfg, s, v);
    FollowerOk(cfg, s.h, v, s.nodes[v], m.term, lead);
    QuietStep(cfg, s, v, BecomeFollower(s.nodes[v], m.term, lead), {});
  }

  lemma StepStepDown(cfg: Config, s: Cluster, v: NodeId)
    requires ValidConfig(cfg) && Inv(cfg, s) && Enabled(cfg, s, StepDown(v))
    ensures Inv(cfg, Apply(cfg, s, StepDown(v)))
  {
    hide Inv;
    OfNode(cfg, s, v);
    FollowerOk(cfg, s.h, v, s.nodes[v], s.nodes[v].term, INVALID_ID);
    QuietStep(cfg, s, v, BecomeFollower(s.nodes[v], s.nodes[v].term, INVALID_ID), {});
  }

  /** A replica's commit index as vote messages report it. */
  lemma ReportOk(cfg: Config, h: History, n: Node)
    requires ReplicaOk(h, n)
    ensures CommitInfoOk(h, n.committed, TermAt(n.log, n.committed))
  {
    if n.committed != 0 {
      var c :| c in h.commits && Covers(h, c, n.log, n.committed);
      assert n.log[n.committed - 1] == n.log[..n.committed][n.committed - 1] == h.logs[c.term][n.committed - 1];
      assert Informs(h, c, n.committed, TermAt(n.log, n.committed));
    }
  }

  lemma StepPreCampaign(cfg: Config, s: Cluster, v: NodeId)
    requires ValidConfig(cfg) && Inv(cfg, s) && Enabled(cfg, s, PreCampaign(v))
    ensures Inv(cfg, Apply(cfg, s, PreCampaign(v)))
  {
    hide Inv;
    OfNode(cfg, s, v);
    var n := BecomePreCandidate(s.nodes[v], v);
    ReportOk(cfg, s.h, n);
    QuietStep(cfg, s, v, n,
              {VoteReq(v, n.term + 1, true, |n.log|, LastTerm(n.log), n.committed, TermAt(n.log, n.committed))});
  }

  /** Committing at an index whose entry has the reported term commits what was reported. */
  lemma CommitAtOk(cfg: Config, h: History, n: Node, index: nat, term: nat)
    requires LogsOk(cfg, h) && ReplicaOk(h, n) && CommitInfoOk(h, index, term)
    requires n.role != Leader && term != 0
    ensures ReplicaOk(h, Synced(CommitAt(n, index, term)))
  {
    if index > n.committed && index <= |n.log| && TermAt(n.log, index) == term {
      var c :| c in h.commits && Informs(h, c, index, term);
      TermLogValid(cfg, h, c.term);
      LogMatching(h, n.log, h.logs[c.term], index);
      assert Covers(h, c, n.log, index);
    }
  }

  lemma CommitByVoteOk(cfg: Config, h: History, v: NodeId, n: Node, commit: nat, commitTerm: nat)
    requires LogsOk(cfg, h) && NodeOk(cfg, h, v, n) && CommitInfoOk(h, commit, commitTerm)
    ensures NodeOk(cfg, h, v, CommitByVote(n, commit, commitTerm))
    ensures Keeps(n, CommitByVote(n, commit, commitTerm))
  {
    if commit != 0 && commitTerm != 0 && n.role != Leader { CommitAtOk(cfg, h, n, commit, commitTerm); }
  }

  lemma StepRefuseVote(cfg: Config, s: Cluster, v: NodeId, m: Msg)
    requires ValidConfig(cfg) && Inv(cfg, s) && v in s.nodes && m in s.msgs && m.VoteReq?
    ensures Inv(cfg, Put(s, v, CommitByVote(s.nodes[v], m.commit, m.commitTerm), {VoteAnswer(v, s.nodes[v], m, false)}, s.h))
  {
    hide Inv;
    OfHistory(cfg, s);
    OfNode(cfg, s, v);
    OfMsg(cfg, s, m);
    CommitByVoteOk(cfg, s.h, v, s.nodes[v], m.commit, m.commitTerm);
    ReportOk(cfg, s.h, s.nodes[v]);
    QuietStep(cfg, s, v, CommitByVote(s.nodes[v], m.commit, m.commitTerm), {VoteAnswer(v, s.nodes[v], m, false)});
  }

  lemma StepRecvPreVote(cfg: Config, s: Cluster, v: NodeId, m: Msg, deny: bool)
    requires ValidConfig(cfg) && Inv(cfg, s) && Enabled(cfg, s, RecvPreVote(v, m, deny))
    ensures Inv(cfg, Apply(cfg, s, RecvPreVote(v, m, deny)))
  {
    hide Inv;
    var n := s.nodes[v];
    OfNode(cfg, s, v);
    if m.term < n.term {
      QuietStep(cfg, s, v, n, {VoteResp(v, m.from, n.term, true, true, 0, 0)});
    } else if CanVote(n, m) && !deny {
      QuietStep(cfg, s, v, n, {VoteAnswer(v, n, m, true)});
    } else {
      StepRefuseVote(cfg, s, v, m);
    }
  }

  lemma StepCommitFromVoteResp(cfg: Config, s: Cluster, v: NodeId, m: Msg)
    requires ValidConfig(cfg) && Inv(cfg, s) && Enabled(cfg, s, CommitFromVoteResp(v, m))
    ensures Inv(cfg, Apply(cfg, s, CommitFromVoteResp(v, m)))
  {
    hide Inv;
    OfHistory(cfg, s);
    OfNode(cfg, s, v);
    OfMsg(cfg, s, m);
    CommitByVoteOk(cfg, s.h, v, s.nodes[v], m.commit, m.commitTerm);
    QuietStep(cfg, s, v, CommitByVote(s.nodes[v], m.commit, m.commitTerm), {});
  }

  /** Once the witness has voted for a candidate, the votes it was shown and its own are a quorum. */
  lemma WitnessVoteWins(cfg: Config, s: Cluster, v: NodeId, votes: map<NodeId, bool>)
    requires ValidConfig(cfg) && HasWitness(cfg) && GrantsOk(cfg, s) && IsRole(s, v, Candidate)
    requires PolledOk(s.msgs, v, s.nodes[v])
    requires Vote(cfg.wid, s.nodes[v].term, v) in s.h.votes
    requires GrantedSet(s.nodes[v].votes) <= GrantedSet(votes) && cfg.wid in GrantedSet(votes)
    ensures Quorate(cfg, GrantedSet(votes))
  {
    assert HasGrant(s.h, Vote(cfg.wid, s.nodes[v].term, v));
    var g :| g in s.h.grants && g.term == s.nodes[v].term && g.cand == v;
    assert GrantOk(cfg, s.h, g);
    assert PollOf(g).granted <= GrantedSet(s.nodes[v].votes);
    var a := cfg.incoming * g.granted + {cfg.wid};
    assert |a| == |cfg.incoming * g.granted| + 1;
    SubsetSize(a, cfg.incoming * GrantedSet(votes));
  }

  lemma StepRecvVoteResp(cfg: Config, s: Cluster, v: NodeId, m: Msg)
    requires ValidConfig(cfg) && Inv(cfg, s) && Enabled(cfg, s, RecvVoteResp(v, m))
    ensures Inv(cfg, Apply(cfg, s, RecvVoteResp(v, m)))
  {
    hide Inv;
    OfHistory(cfg, s);
    var n := s.nodes[v];
    var n' := if m.from in n.votes then n else n.(votes := n.votes[m.from := !m.reject]);
    OfNode(cfg, s, v);
    OfMsg(cfg, s, m);
    assert GrantedSet(n.votes) <= GrantedSet(n'.votes) <= GrantedSet(n.votes) + {m.from};
    if n.role == Candidate {
      assert m.from in GrantedSet(n'.votes) && m.from !in GrantedSet(n.votes) ==> Vote(m.from, n.term, v) in s.h.votes;
      if HasWitness(cfg) && cfg.wid in GrantedSet(n'.votes) {
        WitnessVoteWins(cfg, s, v, n'.votes);
      }
    }
    QuietStep(cfg, s, v, n', {});
  }

  lemma StepPollWitness(cfg: Config, s: Cluster, v: NodeId)
    requires ValidConfig(cfg) && Inv(cfg, s) && Enabled(cfg, s, PollWitness(v))
    ensures Inv(cfg, Apply(cfg, s, PollWitness(v)))
  {
    hide Inv;
    var n := s.nodes[v];
    OfNode(cfg, s, v);
    var term := if n.role == PreCandidate then n.term + 1 else n.term;
    QuietStep(cfg, s, v, n, {WitnessVoteReq(v, term, n.role == PreCandidate, LastTerm(n.log), LastSubterm(n.log),
                                            GrantedSet(n.votes))});
  }

  lemma StepRejectAppend(cfg: Config, s: Cluster, v: NodeId, m: Msg)
    requires ValidConfig(cfg) && Inv(cfg, s) && Enabled(cfg, s, RecvAppend(v, m))
    requires !HandleAppend(Following(s.nodes[v], m.from), m.prev, m.prevTerm, m.ents, m.commit).1
    ensures Inv(cfg, Apply(cfg, s, RecvAppend(v, m)))
  {
    hide Inv;
    OfNode(cfg, s, v);
    FollowingOk(cfg, s.h, v, s.nodes[v], m.from);
    var n := Following(s.nodes[v], m.from);
    QuietStep(cfg, s, v, n, {AppendResp(v, m.from, n.term, m.prev, true)});
  }

  /** What a leader's heartbeat may commit: the follower acknowledged it in this very term. */
  lemma HeartbeatCommits(cfg: Config, s: Cluster, v: NodeId, n: Node, t: nat, commit: nat)
    requires Inv(cfg, s) && v in s.nodes && n.role != Leader && ReplicaOk(s.h, n)
    requires n.log == s.nodes[v].log && n.term == s.nodes[v].term == t
    requires n.committed == s.nodes[v].committed
    requires t in s.h.logs && commit <= |s.h.logs[t]| && Committed(s.h, s.h.logs[t], commit)
    requires commit > 0 ==> v in AckSet(s.h, t, commit)
    ensures ReplicaOk(s.h, HandleHeartbeat(n, commit))
  {
    hide Inv;
    var k := Min(commit, |n.log|);
    if k > n.committed {
      var a :| a in s.h.acks && a.term == t && a.index >= commit && a.node == v;
      OfAck(cfg, s, a);
      OfNode(cfg, s, v);
      assert Kept(s.h, s.nodes[v], t, k);
      assert s.h.logs[t][..k] == n.log[..k];
      var c :| c in s.h.commits && Covers(s.h, c, s.h.logs[t], commit);
      assert n.log[..k] == s.h.logs[t][..commit][..k] == s.h.logs[c.term][..commit][..k];
      assert Covers(s.h, c, n.log, k);
    }
  }

  lemma StepRecvHeartbeat(cfg: Config, s: Cluster, v: NodeId, m: Msg)
    requires ValidConfig(cfg) && Inv(cfg, s) && Enabled(cfg, s, RecvHeartbeat(v, m))
    ensures Inv(cfg, Apply(cfg, s, RecvHeartbeat(v, m)))
  {
    hide Inv;
    OfNode(cfg, s, v);
    OfMsg(cfg, s, m);
    FollowingOk(cfg, s.h, v, s.nodes[v], m.from);
    var f := Following(s.nodes[v], m.from);
    HeartbeatCommits(cfg, s, v, f, m.term, m.commit);
    var n := HandleHeartbeat(f, m.commit);
    var resp := HeartbeatResp(v, m.from, n.term, m.ctx);
    if m.ctx != R.NO_CONTEXT {
      BehindNow(cfg, s, v, s.h.reqs[m.ctx]);
    }
    QuietStep(cfg, s, v, n, {resp});
  }

  /** A replica that is in the request's term has not voted in a later one. */
  lemma BehindNow(cfg: Config, s: Cluster, v: NodeId, r: ReadRecord)
    requires ValidConfig(cfg) && Inv(cfg, s) && v in s.nodes && s.nodes[v].term == r.term
    ensures StillBehind(s.h, r, v)
  {
    hide Inv;
    forall u | u in r.elected && u > r.term && u in s.h.elect ensures v !in s.h.elect[u].voters {
      NotAVoter(cfg, s, v, u);
    }
  }

  lemma NotAVoter(cfg: Config, s: Cluster, v: NodeId, u: nat)
    requires ValidConfig(cfg) && Inv(cfg, s) && v in s.nodes && s.nodes[v].term < u && u in s.h.elect
    ensures v !in s.h.elect[u].voters
  {
    hide Inv, CoversOk, CommitsOk, WitnessOk, GrantsOk, ReadsOk;
    OfHistory(cfg, s);
    assert ElectionOk(cfg, s.h, u);
    var b := Vote(v, u, s.h.elect[u].leader);
    if b in s.h.votes { OfVote(cfg, s, b); }
  }

  lemma StepRecvReadResp(cfg: Config, s: Cluster, v: NodeId, m: Msg)
    requires ValidConfig(cfg) && Inv(cfg, s) && Enabled(cfg, s, RecvReadResp(v, m))
    ensures Inv(cfg, Apply(cfg, s, RecvReadResp(v, m)))
  {
    hide Inv;
    var n := s.nodes[v];
    OfNode(cfg, s, v);
    OfMsg(cfg, s, m);
    var n' := Synced(CommitAt(n, m.index, m.term)).(readStates := n.readStates + {ReadState(m.index, m.ctx)});
    if m.index > n.committed && m.index <= |n.log| && TermAt(n.log, m.index) == m.term {
      assert EntryOk(s.h, n.log, m.index - 1);
      var c :| c in s.h.commits && Covers(s.h, c, s.h.logs[m.term], m.index);
      assert Covers(s.h, c, n.log, m.index);
    }
    QuietStep(cfg, s, v, n', {});
  }

  lemma StepRejectStale(cfg: Config, s: Cluster, v: NodeId, m: Msg)
    requires ValidConfig(cfg) && Inv(cfg, s) && Enabled(cfg, s, RejectStale(v, m))
    ensures Inv(cfg, Apply(cfg, s, RejectStale(v, m)))
  {
    hide Inv;
    OfNode(cfg, s, v);
    QuietStep(cfg, s, v, s.nodes[v], {AppendResp(v, m.from, s.nodes[v].term, 0, false)});
  }

  lemma QueueCarries(h: History, n: Node, n': Node)
    requires QueueOk(h, n) && n'.pend == n.pend && n'.term == n.term && n'.role == n.role
    ensures QueueOk(h, n')
  {
    if n.role == Leader && n.term in h.logs {
      forall c | c in n'.pend.status ensures PendingOk(h, n', c) {
        assert PendingOk(h, n, c);
      }
    }
  }

  lemma StepRecvAppendResp(cfg: Config, s: Cluster, v: NodeId, m: Msg)
    requires ValidConfig(cfg) && Inv(cfg, s) && Enabled(cfg, s, RecvAppendResp(v, m))
    ensures Inv(cfg, Apply(cfg, s, RecvAppendResp(v, m)))
  {
    hide Inv;
    var n := s.nodes[v];
    OfNode(cfg, s, v);
    OfMsg(cfg, s, m);
    if m.index > MatchOf(n.matched, m.from) {
      var n' := n.(matched := n.matched[m.from := m.index]);
      var a := Ack(m.from, n.term, m.index);
      OfAck(cfg, s, a);
      OfNode(cfg, s, m.from);
      forall x | x in n'.matched ensures MatchOk(cfg, s.h, n.term, x, n'.matched[x]) {
        assert x != m.from ==> MatchOk(cfg, s.h, n.term, x, n.matched[x]);
      }
      QueueCarries(s.h, n, n');
      QuietStep(cfg, s, v, n', {});
    } else {
      QuietStep(cfg, s, v, n, {});
    }
  }

  lemma StepRecvHeartbeatResp(cfg: Config, s: Cluster, v: NodeId, m: Msg)
    requires ValidConfig(cfg) && Inv(cfg, s) && Enabled(cfg, s, RecvHeartbeatResp(v, m))
    ensures Inv(cfg, Apply(cfg, s, RecvHeartbeatResp(v, m)))
  {
    hide Inv;
    var n := s.nodes[v];
    OfNode(cfg, s, v);
    OfMsg(cfg, s, m);
    var n' := n.(pend := R.RecvAck(n.pend, m.from, m.ctx));
    forall c | c in n'.pend.status ensures PendingOk(s.h, n', c) {
      assert PendingOk(s.h, n, c);
    }
    QuietStep(cfg, s, v, n', {});
  }

  lemma StepSendAppend(cfg: Config, s: Cluster, v: NodeId, to: NodeId, prev: nat, upto: nat)
    requires ValidConfig(cfg) && Inv(cfg, s) && Enabled(cfg, s, SendAppend(v, to, prev, upto))
    ensures Inv(cfg, Apply(cfg, s, SendAppend(v, to, prev, upto)))
  {
    hide Inv;
    var n := s.nodes[v];
    OfNode(cfg, s, v);
    QuietStep(cfg, s, v, n, {AppendReq(v, to, n.term, prev, TermAt(n.log, prev), n.log[prev..upto], n.committed)});
  }

  lemma StepSendHeartbeat(cfg: Config, s: Cluster, v: NodeId, to: NodeId, ctx: R.Context)
    requires ValidConfig(cfg) && Inv(cfg, s) && Enabled(cfg, s, SendHeartbeat(v, to, ctx))
    ensures Inv(cfg, Apply(cfg, s, SendHeartbeat(v, to, ctx)))
  {
    hide Inv;
    var n := s.nodes[v];
    OfNode(cfg, s, v);
    var k := Min(MatchOf(n.matched, to), n.committed);
    if k > 0 {
      assert MatchOk(cfg, s.h, n.term, to, n.matched[to]);
      assert Ack(to, n.term, n.matched[to]) in s.h.acks;
      var c :| c in s.h.commits && Covers(s.h, c, n.log, n.committed);
      assert n.log[..k] == n.log[..n.committed][..k] == s.h.logs[c.term][..n.committed][..k];
      assert Covers(s.h, c, n.log, k);
    }
    assert ctx != R.NO_CONTEXT ==> PendingOk(s.h, n, ctx);
    QuietStep(cfg, s, v, n, {Heartbeat(v, to, n.term, k, ctx)});
  }

  lemma StepSendSnapshot(cfg: Config, s: Cluster, v: NodeId, to: NodeId, index: nat)
    requires ValidConfig(cfg) && Inv(cfg, s) && Enabled(cfg, s, SendSnapshot(v, to, index))
    ensures Inv(cfg, Apply(cfg, s, SendSnapshot(v, to, index)))
  {
    hide Inv;
    var n := s.nodes[v];
    OfNode(cfg, s, v);
    var c :| c in s.h.commits && Covers(s.h, c, n.log, n.committed);
    assert n.log[..index] == n.log[..n.committed][..index] == s.h.logs[c.term][..n.committed][..index];
    assert n.log[..index][..index] == n.log[..index];
    assert Covers(s.h, c, n.log[..index], index);
    QuietStep(cfg, s, v, n, {Snapshot(v, to, n.term, n.log[..index])});
  }

  lemma StepRestart(cfg: Config, s: Cluster, v: NodeId, commit: nat)
    requires ValidConfig(cfg) && Inv(cfg, s) && Enabled(cfg, s, Restart(v, commit))
    ensures Inv(cfg, Apply(cfg, s, Restart(v, commit)))
  {
    hide Inv;
    var n := s.nodes[v];
    OfNode(cfg, s, v);
    var log := n.log[..Min(n.persisted, |n.log|)];
    var n' := BecomeFollower(n.(log := log, committed := commit, readStates := {}), n.term, INVALID_ID);
    forall i | 0 <= i < |log| ensures EntryOk(s.h, log, i) {
      assert EntryOk(s.h, n.log, i);
      assert log[..i + 1] == n.log[..i + 1];
    }
    if commit > 0 {
      var c :| c in s.h.commits && Covers(s.h, c, n.log, n.committed);
      assert log[..commit] == n.log[..n.committed][..commit] == s.h.logs[c.term][..n.committed][..commit];
      assert Covers(s.h, c, log, commit);
    }
    QuietStep(cfg, s, v, n', {});
  }

  lemma StepWitnessReject(cfg: Config, s: Cluster, v: NodeId)
    requires ValidConfig(cfg) && Inv(cfg, s) && Enabled(cfg, s, WitnessReject(v))
    ensures Inv(cfg, Apply(cfg, s, WitnessReject(v)))
  {
    hide Inv;
    DropOutbox(cfg, s, v, {});
  }

  /** Giving up on the outstanding witness append. */
  lemma DropOutbox(cfg: Config, s: Cluster, v: NodeId, out: set<Msg>)
    requires ValidConfig(cfg) && Inv(cfg, s) && IsRole(s, v, Leader) && HasWitness(cfg)
    requires forall m | m in out :: m.AppendResp? && m.reject
    ensures Inv(cfg, Put(s, v, s.nodes[v].(epoch := s.nodes[v].epoch.(pending := 0)), out, s.h))
  {
    hide Inv;
    var n := s.nodes[v];
    OfNode(cfg, s, v);
    var n' := n.(epoch := n.epoch.(pending := 0));
    QueueCarries(s.h, n, n');
    forall x | x in n'.matched ensures MatchOk(cfg, s.h, n'.term, x, n'.matched[x]) {
      assert MatchOk(cfg, s.h, n.term, x, n.matched[x]);
    }
    QuietStep(cfg, s, v, n', out);
  }
}
