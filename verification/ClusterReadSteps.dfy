/** Accepting and releasing read requests keeps the invariant. */
module ClusterReadSteps {
  import opened Quorum
  import opened RaftLogs
  import opened ClusterState
  import opened ClusterInv
  import opened ClusterHistory
  import opened ClusterGrowth
  import opened ClusterQuietSteps

  /** A step of a leader that only touches its read queue. */
  lemma ReadStep(cfg: Config, s: Cluster, v: NodeId, n': Node, out: set<Msg>, h': History)
    requires ValidConfig(cfg) && Inv(cfg, s) && IsRole(s, v, Leader)
    requires n' == s.nodes[v].(pend := n'.pend, readStates := n'.readStates)
    requires h' == s.h.(reqs := h'.reqs) && Grows(s.h, h')
    requires QueueOk(h', n') && ReadsOk(h')
    requires forall m | m in out :: m.ReadResp? && MsgOk(cfg, h', m)
    ensures Inv(cfg, Put(s, v, n', out, h'))
  {
    var s' := Put(s, v, n', out, h');
    hide Inv, LogsOk, AckOk, MsgOk, WitnessOk, GrantsOk, ReadsOk, CoversOk, VoteOk, CampOk, CommitsOk, QueueOk;
    OfHistory(cfg, s);
    ReadNode(cfg, s, v, n', h');
    SelfKeeps(cfg, s, v);
    assert Moves(s, s', v);
    hide NodeOk, Moves;
    OthersStay(cfg, s, s', v);
    OldStay(cfg, s, s', v);
    RestStays(cfg, s, s', v);
    CommitsStay(cfg, s.h, h');
    Assembled(cfg, s');
  }

  lemma ReadNode(cfg: Config, s: Cluster, v: NodeId, n': Node, h': History)
    requires Inv(cfg, s) && IsRole(s, v, Leader)
    requires n' == s.nodes[v].(pend := n'.pend, readStates := n'.readStates)
    requires h' == s.h.(reqs := h'.reqs) && Grows(s.h, h')
    requires QueueOk(h', n')
    ensures NodeOk(cfg, h', v, n')
  {
    hide Inv, QueueOk;
    OfNode(cfg, s, v);
    var n := s.nodes[v];
    ReplicaStays(s.h, h', n');
    forall x | x in n'.matched ensures MatchOk(cfg, h', n'.term, x, n'.matched[x]) {
      assert MatchOk(cfg, s.h, n.term, x, n.matched[x]);
      MatchStays(cfg, s.h, h', n.term, x, n.matched[x]);
    }
  }

  // ---- Accepting --------------------------------------------------------------------------------------------

  /** The leader of the highest term, once it has committed in its own term, has committed as much
      as any replica. */
  lemma LatestLeaderLeadsCommits(cfg: Config, s: Cluster, v: NodeId, w: NodeId)
    requires ValidConfig(cfg) && Inv(cfg, s) && IsRole(s, v, Leader) && w in s.nodes
    requires TermAt(s.nodes[v].log, s.nodes[v].committed) == s.nodes[v].term
    requires forall u | u in s.h.elect :: u <= s.nodes[v].term
    ensures s.nodes[w].committed <= s.nodes[v].committed
  {
    hide Inv;
    OfHistory(cfg, s);
    OfNode(cfg, s, v);
    OfNode(cfg, s, w);
    var n := s.nodes[v];
    if s.nodes[w].committed > 0 {
      var c :| c in s.h.commits && Covers(s.h, c, s.nodes[w].log, s.nodes[w].committed);
      assert Chosen(cfg, s.h, c.term, c.index);
      if c.term < n.term {
        LeaderCompleteness(cfg, s, c.term, c.index, n.term);
        OwnEntryIsLater(cfg, s.h, n.term, n.committed);
      }
    }
  }

  lemma OwnEntryIsLater(cfg: Config, h: History, t: nat, k: nat)
    requires LogsOk(cfg, h) && t in h.logs && k <= |h.logs[t]| && TermAt(h.logs[t], k) == t
    ensures k > |h.elect[t].log|
  {
    assert TermLogOk(h, t);
    assert forall i | 0 <= i < |h.elect[t].log| :: h.logs[t][i] == h.elect[t].log[i];
  }

  lemma HighestIsOwn(cfg: Config, s: Cluster, v: NodeId)
    requires ValidConfig(cfg) && Inv(cfg, s) && IsRole(s, v, Leader)
    requires TermAt(s.nodes[v].log, s.nodes[v].committed) == s.nodes[v].term
    requires forall u | u in s.h.elect :: u <= s.nodes[v].term
    ensures HighestCommit(s) <= s.nodes[v].committed
  {
    hide Inv;
    var r := HighestCommit(s);
    if r != 0 {
      var w :| w in s.nodes.Keys && s.nodes[w].committed == r;
      LatestLeaderLeadsCommits(cfg, s, v, w);
    }
  }

  function AcceptHistory(h: History, ctx: R.Context, r: ReadRecord): History {
    h.(reqs := h.reqs[ctx := r])
  }

  lemma AcceptReads(cfg: Config, s: Cluster, v: NodeId, ctx: R.Context, r: ReadRecord)
    requires ValidConfig(cfg) && Inv(cfg, s) && IsRole(s, v, Leader) && ctx !in s.h.reqs
    requires TermAt(s.nodes[v].log, s.nodes[v].committed) == s.nodes[v].term
    requires r == ReadRecord(s.nodes[v].term, r.from, s.nodes[v].committed, s.h.elect.Keys, HighestCommit(s))
    ensures ReadsOk(AcceptHistory(s.h, ctx, r))
  {
    hide Inv, LogsOk, CoversOk, CommitsOk, WitnessOk, GrantsOk;
    OfHistory(cfg, s);
    var h' := AcceptHistory(s.h, ctx, r);
    if forall u | u in r.elected :: u <= r.term {
      HighestIsOwn(cfg, s, v);
    }
    forall c | c in h'.reqs ensures ReadOk(h', c) {
      if c != ctx { assert ReadOk(s.h, c); }
    }
  }

  lemma AcceptQueue(cfg: Config, s: Cluster, v: NodeId, ctx: R.Context, from: NodeId, r: ReadRecord, n': Node)
    requires ValidConfig(cfg) && Inv(cfg, s) && IsRole(s, v, Leader) && ctx !in s.h.reqs && ctx != R.NO_CONTEXT
    requires r.term == s.nodes[v].term && r.from == from && r.index == s.nodes[v].committed && r.elected == s.h.elect.Keys
    requires n' == s.nodes[v].(pend := R.AddRequest(s.nodes[v].pend, ctx, s.nodes[v].committed, from, v))
    ensures QueueOk(AcceptHistory(s.h, ctx, r), n')
  {
    hide Inv, LogsOk, CoversOk, CommitsOk, WitnessOk, GrantsOk;
    OfHistory(cfg, s);
    OfNode(cfg, s, v);
    hide EpochOk, CandidateOk;
    var n, h' := s.nodes[v], AcceptHistory(s.h, ctx, r);
    assert ctx in n.pend.status ==> PendingOk(s.h, n, ctx);
    BehindNow(cfg, s, v, r);
    assert StillBehind(h', r, v);
    TermCommittedStays(s.h, h', n.term, n.committed);
    forall c | c in n'.pend.status ensures PendingOk(h', n', c) {
      if c != ctx {
        assert PendingOk(s.h, n, c) && ReadOk(s.h, c);
        PendingStays(s.h, h', n, c);
      }
    }
    forall i, j | 0 <= i < j < |n'.pend.queue| && n'.pend.queue[i] in h'.reqs && n'.pend.queue[j] in h'.reqs
      ensures h'.reqs[n'.pend.queue[i]].elected <= h'.reqs[n'.pend.queue[j]].elected
    {
      var a := n.pend.queue[i];
      assert a in n.pend.status && PendingOk(s.h, n, a) && ReadOk(s.h, a);
      if j < |n.pend.queue| {
        var b := n.pend.queue[j];
        assert b in n.pend.status && PendingOk(s.h, n, b);
      }
    }
  }

  lemma StepAcceptRead(cfg: Config, s: Cluster, v: NodeId, ctx: R.Context, from: NodeId)
    requires ValidConfig(cfg) && Inv(cfg, s) && Enabled(cfg, s, AcceptRead(v, ctx, from))
    ensures Inv(cfg, Apply(cfg, s, AcceptRead(v, ctx, from)))
  {
    hide Inv, QueueOk, ReadsOk;
    var n := s.nodes[v];
    var r := ReadRecord(n.term, from, n.committed, s.h.elect.Keys, HighestCommit(s));
    var n' := n.(pend := R.AddRequest(n.pend, ctx, n.committed, from, v));
    AcceptReads(cfg, s, v, ctx, r);
    AcceptQueue(cfg, s, v, ctx, from, r, n');
    hide R.AddRequest, HighestCommit;
    ReadStep(cfg, s, v, n', {}, AcceptHistory(s.h, ctx, r));
  }

  // ---- Releasing -----------------------------------------------------------------------------------------------

  /** Everything released together was accepted no later than the confirmed request. */
  lemma ReleasedEarlier(h: History, n: Node, ctx: R.Context, c: R.Context)
    requires n.role == Leader && n.term in h.logs && QueueOk(h, n)
    requires ctx in n.pend.status && c in R.Released(n.pend, ctx)
    ensures c in n.pend.status && c in h.reqs && ctx in h.reqs
    ensures h.reqs[c].elected <= h.reqs[ctx].elected
  {
    var i := R.Position(n.pend.queue, ctx);
    assert PendingOk(h, n, ctx);
    var j :| 0 <= j < |R.Released(n.pend, ctx)| && R.Released(n.pend, ctx)[j] == c;
    assert n.pend.queue[j] == c;
    assert PendingOk(h, n, c);
  }

  /** A read quorum, in which the witness counts for free, and a quorum of votes have a regular voter
      in common. */
  lemma ReadQuorumMeetsVotes(cfg: Config, acks: set<NodeId>, voters: set<NodeId>)
    requires ValidConfig(cfg) && (ReadsSafe(cfg) || cfg.wid !in voters)
    requires Quorate(cfg, acks + {cfg.wid}) && Quorate(cfg, voters)
    ensures exists x :: x in acks && x in voters && x in cfg.incoming && x != cfg.wid
  {
    if HasWitness(cfg) {
      var all := cfg.incoming - {cfg.wid};
      assert |all| == |cfg.incoming| - 1;
      WithoutOne(cfg.incoming, acks + {cfg.wid}, cfg.wid);
      WithoutOne(cfg.incoming, voters, cfg.wid);
      assert cfg.wid !in voters ==> all * voters == cfg.incoming * voters;
      assert all * (acks + {cfg.wid}) == all * acks;
      Pigeonhole(all, all * acks, all * voters);
      var x :| x in all * acks && x in all * voters;
      assert x in acks && x in voters && x in cfg.incoming && x != cfg.wid;
    } else {
      QuorumsIntersect(cfg.incoming, cfg.outgoing, acks + {cfg.wid}, voters);
      var x :| x in acks + {cfg.wid} && x in voters && x in cfg.incoming;
      assert x in acks;
    }
  }

  lemma WithoutOne(all: set<NodeId>, s: set<NodeId>, x: NodeId)
    requires x in all
    ensures |(all - {x}) * s| >= |all * s| - 1
  {
    if x in s {
      assert all * s == (all - {x}) * s + {x};
    } else {
      assert all * s == (all - {x}) * s;
    }
  }

  /** A quorum of the request's acknowledgments rules out any later leader among those elected by then. */
  lemma NoLaterLeader(cfg: Config, h: History, n: Node, ctx: R.Context, u: nat)
    requires ValidConfig(cfg) && ReadsCovered(cfg, h) && LogsOk(cfg, h)
    requires n.term in h.logs && ctx in n.pend.status && PendingOk(h, n, ctx)
    requires Quorate(cfg, n.pend.status[ctx].acks + {cfg.wid})
    requires u in h.reqs[ctx].elected && u in h.elect
    ensures u <= n.term
  {
    assert ElectionOk(cfg, h, u);
    var acks := n.pend.status[ctx].acks;
    ReadQuorumMeetsVotes(cfg, acks, h.elect[u].voters);
    var x :| x in acks && x in h.elect[u].voters && x in cfg.incoming && x != cfg.wid;
    assert StillBehind(h, h.reqs[ctx], x);
  }

  lemma ReleasedIsFresh(cfg: Config, s: Cluster, v: NodeId, ctx: R.Context, c: R.Context)
    requires ValidConfig(cfg) && Inv(cfg, s) && Enabled(cfg, s, ReleaseReads(v, ctx))
    requires c in R.Released(s.nodes[v].pend, ctx)
    ensures c in s.nodes[v].pend.status && c in s.h.reqs
    ensures s.nodes[v].pend.status[c].index == s.h.reqs[c].index && s.nodes[v].pend.status[c].from == s.h.reqs[c].from
    ensures ReadsCovered(cfg, s.h) ==> s.h.reqs[c].high <= s.h.reqs[c].index
  {
    hide Inv, CoversOk, CommitsOk, WitnessOk, GrantsOk;
    OfHistory(cfg, s);
    OfNode(cfg, s, v);
    var n := s.nodes[v];
    hide EpochOk, CandidateOk, ReplicaOk, R.Released;
    ReleasedEarlier(s.h, n, ctx, c);
    assert PendingOk(s.h, n, c) && PendingOk(s.h, n, ctx);
    assert ReadOk(s.h, c) && ReadOk(s.h, ctx);
    if ReadsCovered(cfg, s.h) {
      forall u | u in s.h.reqs[c].elected ensures u <= s.h.reqs[c].term {
        NoLaterLeader(cfg, s.h, n, ctx, u);
      }
    }
  }

  lemma ReleaseQueue(h: History, n: Node, n': Node, ctx: R.Context)
    requires n.role == Leader && n.term in h.logs && QueueOk(h, n)
    requires n' == n.(pend := R.Advance(n.pend, ctx), readStates := n'.readStates)
    ensures QueueOk(h, n')
  {
    AdvanceShape(n.pend, ctx);
    hide R.Released, R.Advance;
    var d := |R.Released(n.pend, ctx)|;
    forall c | c in n'.pend.status ensures PendingOk(h, n', c) {
      assert PendingOk(h, n, c);
    }
    assert forall i | 0 <= i < |n'.pend.queue| :: n'.pend.queue[i] == n.pend.queue[d + i];
  }

  /** Advancing drops a prefix of the queue, and exactly its requests. */
  lemma AdvanceShape(q: R.Queue, ctx: R.Context)
    ensures var d, q' := |R.Released(q, ctx)|, R.Advance(q, ctx);
            && d <= |q.queue| && q'.queue == q.queue[d..]
            && (forall c | c in q'.status :: c in q.status && q'.status[c] == q.status[c])
            && (forall c | c in q.status && c !in q.queue[..d] :: c in q'.status)
  {
  }

  lemma AnswersOk(cfg: Config, h: History, n: Node, v: NodeId, ctx: R.Context)
    requires n.role == Leader && n.term in h.logs && QueueOk(h, n)
    ensures forall m | m in Answers(n.pend, v, n.term, ctx) :: m.ReadResp? && MsgOk(cfg, h, m)
  {
    hide R.Released;
    forall m | m in Answers(n.pend, v, n.term, ctx) ensures m.ReadResp? && MsgOk(cfg, h, m) {
      assert m.ctx in n.pend.status && PendingOk(h, n, m.ctx);
    }
  }

  lemma StepReleaseReads(cfg: Config, s: Cluster, v: NodeId, ctx: R.Context)
    requires ValidConfig(cfg) && Inv(cfg, s) && Enabled(cfg, s, ReleaseReads(v, ctx))
    ensures Inv(cfg, Apply(cfg, s, ReleaseReads(v, ctx)))
  {
    hide Inv, ReadsOk, EpochOk, ReplicaOk, CandidateOk, MsgOk, R.Released, R.Advance;
    var n := s.nodes[v];
    var n' := n.(pend := R.Advance(n.pend, ctx), readStates := n.readStates + OwnAnswers(n.pend, v, ctx));
    OfNode(cfg, s, v);
    OfHistory(cfg, s);
    ReleaseQueue(s.h, n, n', ctx);
    AnswersOk(cfg, s.h, n, v, ctx);
    hide QueueOk, LeaderOk, LogsOk, CoversOk, CommitsOk, WitnessOk, GrantsOk, Answers, OwnAnswers;
    ReadStep(cfg, s, v, n', Answers(n.pend, v, n.term, ctx), s.h);
  }
}
