/** Campaigns, votes and elections keep the invariant. */
module ClusterVoteSteps {
  import opened Quorum
  import opened RaftLogs
  import opened ClusterState
  import opened ClusterInv
  import opened ClusterHistory
  import opened ClusterGrowth
  import opened ClusterQuietSteps

  // ---- A vote by a replica ------------------------------------------------------------------------

  /** A step that adds one vote by the mover, and possibly its candidacy, to the history. */
  lemma VoteStep(cfg: Config, s: Cluster, v: NodeId, n': Node, out: set<Msg>, h': History, cand: NodeId)
    requires ValidConfig(cfg) && Inv(cfg, s) && v in s.nodes
    requires Keeps(s.nodes[v], n')
    requires n'.term == s.nodes[v].term ==> n'.vote == s.nodes[v].vote || s.nodes[v].vote == INVALID_ID
    requires n'.vote == cand
    requires h' == s.h.(votes := s.h.votes + {Vote(v, n'.term, cand)}, camp := h'.camp)
    requires Grows(s.h, h') && (n'.term, cand) in h'.camp
    requires forall p | p in h'.camp && p !in s.h.camp :: p == (n'.term, v) && CampOk(h', s.nodes[v := n'], n'.term, v)
    requires NodeOk(cfg, h', v, n')
    requires PolledOk(s.msgs + out, v, n')
    requires forall m | m in out :: !m.WitnessVoteReq? && MsgOk(cfg, h', m)
    requires forall a | a in s.h.acks && a.node == v :: VoteCovers(h', Vote(v, n'.term, cand), a)
    ensures Inv(cfg, Put(s, v, n', out, h'))
  {
    var s' := Put(s, v, n', out, h');
    hide Inv, NodeOk, MsgOk, AckOk, GrantsOk, WitnessOk, ReadsOk, CommitsOk, LogsOk, PolledOk;
    OfHistory(cfg, s);
    assert Moves(s, s', v);
    LogsStay(cfg, s.h, h');
    OthersStay(cfg, s, s', v);
    OldStay(cfg, s, s', v);
    CommitsStay(cfg, s.h, h');
    WitnessStays(cfg, s, s');
    GrantsStay(cfg, s, s');
    ReadsStay(s.h, h');
    AcksStay(cfg, s, s', v);
    VoteStepCovers(cfg, s, v, h', Vote(v, n'.term, cand));
    VoteStepUnique(cfg, s, v, n', cand);
    Assembled(cfg, s');
  }

  lemma VoteStepCovers(cfg: Config, s: Cluster, v: NodeId, h': History, b: Vote)
    requires Inv(cfg, s) && Grows(s.h, h') && b.voter == v
    requires h' == s.h.(votes := s.h.votes + {b}, camp := h'.camp)
    requires forall a | a in s.h.acks && a.node == v :: VoteCovers(h', b, a)
    ensures CoversOk(h')
  {
    hide Inv;
    CoversStay(cfg, s, h');
  }

  lemma VoteStepUnique(cfg: Config, s: Cluster, v: NodeId, n': Node, cand: NodeId)
    requires ValidConfig(cfg) && Inv(cfg, s) && v in s.nodes
    requires s.nodes[v].term <= n'.term && n'.vote == cand
    requires n'.term == s.nodes[v].term ==> n'.vote == s.nodes[v].vote || s.nodes[v].vote == INVALID_ID
    ensures VotesUnique(s.h.(votes := s.h.votes + {Vote(v, n'.term, cand)}))
  {
    hide Inv, LogsOk, CoversOk, CommitsOk, WitnessOk, GrantsOk, ReadsOk;
    OfHistory(cfg, s);
    forall b | b in s.h.votes && b.voter == v && b.term == n'.term ensures b.cand == cand {
      OfVote(cfg, s, b);
    }
  }

  lemma NewCandidacy(cfg: Config, s: Cluster, v: NodeId, t: nat)
    requires Inv(cfg, s) && v in s.nodes && t > s.nodes[v].term
    ensures (t, v) !in s.h.camp
  {
    hide Inv;
    if (t, v) in s.h.camp { OfCamp(cfg, s, t, v); }
  }

  lemma StepCampaign(cfg: Config, s: Cluster, v: NodeId)
    requires ValidConfig(cfg) && Inv(cfg, s) && Enabled(cfg, s, Campaign(v))
    ensures Inv(cfg, Apply(cfg, s, Campaign(v)))
  {
    hide Inv, LeaderOk, EpochOk, QueueOk;
    var n := s.nodes[v];
    var n' := BecomeCandidate(n, v);
    var h' := s.h.(camp := s.h.camp[(n'.term, v) := n'.log], votes := s.h.votes + {Vote(v, n'.term, v)});
    var out := {VoteReq(v, n'.term, false, |n'.log|, LastTerm(n'.log), n'.committed, TermAt(n'.log, n'.committed))};
    OfNode(cfg, s, v);
    NewCandidacy(cfg, s, v, n'.term);
    assert Grows(s.h, h');
    ReplicaStays(s.h, h', n');
    CampaignNode(cfg, s, v, n', h');
    ReportOk(cfg, s.h, n);
    InfoStays(s.h, h', n.committed, TermAt(n.log, n.committed));
    forall a | a in s.h.acks && a.node == v ensures VoteCovers(h', Vote(v, n'.term, v), a) {
      OfAck(cfg, s, a);
      OwnVoteCovers(s.h, h', n, a, Vote(v, n'.term, v));
    }
    hide NodeOk;
    VoteStep(cfg, s, v, n', out, h', v);
  }

  lemma CampaignNode(cfg: Config, s: Cluster, v: NodeId, n': Node, h': History)
    requires ValidConfig(cfg) && Inv(cfg, s) && Enabled(cfg, s, Campaign(v))
    requires n' == BecomeCandidate(s.nodes[v], v) && (n'.term, v) !in s.h.camp
    requires h' == s.h.(camp := s.h.camp[(n'.term, v) := n'.log], votes := s.h.votes + {Vote(v, n'.term, v)})
    requires Grows(s.h, h') && ReplicaOk(h', n')
    ensures NodeOk(cfg, h', v, n') && CampOk(h', s.nodes[v := n'], n'.term, v)
    ensures PolledOk(s.msgs, v, n')
  {
    hide Inv;
    if n'.term in s.h.elect { OfWinner(cfg, s, n'.term); }
    assert GrantedSet(n'.votes) == {v};
    forall m | m in s.msgs && m.WitnessVoteReq? && !m.pre && m.from == v ensures m.term < n'.term {
      OfMsg(cfg, s, m);
      OfCamp(cfg, s, m.term, v);
    }
    OfNode(cfg, s, v);
  }

  /** A candidate's vote for itself. */
  lemma OwnVoteCovers(h: History, h': History, n: Node, a: Ack, b: Vote)
    requires Grows(h, h') && h'.logs == h.logs && h'.elect == h.elect
    requires a.term in h.logs && (b.term, b.cand) in h'.camp && h'.camp[(b.term, b.cand)] == n.log
    requires forall k {:trigger Kept(h, n, a.term, k)} | 1 <= k <= a.index && k <= |h.logs[a.term]| :: Kept(h, n, a.term, k)
    ensures VoteCovers(h', b, a)
  {
    forall k: nat | OwnEntry(h', a, k)
      ensures h'.logs[a.term][..k] <= n.log || Superseded(h', a.term, k)
    {
      assert Kept(h, n, a.term, k);
      if !(h.logs[a.term][..k] <= n.log) { SupersededStays(h, h', a.term, k); }
    }
  }

  /** A log at least as recent as one that holds entry `k` of term `t` holds it too, unless a
      leader after `t` lacks it. */
  lemma UpToDateCovers(cfg: Config, h: History, log: Log, cand: Log, t: nat, k: nat)
    requires LogsOk(cfg, h) && ValidLog(h, log) && ValidLog(h, cand)
    requires t in h.logs && 1 <= k <= |h.logs[t]| && h.logs[t][k - 1].term == t
    requires k <= |log| && h.logs[t][..k] == log[..k]
    requires UpToDate(log, |cand|, LastTerm(cand))
    ensures h.logs[t][..k] <= cand || Superseded(h, t, k)
  {
    assert log[k - 1] == log[..k][k - 1] == h.logs[t][..k][k - 1];
    TermsGrow(cfg, h, log, k - 1, |log| - 1);
    assert TermLogOk(h, t);
    assert cand != [];
    EndsInTerm(h, cand);
    var u := LastTerm(cand);
    if u == t {
      assert h.logs[t][..k] == cand[..k];
    } else if !Lacks(h, u, t, k) {
      assert TermLogOk(h, u);
      LaterTermIsFurther(cfg, h, cand, t, k);
    }
  }

  lemma GrantCovers(cfg: Config, s: Cluster, v: NodeId, m: Msg, h': History, a: Ack)
    requires ValidConfig(cfg) && Inv(cfg, s) && Handles(s, v, m) && m.VoteReq? && !m.pre && CanVote(s.nodes[v], m)
    requires Grows(s.h, h') && h'.logs == s.h.logs && h'.elect == s.h.elect && h'.camp == s.h.camp
    requires a in s.h.acks && a.node == v
    ensures VoteCovers(h', Vote(v, m.term, m.from), a)
  {
    hide Inv;
    OfHistory(cfg, s);
    var n := s.nodes[v];
    OfMsg(cfg, s, m);
    OfAck(cfg, s, a);
    OfNode(cfg, s, v);
    OfCamp(cfg, s, m.term, m.from);
    forall k: nat | OwnEntry(h', a, k)
      ensures h'.logs[a.term][..k] <= h'.camp[(m.term, m.from)] || Superseded(h', a.term, k)
    {
      assert Kept(s.h, n, a.term, k);
      if k <= |n.log| && s.h.logs[a.term][..k] == n.log[..k] {
        UpToDateCovers(cfg, s.h, n.log, s.h.camp[(m.term, m.from)], a.term, k);
      }
      if Superseded(s.h, a.term, k) { SupersededStays(s.h, h', a.term, k); }
    }
  }

  lemma StepGrantVote(cfg: Config, s: Cluster, v: NodeId, m: Msg)
    requires ValidConfig(cfg) && Inv(cfg, s) && Enabled(cfg, s, RecvVote(v, m, false)) && CanVote(s.nodes[v], m)
    ensures Inv(cfg, Apply(cfg, s, RecvVote(v, m, false)))
  {
    hide Inv;
    var n := s.nodes[v];
    var n' := n.(vote := m.from);
    var h' := s.h.(votes := s.h.votes + {Vote(v, n.term, m.from)});
    var out := {VoteAnswer(v, n, m, true)};
    OfNode(cfg, s, v);
    OfMsg(cfg, s, m);
    assert Grows(s.h, h');
    GrantNode(cfg, s, v, m, h');
    forall a | a in s.h.acks && a.node == v ensures VoteCovers(h', Vote(v, n'.term, m.from), a) {
      GrantCovers(cfg, s, v, m, h', a);
    }
    hide NodeOk;
    VoteStep(cfg, s, v, n', out, h', m.from);
  }

  lemma GrantNode(cfg: Config, s: Cluster, v: NodeId, m: Msg, h': History)
    requires ValidConfig(cfg) && Inv(cfg, s) && Enabled(cfg, s, RecvVote(v, m, false)) && CanVote(s.nodes[v], m)
    requires Grows(s.h, h') && h' == s.h.(votes := s.h.votes + {Vote(v, m.term, m.from)})
    ensures NodeOk(cfg, h', v, s.nodes[v].(vote := m.from))
    ensures Keeps(s.nodes[v], s.nodes[v].(vote := m.from))
  {
    hide Inv;
    OfHistory(cfg, s);
    var n := s.nodes[v];
    var n' := n.(vote := m.from);
    OfNode(cfg, s, v);
    ReplicaStays(s.h, h', n');
    QueueCarries(s.h, n, n');
    QueueStays(cfg, s.h, h', n');
    if n.role == Leader {
      forall x | x in n.matched ensures MatchOk(cfg, h', n.term, x, n.matched[x]) {
        assert MatchOk(cfg, s.h, n.term, x, n.matched[x]);
        MatchStays(cfg, s.h, h', n.term, x, n.matched[x]);
      }
    }
  }

  lemma StepRecvVote(cfg: Config, s: Cluster, v: NodeId, m: Msg, deny: bool)
    requires ValidConfig(cfg) && Inv(cfg, s) && Enabled(cfg, s, RecvVote(v, m, deny))
    ensures Inv(cfg, Apply(cfg, s, RecvVote(v, m, deny)))
  {
    hide Inv;
    if CanVote(s.nodes[v], m) && !deny {
      StepGrantVote(cfg, s, v, m);
    } else {
      StepRefuseVote(cfg, s, v, m);
    }
  }

  // ---- A vote by the witness ----------------------------------------------------------------------------

  /** The witness answers a vote request; only it and the history of votes change. */
  predicate WitnessMoves(cfg: Config, s: Cluster, s': Cluster, h': History) {
    && s'.nodes == s.nodes && s.msgs <= s'.msgs && s'.h == h'
    && (forall m | m in s'.msgs && m !in s.msgs :: !m.WitnessVoteReq?)
    && Grows(s.h, h') && OnlyBy(s.h, h', INVALID_ID)
    && s'.wit.lastTerm == s.wit.lastTerm && s'.wit.lastSubterm == s.wit.lastSubterm
    && s'.wit.replicationSet == s.wit.replicationSet
    && s.wit.term <= s'.wit.term
  }

  lemma WitnessStep(cfg: Config, s: Cluster, s': Cluster, h': History)
    requires ValidConfig(cfg) && Inv(cfg, s) && WitnessMoves(cfg, s, s', h')
    requires h' == s.h.(votes := h'.votes, grants := h'.grants)
    requires forall m | m in s'.msgs && m !in s.msgs :: MsgOk(cfg, h', m)
    requires forall b | b in h'.votes :: VoteOk(cfg, s', b)
    requires forall b | b in h'.votes && b !in s.h.votes :: b.voter == cfg.wid
    requires VotesUnique(h')
    requires GrantsOk(cfg, s')
    requires !HasWitness(cfg) ==> h'.grants == {}
    ensures Inv(cfg, s')
  {
    hide Inv, NodeOk, MsgOk, AckOk, CommitsOk, LogsOk, GrantsOk, VoteOk, VotesUnique;
    OfHistory(cfg, s);
    LogsStay(cfg, s.h, h');
    CommitsStay(cfg, s.h, h');
    ReadsStay(s.h, h');
    forall u | u in s'.nodes ensures NodeOk(cfg, h', u, s'.nodes[u]) && PolledOk(s'.msgs, u, s'.nodes[u]) {
      OfNode(cfg, s, u);
      NodeStays(cfg, s.h, h', INVALID_ID, u, s.nodes[u]);
    }
    forall m | m in s'.msgs ensures MsgOk(cfg, h', m) {
      if m in s.msgs {
        OfMsg(cfg, s, m);
        MsgStays(cfg, s.h, h', m);
      }
    }
    forall t, c | (t, c) in h'.camp ensures CampOk(h', s'.nodes, t, c) {
      OfCamp(cfg, s, t, c);
      CampStays(s.h, h', s.nodes, s'.nodes, t, c);
    }
    forall t | t in h'.elect ensures WinnerOk(h', s'.nodes, t) {
      OfWinner(cfg, s, t);
    }
    WitnessStepRest(cfg, s, s', h');
    Assembled(cfg, s');
  }

  lemma WitnessStepRest(cfg: Config, s: Cluster, s': Cluster, h': History)
    requires ValidConfig(cfg) && Inv(cfg, s) && WitnessMoves(cfg, s, s', h')
    requires h' == s.h.(votes := h'.votes, grants := h'.grants)
    requires forall b | b in h'.votes && b !in s.h.votes :: b.voter == cfg.wid
    requires !HasWitness(cfg) ==> h'.grants == {}
    ensures CoversOk(h') && WitnessOk(cfg, s')
    ensures forall a {:trigger AckOk(h', s'.nodes, a)} | a in h'.acks :: AckOk(h', s'.nodes, a)
  {
    hide Inv, LogsOk, CommitsOk, GrantsOk, ReadsOk;
    OfHistory(cfg, s);
    forall a | a in h'.acks ensures AckOk(h', s'.nodes, a) {
      OfAck(cfg, s, a);
      SelfKeeps(cfg, s, a.node);
      AckStays(s.h, h', s.nodes, s'.nodes, a);
    }
    CoversStay(cfg, s, h');
    forall b, a | b in h'.votes && a in h'.acks ensures VoteCovers(h', b, a) {
      OfAck(cfg, s, a);
    }
    forall t, sub | (t, sub) in h'.confirmed ensures ConfirmedOk(cfg, s', t, sub) {
      assert ConfirmedOk(cfg, s, t, sub);
    }
  }

  lemma WitnessVotesStay(cfg: Config, s: Cluster, s': Cluster)
    requires ValidConfig(cfg) && Inv(cfg, s) && WitnessMoves(cfg, s, s', s'.h)
    requires s'.wit.term == s.wit.term ==> s'.wit.vote == s.wit.vote || s.wit.vote == INVALID_ID
    requires s'.h.camp == s.h.camp
    ensures forall b | b in s.h.votes :: VoteOk(cfg, s', b)
  {
    hide Inv, LogsOk, CoversOk, CommitsOk, WitnessOk, GrantsOk, ReadsOk;
    OfHistory(cfg, s);
    forall b | b in s.h.votes ensures VoteOk(cfg, s', b) {
      OfVote(cfg, s, b);
    }
  }

  /** The grants so far, in the new state. */
  lemma WitnessGrantsStay(cfg: Config, s: Cluster, s': Cluster)
    requires ValidConfig(cfg) && Inv(cfg, s) && WitnessMoves(cfg, s, s', s'.h)
    requires s'.h.confirmed == s.h.confirmed && s'.h.elect == s.h.elect
    requires forall g | g in s'.h.grants && g !in s.h.grants ::
               GrantOk(cfg, s'.h, g) && g.term <= s'.wit.term && PollOf(g) in s'.msgs
    requires forall b | b in s'.h.votes && b !in s.h.votes :: HasGrant(s'.h, b)
    ensures GrantsOk(cfg, s')
  {
    hide Inv, LogsOk, CoversOk, CommitsOk, WitnessOk, ReadsOk, GrantOk;
    OfHistory(cfg, s);
    forall g | g in s'.h.grants ensures GrantOk(cfg, s'.h, g) && g.term <= s'.wit.term && PollOf(g) in s'.msgs {
      if g in s.h.grants {
        assert GrantOk(cfg, s.h, g);
        GrantStays(cfg, s.h, s'.h, g);
      }
    }
    if HasWitness(cfg) {
      forall b | b in s'.h.votes && b.voter == cfg.wid ensures HasGrant(s'.h, b) {
        if b in s.h.votes { assert HasGrant(s.h, b); }
      }
      forall t | t in s'.h.elect && cfg.wid in s'.h.elect[t].voters ensures WonByGrant(s'.h, t) {
        assert WonByGrant(s.h, t);
      }
    }
  }

  lemma StepWitnessVote(cfg: Config, s: Cluster, m: Msg)
    requires ValidConfig(cfg) && Inv(cfg, s) && Enabled(cfg, s, WitnessVote(m))
    ensures Inv(cfg, Apply(cfg, s, WitnessVote(m)))
  {
    hide Inv;
    var grant := W.Grants(s.wit, m.from, m.term, m.pre, m.lastTerm, m.lastSubterm, m.granted);
    var w := W.OnVote(s.wit, m.from, m.term, m.pre, m.lastTerm, m.lastSubterm, m.granted);
    var s' := Cluster(s.nodes, s.msgs + {VoteResp(cfg.wid, m.from, m.term, m.pre, !grant, 0, 0)}, w, s.h);
    OfMsg(cfg, s, m);
    OfHistory(cfg, s);
    if grant && !m.pre {
      WitnessGranted(cfg, s, m);
    } else {
      hide Apply, MsgOk;
      WitnessRefused(cfg, s, m, s');
      WitnessVoteResult(cfg, s, m);
    }
  }

  lemma WitnessVoteResult(cfg: Config, s: Cluster, m: Msg)
    requires Enabled(cfg, s, WitnessVote(m))
    ensures var grant := W.Grants(s.wit, m.from, m.term, m.pre, m.lastTerm, m.lastSubterm, m.granted);
            var w := W.OnVote(s.wit, m.from, m.term, m.pre, m.lastTerm, m.lastSubterm, m.granted);
            var msgs := s.msgs + {VoteResp(cfg.wid, m.from, m.term, m.pre, !grant, 0, 0)};
            Apply(cfg, s, WitnessVote(m)) == Cluster(s.nodes, msgs, w, if grant && !m.pre then GrantHistory(cfg, s, m) else s.h)
  {
  }

  function GrantHistory(cfg: Config, s: Cluster, m: Msg): History
    requires m.WitnessVoteReq?
  {
    s.h.(votes := s.h.votes + {Vote(cfg.wid, m.term, m.from)}, grants := s.h.grants + {GrantOf(s, m)})
  }

  function GrantOf(s: Cluster, m: Msg): WitnessGrant
    requires m.WitnessVoteReq?
  {
    WitnessGrant(m.term, m.from, s.wit.lastTerm, s.wit.lastSubterm, s.wit.replicationSet,
                 m.lastTerm, m.lastSubterm, m.granted)
  }

  /** A refusal, or a pre-vote: at most the witness's term moves. */
  lemma WitnessRefused(cfg: Config, s: Cluster, m: Msg, s': Cluster)
    requires ValidConfig(cfg) && Inv(cfg, s) && m in s.msgs && m.WitnessVoteReq? && m.term >= s.wit.term
    requires m.pre || !W.Grants(s.wit, m.from, m.term, m.pre, m.lastTerm, m.lastSubterm, m.granted)
    requires s'.nodes == s.nodes && s'.h == s.h
    requires s'.wit == W.OnVote(s.wit, m.from, m.term, m.pre, m.lastTerm, m.lastSubterm, m.granted)
    requires exists reject :: s'.msgs == s.msgs + {VoteResp(cfg.wid, m.from, m.term, m.pre, reject, 0, 0)} && (reject || m.pre)
    ensures Inv(cfg, s')
  {
    hide Inv, LogsOk, CoversOk, CommitsOk, WitnessOk, ReadsOk, GrantsOk;
    OfHistory(cfg, s);
    assert WitnessMoves(cfg, s, s', s'.h);
    WitnessVotesStay(cfg, s, s');
    WitnessGrantsStay(cfg, s, s');
    NoWitnessNoGrants(cfg, s);
    WitnessStep(cfg, s, s', s.h);
  }

  lemma NoWitnessNoGrants(cfg: Config, s: Cluster)
    requires Inv(cfg, s)
    ensures !HasWitness(cfg) ==> s.h.grants == {}
  {
    hide Inv, LogsOk, CoversOk, CommitsOk, ReadsOk, GrantsOk;
    OfHistory(cfg, s);
  }

  /** The rule held, and what the witness had confirmed by then it holds now. */
  lemma NewGrantOk(cfg: Config, s: Cluster, m: Msg, h': History)
    requires ValidConfig(cfg) && Inv(cfg, s) && m in s.msgs && m.WitnessVoteReq? && !m.pre && m.term >= s.wit.term
    requires W.Grants(s.wit, m.from, m.term, m.pre, m.lastTerm, m.lastSubterm, m.granted)
    requires h' == GrantHistory(cfg, s, m)
    ensures GrantOk(cfg, h', GrantOf(s, m))
  {
    hide Inv, LogsOk, CoversOk, CommitsOk, ReadsOk, GrantsOk;
    OfHistory(cfg, s);
    OfMsg(cfg, s, m);
    var g := GrantOf(s, m);
    forall t, sub | (t, sub) in h'.confirmed && t < g.term
      ensures ConfirmedBehind(h', t, sub, g.heldTerm, g.heldSubterm, g.heldSet)
    {
      assert ConfirmedOk(cfg, s, t, sub);
    }
  }

  lemma WitnessVotesUnique(cfg: Config, s: Cluster, m: Msg)
    requires ValidConfig(cfg) && Inv(cfg, s) && m.WitnessVoteReq? && !m.pre && m.term >= s.wit.term && HasWitness(cfg)
    requires W.Grants(s.wit, m.from, m.term, m.pre, m.lastTerm, m.lastSubterm, m.granted)
    ensures VotesUnique(GrantHistory(cfg, s, m))
  {
    hide Inv, LogsOk, CoversOk, CommitsOk, ReadsOk, GrantsOk, WitnessOk;
    OfHistory(cfg, s);
    forall b | b in s.h.votes && b.voter == cfg.wid && b.term == m.term ensures b.cand == m.from {
      OfVote(cfg, s, b);
    }
  }

  lemma WitnessGranted(cfg: Config, s: Cluster, m: Msg)
    requires ValidConfig(cfg) && Inv(cfg, s) && Enabled(cfg, s, WitnessVote(m)) && !m.pre
    requires W.Grants(s.wit, m.from, m.term, m.pre, m.lastTerm, m.lastSubterm, m.granted)
    ensures Inv(cfg, Apply(cfg, s, WitnessVote(m)))
  {
    hide Inv, Apply, GrantOk;
    var w := W.OnVote(s.wit, m.from, m.term, m.pre, m.lastTerm, m.lastSubterm, m.granted);
    var h' := GrantHistory(cfg, s, m);
    var s' := Cluster(s.nodes, s.msgs + {VoteResp(cfg.wid, m.from, m.term, false, false, 0, 0)}, w, h');
    WitnessVoteResult(cfg, s, m);
    NewGrantOk(cfg, s, m, h');
    OfMsg(cfg, s, m);
    assert HasGrant(h', Vote(cfg.wid, m.term, m.from)) by { assert GrantOf(s, m) in h'.grants; }
    assert WitnessMoves(cfg, s, s', h');
    WitnessVotesStay(cfg, s, s');
    WitnessGrantsStay(cfg, s, s');
    WitnessVotesUnique(cfg, s, m);
    hide W.OnVote, W.Grants, Enabled;
    WitnessStep(cfg, s, s', h');
  }
}
