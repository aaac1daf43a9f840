/** What every message of a run satisfies when it is delivered, whatever the receiver does with it. */
module ClusterMessages {
  import opened Quorum
  import opened RaftLogs
  import opened ClusterState

  /** Vote requests go to all others, everything else to one replica. */
  predicate Addressed(v: NodeId, m: Msg) {
    && !m.WitnessVoteReq? && (m.VoteReq? ==> m.from != v) && (!m.VoteReq? ==> m.to == v)
  }

  /** A message addressed to `v`, whose term is `term`: grants carry no commit index, a granted pre-vote
      answers a request for at most the next term, and acknowledgments come from others. */
  predicate Sound(v: NodeId, term: nat, m: Msg) {
    && Addressed(v, m)
    && (m.VoteResp? && !m.reject ==> m.commit == 0 && (m.pre ==> m.term <= term + 1))
    && (m.AppendResp? ==> m.from != v)
  }

  // ---- The invariant of messages --------------------------------------------------------------------------

  predicate Sent(s: Cluster, m: Msg) {
    match m
    case VoteReq(from, term, pre, _, _, _, _) => pre ==> from in s.nodes && term <= s.nodes[from].term + 1
    case VoteResp(_, to, term, pre, reject, commit, _) =>
      !reject ==> commit == 0 && (pre && to in s.nodes ==> term <= s.nodes[to].term + 1)
    case AppendReq(from, to, _, _, _, _, _) => from != to
    case AppendResp(from, to, _, _, _) => from != to
    case Heartbeat(from, to, _, _, _) => from != to
    case Snapshot(from, to, _, _) => from != to
    case WitnessVoteReq(from, term, pre, _, _, _) => pre ==> from in s.nodes && term <= s.nodes[from].term + 1
    case _ => true
  }

  predicate AllSent(cfg: Config, s: Cluster) {
    s.nodes.Keys == cfg.nodes && forall m | m in s.msgs :: Sent(s, m)
  }

  /** No action takes a term back. */
  lemma TermsRise(cfg: Config, s: Cluster, a: Action, v: NodeId)
    requires Enabled(cfg, s, a) && v in s.nodes
    ensures v in Apply(cfg, s, a).nodes && s.nodes[v].term <= Apply(cfg, s, a).nodes[v].term
  {
    if a.RecvAppend? || a.RecvHeartbeat? || a.RecvSnapshot? {
      FollowersRise(cfg, s, a, v);
    } else if Tallies(a) {
      TalliesRise(cfg, s, a, v);
    } else {
      OthersRise(cfg, s, a, v);
    }
  }

  /** The actions around elections. */
  predicate Tallies(a: Action) {
    || a.Observe? || a.Campaign? || a.PreCampaign? || a.RecvVote? || a.RecvPreVote? || a.RecvVoteResp? || a.CommitFromVoteResp?
    || a.Elect? || a.PollWitness? || a.StepDown? || a.WitnessVote?
  }

  lemma TalliesRise(cfg: Config, s: Cluster, a: Action, v: NodeId)
    requires Enabled(cfg, s, a) && v in s.nodes && Tallies(a)
    ensures v in Apply(cfg, s, a).nodes && s.nodes[v].term <= Apply(cfg, s, a).nodes[v].term
  {
    hide HighestCommit, R.Released, R.Advance, R.RecvAck, R.AddRequest, W.Grants, W.OnVote, W.OnAppend, CanVote, Quorate,
      IsCommitIndex, IsShortcutIndex, GrantedSet, VotersOf, VoteAnswer, LastSubterm, MatchOf, WithAck, Spliced, TermAt,
      HandleAppend, HandleHeartbeat, HandleSnapshot, Following, Answers, OwnAnswers, UpToDate, LastTerm;
  }

  lemma OthersRise(cfg: Config, s: Cluster, a: Action, v: NodeId)
    requires Enabled(cfg, s, a) && v in s.nodes && !Tallies(a) && !a.RecvAppend? && !a.RecvHeartbeat? && !a.RecvSnapshot?
    ensures v in Apply(cfg, s, a).nodes && s.nodes[v].term <= Apply(cfg, s, a).nodes[v].term
  {
    hide HighestCommit, R.Released, R.Advance, R.RecvAck, R.AddRequest, W.Grants, W.OnVote, W.OnAppend, CanVote, Quorate,
      IsCommitIndex, IsShortcutIndex, GrantedSet, VotersOf, VoteAnswer, LastSubterm, MatchOf, WithAck, Spliced, TermAt,
      HandleAppend, HandleHeartbeat, HandleSnapshot, Following, Answers, OwnAnswers, UpToDate, LastTerm;
  }

  lemma FollowersRise(cfg: Config, s: Cluster, a: Action, v: NodeId)
    requires Enabled(cfg, s, a) && v in s.nodes && (a.RecvAppend? || a.RecvHeartbeat? || a.RecvSnapshot?)
    ensures v in Apply(cfg, s, a).nodes && s.nodes[v].term <= Apply(cfg, s, a).nodes[v].term
  {
    hide WithAck, Spliced, TermAt;
  }

  lemma NewSent(cfg: Config, s: Cluster, a: Action, m: Msg)
    requires ValidConfig(cfg) && AllSent(cfg, s) && Enabled(cfg, s, a)
    requires m in Apply(cfg, s, a).msgs && m !in s.msgs
    ensures Sent(s, m)
  {
    hide HighestCommit, R.Released, R.Advance, R.RecvAck, R.AddRequest, W.Grants, W.OnVote, W.OnAppend, CanVote, Quorate,
      IsCommitIndex, IsShortcutIndex, GrantedSet, VotersOf, LastSubterm, MatchOf, WithAck, Spliced, TermAt, CommitByVote,
      Shortcut, BecomeLeader, HandleHeartbeat, HandleAppend, HandleSnapshot, LastTerm;
  }

  lemma SentStays(s: Cluster, s': Cluster, m: Msg)
    requires Sent(s, m) && s'.nodes.Keys == s.nodes.Keys && forall v | v in s.nodes :: s.nodes[v].term <= s'.nodes[v].term
    ensures Sent(s', m)
  {
  }

  lemma {:induction false} RunSent(cfg: Config, run: seq<Cluster>, i: nat)
    requires ValidConfig(cfg) && IsRun(cfg, run) && i < |run|
    ensures AllSent(cfg, run[i])
  {
    hide Apply, Enabled, Sent;
    if i > 0 {
      RunSent(cfg, run, i - 1);
      assert Next(cfg, run[i - 1], run[i - 1 + 1]);
      var s := run[i - 1];
      var a :| Enabled(cfg, s, a) && run[i] == Apply(cfg, s, a);
      MembersStay(cfg, s, a);
      forall v | v in s.nodes ensures s.nodes[v].term <= run[i].nodes[v].term {
        TermsRise(cfg, s, a, v);
      }
      forall m | m in run[i].msgs ensures Sent(run[i], m) {
        if m !in s.msgs { NewSent(cfg, s, a, m); }
        SentStays(s, run[i], m);
      }
    }
  }

  /** Replicas neither join nor leave. */
  lemma MembersStay(cfg: Config, s: Cluster, a: Action)
    requires Enabled(cfg, s, a)
    ensures Apply(cfg, s, a).nodes.Keys == s.nodes.Keys
  {
    hide HighestCommit, R.Released, R.Advance, R.RecvAck, R.AddRequest, W.Grants, W.OnVote, W.OnAppend, CanVote, Quorate,
      IsCommitIndex, IsShortcutIndex, GrantedSet, VotersOf, VoteAnswer, LastSubterm, MatchOf, WithAck, Spliced, TermAt,
      CommitByVote, Shortcut, BecomeLeader, HandleHeartbeat, HandleAppend, HandleSnapshot, LastTerm, BecomeFollower, Following;
  }

  /** What a replica may rely on when a message of a run reaches it. */
  lemma Delivered(cfg: Config, run: seq<Cluster>, i: nat, v: NodeId, m: Msg)
    requires ValidConfig(cfg) && IsRun(cfg, run) && i < |run| && v in run[i].nodes && m in run[i].msgs && Addressed(v, m)
    ensures Sound(v, run[i].nodes[v].term, m)
  {
    hide IsRun;
    RunSent(cfg, run, i);
    assert Sent(run[i], m);
  }
}
