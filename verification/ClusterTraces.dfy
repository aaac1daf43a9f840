/** What single actions add to the history. */
module ClusterTraces {
  import opened Quorum
  import opened RaftLogs
  import opened ClusterState
  import opened ClusterGrowth

  /** The actions that leave no trace in the history. */
  predicate Traceless(a: Action) {
    || a.Observe? || a.PreCampaign? || a.RecvPreVote? || a.RecvVoteResp? || a.CommitFromVoteResp? || a.PollWitness?
    || a.StepDown? || a.RecvHeartbeat? || a.RecvReadResp? || a.RejectStale? || a.RecvAppendResp? || a.RecvHeartbeatResp?
    || a.SendAppend? || a.SendHeartbeat? || a.SendSnapshot? || a.Restart? || a.WitnessReject?
  }

  lemma TracelessKeeps(cfg: Config, s: Cluster, a: Action)
    requires Enabled(cfg, s, a) && Traceless(a)
    ensures Apply(cfg, s, a).h == s.h
  {
    hide Apply, Enabled;
    if Sends(a) { SendingKeeps(cfg, s, a); } else { ReceivingKeeps(cfg, s, a); }
  }

  predicate Sends(a: Action) {
    || a.PreCampaign? || a.PollWitness? || a.StepDown? || a.SendAppend? || a.SendHeartbeat? || a.SendSnapshot?
    || a.Restart? || a.WitnessReject?
  }

  lemma SendingKeeps(cfg: Config, s: Cluster, a: Action)
    requires Enabled(cfg, s, a) && Sends(a)
    ensures Apply(cfg, s, a).h == s.h
  {
    hide BecomeFollower, Quorate, GrantedSet, LastSubterm, MatchOf, BecomePreCandidate, Synced, TermAt, LastTerm, Raises,
      HighestCommit, HandleAppend, HandleSnapshot, IsCommitIndex, IsShortcutIndex, Shortcut, R.Released, R.Advance,
      W.Grants, W.OnVote, W.OnAppend, Following, HandleHeartbeat, CommitByVote, CanVote, VoteAnswer;
  }

  lemma ReceivingKeeps(cfg: Config, s: Cluster, a: Action)
    requires Enabled(cfg, s, a) && Traceless(a) && !Sends(a)
    ensures Apply(cfg, s, a).h == s.h
  {
    hide CommitByVote, BecomeFollower, Following, HandleHeartbeat, Quorate, R.RecvAck, GrantedSet, VoteAnswer, CanVote,
      LastSubterm, MatchOf, BecomePreCandidate, CommitAt, Synced, TermAt, LastTerm, Raises, HighestCommit, HandleAppend,
      HandleSnapshot, IsCommitIndex, IsShortcutIndex, Shortcut, R.Released, R.Advance, W.Grants, W.OnVote, W.OnAppend;
  }

  /** The actions that record at most an acknowledgment. */
  predicate Acknowledges(a: Action) {
    a.RecvAppend? || a.RecvSnapshot? || a.Persist?
  }

  lemma AckOnly(cfg: Config, s: Cluster, a: Action)
    requires Enabled(cfg, s, a) && Acknowledges(a)
    ensures Grows(s.h, Apply(cfg, s, a).h) && Apply(cfg, s, a).h == s.h.(acks := Apply(cfg, s, a).h.acks)
  {
    hide HighestCommit, HandleAppend, HandleSnapshot, HandleHeartbeat, Following, R.Released, R.Advance, R.RecvAck,
      R.AddRequest, W.Grants, W.OnVote, W.OnAppend, CanVote, Quorate, IsCommitIndex, IsShortcutIndex, GrantedSet,
      VotersOf, VoteAnswer, LastSubterm, MatchOf, CommitByVote, BecomeFollower, Shortcut, BecomeLeader, UpToDate, Spliced,
      TermAt, LastTerm, Handles, Raises, HasWitness, ReplicatesToWitness;
  }

  lemma OtherGrows(cfg: Config, s: Cluster, a: Action)
    requires Enabled(cfg, s, a) && !Traceless(a) && !Acknowledges(a)
    requires !a.Campaign? && !a.Elect? && !a.Propose? && !a.NewSubterm? && !a.WitnessWrite?
    ensures Grows(s.h, Apply(cfg, s, a).h)
  {
    hide HighestCommit, HandleAppend, HandleSnapshot, HandleHeartbeat, Following, R.Released, R.Advance, R.RecvAck,
      R.AddRequest, W.Grants, W.OnVote, W.OnAppend, CanVote, Quorate, IsCommitIndex, IsShortcutIndex, GrantedSet,
      VotersOf, VoteAnswer, LastSubterm, MatchOf, CommitByVote, BecomeFollower, Shortcut, BecomeLeader, UpToDate, Spliced,
      TermAt, LastTerm, Handles, Raises, HasWitness, ReplicatesToWitness;
  }

  ghost predicate IsAccepted(cfg: Config, s: Cluster, a: Action, ctx: R.Context)
    requires Enabled(cfg, s, a)
  {
    && a.AcceptRead? && a.v in s.nodes && a.ctx == ctx && ctx in Apply(cfg, s, a).h.reqs
    && Apply(cfg, s, a).h.reqs[ctx]
       == ReadRecord(s.nodes[a.v].term, a.from, s.nodes[a.v].committed, s.h.elect.Keys, HighestCommit(s))
  }

  /** Only accepting a read adds a request, with the commit indices of that moment. */
  lemma AcceptRecorded(cfg: Config, s: Cluster, a: Action, ctx: R.Context)
    requires Enabled(cfg, s, a)
    ensures ctx !in s.h.reqs && ctx in Apply(cfg, s, a).h.reqs ==> IsAccepted(cfg, s, a, ctx)
  {
    if Traceless(a) {
      TracelessKeeps(cfg, s, a);
    } else if Acknowledges(a) {
      AckOnly(cfg, s, a);
    } else {
      OtherRequests(cfg, s, a, ctx);
    }
  }

  lemma OtherRequests(cfg: Config, s: Cluster, a: Action, ctx: R.Context)
    requires Enabled(cfg, s, a) && !Traceless(a) && !Acknowledges(a)
    ensures ctx !in s.h.reqs && ctx in Apply(cfg, s, a).h.reqs ==> IsAccepted(cfg, s, a, ctx)
  {
    hide HighestCommit, HandleAppend, HandleSnapshot, HandleHeartbeat, Following, R.Released, R.Advance, R.RecvAck,
      R.AddRequest, W.Grants, W.OnVote, W.OnAppend, CanVote, Quorate, IsCommitIndex, IsShortcutIndex, GrantedSet,
      VotersOf, VoteAnswer, LastSubterm, MatchOf, CommitByVote, BecomeFollower, Shortcut, BecomeLeader, UpToDate, Spliced,
      TermAt, LastTerm, Handles, Raises, HasWitness, ReplicatesToWitness;
  }

  /** A leader that stays leader moves its commit index only by its own commit rule. */
  lemma CommitRecorded(cfg: Config, s: Cluster, a: Action, v: NodeId)
    requires Enabled(cfg, s, a) && IsRole(s, v, Leader) && IsRole(Apply(cfg, s, a), v, Leader)
    requires s.nodes[v].committed < Apply(cfg, s, a).nodes[v].committed
    ensures Apply(cfg, s, a).nodes[v].term == s.nodes[v].term
    ensures Commit(s.nodes[v].term, Apply(cfg, s, a).nodes[v].committed) in Apply(cfg, s, a).h.commits
  {
    hide HighestCommit, HandleAppend, HandleSnapshot, HandleHeartbeat, Following, R.Released, R.Advance, R.RecvAck,
      R.AddRequest, W.Grants, W.OnVote, W.OnAppend, CanVote, Quorate, IsCommitIndex, IsShortcutIndex, GrantedSet,
      VotersOf, WithAck, VoteAnswer, LastSubterm, MatchOf;
  }

  /** A leader that stays leader raises the witness's index only by the shortcut of its commit rule. */
  lemma RaisedBy(cfg: Config, s: Cluster, a: Action, v: NodeId)
    requires ValidConfig(cfg) && HasWitness(cfg) && Enabled(cfg, s, a) && s.nodes.Keys <= cfg.nodes
    requires IsRole(s, v, Leader) && IsRole(Apply(cfg, s, a), v, Leader)
    requires a.RecvAppendResp? && a.m.from == cfg.wid ==> a.m.index == 0
    requires MatchOf(s.nodes[v].matched, cfg.wid) < MatchOf(Apply(cfg, s, a).nodes[v].matched, cfg.wid)
    ensures a.MaybeCommit? && a.v == v
    ensures ReplicatesToWitness(cfg, s.nodes[v]) && s.nodes[v].epoch.contacted == s.nodes[v].epoch.subterm
    ensures a.shortcut == MatchOf(Apply(cfg, s, a).nodes[v].matched, cfg.wid) && IsShortcutIndex(cfg, s.nodes[v], a.shortcut)
  {
    hide HighestCommit, HandleAppend, HandleSnapshot, HandleHeartbeat, R.Released, R.Advance, R.RecvAck,
      R.AddRequest, W.Grants, W.OnVote, W.OnAppend, CanVote, Quorate, IsCommitIndex, IsShortcutIndex, GrantedSet,
      VotersOf, WithAck, VoteAnswer, LastSubterm;
  }
}
