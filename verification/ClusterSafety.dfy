/** The safety theorems of the cluster, over every state of every run. */
module ClusterSafety {
  import opened Quorum
  import opened RaftLogs
  import opened ClusterState
  import opened ClusterInv
  import opened ClusterHistory
  import opened ClusterGrowth
  import opened ClusterTraces
  import opened ClusterQuietSteps
  import opened ClusterAckSteps
  import opened ClusterVoteSteps
  import opened ClusterElectStep
  import opened ClusterAppendSteps
  import opened ClusterCommitStep
  import opened ClusterReadSteps
  import opened ClusterWitnessStep

  // ---- Every reachable state satisfies the invariant -----------------------------------------------------

  lemma InitInv(cfg: Config)
    requires ValidConfig(cfg)
    ensures Inv(cfg, Init(cfg))
  {
  }

  /** Every action keeps the invariant. */
  lemma StepInv(cfg: Config, s: Cluster, a: Action)
    requires ValidConfig(cfg) && Inv(cfg, s) && Enabled(cfg, s, a)
    ensures Inv(cfg, Apply(cfg, s, a))
  {
    hide Inv, Apply, Enabled;
    match a
    case Observe(v, m) => StepObserve(cfg, s, v, m);
    case Campaign(v) => StepCampaign(cfg, s, v);
    case PreCampaign(v) => StepPreCampaign(cfg, s, v);
    case RecvVote(v, m, deny) => StepRecvVote(cfg, s, v, m, deny);
    case RecvPreVote(v, m, deny) => StepRecvPreVote(cfg, s, v, m, deny);
    case RecvVoteResp(v, m) => StepRecvVoteResp(cfg, s, v, m);
    case CommitFromVoteResp(v, m) => StepCommitFromVoteResp(cfg, s, v, m);
    case Elect(v) => StepElect(cfg, s, v);
    case PollWitness(v) => StepPollWitness(cfg, s, v);
    case StepDown(v) => StepStepDown(cfg, s, v);
    case RecvAppend(v, m) => StepRecvAppend(cfg, s, v, m);
    case RecvHeartbeat(v, m) => StepRecvHeartbeat(cfg, s, v, m);
    case RecvSnapshot(v, m) => StepRecvSnapshot(cfg, s, v, m);
    case RecvReadResp(v, m) => StepRecvReadResp(cfg, s, v, m);
    case RejectStale(v, m) => StepRejectStale(cfg, s, v, m);
    case RecvAppendResp(v, m) => StepRecvAppendResp(cfg, s, v, m);
    case RecvHeartbeatResp(v, m) => StepRecvHeartbeatResp(cfg, s, v, m);
    case Propose(v, data) => StepPropose(cfg, s, v, data);
    case Persist(v, index) => StepPersist(cfg, s, v, index);
    case SendAppend(v, to, prev, upto) => StepSendAppend(cfg, s, v, to, prev, upto);
    case SendHeartbeat(v, to, ctx) => StepSendHeartbeat(cfg, s, v, to, ctx);
    case SendSnapshot(v, to, index) => StepSendSnapshot(cfg, s, v, to, index);
    case MaybeCommit(v, shortcut, index) => StepMaybeCommit(cfg, s, v, shortcut, index);
    case AcceptRead(v, ctx, from) => StepAcceptRead(cfg, s, v, ctx, from);
    case ReleaseReads(v, ctx) => StepReleaseReads(cfg, s, v, ctx);
    case Restart(v, commit) => StepRestart(cfg, s, v, commit);
    case NewSubterm(v, excluded) => StepNewSubterm(cfg, s, v, excluded);
    case WitnessWrite(v) => StepWitnessWrite(cfg, s, v);
    case WitnessReject(v) => StepWitnessReject(cfg, s, v);
    case WitnessVote(m) => StepWitnessVote(cfg, s, m);
  }

  lemma {:induction false} RunInv(cfg: Config, run: seq<Cluster>, i: nat)
    requires ValidConfig(cfg) && IsRun(cfg, run) && i < |run|
    ensures Inv(cfg, run[i])
  {
    hide Inv, Apply, Enabled;
    if i == 0 {
      InitInv(cfg);
    } else {
      RunInv(cfg, run, i - 1);
      assert Next(cfg, run[i - 1], run[i]);
      var a :| Enabled(cfg, run[i - 1], a) && run[i] == Apply(cfg, run[i - 1], a);
      StepInv(cfg, run[i - 1], a);
    }
  }

  // ---- The history only grows along a run ---------------------------------------------------------------------

  lemma StepGrows(cfg: Config, s: Cluster, a: Action)
    requires ValidConfig(cfg) && Inv(cfg, s) && Enabled(cfg, s, a)
    ensures Grows(s.h, Apply(cfg, s, a).h)
  {
    hide Inv;
    if a.Campaign? {
      NewCandidacy(cfg, s, a.v, s.nodes[a.v].term + 1);
    } else if a.Elect? {
      ElectGrows(cfg, s, a.v);
    } else if a.Propose? || a.NewSubterm? || a.WitnessWrite? {
      LeaderGrows(cfg, s, a);
    } else if Traceless(a) {
      TracelessKeeps(cfg, s, a);
    } else if Acknowledges(a) {
      AckOnly(cfg, s, a);
    } else {
      OtherGrows(cfg, s, a);
    }
  }

  lemma ElectGrows(cfg: Config, s: Cluster, v: NodeId)
    requires ValidConfig(cfg) && Inv(cfg, s) && Enabled(cfg, s, Elect(v))
    ensures Grows(s.h, Apply(cfg, s, Elect(v)).h)
  {
    hide Inv;
    NotYetElected(cfg, s, v);
  }

  lemma LeaderGrows(cfg: Config, s: Cluster, a: Action)
    requires ValidConfig(cfg) && Inv(cfg, s) && Enabled(cfg, s, a)
    requires a.Propose? || a.NewSubterm? || a.WitnessWrite?
    ensures Grows(s.h, Apply(cfg, s, a).h)
  {
    hide Inv;
    OfNode(cfg, s, a.v);
    hide ReplicaOk, QueueOk, CandidateOk;
  }

  lemma GrowsTrans(a: History, b: History, c: History)
    requires Grows(a, b) && Grows(b, c)
    ensures Grows(a, c)
  {
    forall t | t in a.logs ensures t in c.logs && a.logs[t] <= c.logs[t] {
      assert a.logs[t] <= b.logs[t] <= c.logs[t];
    }
  }

  lemma {:induction false} RunGrows(cfg: Config, run: seq<Cluster>, i: nat, j: nat)
    requires ValidConfig(cfg) && IsRun(cfg, run) && i <= j < |run|
    ensures Grows(run[i].h, run[j].h)
  {
    hide Inv, Apply, Enabled;
    if i < j {
      RunGrows(cfg, run, i, j - 1);
      RunInv(cfg, run, j - 1);
      assert Next(cfg, run[j - 1], run[j]);
      var a :| Enabled(cfg, run[j - 1], a) && run[j] == Apply(cfg, run[j - 1], a);
      StepGrows(cfg, run[j - 1], a);
      GrowsTrans(run[i].h, run[j - 1].h, run[j].h);
    }
  }

  // ---- Election Safety --------------------------------------------------------------------------------------------

  /** At most one leader per term, at whatever times the two lead. */
  lemma ElectionSafety(cfg: Config, run: seq<Cluster>, i: nat, j: nat, v: NodeId, w: NodeId)
    requires ValidConfig(cfg) && IsRun(cfg, run) && i <= j < |run|
    requires IsRole(run[i], v, Leader) && IsRole(run[j], w, Leader)
    requires run[i].nodes[v].term == run[j].nodes[w].term
    ensures v == w
  {
    hide Inv, IsRun;
    RunInv(cfg, run, i);
    RunInv(cfg, run, j);
    RunGrows(cfg, run, i, j);
    OfNode(cfg, run[i], v);
    OfNode(cfg, run[j], w);
    var t := run[i].nodes[v].term;
    assert run[j].h.elect[t] == run[i].h.elect[t];
  }

  /** A replica or witness that granted two votes of one term granted them to the same candidate. */
  lemma VoteOnce(cfg: Config, run: seq<Cluster>, i: nat, m: Msg, m': Msg)
    requires ValidConfig(cfg) && IsRun(cfg, run) && i < |run|
    requires m in run[i].msgs && m.VoteResp? && !m.pre && !m.reject
    requires m' in run[i].msgs && m'.VoteResp? && !m'.pre && !m'.reject
    requires m.from == m'.from && m.term == m'.term
    ensures m.to == m'.to
  {
    hide Inv, IsRun;
    RunInv(cfg, run, i);
    OfMsg(cfg, run[i], m);
    OfMsg(cfg, run[i], m');
    OfHistory(cfg, run[i]);
    assert Vote(m.from, m.term, m.to) in run[i].h.votes && Vote(m.from, m.term, m'.to) in run[i].h.votes;
  }

  /** Campaigning for pre-votes, answering them, counting them and asking the witness for one moves no
      term, vote or log, and leaves the witness as it was. */
  lemma PreVotesChangeNothing(cfg: Config, s: Cluster, a: Action, u: NodeId)
    requires Enabled(cfg, s, a) && u in s.nodes
    requires || a.PreCampaign? || a.RecvPreVote? || (a.RecvVoteResp? && a.m.pre) || (a.WitnessVote? && a.m.pre)
             || (a.PollWitness? && s.nodes[a.v].role == PreCandidate)
    ensures var n, n' := s.nodes[u], Apply(cfg, s, a).nodes[u];
            n'.term == n.term && n'.vote == n.vote && n'.log == n.log
    ensures Apply(cfg, s, a).h == s.h && Apply(cfg, s, a).wit == s.wit
  {
  }

  /** A leader only ever extends its log while it leads a term. */
  lemma LeaderAppendOnly(cfg: Config, run: seq<Cluster>, i: nat, j: nat, v: NodeId)
    requires ValidConfig(cfg) && IsRun(cfg, run) && i <= j < |run|
    requires IsRole(run[i], v, Leader) && IsRole(run[j], v, Leader) && run[i].nodes[v].term == run[j].nodes[v].term
    ensures run[i].nodes[v].log <= run[j].nodes[v].log
  {
    hide Inv, IsRun;
    RunInv(cfg, run, i);
    RunInv(cfg, run, j);
    RunGrows(cfg, run, i, j);
    OfNode(cfg, run[i], v);
    OfNode(cfg, run[j], v);
  }

  // ---- Log Matching --------------------------------------------------------------------------------------------------

  /** Logs of any two replicas, at any two times, that hold the same term at an index are the same
      up to that index. */
  lemma LogMatchingOfRuns(cfg: Config, run: seq<Cluster>, i: nat, j: nat, v: NodeId, w: NodeId, k: nat)
    requires ValidConfig(cfg) && IsRun(cfg, run) && i <= j < |run| && v in run[i].nodes && w in run[j].nodes
    requires 1 <= k <= |run[i].nodes[v].log| && k <= |run[j].nodes[w].log|
    requires TermAt(run[i].nodes[v].log, k) == TermAt(run[j].nodes[w].log, k)
    ensures run[i].nodes[v].log[..k] == run[j].nodes[w].log[..k]
  {
    hide Inv, IsRun;
    RunInv(cfg, run, i);
    RunInv(cfg, run, j);
    RunGrows(cfg, run, i, j);
    OfNode(cfg, run[i], v);
    OfNode(cfg, run[j], w);
    ValidStays(run[i].h, run[j].h, run[i].nodes[v].log);
    LogMatching(run[j].h, run[i].nodes[v].log, run[j].nodes[w].log, k);
  }

  /** Terms never decrease along a log, and none is beyond the replica's own. */
  lemma TermsOrdered(cfg: Config, run: seq<Cluster>, i: nat, v: NodeId, j: nat, k: nat)
    requires ValidConfig(cfg) && IsRun(cfg, run) && i < |run| && v in run[i].nodes
    requires 1 <= j <= k <= |run[i].nodes[v].log|
    ensures 1 <= TermAt(run[i].nodes[v].log, j) <= TermAt(run[i].nodes[v].log, k) <= run[i].nodes[v].term
  {
    hide Inv, IsRun;
    RunInv(cfg, run, i);
    OfNode(cfg, run[i], v);
    OfHistory(cfg, run[i]);
    TermsGrow(cfg, run[i].h, run[i].nodes[v].log, j - 1, k - 1);
    TermPositive(cfg, run[i].h, run[i].nodes[v].log, j - 1);
  }

  // ---- State Machine Safety --------------------------------------------------------------------------------------------

  /** Two committed prefixes of any length agree where both reach. */
  lemma CommittedAgree(cfg: Config, s: Cluster, a: Log, b: Log, k: nat)
    requires ValidConfig(cfg) && Inv(cfg, s)
    requires Committed(s.h, a, k) && Committed(s.h, b, k) && k <= |a| && k <= |b|
    ensures a[..k] == b[..k]
  {
    hide Inv;
    if k > 0 {
      var c :| c in s.h.commits && Covers(s.h, c, a, k);
      var d :| d in s.h.commits && Covers(s.h, d, b, k);
      if c.term <= d.term {
        CommittedInTerm(cfg, s, d.term, c, a, k);
      } else {
        CommittedInTerm(cfg, s, c.term, d, b, k);
      }
    }
  }

  lemma CommittedShorter(h: History, log: Log, k: nat, j: nat)
    requires Committed(h, log, k) && j <= k <= |log|
    ensures Committed(h, log, j)
  {
    if j > 0 {
      var c :| c in h.commits && Covers(h, c, log, k);
      assert log[..k][..j] == log[..j] && h.logs[c.term][..k][..j] == h.logs[c.term][..j];
      assert Covers(h, c, log, j);
    }
  }

  /** Whatever two replicas have committed, each at its own time, is the same entry at every index. */
  lemma StateMachineSafety(cfg: Config, run: seq<Cluster>, i: nat, j: nat, v: NodeId, w: NodeId, k: nat)
    requires ValidConfig(cfg) && IsRun(cfg, run) && i <= j < |run| && v in run[i].nodes && w in run[j].nodes
    requires k <= run[i].nodes[v].committed && k <= run[j].nodes[w].committed
    ensures k <= |run[i].nodes[v].log| && k <= |run[j].nodes[w].log|
    ensures run[i].nodes[v].log[..k] == run[j].nodes[w].log[..k]
  {
    hide Inv, IsRun;
    RunInv(cfg, run, i);
    RunInv(cfg, run, j);
    RunGrows(cfg, run, i, j);
    OfNode(cfg, run[i], v);
    OfNode(cfg, run[j], w);
    CommittedStays(run[i].h, run[j].h, run[i].nodes[v].log, run[i].nodes[v].committed);
    CommittedShorter(run[j].h, run[i].nodes[v].log, run[i].nodes[v].committed, k);
    CommittedShorter(run[j].h, run[j].nodes[w].log, run[j].nodes[w].committed, k);
    CommittedAgree(cfg, run[j], run[i].nodes[v].log, run[j].nodes[w].log, k);
  }

  // ---- Leader Completeness -----------------------------------------------------------------------------------------------

  /** Once a leader commits index `k` in one step, every later leader of the same or a higher term
      has the committed prefix, with or without a witness. */
  lemma LeaderCompletenessOfRuns(cfg: Config, run: seq<Cluster>, i: nat, j: nat, v: NodeId, w: NodeId)
    requires ValidConfig(cfg) && IsRun(cfg, run) && i + 1 <= j < |run|
    requires IsRole(run[i], v, Leader) && IsRole(run[i + 1], v, Leader)
    requires run[i].nodes[v].committed < run[i + 1].nodes[v].committed
    requires IsRole(run[j], w, Leader) && run[j].nodes[w].term >= run[i].nodes[v].term
    ensures run[i + 1].nodes[v].committed <= |run[i + 1].nodes[v].log|
    ensures run[i + 1].nodes[v].log[..run[i + 1].nodes[v].committed] <= run[j].nodes[w].log
  {
    hide Inv, Apply, Enabled;
    var k, t := run[i + 1].nodes[v].committed, run[i].nodes[v].term;
    assert Next(cfg, run[i], run[i + 1]);
    var a :| Enabled(cfg, run[i], a) && run[i + 1] == Apply(cfg, run[i], a);
    CommitRecorded(cfg, run[i], a, v);
    hide IsRun;
    RunInv(cfg, run, i + 1);
    RunInv(cfg, run, j);
    RunGrows(cfg, run, i + 1, j);
    OfNode(cfg, run[i + 1], v);
    OfNode(cfg, run[j], w);
    var c := Commit(t, k);
    assert run[i + 1].h.logs[t] == run[i + 1].nodes[v].log;
    PrefixStays(run[i + 1].h, run[j].h, t, k);
    assert Covers(run[j].h, c, run[i + 1].nodes[v].log, k);
    CommittedInTerm(cfg, run[j], run[j].nodes[w].term, c, run[i + 1].nodes[v].log, k);
  }

  // ---- The witness -----------------------------------------------------------------------------------------------------------

  /** A leader that counts the witness for index `k` had a write confirmed by it in some subterm no
      older than entry `k`, and one less than a quorum of regular voters of that subterm's replication
      set have acknowledged `k` to it. */
  lemma ShortcutAcksBacked(cfg: Config, run: seq<Cluster>, i: nat, v: NodeId, k: nat) returns (sub: nat, backers: set<NodeId>)
    requires ValidConfig(cfg) && IsRun(cfg, run) && i < |run| && IsRole(run[i], v, Leader) && HasWitness(cfg)
    requires cfg.wid in run[i].nodes[v].matched && k == run[i].nodes[v].matched[cfg.wid] > 0
    ensures 1 <= k <= |run[i].nodes[v].log|
    ensures sub >= 1 && (run[i].nodes[v].term, sub) in run[i].h.confirmed
    ensures run[i].nodes[v].log[k - 1].term == run[i].nodes[v].term ==> run[i].nodes[v].log[k - 1].subterm <= sub
    ensures backers <= run[i].h.confirmed[(run[i].nodes[v].term, sub)]
    ensures backers <= cfg.incoming - {cfg.wid} && |backers| >= Majority(|cfg.incoming|) - 1
    ensures forall x | x in backers :: exists a :: a in run[i].h.acks && a.node == x && a.term == run[i].nodes[v].term && a.index >= k
  {
    hide Inv, IsRun;
    RunInv(cfg, run, i);
    OfNode(cfg, run[i], v);
    OfHistory(cfg, run[i]);
    var h, n := run[i].h, run[i].nodes[v];
    assert MatchOk(cfg, h, n.term, cfg.wid, k);
    sub :| BackedIn(cfg, h, n.term, sub, k);
    assert ConfirmedOk(cfg, run[i], n.term, sub);
    backers := (h.confirmed[(n.term, sub)] - {cfg.wid}) * AckSet(h, n.term, k);
  }

  /** The step that raises the witness's index: the write of the very subterm the leader is in was
      confirmed, with its current replication set, and one less than a quorum of regular members of that
      set matched the index before. */
  lemma ShortcutRaised(cfg: Config, run: seq<Cluster>, i: nat, v: NodeId) returns (k: nat, backers: set<NodeId>)
    requires ValidConfig(cfg) && IsRun(cfg, run) && i + 1 < |run| && HasWitness(cfg)
    requires IsRole(run[i], v, Leader) && IsRole(run[i + 1], v, Leader)
    requires MatchOf(run[i].nodes[v].matched, cfg.wid) < MatchOf(run[i + 1].nodes[v].matched, cfg.wid)
    ensures k == MatchOf(run[i + 1].nodes[v].matched, cfg.wid)
    ensures var n := run[i].nodes[v];
            && n.epoch.subterm >= 1 && (n.term, n.epoch.subterm) in run[i].h.confirmed
            && run[i].h.confirmed[(n.term, n.epoch.subterm)] == ReplicationSet(cfg, n)
            && backers <= ReplicationSet(cfg, n) - {cfg.wid} && |backers| >= Majority(|cfg.incoming|) - 1
            && forall x | x in backers :: MatchOf(n.matched, x) >= k
  {
    hide Inv, Apply, Enabled;
    assert Next(cfg, run[i], run[i + 1]);
    var s := run[i];
    var a :| Enabled(cfg, s, a) && run[i + 1] == Apply(cfg, s, a);
    RunInv(cfg, run, i);
    hide IsRun;
    OfNode(cfg, s, v);
    OfHistory(cfg, s);
    NoWitnessAcks(cfg, s, a);
    RaisedBy(cfg, s, a, v);
    var n := s.nodes[v];
    k := MatchOf(run[i + 1].nodes[v].matched, cfg.wid);
    backers := AckedBy(ReplicationSet(cfg, n), n.matched, k);
  }

  /** The witness never acknowledges an append itself. */
  lemma NoWitnessAcks(cfg: Config, s: Cluster, a: Action)
    requires ValidConfig(cfg) && Inv(cfg, s) && Enabled(cfg, s, a) && HasWitness(cfg)
    ensures a.RecvAppendResp? && a.m.from == cfg.wid ==> a.m.index == 0
  {
    if a.RecvAppendResp? && a.m.from == cfg.wid && a.m.index > 0 {
      hide Inv;
      OfMsg(cfg, s, a.m);
      OfAck(cfg, s, Ack(cfg.wid, a.m.term, a.m.index));
      OfHistory(cfg, s);
    }
  }
}
