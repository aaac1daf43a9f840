/** What linearizable reads mean on runs, and the configurations that have them. Two readings of the
    witness's election are told apart: as intended, a candidate asks the witness whenever one vote is
    missing; as written, only the poll of its own vote asks in a form the witness understands, because
    later polls pass on the type of the response they count (src/raft.rs:2812, src/witness.rs:131). */
module ReadRuns {
  import opened Quorum
  import opened RaftLogs
  import opened ClusterState
  import opened ClusterInv
  import opened ClusterReads
  import opened ClusterSafety

  datatype Polling = Intended | AsWritten

  /** As written, the witness is asked while nobody else's vote has been counted. */
  predicate Polls(polling: Polling, s: Cluster, a: Action) {
    polling.AsWritten? && a.PollWitness? && a.v in s.nodes ==> s.nodes[a.v].votes.Keys == {a.v}
  }

  ghost predicate NextBy(cfg: Config, polling: Polling, s: Cluster, t: Cluster) {
    exists a :: Enabled(cfg, s, a) && Polls(polling, s, a) && t == Apply(cfg, s, a)
  }

  ghost predicate IsRunBy(cfg: Config, polling: Polling, run: seq<Cluster>) {
    && run != []
    && run[0] == Init(cfg)
    && forall i | 0 <= i < |run| - 1 :: NextBy(cfg, polling, run[i], run[i + 1])
  }

  /** The read that a leader accepts after state `i` has been answered to `v` with `r` by state `j`. */
  datatype Read = Read(i: nat, j: nat, l: NodeId, from: NodeId, v: NodeId, r: ReadState)

  ghost predicate Reads(cfg: Config, polling: Polling, run: seq<Cluster>, x: Read) {
    && IsRunBy(cfg, polling, run) && x.i + 1 <= x.j < |run|
    && Asked(cfg, run, x.i, x.l, x.r.ctx, x.from) && Answered(run[x.j], x.v, x.r)
  }

  /** No read is answered with less than some replica had committed when the read was accepted. */
  ghost predicate ReadsLinearizable(cfg: Config, polling: Polling) {
    forall run: seq<Cluster>, x: Read, w: NodeId | Reads(cfg, polling, run, x) && w in run[x.i].nodes ::
      x.r.index >= run[x.i].nodes[w].committed
  }

  /** The configurations with linearizable reads. */
  predicate KeepsReads(cfg: Config, polling: Polling) {
    HasWitness(cfg) ==> if polling.Intended? then |cfg.incoming| % 2 == 0 else |cfg.incoming| != 3
  }

  // ---- Runs of either kind are runs -----------------------------------------------------------------------

  lemma IsRunOf(cfg: Config, polling: Polling, run: seq<Cluster>)
    requires IsRunBy(cfg, polling, run)
    ensures IsRun(cfg, run)
  {
    hide Apply, Enabled;
    forall i | 0 <= i < |run| - 1 ensures Next(cfg, run[i], run[i + 1]) {
      assert NextBy(cfg, polling, run[i], run[i + 1]);
    }
  }

  lemma IntendedRun(cfg: Config, run: seq<Cluster>)
    ensures IsRun(cfg, run) <==> IsRunBy(cfg, Intended, run)
  {
    hide Apply, Enabled;
    if IsRun(cfg, run) {
      forall i | 0 <= i < |run| - 1 ensures NextBy(cfg, Intended, run[i], run[i + 1]) {
        assert Next(cfg, run[i], run[i + 1]);
        var a :| Enabled(cfg, run[i], a) && run[i + 1] == Apply(cfg, run[i], a);
        assert Polls(Intended, run[i], a);
      }
    }
    if IsRunBy(cfg, Intended, run) {
      IsRunOf(cfg, Intended, run);
    }
  }

  // ---- As written, more than three voters never hear from the witness ------------------------------------------

  /** Only polling sends the witness a vote request. */
  lemma PollSends(cfg: Config, s: Cluster, a: Action, m: Msg)
    requires Enabled(cfg, s, a) && m in Apply(cfg, s, a).msgs && m.WitnessVoteReq?
    ensures m in s.msgs || a.PollWitness?
  {
    hide HighestCommit, HandleAppend, HandleSnapshot, HandleHeartbeat, Following, R.Released, R.Advance, R.RecvAck,
      R.AddRequest, W.Grants, W.OnVote, W.OnAppend, CanVote, Quorate, IsCommitIndex, IsShortcutIndex, GrantedSet,
      VotersOf, WithAck, LastSubterm, MatchOf, CommitByVote, BecomeFollower, Shortcut, BecomeLeader;
  }

  /** One vote is one short of a majority of at most three. */
  lemma OwnVoteShort(cfg: Config, s: Cluster, a: Action)
    requires ValidConfig(cfg) && a.PollWitness? && Enabled(cfg, s, a) && Polls(AsWritten, s, a)
    ensures |cfg.incoming| <= 3
  {
    var own := cfg.incoming * GrantedSet(s.nodes[a.v].votes);
    SubsetSize(own, {a.v});
  }

  lemma {:induction false} NoPolls(cfg: Config, run: seq<Cluster>, i: nat)
    requires ValidConfig(cfg) && IsRunBy(cfg, AsWritten, run) && i < |run| && |cfg.incoming| > 3
    ensures forall m | m in run[i].msgs :: !m.WitnessVoteReq?
  {
    hide Apply, Enabled;
    if i > 0 {
      NoPolls(cfg, run, i - 1);
      assert NextBy(cfg, AsWritten, run[i - 1], run[i - 1 + 1]);
      var a :| Enabled(cfg, run[i - 1], a) && Polls(AsWritten, run[i - 1], a) && run[i] == Apply(cfg, run[i - 1], a);
      forall m | m in run[i].msgs ensures !m.WitnessVoteReq? {
        if m.WitnessVoteReq? {
          PollSends(cfg, run[i - 1], a, m);
          OwnVoteShort(cfg, run[i - 1], a);
        }
      }
    }
  }

  lemma WitnessDecidesNothing(cfg: Config, run: seq<Cluster>, j: nat)
    requires ValidConfig(cfg) && IsRunBy(cfg, AsWritten, run) && j < |run| && HasWitness(cfg) && |cfg.incoming| > 3
    ensures ReadsCovered(cfg, run[j].h)
  {
    hide Inv, IsRunBy;
    NoPolls(cfg, run, j);
    IsRunOf(cfg, AsWritten, run);
    hide IsRun;
    RunInv(cfg, run, j);
    OfHistory(cfg, run[j]);
    forall t | t in run[j].h.elect ensures cfg.wid !in run[j].h.elect[t].voters {
      if cfg.wid in run[j].h.elect[t].voters {
        var m := DecidedByPoll(cfg, run[j], t);
      }
    }
  }

  /** An election the witness voted in was polled for. */
  lemma DecidedByPoll(cfg: Config, s: Cluster, t: nat) returns (m: Msg)
    requires GrantsOk(cfg, s) && HasWitness(cfg) && t in s.h.elect && cfg.wid in s.h.elect[t].voters
    ensures m in s.msgs && m.WitnessVoteReq?
  {
    assert WonByGrant(s.h, t);
    var g :| g in s.h.grants && g.term == t;
    assert GrantOk(cfg, s.h, g);
    m := PollOf(g);
  }

  // ---- The configurations that keep reads linearizable -----------------------------------------------------------

  lemma KeptReads(cfg: Config, polling: Polling)
    requires ValidConfig(cfg) && KeepsReads(cfg, polling)
    ensures ReadsLinearizable(cfg, polling)
  {
    hide IsRun, Inv;
    hide Asked, Answered;
    forall run: seq<Cluster>, x: Read, w: NodeId | Reads(cfg, polling, run, x) && w in run[x.i].nodes
      ensures x.r.index >= run[x.i].nodes[w].committed
    {
      if !ReadsSafe(cfg) { WitnessDecidesNothing(cfg, run, x.j); }
      IsRunOf(cfg, polling, run);
      ReadIndexSafety(cfg, run, x.i, x.j, x.l, x.from, x.v, x.r, w);
    }
  }
}
