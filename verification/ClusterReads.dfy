/** What read requests are answered with, as the requesting replicas see it: over every run, the messages
    that answer them and the read states given to the hosts. */
module ClusterReads {
  import opened Quorum
  import opened RaftLogs
  import opened ClusterState
  import opened ClusterInv
  import opened ClusterGrowth
  import opened ClusterTraces
  import opened ClusterReadSteps
  import opened ClusterSafety

  /** `m` answers a read of `v` with `r`. */
  predicate Carries(m: Msg, v: NodeId, r: ReadState) {
    m.ReadResp? && m.to == v && m.index == r.index && m.ctx == r.ctx
  }

  /** The host of `v` has been given `r`, or a message with it is on the way. */
  ghost predicate Answered(s: Cluster, v: NodeId, r: ReadState) {
    (v in s.nodes && r in s.nodes[v].readStates) || exists m :: m in s.msgs && Carries(m, v, r)
  }

  /** The step after state `i` accepts the read `ctx` of `from` at leader `l`. */
  ghost predicate Asked(cfg: Config, run: seq<Cluster>, i: nat, l: NodeId, ctx: R.Context, from: NodeId) {
    && i + 1 < |run| && Enabled(cfg, run[i], AcceptRead(l, ctx, from))
    && run[i + 1] == Apply(cfg, run[i], AcceptRead(l, ctx, from))
  }

  // ---- Every answer is the index the read was accepted with ---------------------------------------------------

  ghost predicate AnswerOk(cfg: Config, h: History, v: NodeId, r: ReadState) {
    && r.ctx in h.reqs && r.index == h.reqs[r.ctx].index
    && Requested(h, h.reqs[r.ctx], v)
    && (ReadsCovered(cfg, h) ==> h.reqs[r.ctx].high <= r.index)
  }

  /** A read of nobody in particular belongs to the leader that accepted it. */
  predicate Requested(h: History, r: ReadRecord, v: NodeId) {
    r.from == v || (r.from == INVALID_ID && r.term in h.elect && h.elect[r.term].leader == v)
  }

  lemma AnswerStays(cfg: Config, h: History, h': History, v: NodeId, r: ReadState)
    requires Grows(h, h') && AnswerOk(cfg, h, v, r)
    ensures AnswerOk(cfg, h', v, r)
  {
    assert ReadsCovered(cfg, h') ==> ReadsCovered(cfg, h);
  }

  /** Among what leader `l` releases with `ctx` is the read of `v` that `r` answers. */
  predicate Releases(q: R.Queue, l: NodeId, ctx: R.Context, v: NodeId, r: ReadState) {
    && r.ctx in R.Released(q, ctx) && r.ctx in q.status && r.index == q.status[r.ctx].index
    && (q.status[r.ctx].from == v || (q.status[r.ctx].from == INVALID_ID && l == v))
  }

  /** New answers come from releasing reads; receiving one only passes it on. */
  lemma NewAnswer(cfg: Config, s: Cluster, a: Action, v: NodeId, r: ReadState)
    requires Enabled(cfg, s, a) && Answered(Apply(cfg, s, a), v, r)
    ensures Answered(s, v, r) || (a.ReleaseReads? && a.v in s.nodes && Releases(s.nodes[a.v].pend, a.v, a.ctx, v, r))
  {
    hide HighestCommit, R.Released, R.Advance, R.RecvAck, R.AddRequest, W.Grants, W.OnVote, W.OnAppend, CanVote, Quorate,
      IsCommitIndex, IsShortcutIndex, GrantedSet, VotersOf, LastSubterm, MatchOf, WithAck, Spliced, TermAt, UpToDate, LastTerm;
    if a.RecvReadResp? {
      assert Carries(a.m, a.v, ReadState(a.m.index, a.m.ctx));
    }
  }

  lemma NewAnswerOk(cfg: Config, s: Cluster, a: Action, v: NodeId, r: ReadState)
    requires ValidConfig(cfg) && Inv(cfg, s) && Enabled(cfg, s, a) && Answered(Apply(cfg, s, a), v, r) && !Answered(s, v, r)
    ensures AnswerOk(cfg, s.h, v, r)
  {
    hide Inv, Apply, Enabled, Answered;
    NewAnswer(cfg, s, a, v, r);
    IsReleaser(cfg, s, a.v, a.ctx);
    ReleasedIsFresh(cfg, s, a.v, a.ctx, r.ctx);
    OfNode(cfg, s, a.v);
    assert PendingOk(s.h, s.nodes[a.v], r.ctx);
  }

  lemma IsReleaser(cfg: Config, s: Cluster, v: NodeId, ctx: R.Context)
    requires Enabled(cfg, s, ReleaseReads(v, ctx))
    ensures IsRole(s, v, Leader)
  {
  }

  lemma {:induction false} AnswersOk(cfg: Config, run: seq<Cluster>, i: nat, v: NodeId, r: ReadState)
    requires ValidConfig(cfg) && IsRun(cfg, run) && i < |run| && Answered(run[i], v, r)
    ensures AnswerOk(cfg, run[i].h, v, r)
  {
    hide Inv, Apply, Enabled, Answered;
    if i == 0 {
      assert false by { assert Answered(Init(cfg), v, r); NoAnswers(cfg, v, r); }
    } else {
      assert Next(cfg, run[i - 1], run[i - 1 + 1]);
      var s := run[i - 1];
      var a :| Enabled(cfg, s, a) && run[i] == Apply(cfg, s, a);
      RunInv(cfg, run, i - 1);
      StepGrows(cfg, s, a);
      if Answered(s, v, r) {
        AnswersOk(cfg, run, i - 1, v, r);
      } else {
        NewAnswerOk(cfg, s, a, v, r);
      }
      AnswerStays(cfg, s.h, run[i].h, v, r);
    }
  }

  lemma NoAnswers(cfg: Config, v: NodeId, r: ReadState)
    ensures !Answered(Init(cfg), v, r)
  {
  }

  lemma {:induction false} WasAsked(cfg: Config, run: seq<Cluster>, j: nat, ctx: R.Context) returns (i: nat, l: NodeId, from: NodeId)
    requires IsRun(cfg, run) && j < |run| && ctx in run[j].h.reqs && ValidConfig(cfg)
    ensures i < j && Asked(cfg, run, i, l, ctx, from) && ctx !in run[i].h.reqs
    ensures l in run[i].nodes && run[j].h.reqs[ctx].index == run[i].nodes[l].committed && run[j].h.reqs[ctx].from == from
    ensures run[j].h.reqs[ctx].term == run[i].nodes[l].term
  {
    hide Inv, Apply, Enabled, HighestCommit;
    assert j > 0;
    assert Next(cfg, run[j - 1], run[j - 1 + 1]);
    var s := run[j - 1];
    var a :| Enabled(cfg, s, a) && run[j] == Apply(cfg, s, a);
    if ctx in s.h.reqs {
      RunInv(cfg, run, j - 1);
      StepGrows(cfg, s, a);
      i, l, from := WasAsked(cfg, run, j - 1, ctx);
    } else {
      AcceptRecorded(cfg, s, a, ctx);
      i, l, from := j - 1, a.v, a.from;
    }
  }

  /** Whatever answer a replica gets, at any time of any run, is to a read of its own that a leader accepted
      before, and is exactly what that leader had committed then. */
  lemma AnswerIsAccepted(cfg: Config, run: seq<Cluster>, j: nat, v: NodeId, r: ReadState) returns (i: nat, l: NodeId, from: NodeId)
    requires ValidConfig(cfg) && IsRun(cfg, run) && j < |run| && Answered(run[j], v, r)
    ensures i < j && Asked(cfg, run, i, l, r.ctx, from) && (from == v || (from == INVALID_ID && l == v))
    ensures IsRole(run[i], l, Leader) && r.index == run[i].nodes[l].committed
  {
    hide Answered, Inv;
    AnswersOk(cfg, run, j, v, r);
    i, l, from := WasAsked(cfg, run, j, r.ctx);
    hide Apply;
    assert IsRole(run[i], l, Leader);
    hide Enabled, IsRun;
    RunInv(cfg, run, i);
    RunGrows(cfg, run, i, j);
    OfNode(cfg, run[i], l);
  }

  /** No replica had committed beyond the answer when the read was accepted, as long as read quorums meet
      the elections held. */
  lemma ReadIndexSafety(cfg: Config, run: seq<Cluster>, i: nat, j: nat, l: NodeId, from: NodeId, v: NodeId, r: ReadState, w: NodeId)
    requires ValidConfig(cfg) && IsRun(cfg, run) && i + 1 <= j < |run| && ReadsCovered(cfg, run[j].h)
    requires Asked(cfg, run, i, l, r.ctx, from) && Answered(run[j], v, r) && w in run[i].nodes
    ensures r.index >= run[i].nodes[w].committed
  {
    hide Answered, Inv;
    AnswersOk(cfg, run, j, v, r);
    Recorded(cfg, run, i, l, r.ctx, from);
    hide Apply, Enabled, IsRun;
    RunGrows(cfg, run, i + 1, j);
  }

  lemma Recorded(cfg: Config, run: seq<Cluster>, i: nat, l: NodeId, ctx: R.Context, from: NodeId)
    requires Asked(cfg, run, i, l, ctx, from)
    ensures ctx !in run[i].h.reqs && ctx in run[i + 1].h.reqs && run[i + 1].h.reqs[ctx].high == HighestCommit(run[i])
  {
    hide HighestCommit, R.AddRequest;
  }
}
