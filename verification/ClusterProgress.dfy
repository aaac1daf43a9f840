/** What the cluster can always do: from every state of every run, a voter whose log is up to date with a
    quorum can still be elected. */
module ClusterProgress {
  import opened Quorum
  import opened RaftLogs
  import opened ClusterState

  /** The run has got to `s`. */
  ghost predicate At(cfg: Config, run: seq<Cluster>, s: Cluster) {
    run != [] && IsRun(cfg, run) && run[|run| - 1] == s
  }

  lemma Do(cfg: Config, run: seq<Cluster>, s: Cluster, a: Action) returns (run': seq<Cluster>, s': Cluster)
    requires At(cfg, run, s) && Enabled(cfg, s, a)
    ensures s' == Apply(cfg, s, a) && At(cfg, run', s') && run <= run'
  {
    hide Apply, Enabled;
    s' := Apply(cfg, s, a);
    run' := run + [s'];
    forall i | 0 <= i < |run'| - 1 ensures Next(cfg, run'[i], run'[i + 1]) {
      assert i < |run| - 1 ==> Next(cfg, run[i], run[i + 1]);
    }
  }

  // ---- A term above all others ------------------------------------------------------------------------------

  lemma {:induction false} TopTerm(nodes: map<NodeId, Node>, ids: set<NodeId>, least: nat) returns (t: nat)
    requires ids <= nodes.Keys
    ensures t >= least && forall u | u in ids :: nodes[u].term <= t
    decreases ids
  {
    if ids == {} {
      t := least;
    } else {
      var u :| u in ids;
      t := TopTerm(nodes, ids - {u}, least);
      if nodes[u].term > t { t := nodes[u].term; }
    }
  }

  function Request(v: NodeId, n: Node): Msg {
    VoteReq(v, n.term, false, |n.log|, LastTerm(n.log), n.committed, TermAt(n.log, n.committed))
  }

  function Yes(ids: set<NodeId>): map<NodeId, bool> {
    map x | x in ids :: true
  }

  /** `v` campaigns, has asked everybody, and `got` have granted it their votes. */
  predicate Campaigns(s: Cluster, v: NodeId, got: set<NodeId>) {
    v in s.nodes && s.nodes[v].role == Candidate && s.nodes[v].votes == Yes(got) && Request(v, s.nodes[v]) in s.msgs
  }

  /** Nothing that matters to others changed: logs and commit indices are the same. */
  predicate SameLogs(s: Cluster, s': Cluster) {
    && s'.nodes.Keys == s.nodes.Keys && s'.wit == s.wit && s'.h.reqs == s.h.reqs
    && forall u | u in s.nodes :: s'.nodes[u].log == s.nodes[u].log && s'.nodes[u].committed == s.nodes[u].committed
  }

  /** Campaigning again and again gets to any term. */
  lemma {:induction false} Raise(cfg: Config, run: seq<Cluster>, s: Cluster, v: NodeId, t: nat) returns (run': seq<Cluster>, s': Cluster)
    requires At(cfg, run, s) && v in s.nodes && s.nodes[v].role != Leader && v in cfg.incoming + cfg.outgoing
    ensures At(cfg, run', s') && run <= run' && SameLogs(s, s') && Campaigns(s', v, {v}) && s'.nodes[v].term > t
    ensures forall u | u in s.nodes && u != v :: s'.nodes[u] == s.nodes[u]
    decreases t + 1 - s.nodes[v].term
  {
    hide IsRun;
    assert map[v := true] == Yes({v});
    run', s' := Do(cfg, run, s, Campaign(v));
    if s'.nodes[v].term <= t {
      run', s' := Raise(cfg, run', s', v, t);
    }
  }

  // ---- Votes -------------------------------------------------------------------------------------------------

  /** The log of `v` is up to date with that of `u`. */
  predicate AsFresh(s: Cluster, v: NodeId, u: NodeId) {
    v in s.nodes && u in s.nodes && UpToDate(s.nodes[u].log, |s.nodes[v].log|, LastTerm(s.nodes[v].log))
  }

  /** A replica of an earlier term hears of the candidacy, votes, and its vote is counted. */
  lemma Ask(cfg: Config, run: seq<Cluster>, s: Cluster, v: NodeId, got: set<NodeId>, u: NodeId) returns (run': seq<Cluster>, s': Cluster)
    requires At(cfg, run, s) && Campaigns(s, v, got) && AsFresh(s, v, u) && u != v && u !in got
    requires s.nodes[u].term < s.nodes[v].term
    ensures At(cfg, run', s') && run <= run' && SameLogs(s, s') && Campaigns(s', v, got + {u})
    ensures s'.nodes[v].term == s.nodes[v].term && s'.nodes[u].term == s.nodes[v].term
    ensures forall x | x in s.nodes && x != v && x != u :: s'.nodes[x] == s.nodes[x]
  {
    hide IsRun;
    var req := Request(v, s.nodes[v]);
    var resp := VoteResp(u, v, req.term, false, false, 0, 0);
    run', s' := Hear(cfg, run, s, u, req);
    run', s' := Vote(cfg, run', s', u, req, resp);
    assert Yes(got)[u := true] == Yes(got + {u});
    run', s' := Do(cfg, run', s', RecvVoteResp(v, resp));
  }

  lemma Hear(cfg: Config, run: seq<Cluster>, s: Cluster, u: NodeId, req: Msg) returns (run': seq<Cluster>, s': Cluster)
    requires At(cfg, run, s) && u in s.nodes && req in s.msgs && req.VoteReq? && !req.pre && s.nodes[u].term < req.term
    ensures At(cfg, run', s') && run <= run' && s' == s.(nodes := s.nodes[u := BecomeFollower(s.nodes[u], req.term, INVALID_ID)])
  {
    hide IsRun;
    run', s' := Do(cfg, run, s, Observe(u, req));
  }

  lemma Vote(cfg: Config, run: seq<Cluster>, s: Cluster, u: NodeId, req: Msg, resp: Msg) returns (run': seq<Cluster>, s': Cluster)
    requires At(cfg, run, s) && u in s.nodes && req in s.msgs && req.VoteReq? && !req.pre && req.from != u
    requires s.nodes[u].term == req.term && s.nodes[u].vote == INVALID_ID && s.nodes[u].lead == INVALID_ID
    requires UpToDate(s.nodes[u].log, req.lastIndex, req.lastTerm) && resp == VoteResp(u, req.from, req.term, false, false, 0, 0)
    ensures At(cfg, run', s') && run <= run' && s' == s.(nodes := s'.nodes, msgs := s.msgs + {resp}, h := s'.h) && s'.h.reqs == s.h.reqs
    ensures s'.nodes == s.nodes[u := s.nodes[u].(vote := req.from)]
  {
    hide IsRun;
    run', s' := Do(cfg, run, s, RecvVote(u, req, false));
  }

  lemma {:induction false} AskAll(cfg: Config, run: seq<Cluster>, s: Cluster, v: NodeId, got: set<NodeId>, todo: set<NodeId>)
    returns (run': seq<Cluster>, s': Cluster)
    requires At(cfg, run, s) && Campaigns(s, v, got) && v !in todo && todo !! got
    requires forall u | u in todo :: AsFresh(s, v, u) && s.nodes[u].term < s.nodes[v].term
    requires forall u | u in s.nodes :: s.nodes[u].term <= s.nodes[v].term
    ensures At(cfg, run', s') && run <= run' && SameLogs(s, s') && Campaigns(s', v, got + todo)
    ensures s'.nodes[v].term == s.nodes[v].term && forall u | u in s.nodes :: s'.nodes[u].term <= s.nodes[v].term
    decreases todo
  {
    hide At, Yes, UpToDate;
    if todo == {} {
      assert got + todo == got;
      run', s' := run, s;
    } else {
      var u :| u in todo;
      run', s' := Ask(cfg, run, s, v, got, u);
      run', s' := AskAll(cfg, run', s', v, got + {u}, todo - {u});
      assert got + {u} + (todo - {u}) == got + todo;
    }
  }

  // ---- Elections ---------------------------------------------------------------------------------------------

  /** `v` leads a term above every other with its old log and an empty entry; all other logs, and what
      is committed, stand as before. */
  predicate TakesOver(s: Cluster, s': Cluster, v: NodeId) {
    && s'.nodes.Keys == s.nodes.Keys && IsRole(s', v, Leader) && v in s.nodes && s'.h.reqs == s.h.reqs
    && s'.nodes[v].log == s.nodes[v].log + [Entry(s'.nodes[v].term, 0, 0)] && s'.nodes[v].epoch.subterm == 0
    && (forall u | u in s.nodes :: s.nodes[u].term < s'.nodes[v].term && s'.nodes[u].term <= s'.nodes[v].term)
    && s'.wit.term <= s'.nodes[v].term && (forall u | u in s.nodes :: s'.nodes[u].committed == s.nodes[u].committed)
    && (forall u | u in s.nodes && u != v :: s'.nodes[u].log == s.nodes[u].log)
  }

  lemma Rest(cfg: Config, run: seq<Cluster>, s: Cluster, v: NodeId) returns (run': seq<Cluster>, s': Cluster)
    requires At(cfg, run, s) && v in s.nodes
    ensures At(cfg, run', s') && run <= run' && SameLogs(s, s') && s'.nodes[v].role != Leader
    ensures forall u | u in s.nodes :: s'.nodes[u].term == s.nodes[u].term
  {
    hide IsRun;
    run', s' := run, s;
    if s.nodes[v].role == Leader {
      run', s' := Do(cfg, run, s, StepDown(v));
    }
  }

  lemma Stand(cfg: Config, run: seq<Cluster>, s: Cluster, v: NodeId, q: set<NodeId>) returns (run': seq<Cluster>, s': Cluster)
    requires At(cfg, run, s) && v in cfg.incoming + cfg.outgoing && v in q && forall u | u in q :: AsFresh(s, v, u)
    ensures At(cfg, run', s') && run <= run' && SameLogs(s, s') && Campaigns(s', v, q) && s'.nodes[v].term > s.wit.term
    ensures forall u | u in s.nodes :: s.nodes[u].term < s'.nodes[v].term && s'.nodes[u].term <= s'.nodes[v].term
  {
    hide IsRun, UpToDate, Yes;
    var top := TopTerm(s.nodes, s.nodes.Keys, s.wit.term);
    hide At;
    run', s' := Rest(cfg, run, s, v);
    run', s' := Raise(cfg, run', s', v, top);
    assert forall u | u in s.nodes :: s'.nodes[u].term <= s'.nodes[v].term;
    assert {v} + (q - {v}) == q;
    run', s' := AskAll(cfg, run', s', v, {v}, q - {v});
  }

  lemma Win(cfg: Config, run: seq<Cluster>, s: Cluster, v: NodeId, q: set<NodeId>) returns (run': seq<Cluster>, s': Cluster)
    requires At(cfg, run, s) && Campaigns(s, v, q) && Quorate(cfg, q)
    ensures At(cfg, run', s') && run <= run' && s'.nodes == s.nodes[v := BecomeLeader(cfg, s.nodes[v], v)] && s'.h.reqs == s.h.reqs && s'.wit == s.wit
  {
    hide IsRun, Quorate;
    assert GrantedSet(Yes(q)) == q;
    run', s' := Do(cfg, run, s, Elect(v));
  }

  lemma TookOver(cfg: Config, s: Cluster, s1: Cluster, s': Cluster, v: NodeId, votes: map<NodeId, bool>)
    requires SameLogs(s, s1) && v in s.nodes && s'.h.reqs == s1.h.reqs && s'.wit.term <= s1.nodes[v].term
    requires forall u | u in s.nodes :: s.nodes[u].term < s1.nodes[v].term && s1.nodes[u].term <= s1.nodes[v].term
    requires s'.nodes == s1.nodes[v := BecomeLeader(cfg, s1.nodes[v].(votes := votes), v)]
    ensures TakesOver(s, s', v)
  {
  }

  /** Whatever happened so far, a voter that is up to date with every replica of a quorum can still win. */
  lemma CanBeElected(cfg: Config, run: seq<Cluster>, s: Cluster, v: NodeId, q: set<NodeId>) returns (run': seq<Cluster>, s': Cluster)
    requires At(cfg, run, s) && v in cfg.incoming + cfg.outgoing && v in q && Quorate(cfg, q)
    requires forall u | u in q :: AsFresh(s, v, u)
    ensures At(cfg, run', s') && run <= run' && TakesOver(s, s', v)
  {
    hide At, UpToDate, Quorate, Yes, TakesOver, BecomeLeader, Request;
    var run1, s1 := Stand(cfg, run, s, v, q);
    run', s' := Win(cfg, run1, s1, v, q);
    TookOver(cfg, s, s1, s', v, s1.nodes[v].votes);
  }

  // ---- With the witness ----------------------------------------------------------------------------------------

  /** One position of a log is later than another: a later term, or a later subterm of the same. */
  predicate Later(term: nat, subterm: nat, heldTerm: nat, heldSubterm: nat) {
    term > heldTerm || (term == heldTerm && subterm > heldSubterm)
  }

  /** The witness holds nothing later than the log ends with, and at the same position its replication set
      covers the voters. */
  predicate WitnessAgrees(w: W.State, log: Log, q: set<NodeId>) {
    || Later(LastTerm(log), LastSubterm(log), w.lastTerm, w.lastSubterm)
    || (LastTerm(log) == w.lastTerm && LastSubterm(log) == w.lastSubterm && (w.replicationSet == {} || q <= w.replicationSet))
  }

  /** The poll of a candidate that misses one vote. */
  function PollMsg(v: NodeId, n: Node, q: set<NodeId>): Msg {
    WitnessVoteReq(v, n.term, false, LastTerm(n.log), LastSubterm(n.log), q)
  }

  lemma Poll(cfg: Config, run: seq<Cluster>, s: Cluster, v: NodeId, q: set<NodeId>) returns (run': seq<Cluster>, s': Cluster)
    requires ValidConfig(cfg) && HasWitness(cfg) && At(cfg, run, s) && Campaigns(s, v, q)
    requires |cfg.incoming * q| + 1 == Majority(|cfg.incoming|)
    ensures At(cfg, run', s') && run <= run' && s' == s.(msgs := s.msgs + {PollMsg(v, s.nodes[v], q)})
  {
    hide IsRun;
    assert GrantedSet(Yes(q)) == q;
    assert s.nodes[v := s.nodes[v]] == s.nodes;
    run', s' := Do(cfg, run, s, PollWitness(v));
  }

  lemma Attest(cfg: Config, run: seq<Cluster>, s: Cluster, v: NodeId, n: Node, q: set<NodeId>) returns (run': seq<Cluster>, s': Cluster)
    requires HasWitness(cfg) && At(cfg, run, s) && PollMsg(v, n, q) in s.msgs
    requires n.term > s.wit.term && WitnessAgrees(s.wit, n.log, q)
    ensures At(cfg, run', s') && run <= run' && s'.nodes == s.nodes && s'.h.reqs == s.h.reqs && s'.wit.term == n.term
    ensures s'.msgs == s.msgs + {VoteResp(cfg.wid, v, n.term, false, false, 0, 0)}
  {
    hide IsRun;
    run', s' := Do(cfg, run, s, WitnessVote(PollMsg(v, n, q)));
  }

  lemma Hail(cfg: Config, run: seq<Cluster>, s: Cluster, v: NodeId, got: set<NodeId>, u: NodeId) returns (run': seq<Cluster>, s': Cluster)
    requires At(cfg, run, s) && Campaigns(s, v, got) && u !in got && VoteResp(u, v, s.nodes[v].term, false, false, 0, 0) in s.msgs
    ensures At(cfg, run', s') && run <= run' && Campaigns(s', v, got + {u}) && s'.h.reqs == s.h.reqs && s'.wit == s.wit
    ensures s'.nodes == s.nodes[v := s.nodes[v].(votes := Yes(got + {u}))]
  {
    hide IsRun;
    assert Yes(got)[u := true] == Yes(got + {u});
    run', s' := Do(cfg, run, s, RecvVoteResp(v, VoteResp(u, v, s.nodes[v].term, false, false, 0, 0)));
  }

  lemma AskWitness(cfg: Config, run: seq<Cluster>, s: Cluster, v: NodeId, q: set<NodeId>) returns (run': seq<Cluster>, s': Cluster)
    requires ValidConfig(cfg) && HasWitness(cfg) && At(cfg, run, s) && Campaigns(s, v, q) && cfg.wid !in q
    requires |cfg.incoming * q| + 1 == Majority(|cfg.incoming|)
    requires s.nodes[v].term > s.wit.term && WitnessAgrees(s.wit, s.nodes[v].log, q)
    ensures At(cfg, run', s') && run <= run' && Campaigns(s', v, q + {cfg.wid}) && s'.h.reqs == s.h.reqs && s'.wit.term == s.nodes[v].term
    ensures s'.nodes == s.nodes[v := s.nodes[v].(votes := Yes(q + {cfg.wid}))]
  {
    hide At, Yes, WitnessAgrees;
    run', s' := Poll(cfg, run, s, v, q);
    run', s' := Attest(cfg, run', s', v, s'.nodes[v], q);
    run', s' := Hail(cfg, run', s', v, q, cfg.wid);
  }

  /** The witness as the missing vote: half of the voters, all regular, suffice if it agrees. */
  lemma CanBeElectedWithWitness(cfg: Config, run: seq<Cluster>, s: Cluster, v: NodeId, q: set<NodeId>)
    returns (run': seq<Cluster>, s': Cluster)
    requires ValidConfig(cfg) && HasWitness(cfg) && At(cfg, run, s) && v in cfg.incoming && v in q && q <= s.nodes.Keys <= cfg.nodes
    requires |cfg.incoming * q| + 1 == Majority(|cfg.incoming|) && forall u | u in q :: AsFresh(s, v, u)
    requires WitnessAgrees(s.wit, s.nodes[v].log, q)
    ensures At(cfg, run', s') && run <= run' && TakesOver(s, s', v)
  {
    hide At, UpToDate, Yes, WitnessAgrees, Quorate, TakesOver, BecomeLeader, Request;
    var run1, s1 := Stand(cfg, run, s, v, q);
    var run2, s2 := AskWitness(cfg, run1, s1, v, q);
    WitnessCompletes(cfg, q);
    run', s' := Win(cfg, run2, s2, v, q + {cfg.wid});
    TookOver(cfg, s, s1, s', v, s2.nodes[v].votes);
  }

  lemma WitnessCompletes(cfg: Config, q: set<NodeId>)
    requires ValidConfig(cfg) && HasWitness(cfg) && |cfg.incoming * q| + 1 == Majority(|cfg.incoming|) && cfg.wid !in q
    ensures Quorate(cfg, q + {cfg.wid})
  {
    assert cfg.incoming * (q + {cfg.wid}) == cfg.incoming * q + {cfg.wid};
  }

  // ---- Pre-votes ---------------------------------------------------------------------------------------------

  function PreRequest(v: NodeId, n: Node): Msg {
    VoteReq(v, n.term + 1, true, |n.log|, LastTerm(n.log), n.committed, TermAt(n.log, n.committed))
  }

  predicate PreCampaigns(s: Cluster, v: NodeId, got: set<NodeId>) {
    v in s.nodes && s.nodes[v].role == PreCandidate && s.nodes[v].votes == Yes(got) && PreRequest(v, s.nodes[v]) in s.msgs
  }

  lemma PreAsk(cfg: Config, run: seq<Cluster>, s: Cluster, v: NodeId, got: set<NodeId>, u: NodeId) returns (run': seq<Cluster>, s': Cluster)
    requires At(cfg, run, s) && PreCampaigns(s, v, got) && AsFresh(s, v, u) && u != v && u !in got && s.nodes[u].term <= s.nodes[v].term
    ensures At(cfg, run', s') && run <= run' && PreCampaigns(s', v, got + {u}) && s'.wit == s.wit
    ensures s'.nodes == s.nodes[v := s.nodes[v].(votes := Yes(got + {u}))]
  {
    hide IsRun;
    var req, n := PreRequest(v, s.nodes[v]), s.nodes[v];
    var resp := VoteResp(u, v, req.term, true, false, 0, 0);
    assert s.nodes[u := s.nodes[u]] == s.nodes;
    run', s' := Do(cfg, run, s, RecvPreVote(u, req, false));
    assert Yes(got)[u := true] == Yes(got + {u});
    run', s' := Do(cfg, run', s', RecvVoteResp(v, resp));
  }

  lemma {:induction false} PreAskAll(cfg: Config, run: seq<Cluster>, s: Cluster, v: NodeId, got: set<NodeId>, todo: set<NodeId>)
    returns (run': seq<Cluster>, s': Cluster)
    requires At(cfg, run, s) && PreCampaigns(s, v, got) && v !in todo && todo !! got
    requires forall u | u in todo :: AsFresh(s, v, u) && s.nodes[u].term <= s.nodes[v].term
    ensures At(cfg, run', s') && run <= run' && PreCampaigns(s', v, got + todo) && s'.wit == s.wit
    ensures s'.nodes == s.nodes[v := s.nodes[v].(votes := Yes(got + todo))]
    decreases todo
  {
    hide At, Yes, UpToDate;
    if todo == {} {
      assert got + todo == got;
      assert s.nodes[v := s.nodes[v]] == s.nodes;
      run', s' := run, s;
    } else {
      var u :| u in todo;
      run', s' := PreAsk(cfg, run, s, v, got, u);
      run', s' := PreAskAll(cfg, run', s', v, got + {u}, todo - {u});
      assert got + {u} + (todo - {u}) == got + todo;
    }
  }

  /** Pre-votes do not get in the way, whatever votes and leaders the others know: a voter no later replica of a
      quorum is ahead of gets them all, and nobody else changes. */
  lemma CanWinPreVotes(cfg: Config, run: seq<Cluster>, s: Cluster, v: NodeId, q: set<NodeId>) returns (run': seq<Cluster>, s': Cluster)
    requires At(cfg, run, s) && v in cfg.incoming + cfg.outgoing && v in q && Quorate(cfg, q) && v in s.nodes && s.nodes[v].role != Leader
    requires forall u | u in q :: AsFresh(s, v, u) && s.nodes[u].term <= s.nodes[v].term
    ensures At(cfg, run', s') && run <= run' && IsRole(s', v, PreCandidate) && Quorate(cfg, GrantedSet(s'.nodes[v].votes))
    ensures s'.nodes[v].term == s.nodes[v].term && s'.nodes[v].vote == s.nodes[v].vote && s'.nodes[v].log == s.nodes[v].log
    ensures s'.wit == s.wit && s'.nodes.Keys == s.nodes.Keys && forall u | u in s.nodes && u != v :: s'.nodes[u] == s.nodes[u]
  {
    hide IsRun, UpToDate, Quorate;
    assert map[v := true] == Yes({v});
    run', s' := Do(cfg, run, s, PreCampaign(v));
    assert {v} + (q - {v}) == q;
    assert GrantedSet(Yes(q)) == q;
    hide At, Yes, GrantedSet, Enabled, Apply;
    run', s' := PreAskAll(cfg, run', s', v, {v}, q - {v});
  }
}
