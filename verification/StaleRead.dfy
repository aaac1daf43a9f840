/** Where linearizable reads stop: the witness is counted as a read acknowledgment without being
    asked. With an odd number of voters a read quorum then need not meet the election of a newer
    leader. For every such configuration there is a run that answers a read with a stale index. */
module StaleRead {
  import opened Quorum
  import opened RaftLogs
  import opened ClusterState
  import opened ClusterReads
  import opened ClusterReadSteps
  import opened ReadRuns

  // ---- Exactly when read quorums meet elections -------------------------------------------------------------

  /** Every read quorum has a regular voter in common with every quorum of votes. */
  ghost predicate ReadQuorumsMeet(cfg: Config) {
    forall acks: set<NodeId>, voters: set<NodeId> | Quorate(cfg, acks + {cfg.wid}) && Quorate(cfg, voters) ::
      exists x :: x in acks && x in voters && x in cfg.incoming && x != cfg.wid
  }

  lemma {:induction false} SubsetOfSize(s: set<NodeId>, k: nat) returns (r: set<NodeId>)
    requires k <= |s|
    ensures r <= s && |r| == k
  {
    if k == 0 {
      r := {};
    } else {
      var x :| x in s;
      var rest := SubsetOfSize(s - {x}, k - 1);
      r := rest + {x};
    }
  }

  /** The guarantee holds for exactly the configurations without a witness or with an even number of voters. */
  lemma ReadQuorumsMeetIff(cfg: Config)
    requires ValidConfig(cfg)
    ensures ReadQuorumsMeet(cfg) <==> ReadsSafe(cfg)
  {
    if ReadsSafe(cfg) {
      forall acks: set<NodeId>, voters: set<NodeId> | Quorate(cfg, acks + {cfg.wid}) && Quorate(cfg, voters)
        ensures exists x :: x in acks && x in voters && x in cfg.incoming && x != cfg.wid
      {
        ReadQuorumMeetsVotes(cfg, acks, voters);
      }
    } else {
      var regular := cfg.incoming - {cfg.wid};
      var half := |cfg.incoming| / 2;
      assert |regular| == 2 * half;
      var acks := SubsetOfSize(regular, half);
      var voters := regular - acks + {cfg.wid};
      assert |regular - acks| == half;
      assert cfg.incoming * (acks + {cfg.wid}) == acks + {cfg.wid} && |acks + {cfg.wid}| == half + 1;
      assert cfg.incoming * voters == voters && |voters| == half + 1;
      assert Quorate(cfg, acks + {cfg.wid}) && Quorate(cfg, voters);
    }
  }

  // ---- The two halves of the regular voters ------------------------------------------------------------------

  /** The regular voters of an odd configuration in two halves, each with a leader of its own. */
  datatype Split = Split(cfg: Config, polling: Polling, half: nat, first: set<NodeId>, second: set<NodeId>,
                         a: NodeId, b: NodeId)

  ghost predicate SplitOk(p: Split) {
    && ValidConfig(p.cfg) && HasWitness(p.cfg) && |p.cfg.incoming| == 2 * p.half + 1
    && p.first !! p.second && p.first + p.second == p.cfg.incoming - {p.cfg.wid}
    && |p.first| == p.half && |p.second| == p.half && p.a in p.first && p.b in p.second
    && (p.polling.AsWritten? ==> p.half == 1)
  }

  /** The last state of the run, as far as it decides what comes next. */
  ghost predicate At(p: Split, run: seq<Cluster>, nodes: map<NodeId, Node>, w: W.State, sent: set<Msg>, reading: bool) {
    run != [] && IsRunBy(p.cfg, p.polling, run) && Stands(p, run[|run| - 1], nodes, w, sent, reading)
  }

  predicate Stands(p: Split, s: Cluster, nodes: map<NodeId, Node>, w: W.State, sent: set<Msg>, reading: bool) {
    && s.nodes == nodes && nodes.Keys == p.cfg.nodes && s.wit == w && sent <= s.msgs
    && (CTX in s.h.reqs <==> reading)
  }

  lemma Extend(p: Split, run: seq<Cluster>, act: Action) returns (run': seq<Cluster>)
    requires IsRunBy(p.cfg, p.polling, run) && Enabled(p.cfg, run[|run| - 1], act) && Polls(p.polling, run[|run| - 1], act)
    ensures IsRunBy(p.cfg, p.polling, run') && run' == run + [Apply(p.cfg, run[|run| - 1], act)]
  {
    hide Apply, Enabled, Polls;
    run' := run + [Apply(p.cfg, run[|run| - 1], act)];
    forall i | 0 <= i < |run'| - 1 ensures NextBy(p.cfg, p.polling, run'[i], run'[i + 1]) {
      assert i < |run| - 1 ==> NextBy(p.cfg, p.polling, run[i], run[i + 1]);
    }
  }

  const CTX: R.Context := 7

  function Yes(ids: set<NodeId>): map<NodeId, bool> {
    map x | x in ids :: true
  }

  function Acked(ids: set<NodeId>, k: nat): map<NodeId, nat> {
    map x | x in ids :: k
  }

  /** `nodes` with everybody in `ids` as `n`. */
  function With(nodes: map<NodeId, Node>, ids: set<NodeId>, n: Node): map<NodeId, Node> {
    nodes + map x | x in ids :: n
  }

  lemma Twice(nodes: map<NodeId, Node>, c: NodeId, n: Node, n': Node)
    ensures nodes[c := n][c := n'] == nodes[c := n']
  {
  }

  lemma WithNone(nodes: map<NodeId, Node>, ids: set<NodeId>, n: Node, c: NodeId)
    requires ids == {} && c in nodes
    ensures With(nodes, ids, n)[c := nodes[c]] == nodes
  {
  }

  lemma WithMore(nodes: map<NodeId, Node>, x: NodeId, ids: set<NodeId>, n: Node, c: NodeId, m: Node, m': Node)
    requires x in ids && x != c && c !in ids
    ensures With(nodes[x := n][c := m], ids - {x}, n)[c := m'] == With(nodes, ids, n)[c := m']
  {
  }

  // ---- Votes -------------------------------------------------------------------------------------------------

  /** A replica that only ever saw the vote request it granted. */
  function Voter(t: nat, c: NodeId): Node {
    FRESH.(term := t, vote := c)
  }

  /** A fresh replica hears a vote request, grants it, and the candidate counts the vote. */
  lemma Grant(p: Split, run: seq<Cluster>, nodes: map<NodeId, Node>, w: W.State, req: Msg, x: NodeId, got: set<NodeId>)
    returns (run': seq<Cluster>)
    requires SplitOk(p) && At(p, run, nodes, w, {req}, false) && req.VoteReq? && !req.pre && req.term > 0
    requires x in nodes && nodes[x] == FRESH && x != req.from && x !in got
    requires req.from in nodes && nodes[req.from].role == Candidate && nodes[req.from].term == req.term
    requires nodes[req.from].votes == Yes(got)
    ensures At(p, run', nodes[x := Voter(req.term, req.from)][req.from := nodes[req.from].(votes := Yes(got + {x}))], w, {req}, false)
  {
    hide IsRunBy;
    var resp := VoteResp(x, req.from, req.term, false, false, 0, 0);
    run' := Hear(p, run, nodes, w, {req}, req, x);
    run' := Say(p, run', nodes[x := FRESH.(term := req.term)], w, req, x, resp);
    run' := Tell(p, run', nodes[x := Voter(req.term, req.from)], w, req, x, resp, got);
  }

  lemma Hear(p: Split, run: seq<Cluster>, nodes: map<NodeId, Node>, w: W.State, sent: set<Msg>, m: Msg, x: NodeId)
    returns (run': seq<Cluster>)
    requires At(p, run, nodes, w, sent, false) && m in sent && m.VoteReq? && !m.pre && m.term > 0
    requires x in nodes && nodes[x] == FRESH
    ensures At(p, run', nodes[x := FRESH.(term := m.term)], w, sent, false)
  {
    hide IsRunBy;
    run' := Extend(p, run, Observe(x, m));
  }

  lemma Say(p: Split, run: seq<Cluster>, nodes: map<NodeId, Node>, w: W.State, req: Msg, x: NodeId, resp: Msg)
    returns (run': seq<Cluster>)
    requires At(p, run, nodes, w, {req}, false) && req.VoteReq? && !req.pre
    requires x in nodes && nodes[x] == FRESH.(term := req.term) && x != req.from
    requires resp == VoteResp(x, req.from, req.term, false, false, 0, 0)
    ensures At(p, run', nodes[x := Voter(req.term, req.from)], w, {req, resp}, false)
  {
    hide IsRunBy;
    run' := Extend(p, run, RecvVote(x, req, false));
  }

  lemma Tell(p: Split, run: seq<Cluster>, nodes: map<NodeId, Node>, w: W.State, req: Msg, x: NodeId, resp: Msg, got: set<NodeId>)
    returns (run': seq<Cluster>)
    requires req.VoteReq? && At(p, run, nodes, w, {req, resp}, false) && x !in got
    requires req.from in nodes && nodes[req.from].role == Candidate && nodes[req.from].votes == Yes(got)
    requires resp == VoteResp(x, req.from, nodes[req.from].term, false, false, 0, 0)
    ensures At(p, run', nodes[req.from := nodes[req.from].(votes := Yes(got + {x}))], w, {req}, false)
  {
    hide IsRunBy;
    assert Yes(got)[x := true] == Yes(got + {x});
    run' := Extend(p, run, RecvVoteResp(req.from, resp));
  }

  /** The same for everybody in `todo`. */
  lemma {:induction false} Grants(p: Split, run: seq<Cluster>, nodes: map<NodeId, Node>, w: W.State, req: Msg,
                                  got: set<NodeId>, todo: set<NodeId>)
    returns (run': seq<Cluster>)
    requires SplitOk(p) && At(p, run, nodes, w, {req}, false) && req.VoteReq? && !req.pre && req.term > 0
    requires todo <= nodes.Keys && todo !! got && req.from !in todo && forall x | x in todo :: nodes[x] == FRESH
    requires req.from in nodes && nodes[req.from].role == Candidate && nodes[req.from].term == req.term
    requires nodes[req.from].votes == Yes(got)
    ensures At(p, run', With(nodes, todo, Voter(req.term, req.from))[req.from := nodes[req.from].(votes := Yes(got + todo))],
               w, {req}, false)
    decreases todo
  {
    hide At, Yes, With;
    var c, n := req.from, nodes[req.from];
    if todo == {} {
      assert got + todo == got;
      WithNone(nodes, todo, Voter(req.term, c), c);
      run' := run;
    } else {
      var x :| x in todo;
      run' := Grant(p, run, nodes, w, req, x, got);
      var next := nodes[x := Voter(req.term, c)][c := n.(votes := Yes(got + {x}))];
      run' := Grants(p, run', next, w, req, got + {x}, todo - {x});
      assert got + {x} + (todo - {x}) == got + todo;
      WithMore(nodes, x, todo, Voter(req.term, c), c, next[c], n.(votes := Yes(got + todo)));
    }
  }

  // ---- An election won with one half and the witness -----------------------------------------------------------

  function Candidacy(n: Node, c: NodeId, ids: set<NodeId>): Node {
    BecomeCandidate(n, c).(votes := Yes(ids))
  }

  function Request(n: Node, c: NodeId): Msg {
    VoteReq(c, n.term + 1, false, |n.log|, LastTerm(n.log), n.committed, TermAt(n.log, n.committed))
  }

  function Poll(n: Node, c: NodeId, ids: set<NodeId>): Msg {
    WitnessVoteReq(c, n.term + 1, false, LastTerm(n.log), LastSubterm(n.log), ids)
  }

  /** `half` is one half of the regular voters, `c` in it. */
  ghost predicate Half(p: Split, c: NodeId, half: set<NodeId>) {
    c in half && half <= p.cfg.incoming - {p.cfg.wid} && |half| == p.half
  }

  lemma Granted(p: Split, half: set<NodeId>)
    requires SplitOk(p) && half <= p.cfg.incoming - {p.cfg.wid} && |half| == p.half
    ensures GrantedSet(Yes(half)) == half && GrantedSet(Yes(half + {p.cfg.wid})) == half + {p.cfg.wid}
    ensures |p.cfg.incoming * half| == p.half && !Quorate(p.cfg, half) && Quorate(p.cfg, half + {p.cfg.wid})
  {
    assert p.cfg.incoming * half == half;
    assert p.cfg.incoming * (half + {p.cfg.wid}) == half + {p.cfg.wid};
  }

  lemma Run(p: Split, run: seq<Cluster>, nodes: map<NodeId, Node>, w: W.State, c: NodeId) returns (run': seq<Cluster>)
    requires SplitOk(p) && At(p, run, nodes, w, {}, false) && c in p.cfg.incoming && c in nodes && nodes[c].role == Follower
    ensures At(p, run', nodes[c := Candidacy(nodes[c], c, {c})], w, {Request(nodes[c], c)}, false)
  {
    hide IsRunBy;
    assert map[c := true] == Yes({c});
    run' := Extend(p, run, Campaign(c));
  }

  lemma Ask(p: Split, run: seq<Cluster>, nodes: map<NodeId, Node>, w: W.State, n: Node, c: NodeId, half: set<NodeId>, sent: set<Msg>)
    returns (run': seq<Cluster>)
    requires SplitOk(p) && At(p, run, nodes, w, sent, false) && Half(p, c, half) && c in nodes
    requires nodes[c] == Candidacy(n, c, half)
    ensures At(p, run', nodes, w, sent + {Poll(n, c, half)}, false)
  {
    hide IsRunBy, Quorate;
    Granted(p, half);
    if p.polling.AsWritten? {
      Singleton(half, c);
    }
    assert nodes[c := nodes[c]] == nodes;
    run' := Extend(p, run, PollWitness(c));
  }

  lemma Singleton(s: set<NodeId>, x: NodeId)
    requires x in s && |s| == 1
    ensures s == {x}
  {
    assert s == {x} + (s - {x}) && |s - {x}| == 0;
  }

  /** The witness has seen nothing newer than what the candidate shows it. */
  predicate Behind(w: W.State, n: Node) {
    && w.term <= n.term
    && (LastTerm(n.log) > w.lastTerm || (LastTerm(n.log) == w.lastTerm && LastSubterm(n.log) == w.lastSubterm && w.replicationSet == {}))
  }

  lemma Attest(p: Split, run: seq<Cluster>, nodes: map<NodeId, Node>, w: W.State, n: Node, c: NodeId, half: set<NodeId>, sent: set<Msg>)
    returns (run': seq<Cluster>)
    requires SplitOk(p) && At(p, run, nodes, w, sent + {Poll(n, c, half)}, false) && Behind(w, n)
    ensures At(p, run', nodes, w.(term := n.term + 1, vote := c), sent + {VoteResp(p.cfg.wid, c, n.term + 1, false, false, 0, 0)}, false)
  {
    hide IsRunBy, Quorate;
    run' := Extend(p, run, WitnessVote(Poll(n, c, half)));
  }

  lemma Hail(p: Split, run: seq<Cluster>, nodes: map<NodeId, Node>, w: W.State, n: Node, c: NodeId, half: set<NodeId>, sent: set<Msg>)
    returns (run': seq<Cluster>)
    requires SplitOk(p) && Half(p, c, half) && c in nodes && nodes[c] == Candidacy(n, c, half)
    requires At(p, run, nodes, w, sent + {VoteResp(p.cfg.wid, c, n.term + 1, false, false, 0, 0)}, false)
    ensures At(p, run', nodes[c := Candidacy(n, c, half + {p.cfg.wid})], w, sent, false)
  {
    hide IsRunBy, Quorate;
    assert Yes(half)[p.cfg.wid := true] == Yes(half + {p.cfg.wid});
    run' := Extend(p, run, RecvVoteResp(c, VoteResp(p.cfg.wid, c, n.term + 1, false, false, 0, 0)));
  }

  /** The leader that a candidacy of `n` makes. */
  function Crowned(cfg: Config, n: Node, c: NodeId): Node {
    BecomeLeader(cfg, Candidacy(n, c, {}), c)
  }

  lemma Crown(p: Split, run: seq<Cluster>, nodes: map<NodeId, Node>, w: W.State, n: Node, c: NodeId, half: set<NodeId>, sent: set<Msg>)
    returns (run': seq<Cluster>)
    requires SplitOk(p) && Half(p, c, half) && c in nodes && nodes[c] == Candidacy(n, c, half + {p.cfg.wid})
    requires At(p, run, nodes, w, sent, false)
    ensures At(p, run', nodes[c := Crowned(p.cfg, n, c)], w, sent, false)
  {
    hide IsRunBy, Quorate;
    Granted(p, half);
    run' := Extend(p, run, Elect(c));
  }

  /** `c` wins the next term with its half and the witness. */
  lemma Win(p: Split, run: seq<Cluster>, nodes: map<NodeId, Node>, w: W.State, c: NodeId, half: set<NodeId>) returns (run': seq<Cluster>)
    requires SplitOk(p) && At(p, run, nodes, w, {}, false) && Half(p, c, half) && nodes.Keys == p.cfg.nodes
    requires nodes[c].role == Follower && Behind(w, nodes[c]) && forall x | x in half - {c} :: nodes[x] == FRESH
    ensures At(p, run', With(nodes, half - {c}, Voter(nodes[c].term + 1, c))[c := Crowned(p.cfg, nodes[c], c)],
               w.(term := nodes[c].term + 1, vote := c), {Request(nodes[c], c)}, false)
  {
    hide At, Candidacy, Crowned, Behind;
    var n := nodes[c];
    var sent := {Request(n, c)};
    run' := Run(p, run, nodes, w, c);
    var start := nodes[c := Candidacy(n, c, {c})];
    CandidacyIs(n, c, {c});
    run' := Grants(p, run', start, w, Request(n, c), {c}, half - {c});
    var voters := With(nodes, half - {c}, Voter(n.term + 1, c));
    assert {c} + (half - {c}) == half;
    CandidacyIs(n, c, half);
    assert With(start, half - {c}, Voter(n.term + 1, c))[c := Candidacy(n, c, half)] == voters[c := Candidacy(n, c, half)];
    run' := Ask(p, run', voters[c := Candidacy(n, c, half)], w, n, c, half, sent);
    run' := Attest(p, run', voters[c := Candidacy(n, c, half)], w, n, c, half, sent);
    var w' := w.(term := n.term + 1, vote := c);
    run' := Hail(p, run', voters[c := Candidacy(n, c, half)], w', n, c, half, sent);
    Twice(voters, c, Candidacy(n, c, half), Candidacy(n, c, half + {p.cfg.wid}));
    run' := Crown(p, run', voters[c := Candidacy(n, c, half + {p.cfg.wid})], w', n, c, half, sent);
    Twice(voters, c, Candidacy(n, c, half + {p.cfg.wid}), Crowned(p.cfg, n, c));
  }

  lemma CandidacyIs(n: Node, c: NodeId, ids: set<NodeId>)
    ensures Candidacy(n, c, ids).role == Candidate && Candidacy(n, c, ids).term == n.term + 1
    ensures Candidacy(n, c, ids).votes == Yes(ids) && Candidacy(n, c, {c}).(votes := Yes(ids)) == Candidacy(n, c, ids)
  {
  }

  // ---- Appends -----------------------------------------------------------------------------------------------

  /** A replica without a log that follows `l` in term `t`, once it has copied the leader's. */
  function Copied(n: Node, l: NodeId, log: Log): Node {
    n.(lead := l, log := log, persisted := |log|)
  }

  /** A replica that has seen term `t` and perhaps voted in it, nothing else. */
  predicate Idle(n: Node, t: nat) {
    n == FRESH.(term := t, vote := n.vote)
  }

  function Whole(l: NodeId, n: Node, y: NodeId): Msg {
    AppendReq(l, y, n.term, 0, 0, n.log, n.committed)
  }

  /** A leader that has stored its whole log and committed nothing sends it; the replica acknowledges it. */
  lemma Copy(p: Split, run: seq<Cluster>, nodes: map<NodeId, Node>, w: W.State, sent: set<Msg>, l: NodeId, y: NodeId, got: set<NodeId>)
    returns (run': seq<Cluster>)
    requires SplitOk(p) && At(p, run, nodes, w, sent, false) && y in nodes && l in nodes && y != l && y !in got
    requires nodes[l].role == Leader && nodes[l].committed == 0 && nodes[l].log != [] && nodes[l].log[0].term > 0
    requires nodes[l].matched == Acked(got, |nodes[l].log|) && Idle(nodes[y], nodes[l].term)
    ensures At(p, run', nodes[y := Copied(nodes[y], l, nodes[l].log)][l := nodes[l].(matched := Acked(got + {y}, |nodes[l].log|))],
               w, sent, false)
  {
    hide IsRunBy;
    var n := nodes[l];
    run' := Ship(p, run, nodes, w, sent, l, y);
    run' := Take(p, run', nodes, w, sent, l, y);
    run' := Note(p, run', nodes[y := Copied(nodes[y], l, n.log)], w, sent, l, y, got);
  }

  lemma Ship(p: Split, run: seq<Cluster>, nodes: map<NodeId, Node>, w: W.State, sent: set<Msg>, l: NodeId, y: NodeId)
    returns (run': seq<Cluster>)
    requires At(p, run, nodes, w, sent, false) && y in nodes && l in nodes && y != l && nodes[l].role == Leader
    ensures At(p, run', nodes, w, sent + {Whole(l, nodes[l], y)}, false)
  {
    hide IsRunBy;
    var n := nodes[l];
    assert n.log[0..|n.log|] == n.log;
    assert nodes[l := n] == nodes;
    run' := Extend(p, run, SendAppend(l, y, 0, |n.log|));
  }

  lemma Take(p: Split, run: seq<Cluster>, nodes: map<NodeId, Node>, w: W.State, sent: set<Msg>, l: NodeId, y: NodeId)
    returns (run': seq<Cluster>)
    requires l in nodes && At(p, run, nodes, w, sent + {Whole(l, nodes[l], y)}, false) && y in nodes && y != l
    requires nodes[l].committed == 0 && nodes[l].log != [] && nodes[l].log[0].term > 0 && Idle(nodes[y], nodes[l].term)
    ensures At(p, run', nodes[y := Copied(nodes[y], l, nodes[l].log)], w,
               sent + {AppendResp(y, l, nodes[l].term, |nodes[l].log|, false)}, false)
  {
    hide IsRunBy;
    var n := nodes[l];
    assert FirstConflict([], 0, n.log) == 0;
    assert [][..0] + n.log[0..] == n.log;
    assert Spliced([], 0, n.log) == n.log;
    hide Spliced, FirstConflict;
    run' := Extend(p, run, RecvAppend(y, Whole(l, n, y)));
  }

  lemma Note(p: Split, run: seq<Cluster>, nodes: map<NodeId, Node>, w: W.State, sent: set<Msg>, l: NodeId, y: NodeId, got: set<NodeId>)
    returns (run': seq<Cluster>)
    requires l in nodes && nodes[l].role == Leader && nodes[l].log != [] && y != l && y !in got
    requires At(p, run, nodes, w, sent + {AppendResp(y, l, nodes[l].term, |nodes[l].log|, false)}, false)
    requires nodes[l].matched == Acked(got, |nodes[l].log|)
    ensures At(p, run', nodes[l := nodes[l].(matched := Acked(got + {y}, |nodes[l].log|))], w, sent, false)
  {
    hide IsRunBy;
    var n := nodes[l];
    assert Acked(got, |n.log|)[y := |n.log|] == Acked(got + {y}, |n.log|);
    run' := Extend(p, run, RecvAppendResp(l, AppendResp(y, l, n.term, |n.log|, false)));
  }

  /** `nodes` once everybody in `ids` has copied the log of `l`. */
  function CopiedTo(nodes: map<NodeId, Node>, l: NodeId, ids: set<NodeId>, got: set<NodeId>): map<NodeId, Node>
    requires l in nodes && ids <= nodes.Keys
  {
    (nodes + map y | y in ids :: Copied(nodes[y], l, nodes[l].log))[l := nodes[l].(matched := Acked(got, |nodes[l].log|))]
  }

  lemma {:induction false} Copies(p: Split, run: seq<Cluster>, nodes: map<NodeId, Node>, w: W.State, sent: set<Msg>, l: NodeId,
                                  got: set<NodeId>, todo: set<NodeId>)
    returns (run': seq<Cluster>)
    requires SplitOk(p) && At(p, run, nodes, w, sent, false) && l in nodes && l !in todo && todo !! got && todo <= nodes.Keys
    requires nodes[l].role == Leader && nodes[l].committed == 0 && nodes[l].log != [] && nodes[l].log[0].term > 0
    requires nodes[l].matched == Acked(got, |nodes[l].log|) && forall y | y in todo :: Idle(nodes[y], nodes[l].term)
    ensures At(p, run', CopiedTo(nodes, l, todo, got + todo), w, sent, false)
    decreases todo
  {
    hide At, CopiedTo, Idle, Copied, Acked;
    var n := nodes[l];
    if todo == {} {
      assert got + todo == got;
      CopiedNone(nodes, l, todo, got);
      run' := run;
    } else {
      var y :| y in todo;
      run' := Copy(p, run, nodes, w, sent, l, y, got);
      var next := nodes[y := Copied(nodes[y], l, n.log)][l := n.(matched := Acked(got + {y}, |n.log|))];
      run' := Copies(p, run', next, w, sent, l, got + {y}, todo - {y});
      assert got + {y} + (todo - {y}) == got + todo;
      CopiedMore(nodes, l, y, todo, got + {y}, got + todo);
    }
  }

  lemma CopiedNone(nodes: map<NodeId, Node>, l: NodeId, ids: set<NodeId>, got: set<NodeId>)
    requires l in nodes && ids == {} && nodes[l].matched == Acked(got, |nodes[l].log|)
    ensures CopiedTo(nodes, l, ids, got) == nodes
  {
  }

  lemma CopiedMore(nodes: map<NodeId, Node>, l: NodeId, y: NodeId, ids: set<NodeId>, got: set<NodeId>, got': set<NodeId>)
    requires l in nodes && y in ids && ids <= nodes.Keys && l !in ids
    ensures var next := nodes[y := Copied(nodes[y], l, nodes[l].log)][l := nodes[l].(matched := Acked(got, |nodes[l].log|))];
            CopiedTo(next, l, ids - {y}, got') == CopiedTo(nodes, l, ids, got')
  {
  }

  // ---- The first leader commits one entry with its own half and the second leader --------------------------------

  const E1 := Entry(1, 0, 0)
  const E2 := Entry(2, 0, 0)
  const E3 := Entry(2, 1, 0)

  /** The leader of term 1, acknowledged by `got`. */
  function Leader1(p: Split, got: set<NodeId>): Node {
    FRESH.(term := 1, vote := p.a, lead := p.a, role := Leader, log := [E1], persisted := 1, matched := Acked(got, 1),
    epoch := NO_EPOCH.(excluded := p.cfg.wid))
  }

  /** A follower of term 1. */
  function Follower1(p: Split, vote: NodeId): Node {
    Copied(FRESH.(term := 1, vote := vote), p.a, [E1])
  }

  function Witness1(p: Split): W.State {
    W.FRESH.(term := 1, vote := p.a)
  }

  /** The own entries of a leader reach its storage. */
  lemma Store(p: Split, run: seq<Cluster>, nodes: map<NodeId, Node>, w: W.State, sent: set<Msg>, l: NodeId, k: nat)
    returns (run': seq<Cluster>)
    requires At(p, run, nodes, w, sent, false) && l in nodes && nodes[l].role == Leader
    requires nodes[l].persisted < k <= |nodes[l].log| && nodes[l].matched.Keys == {l} && nodes[l].matched[l] < k
    ensures At(p, run', nodes[l := nodes[l].(persisted := k, matched := Acked({l}, k))], w, sent, false)
  {
    hide IsRunBy;
    assert nodes[l].matched[l := k] == Acked({l}, k);
    run' := Extend(p, run, Persist(l, k));
  }

  /** The commit index of a leader that exactly `acked` acknowledged up to `k`. */
  lemma CommitIndex(p: Split, matched: map<NodeId, nat>, acked: set<NodeId>, k: nat)
    requires SplitOk(p) && acked <= p.cfg.incoming && |acked| == p.half + 1
    requires forall v | v in p.cfg.incoming :: MatchOf(matched, v) == if v in acked then k else 0
    ensures IsCommitIndex(p.cfg, matched, k)
  {
    var all := p.cfg.incoming;
    assert all + p.cfg.outgoing == all;
    assert acked <= all * AckedBy(all, matched, k);
    SubsetSize(acked, all * AckedBy(all, matched, k));
    forall j | j > k ensures !Quorate(p.cfg, AckedBy(all, matched, j)) {
      assert all * AckedBy(all, matched, j) == {};
    }
  }

  lemma Commit1(p: Split, run: seq<Cluster>, nodes: map<NodeId, Node>, w: W.State, sent: set<Msg>) returns (run': seq<Cluster>)
    requires SplitOk(p) && At(p, run, nodes, w, sent, false) && p.a in nodes && nodes[p.a] == Leader1(p, p.first + {p.b})
    ensures At(p, run', nodes[p.a := Leader1(p, p.first + {p.b}).(committed := 1)], w, sent, false)
  {
    hide IsRunBy, IsCommitIndex, IsShortcutIndex, Shortcut, ReplicatesToWitness;
    Counting1(p);
    run' := Extend(p, run, MaybeCommit(p.a, 0, 1));
  }

  lemma Counting1(p: Split)
    requires SplitOk(p)
    ensures var n := Leader1(p, p.first + {p.b});
            IsCommitIndex(p.cfg, n.matched, 1) && !ReplicatesToWitness(p.cfg, n) && Shortcut(p.cfg, n, p.a, 0) == n
  {
    hide IsCommitIndex;
    assert p.cfg.wid !in p.first + {p.b};
    CommitIndex(p, Acked(p.first + {p.b}, 1), p.first + {p.b}, 1);
  }

  /** The replicas after the first leader's commit. */
  ghost predicate Settled(p: Split, nodes: map<NodeId, Node>) {
    && nodes.Keys == p.cfg.nodes && p.a in nodes && p.b in nodes
    && nodes[p.a] == Leader1(p, p.first + {p.b}).(committed := 1) && nodes[p.b] == Follower1(p, INVALID_ID)
    && (forall v | v in p.first - {p.a} :: v in nodes && nodes[v] == Follower1(p, p.a))
    && (forall v | v in p.second - {p.b} :: v in nodes && nodes[v] == FRESH)
  }

  function Start(p: Split): map<NodeId, Node> {
    map v | v in p.cfg.nodes :: FRESH
  }

  lemma Begin(p: Split) returns (run: seq<Cluster>)
    requires SplitOk(p)
    ensures At(p, run, Start(p), W.FRESH, {}, false)
  {
    run := [Init(p.cfg)];
  }

  lemma Crowned1(p: Split)
    ensures var n := Crowned(p.cfg, FRESH, p.a);
            && n.role == Leader && n.matched.Keys == {p.a} && n.matched[p.a] == 0 && n.log == [E1] && n.persisted == 0
            && n.(persisted := 1, matched := Acked({p.a}, 1)) == Leader1(p, {p.a})
  {
    assert [] + [E1] == [E1];
  }

  /** Everybody the first leader will hear from. */
  lemma Hearers(p: Split, heard: map<NodeId, Node>)
    requires SplitOk(p) && heard == With(Start(p), p.first - {p.a}, Voter(1, p.a))[p.a := Leader1(p, {p.a})][p.b := FRESH.(term := 1)]
    ensures heard.Keys == p.cfg.nodes && heard[p.a] == Leader1(p, {p.a}) && heard[p.b] == FRESH.(term := 1)
    ensures forall v | v in p.cfg.nodes - {p.a, p.b} :: heard[v] == if v in p.first then Voter(1, p.a) else FRESH
    ensures forall y | y in p.first - {p.a} + {p.b} :: y in heard && Idle(heard[y], 1)
  {
    hide Leader1;
  }

  /** They have all copied its log. */
  lemma Copied1(p: Split, heard: map<NodeId, Node>)
    requires SplitOk(p) && heard.Keys == p.cfg.nodes && heard[p.a] == Leader1(p, {p.a}) && heard[p.b] == FRESH.(term := 1)
    requires forall v | v in p.cfg.nodes - {p.a, p.b} :: heard[v] == if v in p.first then Voter(1, p.a) else FRESH
    ensures var to := CopiedTo(heard, p.a, p.first - {p.a} + {p.b}, p.first + {p.b});
            && p.a in to && to[p.a] == Leader1(p, p.first + {p.b})
            && Settled(p, to[p.a := Leader1(p, p.first + {p.b}).(committed := 1)])
  {
    hide Leader1, Follower1, Copied, Voter, Acked, CopiedTo;
    Forms1(p);
    var todo := p.first - {p.a} + {p.b};
    CopiedShape(heard, p.a, todo, p.first + {p.b});
    var to := CopiedTo(heard, p.a, todo, p.first + {p.b});
    forall v | v in p.first - {p.a} ensures v in to && to[v] == Follower1(p, p.a) {
      assert v in todo && v in p.cfg.nodes - {p.a, p.b};
    }
    forall v | v in p.second - {p.b} ensures v in to && to[v] == FRESH {
      assert v in heard.Keys - todo - {p.a} && v in p.cfg.nodes - {p.a, p.b} && v !in p.first;
    }
    assert p.b in todo;
  }

  lemma CopiedShape(nodes: map<NodeId, Node>, l: NodeId, ids: set<NodeId>, got: set<NodeId>)
    requires l in nodes && ids <= nodes.Keys && l !in ids
    ensures var to := CopiedTo(nodes, l, ids, got);
            && to.Keys == nodes.Keys && to[l] == nodes[l].(matched := Acked(got, |nodes[l].log|))
            && (forall y | y in ids :: to[y] == Copied(nodes[y], l, nodes[l].log))
            && (forall y | y in nodes.Keys - ids - {l} :: to[y] == nodes[y])
  {
  }

  lemma Forms1(p: Split)
    ensures var n, got := Leader1(p, {p.a}), p.first + {p.b};
            n.log == [E1] && n.(matched := Acked(got, 1)) == Leader1(p, got)
    ensures Copied(Voter(1, p.a), p.a, [E1]) == Follower1(p, p.a)
    ensures Copied(FRESH.(term := 1), p.a, [E1]) == Follower1(p, INVALID_ID)
  {
  }

  lemma FirstReign(p: Split) returns (run: seq<Cluster>, nodes: map<NodeId, Node>)
    requires SplitOk(p)
    ensures At(p, run, nodes, Witness1(p), {}, false) && Settled(p, nodes)
  {
    hide At, Crowned, With, Settled, CopiedTo, Leader1, Idle;
    var start := Start(p);
    run := Begin(p);
    run := Win(p, run, start, W.FRESH, p.a, p.first);
    var won := With(start, p.first - {p.a}, Voter(1, p.a))[p.a := Crowned(p.cfg, FRESH, p.a)];
    var req := Request(FRESH, p.a);
    Crowned1(p);
    run := Store(p, run, won, Witness1(p), {req}, p.a, 1);
    var stored := With(start, p.first - {p.a}, Voter(1, p.a))[p.a := Leader1(p, {p.a})];
    Twice(With(start, p.first - {p.a}, Voter(1, p.a)), p.a, Crowned(p.cfg, FRESH, p.a), Leader1(p, {p.a}));
    FreshB(p, stored);
    run := Hear(p, run, stored, Witness1(p), {req}, req, p.b);
    var heard := stored[p.b := FRESH.(term := 1)];
    Hearers(p, heard);
    Copied1(p, heard);
    LeaderFields(p, {p.a});
    assert {p.a} + (p.first - {p.a} + {p.b}) == p.first + {p.b};
    run := Copies(p, run, heard, Witness1(p), {req}, p.a, {p.a}, p.first - {p.a} + {p.b});
    nodes := CopiedTo(heard, p.a, p.first - {p.a} + {p.b}, p.first + {p.b});
    run := Commit1(p, run, nodes, Witness1(p), {req});
    nodes := nodes[p.a := Leader1(p, p.first + {p.b}).(committed := 1)];
    Forget(p, run, nodes, Witness1(p), {req}, false);
  }

  lemma FreshB(p: Split, stored: map<NodeId, Node>)
    requires SplitOk(p) && stored == With(Start(p), p.first - {p.a}, Voter(1, p.a))[p.a := Leader1(p, {p.a})]
    ensures p.b in stored && stored[p.b] == FRESH
  {
  }

  lemma LeaderFields(p: Split, got: set<NodeId>)
    ensures var n := Leader1(p, got);
            n.role == Leader && n.committed == 0 && n.log == [E1] && n.term == 1 && n.matched == Acked(got, |n.log|)
  {
  }

  lemma Forget(p: Split, run: seq<Cluster>, nodes: map<NodeId, Node>, w: W.State, sent: set<Msg>, reading: bool)
    requires At(p, run, nodes, w, sent, reading)
    ensures At(p, run, nodes, w, {}, reading)
  {
  }

  // ---- The second leader commits three entries with the other half and the witness ---------------------------------

  function Leader2(p: Split, got: set<NodeId>, epoch: Epoch): Node {
    FRESH.(term := 2, vote := p.b, lead := p.b, role := Leader, log := [E1, E2, E3], persisted := 3, matched := Acked(got, 3),
    epoch := epoch)
  }

  /** The second subterm leaves out the first leader. */
  const SUBTERM := Epoch(1, INVALID_ID, 0, 0, W.EMPTY_APPEND)

  function Append2(p: Split): W.Append {
    W.Append(p.b, 2, [E1, E2, E3], 1, p.cfg.incoming - {p.a}, 0, 0, 1)
  }

  function Witness2(p: Split): W.State {
    W.FRESH.(term := 2, vote := p.b)
  }

  /** `NewSubterm` of a leader that just won term 2. */
  lemma Subterm2(p: Split, run: seq<Cluster>, nodes: map<NodeId, Node>, w: W.State, sent: set<Msg>) returns (run': seq<Cluster>)
    requires SplitOk(p) && At(p, run, nodes, w, sent, false) && p.b in nodes
    requires nodes[p.b] == Crowned(p.cfg, Follower1(p, INVALID_ID), p.b)
    ensures At(p, run', nodes[p.b := Leader2(p, {}, SUBTERM.(excluded := p.a)).(persisted := 1, matched := Acked({p.b}, 1))], w, sent, false)
  {
    hide IsRunBy;
    hide Crowned, Follower1;
    Reelects(p);
    assert [E1, E2] + [E3] == [E1, E2, E3];
    run' := Extend(p, run, NewSubterm(p.b, p.a));
  }

  /** The second leader right after its election. */
  function Reelected(p: Split): Node {
    FRESH.(term := 2, vote := p.b, lead := p.b, role := Leader, log := [E1, E2], persisted := 1, matched := Acked({p.b}, 1),
    epoch := NO_EPOCH.(excluded := p.cfg.wid))
  }

  lemma Reelects(p: Split)
    ensures Crowned(p.cfg, Follower1(p, INVALID_ID), p.b) == Reelected(p)
  {
    assert [E1] + [E2] == [E1, E2];
    assert map[p.b := 1] == Acked({p.b}, 1);
  }

  /** The second half alone is one less than a quorum inside the replication set. */
  lemma ShortcutIndex2(p: Split, n: Node)
    requires SplitOk(p) && n.matched == Acked(p.second, 3) && n.epoch.excluded == p.a
    ensures IsShortcutIndex(p.cfg, n, 3)
  {
    var r := ReplicationSet(p.cfg, n);
    assert AckedBy(r, n.matched, 3) == p.second;
    forall j | j > 3 ensures |AckedBy(r, n.matched, j)| < p.half {
      assert AckedBy(r, n.matched, j) == {};
      SubsetSize({p.b}, p.second);
    }
  }

  lemma NothingCounted(p: Split)
    requires SplitOk(p)
    ensures IsCommitIndex(p.cfg, Acked(p.second, 3), 0)
  {
    var all, matched := p.cfg.incoming, Acked(p.second, 3);
    assert all + p.cfg.outgoing == all && AckedBy(all, matched, 0) == all && all * all == all;
    forall j | j > 0 ensures !Quorate(p.cfg, AckedBy(all, matched, j)) {
      SubsetSize(all * AckedBy(all, matched, j), p.second);
    }
  }

  /** Counting the second half, the leader sends the witness its log. */
  lemma Send2(p: Split, run: seq<Cluster>, nodes: map<NodeId, Node>, w: W.State) returns (run': seq<Cluster>)
    requires SplitOk(p) && At(p, run, nodes, w, {}, false) && p.b in nodes
    requires nodes[p.b] == Leader2(p, p.second, SUBTERM.(excluded := p.a))
    ensures At(p, run', nodes[p.b := Leader2(p, p.second, Epoch(1, p.a, 0, 1, Append2(p)))], w, {}, false)
  {
    hide IsRunBy, IsCommitIndex, IsShortcutIndex, Shortcut, ReplicatesToWitness, SplitOk, Leader2;
    Sending2(p);
    run' := Extend(p, run, MaybeCommit(p.b, 3, 0));
  }

  lemma Sending2(p: Split)
    requires SplitOk(p)
    ensures var n, n' := Leader2(p, p.second, SUBTERM.(excluded := p.a)), Leader2(p, p.second, Epoch(1, p.a, 0, 1, Append2(p)));
            && n.role == Leader && IsShortcutIndex(p.cfg, n, 3) && Shortcut(p.cfg, n, p.b, 3) == n'
            && IsCommitIndex(p.cfg, n'.matched, 0) && n'.committed == 0
  {
    hide IsCommitIndex, IsShortcutIndex;
    var n := Leader2(p, p.second, SUBTERM.(excluded := p.a));
    ShortcutIndex2(p, n);
    NothingCounted(p);
    assert [E1, E2, E3][0..] == [E1, E2, E3];
    assert p.cfg.wid !in n.matched;
  }

  lemma Confirm2(p: Split, run: seq<Cluster>, nodes: map<NodeId, Node>) returns (run': seq<Cluster>)
    requires SplitOk(p) && At(p, run, nodes, Witness2(p), {}, false) && p.b in nodes
    requires nodes[p.b] == Leader2(p, p.second, Epoch(1, p.a, 0, 1, Append2(p)))
    ensures At(p, run', nodes[p.b := Leader2(p, p.second, Epoch(1, p.a, 1, 0, Append2(p)))], W.OnAppend(Witness2(p), Append2(p)), {}, false)
  {
    hide IsRunBy, W.OnAppend;
    run' := Extend(p, run, WitnessWrite(p.b));
  }

  lemma Commit2(p: Split, run: seq<Cluster>, nodes: map<NodeId, Node>, w: W.State) returns (run': seq<Cluster>)
    requires SplitOk(p) && At(p, run, nodes, w, {}, false) && p.b in nodes
    requires nodes[p.b] == Leader2(p, p.second, Epoch(1, p.a, 1, 0, Append2(p)))
    ensures At(p, run', nodes[p.b := Leader2(p, p.second + {p.cfg.wid}, Epoch(1, p.a, 1, 0, Append2(p))).(committed := 3)], w, {}, false)
  {
    hide IsRunBy, IsCommitIndex, IsShortcutIndex, Shortcut, ReplicatesToWitness, SplitOk, Leader2;
    Counting2(p);
    run' := Extend(p, run, MaybeCommit(p.b, 3, 3));
  }

  lemma Counting2(p: Split)
    requires SplitOk(p)
    ensures var e := Epoch(1, p.a, 1, 0, Append2(p));
            var n, n' := Leader2(p, p.second, e), Leader2(p, p.second + {p.cfg.wid}, e);
            && n.role == Leader && IsShortcutIndex(p.cfg, n, 3) && Shortcut(p.cfg, n, p.b, 3) == n'
            && IsCommitIndex(p.cfg, n'.matched, 3) && n'.committed == 0 && n'.term == 2 && |n'.log| == 3 && TermAt(n'.log, 3) == 2
  {
    hide IsCommitIndex, IsShortcutIndex;
    var n := Leader2(p, p.second, Epoch(1, p.a, 1, 0, Append2(p)));
    ShortcutIndex2(p, n);
    assert p.cfg.wid !in p.second;
    assert n.matched[p.cfg.wid := 3] == Acked(p.second + {p.cfg.wid}, 3);
    CommitIndex(p, Acked(p.second + {p.cfg.wid}, 3), p.second + {p.cfg.wid}, 3);
  }

  /** The first half still stands as its leader left it, and the second leader has committed more. */
  ghost predicate Overtaken(p: Split, nodes: map<NodeId, Node>) {
    && nodes.Keys == p.cfg.nodes && p.a in nodes && p.b in nodes
    && nodes[p.a] == Leader1(p, p.first + {p.b}).(committed := 1)
    && (forall x | x in p.first - {p.a} :: x in nodes && nodes[x] == Follower1(p, p.a))
    && nodes[p.b].committed == 3
  }

  lemma Hearers2(p: Split, settled: map<NodeId, Node>, nodes: map<NodeId, Node>, l: Node)
    requires SplitOk(p) && Settled(p, settled) && nodes == With(settled, p.second - {p.b}, Voter(2, p.b))[p.b := l]
    ensures nodes.Keys == p.cfg.nodes && nodes[p.b] == l && nodes[p.a] == settled[p.a]
    ensures forall y | y in p.second - {p.b} :: y in nodes && Idle(nodes[y], 2)
    ensures forall x | x in p.first - {p.a} :: x in nodes && nodes[x] == Follower1(p, p.a)
  {
    hide Leader1, Follower1;
  }

  lemma Copied2(p: Split, nodes: map<NodeId, Node>, l: Node)
    requires SplitOk(p) && nodes.Keys == p.cfg.nodes && nodes[p.b] == l
    requires nodes[p.a] == Leader1(p, p.first + {p.b}).(committed := 1)
    requires l == Leader2(p, {p.b}, SUBTERM.(excluded := p.a))
    requires forall x | x in p.first - {p.a} :: x in nodes && nodes[x] == Follower1(p, p.a)
    ensures var to := CopiedTo(nodes, p.b, p.second - {p.b}, p.second);
            && p.b in to && to[p.b] == Leader2(p, p.second, SUBTERM.(excluded := p.a))
            && forall n: Node :: n.committed == 3 ==> Overtaken(p, to[p.b := n])
  {
    hide Leader1, Follower1, CopiedTo, Copied;
    CopiedShape(nodes, p.b, p.second - {p.b}, p.second);
  }

  lemma Second(p: Split)
    requires SplitOk(p)
    ensures Follower1(p, INVALID_ID).role == Follower && Follower1(p, INVALID_ID).term == 1
    ensures Behind(Witness1(p), Follower1(p, INVALID_ID)) && Half(p, p.b, p.second)
  {
  }

  /** Up to the log of the second subterm in the second leader's storage. */
  lemma SecondElection(p: Split, run: seq<Cluster>, nodes: map<NodeId, Node>) returns (run': seq<Cluster>)
    requires SplitOk(p) && At(p, run, nodes, Witness1(p), {}, false) && Settled(p, nodes)
    ensures At(p, run', With(nodes, p.second - {p.b}, Voter(2, p.b))[p.b := Leader2(p, {p.b}, SUBTERM.(excluded := p.a))],
               Witness2(p), {}, false)
  {
    hide At, Crowned, With, Half, Behind, Leader1, Follower1;
    Second(p);
    var n := Follower1(p, INVALID_ID);
    var voters := With(nodes, p.second - {p.b}, Voter(2, p.b));
    var l := Leader2(p, {}, SUBTERM.(excluded := p.a)).(persisted := 1, matched := Acked({p.b}, 1));
    run' := Win(p, run, nodes, Witness1(p), p.b, p.second);
    run' := Subterm2(p, run', voters[p.b := Crowned(p.cfg, n, p.b)], Witness2(p), {Request(n, p.b)});
    Twice(voters, p.b, Crowned(p.cfg, n, p.b), l);
    run' := Store(p, run', voters[p.b := l], Witness2(p), {Request(n, p.b)}, p.b, 3);
    Twice(voters, p.b, l, Leader2(p, {p.b}, SUBTERM.(excluded := p.a)));
    Forget(p, run', voters[p.b := Leader2(p, {p.b}, SUBTERM.(excluded := p.a))], Witness2(p), {Request(n, p.b)}, false);
  }

  lemma SecondReign(p: Split, run: seq<Cluster>, settled: map<NodeId, Node>)
    returns (run': seq<Cluster>, nodes: map<NodeId, Node>, w: W.State)
    requires SplitOk(p) && At(p, run, settled, Witness1(p), {}, false) && Settled(p, settled)
    ensures At(p, run', nodes, w, {}, false) && Overtaken(p, nodes)
  {
    hide At, With, CopiedTo, Overtaken, Idle, Leader1, Follower1;
    var l := Leader2(p, {p.b}, SUBTERM.(excluded := p.a));
    var voters := With(settled, p.second - {p.b}, Voter(2, p.b))[p.b := l];
    run' := SecondElection(p, run, settled);
    Hearers2(p, settled, voters, l);
    Copied2(p, voters, l);
    assert {p.b} + (p.second - {p.b}) == p.second;
    run' := Copies(p, run', voters, Witness2(p), {}, p.b, {p.b}, p.second - {p.b});
    nodes := CopiedTo(voters, p.b, p.second - {p.b}, p.second);
    run', nodes, w := SecondCommit(p, run', nodes);
  }

  lemma SecondCommit(p: Split, run: seq<Cluster>, nodes: map<NodeId, Node>)
    returns (run': seq<Cluster>, nodes': map<NodeId, Node>, w: W.State)
    requires SplitOk(p) && At(p, run, nodes, Witness2(p), {}, false) && p.b in nodes
    requires nodes[p.b] == Leader2(p, p.second, SUBTERM.(excluded := p.a))
    ensures At(p, run', nodes', w, {}, false) && nodes' == nodes[p.b := nodes'[p.b]] && p.b in nodes' && nodes'[p.b].committed == 3
  {
    hide At, W.OnAppend;
    var sent := Leader2(p, p.second, Epoch(1, p.a, 0, 1, Append2(p)));
    var confirmed := Leader2(p, p.second, Epoch(1, p.a, 1, 0, Append2(p)));
    w := W.OnAppend(Witness2(p), Append2(p));
    run' := Send2(p, run, nodes, Witness2(p));
    run' := Confirm2(p, run', nodes[p.b := sent]);
    run' := Commit2(p, run', nodes[p.b := sent][p.b := confirmed], w);
    nodes' := nodes[p.b := sent][p.b := confirmed][p.b := Leader2(p, p.second + {p.cfg.wid}, Epoch(1, p.a, 1, 0, Append2(p))).(committed := 3)];
  }

  // ---- The first leader answers a read -------------------------------------------------------------------------------

  function Reading(p: Split, got: set<NodeId>): Node {
    Leader1(p, p.first + {p.b}).(committed := 1, pend := R.Queue([CTX], map[CTX := R.Status(1, p.a, got)]))
  }

  lemma Accept(p: Split, run: seq<Cluster>, nodes: map<NodeId, Node>, w: W.State) returns (run': seq<Cluster>)
    requires At(p, run, nodes, w, {}, false) && p.a in nodes && nodes[p.a] == Leader1(p, p.first + {p.b}).(committed := 1)
    ensures At(p, run', nodes[p.a := Reading(p, {p.a})], w, {}, true) && |run'| == |run| + 1 && run <= run'
    ensures Asked(p.cfg, run', |run| - 1, p.a, CTX, p.a)
  {
    hide IsRunBy, HighestCommit;
    assert [] + [CTX] == [CTX];
    run' := Extend(p, run, AcceptRead(p.a, CTX, p.a));
  }

  /** A follower acknowledges the read. */
  lemma Beat(p: Split, run: seq<Cluster>, nodes: map<NodeId, Node>, w: W.State, x: NodeId, got: set<NodeId>) returns (run': seq<Cluster>)
    requires SplitOk(p) && At(p, run, nodes, w, {}, true) && x in p.first && x != p.a && x in nodes && p.a in nodes
    requires nodes[p.a] == Reading(p, got) && nodes[x] == Follower1(p, p.a)
    ensures At(p, run', nodes[x := nodes[x].(committed := 1, durable := 1)][p.a := Reading(p, got + {x})], w, {}, true) && run <= run'
  {
    hide IsRunBy;
    run' := Pulse(p, run, nodes, w, x, got);
    run' := Reply(p, run', nodes, w, x);
    run' := Mark(p, run', nodes[x := nodes[x].(committed := 1, durable := 1)], w, x, got);
  }

  lemma Pulse(p: Split, run: seq<Cluster>, nodes: map<NodeId, Node>, w: W.State, x: NodeId, got: set<NodeId>) returns (run': seq<Cluster>)
    requires SplitOk(p) && At(p, run, nodes, w, {}, true) && x in p.first && x != p.a && x in nodes && p.a in nodes
    requires nodes[p.a] == Reading(p, got)
    ensures At(p, run', nodes, w, {Heartbeat(p.a, x, 1, 1, CTX)}, true) && run <= run'
  {
    hide IsRunBy;
    assert nodes[p.a := nodes[p.a]] == nodes;
    run' := Extend(p, run, SendHeartbeat(p.a, x, CTX));
  }

  lemma Reply(p: Split, run: seq<Cluster>, nodes: map<NodeId, Node>, w: W.State, x: NodeId) returns (run': seq<Cluster>)
    requires At(p, run, nodes, w, {Heartbeat(p.a, x, 1, 1, CTX)}, true) && x in nodes && nodes[x] == Follower1(p, p.a)
    ensures At(p, run', nodes[x := nodes[x].(committed := 1, durable := 1)], w, {HeartbeatResp(x, p.a, 1, CTX)}, true) && run <= run'
  {
    hide IsRunBy;
    run' := Extend(p, run, RecvHeartbeat(x, Heartbeat(p.a, x, 1, 1, CTX)));
  }

  lemma Mark(p: Split, run: seq<Cluster>, nodes: map<NodeId, Node>, w: W.State, x: NodeId, got: set<NodeId>) returns (run': seq<Cluster>)
    requires At(p, run, nodes, w, {HeartbeatResp(x, p.a, 1, CTX)}, true) && p.a in nodes && nodes[p.a] == Reading(p, got)
    ensures At(p, run', nodes[p.a := Reading(p, got + {x})], w, {}, true) && run <= run'
  {
    hide IsRunBy;
    assert R.RecvAck(Reading(p, got).pend, x, CTX) == Reading(p, got + {x}).pend;
    run' := Extend(p, run, RecvHeartbeatResp(p.a, HeartbeatResp(x, p.a, 1, CTX)));
  }

  lemma {:induction false} Beats(p: Split, run: seq<Cluster>, nodes: map<NodeId, Node>, w: W.State, got: set<NodeId>, todo: set<NodeId>)
    returns (run': seq<Cluster>, nodes': map<NodeId, Node>)
    requires SplitOk(p) && At(p, run, nodes, w, {}, true) && todo <= p.first - {p.a} && p.a in nodes && nodes[p.a] == Reading(p, got)
    requires forall x | x in todo :: x in nodes && nodes[x] == Follower1(p, p.a)
    ensures At(p, run', nodes', w, {}, true) && p.a in nodes' && nodes'[p.a] == Reading(p, got + todo) && run <= run'
    decreases todo
  {
    hide At, Reading, Follower1;
    if todo == {} {
      assert got + todo == got;
      run', nodes' := run, nodes;
    } else {
      var x :| x in todo;
      run' := Beat(p, run, nodes, w, x, got);
      nodes' := nodes[x := nodes[x].(committed := 1, durable := 1)][p.a := Reading(p, got + {x})];
      run', nodes' := Beats(p, run', nodes', w, got + {x}, todo - {x});
      assert got + {x} + (todo - {x}) == got + todo;
    }
  }

  /** Its own half and the witness are a read quorum. */
  lemma Answer(p: Split, run: seq<Cluster>, nodes: map<NodeId, Node>, w: W.State) returns (run': seq<Cluster>)
    requires SplitOk(p) && At(p, run, nodes, w, {}, true) && p.a in nodes && nodes[p.a] == Reading(p, p.first)
    ensures IsRunBy(p.cfg, p.polling, run') && |run'| == |run| + 1 && run <= run'
    ensures Answered(run'[|run|], p.a, ReadState(1, CTX))
  {
    hide IsRunBy, Quorate, SplitOk;
    Granted1(p);
    var q := nodes[p.a].pend;
    assert R.Position([CTX], CTX) == 0;
    assert R.Released(q, CTX) == [CTX];
    assert CTX in R.Released(q, CTX) && q.status[CTX] == R.Status(1, p.a, p.first);
    assert ReadState(1, CTX) in OwnAnswers(q, p.a, CTX);
    hide R.Released, R.Advance, R.Position, OwnAnswers, Answers;
    run' := Extend(p, run, ReleaseReads(p.a, CTX));
  }

  lemma Granted1(p: Split)
    requires SplitOk(p)
    ensures Quorate(p.cfg, p.first + {p.cfg.wid})
  {
    hide Quorate;
    Granted(p, p.first);
  }

  // ---- Every odd configuration -----------------------------------------------------------------------------------------

  lemma Halves(cfg: Config, polling: Polling) returns (p: Split)
    requires ValidConfig(cfg) && HasWitness(cfg) && |cfg.incoming| % 2 == 1 && (polling.AsWritten? ==> |cfg.incoming| == 3)
    ensures SplitOk(p) && p.cfg == cfg && p.polling == polling
  {
    var half := |cfg.incoming| / 2;
    var regular := cfg.incoming - {cfg.wid};
    assert |regular| == 2 * half;
    var first := SubsetOfSize(regular, half);
    var second := regular - first;
    assert |second| == half;
    var a :| a in first;
    var b :| b in second;
    p := Split(cfg, polling, half, first, second, a, b);
  }

  /** A leader that was overtaken answers a read with index 1 that it accepted when three entries were
      committed. */
  lemma StaleReadRun(cfg: Config, polling: Polling) returns (run: seq<Cluster>, x: Read, w: NodeId)
    requires ValidConfig(cfg) && !KeepsReads(cfg, polling)
    ensures Reads(cfg, polling, run, x) && w in run[x.i].nodes && x.r.index < run[x.i].nodes[w].committed
  {
    var p := Halves(cfg, polling);
    hide SplitOk, IsRunBy, Settled, Overtaken;
    var nodes, wit;
    run, nodes := FirstReign(p);
    run, nodes, wit := SecondReign(p, run, nodes);
    w := p.b;
    run, x := StaleAnswer(p, run, nodes, wit);
  }

  lemma StaleAnswer(p: Split, run: seq<Cluster>, nodes: map<NodeId, Node>, wit: W.State) returns (run': seq<Cluster>, x: Read)
    requires SplitOk(p) && At(p, run, nodes, wit, {}, false) && Overtaken(p, nodes)
    ensures Reads(p.cfg, p.polling, run', x) && p.b in run'[x.i].nodes && x.r.index < run'[x.i].nodes[p.b].committed
  {
    hide IsRunBy, Leader1, Reading, Follower1, Answered, Apply, Enabled;
    var accepted := Accept(p, run, nodes, wit);
    assert {p.a} + (p.first - {p.a}) == p.first;
    var beaten, nodes' := Beats(p, accepted, nodes[p.a := Reading(p, {p.a})], wit, {p.a}, p.first - {p.a});
    run' := Answer(p, beaten, nodes', wit);
    x := Read(|run| - 1, |beaten|, p.a, p.a, p.a, ReadState(1, CTX));
    assert run'[|run| - 1] == run[|run| - 1] && run'[|run|] == accepted[|run|];
  }

  /** Reads are linearizable exactly without a witness or, as intended, with an even number of voters
      and, as written, with more than three. */
  lemma ReadsLinearizableIff(cfg: Config, polling: Polling)
    requires ValidConfig(cfg)
    ensures ReadsLinearizable(cfg, polling) <==> KeepsReads(cfg, polling)
  {
    hide Reads;
    if KeepsReads(cfg, polling) {
      KeptReads(cfg, polling);
    } else {
      var run, x, w := StaleReadRun(cfg, polling);
    }
  }
}
