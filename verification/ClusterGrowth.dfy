/** History only grows, and what the invariant says about old parts of it stays true. */
module ClusterGrowth {
  import opened Quorum
  import opened RaftLogs
  import opened ClusterState
  import opened ClusterInv

  predicate Grows(h: History, h': History) {
    && (forall t | t in h.logs :: t in h'.logs && h.logs[t] <= h'.logs[t])
    && (forall t | t in h.elect :: t in h'.elect && h'.elect[t] == h.elect[t])
    && (forall c | c in h.camp :: c in h'.camp && h'.camp[c] == h.camp[c])
    && h.acks <= h'.acks
    && h.votes <= h'.votes
    && h.commits <= h'.commits
    && (forall p | p in h.confirmed :: p in h'.confirmed && h'.confirmed[p] == h.confirmed[p])
    && h.grants <= h'.grants
    && (forall c | c in h.reqs :: c in h'.reqs && h'.reqs[c] == h.reqs[c])
  }

  lemma PrefixStays(h: History, h': History, t: nat, k: nat)
    requires Grows(h, h') && t in h.logs && k <= |h.logs[t]|
    ensures t in h'.logs && k <= |h'.logs[t]| && h'.logs[t][..k] == h.logs[t][..k]
    ensures TermAt(h'.logs[t], k) == TermAt(h.logs[t], k)
  {
    assert h.logs[t] <= h'.logs[t];
  }

  lemma ValidStays(h: History, h': History, log: Log)
    requires Grows(h, h') && ValidLog(h, log)
    ensures ValidLog(h', log)
  {
    forall i | 0 <= i < |log| ensures EntryOk(h', log, i) {
      assert EntryOk(h, log, i);
      PrefixStays(h, h', log[i].term, i + 1);
    }
  }

  lemma CoversStays(h: History, h': History, c: Commit, log: Log, index: nat)
    requires Grows(h, h') && Covers(h, c, log, index)
    ensures Covers(h', c, log, index)
  {
    PrefixStays(h, h', c.term, c.index);
    PrefixStays(h, h', c.term, index);
  }

  lemma CommittedStays(h: History, h': History, log: Log, index: nat)
    requires Grows(h, h') && Committed(h, log, index)
    ensures Committed(h', log, index)
  {
    if index != 0 {
      var c :| c in h.commits && Covers(h, c, log, index);
      CoversStays(h, h', c, log, index);
    }
  }

  /** A committed prefix of a term's log stays one when that log grows. */
  lemma TermCommittedStays(h: History, h': History, t: nat, index: nat)
    requires Grows(h, h') && t in h.logs && index <= |h.logs[t]| && Committed(h, h.logs[t], index)
    ensures t in h'.logs && index <= |h'.logs[t]| && Committed(h', h'.logs[t], index)
  {
    PrefixStays(h, h', t, index);
    if index != 0 {
      var c :| c in h.commits && Covers(h, c, h.logs[t], index);
      CoversStays(h, h', c, h.logs[t], index);
      assert Covers(h', c, h'.logs[t], index);
    }
  }

  lemma InfoStays(h: History, h': History, commit: nat, commitTerm: nat)
    requires Grows(h, h') && CommitInfoOk(h, commit, commitTerm)
    ensures CommitInfoOk(h', commit, commitTerm)
  {
    if commit != 0 && commitTerm != 0 {
      var c :| c in h.commits && Informs(h, c, commit, commitTerm);
      PrefixStays(h, h', c.term, c.index);
      PrefixStays(h, h', c.term, commit);
      assert Informs(h', c, commit, commitTerm);
    }
  }

  lemma LacksStays(h: History, h': History, u: nat, t: nat, k: nat)
    requires Grows(h, h') && u in h.elect && t in h.logs && k <= |h.logs[t]|
    ensures u in h'.elect && t in h'.logs && k <= |h'.logs[t]|
    ensures Lacks(h', u, t, k) == Lacks(h, u, t, k)
  {
    PrefixStays(h, h', t, k);
    assert h'.elect[u] == h.elect[u];
  }

  lemma SupersededStays(h: History, h': History, t: nat, k: nat)
    requires Grows(h, h') && t in h.logs && k <= |h.logs[t]| && Superseded(h, t, k)
    ensures t in h'.logs && k <= |h'.logs[t]| && Superseded(h', t, k)
  {
    var u :| u in h.elect && u > t && Lacks(h, u, t, k);
    LacksStays(h, h', u, t, k);
  }

  lemma SupersededBeforeStays(h: History, h': History, t': nat, t: nat, k: nat)
    requires Grows(h, h') && t' in h.elect && t in h.logs && k <= |h.logs[t]| && SupersededBefore(h, t', t, k)
    ensures t' in h'.elect && t in h'.logs && k <= |h'.logs[t]| && SupersededBefore(h', t', t, k)
  {
    var u :| u in h.elect[t'].prior && u in h.elect && u > t && Lacks(h, u, t, k);
    LacksStays(h, h', u, t, k);
    assert h'.elect[t'] == h.elect[t'];
  }

  lemma BackedStays(cfg: Config, h: History, h': History, t: nat, k: nat)
    requires Grows(h, h') && Backed(cfg, h, t, k)
    ensures Backed(cfg, h', t, k)
  {
    var sub :| BackedIn(cfg, h, t, sub, k);
    PrefixStays(h, h', t, k);
    assert h'.logs[t][..k][k - 1] == h.logs[t][..k][k - 1];
    assert h'.confirmed[(t, sub)] == h.confirmed[(t, sub)];
    SubsetSize((h.confirmed[(t, sub)] - {cfg.wid}) * AckSet(h, t, k), (h.confirmed[(t, sub)] - {cfg.wid}) * AckSet(h', t, k));
    assert BackedIn(cfg, h', t, sub, k);
  }

  lemma ChosenStays(cfg: Config, h: History, h': History, t: nat, k: nat)
    requires Grows(h, h') && Chosen(cfg, h, t, k)
    ensures Chosen(cfg, h', t, k)
  {
    PrefixStays(h, h', t, k);
    assert h'.logs[t][..k][k - 1] == h.logs[t][..k][k - 1];
    if Quorate(cfg, AckSet(h, t, k)) {
      QuorumMonotone(cfg.incoming, cfg.outgoing, AckSet(h, t, k), AckSet(h', t, k));
    } else {
      BackedStays(cfg, h, h', t, k);
    }
  }

  lemma BehindStays(h: History, h': History, r: ReadRecord, x: NodeId)
    requires Grows(h, h') && StillBehind(h, r, x) && r.elected <= h.elect.Keys
    ensures StillBehind(h', r, x)
  {
    forall u | u in r.elected && u > r.term && u in h'.elect ensures x !in h'.elect[u].voters {
      assert u in h.elect.Keys;
      assert h'.elect[u] == h.elect[u];
    }
  }

  lemma PollStays(cfg: Config, h: History, h': History, m: Msg)
    requires Grows(h, h') && m.WitnessVoteReq?
    requires PollOk(cfg, h, m.from, m.term, m.lastTerm, m.lastSubterm, m.granted)
    ensures PollOk(cfg, h', m.from, m.term, m.lastTerm, m.lastSubterm, m.granted)
  {
    assert h'.camp[(m.term, m.from)] == h.camp[(m.term, m.from)];
  }

  lemma MsgStays(cfg: Config, h: History, h': History, m: Msg)
    requires Grows(h, h') && MsgOk(cfg, h, m)
    requires forall c {:trigger ReadOk(h, c)} | c in h.reqs :: ReadOk(h, c)
    ensures MsgOk(cfg, h', m)
  {
    match m
    case VoteReq(from, term, pre, _, _, commit, commitTerm) =>
      InfoStays(h, h', commit, commitTerm);
      assert !pre ==> h'.camp[(term, from)] == h.camp[(term, from)];
    case VoteResp(_, _, _, _, _, commit, commitTerm) =>
      InfoStays(h, h', commit, commitTerm);
    case AppendReq(_, _, term, prev, _, ents, commit) =>
      TermCommittedStays(h, h', term, commit);
      PrefixStays(h, h', term, prev);
      assert h.logs[term] <= h'.logs[term];
      assert h'.logs[term][prev..prev + |ents|] == h.logs[term][prev..prev + |ents|];
    case AppendResp(_, _, _, _, _) =>
    case Heartbeat(_, to, term, commit, ctx) =>
      TermCommittedStays(h, h', term, commit);
      assert ctx != R.NO_CONTEXT ==> h'.reqs[ctx] == h.reqs[ctx];
      assert commit > 0 ==> to in AckSet(h', term, commit);
    case HeartbeatResp(from, _, term, ctx) =>
      if ctx != R.NO_CONTEXT && h.reqs[ctx].term == term {
        assert ReadOk(h, ctx);
        BehindStays(h, h', h.reqs[ctx], from);
      }
    case Snapshot(_, _, term, prefix) =>
      CommittedStays(h, h', prefix, |prefix|);
      assert h.logs[term] <= h'.logs[term];
    case ReadResp(_, _, term, index, _) =>
      TermCommittedStays(h, h', term, index);
    case WitnessVoteReq(from, term, pre, _, _, _) =>
      if !pre { PollStays(cfg, h, h', m); }
  }

  // ---- Replicas that do not move ---------------------------------------------------------------------

  /** What is new belongs to a term led by `v`. */
  predicate OnlyBy(h: History, h': History, v: NodeId) {
    && (forall t | t in h.logs && t in h'.logs :: h'.logs[t] == h.logs[t] || (t in h.elect && h.elect[t].leader == v))
    && (forall c | c in h'.commits :: c in h.commits || (c.term in h.elect && h.elect[c.term].leader == v))
    && (forall p | p in h'.confirmed :: p in h.confirmed || (p.0 in h.elect && h.elect[p.0].leader == v))
    && (forall t | t in h'.elect :: t in h.elect || h'.elect[t].leader == v)
  }

  lemma ReplicaStays(h: History, h': History, n: Node)
    requires Grows(h, h') && ReplicaOk(h, n)
    ensures ReplicaOk(h', n)
  {
    ValidStays(h, h', n.log);
    CommittedStays(h, h', n.log, n.committed);
  }

  lemma CandidateStays(cfg: Config, h: History, h': History, v: NodeId, u: NodeId, n: Node)
    requires Grows(h, h') && OnlyBy(h, h', v) && u != v
    requires CandidateOk(cfg, h, u, n)
    ensures CandidateOk(cfg, h', u, n)
  {
    if n.role == Candidate {
      assert h'.camp[(n.term, u)] == h.camp[(n.term, u)];
    }
  }

  lemma MatchStays(cfg: Config, h: History, h': History, t: nat, x: NodeId, k: nat)
    requires Grows(h, h') && MatchOk(cfg, h, t, x, k)
    ensures MatchOk(cfg, h', t, x, k)
  {
    if HasWitness(cfg) && x == cfg.wid && k != 0 { BackedStays(cfg, h, h', t, k); }
  }

  lemma LeaderStays(cfg: Config, h: History, h': History, v: NodeId, u: NodeId, n: Node)
    requires Grows(h, h') && OnlyBy(h, h', v) && u != v
    requires LeaderOk(cfg, h, u, n)
    ensures LeaderOk(cfg, h', u, n)
  {
    if n.role == Leader {
      assert h'.elect[n.term] == h.elect[n.term];
      assert h'.logs[n.term] == h.logs[n.term];
      forall x | x in n.matched ensures MatchOk(cfg, h', n.term, x, n.matched[x]) {
        MatchStays(cfg, h, h', n.term, x, n.matched[x]);
      }
    }
  }

  lemma EpochStays(cfg: Config, h: History, h': History, v: NodeId, u: NodeId, n: Node)
    requires Grows(h, h') && OnlyBy(h, h', v) && u != v
    requires LeaderOk(cfg, h, u, n) && EpochOk(cfg, h, u, n)
    ensures EpochOk(cfg, h', u, n)
  {
    if n.role == Leader && HasWitness(cfg) {
      assert forall s :: (n.term, s) in h'.confirmed ==> (n.term, s) in h.confirmed;
    }
  }

  lemma PendingStays(h: History, h': History, n: Node, c: R.Context)
    requires Grows(h, h') && n.term in h.logs && c in n.pend.status && PendingOk(h, n, c)
    requires ReadOk(h, c)
    ensures n.term in h'.logs && PendingOk(h', n, c)
  {
    TermCommittedStays(h, h', n.term, n.pend.status[c].index);
    assert h'.reqs[c] == h.reqs[c];
    forall x | x in n.pend.status[c].acks ensures StillBehind(h', h'.reqs[c], x) {
      BehindStays(h, h', h.reqs[c], x);
    }
  }

  lemma QueueStays(cfg: Config, h: History, h': History, n: Node)
    requires Grows(h, h') && QueueOk(h, n)
    requires n.role == Leader ==> n.term in h.logs
    requires forall c {:trigger ReadOk(h, c)} | c in h.reqs :: ReadOk(h, c)
    ensures QueueOk(h', n)
  {
    if n.role == Leader {
      forall c | c in n.pend.status ensures n.term in h'.logs && PendingOk(h', n, c) {
        assert PendingOk(h, n, c);
        assert ReadOk(h, c);
        PendingStays(h, h', n, c);
      }
      forall i, j | 0 <= i < j < |n.pend.queue| && n.pend.queue[i] in h'.reqs && n.pend.queue[j] in h'.reqs
        ensures h'.reqs[n.pend.queue[i]].elected <= h'.reqs[n.pend.queue[j]].elected
      {
        var a, b := n.pend.queue[i], n.pend.queue[j];
        assert a in n.pend.status && b in n.pend.status;
        assert PendingOk(h, n, a) && PendingOk(h, n, b);
        assert h'.reqs[a] == h.reqs[a] && h'.reqs[b] == h.reqs[b];
      }
    }
  }

  lemma NodeStays(cfg: Config, h: History, h': History, v: NodeId, u: NodeId, n: Node)
    requires Grows(h, h') && OnlyBy(h, h', v) && u != v
    requires NodeOk(cfg, h, u, n)
    requires forall c {:trigger ReadOk(h, c)} | c in h.reqs :: ReadOk(h, c)
    ensures NodeOk(cfg, h', u, n)
  {
    ReplicaStays(h, h', n);
    CandidateStays(cfg, h, h', v, u, n);
    LeaderStays(cfg, h, h', v, u, n);
    EpochStays(cfg, h, h', v, u, n);
    QueueStays(cfg, h, h', n);
  }

  // ---- Acknowledgments -----------------------------------------------------------------------------------

  /** Nothing persisted, durable or heard of is given up. */
  predicate Keeps(n: Node, n': Node) {
    && n.term <= n'.term
    && n.persisted <= |n.log| && n.persisted <= n'.persisted <= |n'.log|
    && n.log[..n.persisted] == n'.log[..n.persisted]
    && n.durable <= n'.durable
  }

  lemma KeptStays(h: History, h': History, n: Node, n': Node, t: nat, k: nat)
    requires Grows(h, h') && t in h.logs && k <= |h.logs[t]|
    requires Keeps(n, n') && Kept(h, n, t, k)
    ensures t in h'.logs && k <= |h'.logs[t]| && Kept(h', n', t, k)
  {
    PrefixStays(h, h', t, k);
    if k <= n.persisted && k <= |n.log| && h.logs[t][..k] == n.log[..k] {
      assert n.log[..k] == n.log[..n.persisted][..k] == n'.log[..n.persisted][..k] == n'.log[..k];
    } else if exists u :: u in h.elect && t < u <= n.term && Lacks(h, u, t, k) {
      var u :| u in h.elect && t < u <= n.term && Lacks(h, u, t, k);
      LacksStays(h, h', u, t, k);
    } else {
      SupersededStays(h, h', t, k);
    }
  }

  lemma BeyondStays(h: History, h': History, a: Ack)
    requires Grows(h, h') && Beyond(h, a)
    ensures Beyond(h', a)
  {
    var u :| IsFirstLater(h, a.term, u) && a.node !in h.elect[u].voters;
    assert h'.elect[u] == h.elect[u];
    assert IsFirstLater(h', a.term, u);
  }

  /** With the leaders' logs as they were, an acknowledgment stays good while its node keeps it. */
  lemma AckStays(h: History, h': History, nodes: map<NodeId, Node>, nodes': map<NodeId, Node>, a: Ack)
    requires Grows(h, h') && AckOk(h, nodes, a)
    requires a.term in h'.logs && h'.logs[a.term] == h.logs[a.term]
    requires a.node in nodes' && Keeps(nodes[a.node], nodes'[a.node])
    ensures AckOk(h', nodes', a)
  {
    forall k | 1 <= k <= a.index && k <= |h'.logs[a.term]| ensures Kept(h', nodes'[a.node], a.term, k) {
      assert Kept(h, nodes[a.node], a.term, k);
      KeptStays(h, h', nodes[a.node], nodes'[a.node], a.term, k);
    }
    if a.index > |h'.logs[a.term]| { BeyondStays(h, h', a); }
  }

  // ---- Everything but the mover ----------------------------------------------------------------------------

  /** One replica moves, the witness does not. */
  predicate Moves(s: Cluster, s': Cluster, v: NodeId) {
    && v in s.nodes && v in s'.nodes
    && s'.nodes == s.nodes[v := s'.nodes[v]]
    && s'.wit == s.wit
    && s.msgs <= s'.msgs
    && Grows(s.h, s'.h)
    && OnlyBy(s.h, s'.h, v)
    && s.nodes[v].term <= s'.nodes[v].term
    && (s'.nodes[v].term == s.nodes[v].term ==> s'.nodes[v].vote == s.nodes[v].vote || s.nodes[v].vote == INVALID_ID)
    && (forall m | m in s'.msgs && m !in s.msgs && m.WitnessVoteReq? :: m.from == v)
  }

  lemma OthersStay(cfg: Config, s: Cluster, s': Cluster, v: NodeId)
    requires Inv(cfg, s) && Moves(s, s', v)
    requires NodeOk(cfg, s'.h, v, s'.nodes[v])
    requires PolledOk(s'.msgs, v, s'.nodes[v])
    ensures s'.nodes.Keys == cfg.nodes
    ensures forall u {:trigger NodeOk(cfg, s'.h, u, s'.nodes[u])} | u in s'.nodes :: NodeOk(cfg, s'.h, u, s'.nodes[u])
    ensures forall u {:trigger PolledOk(s'.msgs, u, s'.nodes[u])} | u in s'.nodes :: PolledOk(s'.msgs, u, s'.nodes[u])
  {
    hide Inv, NodeOk;
    OfHistory(cfg, s);
    hide LogsOk, CoversOk, CommitsOk, WitnessOk, GrantsOk;
    forall u | u in s'.nodes ensures NodeOk(cfg, s'.h, u, s'.nodes[u]) && PolledOk(s'.msgs, u, s'.nodes[u]) {
      if u != v {
        OfNode(cfg, s, u);
        NodeStays(cfg, s.h, s'.h, v, u, s.nodes[u]);
      }
    }
  }

  lemma VoteStays(cfg: Config, s: Cluster, s': Cluster, v: NodeId, b: Vote)
    requires ValidConfig(cfg) && Moves(s, s', v) && VoteOk(cfg, s, b)
    requires CampOk(s.h, s.nodes, b.term, b.cand)
    requires s.nodes.Keys == cfg.nodes
    ensures VoteOk(cfg, s', b)
  {
    assert s'.h.camp[(b.term, b.cand)] == s.h.camp[(b.term, b.cand)];
  }

  lemma CampStays(h: History, h': History, nodes: map<NodeId, Node>, nodes': map<NodeId, Node>, t: nat, c: NodeId)
    requires Grows(h, h') && (t, c) in h.camp && CampOk(h, nodes, t, c)
    requires c in nodes' && nodes[c].term <= nodes'[c].term
    ensures (t, c) in h'.camp && CampOk(h', nodes', t, c)
  {
    assert h'.camp[(t, c)] == h.camp[(t, c)];
    ValidStays(h, h', h.camp[(t, c)]);
  }

  /** Old votes, candidacies, winners and messages. */
  lemma OldStay(cfg: Config, s: Cluster, s': Cluster, v: NodeId)
    requires ValidConfig(cfg) && Inv(cfg, s) && Moves(s, s', v)
    ensures forall b {:trigger VoteOk(cfg, s', b)} | b in s.h.votes :: VoteOk(cfg, s', b)
    ensures forall t, c {:trigger CampOk(s'.h, s'.nodes, t, c)} | (t, c) in s.h.camp ::
              (t, c) in s'.h.camp && CampOk(s'.h, s'.nodes, t, c)
    ensures forall t {:trigger WinnerOk(s'.h, s'.nodes, t)} | t in s.h.elect ::
              t in s'.h.elect && WinnerOk(s'.h, s'.nodes, t)
    ensures forall m {:trigger MsgOk(cfg, s'.h, m)} | m in s.msgs :: MsgOk(cfg, s'.h, m)
  {
    hide Inv, MsgOk;
    OfHistory(cfg, s);
    hide LogsOk, CoversOk, CommitsOk, WitnessOk, GrantsOk;
    forall b | b in s.h.votes ensures VoteOk(cfg, s', b) {
      OfVote(cfg, s, b);
      VoteStays(cfg, s, s', v, b);
    }
    forall t, c | (t, c) in s.h.camp ensures (t, c) in s'.h.camp && CampOk(s'.h, s'.nodes, t, c) {
      OfCamp(cfg, s, t, c);
      CampStays(s.h, s'.h, s.nodes, s'.nodes, t, c);
    }
    forall t | t in s.h.elect ensures t in s'.h.elect && WinnerOk(s'.h, s'.nodes, t) {
      OfWinner(cfg, s, t);
      assert s'.h.elect[t] == s.h.elect[t];
    }
    forall m | m in s.msgs ensures MsgOk(cfg, s'.h, m) {
      OfMsg(cfg, s, m);
      MsgStays(cfg, s.h, s'.h, m);
    }
  }

  // ---- The history, when no leader's log changes --------------------------------------------------------------

  lemma LogsStay(cfg: Config, h: History, h': History)
    requires LogsOk(cfg, h) && Grows(h, h')
    requires h'.logs == h.logs && h'.elect == h.elect
    ensures LogsOk(cfg, h')
  {
    forall t | t in h'.elect ensures TermLogOk(h', t) && ElectionOk(cfg, h', t) {
      assert TermLogOk(h, t) && ElectionOk(cfg, h, t);
      ValidStays(h, h', h.elect[t].log);
      assert h'.camp[(t, h.elect[t].leader)] == h.camp[(t, h.elect[t].leader)];
    }
    forall t, u | t in h'.elect && u in h'.elect ensures Ordered(h', t, u) {
      assert Ordered(h, t, u);
    }
  }

  lemma VoteCoversStays(h: History, h': History, b: Vote, a: Ack)
    requires Grows(h, h') && (a.term in h'.logs ==> a.term in h.logs && h'.logs[a.term] == h.logs[a.term])
    requires (b.term, b.cand) in h.camp
    requires VoteCovers(h, b, a)
    ensures VoteCovers(h', b, a)
  {
    assert h'.camp[(b.term, b.cand)] == h.camp[(b.term, b.cand)];
    if b.term !in h'.elect && a.node == b.voter && a.term < b.term && a.term in h'.logs {
      forall k: nat | OwnEntry(h', a, k)
        ensures h'.logs[a.term][..k] <= h'.camp[(b.term, b.cand)] || Superseded(h', a.term, k)
      {
        assert OwnEntry(h, a, k);
        if Superseded(h, a.term, k) { SupersededStays(h, h', a.term, k); }
      }
    }
  }

  lemma ElectionCoversStays(h: History, h': History, t: nat, a: Ack)
    requires Grows(h, h') && (a.term in h'.logs ==> a.term in h.logs && h'.logs[a.term] == h.logs[a.term])
    requires t in h.elect && ElectionCovers(h, t, a)
    ensures ElectionCovers(h', t, a)
  {
    assert h'.elect[t] == h.elect[t];
    if t in h'.elect && a.node in h'.elect[t].voters && a.term < t && a.term in h'.logs {
      forall k: nat | OwnEntry(h', a, k)
        ensures h'.logs[a.term][..k] <= h'.elect[t].log || SupersededBefore(h', t, a.term, k)
      {
        assert OwnEntry(h, a, k);
        if SupersededBefore(h, t, a.term, k) { SupersededBeforeStays(h, h', t, a.term, k); }
      }
    }
  }

  lemma CommitsStay(cfg: Config, h: History, h': History)
    requires CommitsOk(cfg, h) && Grows(h, h') && h'.commits == h.commits
    ensures CommitsOk(cfg, h')
  {
    forall c | c in h'.commits ensures Chosen(cfg, h', c.term, c.index) {
      assert Chosen(cfg, h, c.term, c.index);
      ChosenStays(cfg, h, h', c.term, c.index);
    }
  }

  lemma WitnessStays(cfg: Config, s: Cluster, s': Cluster)
    requires WitnessOk(cfg, s) && Grows(s.h, s'.h)
    requires s'.wit == s.wit && s'.h.confirmed == s.h.confirmed && s'.h.grants == s.h.grants
    ensures WitnessOk(cfg, s')
  {
    forall t, sub | (t, sub) in s'.h.confirmed ensures ConfirmedOk(cfg, s', t, sub) {
      assert ConfirmedOk(cfg, s, t, sub);
    }
  }

  lemma GrantStays(cfg: Config, h: History, h': History, g: WitnessGrant)
    requires GrantOk(cfg, h, g) && Grows(h, h') && h'.confirmed == h.confirmed
    ensures GrantOk(cfg, h', g)
  {
    assert h'.camp[(g.term, g.cand)] == h.camp[(g.term, g.cand)];
    forall t, sub | (t, sub) in h'.confirmed && t < g.term
      ensures ConfirmedBehind(h', t, sub, g.heldTerm, g.heldSubterm, g.heldSet)
    {
      assert ConfirmedBehind(h, t, sub, g.heldTerm, g.heldSubterm, g.heldSet);
    }
  }

  lemma GrantsStay(cfg: Config, s: Cluster, s': Cluster)
    requires GrantsOk(cfg, s) && Grows(s.h, s'.h) && s.msgs <= s'.msgs
    requires s'.wit == s.wit && s'.h.confirmed == s.h.confirmed && s'.h.grants == s.h.grants
    requires s'.h.elect == s.h.elect
    requires forall b | b in s'.h.votes && b.voter == cfg.wid && HasWitness(cfg) :: b in s.h.votes
    ensures GrantsOk(cfg, s')
  {
    forall g | g in s'.h.grants ensures GrantOk(cfg, s'.h, g) && g.term <= s'.wit.term && PollOf(g) in s'.msgs {
      assert GrantOk(cfg, s.h, g);
      GrantStays(cfg, s.h, s'.h, g);
    }
    if HasWitness(cfg) {
      forall b | b in s'.h.votes && b.voter == cfg.wid ensures HasGrant(s'.h, b) {
        assert HasGrant(s.h, b);
      }
      forall t | t in s'.h.elect && cfg.wid in s'.h.elect[t].voters ensures WonByGrant(s'.h, t) {
        assert WonByGrant(s.h, t);
      }
    }
  }

  lemma ReadsStay(h: History, h': History)
    requires ReadsOk(h) && Grows(h, h') && h'.reqs == h.reqs
    ensures ReadsOk(h')
  {
    forall c | c in h'.reqs ensures ReadOk(h', c) {
      assert ReadOk(h, c);
    }
  }

  lemma SelfKeeps(cfg: Config, s: Cluster, u: NodeId)
    requires Inv(cfg, s) && u in s.nodes
    ensures Keeps(s.nodes[u], s.nodes[u])
  {
    hide Inv;
    OfNode(cfg, s, u);
  }

  lemma AcksStay(cfg: Config, s: Cluster, s': Cluster, v: NodeId)
    requires Inv(cfg, s) && Moves(s, s', v) && Keeps(s.nodes[v], s'.nodes[v])
    requires forall t | t in s.h.logs :: s'.h.logs[t] == s.h.logs[t]
    ensures forall a {:trigger AckOk(s'.h, s'.nodes, a)} | a in s.h.acks :: AckOk(s'.h, s'.nodes, a)
  {
    hide Inv;
    forall a | a in s.h.acks ensures AckOk(s'.h, s'.nodes, a) {
      OfAck(cfg, s, a);
      SelfKeeps(cfg, s, a.node);
      AckStays(s.h, s'.h, s.nodes, s'.nodes, a);
    }
  }

  lemma CoversStay(cfg: Config, s: Cluster, h': History)
    requires Inv(cfg, s) && Grows(s.h, h') && h'.logs == s.h.logs && h'.elect == s.h.elect
    ensures forall b, a {:trigger VoteCovers(h', b, a)} | b in s.h.votes && a in s.h.acks :: VoteCovers(h', b, a)
    ensures forall t, a {:trigger ElectionCovers(h', t, a)} | t in h'.elect && a in s.h.acks :: ElectionCovers(h', t, a)
  {
    hide Inv;
    OfHistory(cfg, s);
    forall b, a | b in s.h.votes && a in s.h.acks ensures VoteCovers(h', b, a) {
      OfVote(cfg, s, b);
      assert VoteCovers(s.h, b, a);
      VoteCoversStays(s.h, h', b, a);
    }
    forall t, a | t in h'.elect && a in s.h.acks ensures ElectionCovers(h', t, a) {
      assert ElectionCovers(s.h, t, a);
      ElectionCoversStays(s.h, h', t, a);
    }
  }

  /** What a step leaves alone that adds at most commits and read requests to the history. */
  lemma RestStays(cfg: Config, s: Cluster, s': Cluster, v: NodeId)
    requires ValidConfig(cfg) && Inv(cfg, s) && Moves(s, s', v) && Keeps(s.nodes[v], s'.nodes[v])
    requires s'.h == s.h.(commits := s'.h.commits, reqs := s'.h.reqs)
    ensures LogsOk(cfg, s'.h) && CoversOk(s'.h) && WitnessOk(cfg, s') && GrantsOk(cfg, s') && VotesUnique(s'.h)
    ensures forall a {:trigger AckOk(s'.h, s'.nodes, a)} | a in s'.h.acks :: AckOk(s'.h, s'.nodes, a)
  {
    hide Inv, LogsOk, WitnessOk, GrantsOk, ReadsOk, VoteCovers, ElectionCovers, CommitsOk;
    OfHistory(cfg, s);
    LogsStay(cfg, s.h, s'.h);
    CoversStay(cfg, s, s'.h);
    WitnessStays(cfg, s, s');
    GrantsStay(cfg, s, s');
    AcksStay(cfg, s, s', v);
  }

  /** A step that adds nothing to the history. */
  lemma QuietStep(cfg: Config, s: Cluster, v: NodeId, n': Node, out: set<Msg>)
    requires ValidConfig(cfg) && Inv(cfg, s) && v in s.nodes
    requires Keeps(s.nodes[v], n')
    requires n'.term == s.nodes[v].term ==> n'.vote == s.nodes[v].vote
    requires NodeOk(cfg, s.h, v, n')
    requires PolledOk(s.msgs + out, v, n')
    requires forall m | m in out :: MsgOk(cfg, s.h, m)
    requires forall m | m in out && m.WitnessVoteReq? :: m.from == v
    ensures Inv(cfg, Put(s, v, n', out, s.h))
  {
    var s' := Put(s, v, n', out, s.h);
    hide Inv, NodeOk, MsgOk, LogsOk, CoversOk, CommitsOk, WitnessOk, GrantsOk, ReadsOk, PolledOk;
    OfHistory(cfg, s);
    assert Moves(s, s', v);
    OthersStay(cfg, s, s', v);
    OldStay(cfg, s, s', v);
    WitnessStays(cfg, s, s');
    GrantsStay(cfg, s, s');
    AcksStay(cfg, s, s', v);
    Assembled(cfg, s');
  }
}
