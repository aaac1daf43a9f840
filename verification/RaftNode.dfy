/** One replica as the object of src/raft.rs. Its handlers update fields in place; each is proved to
    do what the cluster's state machine does, and a whole `step` is a short sequence of its actions. */
module RaftNodeObject {
  import opened Quorum
  import opened RaftLogs
  import opened QuorumIndex
  import opened ClusterMessages
  import C = ClusterState
  import R = ReadQueues
  import T = Tracker

  /** `acts`, one after the other, take `s` to `t`. */
  ghost predicate Reaches(cfg: C.Config, s: C.Cluster, acts: seq<C.Action>, t: C.Cluster)
    decreases |acts|
  {
    if acts == [] then s == t
    else C.Enabled(cfg, s, acts[0]) && Reaches(cfg, C.Apply(cfg, s, acts[0]), acts[1..], t)
  }

  lemma ReachesOne(cfg: C.Config, s: C.Cluster, a: C.Action)
    requires C.Enabled(cfg, s, a)
    ensures Reaches(cfg, s, [a], C.Apply(cfg, s, a))
  {
    assert [a][1..] == [];
  }

  lemma NoActions(cfg: C.Config, s: C.Cluster)
    ensures Reaches(cfg, s, [], s)
  {
  }

  lemma {:induction false} ReachesJoin(cfg: C.Config, s: C.Cluster, a: seq<C.Action>, t: C.Cluster, b: seq<C.Action>, u: C.Cluster)
    requires Reaches(cfg, s, a, t) && Reaches(cfg, t, b, u)
    ensures Reaches(cfg, s, a + b, u)
    decreases |a|
  {
    hide C.Apply, C.Enabled;
    if a == [] {
      assert a + b == b;
    } else {
      assert (a + b)[1..] == a[1..] + b;
      ReachesJoin(cfg, C.Apply(cfg, s, a[0]), a[1..], t, b, u);
    }
  }

  /** The actions leave no choice. */
  lemma {:induction false} ReachesUnique(cfg: C.Config, s: C.Cluster, acts: seq<C.Action>, t: C.Cluster, t': C.Cluster)
    requires Reaches(cfg, s, acts, t) && Reaches(cfg, s, acts, t')
    ensures t == t'
    decreases |acts|
  {
    hide C.Apply, C.Enabled;
    if acts != [] {
      ReachesUnique(cfg, C.Apply(cfg, s, acts[0]), acts[1..], t, t');
    }
  }

  /** A run may be extended by what a step does. */
  lemma {:induction false} ReachesExtends(cfg: C.Config, run: seq<C.Cluster>, acts: seq<C.Action>, t: C.Cluster) returns (run': seq<C.Cluster>)
    requires C.IsRun(cfg, run) && Reaches(cfg, run[|run| - 1], acts, t)
    ensures C.IsRun(cfg, run') && run <= run' && run'[|run'| - 1] == t
    decreases |acts|
  {
    if acts == [] {
      run' := run;
    } else {
      var s := C.Apply(cfg, run[|run| - 1], acts[0]);
      var next := run + [s];
      forall i | 0 <= i < |next| - 1 ensures C.Next(cfg, next[i], next[i + 1]) {
        assert i < |run| - 1 ==> C.Next(cfg, run[i], run[i + 1]);
      }
      run' := ReachesExtends(cfg, next, acts[1..], t);
    }
  }

  // ---- What `step` does with a message, as actions of the cluster ------------------------------------------------

  /** A message of an earlier term: a leader's is answered with the current term if `tell`, a pre-vote is refused,
      the rest is dropped. */
  ghost function StaleActs(id: NodeId, m: C.Msg, tell: bool): seq<C.Action> {
    if (m.AppendReq? || m.Heartbeat?) && tell then [C.RejectStale(id, m)]
    else if m.VoteReq? && m.pre then [C.RecvPreVote(id, m, false)]
    else []
  }

  /** A candidacy is decided at once if the own vote is a quorum. */
  ghost function StandActs(cfg: C.Config, id: NodeId): seq<C.Action> {
    [C.Campaign(id)] + if C.Quorate(cfg, {id}) then [C.Elect(id)] else []
  }

  /** So is a pre-candidacy. */
  ghost function CampaignActs(cfg: C.Config, id: NodeId, pre: bool): seq<C.Action> {
    if !pre then StandActs(cfg, id)
    else [C.PreCampaign(id)] + if C.Quorate(cfg, {id}) then StandActs(cfg, id) else []
  }

  /** A quorum of votes wins, a candidacy that no outcome of the missing votes could win is given up. */
  ghost function Decision(cfg: C.Config, id: NodeId, role: C.Role, votes: map<NodeId, bool>): seq<C.Action> {
    if C.Quorate(cfg, C.GrantedSet(votes)) then (if role == C.PreCandidate then StandActs(cfg, id) else [C.Elect(id)])
    else if !CanWin(cfg.incoming, cfg.outgoing, votes) then [C.StepDown(id)]
    else []
  }

  ghost function VoteRespActs(cfg: C.Config, id: NodeId, n: C.Node, m: C.Msg): seq<C.Action>
    requires m.VoteResp?
  {
    [C.RecvVoteResp(id, m)]
    + Decision(cfg, id, n.role, if m.from in n.votes then n.votes else n.votes[m.from := !m.reject])
    + (if m.commit != 0 then [C.CommitFromVoteResp(id, m)] else [])
  }

  /** A new acknowledgment is counted and the commit index looked at again. */
  ghost predicate AckActs(id: NodeId, n: C.Node, m: C.Msg, acts: seq<C.Action>)
    requires m.AppendResp?
  {
    if m.index > C.MatchOf(n.matched, m.from)
    then |acts| == 2 && acts[0] == C.RecvAppendResp(id, m) && acts[1].MaybeCommit? && acts[1].v == id
    else acts == [C.RecvAppendResp(id, m)]
  }

  /** An acknowledged read request is released together with all before it, once a quorum acknowledged it. */
  ghost function ReadActs(cfg: C.Config, id: NodeId, n: C.Node, m: C.Msg): seq<C.Action>
    requires m.HeartbeatResp?
  {
    if m.ctx == R.NO_CONTEXT then []
    else
      [C.RecvHeartbeatResp(id, m)]
      + if m.ctx in n.pend.status && C.Quorate(cfg, n.pend.status[m.ctx].acks + {m.from} + {cfg.wid})
      then [C.ReleaseReads(id, m.ctx)] else []
  }

  /** A message of the current term, or a pre-vote of a later one. */
  ghost predicate CurrentActs(cfg: C.Config, id: NodeId, n: C.Node, m: C.Msg, deny: bool, acts: seq<C.Action>) {
    match m
    case VoteReq(_, _, pre, _, _, _, _) => acts == [if pre then C.RecvPreVote(id, m, deny) else C.RecvVote(id, m, deny)]
    case VoteResp(_, _, _, pre, _, _, _) =>
      acts == if n.role == (if pre then C.PreCandidate else C.Candidate) then VoteRespActs(cfg, id, n, m) else []
    case AppendReq(_, _, _, _, _, _, _) => acts == if n.role != C.Leader then [C.RecvAppend(id, m)] else []
    case Heartbeat(_, _, _, _, _) => acts == if n.role != C.Leader then [C.RecvHeartbeat(id, m)] else []
    case Snapshot(_, _, _, _) => acts == if n.role != C.Leader then [C.RecvSnapshot(id, m)] else []
    case AppendResp(_, _, _, _, reject) => if n.role == C.Leader && !reject then AckActs(id, n, m, acts) else acts == []
    case HeartbeatResp(_, _, _, _) => acts == if n.role == C.Leader then ReadActs(cfg, id, n, m) else []
    case ReadResp(_, _, _, _, _) => acts == if n.role == C.Follower then [C.RecvReadResp(id, m)] else []
    case WitnessVoteReq(_, _, _, _, _, _) => acts == []
  }

  /** The replica once it has seen the term of `m`. */
  function Observed(n: C.Node, m: C.Msg): C.Node {
    if m.term > n.term && C.Raises(m)
    then C.BecomeFollower(n, m.term, if m.AppendReq? || m.Heartbeat? || m.Snapshot? then m.from else INVALID_ID)
    else n
  }

  ghost function TermActs(id: NodeId, n: C.Node, m: C.Msg): seq<C.Action> {
    if m.term > n.term && C.Raises(m) then [C.Observe(id, m)] else []
  }

  /** All of `step`. */
  ghost predicate StepActs(cfg: C.Config, id: NodeId, n: C.Node, m: C.Msg, inLease: bool, tell: bool, deny: bool, acts: seq<C.Action>) {
    if m.term < n.term then acts == StaleActs(id, m, tell)
    else if m.term > n.term && m.VoteReq? && inLease then acts == []
    else exists more :: CurrentActs(cfg, id, Observed(n, m), m, deny, more) && acts == TermActs(id, n, m) + more
  }

  class RaftNode {
    const id: NodeId
    var term: nat
    var vote: NodeId
    var lead: NodeId
    var role: C.Role
    var log: Log
    var committed: nat
    var persisted: nat
    var durable: nat
    var votes: map<NodeId, bool>
    var matched: map<NodeId, nat>
    var epoch: C.Epoch
    var pend: R.Queue
    var readStates: set<C.ReadState>

    /** The replica of the cluster model this object is. */
    function Value(): C.Node
      reads this
    {
      C.Node(term, vote, lead, role, log, committed, persisted, durable, votes, matched, epoch, pend, readStates)
    }

    constructor (i: NodeId)
      ensures id == i && Value() == C.FRESH && forall cfg | C.ValidConfig(cfg) :: Seated(cfg)
    {
      id, term, vote, lead, role, log, committed, persisted, durable :=
        i, 0, INVALID_ID, INVALID_ID, C.Follower, [], 0, 0, 0;
      votes, matched, epoch, pend, readStates := map[], map[], C.NO_EPOCH, R.EMPTY, {};
    }

    /** Everything reaches stable storage before the answer leaves. */
    method Sync()
      modifies this`persisted, this`durable
      ensures Value() == C.Synced(old(Value()))
    {
      persisted, durable := |log|, committed;
    }

    method BecomeFollower(t: nat, leader: NodeId)
      modifies this
      ensures Value() == C.BecomeFollower(old(Value()), t, leader)
      ensures term == t && role == C.Follower && pend == R.EMPTY && Stored()
    {
      if term != t {
        term := t;
        vote := INVALID_ID;
      }
      lead, role := leader, C.Follower;
      votes, matched, pend := map[], map[], R.EMPTY;
      Sync();
    }

    /** A candidacy or pre-candidacy begins with a vote for oneself; a leader may not start one. */
    method Stand(pre: bool) returns (out: C.Msg)
      requires role != C.Leader
      modifies this
      ensures Value() == if pre then C.BecomePreCandidate(old(Value()), id) else C.BecomeCandidate(old(Value()), id)
      ensures out == C.VoteReq(id, if pre then term + 1 else term, pre, |log|, LastTerm(log), committed, TermAt(log, committed))
    {
      if pre {
        role := C.PreCandidate;
      } else {
        term := term + 1;
        vote := id;
        role := C.Candidate;
        matched, pend := map[], R.EMPTY;
      }
      lead := INVALID_ID;
      votes := map[id := true];
      out := C.VoteReq(id, if pre then term + 1 else term, pre, |log|, LastTerm(log), committed, TermAt(log, committed));
    }

    /** `maybe_commit_by_vote`. */
    method CommitByVote(commit: nat, commitTerm: nat)
      modifies this
      ensures Value() == C.CommitByVote(old(Value()), commit, commitTerm)
    {
      if commit == 0 || commitTerm == 0 || role == C.Leader {
        return;
      }
      if commit > committed && commit <= |log| && TermAt(log, commit) == commitTerm {
        committed := commit;
      }
      Sync();
    }

    /** The voting part of `step`: `deny` stands for a higher priority of one's own. */
    method AnswerVote(m: C.Msg, deny: bool) returns (out: C.Msg)
      requires m.VoteReq? && (if m.pre then m.term >= term else m.term == term)
      modifies this
      ensures var n, grant := old(Value()), C.CanVote(old(Value()), m) && !deny;
              && out == C.VoteAnswer(id, n, m, grant)
              && Value() == if grant then (if m.pre then n else n.(vote := m.from)) else C.CommitByVote(n, m.commit, m.commitTerm)
      ensures out.VoteResp? && out.from == id && out.to == m.from && out.pre == m.pre
      ensures !out.reject <==>
              && !deny
              && (m.lastTerm > LastTerm(log) || (m.lastTerm == LastTerm(log) && m.lastIndex >= |log|))
              && (old(vote) == m.from || (old(vote) == INVALID_ID && lead == INVALID_ID) || (m.pre && m.term > term))
      ensures vote == if !out.reject && !m.pre then m.from else old(vote)
    {
      var canVote := vote == m.from || (vote == INVALID_ID && lead == INVALID_ID) || (m.pre && m.term > term);
      if canVote && UpToDate(log, m.lastIndex, m.lastTerm) && !deny {
        out := C.VoteResp(id, m.from, m.term, m.pre, false, 0, 0);
        if !m.pre {
          vote := m.from;
        }
      } else {
        out := C.VoteResp(id, m.from, term, m.pre, true, committed, TermAt(log, committed));
        CommitByVote(m.commit, m.commitTerm);
      }
    }

    /** Everything held is stored. */
    predicate Stored()
      reads this
    {
      persisted == |log| && durable == committed
    }

    method Follow(from: NodeId)
      modifies this
      ensures Value() == C.Following(old(Value()), from)
    {
      if role == C.Follower {
        lead := from;
      } else {
        BecomeFollower(term, from);
      }
    }

    /** `handle_append_entries`, with `maybe_append` and `commit_to` written out on the log. */
    method HandleAppend(m: C.Msg) returns (out: C.Msg)
      requires m.AppendReq? && role != C.Leader
      modifies this
      ensures role == C.Follower && pend in {old(pend), R.EMPTY} && (old(Stored()) ==> Stored())
      ensures var n := C.Following(old(Value()), m.from);
              var (n', ok, index) := C.HandleAppend(n, m.prev, m.prevTerm, m.ents, m.commit);
              Value() == n' && out == C.AppendResp(id, m.from, n.term, if ok then index else m.prev, !ok)
    {
      hide Spliced;
      Follow(m.from);
      if m.prev < committed {
        return C.AppendResp(id, m.from, term, committed, false);
      }
      if m.prev > |log| || TermAt(log, m.prev) != m.prevTerm {
        return C.AppendResp(id, m.from, term, m.prev, true);
      }
      Splice(m.prev, m.ents);
      var lastNew := m.prev + |m.ents|;
      var commit := if m.commit < lastNew then m.commit else lastNew;
      if commit > committed {
        committed := commit;
      }
      Sync();
      return C.AppendResp(id, m.from, term, lastNew, false);
    }

    /** Keeps the log up to the first conflicting entry and continues with the entries from there. */
    method Splice(prev: nat, ents: Log)
      requires prev <= |log|
      modifies this`log
      ensures log == Spliced(old(log), prev, ents)
    {
      var j := FindConflict(prev, ents);
      if j < |ents| && prev + j <= |log| {
        log := log[..prev + j] + ents[j..];
      }
    }

    method FindConflict(prev: nat, ents: Log) returns (j: nat)
      ensures j == FirstConflict(log, prev, ents)
    {
      j := 0;
      while j < |ents| && TermAt(log, prev + 1 + j) == ents[j].term
        invariant 0 <= j <= |ents| && forall i | 0 <= i < j :: TermAt(log, prev + 1 + i) == ents[i].term
      {
        j := j + 1;
      }
      FirstConflictIs(log, prev, ents, j);
    }

    /** `handle_heartbeat`: the commit index is clamped to the log. */
    method HandleHeartbeat(m: C.Msg) returns (out: C.Msg)
      requires m.Heartbeat? && role != C.Leader
      modifies this
      ensures role == C.Follower && pend in {old(pend), R.EMPTY} && (old(Stored()) ==> Stored())
      ensures Value() == C.HandleHeartbeat(C.Following(old(Value()), m.from), m.commit)
      ensures out == C.HeartbeatResp(id, m.from, term, m.ctx)
    {
      Follow(m.from);
      var commit := if m.commit < |log| then m.commit else |log|;
      if commit > committed {
        committed := commit;
      }
      Sync();
      out := C.HeartbeatResp(id, m.from, term, m.ctx);
    }

    /** `handle_snapshot` and `restore`. */
    method HandleSnapshot(m: C.Msg) returns (out: C.Msg)
      requires m.Snapshot? && role != C.Leader
      modifies this
      ensures role == C.Follower && pend in {old(pend), R.EMPTY} && (old(Stored()) ==> Stored())
      ensures var (n', index) := C.HandleSnapshot(C.Following(old(Value()), m.from), m.prefix);
              Value() == n' && out == C.AppendResp(id, m.from, n'.term, index, false)
    {
      Follow(m.from);
      if |m.prefix| < committed {
        return C.AppendResp(id, m.from, term, committed, false);
      }
      if TermAt(log, |m.prefix|) == LastTerm(m.prefix) {
        if |m.prefix| > committed {
          committed := |m.prefix|;
        }
        Sync();
        return C.AppendResp(id, m.from, term, committed, false);
      }
      log, committed := m.prefix, |m.prefix|;
      Sync();
      return C.AppendResp(id, m.from, term, |log|, false);
    }

    // ---- A whole step ------------------------------------------------------------------------------------------

    /** What every call of the node keeps: only an undecided candidacy of a voter waits for votes, a
        leader is a voter whose epoch leaves out one of the voters, and all others have stored what they
        hold. Indices a leader counts fit their width. */
    ghost predicate Seated(cfg: C.Config)
      reads this
    {
      && C.ValidConfig(cfg)
      && (role == C.Candidate || role == C.PreCandidate ==> id in cfg.incoming + cfg.outgoing && !C.Quorate(cfg, C.GrantedSet(votes)))
      && (role == C.Leader ==> Leads(cfg))
      && (role != C.Leader ==> Stored())
      && (Alone(cfg.incoming, cfg.outgoing) ==> pend == R.EMPTY)
    }

    ghost predicate Leads(cfg: C.Config)
      reads this
    {
      && id in cfg.incoming + cfg.outgoing
      && (C.HasWitness(cfg) ==> epoch.excluded in cfg.incoming)
      && (epoch.subterm == 0 ==> epoch.contacted == 0)
      && (forall v | v in matched :: matched[v] <= NO_LIMIT) && |log| <= NO_LIMIT
    }

    /** The cluster in which this object is the replica `id`. */
    ghost predicate In(cfg: C.Config, s: C.Cluster)
      reads this
    {
      id in s.nodes && s.nodes[id] == Value()
    }

    /** The term part of `step`: a later term makes a follower, unless it is a pre-vote or comes within
        the lease of a leader. False means the message is to be ignored. */
    method CheckTerm(ghost cfg: C.Config, ghost s: C.Cluster, m: C.Msg, inLease: bool) returns (go: bool, ghost t: C.Cluster)
      requires In(cfg, s) && m in s.msgs && m.term >= term && Seated(cfg) && Sound(id, term, m)
      modifies this
      ensures Seated(cfg) && Sound(id, term, m)
      ensures go <==> !(m.term > old(term) && m.VoteReq? && inLease)
      ensures !go ==> Value() == old(Value()) && t == s
      ensures go ==> Value() == Observed(old(Value()), m) && Reaches(cfg, s, TermActs(id, old(Value()), m), t)
      ensures In(cfg, t) && t.msgs == s.msgs
      ensures go ==> term == m.term || (term < m.term && !C.Raises(m))
    {
      hide C.Quorate, C.BecomeFollower, C.Apply, C.Enabled;
      t, go := s, true;
      if m.term > term {
        if m.VoteReq? && inLease {
          return false, s;
        }
        if C.Raises(m) {
          var leader := if m.AppendReq? || m.Heartbeat? || m.Snapshot? then m.from else INVALID_ID;
          Observes(cfg, s, id, m);
          t := C.Apply(cfg, s, C.Observe(id, m));
          ReachesOne(cfg, s, C.Observe(id, m));
          BecomeFollower(m.term, leader);
        }
      }
    }

    /** A vote request, in a step of the cluster. */
    method StepVote(ghost cfg: C.Config, ghost s: C.Cluster, m: C.Msg, deny: bool)
      returns (out: C.Msg, ghost acts: seq<C.Action>, ghost t: C.Cluster)
      requires In(cfg, s) && m in s.msgs && m.VoteReq? && m.from != id && (if m.pre then m.term >= term else m.term == term)
      requires Seated(cfg)
      modifies this
      ensures Seated(cfg)
      ensures Reaches(cfg, s, acts, t) && In(cfg, t) && t.msgs == s.msgs + {out}
      ensures acts == [if m.pre then C.RecvPreVote(id, m, deny) else C.RecvVote(id, m, deny)]
    {
      acts := [if m.pre then C.RecvPreVote(id, m, deny) else C.RecvVote(id, m, deny)];
      t := C.Apply(cfg, s, acts[0]);
      ReachesOne(cfg, s, acts[0]);
      out := AnswerVote(m, deny);
    }

    /** An append, heartbeat or snapshot of the current term. */
    method StepFollow(ghost cfg: C.Config, ghost s: C.Cluster, m: C.Msg)
      returns (out: C.Msg, ghost acts: seq<C.Action>, ghost t: C.Cluster)
      requires In(cfg, s) && m in s.msgs && m.term == term && role != C.Leader
      requires (m.AppendReq? || m.Heartbeat? || m.Snapshot?) && m.to == id && Seated(cfg)
      modifies this
      ensures Seated(cfg)
      ensures Reaches(cfg, s, acts, t) && In(cfg, t) && t.msgs == s.msgs + {out}
      ensures acts == [if m.AppendReq? then C.RecvAppend(id, m) else if m.Heartbeat? then C.RecvHeartbeat(id, m) else C.RecvSnapshot(id, m)]
    {
      hide C.Quorate, C.HandleAppend, C.HandleHeartbeat, C.HandleSnapshot, C.Following, C.WithAck, C.HighestCommit, C.CanVote,
        C.VoteAnswer, C.VotersOf, C.BecomeLeader, C.Shortcut, C.Answers, C.OwnAnswers, C.BecomeFollower, C.CommitByVote;
      acts := [if m.AppendReq? then C.RecvAppend(id, m) else if m.Heartbeat? then C.RecvHeartbeat(id, m) else C.RecvSnapshot(id, m)];
      t := C.Apply(cfg, s, acts[0]);
      ReachesOne(cfg, s, acts[0]);
      if m.AppendReq? {
        out := HandleAppend(m);
      } else if m.Heartbeat? {
        out := HandleHeartbeat(m);
      } else {
        out := HandleSnapshot(m);
      }
    }

    /** `poll` on a vote response: count it; a quorum makes a leader of a candidate and a candidate of
        a pre-candidate, an election that cannot be won any more is given up. */
    method Poll(ghost cfg: C.Config, incoming: set<NodeId>, outgoing: set<NodeId>, wid: NodeId, ghost s: C.Cluster, m: C.Msg)
      returns (out: set<C.Msg>, ghost acts: seq<C.Action>, ghost t: C.Cluster)
      requires cfg.incoming == incoming && cfg.outgoing == outgoing && cfg.wid == wid
      requires In(cfg, s) && m in s.msgs && m.VoteResp? && m.to == id && Seated(cfg) && |log| < NO_LIMIT
      requires if m.pre then role == C.PreCandidate && m.term <= term + 1 else role == C.Candidate && m.term == term
      modifies this
      ensures Reaches(cfg, s, acts, t) && In(cfg, t) && t.msgs == s.msgs + out && Seated(cfg)
      ensures acts == [C.RecvVoteResp(id, m)]
                      + Decision(cfg, id, old(role), if m.from in old(votes) then old(votes) else old(votes)[m.from := !m.reject])
      ensures m.reject ==> term == old(term)
    {
      hide Reaches, CanWin, C.Quorate;
      acts := [C.RecvVoteResp(id, m)];
      t := C.Apply(cfg, s, acts[0]);
      ReachesOne(cfg, s, acts[0]);
      Count(m.from, !m.reject);
      hide C.Apply, C.Enabled;
      var r, _, _ := JointVoteResult(incoming, outgoing, votes);
      assert r == Won <==> C.Quorate(cfg, C.GrantedSet(votes)) by { TallyIs(cfg, votes); }
      ghost var more, u;
      out, more, u := Decide(cfg, incoming, outgoing, r, wid, t);
      ReachesJoin(cfg, s, acts, t, more, u);
      acts, t := acts + more, u;
    }

    /** The first vote of a voter counts. */
    method Count(from: NodeId, granted: bool)
      modifies this`votes
      ensures votes == if from in old(votes) then old(votes) else old(votes)[from := granted]
      ensures !granted ==> C.GrantedSet(votes) == C.GrantedSet(old(votes))
    {
      if from !in votes {
        votes := votes[from := granted];
      }
      assert !granted ==> C.GrantedSet(votes) == C.GrantedSet(old(votes));
    }

    /** A node with a candidacy of its own, decided or not. */
    ghost predicate Runs(cfg: C.Config)
      reads this
    {
      && C.ValidConfig(cfg) && id in cfg.incoming + cfg.outgoing && (role == C.PreCandidate || role == C.Candidate)
      && persisted == |log| < NO_LIMIT && durable == committed && (Alone(cfg.incoming, cfg.outgoing) ==> pend == R.EMPTY)
    }

    /** What a decided election does. */
    method Decide(ghost cfg: C.Config, incoming: set<NodeId>, outgoing: set<NodeId>, r: VoteResult, wid: NodeId, ghost s: C.Cluster)
      returns (out: set<C.Msg>, ghost acts: seq<C.Action>, ghost t: C.Cluster)
      requires cfg.incoming == incoming && cfg.outgoing == outgoing && cfg.wid == wid && In(cfg, s) && Runs(cfg)
      requires r == Won <==> C.Quorate(cfg, C.GrantedSet(votes))
      requires r == Lost <==> !CanWin(cfg.incoming, cfg.outgoing, votes)
      modifies this
      ensures Reaches(cfg, s, acts, t) && In(cfg, t) && (r != Won ==> term == old(term)) && t.msgs == s.msgs + out
      ensures acts == Decision(cfg, id, old(role), old(votes)) && Seated(cfg)
    {
      hide CanWin, C.Quorate, Reaches, C.Apply, C.Enabled;
      out := {};
      acts, t := [], s;
      NoActions(cfg, s);
      if r == Won {
        out, acts, t := Win(cfg, incoming, outgoing, wid, s);
      } else if r == Lost {
        acts, t := GiveUp(cfg, s);
      }
    }

    method Win(ghost cfg: C.Config, incoming: set<NodeId>, outgoing: set<NodeId>, wid: NodeId, ghost s: C.Cluster)
      returns (out: set<C.Msg>, ghost acts: seq<C.Action>, ghost t: C.Cluster)
      requires cfg.incoming == incoming && cfg.outgoing == outgoing && cfg.wid == wid && In(cfg, s) && Runs(cfg)
      requires C.Quorate(cfg, C.GrantedSet(votes))
      modifies this
      ensures Reaches(cfg, s, acts, t) && In(cfg, t) && t.msgs == s.msgs + out && Seated(cfg)
      ensures acts == if old(role) == C.PreCandidate then StandActs(cfg, id) else [C.Elect(id)]
    {
      hide C.Quorate, C.Apply, C.Enabled, Reaches;
      out := {};
      if role == C.PreCandidate {
        out, acts, t := StandForElection(cfg, incoming, outgoing, wid, s);
      } else {
        acts, t := TakeOffice(cfg, wid, s);
      }
    }

    method TakeOffice(ghost cfg: C.Config, wid: NodeId, ghost s: C.Cluster) returns (ghost acts: seq<C.Action>, ghost t: C.Cluster)
      requires cfg.wid == wid && In(cfg, s) && Runs(cfg) && role == C.Candidate && C.Quorate(cfg, C.GrantedSet(votes))
      modifies this
      ensures Reaches(cfg, s, acts, t) && In(cfg, t) && t.msgs == s.msgs && Seated(cfg) && acts == [C.Elect(id)]
    {
      Takes(cfg, s, id);
      hide C.Quorate, C.Apply, C.Enabled;
      acts, t := [C.Elect(id)], C.Apply(cfg, s, C.Elect(id));
      ReachesOne(cfg, s, C.Elect(id));
      BecomeLeader(wid);
    }

    /** A candidacy for the next term, decided at once if nobody else's vote is needed. The request goes to
        the other voters; alone there are none. */
    method StandForElection(ghost cfg: C.Config, incoming: set<NodeId>, outgoing: set<NodeId>, wid: NodeId, ghost s: C.Cluster)
      returns (out: set<C.Msg>, ghost acts: seq<C.Action>, ghost t: C.Cluster)
      requires cfg.incoming == incoming && cfg.outgoing == outgoing && cfg.wid == wid && In(cfg, s)
      requires C.ValidConfig(cfg) && id in incoming + outgoing && role != C.Leader && persisted == |log| < NO_LIMIT && durable == committed
      modifies this
      ensures Reaches(cfg, s, acts, t) && In(cfg, t) && t.msgs == s.msgs + out && Seated(cfg) && acts == StandActs(cfg, id)
    {
      hide C.Quorate, Reaches;
      acts, t := [C.Campaign(id)], C.Apply(cfg, s, C.Campaign(id));
      ReachesOne(cfg, s, C.Campaign(id));
      var req := Stand(false);
      out := {req};
      hide C.Apply, C.Enabled;
      OwnVote(id);
      var alone := HasQuorum(incoming, outgoing, {id});
      assert alone <==> C.Quorate(cfg, {id}) by { QuorateIs(cfg, {id}); }
      if alone {
        ghost var more, u := TakeOffice(cfg, wid, t);
        ReachesJoin(cfg, s, acts, t, more, u);
        acts, t := acts + more, u;
      }
    }

    /** `campaign`: a pre-candidacy or candidacy with the poll of the own vote. */
    method Campaign(ghost cfg: C.Config, incoming: set<NodeId>, outgoing: set<NodeId>, wid: NodeId, ghost s: C.Cluster, pre: bool)
      returns (out: set<C.Msg>, ghost acts: seq<C.Action>, ghost t: C.Cluster)
      requires cfg.incoming == incoming && cfg.outgoing == outgoing && cfg.wid == wid && In(cfg, s)
      requires Seated(cfg) && role != C.Leader && id in incoming + outgoing && |log| < NO_LIMIT
      modifies this
      ensures Reaches(cfg, s, acts, t) && In(cfg, t) && t.msgs == s.msgs + out && Seated(cfg) && acts == CampaignActs(cfg, id, pre)
    {
      hide C.Quorate, Reaches, C.Apply, C.Enabled;
      if !pre {
        out, acts, t := StandForElection(cfg, incoming, outgoing, wid, s);
        return;
      }
      out, acts, t := StandForPreVotes(cfg, s);
      OwnVote(id);
      var alone := HasQuorum(incoming, outgoing, {id});
      assert alone <==> C.Quorate(cfg, {id}) by { QuorateIs(cfg, {id}); }
      if alone {
        ghost var more, u;
        var req;
        req, more, u := StandForElection(cfg, incoming, outgoing, wid, t);
        ReachesJoin(cfg, s, acts, t, more, u);
        out, acts, t := out + req, acts + more, u;
      }
    }

    method StandForPreVotes(ghost cfg: C.Config, ghost s: C.Cluster)
      returns (out: set<C.Msg>, ghost acts: seq<C.Action>, ghost t: C.Cluster)
      requires In(cfg, s) && role != C.Leader && id in cfg.incoming + cfg.outgoing
      modifies this
      ensures Reaches(cfg, s, acts, t) && In(cfg, t) && t.msgs == s.msgs + out && acts == [C.PreCampaign(id)]
      ensures Value() == C.BecomePreCandidate(old(Value()), id)
    {
      acts, t := [C.PreCampaign(id)], C.Apply(cfg, s, C.PreCampaign(id));
      ReachesOne(cfg, s, C.PreCampaign(id));
      var req := Stand(true);
      out := {req};
    }

    method GiveUp(ghost cfg: C.Config, ghost s: C.Cluster) returns (ghost acts: seq<C.Action>, ghost t: C.Cluster)
      requires In(cfg, s) && Runs(cfg)
      modifies this
      ensures Reaches(cfg, s, acts, t) && In(cfg, t) && term == old(term) && t.msgs == s.msgs && acts == [C.StepDown(id)] && Seated(cfg)
    {
      hide C.Quorate;
      acts, t := [C.StepDown(id)], C.Apply(cfg, s, C.StepDown(id));
      ReachesOne(cfg, s, C.StepDown(id));
      BecomeFollower(term, INVALID_ID);
    }

    /** `become_leader`: an empty entry, own progress at the persisted index, the witness left out. */
    method BecomeLeader(wid: NodeId)
      modifies this
      ensures Value() == old(Value()).(role := C.Leader, lead := id, votes := map[], matched := map[id := |old(log)|],
                         epoch := C.NO_EPOCH.(excluded := wid), pend := R.EMPTY, log := old(log) + [Entry(term, 0, 0)],
                         persisted := |old(log)|, durable := committed)
    {
      role, lead := C.Leader, id;
      votes, pend := map[], R.EMPTY;
      Sync();
      matched := map[id := persisted];
      epoch := C.NO_EPOCH.(excluded := wid);
      log := log + [Entry(term, 0, 0)];
    }

    /** A proposal appended by the leader. */
    method Propose(ghost cfg: C.Config, ghost s: C.Cluster, data: nat) returns (ghost acts: seq<C.Action>, ghost t: C.Cluster)
      requires In(cfg, s) && role == C.Leader && Seated(cfg) && |log| < NO_LIMIT
      modifies this`log
      ensures Reaches(cfg, s, acts, t) && In(cfg, t) && t.msgs == s.msgs && acts == [C.Propose(id, data)] && Seated(cfg)
      ensures log == old(log) + [Entry(term, epoch.subterm, data)]
    {
      acts, t := [C.Propose(id, data)], C.Apply(cfg, s, C.Propose(id, data));
      ReachesOne(cfg, s, acts[0]);
      log := log + [Entry(term, epoch.subterm, data)];
    }

    /** The shortcut part of `maybe_commit` for a given index. */
    method TakeShortcut(ghost cfg: C.Config, voters: set<NodeId>, wid: NodeId, k: nat)
      requires cfg.incoming == voters && cfg.wid == wid
      modifies this`matched, this`epoch
      ensures Value() == C.Shortcut(cfg, old(Value()), id, k)
      ensures if wid != INVALID_ID && old(epoch.excluded) != wid && old(epoch.contacted) == old(epoch.subterm)
              then epoch == old(epoch) && (forall u | u != wid :: C.MatchOf(matched, u) == C.MatchOf(old(matched), u))
                   && C.MatchOf(matched, wid) == if k > C.MatchOf(old(matched), wid) then k else C.MatchOf(old(matched), wid)
              else matched == old(matched)
      ensures old(Leads(cfg)) && k <= NO_LIMIT ==> Leads(cfg)
    {
      if wid == INVALID_ID || epoch.excluded == wid || k == 0 {
        return;
      }
      var at := C.MatchOf(matched, wid);
      if epoch.contacted == epoch.subterm {
        if k > at {
          matched := matched[wid := k];
        }
      } else if epoch.pending == 0 && at < |log| {
        epoch := epoch.(pending := epoch.subterm,
        outbox := C.W.Append(id, term, log[at..], at + 1, voters - {epoch.excluded}, committed, TermAt(log, committed),
                             epoch.subterm));
      }
    }

    /** What the voters in `scope` have acknowledged. */
    function Acked(scope: set<NodeId>): Acks
      reads this
    {
      map v | v in matched && v in scope :: Index(matched[v], 0)
    }

    /** The index of the shortcut, 0 while the witness is left out. */
    method ShortcutOf(ghost cfg: C.Config, incoming: set<NodeId>, wid: NodeId) returns (k: nat)
      requires C.ValidConfig(cfg) && cfg.incoming == incoming && cfg.wid == wid && Leads(cfg)
      ensures k <= NO_LIMIT && (C.ReplicatesToWitness(cfg, Value()) ==> C.IsShortcutIndex(cfg, Value(), k))
    {
      hide C.IsShortcutIndex, IsLargestReached;
      k := 0;
      if wid != INVALID_ID && epoch.excluded != wid {
        var scoped := Acked(incoming - {epoch.excluded});
        k := OneLessThanQuorum(incoming, scoped);
        T.ShortcutIndexIs(cfg, Value(), scoped, k);
        ReachedWithin(incoming, scoped, k);
      }
    }

    /** The largest index a quorum acknowledged. */
    method QuorumOf(ghost cfg: C.Config, incoming: set<NodeId>, outgoing: set<NodeId>) returns (index: nat)
      requires C.ValidConfig(cfg) && cfg.incoming == incoming && cfg.outgoing == outgoing && Leads(cfg)
      ensures C.IsCommitIndex(cfg, matched, index)
    {
      hide C.IsCommitIndex, IsJointGroupCommit, IsJointCommit;
      var acks := Acked(matched.Keys);
      var i, _ := JointCommittedIndex(incoming, outgoing, false, acks);
      T.CommitIndexIs(cfg, acks, matched, i);
      index := i;
    }

    /** `maybe_commit`: the shortcut first, then the quorum index of the leader's own term. */
    method TryCommit(ghost cfg: C.Config, incoming: set<NodeId>, outgoing: set<NodeId>, wid: NodeId, ghost s: C.Cluster)
      returns (ghost acts: seq<C.Action>, ghost t: C.Cluster)
      requires cfg.incoming == incoming && cfg.outgoing == outgoing && cfg.wid == wid
      requires In(cfg, s) && role == C.Leader && Seated(cfg)
      modifies this
      ensures Reaches(cfg, s, acts, t) && In(cfg, t) && t.msgs == s.msgs && Seated(cfg)
      ensures |acts| == 1 && acts[0].MaybeCommit? && acts[0].v == id
    {
      hide C.Apply, C.Enabled, C.IsShortcutIndex, C.IsCommitIndex, Reaches, C.Quorate, Leads;
      var k := ShortcutOf(cfg, incoming, wid);
      TakeShortcut(cfg, incoming, wid, k);
      var index := QuorumOf(cfg, incoming, outgoing);
      acts := [C.MaybeCommit(id, k, index)];
      CommitEnabled(cfg, s, id, k, index);
      t := C.Apply(cfg, s, acts[0]);
      ReachesOne(cfg, s, acts[0]);
      CommitApplied(cfg, s, id, k, index);
      if index > committed && index <= |log| && TermAt(log, index) == term {
        CommitTo(cfg, index);
      }
    }

    method CommitTo(ghost cfg: C.Config, index: nat)
      requires role == C.Leader
      modifies this`committed
      ensures Value() == old(Value()).(committed := index) && (old(Leads(cfg)) ==> Leads(cfg))
    {
      committed := index;
    }

    // ---- `step` --------------------------------------------------------------------------------------------------

    /** A message of an earlier term: its sender is told the current one, or it is ignored. */
    method StepStale(ghost cfg: C.Config, ghost s: C.Cluster, m: C.Msg, tell: bool)
      returns (out: set<C.Msg>, ghost acts: seq<C.Action>, ghost t: C.Cluster)
      requires In(cfg, s) && m in s.msgs && Addressed(id, m) && m.term < term
      ensures Reaches(cfg, s, acts, t) && In(cfg, t) && t.msgs == s.msgs + out
      ensures acts == StaleActs(id, m, tell)
    {
      acts, t, out := [], s, {};
      if (m.AppendReq? || m.Heartbeat?) && tell {
        acts, t := [C.RejectStale(id, m)], C.Apply(cfg, s, C.RejectStale(id, m));
        ReachesOne(cfg, s, acts[0]);
        out := {C.AppendResp(id, m.from, term, 0, false)};
      } else if m.VoteReq? && m.pre {
        acts, t := [C.RecvPreVote(id, m, false)], C.Apply(cfg, s, C.RecvPreVote(id, m, false));
        ReachesOne(cfg, s, acts[0]);
        out := {C.VoteResp(id, m.from, term, true, true, 0, 0)};
      }
    }

    /** A vote response to a candidate: count it, then take over the commit index it carries. */
    method StepVoteResp(ghost cfg: C.Config, incoming: set<NodeId>, outgoing: set<NodeId>, wid: NodeId, ghost s: C.Cluster, m: C.Msg)
      returns (out: set<C.Msg>, ghost acts: seq<C.Action>, ghost t: C.Cluster)
      requires cfg.incoming == incoming && cfg.outgoing == outgoing && cfg.wid == wid
      requires In(cfg, s) && m in s.msgs && m.VoteResp? && Seated(cfg) && Sound(id, term, m) && |log| < NO_LIMIT
      requires if m.pre then role == C.PreCandidate && (if m.reject then m.term == term else m.term >= term)
               else role == C.Candidate && m.term == term
      modifies this
      ensures Reaches(cfg, s, acts, t) && In(cfg, t) && t.msgs == s.msgs + out && Seated(cfg)
      ensures acts == VoteRespActs(cfg, id, old(Value()), m)
    {
      hide C.Quorate, C.GrantedSet, Reaches, Decision, C.HandleAppend, C.HandleHeartbeat, C.HandleSnapshot, C.Following,
        C.HighestCommit, C.CanVote, C.VoteAnswer, C.Shortcut, C.Answers, C.OwnAnswers, C.BecomeFollower, C.BecomeLeader;
      out, acts, t := Poll(cfg, incoming, outgoing, wid, s, m);
      hide C.Apply, C.Enabled;
      if m.commit != 0 {
        ghost var more, u := TakeCommit(cfg, t, m);
        ReachesJoin(cfg, s, acts, t, more, u);
        acts, t := acts + more, u;
      }
    }

    method TakeCommit(ghost cfg: C.Config, ghost s: C.Cluster, m: C.Msg) returns (ghost acts: seq<C.Action>, ghost t: C.Cluster)
      requires In(cfg, s) && m in s.msgs && m.VoteResp? && m.to == id && m.term == term && Seated(cfg)
      modifies this
      ensures Reaches(cfg, s, acts, t) && In(cfg, t) && t.msgs == s.msgs && Seated(cfg) && acts == [C.CommitFromVoteResp(id, m)]
    {
      hide C.Quorate, C.HandleAppend, C.HandleHeartbeat, C.HandleSnapshot, C.Following, C.HighestCommit, C.CanVote, C.VoteAnswer,
        C.Shortcut, C.Answers, C.OwnAnswers, C.BecomeFollower, C.BecomeLeader;
      acts := [C.CommitFromVoteResp(id, m)];
      t := C.Apply(cfg, s, acts[0]);
      ReachesOne(cfg, s, acts[0]);
      CommitByVote(m.commit, m.commitTerm);
    }

    /** A new acknowledgment raises the peer's index, and with it perhaps the commit index. */
    method StepAppendResp(ghost cfg: C.Config, incoming: set<NodeId>, outgoing: set<NodeId>, wid: NodeId, ghost s: C.Cluster, m: C.Msg)
      returns (ghost acts: seq<C.Action>, ghost t: C.Cluster)
      requires cfg.incoming == incoming && cfg.outgoing == outgoing && cfg.wid == wid
      requires In(cfg, s) && m in s.msgs && m.term == term && m.AppendResp? && !m.reject && m.to == id && m.from != id
      requires role == C.Leader && Seated(cfg) && m.index <= NO_LIMIT
      modifies this
      ensures Reaches(cfg, s, acts, t) && In(cfg, t) && t.msgs == s.msgs && Seated(cfg) && AckActs(id, old(Value()), m, acts)
    {
      acts := [C.RecvAppendResp(id, m)];
      t := C.Apply(cfg, s, acts[0]);
      ReachesOne(cfg, s, acts[0]);
      hide C.Quorate, Reaches, C.Apply, C.Enabled;
      if m.index > C.MatchOf(matched, m.from) {
        matched := matched[m.from := m.index];
        ghost var more, u := TryCommit(cfg, incoming, outgoing, wid, t);
        ReachesJoin(cfg, s, acts, t, more, u);
        acts, t := acts + more, u;
      }
    }

    /** An acknowledgment of a heartbeat, counted for the read request it carries. */
    method StepHeartbeatResp(ghost cfg: C.Config, incoming: set<NodeId>, outgoing: set<NodeId>, wid: NodeId, ghost s: C.Cluster, m: C.Msg)
      returns (out: set<C.Msg>, ghost acts: seq<C.Action>, ghost t: C.Cluster)
      requires cfg.incoming == incoming && cfg.outgoing == outgoing && cfg.wid == wid
      requires In(cfg, s) && m in s.msgs && m.term == term && m.HeartbeatResp? && m.to == id && role == C.Leader && Seated(cfg)
      modifies this`pend, this`readStates
      ensures Reaches(cfg, s, acts, t) && In(cfg, t) && t.msgs == s.msgs + out && Seated(cfg) && acts == ReadActs(cfg, id, old(Value()), m)
    {
      acts, t, out := [], s, {};
      if m.ctx == R.NO_CONTEXT {
        return;
      }
      acts := [C.RecvHeartbeatResp(id, m)];
      t := C.Apply(cfg, s, acts[0]);
      ReachesOne(cfg, s, acts[0]);
      pend := R.RecvAck(pend, m.from, m.ctx);
      hide C.Quorate, Reaches, C.Apply, C.Enabled;
      if m.ctx in pend.status {
        var quorum := HasQuorum(incoming, outgoing, pend.status[m.ctx].acks + {wid});
        assert quorum <==> C.Quorate(cfg, pend.status[m.ctx].acks + {wid}) by { QuorateIs(cfg, pend.status[m.ctx].acks + {wid}); }
        if quorum {
          ghost var more, u;
          out, more, u := Release(cfg, t, m.ctx);
          ReachesJoin(cfg, s, acts, t, more, u);
          acts, t := acts + more, u;
        }
      }
    }

    /** Releases a read request and all before it: each with the index it was accepted at, those of other replicas
        by a message. */
    method Release(ghost cfg: C.Config, ghost s: C.Cluster, ctx: R.Context)
      returns (out: set<C.Msg>, ghost acts: seq<C.Action>, ghost t: C.Cluster)
      requires In(cfg, s) && role == C.Leader && ctx in pend.status && C.Quorate(cfg, pend.status[ctx].acks + {cfg.wid})
      modifies this`pend, this`readStates
      ensures Reaches(cfg, s, acts, t) && In(cfg, t) && t.msgs == s.msgs + out && acts == [C.ReleaseReads(id, ctx)]
      ensures pend == R.Advance(old(pend), ctx)
    {
      hide C.Quorate;
      acts := [C.ReleaseReads(id, ctx)];
      t := C.Apply(cfg, s, acts[0]);
      ReachesOne(cfg, s, acts[0]);
      var done := R.Released(pend, ctx);
      readStates := readStates + set c | c in done && c in pend.status && pend.status[c].from in {INVALID_ID, id}
        :: C.ReadState(pend.status[c].index, c);
      out := set c | c in done && c in pend.status && pend.status[c].from !in {INVALID_ID, id}
        :: C.ReadResp(id, pend.status[c].from, term, pend.status[c].index, c);
      pend := R.Advance(pend, ctx);
    }

    /** The answer to a read request of one's own may move the commit index. */
    method StepReadResp(ghost cfg: C.Config, ghost s: C.Cluster, m: C.Msg) returns (ghost acts: seq<C.Action>, ghost t: C.Cluster)
      requires In(cfg, s) && m in s.msgs && m.term == term && m.ReadResp? && m.to == id && role == C.Follower && Seated(cfg)
      modifies this
      ensures Reaches(cfg, s, acts, t) && In(cfg, t) && t.msgs == s.msgs && Seated(cfg) && acts == [C.RecvReadResp(id, m)]
    {
      acts := [C.RecvReadResp(id, m)];
      t := C.Apply(cfg, s, acts[0]);
      ReachesOne(cfg, s, acts[0]);
      readStates := readStates + {C.ReadState(m.index, m.ctx)};
      if m.index > committed && m.index <= |log| && TermAt(log, m.index) == m.term {
        committed := m.index;
      }
      Sync();
    }

    /** Answers to what this node sent earlier. */
    method StepAck(ghost cfg: C.Config, incoming: set<NodeId>, outgoing: set<NodeId>, wid: NodeId, ghost s: C.Cluster, m: C.Msg)
      returns (out: set<C.Msg>, ghost acts: seq<C.Action>, ghost t: C.Cluster)
      requires cfg.incoming == incoming && cfg.outgoing == outgoing && cfg.wid == wid
      requires In(cfg, s) && m in s.msgs && m.term == term && Seated(cfg) && Sound(id, term, m) && Fits(m)
      requires m.AppendResp? || m.HeartbeatResp? || m.ReadResp?
      modifies this
      ensures Reaches(cfg, s, acts, t) && In(cfg, t) && t.msgs == s.msgs + out && Seated(cfg)
      ensures CurrentActs(cfg, id, old(Value()), m, false, acts)
    {
      hide Reaches, C.Quorate;
      acts, t, out := [], s, {};
      NoActions(cfg, s);
      if role == C.Leader && m.AppendResp? && !m.reject {
        acts, t := StepAppendResp(cfg, incoming, outgoing, wid, s, m);
      } else if role == C.Leader && m.HeartbeatResp? {
        out, acts, t := StepHeartbeatResp(cfg, incoming, outgoing, wid, s, m);
      } else if role == C.Follower && m.ReadResp? {
        acts, t := StepReadResp(cfg, s, m);
      }
    }

    /** A message of the current term, or a pre-vote of a later one. */
    method StepCurrent(ghost cfg: C.Config, incoming: set<NodeId>, outgoing: set<NodeId>, wid: NodeId, ghost s: C.Cluster, m: C.Msg, deny: bool)
      returns (out: set<C.Msg>, ghost acts: seq<C.Action>, ghost t: C.Cluster)
      requires cfg.incoming == incoming && cfg.outgoing == outgoing && cfg.wid == wid
      requires In(cfg, s) && m in s.msgs && Seated(cfg) && Sound(id, term, m) && Fits(m) && |log| < NO_LIMIT
      requires m.term == term || (m.term > term && !C.Raises(m))
      modifies this
      ensures Reaches(cfg, s, acts, t) && In(cfg, t) && t.msgs == s.msgs + out && Seated(cfg)
      ensures CurrentActs(cfg, id, old(Value()), m, deny, acts)
    {
      acts, t, out := [], s, {};
      hide C.Quorate, C.GrantedSet;
      if m.VoteReq? {
        var resp;
        resp, acts, t := StepVote(cfg, s, m, deny);
        out := {resp};
      } else if m.VoteResp? {
        if (m.pre && role == C.PreCandidate) || (!m.pre && role == C.Candidate) {
          out, acts, t := StepVoteResp(cfg, incoming, outgoing, wid, s, m);
        }
      } else if m.AppendReq? || m.Heartbeat? || m.Snapshot? {
        if role != C.Leader {
          var resp;
          resp, acts, t := StepFollow(cfg, s, m);
          out := {resp};
        }
      } else {
        out, acts, t := StepAck(cfg, incoming, outgoing, wid, s, m);
      }
    }

    /** `step`: whatever message of a run arrives (`Delivered` gives `Sound`), the node changes and answers exactly as the actions that
        `StepActs` gives for it do in the cluster, and sends nothing else. */
    method Step(ghost cfg: C.Config, incoming: set<NodeId>, outgoing: set<NodeId>, wid: NodeId, ghost s: C.Cluster, m: C.Msg,
                inLease: bool, tell: bool, deny: bool)
      returns (out: set<C.Msg>, ghost acts: seq<C.Action>, ghost t: C.Cluster)
      requires cfg.incoming == incoming && cfg.outgoing == outgoing && cfg.wid == wid
      requires In(cfg, s) && m in s.msgs && Seated(cfg) && Sound(id, term, m) && Fits(m) && |log| < NO_LIMIT
      modifies this
      ensures Reaches(cfg, s, acts, t) && In(cfg, t) && t.msgs == s.msgs + out && Seated(cfg)
      ensures StepActs(cfg, id, old(Value()), m, inLease, tell, deny, acts)
    {
      hide C.Quorate, C.GrantedSet, Reaches, C.Raises, CurrentActs;
      if m.term < term {
        out, acts, t := StepStale(cfg, s, m, tell);
        return;
      }
      var go;
      ghost var seen := TermActs(id, Value(), m);
      go, t := CheckTerm(cfg, s, m, inLease);
      out, acts := {}, [];
      NoActions(cfg, s);
      if go {
        ghost var more, u;
        out, more, u := StepCurrent(cfg, incoming, outgoing, wid, t, m, deny);
        ReachesJoin(cfg, s, seen, t, more, u);
        acts, t := seen + more, u;
      }
    }

    // ---- Calls from the host ---------------------------------------------------------------------------------

    /** `on_persist_entries`: own entries are stored up to `index`, which may commit them. */
    method OnPersist(ghost cfg: C.Config, incoming: set<NodeId>, outgoing: set<NodeId>, wid: NodeId, ghost s: C.Cluster,
                     index: nat, indexTerm: nat)
      returns (ghost acts: seq<C.Action>, ghost t: C.Cluster)
      requires cfg.incoming == incoming && cfg.outgoing == outgoing && cfg.wid == wid && In(cfg, s) && Seated(cfg)
      modifies this
      ensures Reaches(cfg, s, acts, t) && In(cfg, t) && t.msgs == s.msgs && Seated(cfg)
      ensures if !(old(persisted) < index <= |old(log)| && TermAt(old(log), index) == indexTerm) then acts == []
              else if index > C.MatchOf(old(matched), id)
              then |acts| == 2 && acts[0] == C.Persist(id, index) && acts[1].MaybeCommit? && acts[1].v == id
              else acts == [C.Persist(id, index)]
    {
      hide C.Quorate, Reaches, C.Apply, C.Enabled;
      acts, t := [], s;
      NoActions(cfg, s);
      if index <= persisted || index > |log| || TermAt(log, index) != indexTerm {
        return;
      }
      var raised := index > C.MatchOf(matched, id);
      acts, t := Store(cfg, s, index);
      if raised {
        ghost var more, u := TryCommit(cfg, incoming, outgoing, wid, t);
        ReachesJoin(cfg, s, acts, t, more, u);
        acts, t := acts + more, u;
      }
    }

    method Store(ghost cfg: C.Config, ghost s: C.Cluster, index: nat) returns (ghost acts: seq<C.Action>, ghost t: C.Cluster)
      requires In(cfg, s) && role == C.Leader && Seated(cfg) && persisted < index <= |log|
      modifies this`persisted, this`matched
      ensures Reaches(cfg, s, acts, t) && In(cfg, t) && t.msgs == s.msgs && acts == [C.Persist(id, index)] && Seated(cfg)
    {
      acts := [C.Persist(id, index)];
      t := C.Apply(cfg, s, acts[0]);
      ReachesOne(cfg, s, acts[0]);
      persisted := index;
      if index > C.MatchOf(matched, id) {
        matched := matched[id := index];
      }
    }

    /** `maybe_start_new_subterm`, once the replication set has been adjusted: the next subterm leaves
        out `excluded` and begins with an empty entry. */
    method StartSubterm(ghost cfg: C.Config, ghost s: C.Cluster, excluded: NodeId) returns (ghost acts: seq<C.Action>, ghost t: C.Cluster)
      requires In(cfg, s) && role == C.Leader && C.HasWitness(cfg) && excluded in cfg.incoming && excluded != id
      requires Seated(cfg) && |log| < NO_LIMIT
      modifies this`epoch, this`log
      ensures Reaches(cfg, s, acts, t) && In(cfg, t) && t.msgs == s.msgs && acts == [C.NewSubterm(id, excluded)] && Seated(cfg)
    {
      hide C.Quorate, C.ValidConfig;
      acts := [C.NewSubterm(id, excluded)];
      t := C.Apply(cfg, s, acts[0]);
      ReachesOne(cfg, s, acts[0]);
      epoch := C.Epoch(epoch.subterm + 1, excluded, 0, 0, C.W.EMPTY_APPEND);
      log := log + [Entry(term, epoch.subterm, 0)];
    }

    /** `confirm_witness_append`: the witness has stored the append, unless the subterm is over by now. At
        subterm 0 nothing was sent and only the commit index is looked at. */
    method ConfirmWitness(ghost cfg: C.Config, incoming: set<NodeId>, outgoing: set<NodeId>, wid: NodeId, ghost s: C.Cluster)
      returns (ghost acts: seq<C.Action>, ghost t: C.Cluster)
      requires cfg.incoming == incoming && cfg.outgoing == outgoing && cfg.wid == wid
      requires In(cfg, s) && role == C.Leader && Seated(cfg)
      requires epoch.pending == epoch.subterm != 0 ==> epoch.outbox.term >= s.wit.term
      modifies this
      ensures Reaches(cfg, s, acts, t) && In(cfg, t) && t.msgs == s.msgs && Seated(cfg)
      ensures if wid == INVALID_ID || old(epoch.pending) != old(epoch.subterm) then acts == [] && Value() == old(Value())
              else if old(epoch.subterm) == 0 then |acts| == 1 && acts[0].MaybeCommit? && acts[0].v == id
              else |acts| == 2 && acts[0] == C.WitnessWrite(id) && acts[1].MaybeCommit? && acts[1].v == id
    {
      hide C.Quorate, Reaches, C.Apply, C.Enabled;
      acts, t := [], s;
      NoActions(cfg, s);
      if wid == INVALID_ID || epoch.pending != epoch.subterm {
        return;
      }
      acts, t := Confirm(cfg, s);
      ghost var more, u := TryCommit(cfg, incoming, outgoing, wid, t);
      ReachesJoin(cfg, s, acts, t, more, u);
      acts, t := acts + more, u;
    }

    method Confirm(ghost cfg: C.Config, ghost s: C.Cluster) returns (ghost acts: seq<C.Action>, ghost t: C.Cluster)
      requires In(cfg, s) && role == C.Leader && Seated(cfg) && C.HasWitness(cfg) && epoch.pending == epoch.subterm
      requires epoch.subterm != 0 ==> epoch.outbox.term >= s.wit.term
      modifies this`epoch
      ensures Reaches(cfg, s, acts, t) && In(cfg, t) && t.msgs == s.msgs && Seated(cfg)
      ensures acts == if old(epoch.subterm) == 0 then [] else [C.WitnessWrite(id)]
    {
      hide C.Quorate;
      acts, t := [], s;
      if epoch.subterm != 0 {
        acts := [C.WitnessWrite(id)];
        t := C.Apply(cfg, s, acts[0]);
        ReachesOne(cfg, s, acts[0]);
      }
      epoch := epoch.(contacted := epoch.subterm, pending := 0);
    }

    /** `reject_witness_append`: the next commit attempt sends it again, unless the subterm is over. */
    method RejectWitness(ghost cfg: C.Config, ghost s: C.Cluster) returns (ghost acts: seq<C.Action>, ghost t: C.Cluster)
      requires In(cfg, s) && role == C.Leader && C.HasWitness(cfg) && Seated(cfg)
      modifies this`epoch
      ensures Reaches(cfg, s, acts, t) && In(cfg, t) && t.msgs == s.msgs && Seated(cfg)
      ensures acts == if old(epoch.pending) == old(epoch.subterm) then [C.WitnessReject(id)] else []
    {
      acts, t := [], s;
      if epoch.pending == epoch.subterm {
        acts := [C.WitnessReject(id)];
        t := C.Apply(cfg, s, acts[0]);
        ReachesOne(cfg, s, acts[0]);
        epoch := epoch.(pending := 0);
      }
    }

    /** A read request to a leader: dropped before it has committed in its term, answered at once by a
        single voter, else queued, and released if its own and the witness's acknowledgment are a quorum. */
    method AcceptRead(ghost cfg: C.Config, incoming: set<NodeId>, outgoing: set<NodeId>, wid: NodeId, ghost s: C.Cluster,
                      ctx: R.Context, from: NodeId)
      returns (out: set<C.Msg>, ghost acts: seq<C.Action>, ghost t: C.Cluster)
      requires cfg.incoming == incoming && cfg.outgoing == outgoing && cfg.wid == wid
      requires In(cfg, s) && role == C.Leader && Seated(cfg) && ctx != R.NO_CONTEXT && ctx !in s.h.reqs && ctx !in pend.status
      modifies this`pend, this`readStates
      ensures Reaches(cfg, s, acts, t) && In(cfg, t) && t.msgs == s.msgs + out && Seated(cfg)
      ensures acts == if TermAt(log, committed) != term then []
                      else if Alone(incoming, outgoing) || (C.HasWitness(cfg) && C.Quorate(cfg, {id} + {wid}))
                      then [C.AcceptRead(id, ctx, from), C.ReleaseReads(id, ctx)]
                      else [C.AcceptRead(id, ctx, from)]
    {
      hide C.Quorate, Reaches, C.Apply, C.Enabled;
      acts, t, out := [], s, {};
      NoActions(cfg, s);
      if TermAt(log, committed) != term {
        return;
      }
      if |incoming| == 1 && outgoing == {} {
        assert Alone(incoming, outgoing);
        out, acts, t := AnswerAlone(cfg, s, ctx, from);
        return;
      }
      out, acts, t := Register(cfg, incoming, outgoing, wid, s, ctx, from);
    }

    /** A read that needs a quorum is queued; the leader and the witness may be one already. */
    method Register(ghost cfg: C.Config, incoming: set<NodeId>, outgoing: set<NodeId>, wid: NodeId, ghost s: C.Cluster,
                    ctx: R.Context, from: NodeId)
      returns (out: set<C.Msg>, ghost acts: seq<C.Action>, ghost t: C.Cluster)
      requires cfg.incoming == incoming && cfg.outgoing == outgoing && cfg.wid == wid
      requires In(cfg, s) && role == C.Leader && Seated(cfg) && ctx != R.NO_CONTEXT && ctx !in s.h.reqs && ctx !in pend.status
      requires TermAt(log, committed) == term && !Alone(incoming, outgoing)
      modifies this`pend, this`readStates
      ensures Reaches(cfg, s, acts, t) && In(cfg, t) && t.msgs == s.msgs + out && Seated(cfg)
      ensures acts == if C.HasWitness(cfg) && C.Quorate(cfg, {id} + {wid})
                      then [C.AcceptRead(id, ctx, from), C.ReleaseReads(id, ctx)]
                      else [C.AcceptRead(id, ctx, from)]
    {
      hide C.Quorate, Reaches, C.Apply, C.Enabled;
      acts, t := Enqueue(cfg, s, ctx, from);
      out := {};
      if wid != INVALID_ID {
        var quorum := HasQuorum(incoming, outgoing, {id} + {wid});
        assert quorum <==> C.Quorate(cfg, {id} + {wid}) by { QuorateIs(cfg, {id} + {wid}); }
        if quorum {
          ghost var more, u;
          out, more, u := Release(cfg, t, ctx);
          ReachesJoin(cfg, s, acts, t, more, u);
          acts, t := acts + more, u;
        }
      }
    }

    /** A single voter answers with its commit index, without the queue: what queueing the read and
        releasing it would do. */
    method AnswerAlone(ghost cfg: C.Config, ghost s: C.Cluster, ctx: R.Context, from: NodeId)
      returns (out: set<C.Msg>, ghost acts: seq<C.Action>, ghost t: C.Cluster)
      requires In(cfg, s) && role == C.Leader && Seated(cfg) && ctx != R.NO_CONTEXT && ctx !in s.h.reqs
      requires TermAt(log, committed) == term && Alone(cfg.incoming, cfg.outgoing)
      modifies this`readStates
      ensures Reaches(cfg, s, acts, t) && In(cfg, t) && t.msgs == s.msgs + out
      ensures acts == [C.AcceptRead(id, ctx, from), C.ReleaseReads(id, ctx)]
    {
      hide C.Quorate, C.Apply, C.Enabled, Reaches;
      ghost var mid;
      mid, t := AloneReads(cfg, s, id, ctx, from);
      ghost var a, b := C.AcceptRead(id, ctx, from), C.ReleaseReads(id, ctx);
      ReachesOne(cfg, s, a);
      ReachesOne(cfg, mid, b);
      ReachesJoin(cfg, s, [a], mid, [b], t);
      acts := [a] + [b];
      if from == INVALID_ID || from == id {
        readStates := readStates + {C.ReadState(committed, ctx)};
        out := {};
      } else {
        out := {C.ReadResp(id, from, term, committed, ctx)};
      }
    }

    method Enqueue(ghost cfg: C.Config, ghost s: C.Cluster, ctx: R.Context, from: NodeId)
      returns (ghost acts: seq<C.Action>, ghost t: C.Cluster)
      requires In(cfg, s) && role == C.Leader && ctx != R.NO_CONTEXT && ctx !in s.h.reqs && ctx !in pend.status
      requires TermAt(log, committed) == term
      modifies this`pend
      ensures Reaches(cfg, s, acts, t) && In(cfg, t) && t.msgs == s.msgs && acts == [C.AcceptRead(id, ctx, from)]
      ensures ctx in pend.status && pend.status[ctx].acks == {id}
    {
      acts := [C.AcceptRead(id, ctx, from)];
      t := C.Apply(cfg, s, acts[0]);
      ReachesOne(cfg, s, acts[0]);
      pend := R.AddRequest(pend, ctx, committed, from, id);
    }
  }

  /** The configuration has a single voter. */
  predicate Alone(incoming: set<NodeId>, outgoing: set<NodeId>) {
    |incoming| == 1 && outgoing == {}
  }

  lemma AloneQueue(cfg: C.Config, id: NodeId, ctx: R.Context, index: nat, from: NodeId)
    requires Alone(cfg.incoming, cfg.outgoing) && id in cfg.incoming
    ensures var q := R.AddRequest(R.EMPTY, ctx, index, from, id);
            && q == R.Queue([ctx], map[ctx := R.Status(index, from, {id})])
            && R.Released(q, ctx) == [ctx] && R.Advance(q, ctx) == R.EMPTY
    ensures C.Quorate(cfg, {id} + {cfg.wid})
  {
    var q := R.AddRequest(R.EMPTY, ctx, index, from, id);
    assert [] + [ctx] == [ctx];
    assert q.queue == [ctx];
    assert R.Position([ctx], ctx) == 0;
    assert cfg.incoming == {id} + (cfg.incoming - {id}) && |cfg.incoming - {id}| == 0;
    assert cfg.incoming * ({id} + {cfg.wid}) == {id};
  }

  lemma AloneReads(cfg: C.Config, s: C.Cluster, v: NodeId, ctx: R.Context, from: NodeId) returns (mid: C.Cluster, t: C.Cluster)
    requires C.IsRole(s, v, C.Leader) && s.nodes[v].pend == R.EMPTY && ctx != R.NO_CONTEXT && ctx !in s.h.reqs
    requires TermAt(s.nodes[v].log, s.nodes[v].committed) == s.nodes[v].term
    requires Alone(cfg.incoming, cfg.outgoing) && v in cfg.incoming
    ensures C.Enabled(cfg, s, C.AcceptRead(v, ctx, from)) && mid == C.Apply(cfg, s, C.AcceptRead(v, ctx, from))
    ensures C.Enabled(cfg, mid, C.ReleaseReads(v, ctx)) && t == C.Apply(cfg, mid, C.ReleaseReads(v, ctx))
    ensures v in t.nodes && t.nodes[v] == s.nodes[v].(readStates := t.nodes[v].readStates)
    ensures t.nodes[v].readStates == s.nodes[v].readStates
                                     + if from == INVALID_ID || from == v then {C.ReadState(s.nodes[v].committed, ctx)} else {}
    ensures t.msgs == s.msgs
                      + if from == INVALID_ID || from == v then {}
                      else {C.ReadResp(v, from, s.nodes[v].term, s.nodes[v].committed, ctx)}
  {
    hide C.Quorate, C.Apply, C.Enabled, R.Released, R.Advance, R.AddRequest;
    AloneQueue(cfg, v, ctx, s.nodes[v].committed, from);
    mid := AloneAccepts(cfg, s, v, ctx, from);
    t := AloneReleases(cfg, mid, v, ctx, R.Status(s.nodes[v].committed, from, {v}));
  }

  lemma AloneAccepts(cfg: C.Config, s: C.Cluster, v: NodeId, ctx: R.Context, from: NodeId) returns (t: C.Cluster)
    requires C.IsRole(s, v, C.Leader) && s.nodes[v].pend == R.EMPTY && ctx != R.NO_CONTEXT && ctx !in s.h.reqs
    requires TermAt(s.nodes[v].log, s.nodes[v].committed) == s.nodes[v].term
    ensures C.Enabled(cfg, s, C.AcceptRead(v, ctx, from)) && t == C.Apply(cfg, s, C.AcceptRead(v, ctx, from))
    ensures v in t.nodes && t.msgs == s.msgs
    ensures t.nodes[v] == s.nodes[v].(pend := R.AddRequest(R.EMPTY, ctx, s.nodes[v].committed, from, v))
  {
    hide C.Quorate, C.HighestCommit, R.AddRequest;
    t := C.Apply(cfg, s, C.AcceptRead(v, ctx, from));
  }

  lemma AloneReleases(cfg: C.Config, s: C.Cluster, v: NodeId, ctx: R.Context, read: R.Status) returns (t: C.Cluster)
    requires C.IsRole(s, v, C.Leader) && s.nodes[v].pend == R.Queue([ctx], map[ctx := read]) && C.Quorate(cfg, read.acks + {cfg.wid})
    requires R.Released(s.nodes[v].pend, ctx) == [ctx]
    ensures C.Enabled(cfg, s, C.ReleaseReads(v, ctx)) && t == C.Apply(cfg, s, C.ReleaseReads(v, ctx))
    ensures v in t.nodes && t.nodes[v] == s.nodes[v].(pend := R.Advance(s.nodes[v].pend, ctx), readStates := t.nodes[v].readStates)
    ensures t.nodes[v].readStates == s.nodes[v].readStates
                                     + if read.from == INVALID_ID || read.from == v then {C.ReadState(read.index, ctx)} else {}
    ensures t.msgs == s.msgs
                      + if read.from == INVALID_ID || read.from == v then {}
                      else {C.ReadResp(v, read.from, s.nodes[v].term, read.index, ctx)}
  {
    hide C.Quorate, R.Released, R.Advance;
    t := C.Apply(cfg, s, C.ReleaseReads(v, ctx));
  }

  lemma Observes(cfg: C.Config, s: C.Cluster, v: NodeId, m: C.Msg)
    requires v in s.nodes && m in s.msgs && C.Raises(m) && m.term > s.nodes[v].term
    ensures C.Enabled(cfg, s, C.Observe(v, m))
    ensures var lead := if m.AppendReq? || m.Heartbeat? || m.Snapshot? then m.from else INVALID_ID;
            C.Apply(cfg, s, C.Observe(v, m)) == s.(nodes := s.nodes[v := C.BecomeFollower(s.nodes[v], m.term, lead)])
  {
    hide C.BecomeFollower;
  }

  lemma Takes(cfg: C.Config, s: C.Cluster, v: NodeId)
    requires C.IsRole(s, v, C.Candidate) && C.Quorate(cfg, C.GrantedSet(s.nodes[v].votes))
    ensures C.Enabled(cfg, s, C.Elect(v))
    ensures var t := C.Apply(cfg, s, C.Elect(v)); t.nodes == s.nodes[v := C.BecomeLeader(cfg, s.nodes[v], v)] && t.msgs == s.msgs
  {
    hide C.Quorate, C.VotersOf, C.BecomeLeader;
  }

  lemma OwnVote(id: NodeId)
    ensures C.GrantedSet(map[id := true]) == {id}
  {
  }

  /** Width of an index in a message. */
  predicate Fits(m: C.Msg) {
    m.AppendResp? ==> m.index <= NO_LIMIT
  }

  lemma QuorateIs(cfg: C.Config, ids: set<NodeId>)
    ensures C.Quorate(cfg, ids) <==> IsQuorum(cfg.incoming, cfg.outgoing, ids)
  {
  }

  lemma TallyIs(cfg: C.Config, votes: map<NodeId, bool>)
    ensures IsQuorum(cfg.incoming, cfg.outgoing, Granted(cfg.incoming + cfg.outgoing, votes)) <==> C.Quorate(cfg, C.GrantedSet(votes))
  {
    var granted := Granted(cfg.incoming + cfg.outgoing, votes);
    assert cfg.incoming * granted == cfg.incoming * C.GrantedSet(votes);
    assert cfg.outgoing * granted == cfg.outgoing * C.GrantedSet(votes);
  }

  lemma ReachedWithin(voters: set<NodeId>, acks: Acks, k: nat)
    requires IsLargestReached(voters, acks, if |voters| <= 2 then 1 else Majority(|voters|) - 1, k) && voters != {}
    requires forall v | v in acks :: acks[v].index <= NO_LIMIT
    ensures k <= NO_LIMIT
  {
    AtMostLimit(voters, acks, if |voters| <= 2 then 1 else Majority(|voters|) - 1, k);
  }

  lemma CommitEnabled(cfg: C.Config, s: C.Cluster, v: NodeId, k: nat, index: nat)
    requires C.IsRole(s, v, C.Leader) && (C.ReplicatesToWitness(cfg, s.nodes[v]) ==> C.IsShortcutIndex(cfg, s.nodes[v], k))
    requires C.IsCommitIndex(cfg, C.Shortcut(cfg, s.nodes[v], v, k).matched, index)
    ensures C.Enabled(cfg, s, C.MaybeCommit(v, k, index))
  {
  }

  lemma CommitApplied(cfg: C.Config, s: C.Cluster, v: NodeId, k: nat, index: nat)
    requires C.Enabled(cfg, s, C.MaybeCommit(v, k, index))
    ensures var n, t := C.Shortcut(cfg, s.nodes[v], v, k), C.Apply(cfg, s, C.MaybeCommit(v, k, index));
            && v in t.nodes && t.msgs == s.msgs
            && t.nodes[v] == if index > n.committed && index <= |n.log| && TermAt(n.log, index) == n.term
                             then n.(committed := index) else n
  {
  }
}
