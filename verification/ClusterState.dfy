/** The Raft cluster of src/raft.rs as a state machine: the nodes, a growing set of messages
    (so messages may be lost, reordered and duplicated), the external witness, and a history
    that the protocol never reads. One action is one atomic part of a source handler. */
module ClusterState {
  import opened Quorum
  import opened RaftLogs
  import W = WitnessModel
  import R = ReadQueues

  /** A fixed voter configuration. `nodes` are the replicas that hold a log (voters and
      learners); the witness, when there is one, is a voter but not a replica. */
  datatype Config = Config(nodes: set<NodeId>, incoming: set<NodeId>, outgoing: set<NodeId>, wid: NodeId)

  /** Either a witness-free majority or joint configuration, or a majority configuration with
      one witness and at least two regular voters. */
  predicate ValidConfig(cfg: Config) {
    && INVALID_ID !in cfg.nodes
    && cfg.wid !in cfg.nodes
    && cfg.incoming != {}
    && cfg.incoming - {cfg.wid} <= cfg.nodes
    && cfg.outgoing <= cfg.nodes
    && (cfg.wid == INVALID_ID ==> INVALID_ID !in cfg.incoming)
    && (cfg.wid != INVALID_ID ==>
          cfg.wid in cfg.incoming && cfg.outgoing == {} && |cfg.incoming| >= 3)
  }

  predicate HasWitness(cfg: Config) {
    cfg.wid != INVALID_ID
  }

  predicate Quorate(cfg: Config, s: set<NodeId>) {
    IsQuorum(cfg.incoming, cfg.outgoing, s)
  }

  datatype Role = Follower | PreCandidate | Candidate | Leader

  /** The leader's epoch (src/tracker.rs): its subterm, the voter left out of the replication
      set, the last subterm the witness was confirmed in, and the subterm of the witness append
      whose outcome is awaited (0 for none) together with that append. */
  datatype Epoch = Epoch(subterm: nat, excluded: NodeId, contacted: nat, pending: nat, outbox: W.Append)

  /** The answer to a read request, as the host of the requesting replica gets it. */
  datatype ReadState = ReadState(index: nat, ctx: R.Context)

  /** One replica. Everything up to `persisted`, and a commit index of at least `durable`,
      survives a crash; only a leader lets them lag behind `log` and `committed`. `readStates` are the
      read states given to its host so far. */
  datatype Node = Node(term: nat, vote: NodeId, lead: NodeId, role: Role,
                       log: Log, committed: nat, persisted: nat, durable: nat,
                       votes: map<NodeId, bool>, matched: map<NodeId, nat>,
                       epoch: Epoch, pend: R.Queue, readStates: set<ReadState>)

  datatype Msg =
    | VoteReq(from: NodeId, term: nat, pre: bool, lastIndex: nat, lastTerm: nat, commit: nat, commitTerm: nat)
    | VoteResp(from: NodeId, to: NodeId, term: nat, pre: bool, reject: bool, commit: nat, commitTerm: nat)
    | AppendReq(from: NodeId, to: NodeId, term: nat, prev: nat, prevTerm: nat, ents: Log, commit: nat)
    | AppendResp(from: NodeId, to: NodeId, term: nat, index: nat, reject: bool)
    | Heartbeat(from: NodeId, to: NodeId, term: nat, commit: nat, ctx: R.Context)
    | HeartbeatResp(from: NodeId, to: NodeId, term: nat, ctx: R.Context)
    | Snapshot(from: NodeId, to: NodeId, term: nat, prefix: Log)
    | ReadResp(from: NodeId, to: NodeId, term: nat, index: nat, ctx: R.Context)
    | WitnessVoteReq(from: NodeId, term: nat, pre: bool, lastTerm: nat, lastSubterm: nat, granted: set<NodeId>)

  // ---- History -----------------------------------------------------------------------------

  /** `node` told the leader of `term` that its log agrees with the leader's up to `index`. */
  datatype Ack = Ack(node: NodeId, term: nat, index: nat)

  /** `voter` granted its vote of `term` to `cand`. */
  datatype Vote = Vote(voter: NodeId, term: nat, cand: NodeId)

  /** The leader of `term` committed `index`. */
  datatype Commit = Commit(term: nat, index: nat)

  /** One election: the winner, the log it campaigned with, everybody who had voted for it by
      then, and the terms whose elections came earlier in time. */
  datatype Election = Election(leader: NodeId, log: Log, voters: set<NodeId>, prior: set<nat>)

  /** A vote the witness granted: the position and replication set it held, and what the
      candidate showed it. */
  datatype WitnessGrant = WitnessGrant(term: nat, cand: NodeId,
                                       heldTerm: nat, heldSubterm: nat, heldSet: set<NodeId>,
                                       lastTerm: nat, lastSubterm: nat, granted: set<NodeId>)

  /** A read request of replica `from` as the leader of `term` accepted it: the index it was given, the
      elections held so far, and the highest index any replica had committed at that moment. */
  datatype ReadRecord = ReadRecord(term: nat, from: NodeId, index: nat, elected: set<nat>, high: nat)

  datatype History = History(
    logs: map<nat, Log>,                       // the log of each term's leader, at its longest
    elect: map<nat, Election>,
    camp: map<(nat, NodeId), Log>,             // the log each candidate campaigned with
    acks: set<Ack>,
    votes: set<Vote>,
    commits: set<Commit>,
    confirmed: map<(nat, nat), set<NodeId>>,   // (term, subterm) the witness confirmed, and its set
    grants: set<WitnessGrant>,
    reqs: map<R.Context, ReadRecord>)

  datatype Cluster = Cluster(nodes: map<NodeId, Node>, msgs: set<Msg>, wit: W.State, h: History)

  const NO_EPOCH := Epoch(0, INVALID_ID, 0, 0, W.EMPTY_APPEND)

  const FRESH := Node(0, INVALID_ID, INVALID_ID, Follower, [], 0, 0, 0, map[], map[], NO_EPOCH, R.EMPTY, {})

  const NO_HISTORY := History(map[], map[], map[], {}, {}, {}, map[], {}, map[])

  function Init(cfg: Config): Cluster {
    Cluster(map v | v in cfg.nodes :: FRESH, {}, W.FRESH, NO_HISTORY)
  }

  // ---- Parts of the handlers, on one replica --------------------------------------------------

  /** What a replica that is not leader has persisted before its messages leave. */
  function Synced(n: Node): Node {
    n.(persisted := |n.log|, durable := n.committed)
  }

  /** `become_follower` through `reset`. */
  function BecomeFollower(n: Node, term: nat, lead: NodeId): Node {
    Synced(n.(term := term, vote := if term != n.term then INVALID_ID else n.vote, lead := lead,
           role := Follower, votes := map[], matched := map[], pend := R.EMPTY))
  }

  function BecomePreCandidate(n: Node, id: NodeId): Node {
    n.(role := PreCandidate, votes := map[id := true], lead := INVALID_ID)
  }

  /** `become_candidate`, with the vote for itself already recorded. */
  function BecomeCandidate(n: Node, id: NodeId): Node {
    n.(term := n.term + 1, vote := id, lead := INVALID_ID, role := Candidate,
    votes := map[id := true], matched := map[], pend := R.EMPTY)
  }

  /** `become_leader`: own progress starts at the persisted index, the first subterm leaves
      the witness out, and an empty entry is appended. */
  function BecomeLeader(cfg: Config, n: Node, id: NodeId): Node {
    n.(role := Leader, lead := id, votes := map[], matched := map[id := |n.log|],
    epoch := NO_EPOCH.(excluded := cfg.wid), pend := R.EMPTY,
    log := n.log + [Entry(n.term, 0, 0)], persisted := |n.log|, durable := n.committed)
  }

  /** `RaftLog::maybe_commit`. */
  function CommitAt(n: Node, index: nat, term: nat): Node {
    if index > n.committed && index <= |n.log| && TermAt(n.log, index) == term
    then n.(committed := index) else n
  }

  /** `maybe_commit_by_vote`. */
  function CommitByVote(n: Node, commit: nat, commitTerm: nat): Node {
    if commit == 0 || commitTerm == 0 || n.role == Leader then n
    else Synced(CommitAt(n, commit, commitTerm))
  }

  /** `RaftLog::commit_to`. */
  function CommitTo(n: Node, index: nat): Node {
    if index > n.committed then n.(committed := index) else n
  }

  /** The voting rule of `step`. */
  predicate CanVote(n: Node, m: Msg)
    requires m.VoteReq?
  {
    && (n.vote == m.from || (n.vote == INVALID_ID && n.lead == INVALID_ID) || (m.pre && m.term > n.term))
    && UpToDate(n.log, m.lastIndex, m.lastTerm)
  }

  function MatchOf(matched: map<NodeId, nat>, v: NodeId): nat {
    if v in matched then matched[v] else 0
  }

  /** The voters whose acknowledged index is at least `k`. */
  function AckedBy(voters: set<NodeId>, matched: map<NodeId, nat>, k: nat): set<NodeId> {
    set v | v in voters && MatchOf(matched, v) >= k
  }

  /** `maximal_committed_index`: the largest index acknowledged by a quorum. */
  ghost predicate IsCommitIndex(cfg: Config, matched: map<NodeId, nat>, k: nat) {
    && Quorate(cfg, AckedBy(cfg.incoming + cfg.outgoing, matched, k))
    && forall j :: j > k ==> !Quorate(cfg, AckedBy(cfg.incoming + cfg.outgoing, matched, j))
  }

  /** `one_less_than_quorum_in_replication_set`: the largest index acknowledged by one voter
      less than a quorum inside the replication set. */
  ghost predicate IsShortcutIndex(cfg: Config, n: Node, k: nat) {
    && |AckedBy(ReplicationSet(cfg, n), n.matched, k)| >= |cfg.incoming| / 2
    && forall j :: j > k ==> |AckedBy(ReplicationSet(cfg, n), n.matched, j)| < |cfg.incoming| / 2
  }

  function ReplicationSet(cfg: Config, n: Node): set<NodeId> {
    cfg.incoming - {n.epoch.excluded}
  }

  /** `replicate_to_witness`, for the incoming half. */
  predicate ReplicatesToWitness(cfg: Config, n: Node) {
    HasWitness(cfg) && n.epoch.excluded != cfg.wid
  }

  /** The shortcut part of `maybe_commit`, when `k` voters-but-one have acknowledged: raise the
      witness's progress if it was contacted in this subterm, else send it the log once. */
  function Shortcut(cfg: Config, n: Node, id: NodeId, k: nat): Node {
    if !ReplicatesToWitness(cfg, n) || k == 0 then n
    else if n.epoch.contacted == n.epoch.subterm then
      if k > MatchOf(n.matched, cfg.wid) then n.(matched := n.matched[cfg.wid := k]) else n
    else if n.epoch.pending == 0 && MatchOf(n.matched, cfg.wid) < |n.log| then
      n.(epoch := n.epoch.(pending := n.epoch.subterm,
      outbox := W.Append(id, n.term, n.log[MatchOf(n.matched, cfg.wid)..],
                         MatchOf(n.matched, cfg.wid) + 1, ReplicationSet(cfg, n), n.committed,
                         TermAt(n.log, n.committed), n.epoch.subterm)))
    else n
  }

  function GrantedSet(votes: map<NodeId, bool>): set<NodeId> {
    set v | v in votes && votes[v]
  }

  /** The answer to an append, heartbeat or snapshot comes from a follower of the sender. */
  function Following(n: Node, from: NodeId): Node {
    if n.role == Follower then n.(lead := from) else BecomeFollower(n, n.term, from)
  }

  /** `handle_append_entries`: the new replica, and the acknowledged index or the rejection. */
  function HandleAppend(n: Node, prev: nat, prevTerm: nat, ents: Log, commit: nat): (Node, bool, nat) {
    if prev < n.committed then (n, true, n.committed)
    else if prev <= |n.log| && TermAt(n.log, prev) == prevTerm then
      (Synced(CommitTo(n.(log := Spliced(n.log, prev, ents)), Min(commit, prev + |ents|))), true, prev + |ents|)
    else (n, false, 0)
  }

  /** `handle_heartbeat`: the commit index is clamped to the log. */
  function HandleHeartbeat(n: Node, commit: nat): Node {
    Synced(CommitTo(n, Min(commit, |n.log|)))
  }

  /** `handle_snapshot` and `restore`. The snapshot stands for the log prefix it covers. */
  function HandleSnapshot(n: Node, prefix: Log): (Node, nat) {
    if |prefix| < n.committed then (n, n.committed)
    else if TermAt(n.log, |prefix|) == LastTerm(prefix) then
      (Synced(CommitTo(n, |prefix|)), CommitTo(n, |prefix|).committed)
    else (Synced(n.(log := prefix, committed := |prefix|)), |prefix|)
  }

  /** `handle_ready_read_index` for everything released with `ctx`: a read of the leader's own, or of
      nobody in particular, goes to its host. */
  function OwnAnswers(q: R.Queue, v: NodeId, ctx: R.Context): set<ReadState> {
    set c | c in R.Released(q, ctx) && c in q.status && q.status[c].from in {INVALID_ID, v} :: ReadState(q.status[c].index, c)
  }

  /** The others are answered by a message. */
  function Answers(q: R.Queue, v: NodeId, t: nat, ctx: R.Context): set<Msg> {
    set c | c in R.Released(q, ctx) && c in q.status && q.status[c].from !in {INVALID_ID, v}
      :: ReadResp(v, q.status[c].from, t, q.status[c].index, c)
  }

  // ---- Actions -------------------------------------------------------------------------------

  datatype Action =
    | Observe(v: NodeId, m: Msg)
    | Campaign(v: NodeId)
    | PreCampaign(v: NodeId)
    | RecvVote(v: NodeId, m: Msg, deny: bool)
    | RecvPreVote(v: NodeId, m: Msg, deny: bool)
    | RecvVoteResp(v: NodeId, m: Msg)
    | CommitFromVoteResp(v: NodeId, m: Msg)
    | Elect(v: NodeId)
    | PollWitness(v: NodeId)
    | StepDown(v: NodeId)
    | RecvAppend(v: NodeId, m: Msg)
    | RecvHeartbeat(v: NodeId, m: Msg)
    | RecvSnapshot(v: NodeId, m: Msg)
    | RecvReadResp(v: NodeId, m: Msg)
    | RejectStale(v: NodeId, m: Msg)
    | RecvAppendResp(v: NodeId, m: Msg)
    | RecvHeartbeatResp(v: NodeId, m: Msg)
    | Propose(v: NodeId, data: nat)
    | Persist(v: NodeId, index: nat)
    | SendAppend(v: NodeId, to: NodeId, prev: nat, upto: nat)
    | SendHeartbeat(v: NodeId, to: NodeId, ctx: R.Context)
    | SendSnapshot(v: NodeId, to: NodeId, index: nat)
    | MaybeCommit(v: NodeId, shortcut: nat, index: nat)
    | AcceptRead(v: NodeId, ctx: R.Context, from: NodeId)
    | ReleaseReads(v: NodeId, ctx: R.Context)
    | Restart(v: NodeId, commit: nat)
    | NewSubterm(v: NodeId, excluded: NodeId)
    | WitnessWrite(v: NodeId)
    | WitnessReject(v: NodeId)
    | WitnessVote(m: Msg)

  /** The replica changes to `n` and sends `out`. */
  function Put(s: Cluster, v: NodeId, n: Node, out: set<Msg>, h: History): Cluster {
    Cluster(s.nodes[v := n], s.msgs + out, s.wit, h)
  }

  predicate IsRole(s: Cluster, v: NodeId, role: Role) {
    v in s.nodes && s.nodes[v].role == role
  }

  /** `v` handles `m`, which carries its current term. */
  predicate Handles(s: Cluster, v: NodeId, m: Msg) {
    v in s.nodes && m in s.msgs && m.term == s.nodes[v].term
  }

  /** A message of a later term makes the receiver follow that term, unless it is a pre-vote
      request or a granted pre-vote. */
  predicate Raises(m: Msg) {
    && !m.WitnessVoteReq?
    && !(m.VoteReq? && m.pre)
    && !(m.VoteResp? && m.pre && !m.reject)
  }

  ghost predicate Enabled(cfg: Config, s: Cluster, a: Action) {
    match a
    case Observe(v, m) => v in s.nodes && m in s.msgs && Raises(m) && m.term > s.nodes[v].term
    case Campaign(v) => v in s.nodes && s.nodes[v].role != Leader && v in cfg.incoming + cfg.outgoing
    case PreCampaign(v) => v in s.nodes && s.nodes[v].role != Leader && v in cfg.incoming + cfg.outgoing
    case RecvVote(v, m, _) => Handles(s, v, m) && m.VoteReq? && !m.pre && m.from != v
    case RecvPreVote(v, m, _) => v in s.nodes && m in s.msgs && m.VoteReq? && m.pre && m.from != v
    case RecvVoteResp(v, m) =>
      && v in s.nodes && m in s.msgs && m.VoteResp? && m.to == v
      && (if m.pre then s.nodes[v].role == PreCandidate && m.term <= s.nodes[v].term + 1
          else s.nodes[v].role == Candidate && m.term == s.nodes[v].term)
    case CommitFromVoteResp(v, m) => Handles(s, v, m) && m.VoteResp? && m.to == v
    case Elect(v) => IsRole(s, v, Candidate) && Quorate(cfg, GrantedSet(s.nodes[v].votes))
    case PollWitness(v) =>
      && HasWitness(cfg) && v in s.nodes && s.nodes[v].role in {PreCandidate, Candidate}
      && !Quorate(cfg, GrantedSet(s.nodes[v].votes))
      && |cfg.incoming * GrantedSet(s.nodes[v].votes)| + 1 == Majority(|cfg.incoming|)
    case StepDown(v) => v in s.nodes && s.nodes[v].role in {PreCandidate, Candidate, Leader}
    case RecvAppend(v, m) => Handles(s, v, m) && m.AppendReq? && m.to == v && s.nodes[v].role != Leader
    case RecvHeartbeat(v, m) => Handles(s, v, m) && m.Heartbeat? && m.to == v && s.nodes[v].role != Leader
    case RecvSnapshot(v, m) => Handles(s, v, m) && m.Snapshot? && m.to == v && s.nodes[v].role != Leader
    case RecvReadResp(v, m) => Handles(s, v, m) && m.ReadResp? && m.to == v && s.nodes[v].role == Follower
    case RejectStale(v, m) =>
      && v in s.nodes && m in s.msgs && (m.AppendReq? || m.Heartbeat?) && m.to == v && m.term < s.nodes[v].term
    case RecvAppendResp(v, m) =>
      Handles(s, v, m) && m.AppendResp? && !m.reject && m.to == v && m.from != v && s.nodes[v].role == Leader
    case RecvHeartbeatResp(v, m) =>
      Handles(s, v, m) && m.HeartbeatResp? && m.to == v && s.nodes[v].role == Leader
    case Propose(v, _) => IsRole(s, v, Leader)
    case Persist(v, index) =>
      IsRole(s, v, Leader) && s.nodes[v].persisted < index <= |s.nodes[v].log|
    case SendAppend(v, to, prev, upto) =>
      IsRole(s, v, Leader) && to in cfg.nodes && to != v && prev <= upto <= |s.nodes[v].log|
    case SendHeartbeat(v, to, ctx) =>
      && IsRole(s, v, Leader) && to in cfg.nodes && to != v
      && (ctx == R.NO_CONTEXT || ctx in s.nodes[v].pend.status)
    case SendSnapshot(v, to, index) =>
      IsRole(s, v, Leader) && to in cfg.nodes && to != v && 0 < index <= s.nodes[v].committed <= |s.nodes[v].log|
    case MaybeCommit(v, shortcut, index) =>
      && IsRole(s, v, Leader)
      && (ReplicatesToWitness(cfg, s.nodes[v]) ==> IsShortcutIndex(cfg, s.nodes[v], shortcut))
      && IsCommitIndex(cfg, Shortcut(cfg, s.nodes[v], v, shortcut).matched, index)
    case AcceptRead(v, ctx, from) =>
      && IsRole(s, v, Leader) && ctx != R.NO_CONTEXT && ctx !in s.h.reqs
      && TermAt(s.nodes[v].log, s.nodes[v].committed) == s.nodes[v].term
    case ReleaseReads(v, ctx) =>
      && IsRole(s, v, Leader) && ctx in s.nodes[v].pend.status
      && Quorate(cfg, s.nodes[v].pend.status[ctx].acks + {cfg.wid})
    case Restart(v, commit) =>
      v in s.nodes && s.nodes[v].durable <= commit <= Min(s.nodes[v].committed, s.nodes[v].persisted)
    case NewSubterm(v, excluded) =>
      IsRole(s, v, Leader) && HasWitness(cfg) && excluded in cfg.incoming && excluded != v
    case WitnessWrite(v) =>
      && IsRole(s, v, Leader) && HasWitness(cfg)
      && s.nodes[v].epoch.pending != 0 && s.nodes[v].epoch.pending == s.nodes[v].epoch.subterm
    case WitnessReject(v) =>
      && IsRole(s, v, Leader) && HasWitness(cfg)
      && s.nodes[v].epoch.pending == s.nodes[v].epoch.subterm
    case WitnessVote(m) =>
      HasWitness(cfg) && m in s.msgs && m.WitnessVoteReq? && m.term >= s.wit.term
  }

  /** The highest commit index of any replica. */
  ghost function HighestCommit(s: Cluster): (r: nat)
    ensures forall v | v in s.nodes :: s.nodes[v].committed <= r
  {
    MaxCommit(s.nodes, s.nodes.Keys)
  }

  ghost function MaxCommit(nodes: map<NodeId, Node>, ids: set<NodeId>): (r: nat)
    requires ids <= nodes.Keys
    ensures forall v | v in ids :: nodes[v].committed <= r
    ensures r == 0 || exists v :: v in ids && nodes[v].committed == r
    decreases ids
  {
    if ids == {} then 0
    else
      var v :| v in ids;
      var rest := MaxCommit(nodes, ids - {v});
      if nodes[v].committed > rest then nodes[v].committed else rest
  }

  /** Everybody who has voted for `cand` in `term` so far. */
  function VotersOf(h: History, term: nat, cand: NodeId): set<NodeId> {
    set b | b in h.votes && b.term == term && b.cand == cand :: b.voter
  }

  function VoteAnswer(v: NodeId, n: Node, m: Msg, grant: bool): Msg
    requires m.VoteReq?
  {
    if grant then VoteResp(v, m.from, m.term, m.pre, false, 0, 0)
    else VoteResp(v, m.from, n.term, m.pre, true, n.committed, TermAt(n.log, n.committed))
  }

  function WithAck(h: History, v: NodeId, term: nat, index: nat): History {
    if index == 0 then h else h.(acks := h.acks + {Ack(v, term, index)})
  }

  ghost function Apply(cfg: Config, s: Cluster, a: Action): Cluster
    requires Enabled(cfg, s, a)
  {
    match a
    case Observe(v, m) =>
      var lead := if m.AppendReq? || m.Heartbeat? || m.Snapshot? then m.from else INVALID_ID;
      Put(s, v, BecomeFollower(s.nodes[v], m.term, lead), {}, s.h)
    case Campaign(v) =>
      var n := BecomeCandidate(s.nodes[v], v);
      Put(s, v, n,
          {VoteReq(v, n.term, false, |n.log|, LastTerm(n.log), n.committed, TermAt(n.log, n.committed))},
          s.h.(camp := s.h.camp[(n.term, v) := n.log], votes := s.h.votes + {Vote(v, n.term, v)}))
    case PreCampaign(v) =>
      var n := BecomePreCandidate(s.nodes[v], v);
      Put(s, v, n,
          {VoteReq(v, n.term + 1, true, |n.log|, LastTerm(n.log), n.committed, TermAt(n.log, n.committed))}, s.h)
    case RecvVote(v, m, deny) =>
      var n := s.nodes[v];
      if CanVote(n, m) && !deny then
        Put(s, v, n.(vote := m.from), {VoteAnswer(v, n, m, true)},
            s.h.(votes := s.h.votes + {Vote(v, n.term, m.from)}))
      else Put(s, v, CommitByVote(n, m.commit, m.commitTerm), {VoteAnswer(v, n, m, false)}, s.h)
    case RecvPreVote(v, m, deny) =>
      var n := s.nodes[v];
      if m.term < n.term then Put(s, v, n, {VoteResp(v, m.from, n.term, true, true, 0, 0)}, s.h)
      else if CanVote(n, m) && !deny then Put(s, v, n, {VoteAnswer(v, n, m, true)}, s.h)
      else Put(s, v, CommitByVote(n, m.commit, m.commitTerm), {VoteAnswer(v, n, m, false)}, s.h)
    case RecvVoteResp(v, m) =>
      var n := s.nodes[v];
      Put(s, v, if m.from in n.votes then n else n.(votes := n.votes[m.from := !m.reject]), {}, s.h)
    case CommitFromVoteResp(v, m) =>
      Put(s, v, CommitByVote(s.nodes[v], m.commit, m.commitTerm), {}, s.h)
    case Elect(v) =>
      var n := s.nodes[v];
      var l := BecomeLeader(cfg, n, v);
      Put(s, v, l, {},
          WithAck(s.h.(logs := s.h.logs[n.term := l.log],
                  elect := s.h.elect[n.term := Election(v, n.log, VotersOf(s.h, n.term, v), s.h.elect.Keys)]),
                  v, n.term, |n.log|))
    case PollWitness(v) =>
      var n := s.nodes[v];
      var term := if n.role == PreCandidate then n.term + 1 else n.term;
      Put(s, v, n, {WitnessVoteReq(v, term, n.role == PreCandidate, LastTerm(n.log), LastSubterm(n.log),
                                   GrantedSet(n.votes))}, s.h)
    case StepDown(v) => Put(s, v, BecomeFollower(s.nodes[v], s.nodes[v].term, INVALID_ID), {}, s.h)
    case RecvAppend(v, m) =>
      var n := Following(s.nodes[v], m.from);
      var (n', ok, index) := HandleAppend(n, m.prev, m.prevTerm, m.ents, m.commit);
      Put(s, v, n', {AppendResp(v, m.from, n.term, if ok then index else m.prev, !ok)},
          if ok then WithAck(s.h, v, n.term, index) else s.h)
    case RecvHeartbeat(v, m) =>
      var n := HandleHeartbeat(Following(s.nodes[v], m.from), m.commit);
      Put(s, v, n, {HeartbeatResp(v, m.from, n.term, m.ctx)}, s.h)
    case RecvSnapshot(v, m) =>
      var (n, index) := HandleSnapshot(Following(s.nodes[v], m.from), m.prefix);
      Put(s, v, n, {AppendResp(v, m.from, n.term, index, false)}, WithAck(s.h, v, n.term, index))
    case RecvReadResp(v, m) =>
      Put(s, v, Synced(CommitAt(s.nodes[v], m.index, m.term)).(readStates := s.nodes[v].readStates + {ReadState(m.index, m.ctx)}), {}, s.h)
    case RejectStale(v, m) => Put(s, v, s.nodes[v], {AppendResp(v, m.from, s.nodes[v].term, 0, false)}, s.h)
    case RecvAppendResp(v, m) =>
      var n := s.nodes[v];
      Put(s, v, if m.index > MatchOf(n.matched, m.from) then n.(matched := n.matched[m.from := m.index]) else n,
          {}, s.h)
    case RecvHeartbeatResp(v, m) =>
      Put(s, v, s.nodes[v].(pend := R.RecvAck(s.nodes[v].pend, m.from, m.ctx)), {}, s.h)
    case Propose(v, data) =>
      var n := s.nodes[v];
      var log := n.log + [Entry(n.term, n.epoch.subterm, data)];
      Put(s, v, n.(log := log), {}, s.h.(logs := s.h.logs[n.term := log]))
    case Persist(v, index) =>
      var n := s.nodes[v];
      Put(s, v, n.(persisted := index,
          matched := if index > MatchOf(n.matched, v) then n.matched[v := index] else n.matched),
          {}, WithAck(s.h, v, n.term, index))
    case SendAppend(v, to, prev, upto) =>
      var n := s.nodes[v];
      Put(s, v, n, {AppendReq(v, to, n.term, prev, TermAt(n.log, prev), n.log[prev..upto], n.committed)}, s.h)
    case SendHeartbeat(v, to, ctx) =>
      var n := s.nodes[v];
      Put(s, v, n, {Heartbeat(v, to, n.term, Min(MatchOf(n.matched, to), n.committed), ctx)}, s.h)
    case SendSnapshot(v, to, index) =>
      Put(s, v, s.nodes[v], {Snapshot(v, to, s.nodes[v].term, s.nodes[v].log[..index])}, s.h)
    case MaybeCommit(v, shortcut, index) =>
      var n := Shortcut(cfg, s.nodes[v], v, shortcut);
      if index > n.committed && index <= |n.log| && TermAt(n.log, index) == n.term then
        Put(s, v, n.(committed := index), {}, s.h.(commits := s.h.commits + {Commit(n.term, index)}))
      else Put(s, v, n, {}, s.h)
    case AcceptRead(v, ctx, from) =>
      var n := s.nodes[v];
      Put(s, v, n.(pend := R.AddRequest(n.pend, ctx, n.committed, from, v)), {},
          s.h.(reqs := s.h.reqs[ctx := ReadRecord(n.term, from, n.committed, s.h.elect.Keys, HighestCommit(s))]))
    case ReleaseReads(v, ctx) =>
      var n := s.nodes[v];
      Put(s, v, n.(pend := R.Advance(n.pend, ctx), readStates := n.readStates + OwnAnswers(n.pend, v, ctx)),
          Answers(n.pend, v, n.term, ctx), s.h)
    case Restart(v, commit) =>
      var n := s.nodes[v];
      Put(s, v, BecomeFollower(n.(log := n.log[..Min(n.persisted, |n.log|)], committed := commit, readStates := {}), n.term,
                               INVALID_ID), {}, s.h)
    case NewSubterm(v, excluded) =>
      var n := s.nodes[v];
      var e := Epoch(n.epoch.subterm + 1, excluded, 0, 0, W.EMPTY_APPEND);
      var log := n.log + [Entry(n.term, e.subterm, 0)];
      Put(s, v, n.(epoch := e, log := log), {}, s.h.(logs := s.h.logs[n.term := log]))
    case WitnessWrite(v) =>
      var n := s.nodes[v];
      if n.epoch.outbox.term < s.wit.term then
        Put(s, v, n.(epoch := n.epoch.(pending := 0)), {AppendResp(cfg.wid, v, s.wit.term, 0, true)}, s.h)
      else
        var n' := n.(epoch := n.epoch.(contacted := n.epoch.subterm, pending := 0));
        Cluster(s.nodes[v := n'], s.msgs, W.OnAppend(s.wit, n.epoch.outbox),
                s.h.(confirmed := s.h.confirmed[(n.term, n.epoch.subterm) := n.epoch.outbox.replicationSet]))
    case WitnessReject(v) =>
      var n := s.nodes[v];
      Put(s, v, n.(epoch := n.epoch.(pending := 0)), {}, s.h)
    case WitnessVote(m) =>
      var grant := W.Grants(s.wit, m.from, m.term, m.pre, m.lastTerm, m.lastSubterm, m.granted);
      var w := W.OnVote(s.wit, m.from, m.term, m.pre, m.lastTerm, m.lastSubterm, m.granted);
      var resp := VoteResp(cfg.wid, m.from, m.term, m.pre, !grant, 0, 0);
      var h := if grant && !m.pre then
                 s.h.(votes := s.h.votes + {Vote(cfg.wid, m.term, m.from)},
                 grants := s.h.grants + {WitnessGrant(m.term, m.from, s.wit.lastTerm, s.wit.lastSubterm, s.wit.replicationSet,
                                                                              m.lastTerm, m.lastSubterm, m.granted)})
               else s.h;
      Cluster(s.nodes, s.msgs + {resp}, w, h)
  }

  /** The witness auto-acknowledges reads, so a read quorum counts it without asking. It still
      shares a regular voter with every election unless the number of voters is odd. */
  predicate ReadsSafe(cfg: Config) {
    HasWitness(cfg) ==> |cfg.incoming| % 2 == 0
  }

  ghost predicate Next(cfg: Config, s: Cluster, t: Cluster) {
    exists a :: Enabled(cfg, s, a) && t == Apply(cfg, s, a)
  }

  /** A run: it starts fresh and every state follows from the one before. */
  ghost predicate IsRun(cfg: Config, run: seq<Cluster>) {
    && run != []
    && run[0] == Init(cfg)
    && forall i | 0 <= i < |run| - 1 :: Next(cfg, run[i], run[i + 1])
  }
}
