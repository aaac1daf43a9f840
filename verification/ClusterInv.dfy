/** The invariant of the cluster. */
module ClusterInv {
  import opened Quorum
  import opened RaftLogs
  import opened ClusterState

  // ---- Logs against the leaders' logs -----------------------------------------------------------

  /** Up to entry `i` the log is the log of the leader that created entry `i`. */
  predicate EntryOk(h: History, log: Log, i: nat)
    requires i < |log|
  {
    && log[i].term in h.logs
    && i < |h.logs[log[i].term]|
    && log[..i + 1] == h.logs[log[i].term][..i + 1]
  }

  predicate ValidLog(h: History, log: Log) {
    forall i {:trigger EntryOk(h, log, i)} | 0 <= i < |log| :: EntryOk(h, log, i)
  }

  /** The log of term `t`: what its leader campaigned with, then entries of that term in
      subterm order. */
  predicate TermLogOk(h: History, t: nat)
    requires t in h.logs && t in h.elect
  {
    var l, e := h.logs[t], h.elect[t];
    && 1 <= t
    && |e.log| < |l|
    && e.log <= l
    && (forall i | |e.log| <= i < |l| :: l[i].term == t)
    && (forall i, j | |e.log| <= i <= j < |l| :: l[i].subterm <= l[j].subterm)
    && (forall i | 0 <= i < |e.log| :: e.log[i].term < t && e.log[i].term in e.prior)
    && ValidLog(h, e.log)
  }

  /** The election of term `t`: won by a quorum, and placed after its prior elections. */
  predicate ElectionOk(cfg: Config, h: History, t: nat)
    requires t in h.elect
  {
    var e := h.elect[t];
    && (t, e.leader) in h.camp && h.camp[(t, e.leader)] == e.log
    && e.leader in cfg.incoming + cfg.outgoing
    && Quorate(cfg, e.voters)
    && (forall x | x in e.voters :: Vote(x, t, e.leader) in h.votes)
    && t !in e.prior
    && e.prior <= h.elect.Keys
    && (forall u | u in e.prior :: u in h.elect && h.elect[u].prior < e.prior)
  }

  /** Any two elections are ordered in time. */
  predicate ElectionsOrdered(h: History) {
    forall t, u {:trigger Ordered(h, t, u)} | t in h.elect && u in h.elect :: Ordered(h, t, u)
  }

  predicate Ordered(h: History, t: nat, u: nat) {
    t in h.elect && u in h.elect ==> t == u || t in h.elect[u].prior || u in h.elect[t].prior
  }

  predicate LogsOk(cfg: Config, h: History) {
    && h.logs.Keys == h.elect.Keys
    && (forall t {:trigger TermLogOk(h, t)} | t in h.elect :: TermLogOk(h, t))
    && (forall t {:trigger ElectionOk(cfg, h, t)} | t in h.elect :: ElectionOk(cfg, h, t))
    && ElectionsOrdered(h)
  }

  // ---- What was acknowledged and what was chosen --------------------------------------------------

  /** The leader of `u` started without the first `k` entries of the leader of `t`. */
  predicate Lacks(h: History, u: nat, t: nat, k: nat)
    requires u in h.elect && t in h.logs && k <= |h.logs[t]|
  {
    !(h.logs[t][..k] <= h.elect[u].log)
  }

  /** Some later term's leader started without them. */
  ghost predicate Superseded(h: History, t: nat, k: nat)
    requires t in h.logs && k <= |h.logs[t]|
  {
    exists u {:trigger Lacks(h, u, t, k)} :: u in h.elect && u > t && Lacks(h, u, t, k)
  }

  /** Like `Superseded`, by an election before that of `t'`. */
  ghost predicate SupersededBefore(h: History, t': nat, t: nat, k: nat)
    requires t' in h.elect && t in h.logs && k <= |h.logs[t]|
  {
    exists u {:trigger Lacks(h, u, t, k)} :: u in h.elect[t'].prior && u in h.elect && u > t && Lacks(h, u, t, k)
  }

  function AckSet(h: History, t: nat, k: nat): set<NodeId> {
    set a | a in h.acks && a.term == t && a.index >= k :: a.node
  }

  /** The witness confirmed subterm `sub` of term `t`, entry `k` is not newer than that subterm,
      and one less than a quorum of the confirmed replication set acknowledged it. */
  predicate BackedIn(cfg: Config, h: History, t: nat, sub: nat, k: nat) {
    && sub >= 1
    && (t, sub) in h.confirmed
    && t in h.logs && 1 <= k <= |h.logs[t]|
    && (h.logs[t][k - 1].term == t ==> h.logs[t][k - 1].subterm <= sub)
    && |(h.confirmed[(t, sub)] - {cfg.wid}) * AckSet(h, t, k)| >= |cfg.incoming| / 2
  }

  ghost predicate Backed(cfg: Config, h: History, t: nat, k: nat) {
    exists sub {:trigger BackedIn(cfg, h, t, sub, k)} :: BackedIn(cfg, h, t, sub, k)
  }

  /** Entry `k` of term `t`'s leader is on a quorum, or stands behind the witness. */
  ghost predicate Chosen(cfg: Config, h: History, t: nat, k: nat) {
    && t in h.logs && 1 <= k <= |h.logs[t]| && h.logs[t][k - 1].term == t
    && (Quorate(cfg, AckSet(h, t, k)) || (HasWitness(cfg) && Backed(cfg, h, t, k)))
  }

  /** `u` is the earliest election of a term above `t`. */
  predicate IsFirstLater(h: History, t: nat, u: nat) {
    u in h.elect && u > t && forall u' | u' in h.elect[u].prior :: u' <= t
  }

  /** An acknowledgment past the end of the leader's log came after a later election,
      from a node that took no part in it. */
  ghost predicate Beyond(h: History, a: Ack) {
    exists u {:trigger IsFirstLater(h, a.term, u)} :: IsFirstLater(h, a.term, u) && a.node !in h.elect[u].voters
  }

  /** The acknowledged prefix is still there, or a leader the node has heard of replaced it, or
      the node had committed something else that a later leader settled. */
  ghost predicate Kept(h: History, n: Node, t: nat, k: nat)
    requires t in h.logs && k <= |h.logs[t]|
  {
    || (k <= n.persisted && k <= |n.log| && h.logs[t][..k] == n.log[..k])
    || (exists u {:trigger Lacks(h, u, t, k)} :: u in h.elect && t < u <= n.term && Lacks(h, u, t, k))
    || (k <= n.durable && Superseded(h, t, k))
  }

  ghost predicate AckOk(h: History, nodes: map<NodeId, Node>, a: Ack) {
    && a.index >= 1
    && a.term in h.logs
    && a.node in nodes
    && nodes[a.node].term >= a.term
    && (forall k {:trigger Kept(h, nodes[a.node], a.term, k)} | 1 <= k <= a.index && k <= |h.logs[a.term]| :: Kept(h, nodes[a.node], a.term, k))
    && (a.index > |h.logs[a.term]| ==> a.index <= nodes[a.node].durable && Beyond(h, a))
  }

  /** Index `k` is covered by the acknowledgment and holds an entry of the leader's own term. */
  predicate OwnEntry(h: History, a: Ack, k: nat) {
    a.term in h.logs && 1 <= k <= a.index && k <= |h.logs[a.term]| && h.logs[a.term][k - 1].term == a.term
  }

  /** A vote of an undecided election: whatever the voter had acknowledged to an earlier leader
      as its own entry, the candidate has too, unless a later leader already lacks it. */
  ghost predicate VoteCovers(h: History, b: Vote, a: Ack) {
    b.term !in h.elect && a.node == b.voter && a.term < b.term && (b.term, b.cand) in h.camp && a.term in h.logs ==>
      forall k: nat {:trigger OwnEntry(h, a, k)} | OwnEntry(h, a, k) ::
        h.logs[a.term][..k] <= h.camp[(b.term, b.cand)] || Superseded(h, a.term, k)
  }

  /** The same for a decided election; the lacking leader was then elected before it. */
  ghost predicate ElectionCovers(h: History, t: nat, a: Ack) {
    t in h.elect && a.node in h.elect[t].voters && a.term < t && a.term in h.logs ==>
      forall k: nat {:trigger OwnEntry(h, a, k)} | OwnEntry(h, a, k) ::
        h.logs[a.term][..k] <= h.elect[t].log || SupersededBefore(h, t, a.term, k)
  }

  ghost predicate CoversOk(h: History) {
    && (forall b, a {:trigger VoteCovers(h, b, a)} | b in h.votes && a in h.acks :: VoteCovers(h, b, a))
    && (forall t, a {:trigger ElectionCovers(h, t, a)} | t in h.elect && a in h.acks :: ElectionCovers(h, t, a))
  }

  // ---- Commit indices -------------------------------------------------------------------------------

  predicate Covers(h: History, c: Commit, log: Log, index: nat) {
    && c.term in h.logs
    && index <= c.index <= |h.logs[c.term]|
    && index <= |log|
    && log[..index] == h.logs[c.term][..index]
  }

  /** The first `index` entries of `log` were committed by a leader. */
  ghost predicate Committed(h: History, log: Log, index: nat) {
    index == 0 || exists c {:trigger Covers(h, c, log, index)} :: c in h.commits && Covers(h, c, log, index)
  }

  ghost predicate CommitsOk(cfg: Config, h: History) {
    forall c {:trigger Chosen(cfg, h, c.term, c.index)} | c in h.commits :: Chosen(cfg, h, c.term, c.index)
  }

  /** Commit information carried by a vote message: the entry of that index and term is committed. */
  ghost predicate CommitInfoOk(h: History, commit: nat, commitTerm: nat) {
    commit == 0 || commitTerm == 0
    || exists c {:trigger Informs(h, c, commit, commitTerm)} :: c in h.commits && Informs(h, c, commit, commitTerm)
  }

  predicate Informs(h: History, c: Commit, commit: nat, commitTerm: nat) {
    && c.term in h.logs && commit <= c.index <= |h.logs[c.term]|
    && TermAt(h.logs[c.term], commit) == commitTerm
  }

  // ---- Messages -------------------------------------------------------------------------------------

  /** `x` supported no leader later than the request's own among those elected when it was accepted. */
  predicate StillBehind(h: History, r: ReadRecord, x: NodeId) {
    forall u | u in r.elected && u > r.term && u in h.elect :: x !in h.elect[u].voters
  }

  ghost predicate MsgOk(cfg: Config, h: History, m: Msg) {
    match m
    case VoteReq(from, term, pre, lastIndex, lastTerm, commit, commitTerm) =>
      && CommitInfoOk(h, commit, commitTerm)
      && (!pre ==> (term, from) in h.camp && lastIndex == |h.camp[(term, from)]|
                   && lastTerm == LastTerm(h.camp[(term, from)]))
    case VoteResp(from, to, term, pre, reject, commit, commitTerm) =>
      && CommitInfoOk(h, commit, commitTerm)
      && (!pre && !reject ==> Vote(from, term, to) in h.votes)
    case AppendReq(from, to, term, prev, prevTerm, ents, commit) =>
      && term in h.logs
      && prev + |ents| <= |h.logs[term]|
      && ents == h.logs[term][prev..prev + |ents|]
      && prevTerm == TermAt(h.logs[term], prev)
      && commit <= |h.logs[term]| && Committed(h, h.logs[term], commit)
    case AppendResp(from, to, term, index, reject) =>
      !reject && index > 0 ==> Ack(from, term, index) in h.acks
    case Heartbeat(from, to, term, commit, ctx) =>
      && term in h.logs
      && commit <= |h.logs[term]| && Committed(h, h.logs[term], commit)
      && (commit > 0 ==> to in AckSet(h, term, commit))
      && (ctx != R.NO_CONTEXT ==> ctx in h.reqs && h.reqs[ctx].term == term)
    case HeartbeatResp(from, to, term, ctx) =>
      ctx != R.NO_CONTEXT ==> ctx in h.reqs && (h.reqs[ctx].term == term ==> StillBehind(h, h.reqs[ctx], from))
    case Snapshot(from, to, term, prefix) =>
      && term in h.logs && prefix != [] && prefix <= h.logs[term]
      && Committed(h, prefix, |prefix|)
    case ReadResp(from, to, term, index, ctx) =>
      && term in h.logs
      && index <= |h.logs[term]| && Committed(h, h.logs[term], index)
    case WitnessVoteReq(from, term, pre, lastTerm, lastSubterm, granted) =>
      !pre ==> PollOk(cfg, h, from, term, lastTerm, lastSubterm, granted)
  }

  /** What a candidate shows the witness: its last position, and one less than a quorum of votes. */
  predicate PollOk(cfg: Config, h: History, cand: NodeId, term: nat, lastTerm: nat, lastSubterm: nat, granted: set<NodeId>) {
    && (term, cand) in h.camp
    && lastTerm == LastTerm(h.camp[(term, cand)])
    && lastSubterm == LastSubterm(h.camp[(term, cand)])
    && cfg.wid !in granted
    && (forall x | x in granted :: Vote(x, term, cand) in h.votes)
    && |cfg.incoming * granted| >= |cfg.incoming| / 2
  }

  // ---- Replicas ---------------------------------------------------------------------------------------

  ghost predicate ReplicaOk(h: History, n: Node) {
    && ValidLog(h, n.log)
    && (forall i | 0 <= i < |n.log| :: n.log[i].term <= n.term)
    && n.committed <= |n.log|
    && n.persisted <= |n.log|
    && n.durable <= n.committed && n.durable <= n.persisted
    && (n.role != Leader ==> n.persisted == |n.log| && n.durable == n.committed)
    && Committed(h, n.log, n.committed)
  }

  ghost predicate CandidateOk(cfg: Config, h: History, v: NodeId, n: Node) {
    n.role == Candidate ==>
      && (n.term, v) in h.camp && h.camp[(n.term, v)] == n.log
      && n.vote == v && v in cfg.incoming + cfg.outgoing
      && (n.term in h.elect ==> h.elect[n.term].leader != v)
      && (forall x | x in GrantedSet(n.votes) :: Vote(x, n.term, v) in h.votes)
      && (HasWitness(cfg) && cfg.wid in GrantedSet(n.votes) ==> Quorate(cfg, GrantedSet(n.votes)))
  }

  /** Every vote a candidate showed the witness is still in its tally. */
  predicate PolledOk(msgs: set<Msg>, v: NodeId, n: Node) {
    n.role == Candidate ==>
      forall m | m in msgs && m.WitnessVoteReq? && !m.pre && m.from == v && m.term == n.term ::
        m.granted <= GrantedSet(n.votes)
  }

  /** An acknowledged index is backed by an acknowledgment, or for the witness by its replication set. */
  ghost predicate MatchOk(cfg: Config, h: History, t: nat, x: NodeId, k: nat) {
    if HasWitness(cfg) && x == cfg.wid then k == 0 || Backed(cfg, h, t, k)
    else k == 0 || Ack(x, t, k) in h.acks
  }

  ghost predicate LeaderOk(cfg: Config, h: History, v: NodeId, n: Node) {
    n.role == Leader ==>
      && n.term in h.logs && n.term in h.elect
      && h.elect[n.term].leader == v
      && n.log == h.logs[n.term]
      && (forall x {:trigger MatchOk(cfg, h, n.term, x, n.matched[x])} | x in n.matched :: MatchOk(cfg, h, n.term, x, n.matched[x]))
      && MatchOf(n.matched, v) <= n.persisted
      && LastTerm(n.log) == n.term && LastSubterm(n.log) == n.epoch.subterm
      && (forall c | c in h.commits && c.term == n.term :: c.index <= n.committed)
  }

  ghost predicate EpochOk(cfg: Config, h: History, v: NodeId, n: Node) {
    n.role == Leader && HasWitness(cfg) && n.term in h.logs ==>
      && n.epoch.excluded in cfg.incoming && n.epoch.excluded != v
      && (n.epoch.subterm == 0 ==> n.epoch.excluded == cfg.wid)
      && (n.epoch.contacted == n.epoch.subterm && n.epoch.subterm >= 1 ==> (n.term, n.epoch.subterm) in h.confirmed)
      && (forall s | (n.term, s) in h.confirmed :: s <= n.epoch.subterm)
      && ((n.term, n.epoch.subterm) in h.confirmed ==>
            h.confirmed[(n.term, n.epoch.subterm)] == ReplicationSet(cfg, n))
      && (n.epoch.pending != 0 ==> OutboxOk(cfg, n))
  }

  /** The append awaiting its outcome belongs to this subterm. */
  predicate OutboxOk(cfg: Config, n: Node) {
    && n.epoch.pending == n.epoch.subterm
    && n.epoch.excluded != cfg.wid
    && n.epoch.outbox.term == n.term
    && n.epoch.outbox.ents != []
    && LastTerm(n.epoch.outbox.ents) == n.term
    && LastSubterm(n.epoch.outbox.ents) == n.epoch.subterm
    && n.epoch.outbox.replicationSet == ReplicationSet(cfg, n)
  }

  ghost predicate QueueOk(h: History, n: Node) {
    n.role == Leader && n.term in h.logs ==>
      && (forall c {:trigger PendingOk(h, n, c)} | c in n.pend.status :: PendingOk(h, n, c))
      && (forall i | 0 <= i < |n.pend.queue| :: n.pend.queue[i] in n.pend.status)
      && (forall i, j | 0 <= i < j < |n.pend.queue| :: n.pend.queue[i] != n.pend.queue[j])
      && (forall i, j | 0 <= i < j < |n.pend.queue| && n.pend.queue[i] in h.reqs && n.pend.queue[j] in h.reqs ::
            h.reqs[n.pend.queue[i]].elected <= h.reqs[n.pend.queue[j]].elected)
  }

  ghost predicate PendingOk(h: History, n: Node, c: R.Context)
    requires c in n.pend.status && n.term in h.logs
  {
    && c != R.NO_CONTEXT
    && c in h.reqs && h.reqs[c].term == n.term
    && h.reqs[c].index == n.pend.status[c].index && h.reqs[c].from == n.pend.status[c].from
    && n.pend.status[c].index <= |h.logs[n.term]|
    && Committed(h, h.logs[n.term], n.pend.status[c].index)
    && (forall x | x in n.pend.status[c].acks :: StillBehind(h, h.reqs[c], x))
  }

  // ---- Votes and candidacies ---------------------------------------------------------------------------

  /** A voter never goes back behind the term it voted in, and keeps its vote in it. */
  ghost predicate VoteOk(cfg: Config, s: Cluster, b: Vote) {
    && (b.term, b.cand) in s.h.camp
    && (if HasWitness(cfg) && b.voter == cfg.wid then
          s.wit.term >= b.term && (s.wit.term == b.term ==> s.wit.vote == b.cand)
        else
          && b.voter in s.nodes
          && s.nodes[b.voter].term >= b.term
          && (s.nodes[b.voter].term == b.term ==> s.nodes[b.voter].vote == b.cand))
  }

  /** One vote per voter and term. */
  ghost predicate VotesUnique(h: History) {
    forall b, b' {:trigger b in h.votes, b' in h.votes} |
                                               b in h.votes && b' in h.votes && b.voter == b'.voter && b.term == b'.term :: b.cand == b'.cand
  }

  ghost predicate CampOk(h: History, nodes: map<NodeId, Node>, t: nat, c: NodeId)
    requires (t, c) in h.camp
  {
    && t >= 1
    && c in nodes && nodes[c].term >= t
    && ValidLog(h, h.camp[(t, c)])
    && (forall i | 0 <= i < |h.camp[(t, c)]| :: h.camp[(t, c)][i].term < t)
  }

  predicate WinnerOk(h: History, nodes: map<NodeId, Node>, t: nat)
    requires t in h.elect
  {
    && h.elect[t].leader in nodes
    && nodes[h.elect[t].leader].term >= t
  }

  // ---- The witness -----------------------------------------------------------------------------------------

  predicate AtMost(t: nat, s: nat, t': nat, s': nat) {
    t < t' || (t == t' && s <= s')
  }

  /** The confirmed position is behind the held one; at the same position the sets agree. */
  predicate ConfirmedBehind(h: History, t: nat, s: nat, heldTerm: nat, heldSubterm: nat, heldSet: set<NodeId>)
    requires (t, s) in h.confirmed
  {
    && AtMost(t, s, heldTerm, heldSubterm)
    && (t == heldTerm && s == heldSubterm ==> heldSet == h.confirmed[(t, s)])
  }

  /** A confirmed replication set holds the witness and all regular voters but one. */
  ghost predicate SetOk(cfg: Config, r: set<NodeId>) {
    cfg.wid in r && r <= cfg.incoming && |r| == |cfg.incoming| - 1
  }

  ghost predicate ConfirmedOk(cfg: Config, s: Cluster, t: nat, sub: nat)
    requires (t, sub) in s.h.confirmed
  {
    && t <= s.wit.term && t in s.h.elect
    && SetOk(cfg, s.h.confirmed[(t, sub)])
    && ConfirmedBehind(s.h, t, sub, s.wit.lastTerm, s.wit.lastSubterm, s.wit.replicationSet)
  }

  ghost predicate WitnessOk(cfg: Config, s: Cluster) {
    && s.wit.lastTerm <= s.wit.term
    && (forall t, sub {:trigger ConfirmedOk(cfg, s, t, sub)} | (t, sub) in s.h.confirmed :: ConfirmedOk(cfg, s, t, sub))
    && (!HasWitness(cfg) ==> s.h.confirmed == map[] && s.h.grants == {})
  }

  /** A granted witness vote: the rule held, and every earlier confirmation is accounted for. */
  ghost predicate GrantOk(cfg: Config, h: History, g: WitnessGrant) {
    && PollOk(cfg, h, g.cand, g.term, g.lastTerm, g.lastSubterm, g.granted)
    && (|| g.lastTerm > g.heldTerm
        || (g.lastTerm == g.heldTerm && g.lastSubterm > g.heldSubterm)
        || (g.lastTerm == g.heldTerm && g.lastSubterm == g.heldSubterm && (g.heldSet == {} || g.granted <= g.heldSet)))
    && (forall t, sub {:trigger ConfirmedBehind(h, t, sub, g.heldTerm, g.heldSubterm, g.heldSet)}
          | (t, sub) in h.confirmed && t < g.term ::
          ConfirmedBehind(h, t, sub, g.heldTerm, g.heldSubterm, g.heldSet))
  }

  /** The request behind a granted witness vote. */
  function PollOf(g: WitnessGrant): Msg {
    WitnessVoteReq(g.cand, g.term, false, g.lastTerm, g.lastSubterm, g.granted)
  }

  ghost predicate GrantsOk(cfg: Config, s: Cluster) {
    && (forall g {:trigger GrantOk(cfg, s.h, g)} | g in s.h.grants :: GrantOk(cfg, s.h, g) && g.term <= s.wit.term && PollOf(g) in s.msgs)
    && (HasWitness(cfg) ==>
          && (forall b {:trigger HasGrant(s.h, b)} | b in s.h.votes && b.voter == cfg.wid :: HasGrant(s.h, b))
          && (forall t {:trigger WonByGrant(s.h, t)} | t in s.h.elect && cfg.wid in s.h.elect[t].voters :: WonByGrant(s.h, t)))
  }

  ghost predicate HasGrant(h: History, b: Vote) {
    exists g {:trigger g in h.grants} :: g in h.grants && g.term == b.term && g.cand == b.cand
  }

  ghost predicate WonByGrant(h: History, t: nat)
    requires t in h.elect
  {
    exists g {:trigger g in h.grants} :: g in h.grants && g.term == t && g.cand == h.elect[t].leader && g.granted <= h.elect[t].voters
  }

  // ---- Reads ------------------------------------------------------------------------------------------------

  predicate ReadOk(h: History, c: R.Context)
    requires c in h.reqs
  {
    && h.reqs[c].elected <= h.elect.Keys
    && ((forall u | u in h.reqs[c].elected :: u <= h.reqs[c].term) ==> h.reqs[c].high <= h.reqs[c].index)
  }

  /** Read quorums share a regular voter with every election held: by their sizes, or because the
      witness's vote decided none of them. */
  predicate ReadsCovered(cfg: Config, h: History) {
    ReadsSafe(cfg) || forall t | t in h.elect :: cfg.wid !in h.elect[t].voters
  }

  ghost predicate ReadsOk(h: History) {
    forall c {:trigger ReadOk(h, c)} | c in h.reqs :: ReadOk(h, c)
  }

  // ---- All together --------------------------------------------------------------------------------------------

  ghost predicate NodeOk(cfg: Config, h: History, v: NodeId, n: Node) {
    && ReplicaOk(h, n)
    && CandidateOk(cfg, h, v, n)
    && LeaderOk(cfg, h, v, n)
    && EpochOk(cfg, h, v, n)
    && QueueOk(h, n)
  }

  ghost predicate Inv(cfg: Config, s: Cluster) {
    && s.nodes.Keys == cfg.nodes
    && LogsOk(cfg, s.h)
    && (forall a {:trigger AckOk(s.h, s.nodes, a)} | a in s.h.acks :: AckOk(s.h, s.nodes, a))
    && CoversOk(s.h)
    && CommitsOk(cfg, s.h)
    && (forall v {:trigger NodeOk(cfg, s.h, v, s.nodes[v])} | v in s.nodes :: NodeOk(cfg, s.h, v, s.nodes[v]))
    && (forall v {:trigger PolledOk(s.msgs, v, s.nodes[v])} | v in s.nodes :: PolledOk(s.msgs, v, s.nodes[v]))
    && (forall m {:trigger MsgOk(cfg, s.h, m)} | m in s.msgs :: MsgOk(cfg, s.h, m))
    && (forall b {:trigger VoteOk(cfg, s, b)} | b in s.h.votes :: VoteOk(cfg, s, b))
    && VotesUnique(s.h)
    && (forall t, c {:trigger CampOk(s.h, s.nodes, t, c)} | (t, c) in s.h.camp :: CampOk(s.h, s.nodes, t, c))
    && (forall t {:trigger WinnerOk(s.h, s.nodes, t)} | t in s.h.elect :: WinnerOk(s.h, s.nodes, t))
    && WitnessOk(cfg, s)
    && GrantsOk(cfg, s)
    && ReadsOk(s.h)
  }

  // ---- One part of the invariant at a time -------------------------------------------------------------------------

  lemma OfNode(cfg: Config, s: Cluster, v: NodeId)
    requires Inv(cfg, s) && v in s.nodes
    ensures NodeOk(cfg, s.h, v, s.nodes[v]) && PolledOk(s.msgs, v, s.nodes[v]) && v in cfg.nodes
  {
    hide LogsOk, AckOk, CoversOk, CommitsOk, NodeOk, PolledOk, MsgOk, VoteOk, VotesUnique, CampOk, WinnerOk,
      WitnessOk, GrantsOk, ReadsOk;
  }

  lemma OfMsg(cfg: Config, s: Cluster, m: Msg)
    requires Inv(cfg, s) && m in s.msgs
    ensures MsgOk(cfg, s.h, m)
  {
    hide LogsOk, AckOk, CoversOk, CommitsOk, NodeOk, PolledOk, MsgOk, VoteOk, VotesUnique, CampOk, WinnerOk,
      WitnessOk, GrantsOk, ReadsOk;
  }

  lemma OfAck(cfg: Config, s: Cluster, a: Ack)
    requires Inv(cfg, s) && a in s.h.acks
    ensures AckOk(s.h, s.nodes, a)
  {
    hide LogsOk, AckOk, CoversOk, CommitsOk, NodeOk, PolledOk, MsgOk, VoteOk, VotesUnique, CampOk, WinnerOk,
      WitnessOk, GrantsOk, ReadsOk;
  }

  lemma OfVote(cfg: Config, s: Cluster, b: Vote)
    requires Inv(cfg, s) && b in s.h.votes
    ensures VoteOk(cfg, s, b) && CampOk(s.h, s.nodes, b.term, b.cand)
  {
    hide LogsOk, AckOk, CoversOk, CommitsOk, NodeOk, PolledOk, MsgOk, VotesUnique, CampOk, WinnerOk,
      WitnessOk, GrantsOk, ReadsOk;
    assert VoteOk(cfg, s, b);
  }

  lemma OfCamp(cfg: Config, s: Cluster, t: nat, c: NodeId)
    requires Inv(cfg, s) && (t, c) in s.h.camp
    ensures CampOk(s.h, s.nodes, t, c)
  {
    hide LogsOk, AckOk, CoversOk, CommitsOk, NodeOk, PolledOk, MsgOk, VoteOk, VotesUnique, CampOk, WinnerOk,
      WitnessOk, GrantsOk, ReadsOk;
  }

  lemma OfWinner(cfg: Config, s: Cluster, t: nat)
    requires Inv(cfg, s) && t in s.h.elect
    ensures WinnerOk(s.h, s.nodes, t)
  {
    hide LogsOk, AckOk, CoversOk, CommitsOk, NodeOk, PolledOk, MsgOk, VoteOk, VotesUnique, CampOk, WinnerOk,
      WitnessOk, GrantsOk, ReadsOk;
  }

  lemma OfHistory(cfg: Config, s: Cluster)
    requires Inv(cfg, s)
    ensures LogsOk(cfg, s.h) && CoversOk(s.h) && CommitsOk(cfg, s.h) && VotesUnique(s.h)
    ensures WitnessOk(cfg, s) && GrantsOk(cfg, s) && ReadsOk(s.h)
    ensures s.nodes.Keys == cfg.nodes
  {
    hide LogsOk, AckOk, CoversOk, CommitsOk, NodeOk, PolledOk, MsgOk, VoteOk, VotesUnique, CampOk, WinnerOk,
      WitnessOk, GrantsOk, ReadsOk;
  }

  lemma Assembled(cfg: Config, s: Cluster)
    requires s.nodes.Keys == cfg.nodes
    requires LogsOk(cfg, s.h) && CoversOk(s.h) && CommitsOk(cfg, s.h) && VotesUnique(s.h)
    requires WitnessOk(cfg, s) && GrantsOk(cfg, s) && ReadsOk(s.h)
    requires forall a {:trigger AckOk(s.h, s.nodes, a)} | a in s.h.acks :: AckOk(s.h, s.nodes, a)
    requires forall v {:trigger NodeOk(cfg, s.h, v, s.nodes[v])} | v in s.nodes :: NodeOk(cfg, s.h, v, s.nodes[v])
    requires forall v {:trigger PolledOk(s.msgs, v, s.nodes[v])} | v in s.nodes :: PolledOk(s.msgs, v, s.nodes[v])
    requires forall m {:trigger MsgOk(cfg, s.h, m)} | m in s.msgs :: MsgOk(cfg, s.h, m)
    requires forall b {:trigger VoteOk(cfg, s, b)} | b in s.h.votes :: VoteOk(cfg, s, b)
    requires forall t, c {:trigger CampOk(s.h, s.nodes, t, c)} | (t, c) in s.h.camp :: CampOk(s.h, s.nodes, t, c)
    requires forall t {:trigger WinnerOk(s.h, s.nodes, t)} | t in s.h.elect :: WinnerOk(s.h, s.nodes, t)
    ensures Inv(cfg, s)
  {
    hide LogsOk, AckOk, CoversOk, CommitsOk, NodeOk, PolledOk, MsgOk, VoteOk, VotesUnique, CampOk, WinnerOk,
      WitnessOk, GrantsOk, ReadsOk;
  }
}
