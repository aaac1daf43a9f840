/** What a replica or the witness answers, told from the message and what it holds: both when it agrees and when
    it refuses, and what it has learned afterwards. */
module ClusterAnswers {
  import opened Quorum
  import opened RaftLogs
  import opened ClusterState
  import opened ClusterInv
  import opened ClusterHistory
  import opened ClusterAckSteps
  import opened ClusterSafety
  import opened ClusterProgress

  // ---- Votes --------------------------------------------------------------------------------------------------

  /** The candidate's log ends in a later term, or in the same and is no shorter. */
  predicate NotBehind(n: Node, m: Msg)
    requires m.VoteReq?
  {
    m.lastTerm > LastTerm(n.log) || (m.lastTerm == LastTerm(n.log) && m.lastIndex >= |n.log|)
  }

  /** The vote is the candidate's already, or nobody's while no leader is known. */
  predicate FreeFor(n: Node, m: Msg)
    requires m.VoteReq?
  {
    n.vote == m.from || (n.vote == INVALID_ID && n.lead == INVALID_ID)
  }

  /** A vote is granted if and only if it is free for the candidate and the candidate's log is not behind, unless
      the own priority forbids it. It is then given away; otherwise it is kept. */
  lemma VoteAnswered(cfg: Config, s: Cluster, v: NodeId, m: Msg, deny: bool) returns (resp: Msg)
    requires Enabled(cfg, s, RecvVote(v, m, deny))
    ensures var n, t := s.nodes[v], Apply(cfg, s, RecvVote(v, m, deny));
            && t.msgs == s.msgs + {resp} && resp.VoteResp? && resp.from == v && resp.to == m.from && !resp.pre
            && (!resp.reject <==> !deny && NotBehind(n, m) && FreeFor(n, m))
            && resp.term == n.term && t.nodes[v].vote == (if resp.reject then n.vote else m.from)
  {
    resp := VoteAnswer(v, s.nodes[v], m, CanVote(s.nodes[v], m) && !deny);
  }

  /** A pre-vote for a later term needs no free vote; one for an earlier term is refused. */
  lemma PreVoteAnswered(cfg: Config, s: Cluster, v: NodeId, m: Msg, deny: bool) returns (resp: Msg)
    requires Enabled(cfg, s, RecvPreVote(v, m, deny))
    ensures var n, t := s.nodes[v], Apply(cfg, s, RecvPreVote(v, m, deny));
            && t.msgs == s.msgs + {resp} && resp.VoteResp? && resp.from == v && resp.to == m.from && resp.pre
            && (!resp.reject <==> !deny && NotBehind(n, m) && (m.term > n.term || (m.term == n.term && FreeFor(n, m))))
            && resp.term == (if resp.reject then n.term else m.term)
  {
    var n := s.nodes[v];
    resp := if m.term < n.term then VoteResp(v, m.from, n.term, true, true, 0, 0)
    else VoteAnswer(v, n, m, CanVote(n, m) && !deny);
  }

  /** The witness grants a vote if and only if it is free, counting a later term as free, and the log it is shown
      ends no earlier than what it holds, with the voters inside its replication set at the same position. */
  lemma WitnessAnswered(cfg: Config, s: Cluster, m: Msg) returns (resp: Msg)
    requires Enabled(cfg, s, WitnessVote(m))
    ensures var w, t := s.wit, Apply(cfg, s, WitnessVote(m));
            && t.msgs == s.msgs + {resp} && resp.VoteResp? && resp.from == cfg.wid && resp.to == m.from
            && resp.pre == m.pre && resp.term == m.term
            && (!resp.reject <==>
                && (m.term > w.term || w.vote == INVALID_ID || w.vote == m.from)
                && (|| Later(m.lastTerm, m.lastSubterm, w.lastTerm, w.lastSubterm)
                    || (m.lastTerm == w.lastTerm && m.lastSubterm == w.lastSubterm
                        && (w.replicationSet == {} || m.granted <= w.replicationSet))))
            && t.wit == (if m.pre then w
                         else w.(term := m.term,
                              vote := if !resp.reject then m.from else if m.term > w.term then INVALID_ID else w.vote))
  {
    var grant := W.Grants(s.wit, m.from, m.term, m.pre, m.lastTerm, m.lastSubterm, m.granted);
    resp := VoteResp(cfg.wid, m.from, m.term, m.pre, !grant, 0, 0);
  }

  /** An append that reaches the witness in time leaves it with the position and the replication set of the
      leader's subterm, and the shortcut open. One that comes too late tells the leader of the later term. */
  lemma WitnessStores(cfg: Config, run: seq<Cluster>, i: nat, v: NodeId)
    requires ValidConfig(cfg) && IsRun(cfg, run) && i < |run| && Enabled(cfg, run[i], WitnessWrite(v))
    ensures var s, n, t := run[i], run[i].nodes[v], Apply(cfg, run[i], WitnessWrite(v));
            && t.nodes[v].epoch.pending == 0
            && (s.wit.term <= n.term ==>
                  && t.wit.term == n.term && t.wit.lastTerm == n.term && t.wit.lastSubterm == n.epoch.subterm
                  && t.wit.replicationSet == cfg.incoming - {n.epoch.excluded}
                  && t.wit.commit >= s.wit.commit && t.wit.commit >= n.epoch.outbox.commit
                  && t.nodes[v].epoch.contacted == n.epoch.subterm)
            && (s.wit.term > n.term ==>
                  && t.wit == s.wit && t.nodes[v].epoch.contacted == n.epoch.contacted
                  && AppendResp(cfg.wid, v, s.wit.term, 0, true) in t.msgs)
  {
    hide IsRun, Inv;
    RunInv(cfg, run, i);
    OfNode(cfg, run[i], v);
    hide ReplicaOk, QueueOk, CandidateOk;
  }

  /** After a failed write the witness may be asked again. */
  lemma WitnessRejected(cfg: Config, s: Cluster, v: NodeId)
    requires Enabled(cfg, s, WitnessReject(v))
    ensures var n, t := s.nodes[v], Apply(cfg, s, WitnessReject(v));
            && t.nodes == s.nodes[v := t.nodes[v]] && t.msgs == s.msgs && t.wit == s.wit
            && t.nodes[v].epoch.pending == 0 && t.nodes[v].epoch.contacted == n.epoch.contacted
            && t.nodes[v].matched == n.matched && t.nodes[v].log == n.log && t.nodes[v].committed == n.committed
  {
  }

  // ---- Commit indices that come with other messages ---------------------------------------------------------------

  /** The commit index of a message that names an entry: taken over if the log holds that entry, and never back. */
  predicate Learned(n: Node, n': Node, commit: nat, commitTerm: nat) {
    && n'.committed >= n.committed
    && (1 <= commit <= |n.log| && commitTerm == n.log[commit - 1].term && commitTerm >= 1 && n.role != Leader ==> n'.committed >= commit)
    && (n'.committed > n.committed ==> n'.committed == commit <= |n.log| && commitTerm == n.log[commit - 1].term)
    && n'.log == n.log
  }

  lemma CommitLearned(cfg: Config, s: Cluster, a: Action)
    requires Enabled(cfg, s, a) && (a.CommitFromVoteResp? || a.RecvReadResp?)
    ensures var n, n' := s.nodes[a.v], Apply(cfg, s, a).nodes[a.v];
            if a.CommitFromVoteResp? then Learned(n, n', a.m.commit, a.m.commitTerm) else Learned(n, n', a.m.index, a.m.term)
  {
  }

  /** So does a voter that refuses; one that grants learns nothing. */
  lemma RefusalLearns(cfg: Config, s: Cluster, a: Action)
    requires Enabled(cfg, s, a) && (a.RecvVote? || a.RecvPreVote?)
    ensures var n, t := s.nodes[a.v], Apply(cfg, s, a);
            if a.deny || !NotBehind(n, a.m) || !(FreeFor(n, a.m) || (a.RecvPreVote? && a.m.term > n.term))
            then a.m.term >= n.term ==> Learned(n, t.nodes[a.v], a.m.commit, a.m.commitTerm)
            else t.nodes[a.v].committed == n.committed
  {
  }

  // ---- Appends, heartbeats and snapshots ---------------------------------------------------------------------------

  /** An append is refused if and only if the log does not hold the entry before it. An accepted one leaves the
      entries in the log, and everything committed that the message tells of, up to the acknowledged index. */
  lemma AppendAnswered(cfg: Config, run: seq<Cluster>, i: nat, v: NodeId, m: Msg) returns (resp: Msg)
    requires ValidConfig(cfg) && IsRun(cfg, run) && i < |run| && Enabled(cfg, run[i], RecvAppend(v, m))
    ensures var n, t := run[i].nodes[v], Apply(cfg, run[i], RecvAppend(v, m));
            && t.msgs == run[i].msgs + {resp} && resp.AppendResp? && resp.from == v && resp.to == m.from && resp.term == m.term
            && (resp.reject <==> m.prev >= n.committed && (m.prev > |n.log| || TermAt(n.log, m.prev) != m.prevTerm))
            && (resp.reject ==> t.nodes[v].log == n.log && t.nodes[v].committed == n.committed)
            && (!resp.reject ==> t.nodes[v].committed >= Min(m.commit, resp.index) && resp.index >= n.committed)
            && (!resp.reject && m.prev >= n.committed ==>
                  && resp.index == m.prev + |m.ents| <= |t.nodes[v].log|
                  && t.nodes[v].log[m.prev..resp.index] == m.ents && t.nodes[v].log[..m.prev] == n.log[..m.prev])
            && t.nodes[v].lead == m.from && t.nodes[v].role == Follower
  {
    hide IsRun, Inv, Spliced;
    var s := run[i];
    RunInv(cfg, run, i);
    var n := s.nodes[v];
    var f := Following(n, m.from);
    var ok := m.prev < n.committed || (m.prev <= |n.log| && TermAt(n.log, m.prev) == m.prevTerm);
    resp := AppendResp(v, m.from, m.term,
                       if !ok then m.prev else if m.prev < n.committed then n.committed else m.prev + |m.ents|, !ok);
    if ok && m.prev >= n.committed {
      SplicedHolds(cfg, s, v, m);
    }
  }

  lemma SplicedHolds(cfg: Config, s: Cluster, v: NodeId, m: Msg)
    requires ValidConfig(cfg) && Inv(cfg, s) && v in s.nodes && m in s.msgs && m.AppendReq?
    requires s.nodes[v].committed <= m.prev <= |s.nodes[v].log| && TermAt(s.nodes[v].log, m.prev) == m.prevTerm
    ensures var log, p := Spliced(s.nodes[v].log, m.prev, m.ents), m.prev + |m.ents|;
            p <= |log| && log[m.prev..p] == m.ents && log[..m.prev] == s.nodes[v].log[..m.prev]
  {
    hide Inv, Spliced;
    OfNode(cfg, s, v);
    OfMsg(cfg, s, m);
    OfHistory(cfg, s);
    hide CoversOk, CommitsOk, WitnessOk, GrantsOk, EpochOk, CandidateOk, QueueOk, LogsOk, Committed;
    AcceptedFacts(cfg, s.h, s.nodes[v], m);
    SplicedShape(cfg, s.h, s.nodes[v].log, m.term, m.prev, m.ents);
    var log, p, l := Spliced(s.nodes[v].log, m.prev, m.ents), m.prev + |m.ents|, s.h.logs[m.term];
    assert log[..p][m.prev..p] == log[m.prev..p] && l[..p][m.prev..p] == l[m.prev..p];
    assert log[..p][..m.prev] == log[..m.prev] && l[..p][..m.prev] == l[..m.prev];
  }

  /** A heartbeat's commit index is taken over as far as the log reaches, and its context is sent back. */
  lemma HeartbeatAnswered(cfg: Config, s: Cluster, v: NodeId, m: Msg)
    requires Enabled(cfg, s, RecvHeartbeat(v, m))
    ensures var n, t := s.nodes[v], Apply(cfg, s, RecvHeartbeat(v, m));
            && t.msgs == s.msgs + {HeartbeatResp(v, m.from, m.term, m.ctx)}
            && t.nodes[v].committed >= n.committed && t.nodes[v].committed >= Min(m.commit, |n.log|)
            && t.nodes[v].committed in {n.committed, m.commit, |n.log|} && t.nodes[v].log == n.log
            && t.nodes[v].lead == m.from && t.nodes[v].role == Follower
  {
  }

  /** After a snapshot the log starts with what it covers, all of it committed and acknowledged. */
  lemma SnapshotAnswered(cfg: Config, run: seq<Cluster>, i: nat, v: NodeId, m: Msg) returns (index: nat)
    requires ValidConfig(cfg) && IsRun(cfg, run) && i < |run| && Enabled(cfg, run[i], RecvSnapshot(v, m))
    ensures var t := Apply(cfg, run[i], RecvSnapshot(v, m));
            && t.msgs == run[i].msgs + {AppendResp(v, m.from, m.term, index, false)} && index >= |m.prefix|
            && m.prefix <= t.nodes[v].log && t.nodes[v].committed >= |m.prefix| && index == t.nodes[v].committed
            && t.nodes[v].lead == m.from && t.nodes[v].role == Follower
  {
    hide IsRun, Inv;
    RunInv(cfg, run, i);
    var n := run[i].nodes[v];
    if |m.prefix| < n.committed || TermAt(n.log, |m.prefix|) == LastTerm(m.prefix) {
      PrefixHeld(cfg, run[i], v, m);
    }
    index := HandleSnapshot(Following(n, m.from), m.prefix).1;
  }

  lemma PrefixHeld(cfg: Config, s: Cluster, v: NodeId, m: Msg)
    requires ValidConfig(cfg) && Inv(cfg, s) && v in s.nodes && m in s.msgs && m.Snapshot?
    requires |m.prefix| < s.nodes[v].committed || TermAt(s.nodes[v].log, |m.prefix|) == LastTerm(m.prefix)
    ensures m.prefix <= s.nodes[v].log
  {
    hide Inv;
    OfNode(cfg, s, v);
    OfMsg(cfg, s, m);
    OfHistory(cfg, s);
    hide CoversOk, CommitsOk, WitnessOk, GrantsOk, EpochOk, CandidateOk, QueueOk;
    var n, k := s.nodes[v], |m.prefix|;
    assert m.prefix[..k] == m.prefix;
    if k < n.committed {
      CommittedShorter(s.h, n.log, n.committed, k);
      CommittedAgree(cfg, s, n.log, m.prefix, k);
    } else {
      TermLogValid(cfg, s.h, m.term);
      assert m.prefix == s.h.logs[m.term][..k];
      PrefixValid(s.h, s.h.logs[m.term], k);
      TermPositive(cfg, s.h, m.prefix, k - 1);
      LogMatching(s.h, n.log, m.prefix, k);
    }
  }

  // ---- Restarts ---------------------------------------------------------------------------------------------------

  /** A restarted replica has its term and vote, the stored part of its log, and of the commit index what it
      asks for between the stored one and the last known; it follows nobody. */
  lemma RestartsFrom(cfg: Config, run: seq<Cluster>, i: nat, v: NodeId, commit: nat)
    requires ValidConfig(cfg) && IsRun(cfg, run) && i < |run| && Enabled(cfg, run[i], Restart(v, commit))
    ensures var n, t := run[i].nodes[v], Apply(cfg, run[i], Restart(v, commit));
            && t.nodes == run[i].nodes[v := t.nodes[v]] && t.msgs == run[i].msgs && n.persisted <= |n.log|
            && t.nodes[v].term == n.term && t.nodes[v].vote == n.vote && t.nodes[v].role == Follower && t.nodes[v].lead == INVALID_ID
            && t.nodes[v].log == n.log[..n.persisted] && t.nodes[v].committed == commit <= n.persisted
            && t.nodes[v].readStates == {} && t.nodes[v].matched == map[] && t.nodes[v].votes == map[]
  {
    hide IsRun, Inv;
    RunInv(cfg, run, i);
    OfNode(cfg, run[i], v);
  }

  // ---- The answer to a leader of an earlier term --------------------------------------------------------------------

  /** A leader that hears back from a later term gives up. */
  lemma StaleLeaderLearns(cfg: Config, s: Cluster, u: NodeId, m: Msg)
    requires Enabled(cfg, s, RejectStale(u, m)) && m.from in s.nodes && m.from != u && s.nodes[m.from].term < s.nodes[u].term
    ensures var t, resp := Apply(cfg, s, RejectStale(u, m)), AppendResp(u, m.from, s.nodes[u].term, 0, false);
            && t == s.(msgs := s.msgs + {resp}) && Enabled(cfg, t, Observe(m.from, resp))
            && var n := Apply(cfg, t, Observe(m.from, resp)).nodes[m.from];
            n.term == s.nodes[u].term && n.role == Follower && n.log == s.nodes[m.from].log && n.committed == s.nodes[m.from].committed
  {
    assert s.nodes[u := s.nodes[u]] == s.nodes;
  }
}
