/** The actions that acknowledge entries to a leader keep the invariant. */
module ClusterAckSteps {
  import opened Quorum
  import opened RaftLogs
  import opened ClusterState
  import opened ClusterInv
  import opened ClusterHistory
  import opened ClusterGrowth
  import opened ClusterQuietSteps

  /** A step whose only trace in the history is one acknowledgment by the mover. */
  lemma AckStep(cfg: Config, s: Cluster, v: NodeId, n': Node, out: set<Msg>, index: nat)
    requires ValidConfig(cfg) && Inv(cfg, s) && v in s.nodes && index > 0
    requires n'.term == s.nodes[v].term && n'.vote == s.nodes[v].vote && n'.term in s.h.logs
    requires NodeOk(cfg, WithAck(s.h, v, n'.term, index), v, n')
    requires PolledOk(s.msgs + out, v, n')
    requires forall m | m in out :: !m.WitnessVoteReq? && MsgOk(cfg, WithAck(s.h, v, n'.term, index), m)
    requires forall a | a in WithAck(s.h, v, n'.term, index).acks && a.node == v ::
               AckOk(WithAck(s.h, v, n'.term, index), s.nodes[v := n'], a)
    ensures Inv(cfg, Put(s, v, n', out, WithAck(s.h, v, n'.term, index)))
  {
    var h' := WithAck(s.h, v, n'.term, index);
    var s' := Put(s, v, n', out, h');
    hide Inv, NodeOk, MsgOk, AckOk, LogsOk, CommitsOk, GrantsOk, WitnessOk, ReadsOk, PolledOk;
    OfHistory(cfg, s);
    assert Moves(s, s', v);
    LogsStay(cfg, s.h, h');
    OthersStay(cfg, s, s', v);
    OldStay(cfg, s, s', v);
    CommitsStay(cfg, s.h, h');
    WitnessStays(cfg, s, s');
    GrantsStay(cfg, s, s');
    ReadsStay(s.h, h');
    forall a | a in h'.acks ensures AckOk(h', s'.nodes, a) {
      if a.node != v {
        OfAck(cfg, s, a);
        OtherAckStays(cfg, s, s', v, a);
      }
    }
    NewAckCovers(cfg, s, v, h', Ack(v, n'.term, index));
    Assembled(cfg, s');
  }

  lemma OtherAckStays(cfg: Config, s: Cluster, s': Cluster, v: NodeId, a: Ack)
    requires Inv(cfg, s) && Moves(s, s', v) && a in s.h.acks && a.node != v && s'.h.logs == s.h.logs
    ensures AckOk(s'.h, s'.nodes, a)
  {
    hide Inv;
    OfAck(cfg, s, a);
    SelfKeeps(cfg, s, a.node);
    AckStays(s.h, s'.h, s.nodes, s'.nodes, a);
  }

  /** The mover took part in no election after its current term, so nothing has to be covered yet. */
  lemma NewAckCovers(cfg: Config, s: Cluster, v: NodeId, h': History, a': Ack)
    requires ValidConfig(cfg) && Inv(cfg, s) && v in s.nodes && a'.node == v && a'.term == s.nodes[v].term
    requires Grows(s.h, h') && h' == s.h.(acks := s.h.acks + {a'})
    ensures CoversOk(h')
  {
    hide Inv;
    OfHistory(cfg, s);
    hide LogsOk, WitnessOk, GrantsOk, CommitsOk, ReadsOk;
    CoversStay(cfg, s, h');
    forall b, a | b in h'.votes && a in h'.acks ensures VoteCovers(h', b, a) {
      OfVote(cfg, s, b);
    }
    forall t, a | t in h'.elect && a in h'.acks ensures ElectionCovers(h', t, a) {
      if a == a' && a'.term < t { NotAVoter(cfg, s, v, t); }
    }
  }

  // ---- Acknowledging what is committed --------------------------------------------------------------

  lemma {:induction false} FirstLaterExists(cfg: Config, h: History, t: nat, u: nat) returns (f: nat)
    requires LogsOk(cfg, h) && u in h.elect && u > t
    ensures IsFirstLater(h, t, f)
    decreases |h.elect[u].prior|
  {
    if u' :| u' in h.elect[u].prior && u' > t {
      PriorShrinks(cfg, h, u, u');
      f := FirstLaterExists(cfg, h, t, u');
    } else {
      f := u;
    }
  }

  /** A leader of an earlier or the same term committed `log[..k]`: the leader of `t` has it. */
  lemma CommittedInTerm(cfg: Config, s: Cluster, t: nat, c: Commit, log: Log, k: nat)
    requires ValidConfig(cfg) && Inv(cfg, s) && t in s.h.logs
    requires c in s.h.commits && Covers(s.h, c, log, k) && c.term <= t
    ensures k <= |s.h.logs[t]| && s.h.logs[t][..k] == log[..k]
  {
    hide Inv;
    OfHistory(cfg, s);
    assert Chosen(cfg, s.h, c.term, c.index);
    if c.term < t {
      LeaderCompleteness(cfg, s, c.term, c.index, t);
      assert TermLogOk(s.h, t);
      assert s.h.logs[c.term][..c.index][..k] == s.h.logs[c.term][..k];
      assert s.h.logs[t][..c.index] == s.h.logs[c.term][..c.index];
      assert s.h.logs[t][..c.index][..k] == s.h.logs[t][..k];
    }
  }

  /** What a replica has committed it may acknowledge to any leader of its own term. */
  lemma CommittedKept(cfg: Config, s: Cluster, n: Node, t: nat, k: nat)
    requires ValidConfig(cfg) && Inv(cfg, s) && t in s.h.logs
    requires ReplicaOk(s.h, n) && n.role != Leader && n.term == t
    requires 1 <= k <= n.committed && k <= |s.h.logs[t]|
    ensures Kept(s.h, n, t, k)
  {
    hide Inv;
    OfHistory(cfg, s);
    var c :| c in s.h.commits && Covers(s.h, c, n.log, n.committed);
    assert n.log[..n.committed][..k] == n.log[..k];
    assert s.h.logs[c.term][..n.committed][..k] == s.h.logs[c.term][..k];
    assert Covers(s.h, c, n.log, k);
    if c.term <= t {
      CommittedInTerm(cfg, s, t, c, n.log, k);
    } else if !Lacks(s.h, c.term, t, k) {
      assert TermLogOk(s.h, c.term);
      assert s.h.logs[c.term][..k] == s.h.logs[t][..k];
    }
  }

  lemma CommittedAck(cfg: Config, s: Cluster, v: NodeId, n: Node, t: nat)
    requires ValidConfig(cfg) && Inv(cfg, s) && t in s.h.logs && v in s.nodes && s.nodes[v].term == t
    requires ReplicaOk(s.h, n) && n.role != Leader && n.term == t && n.committed > 0
    ensures AckOk(WithAck(s.h, v, t, n.committed), s.nodes[v := n], Ack(v, t, n.committed))
  {
    hide Inv;
    OfHistory(cfg, s);
    var h' := WithAck(s.h, v, t, n.committed);
    forall k | 1 <= k <= n.committed && k <= |h'.logs[t]| ensures Kept(h', n, t, k) {
      CommittedKept(cfg, s, n, t, k);
      KeptStays(s.h, h', n, n, t, k);
    }
    if n.committed > |h'.logs[t]| {
      var c :| c in s.h.commits && Covers(s.h, c, n.log, n.committed);
      if c.term <= t { CommittedInTerm(cfg, s, t, c, n.log, n.committed); }
      assert Chosen(cfg, s.h, c.term, c.index);
      var u := FirstLaterExists(cfg, s.h, t, c.term);
      NotAVoter(cfg, s, v, u);
      assert IsFirstLater(h', t, u);
    }
  }

  /** Acknowledging the commit index, with the log kept. */
  lemma CommittedAckStep(cfg: Config, s: Cluster, v: NodeId, n': Node, to: NodeId)
    requires ValidConfig(cfg) && Inv(cfg, s) && v in s.nodes && n'.committed > 0
    requires n'.term == s.nodes[v].term && n'.vote == s.nodes[v].vote && n'.term in s.h.logs
    requires Keeps(s.nodes[v], n') && NodeOk(cfg, s.h, v, n') && n'.role == Follower
    ensures Inv(cfg, Put(s, v, n', {AppendResp(v, to, n'.term, n'.committed, false)},
                         WithAck(s.h, v, n'.term, n'.committed)))
  {
    hide Inv;
    var h' := WithAck(s.h, v, n'.term, n'.committed);
    ReplicaStays(s.h, h', n');
    CommittedAck(cfg, s, v, n', n'.term);
    forall a | a in h'.acks && a.node == v ensures AckOk(h', s.nodes[v := n'], a) {
      if a in s.h.acks {
        OfAck(cfg, s, a);
        AckStays(s.h, h', s.nodes, s.nodes[v := n'], a);
      }
    }
    AckStep(cfg, s, v, n', {AppendResp(v, to, n'.term, n'.committed, false)}, n'.committed);
  }

  // ---- Accepting entries --------------------------------------------------------------------------------

  /** After an accepted append the log is what it was and already held the entries, or it is the
      leader's log up to the last of them, because some entry differed. */
  lemma SplicedShape(cfg: Config, h: History, log: Log, t: nat, prev: nat, ents: Log)
    requires LogsOk(cfg, h) && ValidLog(h, log)
    requires t in h.logs && prev + |ents| <= |h.logs[t]| && ents == h.logs[t][prev..prev + |ents|]
    requires prev <= |log| && TermAt(log, prev) == TermAt(h.logs[t], prev)
    ensures log[..prev] == h.logs[t][..prev]
    ensures var l := Spliced(log, prev, ents);
            || (l == log && prev + |ents| <= |log| && log[..prev + |ents|] == h.logs[t][..prev + |ents|])
            || (l == h.logs[t][..prev + |ents|]
                && exists q: nat :: q < prev + |ents| && Differs(log, h.logs[t], q))
  {
    var lt := h.logs[t];
    TermLogValid(cfg, h, t);
    if prev > 0 { LogMatching(h, log, lt, prev); }
    var j := FirstConflict(log, prev, ents);
    if j > 0 {
      assert TermAt(log, prev + 1 + (j - 1)) == ents[j - 1].term == lt[prev + j - 1].term;
      TermPositive(cfg, h, lt, prev + j - 1);
      LogMatching(h, log, lt, prev + j);
    }
    assert log[..prev + j] == lt[..prev + j];
    if j < |ents| {
      assert ents[j] == lt[prev + j];
      assert prev + j < |log| ==> log[..prev + j + 1][prev + j] != lt[..prev + j + 1][prev + j];
      assert Differs(log, lt, prev + j);
      assert log[..prev + j] + ents[j..] == lt[..prev + |ents|];
    }
  }

  lemma PrefixValid(h: History, log: Log, k: nat)
    requires ValidLog(h, log) && k <= |log|
    ensures ValidLog(h, log[..k])
  {
    forall i | 0 <= i < k ensures EntryOk(h, log[..k], i) {
      assert EntryOk(h, log, i);
      assert log[..k][..i + 1] == log[..i + 1];
    }
  }

  /** The log ends at position `q` of the other, or is different from it up to there. */
  predicate Differs(log: Log, other: Log, q: nat) {
    q < |other| && q <= |log| && (q < |log| ==> log[..q + 1] != other[..q + 1])
  }

  lemma DiffersPrefix(log: Log, other: Log, q: nat, k: nat)
    requires Differs(log, other, q) && q < k <= |log|
    ensures !(log[..k] <= other)
  {
    assert log[..q + 1] <= log[..k];
    assert !(log[..q + 1] <= other);
  }

  /** Replacing a log by a prefix of the current leader's, from which it differed within that
      prefix, gives up only what that leader lacks. */
  lemma ReplacedKept(cfg: Config, h: History, n: Node, n': Node, t: nat, p: nat, q: nat, t0: nat, k: nat)
    requires LogsOk(cfg, h) && t in h.logs && p <= |h.logs[t]|
    requires n.term == n'.term == t && n.role != Leader && n.persisted == |n.log|
    requires n'.log == h.logs[t][..p] && n'.persisted == p && n.durable <= n'.durable
    requires q < p && Differs(n.log, h.logs[t], q)
    requires t0 in h.logs && 1 <= k <= |h.logs[t0]| && t0 <= t && Kept(h, n, t0, k)
    ensures Kept(h, n', t0, k)
  {
    if k <= |n.log| && h.logs[t0][..k] == n.log[..k] {
      var kept := n.log[..k];
      if k <= p && kept <= h.logs[t] {
        assert n'.log[..k] == h.logs[t][..k];
      } else {
        if q < k { DiffersPrefix(n.log, h.logs[t], q, k); }
        assert h.logs[t0][..k] <= h.logs[t0];
        assert TermLogOk(h, t);
        assert Lacks(h, t, t0, k);
      }
    }
  }

  lemma PrefixReplica(cfg: Config, h: History, n: Node, t: nat, p: nat)
    requires LogsOk(cfg, h) && t in h.logs && p <= |h.logs[t]|
    requires n.term == t && n.log == h.logs[t][..p] && n.persisted == p && n.durable == n.committed <= p
    requires Committed(h, n.log, n.committed)
    ensures ReplicaOk(h, n)
  {
    TermLogValid(cfg, h, t);
    PrefixValid(h, h.logs[t], p);
    assert TermLogOk(h, t);
    forall i | 0 <= i < p ensures n.log[i].term <= t {
      TermsGrow(cfg, h, h.logs[t], i, |h.logs[t]| - 1);
    }
  }

  lemma NotLeading(cfg: Config, h: History, v: NodeId, n: Node)
    requires n.role == Follower
    ensures CandidateOk(cfg, h, v, n) && LeaderOk(cfg, h, v, n) && EpochOk(cfg, h, v, n) && QueueOk(h, n)
  {
  }

  /** A follower whose log becomes a prefix of the leader's acknowledges it. */
  lemma ReplaceStep(cfg: Config, s: Cluster, v: NodeId, n': Node, t: nat, p: nat, q: nat, to: NodeId)
    requires ValidConfig(cfg) && Inv(cfg, s) && v in s.nodes && t in s.h.logs && 0 < p <= |s.h.logs[t]|
    requires s.nodes[v].role != Leader && n'.role == Follower
    requires n'.term == s.nodes[v].term == t && n'.vote == s.nodes[v].vote
    requires n'.log == s.h.logs[t][..p] && n'.persisted == p && s.nodes[v].durable <= n'.durable == n'.committed <= p
    requires Committed(s.h, n'.log, n'.committed)
    requires q < p && Differs(s.nodes[v].log, s.h.logs[t], q)
    ensures Inv(cfg, Put(s, v, n', {AppendResp(v, to, t, p, false)}, WithAck(s.h, v, t, p)))
  {
    hide Inv, LeaderOk, EpochOk, QueueOk, CandidateOk, GrantsOk, WitnessOk, ReadsOk, CommitsOk, CoversOk, LogsOk;
    OfHistory(cfg, s);
    var n := s.nodes[v];
    var h' := WithAck(s.h, v, t, p);
    OfNode(cfg, s, v);
    PrefixReplica(cfg, s.h, n', t, p);
    ReplicaStays(s.h, h', n');
    NotLeading(cfg, h', v, n');
    forall a | a in h'.acks && a.node == v ensures AckOk(h', s.nodes[v := n'], a) {
      if a in s.h.acks {
        OfAck(cfg, s, a);
        forall k | 1 <= k <= a.index && k <= |h'.logs[a.term]| ensures Kept(h', n', a.term, k) {
          assert Kept(s.h, n, a.term, k);
          ReplacedKept(cfg, s.h, n, n', t, p, q, a.term, k);
          KeptStays(s.h, h', n', n', a.term, k);
        }
        if a.index > |h'.logs[a.term]| { BeyondStays(s.h, h', a); }
      } else {
        forall k | 1 <= k <= p ensures Kept(h', n', t, k) {
          assert n'.log[..k] == h'.logs[t][..k];
        }
      }
    }
    AckStep(cfg, s, v, n', {AppendResp(v, to, t, p, false)}, p);
  }

  /** A follower whose log already agrees with the leader's up to `p` acknowledges it. */
  lemma AgreeStep(cfg: Config, s: Cluster, v: NodeId, n': Node, t: nat, p: nat, to: NodeId)
    requires ValidConfig(cfg) && Inv(cfg, s) && v in s.nodes && t in s.h.logs && 0 < p <= |s.h.logs[t]|
    requires n'.term == s.nodes[v].term == t && n'.vote == s.nodes[v].vote && n'.role == Follower
    requires Keeps(s.nodes[v], n') && NodeOk(cfg, s.h, v, n')
    requires p <= |n'.log| && n'.log[..p] == s.h.logs[t][..p]
    ensures Inv(cfg, Put(s, v, n', {AppendResp(v, to, t, p, false)}, WithAck(s.h, v, t, p)))
  {
    hide Inv;
    var h' := WithAck(s.h, v, t, p);
    ReplicaStays(s.h, h', n');
    forall a | a in h'.acks && a.node == v ensures AckOk(h', s.nodes[v := n'], a) {
      if a in s.h.acks {
        OfAck(cfg, s, a);
        AckStays(s.h, h', s.nodes, s.nodes[v := n'], a);
      } else {
        forall k | 1 <= k <= p ensures Kept(h', n', t, k) {
          assert n'.log[..p][..k] == n'.log[..k];
          assert h'.logs[t][..p][..k] == h'.logs[t][..k];
        }
      }
    }
    AckStep(cfg, s, v, n', {AppendResp(v, to, t, p, false)}, p);
  }

  /** A committed prefix of the leader's log, seen in a log that agrees with it. */
  lemma CommittedPrefix(h: History, t: nat, commit: nat, log: Log, k: nat)
    requires t in h.logs && commit <= |h.logs[t]| && Committed(h, h.logs[t], commit)
    requires k <= commit && k <= |log| && log[..k] == h.logs[t][..k]
    ensures Committed(h, log, k)
  {
    if k > 0 {
      var c :| c in h.commits && Covers(h, c, h.logs[t], commit);
      assert h.logs[t][..commit][..k] == h.logs[t][..k];
      assert h.logs[c.term][..commit][..k] == h.logs[c.term][..k];
      assert Covers(h, c, log, k);
    }
  }

  lemma CommittedSame(h: History, log: Log, log': Log, k: nat)
    requires Committed(h, log, k) && k <= |log| && k <= |log'| && log[..k] == log'[..k]
    ensures Committed(h, log', k)
  {
    if k > 0 {
      var c :| c in h.commits && Covers(h, c, log, k);
      assert Covers(h, c, log', k);
    }
  }

  /** A log cut or kept by an append at `prev` that agrees with the leader's up to `p`: what was
      committed stays so, and so is what the leader committed up to there. */
  lemma AcceptedCommit(h: History, log: Log, log': Log, t: nat, prev: nat, p: nat, commit: nat, committed: nat)
    requires t in h.logs && commit <= |h.logs[t]| && Committed(h, h.logs[t], commit)
    requires committed <= prev <= |log| && prev <= p <= |h.logs[t]| && p <= |log'|
    requires Committed(h, log, committed)
    requires log[..prev] == h.logs[t][..prev] && log'[..p] == h.logs[t][..p]
    ensures Committed(h, log', committed)
    ensures Committed(h, log', Min(commit, p))
  {
    var l, k := h.logs[t], Min(commit, p);
    assert log'[..k] == log'[..p][..k] == l[..p][..k] == l[..k];
    CommittedPrefix(h, t, commit, log', k);
    assert log'[..committed] == log'[..p][..committed] == l[..p][..committed] == l[..prev][..committed];
    assert log[..prev][..committed] == log[..committed];
    CommittedSame(h, log, log', committed);
  }

  lemma AcceptedResult(cfg: Config, s: Cluster, v: NodeId, m: Msg)
    requires Enabled(cfg, s, RecvAppend(v, m))
    requires s.nodes[v].committed <= m.prev <= |s.nodes[v].log| && TermAt(s.nodes[v].log, m.prev) == m.prevTerm
    ensures var n := Following(s.nodes[v], m.from);
            var n' := Synced(CommitTo(n.(log := Spliced(n.log, m.prev, m.ents)), Min(m.commit, m.prev + |m.ents|)));
            Apply(cfg, s, RecvAppend(v, m))
            == Put(s, v, n', {AppendResp(v, m.from, m.term, m.prev + |m.ents|, false)},
                   WithAck(s.h, v, m.term, m.prev + |m.ents|))
  {
  }

  /** The follower of the leader of `t` whose log now agrees with it up to `p`. */
  lemma AcceptedStep(cfg: Config, s: Cluster, v: NodeId, n': Node, t: nat, p: nat, from: NodeId)
    requires ValidConfig(cfg) && Inv(cfg, s) && v in s.nodes && t in s.h.logs && p <= |s.h.logs[t]|
    requires s.nodes[v].role != Leader && s.nodes[v].term == t
    requires n' == Synced(Following(s.nodes[v], from).(log := n'.log, committed := n'.committed))
    requires s.nodes[v].committed <= n'.committed <= |n'.log| && Committed(s.h, n'.log, n'.committed)
    requires p <= |n'.log| && n'.log[..p] == s.h.logs[t][..p]
    requires n'.log == s.nodes[v].log
             || (|n'.log| == p && exists q: nat :: q < p && Differs(s.nodes[v].log, s.h.logs[t], q))
    ensures Inv(cfg, Put(s, v, n', {AppendResp(v, from, t, p, false)}, WithAck(s.h, v, t, p)))
  {
    hide Inv;
    OfHistory(cfg, s);
    OfNode(cfg, s, v);
    hide LogsOk;
    if n'.log != s.nodes[v].log {
      var q: nat :| q < p && Differs(s.nodes[v].log, s.h.logs[t], q);
      ReplaceStep(cfg, s, v, n', t, p, q, from);
    } else if p == 0 {
      QuietStep(cfg, s, v, n', {AppendResp(v, from, t, 0, false)});
    } else {
      AgreeStep(cfg, s, v, n', t, p, from);
    }
  }

  /** The log and commit index an accepted append leaves. */
  lemma AcceptedFacts(cfg: Config, h: History, n: Node, m: Msg)
    requires LogsOk(cfg, h) && ReplicaOk(h, n)
    requires m.AppendReq? && MsgOk(cfg, h, m)
    requires n.committed <= m.prev <= |n.log| && TermAt(n.log, m.prev) == m.prevTerm
    ensures var log, l, p := Spliced(n.log, m.prev, m.ents), h.logs[m.term], m.prev + |m.ents|;
            && p <= |log| && log[..p] == l[..p]
            && Committed(h, log, n.committed) && Committed(h, log, Min(m.commit, p))
            && (log == n.log || (|log| == p && exists q: nat :: q < p && Differs(n.log, l, q)))
  {
    SplicedShape(cfg, h, n.log, m.term, m.prev, m.ents);
    var log, l, p := Spliced(n.log, m.prev, m.ents), h.logs[m.term], m.prev + |m.ents|;
    hide Spliced, LogsOk, ValidLog;
    assert log[..p] == l[..p];
    AcceptedCommit(h, n.log, log, m.term, m.prev, p, m.commit, n.committed);
  }

  lemma StepAcceptAppend(cfg: Config, s: Cluster, v: NodeId, m: Msg)
    requires ValidConfig(cfg) && Inv(cfg, s) && Enabled(cfg, s, RecvAppend(v, m))
    requires s.nodes[v].committed <= m.prev <= |s.nodes[v].log| && TermAt(s.nodes[v].log, m.prev) == m.prevTerm
    ensures Inv(cfg, Apply(cfg, s, RecvAppend(v, m)))
  {
    hide Inv, LeaderOk, EpochOk, QueueOk, CandidateOk, LogsOk, ValidLog, Spliced, Committed, CoversOk, CommitsOk, WitnessOk,
      GrantsOk, ReadsOk, Apply;
    OfHistory(cfg, s);
    OfNode(cfg, s, v);
    OfMsg(cfg, s, m);
    AcceptedFacts(cfg, s.h, s.nodes[v], m);
    var n := Following(s.nodes[v], m.from);
    var n' := Synced(CommitTo(n.(log := Spliced(n.log, m.prev, m.ents)), Min(m.commit, m.prev + |m.ents|)));
    AcceptedStep(cfg, s, v, n', m.term, m.prev + |m.ents|, m.from);
    AcceptedResult(cfg, s, v, m);
  }

  lemma StepRecvAppend(cfg: Config, s: Cluster, v: NodeId, m: Msg)
    requires ValidConfig(cfg) && Inv(cfg, s) && Enabled(cfg, s, RecvAppend(v, m))
    ensures Inv(cfg, Apply(cfg, s, RecvAppend(v, m)))
  {
    hide Inv;
    var n := Following(s.nodes[v], m.from);
    OfNode(cfg, s, v);
    FollowingOk(cfg, s.h, v, s.nodes[v], m.from);
    OfMsg(cfg, s, m);
    if m.prev < n.committed {
      CommittedAckStep(cfg, s, v, n, m.from);
    } else if m.prev <= |n.log| && TermAt(n.log, m.prev) == m.prevTerm {
      StepAcceptAppend(cfg, s, v, m);
    } else {
      StepRejectAppend(cfg, s, v, m);
    }
  }

  lemma StepRecvSnapshot(cfg: Config, s: Cluster, v: NodeId, m: Msg)
    requires ValidConfig(cfg) && Inv(cfg, s) && Enabled(cfg, s, RecvSnapshot(v, m))
    ensures Inv(cfg, Apply(cfg, s, RecvSnapshot(v, m)))
  {
    hide Inv;
    OfHistory(cfg, s);
    var n, t, p := Following(s.nodes[v], m.from), m.term, |m.prefix|;
    OfNode(cfg, s, v);
    FollowingOk(cfg, s.h, v, s.nodes[v], m.from);
    OfMsg(cfg, s, m);
    TermLogValid(cfg, s.h, t);
    PrefixValid(s.h, s.h.logs[t], p);
    assert m.prefix == s.h.logs[t][..p];
    TermPositive(cfg, s.h, m.prefix, p - 1);
    if p < n.committed {
      CommittedAckStep(cfg, s, v, n, m.from);
    } else if TermAt(n.log, p) == LastTerm(m.prefix) {
      LogMatching(s.h, n.log, m.prefix, p);
      var n' := Synced(CommitTo(n, p));
      if p > n.committed { CommittedSame(s.h, m.prefix, n.log, p); }
      CommittedAckStep(cfg, s, v, n', m.from);
    } else {
      var n' := Synced(n.(log := m.prefix, committed := p));
      if p <= |n.log| {
        assert n.log[..p][p - 1] != s.h.logs[t][..p][p - 1];
        ReplaceStep(cfg, s, v, n', t, p, p - 1, m.from);
      } else {
        ReplaceShorter(cfg, s, v, n', t, p, m.from);
      }
    }
  }

  /** A snapshot beyond the end of the log replaces it. */
  lemma ReplaceShorter(cfg: Config, s: Cluster, v: NodeId, n': Node, t: nat, p: nat, to: NodeId)
    requires ValidConfig(cfg) && Inv(cfg, s) && v in s.nodes && t in s.h.logs && 0 < p <= |s.h.logs[t]|
    requires s.nodes[v].role != Leader && n'.role == Follower
    requires n'.term == s.nodes[v].term == t && n'.vote == s.nodes[v].vote
    requires n'.log == s.h.logs[t][..p] && n'.persisted == p && s.nodes[v].durable <= n'.durable == n'.committed <= p
    requires Committed(s.h, n'.log, n'.committed)
    requires |s.nodes[v].log| < p
    ensures Inv(cfg, Put(s, v, n', {AppendResp(v, to, t, p, false)}, WithAck(s.h, v, t, p)))
  {
    hide Inv;
    ReplaceStep(cfg, s, v, n', t, p, |s.nodes[v].log|, to);
  }

  /** Own entries reached stable storage. */
  lemma PersistedOk(cfg: Config, s: Cluster, v: NodeId, index: nat, n': Node)
    requires ValidConfig(cfg) && Inv(cfg, s) && Enabled(cfg, s, Persist(v, index))
    requires n' == s.nodes[v].(persisted := index,
                   matched := if index > MatchOf(s.nodes[v].matched, v) then s.nodes[v].matched[v := index]
                   else s.nodes[v].matched)
    ensures NodeOk(cfg, WithAck(s.h, v, n'.term, index), v, n')
  {
    hide Inv, LogsOk, CoversOk, CommitsOk, WitnessOk, GrantsOk;
    OfHistory(cfg, s);
    var n := s.nodes[v];
    var h' := WithAck(s.h, v, n.term, index);
    OfNode(cfg, s, v);
    ReplicaStays(s.h, h', n');
    hide ReplicaOk, QueueOk;
    forall x | x in n'.matched ensures MatchOk(cfg, h', n.term, x, n'.matched[x]) {
      if x in n.matched && n'.matched[x] == n.matched[x] {
        assert MatchOk(cfg, s.h, n.term, x, n.matched[x]);
        MatchStays(cfg, s.h, h', n.term, x, n.matched[x]);
      }
    }
    QueueCarries(s.h, n, n');
    QueueStays(cfg, s.h, h', n');
  }

  lemma StepPersist(cfg: Config, s: Cluster, v: NodeId, index: nat)
    requires ValidConfig(cfg) && Inv(cfg, s) && Enabled(cfg, s, Persist(v, index))
    ensures Inv(cfg, Apply(cfg, s, Persist(v, index)))
  {
    hide Inv;
    var n := s.nodes[v];
    var n' := n.(persisted := index,
    matched := if index > MatchOf(n.matched, v) then n.matched[v := index] else n.matched);
    var h' := WithAck(s.h, v, n.term, index);
    PersistedOk(cfg, s, v, index, n');
    OfNode(cfg, s, v);
    forall a | a in h'.acks && a.node == v ensures AckOk(h', s.nodes[v := n'], a) {
      if a in s.h.acks {
        OfAck(cfg, s, a);
        AckStays(s.h, h', s.nodes, s.nodes[v := n'], a);
      } else {
        assert forall k | 1 <= k <= index :: Kept(h', n', n.term, k);
      }
    }
    hide NodeOk;
    AckStep(cfg, s, v, n', {}, index);
  }
}
