/** Log Matching and Leader Completeness, from the history part of the invariant alone. */
module ClusterHistory {
  import opened Quorum
  import opened RaftLogs
  import opened ClusterState
  import opened ClusterInv

  // ---- Log Matching ------------------------------------------------------------------------------

  lemma TermLogValid(cfg: Config, h: History, t: nat)
    requires LogsOk(cfg, h)
    requires t in h.logs
    ensures ValidLog(h, h.logs[t])
  {
    var l, e := h.logs[t], h.elect[t];
    assert TermLogOk(h, t);
    forall i | 0 <= i < |l| ensures EntryOk(h, l, i) {
      if i < |e.log| {
        assert EntryOk(h, e.log, i);
        assert l[i] == e.log[i];
        assert l[..i + 1] == e.log[..i + 1];
      }
    }
  }

  /** Terms do not decrease along a log. */
  lemma TermsGrow(cfg: Config, h: History, log: Log, i: nat, j: nat)
    requires LogsOk(cfg, h) && ValidLog(h, log)
    requires i <= j < |log|
    ensures log[i].term <= log[j].term
  {
    assert EntryOk(h, log, j);
    var t := log[j].term;
    assert TermLogOk(h, t);
    assert log[i] == log[..j + 1][i] == h.logs[t][..j + 1][i] == h.logs[t][i];
    if i < |h.elect[t].log| {
      assert h.elect[t].log[i] == h.logs[t][i];
    }
  }

  lemma TermPositive(cfg: Config, h: History, log: Log, i: nat)
    requires LogsOk(cfg, h) && ValidLog(h, log)
    requires i < |log|
    ensures log[i].term >= 1
  {
    assert EntryOk(h, log, i);
    assert TermLogOk(h, log[i].term);
  }

  /** Two logs with the same term at an index are the same up to that index. */
  lemma LogMatching(h: History, a: Log, b: Log, k: nat)
    requires ValidLog(h, a) && ValidLog(h, b)
    requires 1 <= k <= |a| && k <= |b|
    requires a[k - 1].term == b[k - 1].term
    ensures a[..k] == b[..k]
  {
    assert EntryOk(h, a, k - 1);
    assert EntryOk(h, b, k - 1);
  }

  /** A log that ends in an entry of term `t` is a prefix of that leader's log. */
  lemma EndsInTerm(h: History, log: Log)
    requires ValidLog(h, log)
    requires log != []
    ensures LastTerm(log) in h.logs && log <= h.logs[LastTerm(log)]
  {
    assert EntryOk(h, log, |log| - 1);
    assert log[..|log|] == log;
  }

  /** A log that reaches past the last entry of term `t` or below has it in range. */
  lemma LaterTermIsFurther(cfg: Config, h: History, log: Log, t: nat, k: nat)
    requires LogsOk(cfg, h) && ValidLog(h, log)
    requires log != [] && t in h.logs && 1 <= k <= |h.logs[t]| && h.logs[t][k - 1].term == t
    requires LastTerm(log) > t
    requires LastTerm(log) in h.logs && h.logs[t][..k] <= h.logs[LastTerm(log)]
    ensures h.logs[t][..k] <= log
  {
    EndsInTerm(h, log);
    var u := LastTerm(log);
    TermLogValid(cfg, h, u);
    assert h.logs[u][k - 1] == h.logs[t][..k][k - 1] == h.logs[t][k - 1];
    assert h.logs[u][|log| - 1] == log[|log| - 1];
    if |log| < k {
      TermsGrow(cfg, h, h.logs[u], |log| - 1, k - 1);
    }
    assert log == h.logs[u][..|log|];
    assert h.logs[t][..k] == h.logs[u][..k] == log[..k];
  }

  // ---- Leader Completeness -----------------------------------------------------------------------

  /** A voter of election `u` that acknowledged entry `k` to the leader of `t`: the new leader has
      the entry, or some leader elected earlier already lacked it. */
  lemma AckingVoter(h: History, t: nat, k: nat, u: nat, x: NodeId)
    requires CoversOk(h)
    requires t in h.logs && 1 <= k <= |h.logs[t]| && h.logs[t][k - 1].term == t
    requires u in h.elect && u > t
    requires x in h.elect[u].voters && x in AckSet(h, t, k)
    ensures h.logs[t][..k] <= h.elect[u].log || SupersededBefore(h, u, t, k)
  {
    var a :| a in h.acks && a.term == t && a.index >= k && a.node == x;
    assert ElectionCovers(h, u, a);
    assert OwnEntry(h, a, k);
  }

  /** A quorum of acknowledgments and a quorum of votes have a replica in common. */
  lemma QuorumMeetsElection(cfg: Config, h: History, t: nat, k: nat, u: nat) returns (x: NodeId)
    requires ValidConfig(cfg) && LogsOk(cfg, h)
    requires u in h.elect && Quorate(cfg, AckSet(h, t, k))
    ensures x in h.elect[u].voters && x in AckSet(h, t, k)
  {
    assert ElectionOk(cfg, h, u);
    QuorumsIntersect(cfg.incoming, cfg.outgoing, AckSet(h, t, k), h.elect[u].voters);
    x :| x in AckSet(h, t, k) && x in h.elect[u].voters;
  }

  /** Inside a replication set of the witness, one less than a quorum of acknowledgments meets
      one less than a quorum of votes. */
  lemma MeetInReplicationSet(cfg: Config, r: set<NodeId>, acked: set<NodeId>, granted: set<NodeId>)
    requires ValidConfig(cfg) && HasWitness(cfg) && SetOk(cfg, r)
    requires |(r - {cfg.wid}) * acked| >= |cfg.incoming| / 2
    requires |cfg.incoming * granted| >= |cfg.incoming| / 2
    requires cfg.wid !in granted
    requires granted <= r
    ensures exists x :: x in acked && x in granted
  {
    var all := r - {cfg.wid};
    assert |all| == |cfg.incoming| - 2;
    assert cfg.incoming * granted <= all;
    Pigeonhole(all, all * acked, cfg.incoming * granted);
    var x :| x in all * acked && x in cfg.incoming * granted;
    assert x in acked && x in granted;
  }

  /** Outside the witness, a full quorum of regular votes meets one less than a quorum of
      acknowledgments. */
  lemma MeetWithoutWitness(cfg: Config, r: set<NodeId>, acked: set<NodeId>, voters: set<NodeId>)
    requires ValidConfig(cfg) && HasWitness(cfg) && SetOk(cfg, r)
    requires |(r - {cfg.wid}) * acked| >= |cfg.incoming| / 2
    requires Quorate(cfg, voters) && cfg.wid !in voters
    ensures exists x :: x in acked && x in voters
  {
    var all := cfg.incoming - {cfg.wid};
    assert |all| == |cfg.incoming| - 1;
    assert cfg.incoming * voters <= all;
    assert (r - {cfg.wid}) * acked <= all;
    Pigeonhole(all, (r - {cfg.wid}) * acked, cfg.incoming * voters);
    var x :| x in (r - {cfg.wid}) * acked && x in cfg.incoming * voters;
    assert x in acked && x in voters;
  }

  /** Subterms do not decrease over a leader's own entries. */
  lemma SubtermsGrow(h: History, t: nat, i: nat, j: nat)
    requires t in h.logs && t in h.elect && TermLogOk(h, t)
    requires i < |h.logs[t]| && j < |h.logs[t]| && h.logs[t][i].term == t
    ensures i <= j ==> h.logs[t][j].term == t && h.logs[t][i].subterm <= h.logs[t][j].subterm
  {
    var l, e := h.logs[t], h.elect[t];
    assert forall j | 0 <= j < |e.log| :: l[j] == e.log[j];
  }

  /** The candidate that won with the witness's vote ends its log beyond the confirmed subterm of
      term `t`, or the votes it showed came from inside the confirmed replication set. */
  lemma GrantPosition(cfg: Config, s: Cluster, t: nat, sub: nat, g: WitnessGrant)
    requires GrantOk(cfg, s.h, g)
    requires WitnessOk(cfg, s) && (t, sub) in s.h.confirmed && t < g.term
    ensures g.lastTerm > t || (g.lastTerm == t && g.lastSubterm > sub)
            || (g.lastTerm == t && g.lastSubterm == sub && g.granted <= s.h.confirmed[(t, sub)])
  {
    assert ConfirmedOk(cfg, s, t, sub);
    assert ConfirmedBehind(s.h, t, sub, g.heldTerm, g.heldSubterm, g.heldSet);
  }

  /** A winner whose last entry is of term `t` and a later subterm than entry `k` has entry `k`. */
  lemma LaterSubtermHasEntry(cfg: Config, h: History, t: nat, k: nat, log: Log)
    requires LogsOk(cfg, h) && ValidLog(h, log)
    requires t in h.logs && 1 <= k <= |h.logs[t]| && h.logs[t][k - 1].term == t
    requires log != [] && LastTerm(log) == t && LastSubterm(log) > h.logs[t][k - 1].subterm
    ensures h.logs[t][..k] <= log
  {
    EndsInTerm(h, log);
    assert TermLogOk(h, t);
    assert log[|log| - 1] == h.logs[t][|log| - 1];
    SubtermsGrow(h, t, |log| - 1, k - 1);
    assert h.logs[t][..k] == log[..k];
  }

  /** Leader Completeness: a chosen entry is in the log every later leader campaigned with. By
      induction over the elections in the order they were held. */
  lemma {:induction false} LeaderCompleteness(cfg: Config, s: Cluster, t: nat, k: nat, u: nat)
    requires ValidConfig(cfg) && LogsOk(cfg, s.h) && CoversOk(s.h) && WitnessOk(cfg, s) && GrantsOk(cfg, s)
    requires Chosen(cfg, s.h, t, k)
    requires u in s.h.elect && u > t
    ensures s.h.logs[t][..k] <= s.h.elect[u].log
    decreases |s.h.elect[u].prior|
  {
    var h := s.h;
    if Quorate(cfg, AckSet(h, t, k)) {
      var x := QuorumMeetsElection(cfg, h, t, k, u);
      AckingVoter(h, t, k, u, x);
      NoneLackedBefore(cfg, s, t, k, u);
    } else {
      var sub :| BackedIn(cfg, h, t, sub, k);
      assert ConfirmedOk(cfg, s, t, sub);
      if cfg.wid !in h.elect[u].voters {
        assert ElectionOk(cfg, h, u);
        MeetWithoutWitness(cfg, h.confirmed[(t, sub)], AckSet(h, t, k), h.elect[u].voters);
        var x :| x in AckSet(h, t, k) && x in h.elect[u].voters;
        AckingVoter(h, t, k, u, x);
        NoneLackedBefore(cfg, s, t, k, u);
      } else {
        WitnessElection(cfg, s, t, k, u, sub);
      }
    }
  }

  /** The case of an election the witness took part in. */
  lemma {:induction false} WitnessElection(cfg: Config, s: Cluster, t: nat, k: nat, u: nat, sub: nat)
    requires ValidConfig(cfg) && LogsOk(cfg, s.h) && CoversOk(s.h) && WitnessOk(cfg, s) && GrantsOk(cfg, s)
    requires Chosen(cfg, s.h, t, k) && HasWitness(cfg) && BackedIn(cfg, s.h, t, sub, k)
    requires u in s.h.elect && u > t && cfg.wid in s.h.elect[u].voters
    ensures s.h.logs[t][..k] <= s.h.elect[u].log
    decreases |s.h.elect[u].prior|, 1
  {
    var h := s.h;
    var log := h.elect[u].log;
    assert WonByGrant(h, u);
    var g :| g in h.grants && g.term == u && g.cand == h.elect[u].leader && g.granted <= h.elect[u].voters;
    assert GrantOk(cfg, h, g);
    assert ElectionOk(cfg, h, u) && TermLogOk(h, u);
    GrantPosition(cfg, s, t, sub, g);
    assert TermLogOk(h, t);
    assert log != [];
    EndsInTerm(h, log);
    if g.lastTerm > t {
      assert log[|log| - 1].term in h.elect[u].prior;
      PriorShrinks(cfg, h, u, g.lastTerm);
      LeaderCompleteness(cfg, s, t, k, g.lastTerm);
      assert TermLogOk(h, g.lastTerm);
      LaterTermIsFurther(cfg, h, log, t, k);
    } else if g.lastSubterm > sub {
      LaterSubtermHasEntry(cfg, h, t, k, log);
    } else {
      assert ConfirmedOk(cfg, s, t, sub);
      MeetInReplicationSet(cfg, h.confirmed[(t, sub)], AckSet(h, t, k), g.granted);
      var x :| x in AckSet(h, t, k) && x in g.granted;
      AckingVoter(h, t, k, u, x);
      NoneLackedBefore(cfg, s, t, k, u);
    }
  }

  lemma PriorShrinks(cfg: Config, h: History, u: nat, u': nat)
    requires LogsOk(cfg, h)
    requires u in h.elect && u' in h.elect[u].prior
    ensures u' in h.elect && |h.elect[u'].prior| < |h.elect[u].prior|
  {
    assert ElectionOk(cfg, h, u);
    var a, b := h.elect[u'].prior, h.elect[u].prior;
    assert b == a + (b - a) && b - a != {};
    assert |b| == |a| + |b - a|;
  }

  /** No leader elected before `u` lacks the chosen entry. */
  lemma {:induction false} NoneLackedBefore(cfg: Config, s: Cluster, t: nat, k: nat, u: nat)
    requires ValidConfig(cfg) && LogsOk(cfg, s.h) && CoversOk(s.h) && WitnessOk(cfg, s) && GrantsOk(cfg, s)
    requires Chosen(cfg, s.h, t, k)
    requires u in s.h.elect && u > t
    ensures !SupersededBefore(s.h, u, t, k)
    decreases |s.h.elect[u].prior|, 0
  {
    if SupersededBefore(s.h, u, t, k) {
      var u' :| u' in s.h.elect[u].prior && u' in s.h.elect && u' > t && Lacks(s.h, u', t, k);
      PriorShrinks(cfg, s.h, u, u');
      LeaderCompleteness(cfg, s, t, k, u');
    }
  }
}
