/** Finding where a follower's log parts from the leader's (src/raft.rs, `handle_append_entries` and
    `handle_append_response`): the follower answers a rejected probe with a hint, the leader takes
    its own hint from it, and the next probe goes there. */
module ProbeSearch {
  import opened RaftLogs
  import opened LogState
  import opened RaftLogObject
  import opened Replication

  /** Terms start at 1 and never decrease along a log. */
  predicate Monotone(log: Log) {
    && (forall i | 0 <= i < |log| :: log[i].term >= 1)
    && forall i, j | 0 <= i < j < |log| :: log[i].term <= log[j].term
  }

  /** Log Matching between two logs. */
  predicate Matching(a: Log, b: Log) {
    forall k | 1 <= k <= |a| && k <= |b| && a[k - 1].term == b[k - 1].term :: a[..k] == b[..k]
  }

  /** The length of the longest common prefix. */
  function Agreed(a: Log, b: Log): (k: nat)
    ensures k <= |a| && k <= |b| && a[..k] == b[..k]
    ensures k < |a| && k < |b| ==> a[k] != b[k]
  {
    if a == [] || b == [] || a[0] != b[0] then 0
    else
      var k := Agreed(a[1..], b[1..]);
      assert a[..k + 1] == [a[0]] + a[1..][..k];
      assert b[..k + 1] == [b[0]] + b[1..][..k];
      k + 1
  }

  lemma CommonPrefix(a: Log, b: Log, p: nat)
    requires p <= |a| && p <= |b| && a[..p] == b[..p]
    ensures p <= Agreed(a, b)
  {
    assert forall i | 0 <= i < p :: a[i] == a[..p][i] == b[..p][i] == b[i];
  }

  /** The follower accepts a probe at `p` of the leader's log. */
  predicate Accepts(follower: Log, leader: Log, p: nat) {
    p <= |follower| && TermAt(follower, p) == TermAt(leader, p)
  }

  /** A probe is accepted exactly where the logs agree. */
  lemma AcceptsIff(leader: Log, follower: Log, p: nat)
    requires Monotone(leader) && Monotone(follower) && Matching(leader, follower) && p <= |leader|
    ensures Accepts(follower, leader, p) <==> p <= Agreed(leader, follower)
  {
    var k := Agreed(leader, follower);
    if p <= k {
      assert p >= 1 ==> leader[..k][p - 1] == follower[..k][p - 1];
    }
    if Accepts(follower, leader, p) && p >= 1 { CommonPrefix(leader, follower, p); }
  }

  /** The largest index up to `index` whose term is at most `term`. */
  function HintAt(log: Log, index: nat, term: nat): (r: nat)
    requires index <= |log|
    ensures r <= index && TermAt(log, r) <= term
    ensures forall i | r < i <= index :: TermAt(log, i) > term
  {
    if TermAt(log, index) <= term then index else HintAt(log, index - 1, term)
  }

  /** What the loop over the log's terms returns, on an uncompacted log. */
  lemma {:induction false} HintUnique(log: Log, index: nat, term: nat, r: nat)
    requires index <= |log| && r <= index && TermAt(log, r) <= term
    requires forall i | r < i <= index :: TermAt(log, i) > term
    ensures r == HintAt(log, index, term)
  {
    if TermAt(log, index) > term { HintUnique(log, index - 1, term, r); }
  }

  /** The follower's hint for a probe at (p, term). */
  function FollowerHint(follower: Log, p: nat, term: nat): nat {
    HintAt(follower, Min(p, |follower|), term)
  }

  /** What the leader makes of the follower's hint and the term there. */
  function LeaderHint(leader: Log, hint: nat, term: nat): nat {
    if term == 0 || hint > |leader| then hint else HintAt(leader, hint, term)
  }

  /** Where the next probe goes. */
  function NextProbe(leader: Log, follower: Log, p: nat): nat
    requires p >= 1
  {
    var h := FollowerHint(follower, p, TermAt(leader, p));
    Min(p - 1, LeaderHint(leader, h, TermAt(follower, h)))
  }

  lemma TermsGrow(log: Log, i: nat, j: nat)
    requires Monotone(log) && i <= j <= |log|
    ensures TermAt(log, i) <= TermAt(log, j)
  {
  }

  /** An index with a small enough term is never passed over. */
  lemma HintNotBelow(log: Log, index: nat, term: nat, a: nat)
    requires index <= |log| && a <= index && TermAt(log, a) <= term
    ensures HintAt(log, index, term) >= a
  {
    assert HintAt(log, index, term) < a ==> TermAt(log, a) > term;
  }

  /** A rejected probe moves strictly back, but never below the last agreeing index. */
  lemma ProbeSound(leader: Log, follower: Log, p: nat)
    requires Monotone(leader) && Monotone(follower) && Matching(leader, follower)
    requires p <= |leader| && !Accepts(follower, leader, p)
    ensures p >= 1 && Agreed(leader, follower) <= NextProbe(leader, follower, p) < p
  {
    AcceptsIff(leader, follower, p);
    var a := Agreed(leader, follower);
    var t := TermAt(leader, p);
    AcceptsIff(leader, follower, a);
    TermsGrow(leader, a, p);
    HintNotBelow(follower, Min(p, |follower|), t, a);
    var h := FollowerHint(follower, p, t);
    TermsGrow(follower, a, h);
    if TermAt(follower, h) > 0 { HintNotBelow(leader, h, TermAt(follower, h), a); }
  }

  /** Probing from anywhere at or above the last agreeing index ends there, and the append sent then
      is accepted. */
  lemma {:induction false} ProbesConverge(leader: Log, follower: Log, p: nat) returns (probes: seq<nat>)
    requires Monotone(leader) && Monotone(follower) && Matching(leader, follower)
    requires Agreed(leader, follower) <= p <= |leader|
    ensures probes != [] && probes[0] == p && |probes| <= p - Agreed(leader, follower) + 1
    ensures forall i | 0 <= i < |probes| - 1 ::
              probes[i] >= 1 && !Accepts(follower, leader, probes[i]) && probes[i + 1] == NextProbe(leader, follower, probes[i])
    ensures probes[|probes| - 1] == Agreed(leader, follower) && Accepts(follower, leader, probes[|probes| - 1])
    decreases p
  {
    AcceptsIff(leader, follower, p);
    if Accepts(follower, leader, p) {
      probes := [p];
    } else {
      ProbeSound(leader, follower, p);
      var rest := ProbesConverge(leader, follower, NextProbe(leader, follower, p));
      probes := [p] + rest;
    }
  }

  // ---- The same on the objects -------------------------------------------------------------------------------

  /** An uncompacted log. */
  ghost predicate Whole(log: RaftLog, l: Log)
    reads log, log.unstable
  {
    log.Ok() && ViewOf(log.Value()) == View(0, 0, l)
  }

  lemma WholeTerm(l: Log, i: nat)
    ensures ViewTerm(View(0, 0, l), i) == TermAt(l, i)
  {
  }

  lemma WholeHint(l: Log, index: nat, term: nat, r: nat)
    requires index <= |l| && r <= index && ViewTerm(View(0, 0, l), r) <= term
    requires forall i | r < i <= index :: ViewTerm(View(0, 0, l), i) > term
    ensures r == HintAt(l, index, term) && ViewTerm(View(0, 0, l), r) == TermAt(l, r)
  {
    WholeTerm(l, r);
    forall i | r < i <= index ensures TermAt(l, i) > term { WholeTerm(l, i); }
    HintUnique(l, index, term, r);
  }

  /** The follower's part of a rejection. */
  method Hint(follower: RaftLog, ghost f: Log, p: nat, term: nat) returns (hint: nat, hintTerm: nat)
    requires Whole(follower, f)
    ensures hint == FollowerHint(f, p, term) && hintTerm == TermAt(f, hint)
  {
    hide ViewOf, ViewTerm, Valid, Settled;
    var from := Min(p, follower.LastAt());
    var r, t := follower.FindConflictByTerm(from, term);
    WholeHint(f, from, term, r);
    hint, hintTerm := r, t.value;
  }

  /** The leader's part. */
  method OwnHint(leader: RaftLog, ghost l: Log, hint: nat, term: nat) returns (next: nat)
    requires Whole(leader, l)
    ensures next == LeaderHint(l, hint, term)
  {
    hide ViewOf, ViewTerm, Valid, Settled;
    next := hint;
    if term > 0 {
      var r, t := leader.FindConflictByTerm(hint, term);
      if hint <= |l| { WholeHint(l, hint, term, r); }
      next := r;
    }
  }

  /** One rejected probe: the next index moves to the next probe, closer to where the logs part and
      not beyond it. */
  method RejectedProbe(leader: RaftLog, follower: RaftLog, pr: Progress, ghost l: Log, ghost f: Log)
    requires Whole(leader, l) && Whole(follower, f) && pr.Valid() && pr.state == Probe
    requires {leader, leader.unstable, follower, follower.unstable} !! {pr, pr.ins}
    requires Monotone(l) && Monotone(f) && Matching(l, f) && pr.matched <= Agreed(l, f)
    requires pr.nextIdx - 1 <= |l| && !Accepts(f, l, pr.nextIdx - 1)
    modifies pr
    ensures pr.Valid() && pr.state == Probe && pr.matched == old(pr.matched) && !pr.paused
    ensures old(pr.nextIdx) >= 2 && pr.nextIdx - 1 == NextProbe(l, f, old(pr.nextIdx) - 1)
    ensures Agreed(l, f) <= pr.nextIdx - 1 < old(pr.nextIdx) - 1
  {
    hide ViewOf, ViewTerm, Valid, Settled, Monotone, Matching, HintAt;
    var p := pr.nextIdx - 1;
    ProbeSound(l, f, p);
    WholeTerm(l, p);
    var hint, term := Hint(follower, f, p, leader.Term(p));
    var next := OwnHint(leader, l, hint, term);
    var _ := pr.MaybeDecrTo(p, next, INVALID_INDEX);
  }
}
