/** The quorum computations of src/quorum: commit indices by sorting, group commit, vote tallies. */
module QuorumIndex {
  import opened Quorum

  /** The value of `u64::MAX`, what an empty configuration commits to. */
  const NO_LIMIT: nat := 0xFFFF_FFFF_FFFF_FFFF

  datatype Index = Index(index: nat, group: nat)

  /** What voters have acknowledged; a voter without an entry counts as (0, 0). */
  type Acks = map<NodeId, Index>

  function AckOf(acks: Acks, v: NodeId): Index {
    if v in acks then acks[v] else Index(0, 0)
  }

  /** The voters that acknowledged index `k`. */
  function Reached(voters: set<NodeId>, acks: Acks, k: nat): set<NodeId> {
    set v | v in voters && AckOf(acks, v).index >= k
  }

  /** `k` is the largest index that at least `need` voters acknowledged. */
  ghost predicate IsLargestReached(voters: set<NodeId>, acks: Acks, need: nat, k: nat) {
    && |Reached(voters, acks, k)| >= need
    && forall j: nat | j > k :: |Reached(voters, acks, j)| < need
  }

  lemma LargestReachedUnique(voters: set<NodeId>, acks: Acks, need: nat, k: nat, k': nat)
    requires IsLargestReached(voters, acks, need, k) && IsLargestReached(voters, acks, need, k')
    ensures k == k'
  {
    assert k < k' ==> |Reached(voters, acks, k')| < need;
    assert k' < k ==> |Reached(voters, acks, k)| < need;
  }

  // ---- The sorted array ----------------------------------------------------------------------------------

  predicate Distinct(ids: seq<NodeId>) {
    forall i, j | 0 <= i < j < |ids| :: ids[i] != ids[j]
  }

  /** `ids` lists every voter once, and `s` holds their acknowledgments in that order. */
  predicate Lists(voters: set<NodeId>, acks: Acks, ids: seq<NodeId>, s: seq<Index>) {
    && |ids| == |s| == |voters|
    && Distinct(ids)
    && (forall v | v in voters :: v in ids)
    && (forall v | v in ids :: v in voters)
    && (forall i | 0 <= i < |s| :: s[i] == AckOf(acks, ids[i]))
  }

  predicate Descending(s: seq<Index>) {
    forall i, j | 0 <= i < j < |s| :: s[i].index >= s[j].index
  }

  function IdSet(ids: seq<NodeId>): set<NodeId> {
    set v | v in ids
  }

  lemma {:induction false} DistinctSize(ids: seq<NodeId>)
    requires Distinct(ids)
    ensures |IdSet(ids)| == |ids|
  {
    if ids != [] {
      DistinctSize(ids[1..]);
      assert IdSet(ids) == IdSet(ids[1..]) + {ids[0]};
      assert ids[0] !in ids[1..];
    }
  }

  /** Position `p` of the sorted array is the largest index acknowledged by `p + 1` voters. */
  lemma SortedPosition(voters: set<NodeId>, acks: Acks, ids: seq<NodeId>, s: seq<Index>, p: nat)
    requires Lists(voters, acks, ids, s) && Descending(s) && p < |s|
    ensures IsLargestReached(voters, acks, p + 1, s[p].index)
  {
    var k := s[p].index;
    forall v | v in IdSet(ids[..p + 1]) ensures v in Reached(voters, acks, k) {
      var i :| 0 <= i < p + 1 && ids[i] == v;
      assert s[i] == AckOf(acks, v);
      assert v in ids;
    }
    DistinctSize(ids[..p + 1]);
    SubsetSize(IdSet(ids[..p + 1]), Reached(voters, acks, k));
    forall j: nat | j > k ensures |Reached(voters, acks, j)| < p + 1 {
      forall v | v in Reached(voters, acks, j) ensures v in IdSet(ids[..p]) {
        var i :| 0 <= i < |ids| && ids[i] == v;
        assert s[i].index >= j;
        assert ids[..p][i] == v;
      }
      DistinctSize(ids[..p]);
      SubsetSize(Reached(voters, acks, j), IdSet(ids[..p]));
    }
  }

  /** Swapping the same two positions of both keeps the listing. */
  lemma SwapLists(voters: set<NodeId>, acks: Acks, ids: seq<NodeId>, s: seq<Index>, i: nat, j: nat)
    requires Lists(voters, acks, ids, s) && i < |s| && j < |s|
    ensures Lists(voters, acks, ids[i := ids[j]][j := ids[i]], s[i := s[j]][j := s[i]])
  {
    var ids' := ids[i := ids[j]][j := ids[i]];
    forall v | v in voters ensures v in ids' {
      var x :| 0 <= x < |ids| && ids[x] == v;
      assert ids'[if x == i then j else if x == j then i else x] == v;
    }
  }

  /** Sorts in place, largest index first. */
  method SortDescending(voters: set<NodeId>, acks: Acks, a: array<Index>, ghost ids: seq<NodeId>)
    returns (ghost ids': seq<NodeId>)
    requires |ids| == a.Length && Lists(voters, acks, ids, a[..])
    modifies a
    ensures Lists(voters, acks, ids', a[..]) && Descending(a[..])
  {
    hide Lists;
    ids' := ids;
    for i := 0 to a.Length
      invariant |ids'| == a.Length && Lists(voters, acks, ids', a[..])
      invariant forall x, y | 0 <= x < y < i :: a[x].index >= a[y].index
    {
      var j := i;
      while j > 0 && a[j - 1].index < a[j].index
        invariant 0 <= j <= i
        invariant |ids'| == a.Length && Lists(voters, acks, ids', a[..])
        invariant forall x, y | 0 <= x < y <= i && y != j :: a[x].index >= a[y].index
      {
        ghost var was := a[..];
        SwapLists(voters, acks, ids', was, j - 1, j);
        a[j - 1], a[j] := a[j], a[j - 1];
        assert a[..] == was[j - 1 := was[j]][j := was[j - 1]];
        ids' := ids'[j - 1 := ids'[j]][j := ids'[j - 1]];
        j := j - 1;
      }
    }
  }

  /** Fills an array with the voters' acknowledgments, in whatever order the set gives them, and
      sorts it. */
  method SortedAcks(voters: set<NodeId>, acks: Acks) returns (a: array<Index>, ghost ids: seq<NodeId>)
    ensures fresh(a) && Lists(voters, acks, ids, a[..]) && Descending(a[..])
  {
    a := new Index[|voters|](_ => Index(0, 0));
    ids := [];
    var rest, i := voters, 0;
    while rest != {}
      invariant rest <= voters && i == |ids| && i + |rest| == |voters| == a.Length
      invariant Distinct(ids)
      invariant forall v | v in voters :: v in ids || v in rest
      invariant forall v | v in ids :: v in voters && v !in rest
      invariant forall x | 0 <= x < i :: a[x] == AckOf(acks, ids[x])
      decreases rest
    {
      var v :| v in rest;
      a[i] := AckOf(acks, v);
      ids := ids + [v];
      rest := rest - {v};
      i := i + 1;
    }
    ids := SortDescending(voters, acks, a, ids);
  }

  // ---- Commit indices ---------------------------------------------------------------------------------------

  /** `v` and `w` are in different commit groups and both acknowledged `k`. Group 0 is no group. */
  predicate Apart(acks: Acks, v: NodeId, w: NodeId, k: nat) {
    && AckOf(acks, v).group != 0 && AckOf(acks, w).group != 0
    && AckOf(acks, v).group != AckOf(acks, w).group
    && AckOf(acks, v).index >= k && AckOf(acks, w).index >= k
  }

  /** Index `k` is present in two commit groups. */
  ghost predicate InTwoGroups(voters: set<NodeId>, acks: Acks, k: nat) {
    exists v, w {:trigger Apart(acks, v, w, k)} :: v in voters && w in voters && Apart(acks, v, w, k)
  }

  ghost predicate IsGroupCommit(voters: set<NodeId>, acks: Acks, r: nat, byGroups: bool) {
    var need := Majority(|voters|);
    if InTwoGroups(voters, acks, 0) then
      && byGroups
      && |Reached(voters, acks, r)| >= need && InTwoGroups(voters, acks, r)
      && forall j: nat {:trigger InTwoGroups(voters, acks, j)} | j > r :: |Reached(voters, acks, j)| < need || !InTwoGroups(voters, acks, j)
    else if forall v | v in voters :: AckOf(acks, v).group != 0 then
      !byGroups && IsLargestReached(voters, acks, need, r)
    else
      && !byGroups
      && (forall v | v in voters :: AckOf(acks, v).index >= r)
      && exists v :: v in voters && AckOf(acks, v).index == r
  }

  /** What the scan over the first `i` sorted acknowledgments has found: no group besides `checked`. */
  predicate Scanned(s: seq<Index>, q: nat, i: nat, checked: nat, single: bool)
    requires i <= |s| && q < |s|
  {
    && (forall x | 0 <= x < i :: s[x].group == 0 || s[x].group == checked)
    && (single <==> forall x | 0 <= x < i :: s[x].group != 0)
    && (s[q].group != 0 ==> checked == s[q].group)
    && (s[q].group == 0 && checked != 0 ==> exists x :: 0 <= x < i && s[x].group == checked)
  }

  /** The first acknowledgment of a second group decides. */
  lemma SecondGroup(voters: set<NodeId>, acks: Acks, ids: seq<NodeId>, s: seq<Index>, i: nat, checked: nat, single: bool)
    requires Lists(voters, acks, ids, s) && Descending(s) && i < |s|
    requires Scanned(s, |s| / 2, i, checked, single)
    requires s[i].group != 0 && checked != 0 && s[i].group != checked
    ensures var q := s[|s| / 2].index;
            IsGroupCommit(voters, acks, if s[i].index < q then s[i].index else q, true)
  {
    var q := |s| / 2;
    var r := if s[i].index < s[q].index then s[i].index else s[q].index;
    SortedPosition(voters, acks, ids, s, q);
    var x := if s[q].group != 0 then q else var x :| 0 <= x < i && s[x].group == checked; x;
    assert ids[i] in ids && ids[x] in ids;
    assert Apart(acks, ids[i], ids[x], r) && Apart(acks, ids[i], ids[x], 0);
    SubsetSize(Reached(voters, acks, s[q].index), Reached(voters, acks, r));
    forall j: nat | j > r ensures |Reached(voters, acks, j)| < q + 1 || !InTwoGroups(voters, acks, j) {
      if j > s[i].index {
        forall v, w | v in voters && w in voters ensures !Apart(acks, v, w, j) {
          NotApart(acks, ids, s, i, checked, v, w, j);
        }
      }
    }
  }

  lemma NotApart(acks: Acks, ids: seq<NodeId>, s: seq<Index>, i: nat, checked: nat, v: NodeId, w: NodeId, j: nat)
    requires |ids| == |s| && (forall x | 0 <= x < |s| :: s[x] == AckOf(acks, ids[x])) && Descending(s)
    requires v in ids && w in ids && i <= |s| && (i < |s| ==> j > s[i].index)
    requires forall x | 0 <= x < i :: s[x].group == 0 || s[x].group == checked
    ensures !Apart(acks, v, w, j)
  {
    var x :| 0 <= x < |ids| && ids[x] == v;
    var y :| 0 <= y < |ids| && ids[y] == w;
  }

  /** After the whole scan there is at most one group. */
  lemma NoSecondGroup(voters: set<NodeId>, acks: Acks, ids: seq<NodeId>, s: seq<Index>, checked: nat, single: bool)
    requires Lists(voters, acks, ids, s) && Descending(s) && s != []
    requires Scanned(s, |s| / 2, |s|, checked, single)
    ensures IsGroupCommit(voters, acks, if single then s[|s| / 2].index else s[|s| - 1].index, false)
  {
    SortedPosition(voters, acks, ids, s, |s| / 2);
    forall v, w | v in voters && w in voters ensures !Apart(acks, v, w, 0) {
      NotApart(acks, ids, s, |s|, checked, v, w, 0);
    }
    forall v | v in voters ensures AckOf(acks, v).index >= s[|s| - 1].index && (single ==> AckOf(acks, v).group != 0) {
      var x :| 0 <= x < |ids| && ids[x] == v;
    }
    if !single {
      var x :| 0 <= x < |s| && s[x].group == 0;
      assert ids[x] in ids && AckOf(acks, ids[x]).group == 0;
    }
    assert ids[|s| - 1] in ids && AckOf(acks, ids[|s| - 1]).index == s[|s| - 1].index;
  }

  /** The majority commit index, plain or by commit groups. */
  method CommittedIndex(voters: set<NodeId>, useGroups: bool, acks: Acks) returns (index: nat, byGroups: bool)
    ensures voters == {} ==> index == NO_LIMIT && byGroups
    ensures voters != {} && !useGroups ==> IsLargestReached(voters, acks, Majority(|voters|), index) && !byGroups
    ensures voters != {} && useGroups ==> IsGroupCommit(voters, acks, index, byGroups)
  {
    if voters == {} {
      return NO_LIMIT, true;
    }
    var a, ids := SortedAcks(voters, acks);
    var q := Majority(a.Length) - 1;
    if !useGroups {
      SortedPosition(voters, acks, ids, a[..], q);
      return a[q].index, false;
    }
    index, byGroups := GroupIndex(voters, acks, a[..], ids);
  }

  /** The scan over the sorted acknowledgments for a second commit group. */
  method GroupIndex(voters: set<NodeId>, acks: Acks, s: seq<Index>, ghost ids: seq<NodeId>) returns (index: nat, byGroups: bool)
    requires Lists(voters, acks, ids, s) && Descending(s) && s != []
    ensures IsGroupCommit(voters, acks, index, byGroups)
  {
    hide IsGroupCommit, Lists, Descending;
    var q := |s| / 2;
    var checked, single := s[q].group, true;
    for i := 0 to |s|
      invariant Scanned(s, q, i, checked, single)
    {
      if s[i].group == 0 {
        single := false;
      } else if checked == 0 {
        checked := s[i].group;
      } else if checked != s[i].group {
        SecondGroup(voters, acks, ids, s, i, checked, single);
        return if s[i].index < s[q].index then s[i].index else s[q].index, true;
      }
    }
    NoSecondGroup(voters, acks, ids, s, checked, single);
    return if single then s[q].index else s[|s| - 1].index, false;
  }

  /** The specification leaves one answer, whatever order the voters were visited in. */
  lemma GroupCommitUnique(voters: set<NodeId>, acks: Acks, r: nat, b: bool, r': nat, b': bool)
    requires IsGroupCommit(voters, acks, r, b) && IsGroupCommit(voters, acks, r', b')
    ensures r == r' && b == b'
  {
    if InTwoGroups(voters, acks, 0) {
      assert InTwoGroups(voters, acks, r) && InTwoGroups(voters, acks, r');
    } else if forall v | v in voters :: AckOf(acks, v).group != 0 {
      LargestReachedUnique(voters, acks, Majority(|voters|), r, r');
    }
  }

  /** The largest index that one voter less than a quorum acknowledged (at least one voter). */
  method OneLessThanQuorum(voters: set<NodeId>, acks: Acks) returns (index: nat)
    ensures voters == {} ==> index == NO_LIMIT
    ensures voters != {} ==>
              IsLargestReached(voters, acks, if |voters| <= 2 then 1 else Majority(|voters|) - 1, index)
  {
    if voters == {} {
      return NO_LIMIT;
    }
    var a, ids := SortedAcks(voters, acks);
    var pos := if a.Length <= 2 then 0 else a.Length / 2 - 1;
    SortedPosition(voters, acks, ids, a[..], pos);
    return a[pos].index;
  }

  // ---- Joint configurations ------------------------------------------------------------------------------------

  /** `k` is the largest index that a quorum of both halves acknowledged. */
  ghost predicate IsJointCommit(incoming: set<NodeId>, outgoing: set<NodeId>, acks: Acks, k: nat) {
    && IsQuorum(incoming, outgoing, Reached(incoming + outgoing, acks, k))
    && forall j: nat | j > k :: !IsQuorum(incoming, outgoing, Reached(incoming + outgoing, acks, j))
  }

  lemma HalfReached(half: set<NodeId>, all: set<NodeId>, acks: Acks, k: nat)
    requires half <= all
    ensures half * Reached(all, acks, k) == Reached(half, acks, k)
  {
  }

  lemma JointReached(incoming: set<NodeId>, outgoing: set<NodeId>, acks: Acks, k: nat)
    ensures IsQuorum(incoming, outgoing, Reached(incoming + outgoing, acks, k)) <==>
            && (incoming == {} || |Reached(incoming, acks, k)| >= Majority(|incoming|))
            && (outgoing == {} || |Reached(outgoing, acks, k)| >= Majority(|outgoing|))
  {
    HalfReached(incoming, incoming + outgoing, acks, k);
    HalfReached(outgoing, incoming + outgoing, acks, k);
  }

  lemma ReachedShrinks(voters: set<NodeId>, acks: Acks, k: nat, j: nat)
    requires k <= j
    ensures |Reached(voters, acks, j)| <= |Reached(voters, acks, k)|
  {
    SubsetSize(Reached(voters, acks, j), Reached(voters, acks, k));
  }

  /** The smaller of the two halves' indices is the joint one; an empty outgoing half does not count. */
  lemma JointIsMin(incoming: set<NodeId>, outgoing: set<NodeId>, acks: Acks, i: nat, o: nat)
    requires incoming != {} && IsLargestReached(incoming, acks, Majority(|incoming|), i)
    requires outgoing != {} ==> IsLargestReached(outgoing, acks, Majority(|outgoing|), o)
    requires outgoing == {} ==> i <= o
    ensures IsJointCommit(incoming, outgoing, acks, if i < o then i else o)
  {
    var k := if i < o then i else o;
    JointReached(incoming, outgoing, acks, k);
    ReachedShrinks(incoming, acks, k, i);
    ReachedShrinks(outgoing, acks, k, o);
    forall j: nat | j > k ensures !IsQuorum(incoming, outgoing, Reached(incoming + outgoing, acks, j)) {
      JointReached(incoming, outgoing, acks, j);
      assert j > i ==> |Reached(incoming, acks, j)| < Majority(|incoming|);
      assert outgoing != {} && j > o ==> |Reached(outgoing, acks, j)| < Majority(|outgoing|);
    }
  }

  /** With commit groups each half has its own index, and the smaller one counts. */
  ghost predicate IsJointGroupCommit(incoming: set<NodeId>, outgoing: set<NodeId>, acks: Acks, index: nat, byGroups: bool) {
    if outgoing == {} then IsGroupCommit(incoming, acks, index, byGroups)
    else
      exists i: nat, bi, o: nat, bo ::
        && IsGroupCommit(incoming, acks, i, bi) && IsGroupCommit(outgoing, acks, o, bo)
        && index == (if i < o then i else o) && byGroups == (bi && bo)
  }

  /** `JointConfig::committed_index`. */
  method JointCommittedIndex(incoming: set<NodeId>, outgoing: set<NodeId>, useGroups: bool, acks: Acks)
    returns (index: nat, byGroups: bool)
    requires forall v | v in acks :: acks[v].index <= NO_LIMIT
    ensures incoming != {} && !useGroups ==> IsJointCommit(incoming, outgoing, acks, index)
    ensures incoming != {} && useGroups ==> IsJointGroupCommit(incoming, outgoing, acks, index, byGroups)
  {
    var i, bi := CommittedIndex(incoming, useGroups, acks);
    var o, bo := CommittedIndex(outgoing, useGroups, acks);
    index, byGroups := if i < o then i else o, bi && bo;
    if incoming != {} {
      if !useGroups {
        AtMostLimit(incoming, acks, Majority(|incoming|), i);
        JointIsMin(incoming, outgoing, acks, i, o);
      } else {
        GroupAtMostLimit(incoming, acks, i, bi);
      }
    }
  }

  lemma AtMostLimit(voters: set<NodeId>, acks: Acks, need: nat, k: nat)
    requires IsLargestReached(voters, acks, need, k) && need > 0
    requires forall v | v in acks :: acks[v].index <= NO_LIMIT
    ensures k <= NO_LIMIT
  {
    assert Reached(voters, acks, k) != {};
    var v :| v in Reached(voters, acks, k);
  }

  lemma GroupAtMostLimit(voters: set<NodeId>, acks: Acks, k: nat, b: bool)
    requires IsGroupCommit(voters, acks, k, b)
    requires forall v | v in acks :: acks[v].index <= NO_LIMIT
    ensures k <= NO_LIMIT
  {
    if InTwoGroups(voters, acks, 0) {
      var v, w :| v in voters && w in voters && Apart(acks, v, w, k);
    } else if forall v | v in voters :: AckOf(acks, v).group != 0 {
      AtMostLimit(voters, acks, Majority(|voters|), k);
    }
  }

  // ---- Votes ------------------------------------------------------------------------------------------------------

  datatype VoteResult = Pending | Lost | Won

  function Granted(voters: set<NodeId>, votes: map<NodeId, bool>): set<NodeId> {
    set v | v in voters && v in votes && votes[v]
  }

  function Missing(voters: set<NodeId>, votes: map<NodeId, bool>): set<NodeId> {
    set v | v in voters && v !in votes
  }

  lemma OneMore(seen: set<NodeId>, v: NodeId, votes: map<NodeId, bool>)
    requires v !in seen
    ensures |Granted(seen + {v}, votes)| == |Granted(seen, votes)| + if v in votes && votes[v] then 1 else 0
    ensures |Missing(seen + {v}, votes)| == |Missing(seen, votes)| + if v in votes then 0 else 1
  {
    var g, m := Granted(seen, votes), Missing(seen, votes);
    if v in votes {
      assert Missing(seen + {v}, votes) == m;
      if votes[v] {
        assert Granted(seen + {v}, votes) == g + {v};
      } else {
        assert Granted(seen + {v}, votes) == g;
      }
    } else {
      assert Missing(seen + {v}, votes) == m + {v};
      assert Granted(seen + {v}, votes) == g;
    }
  }

  lemma Tally(voters: set<NodeId>, votes: map<NodeId, bool>)
    ensures voters * Granted(voters, votes) == Granted(voters, votes)
    ensures |voters * (Granted(voters, votes) + Missing(voters, votes))| == |Granted(voters, votes)| + |Missing(voters, votes)|
  {
    assert Granted(voters, votes) !! Missing(voters, votes);
    assert voters * (Granted(voters, votes) + Missing(voters, votes)) == Granted(voters, votes) + Missing(voters, votes);
  }

  /** How many more votes decide an election in one's favour, 0 once it is decided either way. */
  function Short(voters: set<NodeId>, votes: map<NodeId, bool>): nat {
    var granted := Granted(voters, votes);
    if HasMajority(voters, granted) || !HasMajority(voters, granted + Missing(voters, votes)) then 0
    else Majority(|voters|) - |voters * granted|
  }

  /** `vote_result_with_diff`: the outcome, and while pending how many votes are short. */
  method MajorityVoteResult(voters: set<NodeId>, votes: map<NodeId, bool>) returns (r: VoteResult, short: nat)
    ensures r == Won <==> HasMajority(voters, Granted(voters, votes))
    ensures r == Lost <==> !HasMajority(voters, Granted(voters, votes) + Missing(voters, votes))
    ensures short == Short(voters, votes)
  {
    if voters == {} {
      return Won, 0;
    }
    var yes, missing := 0, 0;
    ghost var seen := {};
    var rest := voters;
    while rest != {}
      invariant seen + rest == voters && seen !! rest
      invariant yes == |Granted(seen, votes)| && missing == |Missing(seen, votes)|
      decreases rest
    {
      var v :| v in rest;
      OneMore(seen, v, votes);
      if v in votes && votes[v] {
        yes := yes + 1;
      } else if v !in votes {
        missing := missing + 1;
      }
      seen, rest := seen + {v}, rest - {v};
    }
    assert seen == voters;
    Tally(voters, votes);
    hide Granted, Missing;
    var q := Majority(|voters|);
    if yes >= q {
      return Won, 0;
    } else if yes + missing >= q {
      return Pending, q - yes;
    } else {
      return Lost, 0;
    }
  }

  /** Votes that extend `votes`: nobody changes a vote already cast. */
  predicate Extends(votes: map<NodeId, bool>, votes': map<NodeId, bool>) {
    forall v | v in votes :: v in votes' && votes'[v] == votes[v]
  }

  /** Some way of casting the missing votes gives a quorum. */
  ghost predicate CanWin(incoming: set<NodeId>, outgoing: set<NodeId>, votes: map<NodeId, bool>) {
    exists votes' {:trigger Extends(votes, votes')} :: Extends(votes, votes') && IsQuorum(incoming, outgoing, Granted(incoming + outgoing, votes'))
  }

  /** Counting every missing vote as granted decides whether the election can still be won. */
  lemma BestCase(incoming: set<NodeId>, outgoing: set<NodeId>, votes: map<NodeId, bool>)
    ensures CanWin(incoming, outgoing, votes) <==>
            && HasMajority(incoming, Granted(incoming, votes) + Missing(incoming, votes))
            && HasMajority(outgoing, Granted(outgoing, votes) + Missing(outgoing, votes))
  {
    var all := incoming + outgoing;
    var best := votes + map v | v in Missing(all, votes) :: true;
    assert Extends(votes, best);
    forall votes' | Extends(votes, votes') ensures Granted(all, votes') <= Granted(all, best) {}
    BestHalf(incoming, all, votes, best);
    BestHalf(outgoing, all, votes, best);
    hide Granted, Missing, Extends, HasMajority;
    if CanWin(incoming, outgoing, votes) {
      var votes' :| Extends(votes, votes') && IsQuorum(incoming, outgoing, Granted(all, votes'));
      QuorumMonotone(incoming, outgoing, Granted(all, votes'), Granted(all, best));
    }
  }

  lemma BestHalf(half: set<NodeId>, all: set<NodeId>, votes: map<NodeId, bool>, best: map<NodeId, bool>)
    requires half <= all && best == votes + map v | v in Missing(all, votes) :: true
    ensures HasMajority(half, Granted(all, best)) <==> HasMajority(half, Granted(half, votes) + Missing(half, votes))
  {
    assert half * Granted(all, best) == half * (Granted(half, votes) + Missing(half, votes));
  }

  /** `JointConfig::vote_result`: won exactly with a quorum of both halves, lost exactly when no
      outcome of the missing votes could win. */
  method JointVoteResult(incoming: set<NodeId>, outgoing: set<NodeId>, votes: map<NodeId, bool>)
    returns (r: VoteResult, shortIncoming: nat, shortOutgoing: nat)
    ensures r == Won <==> IsQuorum(incoming, outgoing, Granted(incoming + outgoing, votes))
    ensures r == Lost <==> !CanWin(incoming, outgoing, votes)
    ensures shortIncoming == Short(incoming, votes) && shortOutgoing == Short(outgoing, votes)
  {
    var i, o;
    i, shortIncoming := MajorityVoteResult(incoming, votes);
    o, shortOutgoing := MajorityVoteResult(outgoing, votes);
    BestCase(incoming, outgoing, votes);
    JointGranted(incoming, outgoing, votes);
    MissingHelps(incoming, votes);
    MissingHelps(outgoing, votes);
    hide Granted, Missing, CanWin, HasMajority, Short;
    r := match (i, o)
      case (Won, Won) => Won
      case (Lost, _) => Lost
      case (_, Lost) => Lost
      case (_, _) => Pending;
  }

  lemma JointGranted(incoming: set<NodeId>, outgoing: set<NodeId>, votes: map<NodeId, bool>)
    ensures IsQuorum(incoming, outgoing, Granted(incoming + outgoing, votes)) <==>
            HasMajority(incoming, Granted(incoming, votes)) && HasMajority(outgoing, Granted(outgoing, votes))
  {
    var granted := Granted(incoming + outgoing, votes);
    assert incoming * granted == incoming * Granted(incoming, votes);
    assert outgoing * granted == outgoing * Granted(outgoing, votes);
  }

  lemma MissingHelps(voters: set<NodeId>, votes: map<NodeId, bool>)
    ensures HasMajority(voters, Granted(voters, votes)) ==> HasMajority(voters, Granted(voters, votes) + Missing(voters, votes))
  {
    if HasMajority(voters, Granted(voters, votes)) {
      MajorityMonotone(voters, Granted(voters, votes), Granted(voters, votes) + Missing(voters, votes));
    }
  }

  /** `has_quorum`, as the tracker computes it from a set of ids. */
  method HasQuorum(incoming: set<NodeId>, outgoing: set<NodeId>, ids: set<NodeId>) returns (r: bool)
    ensures r <==> IsQuorum(incoming, outgoing, ids)
  {
    var votes := map v | v in ids :: true;
    var res, _, _ := JointVoteResult(incoming, outgoing, votes);
    assert incoming * Granted(incoming + outgoing, votes) == incoming * ids;
    assert outgoing * Granted(incoming + outgoing, votes) == outgoing * ids;
    r := res == Won;
  }
}
