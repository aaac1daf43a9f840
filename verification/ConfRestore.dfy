/** Rebuilding a configuration from its stored description (src/confchange/restore.rs). */
module ConfRestore {
  import opened Quorum
  import opened ConfChanges

  /** A stored configuration. The lists come from hash sets, in any order. */
  datatype ConfState = ConfState(voters: seq<NodeId>, votersOutgoing: seq<NodeId>, learners: seq<NodeId>,
                                 learnersNext: seq<NodeId>, autoLeave: bool, wit: NodeId, witOutgoing: NodeId)

  /** `to_conf_state`, up to the order of the lists. */
  predicate Describes(cs: ConfState, c: Conf) {
    && Elements(cs.voters) == c.incoming && Elements(cs.votersOutgoing) == c.outgoing
    && Elements(cs.learners) == c.learners && Elements(cs.learnersNext) == c.learnersNext
    && cs.autoLeave == c.autoLeave && cs.wit == c.witIn && cs.witOutgoing == c.witOut
  }

  // ---- The changes -------------------------------------------------------------------------------------------

  function Adds(ids: seq<NodeId>, w: NodeId): seq<Change> {
    seq(|ids|, i requires 0 <= i < |ids| => Change(if ids[i] == w then AddWitness else AddNode, ids[i]))
  }

  function All(kind: ChangeType, ids: seq<NodeId>): seq<Change> {
    seq(|ids|, i requires 0 <= i < |ids| => Change(kind, ids[i]))
  }

  /** `to_conf_change_single`: first what makes the outgoing half, then what makes the rest from it. */
  function OutgoingChanges(cs: ConfState): seq<Change> {
    Adds(cs.votersOutgoing, cs.witOutgoing)
  }

  function IncomingChanges(cs: ConfState): seq<Change> {
    All(RemoveNode, cs.votersOutgoing) + Adds(cs.voters, cs.wit) + All(AddLearnerNode, cs.learners)
    + All(AddLearnerNode, cs.learnersNext)
  }

  /** One simple change after the other, stopping at the first error. */
  function OneByOne(d: Draft, ccs: seq<Change>): Result {
    if ccs == [] then Ok(d)
    else match OneByOne(d, ccs[..|ccs| - 1])
         case Err => Err
         case Ok(d1) => Simple(d1, [ccs[|ccs| - 1]])
  }

  /** `restore`. */
  function Restore(d: Draft, cs: ConfState): Result {
    if cs.votersOutgoing == [] then OneByOne(d, IncomingChanges(cs))
    else match OneByOne(d, OutgoingChanges(cs))
         case Err => Err
         case Ok(d1) => EnterJoint(d1, cs.autoLeave, IncomingChanges(cs))
  }

  // ---- Stages ---------------------------------------------------------------------------------------------------

  lemma {:induction false} OneByOneJoins(d: Draft, a: seq<Change>, b: seq<Change>)
    ensures OneByOne(d, a + b) == (match OneByOne(d, a) case Err => Err case Ok(d1) => OneByOne(d1, b))
  {
    if b == [] {
      assert a + b == a;
    } else {
      assert (a + b)[..|a + b| - 1] == a + b[..|b| - 1];
      OneByOneJoins(d, a, b[..|b| - 1]);
    }
  }

  lemma {:induction false} ApplyJoins(d: Draft, a: seq<Change>, b: seq<Change>)
    ensures ApplyAll(d, a + b) == ApplyAll(ApplyAll(d, a), b)
  {
    if b == [] {
      assert a + b == a;
    } else {
      assert (a + b)[..|a + b| - 1] == a + b[..|b| - 1];
      ApplyJoins(d, a, b[..|b| - 1]);
    }
  }

  lemma ElementsGrow(ids: seq<NodeId>, k: nat)
    requires k < |ids|
    ensures Elements(ids[..k + 1]) == Elements(ids[..k]) + {ids[k]}
  {
    assert ids[..k + 1] == ids[..k] + [ids[k]];
  }

  /** The witness as far as the list was added. */
  function WitnessOf(ids: seq<NodeId>, w: NodeId): NodeId {
    if w in ids then w else INVALID_ID
  }

  /** Adding the first `k` voters to a configuration without any. */
  function WithVoters(d: Draft, ids: seq<NodeId>, w: NodeId): Draft {
    Draft(d.conf.(incoming := Elements(ids), witIn := WitnessOf(ids, w)), d.keys + Elements(ids))
  }

  /** A configuration whose incoming half is being built: no voters, learners or witness yet. */
  predicate Blank(d: Draft) {
    && d.conf.incoming == {} && d.conf.learners == {} && d.conf.learnersNext == {} && d.conf.witIn == INVALID_ID
    && d.keys == d.conf.outgoing
  }

  lemma AddStep(d: Draft, ids: seq<NodeId>, w: NodeId, k: nat)
    requires Blank(d) && k < |ids| && INVALID_ID !in ids
    ensures ApplyOne(WithVoters(d, ids[..k], w), Adds(ids, w)[k]) == WithVoters(d, ids[..k + 1], w)
  {
    ElementsGrow(ids, k);
    assert ids[k] in ids;
    assert ids[..k + 1] == ids[..k] + [ids[k]];
  }

  lemma {:induction false} AddsApplied(d: Draft, ids: seq<NodeId>, w: NodeId, k: nat)
    requires Blank(d) && k <= |ids| && INVALID_ID !in ids
    ensures ApplyAll(d, Adds(ids, w)[..k]) == WithVoters(d, ids[..k], w)
  {
    if k > 0 {
      AddsApplied(d, ids, w, k - 1);
      assert Adds(ids, w)[..k][..k - 1] == Adds(ids, w)[..k - 1];
      AddStep(d, ids, w, k - 1);
    } else {
      assert ids[..0] == [] && Adds(ids, w)[..0] == [];
    }
  }

  /** Adding the voters one simple change at a time succeeds at every step. */
  lemma {:induction false} AddsSucceed(ids: seq<NodeId>, w: NodeId, k: nat)
    requires k <= |ids| && INVALID_ID !in ids
    ensures OneByOne(Draft(EMPTY, {}), Adds(ids, w)[..k]) == Ok(WithVoters(Draft(EMPTY, {}), ids[..k], w))
  {
    var d := Draft(EMPTY, {});
    if k > 0 {
      AddsSucceed(ids, w, k - 1);
      assert Adds(ids, w)[..k][..k - 1] == Adds(ids, w)[..k - 1];
      AddStep(d, ids, w, k - 1);
      ElementsGrow(ids, k - 1);
      SimpleOne(WithVoters(d, ids[..k - 1], w), Adds(ids, w)[k - 1], ids[k - 1]);
    } else {
      assert ids[..0] == [] && Adds(ids, w)[..0] == [];
    }
  }

  /** A single change that adds a voter or a learner to a sound configuration passes all checks. */
  lemma SimpleOne(d: Draft, c: Change, id: NodeId)
    requires !Joint(d.conf) && Checks(d)
    requires Checks(ApplyOne(d, c)) && ApplyOne(d, c).conf.incoming != {}
    requires d.conf.incoming <= ApplyOne(d, c).conf.incoming <= d.conf.incoming + {id}
    ensures Simple(d, [c]) == Ok(ApplyOne(d, c))
  {
    assert [c][..0] == [] && ApplyAll(d, [c]) == ApplyOne(d, c);
    var a, b := d.conf.incoming, ApplyOne(d, c).conf.incoming;
    SubsetSize((b - a) + (a - b), {id});
  }

  // ---- Learners ----------------------------------------------------------------------------------------------------

  function WithLearners(d: Draft, ids: seq<NodeId>): Draft {
    Draft(d.conf.(learners := Elements(ids)), d.keys + Elements(ids))
  }

  /** No learner yet, and none of the new ones is known. */
  predicate NoLearners(d: Draft, ids: seq<NodeId>) {
    d.conf.learners == {} && d.conf.learnersNext == {} && Elements(ids) !! d.keys && INVALID_ID !in ids
    && d.keys == d.conf.incoming + d.conf.outgoing
  }

  lemma LearnerStep(d: Draft, ids: seq<NodeId>, k: nat)
    requires NoLearners(d, ids) && k < |ids|
    ensures ApplyOne(WithLearners(d, ids[..k]), All(AddLearnerNode, ids)[k]) == WithLearners(d, ids[..k + 1])
  {
    ElementsGrow(ids, k);
    assert ids[k] in ids && ids[k] in Elements(ids);
  }

  lemma {:induction false} LearnersApplied(d: Draft, ids: seq<NodeId>, k: nat)
    requires NoLearners(d, ids) && k <= |ids|
    ensures ApplyAll(d, All(AddLearnerNode, ids)[..k]) == WithLearners(d, ids[..k])
  {
    if k > 0 {
      LearnersApplied(d, ids, k - 1);
      assert All(AddLearnerNode, ids)[..k][..k - 1] == All(AddLearnerNode, ids)[..k - 1];
      LearnerStep(d, ids, k - 1);
    } else {
      assert ids[..0] == [] && All(AddLearnerNode, ids)[..0] == [];
    }
  }

  lemma {:induction false} LearnersSucceed(d: Draft, ids: seq<NodeId>, k: nat)
    requires NoLearners(d, ids) && k <= |ids| && Checks(d) && !Joint(d.conf) && d.conf.incoming != {}
    ensures OneByOne(d, All(AddLearnerNode, ids)[..k]) == Ok(WithLearners(d, ids[..k]))
  {
    hide Simple, Checks, ApplyOne;
    if k > 0 {
      LearnersSucceed(d, ids, k - 1);
      assert All(AddLearnerNode, ids)[..k][..k - 1] == All(AddLearnerNode, ids)[..k - 1];
      LearnerStep(d, ids, k - 1);
      LearnersCheck(d, ids, k - 1);
      LearnersCheck(d, ids, k);
      SimpleOne(WithLearners(d, ids[..k - 1]), All(AddLearnerNode, ids)[k - 1], ids[k - 1]);
    } else {
      assert ids[..0] == [] && All(AddLearnerNode, ids)[..0] == [];
    }
  }

  lemma LearnersCheck(d: Draft, ids: seq<NodeId>, k: nat)
    requires NoLearners(d, ids) && k <= |ids| && Checks(d) && !Joint(d.conf)
    ensures Checks(WithLearners(d, ids[..k]))
  {
    assert Elements(ids[..k]) <= Elements(ids);
  }

  // ---- The joint part -------------------------------------------------------------------------------------------------

  /** Removing the first `k` outgoing voters from the incoming half. */
  function Without(d: Draft, ids: seq<NodeId>): Draft {
    d.(conf := d.conf.(incoming := d.conf.incoming - Elements(ids),
    witIn := if d.conf.witIn in ids then INVALID_ID else d.conf.witIn))
  }

  predicate AllOutgoing(d: Draft, ids: seq<NodeId>) {
    && Elements(ids) <= d.conf.outgoing && d.keys == d.conf.outgoing && INVALID_ID !in ids
    && d.conf.learners == {} && d.conf.learnersNext == {}
  }

  lemma {:induction false} RemovesApplied(d: Draft, ids: seq<NodeId>, k: nat)
    requires AllOutgoing(d, ids) && k <= |ids|
    ensures ApplyAll(d, All(RemoveNode, ids)[..k]) == Without(d, ids[..k])
  {
    if k > 0 {
      RemovesApplied(d, ids, k - 1);
      assert All(RemoveNode, ids)[..k][..k - 1] == All(RemoveNode, ids)[..k - 1];
      ElementsGrow(ids, k - 1);
      assert ids[k - 1] in ids && ids[k - 1] in Elements(ids);
      assert ids[..k] == ids[..k - 1] + [ids[k - 1]];
    } else {
      assert ids[..0] == [] && All(RemoveNode, ids)[..0] == [];
    }
  }

  function WithNext(d: Draft, ids: seq<NodeId>): Draft {
    d.(conf := d.conf.(learnersNext := Elements(ids)))
  }

  predicate NoNext(d: Draft, ids: seq<NodeId>) {
    && d.conf.learnersNext == {} && Elements(ids) <= d.conf.outgoing <= d.keys && Elements(ids) !! d.conf.incoming
    && d.conf.learners !! d.conf.outgoing && INVALID_ID !in ids
  }

  lemma {:induction false} NextApplied(d: Draft, ids: seq<NodeId>, k: nat)
    requires NoNext(d, ids) && k <= |ids|
    ensures ApplyAll(d, All(AddLearnerNode, ids)[..k]) == WithNext(d, ids[..k])
  {
    if k > 0 {
      NextApplied(d, ids, k - 1);
      assert All(AddLearnerNode, ids)[..k][..k - 1] == All(AddLearnerNode, ids)[..k - 1];
      ElementsGrow(ids, k - 1);
      assert ids[k - 1] in ids && ids[k - 1] in Elements(ids);
      assert d.conf.incoming - {ids[k - 1]} == d.conf.incoming;
    } else {
      assert ids[..0] == [] && All(AddLearnerNode, ids)[..0] == [];
    }
  }

  // ---- The round trip -----------------------------------------------------------------------------------------------------

  /** What is stored of a reachable configuration lists no id 0 and its witnesses among the voters. */
  lemma StoredShape(d: Draft, cs: ConfState)
    requires Exact(d) && Checks(d) && Describes(cs, d.conf)
    ensures INVALID_ID !in cs.voters && INVALID_ID !in cs.votersOutgoing
    ensures INVALID_ID !in cs.learners && INVALID_ID !in cs.learnersNext
    ensures WitnessOf(cs.voters, cs.wit) == cs.wit && WitnessOf(cs.votersOutgoing, cs.witOutgoing) == cs.witOutgoing
  {
    assert INVALID_ID !in Elements(cs.voters) && INVALID_ID !in Elements(cs.votersOutgoing);
    assert INVALID_ID !in Elements(cs.learners) && INVALID_ID !in Elements(cs.learnersNext);
    assert cs.wit > 0 ==> cs.wit in Elements(cs.voters);
    assert cs.witOutgoing > 0 ==> cs.witOutgoing in Elements(cs.votersOutgoing);
  }

  lemma MajorityRoundTrip(d: Draft, cs: ConfState)
    requires Exact(d) && Checks(d) && Describes(cs, d.conf) && d.conf.incoming != {} && !Joint(d.conf)
    ensures Restore(Draft(EMPTY, {}), cs) == Ok(d)
  {
    StoredShape(d, cs);
    NoneListed(cs.votersOutgoing);
    NoneListed(cs.learnersNext);
    hide OneByOne, Simple, Adds, All;
    var e, vs, ls := Draft(EMPTY, {}), Adds(cs.voters, cs.wit), All(AddLearnerNode, cs.learners);
    MajorityChanges(cs);
    OneByOneJoins(e, vs, ls);
    var d1 := WithVoters(e, cs.voters, cs.wit);
    AddsSucceed(cs.voters, cs.wit, |cs.voters|);
    LearnersSucceed(d1, cs.learners, |cs.learners|);
  }

  lemma MajorityChanges(cs: ConfState)
    requires cs.votersOutgoing == [] && cs.learnersNext == []
    ensures IncomingChanges(cs) == Adds(cs.voters, cs.wit) + All(AddLearnerNode, cs.learners)
    ensures Adds(cs.voters, cs.wit)[..|cs.voters|] == Adds(cs.voters, cs.wit) && cs.voters[..|cs.voters|] == cs.voters
    ensures All(AddLearnerNode, cs.learners)[..|cs.learners|] == All(AddLearnerNode, cs.learners)
    ensures cs.learners[..|cs.learners|] == cs.learners
  {
  }

  lemma NoneListed(ids: seq<NodeId>)
    ensures Elements(ids) == {} <==> ids == []
  {
    assert ids != [] ==> ids[0] in Elements(ids);
  }

  /** Everything the joint change applies, stage by stage. */
  lemma JointStages(d: Draft, cs: ConfState, s: Draft)
    requires Exact(d) && Checks(d) && Describes(cs, d.conf)
    requires s == Draft(Conf(d.conf.outgoing, d.conf.outgoing, {}, {}, false, d.conf.witOut, d.conf.witOut), d.conf.outgoing)
    ensures ApplyAll(s, IncomingChanges(cs)) == d.(conf := d.conf.(autoLeave := false))
  {
    StoredShape(d, cs);
    var rs, vs := All(RemoveNode, cs.votersOutgoing), Adds(cs.voters, cs.wit);
    var ls, ns := All(AddLearnerNode, cs.learners), All(AddLearnerNode, cs.learnersNext);
    ApplyJoins(s, rs + vs + ls, ns);
    ApplyJoins(s, rs + vs, ls);
    ApplyJoins(s, rs, vs);
    RemovesApplied(s, cs.votersOutgoing, |rs|);
    assert rs[..|rs|] == rs && cs.votersOutgoing[..|rs|] == cs.votersOutgoing;
    var s1 := Without(s, cs.votersOutgoing);
    assert Blank(s1);
    AddsApplied(s1, cs.voters, cs.wit, |vs|);
    assert vs[..|vs|] == vs && cs.voters[..|vs|] == cs.voters;
    var s2 := WithVoters(s1, cs.voters, cs.wit);
    LearnersApplied(s2, cs.learners, |ls|);
    assert ls[..|ls|] == ls && cs.learners[..|ls|] == cs.learners;
    var s3 := WithLearners(s2, cs.learners);
    NextApplied(s3, cs.learnersNext, |ns|);
    assert ns[..|ns|] == ns && cs.learnersNext[..|ns|] == cs.learnersNext;
  }

  lemma JointRoundTrip(d: Draft, cs: ConfState)
    requires Exact(d) && Checks(d) && Describes(cs, d.conf) && d.conf.incoming != {} && Joint(d.conf)
    ensures Restore(Draft(EMPTY, {}), cs) == Ok(d)
  {
    StoredShape(d, cs);
    NoneListed(cs.votersOutgoing);
    var vs := Adds(cs.votersOutgoing, cs.witOutgoing);
    AddsSucceed(cs.votersOutgoing, cs.witOutgoing, |vs|);
    assert vs[..|vs|] == vs && cs.votersOutgoing[..|vs|] == cs.votersOutgoing;
    hide OneByOne, ApplyAll, Adds, IncomingChanges;
    var d1 := WithVoters(Draft(EMPTY, {}), cs.votersOutgoing, cs.witOutgoing);
    JointStages(d, cs, Split(d1));
    JointEnters(d, cs, d1);
  }

  /** Entering the joint configuration from its outgoing half passes all checks. */
  lemma JointEnters(d: Draft, cs: ConfState, d1: Draft)
    requires Exact(d) && Checks(d) && cs.autoLeave == d.conf.autoLeave && d.conf.incoming != {} && Joint(d.conf)
    requires d1 == Draft(Conf(d.conf.outgoing, {}, {}, {}, false, d.conf.witOut, INVALID_ID), d.conf.outgoing)
    requires ApplyAll(Split(d1), IncomingChanges(cs)) == d.(conf := d.conf.(autoLeave := false))
    ensures EnterJoint(d1, cs.autoLeave, IncomingChanges(cs)) == Ok(d)
  {
    hide ApplyAll;
  }

  /** Restoring what was stored of any configuration reached by successful changes rebuilds it, progress
      ids included, and every intermediate change is accepted. */
  lemma RoundTrip(run: seq<Draft>, i: nat, cs: ConfState)
    requires IsHistory(run) && i < |run| && run[i].conf.incoming != {} && Describes(cs, run[i].conf)
    ensures Restore(Draft(EMPTY, {}), cs) == Ok(run[i])
  {
    HistoryExact(run, i);
    if Joint(run[i].conf) {
      JointRoundTrip(run[i], cs);
    } else {
      MajorityRoundTrip(run[i], cs);
    }
  }
}
