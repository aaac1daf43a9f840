/** What membership changes mean: where every node ends up, told from the list of changes alone, and that
    going through a joint configuration leads to the same membership as changing it directly. */
module ConfMeaning {
  import opened Options
  import opened Quorum
  import opened ConfChanges

  // ---- A list of changes -----------------------------------------------------------------------------------

  /** The last change of a node, which alone decides what becomes of it. */
  function LastKind(ccs: seq<Change>, id: NodeId): Option<ChangeType> {
    if ccs == [] then None
    else if ccs[|ccs| - 1].id == id then Some(ccs[|ccs| - 1].kind)
    else LastKind(ccs[..|ccs| - 1], id)
  }

  /** A node made voter or witness last votes, others named do not. Demoted outgoing voters are staged, other
      nodes become learners at once. */
  lemma {:induction false} ChangesMean(d: Draft, ccs: seq<Change>, id: NodeId)
    requires Exact(d) && id != INVALID_ID
    ensures var c, k := ApplyAll(d, ccs).conf, LastKind(ccs, id);
            && (id in c.incoming <==> if k.None? then id in d.conf.incoming else k.value in {AddNode, AddWitness})
            && (id in c.learners <==>
                if k.None? then id in d.conf.learners else k.value == AddLearnerNode && id !in d.conf.outgoing)
            && (id in c.learnersNext <==>
                if k.None? then id in d.conf.learnersNext else k.value == AddLearnerNode && id in d.conf.outgoing)
  {
    if ccs != [] {
      ChangesMean(d, ccs[..|ccs| - 1], id);
      AllKeep(d, ccs[..|ccs| - 1]);
    }
  }

  /** A change that gives the configuration a witness. */
  predicate Names(c: Change) {
    c.kind == AddWitness && c.id != INVALID_ID
  }

  /** From change `i` on nobody else is made witness and `w` is not removed. */
  predicate Stays(ccs: seq<Change>, i: nat, w: NodeId) {
    forall j | i <= j < |ccs| :: !Names(ccs[j]) && ccs[j] != Change(RemoveNode, w)
  }

  /** The witness is the one named last, or the old one, unless it was removed since. */
  ghost predicate EndsAsWitness(was: NodeId, ccs: seq<Change>, w: NodeId) {
    || (was == w && Stays(ccs, 0, w))
    || exists i :: 0 <= i < |ccs| && ccs[i] == Change(AddWitness, w) && Stays(ccs, i + 1, w)
  }

  lemma {:induction false} WitnessMeans(d: Draft, ccs: seq<Change>, w: NodeId)
    requires Exact(d) && (d.conf.witIn != INVALID_ID ==> d.conf.witIn in d.conf.incoming) && w != INVALID_ID
    ensures ApplyAll(d, ccs).conf.witIn == w <==> EndsAsWitness(d.conf.witIn, ccs, w)
  {
    if ccs != [] {
      var before, last := ccs[..|ccs| - 1], ccs[|ccs| - 1];
      WitnessMeans(d, before, w);
      OneWitness(d, before, last);
      EndsStep(d.conf.witIn, before, last, w);
      assert before + [last] == ccs;
    }
  }

  lemma OneWitness(d: Draft, before: seq<Change>, c: Change)
    requires Exact(d) && (d.conf.witIn != INVALID_ID ==> d.conf.witIn in d.conf.incoming)
    ensures var r := ApplyAll(d, before);
            ApplyOne(r, c).conf.witIn == if Names(c) then c.id
            else if c.kind == RemoveNode && c.id == r.conf.witIn then INVALID_ID
            else r.conf.witIn
  {
    AllKeep(d, before);
    TrackIs(d, before);
  }

  lemma EndsStep(was: NodeId, before: seq<Change>, c: Change, w: NodeId)
    requires w != INVALID_ID
    ensures EndsAsWitness(was, before + [c], w)
       <==> c == Change(AddWitness, w) || (EndsAsWitness(was, before, w) && !Names(c) && c != Change(RemoveNode, w))
  {
    var ccs := before + [c];
    if c == Change(AddWitness, w) {
      assert ccs[|before|] == c && Stays(ccs, |before| + 1, w);
    } else {
      forall i: nat | i <= |before|
        ensures Stays(ccs, i, w) <==> Stays(before, i, w) && !Names(c) && c != Change(RemoveNode, w)
      {
        assert forall j | i <= j < |before| :: ccs[j] == before[j];
        assert ccs[|before|] == c;
      }
      assert forall i | 0 <= i < |before| :: ccs[i] == before[i];
    }
  }

  // ---- Transitions --------------------------------------------------------------------------------------------

  /** Leaving a joint configuration keeps the incoming voters and their witness, and turns staged learners into
      learners; everybody else is forgotten. */
  lemma LeaveMeans(d: Draft)
    requires Exact(d) && LeaveJoint(d).Ok?
    ensures var c, e := d.conf, LeaveJoint(d).draft;
            && e.conf.incoming == c.incoming && e.conf.outgoing == {}
            && e.conf.learners == c.learners + c.learnersNext && e.conf.learnersNext == {}
            && e.conf.witIn == c.witIn && e.conf.witOut == INVALID_ID && !e.conf.autoLeave
            && e.keys == c.incoming + c.learners + c.learnersNext
  {
    assert Checks(d);
  }

  /** Entering one keeps all old voters as the outgoing half. */
  lemma EnterMeans(d: Draft, autoLeave: bool, ccs: seq<Change>, id: NodeId)
    requires Exact(d) && EnterJoint(d, autoLeave, ccs).Ok? && id != INVALID_ID
    ensures var c, e, k := d.conf, EnterJoint(d, autoLeave, ccs).draft, LastKind(ccs, id);
            && e.conf.outgoing == c.incoming && e.conf.witOut == c.witIn && e.conf.autoLeave == autoLeave
            && (id in e.conf.incoming <==> if k.None? then id in c.incoming else k.value in {AddNode, AddWitness})
            && (id in e.conf.learners <==> if k.None? then id in c.learners else k.value == AddLearnerNode && id !in c.incoming)
            && (id in e.conf.learnersNext <==> k == Some(AddLearnerNode) && id in c.incoming)
            && (id in e.keys <==> id in e.conf.incoming || id in e.conf.outgoing || id in e.conf.learners)
  {
    AllKeep(Split(d), ccs);
    ChangesMean(Split(d), ccs, id);
  }

  lemma SimpleMeans(d: Draft, ccs: seq<Change>, id: NodeId)
    requires Exact(d) && Simple(d, ccs).Ok? && id != INVALID_ID
    ensures var c, e, k := d.conf, Simple(d, ccs).draft, LastKind(ccs, id);
            && e.conf.outgoing == {} && e.conf.learnersNext == {} && !e.conf.autoLeave
            && (id in e.conf.incoming <==> if k.None? then id in c.incoming else k.value in {AddNode, AddWitness})
            && (id in e.conf.learners <==> if k.None? then id in c.learners else k.value == AddLearnerNode)
            && (id in e.keys <==> id in e.conf.incoming || id in e.conf.learners)
  {
    AllKeep(d, ccs);
    ChangesMean(d, ccs, id);
  }

  // ---- Joint and direct changes ---------------------------------------------------------------------------------

  /** The changes lead to the same voters, witness and learners from the joint configuration, staged learners
      counted, as from the one it was made of. */
  lemma SplitChanges(d: Draft, ccs: seq<Change>)
    requires Exact(d) && Checks(d) && !Joint(d.conf)
    ensures var a, b := ApplyAll(Split(d), ccs).conf, ApplyAll(d, ccs).conf;
            && a.incoming == b.incoming && a.learners + a.learnersNext == b.learners && a.witIn == b.witIn
            && b.learnersNext == {} && b.outgoing == {} && b.witOut == INVALID_ID && !b.autoLeave
  {
    AllKeep(d, ccs);
    AllKeep(Split(d), ccs);
    TrackIs(d, ccs);
    TrackIs(Split(d), ccs);
    hide ApplyAll;
    var a, b := ApplyAll(Split(d), ccs).conf, ApplyAll(d, ccs).conf;
    forall id | id != INVALID_ID
      ensures id in a.incoming <==> id in b.incoming
      ensures id in a.learners + a.learnersNext <==> id in b.learners
    {
      ChangesMean(d, ccs, id);
      ChangesMean(Split(d), ccs, id);
    }
  }

  /** Entering a joint configuration and leaving it again does what the changes do directly. */
  lemma JointThenLeave(d: Draft, autoLeave: bool, ccs: seq<Change>)
    requires Exact(d) && EnterJoint(d, autoLeave, ccs).Ok?
    ensures LeaveJoint(EnterJoint(d, autoLeave, ccs).draft) == Ok(ApplyAll(d, ccs))
  {
    var e := EnterJoint(d, autoLeave, ccs).draft;
    TransitKeeps(d, ToJoint(autoLeave, ccs));
    AllKeep(d, ccs);
    AllKeep(Split(d), ccs);
    SplitChanges(d, ccs);
    hide ApplyAll;
    LeaveSucceeds(e);
    LeaveMeans(e);
  }

  /** So a change that may be made in one simple step may also be made jointly, with the same outcome. */
  lemma JointIsSimple(d: Draft, autoLeave: bool, ccs: seq<Change>)
    requires Exact(d) && d.conf.incoming != {} && Simple(d, ccs).Ok?
    ensures EnterJoint(d, autoLeave, ccs).Ok? && LeaveJoint(EnterJoint(d, autoLeave, ccs).draft) == Simple(d, ccs)
  {
    SimpleFailsIff(d, ccs);
    JointFailsIff(d, autoLeave, ccs);
    SplitChanges(d, ccs);
    hide ApplyAll;
    JointThenLeave(d, autoLeave, ccs);
  }
}
