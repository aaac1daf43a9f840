/** Membership changes (src/confchange/changer.rs) on values: configurations, the single changes, and
    the simple, enter-joint and leave-joint transitions. */
module ConfChanges {
  import opened Quorum

  datatype Conf = Conf(incoming: set<NodeId>, outgoing: set<NodeId>, learners: set<NodeId>, learnersNext: set<NodeId>,
                       autoLeave: bool, witIn: NodeId, witOut: NodeId)

  const EMPTY := Conf({}, {}, {}, {}, false, INVALID_ID, INVALID_ID)

  datatype ChangeType = AddNode | RemoveNode | AddLearnerNode | AddWitness

  datatype Change = Change(kind: ChangeType, id: NodeId)

  /** A configuration being edited, with the ids that have a progress entry. */
  datatype Draft = Draft(conf: Conf, keys: set<NodeId>)

  datatype Result = Ok(draft: Draft) | Err

  // ---- The change log of the progress map ------------------------------------------------------------------

  datatype Delta = Add(id: NodeId) | Remove(id: NodeId)

  /** `IncrChangeMap::contains`: the last change of an id decides, the base map if there is none. */
  predicate Contains(base: set<NodeId>, deltas: seq<Delta>, id: NodeId) {
    if deltas == [] then id in base
    else if deltas[|deltas| - 1].id == id then deltas[|deltas| - 1].Add?
    else Contains(base, deltas[..|deltas| - 1], id)
  }

  /** The progress ids after `apply_conf` replayed the changes. */
  function Replay(base: set<NodeId>, deltas: seq<Delta>): set<NodeId> {
    if deltas == [] then base
    else match deltas[|deltas| - 1]
         case Add(id) => Replay(base, deltas[..|deltas| - 1]) + {id}
         case Remove(id) => Replay(base, deltas[..|deltas| - 1]) - {id}
  }

  /** Replaying the log gives exactly the ids it was said to contain while it was written. */
  lemma {:induction false} ReplayIsContains(base: set<NodeId>, deltas: seq<Delta>, id: NodeId)
    ensures id in Replay(base, deltas) <==> Contains(base, deltas, id)
  {
    if deltas != [] {
      ReplayIsContains(base, deltas[..|deltas| - 1], id);
    }
  }

  // ---- Single changes -----------------------------------------------------------------------------------------

  function MakeVoter(d: Draft, id: NodeId): Draft {
    if id !in d.keys then Draft(d.conf.(incoming := d.conf.incoming + {id}), d.keys + {id})
    else d.(conf := d.conf.(incoming := d.conf.incoming + {id}, learners := d.conf.learners - {id},
         learnersNext := d.conf.learnersNext - {id}))
  }

  function MakeLearner(d: Draft, id: NodeId): Draft {
    if id !in d.keys then Draft(d.conf.(learners := d.conf.learners + {id}), d.keys + {id})
    else if id in d.conf.learners then d
    else if id in d.conf.outgoing then
      d.(conf := d.conf.(incoming := d.conf.incoming - {id}, learnersNext := d.conf.learnersNext + {id}))
    else
      d.(conf := d.conf.(incoming := d.conf.incoming - {id}, learnersNext := d.conf.learnersNext - {id},
      learners := d.conf.learners + {id}))
  }

  function MakeWitness(d: Draft, id: NodeId): Draft {
    Draft(d.conf.(incoming := d.conf.incoming + {id}, learners := d.conf.learners - {id},
          learnersNext := d.conf.learnersNext - {id}, witIn := id), d.keys + {id})
  }

  function RemoveFrom(d: Draft, id: NodeId): Draft {
    if id !in d.keys then d
    else Draft(d.conf.(incoming := d.conf.incoming - {id}, learners := d.conf.learners - {id},
               learnersNext := d.conf.learnersNext - {id},
               witIn := if d.conf.witIn == id then INVALID_ID else d.conf.witIn),
               if id in d.conf.outgoing then d.keys else d.keys - {id})
  }

  /** One change; id 0 stands for a change decided against. */
  function ApplyOne(d: Draft, c: Change): Draft {
    if c.id == INVALID_ID then d
    else match c.kind
         case AddNode => MakeVoter(d, c.id)
         case AddLearnerNode => MakeLearner(d, c.id)
         case RemoveNode => RemoveFrom(d, c.id)
         case AddWitness => MakeWitness(d, c.id)
  }

  function ApplyAll(d: Draft, ccs: seq<Change>): Draft {
    if ccs == [] then d else ApplyOne(ApplyAll(d, ccs[..|ccs| - 1]), ccs[|ccs| - 1])
  }

  predicate Joint(c: Conf) {
    c.outgoing != {}
  }

  /** `check_invariants`. */
  predicate Checks(d: Draft) {
    var c := d.conf;
    && c.incoming + c.outgoing <= d.keys
    && c.learners <= d.keys && c.learners !! c.outgoing && c.learners !! c.incoming
    && c.learnersNext <= d.keys && c.learnersNext <= c.outgoing
    && (!Joint(c) ==> c.learnersNext == {} && !c.autoLeave)
    && (c.witIn > 0 ==> c.witIn in c.incoming) && (c.witOut > 0 ==> c.witOut in c.outgoing)
  }

  // ---- Transitions ---------------------------------------------------------------------------------------------

  /** `simple`: at most one voter changes. */
  function Simple(d: Draft, ccs: seq<Change>): Result {
    if Joint(d.conf) || !Checks(d) then Err
    else
      var r := ApplyAll(d, ccs);
      if r.conf.incoming == {} || |(r.conf.incoming - d.conf.incoming) + (d.conf.incoming - r.conf.incoming)| > 1 || !Checks(r)
      then Err else Ok(r)
  }

  /** The configuration a joint change starts from: the old voters become the outgoing half. */
  function Split(d: Draft): Draft {
    d.(conf := d.conf.(outgoing := d.conf.incoming, witOut := d.conf.witIn))
  }

  /** `enter_joint`. */
  function EnterJoint(d: Draft, autoLeave: bool, ccs: seq<Change>): Result {
    if Joint(d.conf) || !Checks(d) || d.conf.incoming == {} then Err
    else
      var a := ApplyAll(Split(d), ccs);
      var r := a.(conf := a.conf.(autoLeave := autoLeave));
      if r.conf.incoming == {} || !Checks(r) then Err else Ok(r)
  }

  /** The configuration after the outgoing half is gone; staged learners become learners. */
  function Merged(d: Draft): Draft {
    var learners := d.conf.learners + d.conf.learnersNext;
    Draft(d.conf.(learners := learners, learnersNext := {}, outgoing := {}, witOut := INVALID_ID, autoLeave := false),
          d.keys - (set v | v in d.conf.outgoing && v !in d.conf.incoming && v !in learners && v != d.conf.witIn))
  }

  /** `leave_joint`. */
  function LeaveJoint(d: Draft): Result {
    if !Joint(d.conf) || !Checks(d) || !Checks(Merged(d)) then Err else Ok(Merged(d))
  }

  // ---- What every successful change keeps ---------------------------------------------------------------------------

  /** A reachable configuration: progress exactly for its members, the roles apart, no id 0. */
  predicate Exact(d: Draft) {
    var c := d.conf;
    && d.keys == c.incoming + c.outgoing + c.learners
    && c.learners !! c.incoming && c.learners !! c.outgoing
    && c.learnersNext <= c.outgoing && c.learnersNext !! c.incoming
    && INVALID_ID !in d.keys
  }

  lemma OneKeeps(d: Draft, c: Change)
    requires Exact(d)
    ensures Exact(ApplyOne(d, c)) && ApplyOne(d, c).conf.outgoing == d.conf.outgoing
    ensures ApplyOne(d, c).conf.witOut == d.conf.witOut && ApplyOne(d, c).conf.autoLeave == d.conf.autoLeave
  {
  }

  lemma {:induction false} AllKeep(d: Draft, ccs: seq<Change>)
    requires Exact(d)
    ensures Exact(ApplyAll(d, ccs)) && ApplyAll(d, ccs).conf.outgoing == d.conf.outgoing
    ensures ApplyAll(d, ccs).conf.witOut == d.conf.witOut && ApplyAll(d, ccs).conf.autoLeave == d.conf.autoLeave
  {
    if ccs != [] {
      AllKeep(d, ccs[..|ccs| - 1]);
      OneKeeps(ApplyAll(d, ccs[..|ccs| - 1]), ccs[|ccs| - 1]);
    }
  }

  datatype Transition = ToSimple(ccs: seq<Change>) | ToJoint(autoLeave: bool, ccs: seq<Change>) | Leave

  function Transit(d: Draft, t: Transition): Result {
    match t
    case ToSimple(ccs) => Simple(d, ccs)
    case ToJoint(autoLeave, ccs) => EnterJoint(d, autoLeave, ccs)
    case Leave => LeaveJoint(d)
  }

  ghost predicate Follows(d: Draft, d': Draft) {
    exists t :: Transit(d, t) == Ok(d')
  }

  /** A sequence of configurations, each reached from the one before by a successful transition. */
  ghost predicate IsHistory(run: seq<Draft>) {
    && run != [] && run[0] == Draft(EMPTY, {})
    && forall i | 0 <= i < |run| - 1 :: Follows(run[i], run[i + 1])
  }

  lemma TransitKeeps(d: Draft, t: Transition)
    requires Exact(d) && Checks(d) && Transit(d, t).Ok?
    ensures Exact(Transit(d, t).draft) && Checks(Transit(d, t).draft)
  {
    match t
    case ToSimple(ccs) => AllKeep(d, ccs);
    case ToJoint(_, ccs) => AllKeep(Split(d), ccs);
    case Leave =>
  }

  /** After any history the progress map holds exactly the members, and the invariants hold. */
  lemma {:induction false} HistoryExact(run: seq<Draft>, i: nat)
    requires IsHistory(run) && i < |run|
    ensures Exact(run[i]) && Checks(run[i])
  {
    if i > 0 {
      HistoryExact(run, i - 1);
      assert Follows(run[i - 1], run[i]);
      var t :| Transit(run[i - 1], t) == Ok(run[i]);
      TransitKeeps(run[i - 1], t);
    }
  }

  // ---- Quorum overlap ------------------------------------------------------------------------------------------------

  lemma MajoritiesMeet(a: set<NodeId>, b: set<NodeId>, qa: set<NodeId>, qb: set<NodeId>)
    requires a != {} && b != {} && |(b - a) + (a - b)| <= 1
    requires HasMajority(a, qa) && HasMajority(b, qb)
    ensures exists x :: x in qa && x in qb
  {
    var all := a + b;
    assert all == a + (b - a) && all == b + (a - b);
    assert |all| == |a| + |b - a| && |all| == |b| + |a - b|;
    assert |(b - a) + (a - b)| == |b - a| + |a - b|;
    Pigeonhole(all, a * qa, b * qb);
    var x :| x in a * qa && x in b * qb;
    assert x in qa && x in qb;
  }

  /** Every quorum of a configuration shares a voter with every quorum of the next one. */
  lemma QuorumsOverlap(d: Draft, t: Transition, q: set<NodeId>, q': set<NodeId>)
    requires Exact(d) && d.conf.incoming != {} && Transit(d, t).Ok?
    requires IsQuorum(d.conf.incoming, d.conf.outgoing, q)
    requires IsQuorum(Transit(d, t).draft.conf.incoming, Transit(d, t).draft.conf.outgoing, q')
    ensures exists x :: x in q && x in q'
  {
    hide ApplyAll, HasMajority, Checks;
    var c, c' := d.conf, Transit(d, t).draft.conf;
    match t
    case ToSimple(ccs) =>
      MajoritiesMeet(c.incoming, c'.incoming, q, q');
    case ToJoint(_, ccs) =>
      AllKeep(Split(d), ccs);
      MajoritiesMeet(c.incoming, c'.outgoing, q, q');
    case Leave =>
      MajoritiesMeet(c.incoming, c'.incoming, q, q');
  }

  /** So it is at every step of every history. */
  lemma HistoryOverlaps(run: seq<Draft>, i: nat, q: set<NodeId>, q': set<NodeId>)
    requires IsHistory(run) && i + 1 < |run| && run[i].conf.incoming != {}
    requires IsQuorum(run[i].conf.incoming, run[i].conf.outgoing, q)
    requires IsQuorum(run[i + 1].conf.incoming, run[i + 1].conf.outgoing, q')
    ensures exists x :: x in q && x in q'
  {
    hide Transit, IsQuorum, Exact, Checks;
    HistoryExact(run, i);
    assert Follows(run[i], run[i + 1]);
    var t :| Transit(run[i], t) == Ok(run[i + 1]);
    QuorumsOverlap(run[i], t, q, q');
  }

  // ---- When the final check fails -----------------------------------------------------------------------------------

  /** Follows the incoming witness through the changes: who it is, and whether it was made a learner
      since. */
  function Track(w: NodeId, demoted: bool, ccs: seq<Change>): (NodeId, bool) {
    if ccs == [] then (w, demoted)
    else
      var (w, demoted) := Track(w, demoted, ccs[..|ccs| - 1]);
      var c := ccs[|ccs| - 1];
      if c.id == INVALID_ID then (w, demoted)
      else match c.kind
           case AddWitness => (c.id, false)
           case AddNode => (w, demoted && c.id != w)
           case AddLearnerNode => (w, demoted || c.id == w)
           case RemoveNode => if c.id == w then (INVALID_ID, false) else (w, demoted)
  }

  /** The changes leave the incoming witness demoted to a learner. */
  predicate Demotes(w: NodeId, ccs: seq<Change>) {
    Track(w, false, ccs).1
  }

  lemma {:induction false} TrackIs(d: Draft, ccs: seq<Change>)
    requires Exact(d) && (d.conf.witIn != INVALID_ID ==> d.conf.witIn in d.conf.incoming)
    ensures var (w, demoted), c := Track(d.conf.witIn, false, ccs), ApplyAll(d, ccs).conf;
            c.witIn == w && (w == INVALID_ID ==> !demoted) && (w != INVALID_ID ==> (demoted <==> w !in c.incoming))
            && (demoted ==> w in ApplyAll(d, ccs).keys)
  {
    if ccs != [] {
      var before := ccs[..|ccs| - 1];
      TrackIs(d, before);
      AllKeep(d, before);
    }
  }

  /** The check after a simple change fails exactly when the changes demote the witness. */
  lemma SimpleFailsIff(d: Draft, ccs: seq<Change>)
    requires Exact(d) && Checks(d) && !Joint(d.conf)
    ensures Checks(ApplyAll(d, ccs)) <==> !Demotes(d.conf.witIn, ccs)
    ensures Simple(d, ccs).Err? <==>
            var c := ApplyAll(d, ccs).conf;
            c.incoming == {} || |(c.incoming - d.conf.incoming) + (d.conf.incoming - c.incoming)| > 1 || Demotes(d.conf.witIn, ccs)
  {
    AllKeep(d, ccs);
    TrackIs(d, ccs);
  }

  /** The same for a joint change. */
  lemma JointFailsIff(d: Draft, autoLeave: bool, ccs: seq<Change>)
    requires Exact(d) && Checks(d) && !Joint(d.conf) && d.conf.incoming != {}
    ensures EnterJoint(d, autoLeave, ccs).Err? <==>
            ApplyAll(Split(d), ccs).conf.incoming == {} || Demotes(d.conf.witIn, ccs)
  {
    AllKeep(Split(d), ccs);
    TrackIs(Split(d), ccs);
  }

  /** Leaving a joint configuration never fails. */
  lemma LeaveSucceeds(d: Draft)
    requires Exact(d) && Checks(d) && Joint(d.conf)
    ensures LeaveJoint(d) == Ok(Merged(d)) && Exact(Merged(d))
  {
  }
}
