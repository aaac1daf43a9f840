/** The objects behind membership changes (src/confchange, `ProgressTracker::apply_conf`): a
    configuration edited in place with a log of what to do to the progress map, and the tracker the
    result is applied to. */
module ChangerObject {
  import opened Options
  import opened Quorum
  import opened ConfChanges
  import R = ConfRestore

  class Editor {
    const base: set<NodeId>
    var cfg: Conf
    var changes: seq<Delta>

    /** The draft this edit stands for. */
    ghost function Value(): Draft
      reads this
    {
      Draft(cfg, Replay(base, changes))
    }

    constructor (c: Conf, ids: set<NodeId>)
      ensures Value() == Draft(c, ids) && base == ids && changes == []
    {
      base, cfg, changes := ids, c, [];
    }

    /** The last change of an id decides whether it has a progress entry. */
    method Has(id: NodeId) returns (r: bool)
      ensures r <==> id in Value().keys
    {
      ReplayIsContains(base, changes, id);
      var i := |changes|;
      assert changes[..i] == changes;
      while i > 0
        invariant 0 <= i <= |changes| && (Contains(base, changes, id) <==> Contains(base, changes[..i], id))
      {
        assert changes[..i][..i - 1] == changes[..i - 1];
        if changes[i - 1].id == id {
          return changes[i - 1].Add?;
        }
        i := i - 1;
      }
      return id in base;
    }

    method Push(d: Delta)
      modifies this`changes
      ensures changes == old(changes) + [d]
      ensures Value().keys == if d.Add? then old(Value().keys) + {d.id} else old(Value().keys) - {d.id}
    {
      changes := changes + [d];
      assert changes[..|changes| - 1] == old(changes);
    }

    method Voter(id: NodeId)
      modifies this
      ensures Value() == MakeVoter(old(Value()), id)
    {
      var has := Has(id);
      if !has {
        cfg := cfg.(incoming := cfg.incoming + {id});
        Push(Add(id));
        return;
      }
      cfg := cfg.(incoming := cfg.incoming + {id}, learners := cfg.learners - {id}, learnersNext := cfg.learnersNext - {id});
    }

    method Learner(id: NodeId)
      modifies this
      ensures Value() == MakeLearner(old(Value()), id)
    {
      var has := Has(id);
      if !has {
        cfg := cfg.(learners := cfg.learners + {id});
        Push(Add(id));
        return;
      }
      if id in cfg.learners {
        return;
      }
      cfg := cfg.(incoming := cfg.incoming - {id}, learners := cfg.learners - {id}, learnersNext := cfg.learnersNext - {id});
      if id in cfg.outgoing {
        cfg := cfg.(learnersNext := cfg.learnersNext + {id});
        assert cfg.learners == old(cfg).learners && cfg.learnersNext == old(cfg).learnersNext + {id};
      } else {
        cfg := cfg.(learners := cfg.learners + {id});
        assert cfg.learners == old(cfg).learners + {id};
      }
    }

    method Witness(id: NodeId)
      modifies this
      ensures Value() == MakeWitness(old(Value()), id)
    {
      cfg := cfg.(incoming := cfg.incoming + {id}, learners := cfg.learners - {id}, learnersNext := cfg.learnersNext - {id},
      witIn := id);
      var has := Has(id);
      if !has {
        Push(Add(id));
      } else {
        assert Value().keys + {id} == Value().keys;
      }
    }

    method Drop(id: NodeId)
      modifies this
      ensures Value() == RemoveFrom(old(Value()), id)
    {
      var has := Has(id);
      if !has {
        return;
      }
      cfg := cfg.(incoming := cfg.incoming - {id}, learners := cfg.learners - {id}, learnersNext := cfg.learnersNext - {id});
      if cfg.witIn == id {
        cfg := cfg.(witIn := INVALID_ID);
      }
      if id !in cfg.outgoing {
        Push(Remove(id));
      }
    }

    /** Applies the changes in order; removing all voters is an error. */
    method Apply(ccs: seq<Change>) returns (ok: bool)
      modifies this
      ensures Value() == ApplyAll(old(Value()), ccs) && (ok <==> cfg.incoming != {})
    {
      assert ccs[..0] == [];
      for i := 0 to |ccs|
        invariant Value() == ApplyAll(old(Value()), ccs[..i])
      {
        assert ccs[..i + 1][..i] == ccs[..i];
        var c := ccs[i];
        if c.id != INVALID_ID {
          match c.kind
          case AddNode => Voter(c.id);
          case AddLearnerNode => Learner(c.id);
          case RemoveNode => Drop(c.id);
          case AddWitness => Witness(c.id);
        }
      }
      assert ccs[..|ccs|] == ccs;
      return cfg.incoming != {};
    }

    /** All of `ids` have a progress entry. */
    method HasAll(ids: set<NodeId>) returns (r: bool)
      ensures r <==> ids <= Value().keys
    {
      var rest := ids;
      while rest != {}
        invariant rest <= ids && ids - rest <= Value().keys
        decreases rest
      {
        var id :| id in rest;
        var has := Has(id);
        if !has {
          return false;
        }
        rest := rest - {id};
      }
      return true;
    }

    /** `check_invariants`. */
    method Check() returns (r: bool)
      ensures r <==> Checks(Value())
    {
      var voters := HasAll(cfg.incoming + cfg.outgoing);
      var learners := HasAll(cfg.learners);
      var next := HasAll(cfg.learnersNext);
      r := voters && learners && cfg.learners !! cfg.outgoing && cfg.learners !! cfg.incoming
           && next && cfg.learnersNext <= cfg.outgoing
           && (cfg.outgoing == {} ==> cfg.learnersNext == {} && !cfg.autoLeave)
           && (cfg.witIn > 0 ==> cfg.witIn in cfg.incoming) && (cfg.witOut > 0 ==> cfg.witOut in cfg.outgoing);
    }

    /** The Remove entries a joint configuration leaves behind when its outgoing half goes. */
    method DropOutgoing(gone: set<NodeId>)
      modifies this`changes
      ensures Value() == Draft(cfg, old(Value()).keys - gone)
    {
      var rest := gone;
      while rest != {}
        invariant rest <= gone && Value().keys == old(Value()).keys - (gone - rest)
        decreases rest
      {
        var id :| id in rest;
        Push(Remove(id));
        rest := rest - {id};
      }
      assert gone - rest == gone;
    }
  }

  class ConfTracker {
    var conf: Conf
    var progress: set<NodeId>

    ghost function Value(): Draft
      reads this
    {
      Draft(conf, progress)
    }

    constructor ()
      ensures Value() == Draft(EMPTY, {})
    {
      conf, progress := EMPTY, {};
    }

    /** What a change would give: the configuration and the log to replay, or an error. */
    ghost predicate Gives(r: Option<(Conf, seq<Delta>)>, spec: Result)
      reads this
    {
      match r
      case None => spec == Err
      case Some(p) => spec == Ok(Draft(p.0, Replay(progress, p.1)))
    }

    method TrySimple(ccs: seq<Change>) returns (r: Option<(Conf, seq<Delta>)>)
      ensures Gives(r, Simple(Value(), ccs))
    {
      if conf.outgoing != {} {
        return None;
      }
      var e := new Editor(conf, progress);
      var ok := e.Check();
      if !ok {
        return None;
      }
      ok := e.Apply(ccs);
      if !ok || |(e.cfg.incoming - conf.incoming) + (conf.incoming - e.cfg.incoming)| > 1 {
        return None;
      }
      ok := e.Check();
      if !ok {
        return None;
      }
      return Some((e.cfg, e.changes));
    }

    method TryEnterJoint(autoLeave: bool, ccs: seq<Change>) returns (r: Option<(Conf, seq<Delta>)>)
      ensures Gives(r, EnterJoint(Value(), autoLeave, ccs))
    {
      if conf.outgoing != {} {
        return None;
      }
      var e := new Editor(conf, progress);
      var ok := e.Check();
      if !ok || e.cfg.incoming == {} {
        return None;
      }
      e.cfg := e.cfg.(outgoing := e.cfg.incoming, witOut := e.cfg.witIn);
      assert e.Value() == Split(Value());
      ok := e.Apply(ccs);
      if !ok {
        return None;
      }
      e.cfg := e.cfg.(autoLeave := autoLeave);
      ok := e.Check();
      if !ok {
        return None;
      }
      return Some((e.cfg, e.changes));
    }

    method TryLeaveJoint() returns (r: Option<(Conf, seq<Delta>)>)
      ensures Gives(r, LeaveJoint(Value()))
    {
      if conf.outgoing == {} {
        return None;
      }
      var e := new Editor(conf, progress);
      var ok := e.Check();
      if !ok {
        return None;
      }
      e.cfg := e.cfg.(learners := e.cfg.learners + e.cfg.learnersNext, learnersNext := {});
      e.DropOutgoing(set v | v in e.cfg.outgoing && v !in e.cfg.incoming && v !in e.cfg.learners && v != e.cfg.witIn);
      e.cfg := e.cfg.(outgoing := {}, witOut := INVALID_ID, autoLeave := false);
      assert e.Value() == Merged(Value());
      ok := e.Check();
      if !ok {
        return None;
      }
      return Some((e.cfg, e.changes));
    }

    /** `apply_conf`: takes the configuration and replays the log on the progress map. */
    method ApplyConf(c: Conf, deltas: seq<Delta>)
      modifies this
      ensures Value() == Draft(c, Replay(old(progress), deltas))
    {
      conf := c;
      assert deltas[..0] == [];
      for i := 0 to |deltas|
        invariant conf == c && progress == Replay(old(progress), deltas[..i])
      {
        assert deltas[..i + 1][..i] == deltas[..i];
        match deltas[i]
        case Add(id) => progress := progress + {id};
        case Remove(id) => progress := progress - {id};
      }
      assert deltas[..|deltas|] == deltas;
    }

    /** One simple change after the other. */
    method ApplyOneByOne(ccs: seq<Change>) returns (ok: bool)
      modifies this
      ensures ok <==> R.OneByOne(old(Value()), ccs).Ok?
      ensures ok ==> R.OneByOne(old(Value()), ccs) == Ok(Value())
    {
      assert ccs[..0] == [];
      for i := 0 to |ccs|
        invariant R.OneByOne(old(Value()), ccs[..i]) == Ok(Value())
      {
        assert ccs[..i + 1][..i] == ccs[..i];
        var r := TrySimple([ccs[i]]);
        if r.None? {
          StopsAt(old(Value()), ccs, i + 1);
          return false;
        }
        ApplyConf(r.value.0, r.value.1);
      }
      assert ccs[..|ccs|] == ccs;
      return true;
    }

    /** `restore`: rebuilds a stored configuration. */
    method RestoreFrom(cs: R.ConfState) returns (ok: bool)
      modifies this
      ensures ok <==> R.Restore(old(Value()), cs).Ok?
      ensures ok ==> R.Restore(old(Value()), cs) == Ok(Value())
    {
      if cs.votersOutgoing == [] {
        ok := ApplyOneByOne(R.IncomingChanges(cs));
        return;
      }
      ok := ApplyOneByOne(R.OutgoingChanges(cs));
      if !ok {
        return;
      }
      var r := TryEnterJoint(cs.autoLeave, R.IncomingChanges(cs));
      if r.None? {
        return false;
      }
      ApplyConf(r.value.0, r.value.1);
      return true;
    }
  }

  lemma {:induction false} StopsAt(d: Draft, ccs: seq<Change>, k: nat)
    requires k <= |ccs| && R.OneByOne(d, ccs[..k]).Err?
    ensures R.OneByOne(d, ccs).Err?
    decreases |ccs| - k
  {
    if k == |ccs| {
      assert ccs[..k] == ccs;
    } else {
      assert ccs[..k + 1][..k] == ccs[..k];
      StopsAt(d, ccs, k + 1);
    }
  }
}
