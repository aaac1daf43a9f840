/** The witness object (src/witness.rs), proved against the functions the cluster proof uses. */
module WitnessObject {
  import opened Options
  import opened Quorum
  import W = WitnessModel

  /** What is written to external storage; the replication set is stored as a list. */
  datatype HardState = HardState(term: nat, vote: NodeId, commit: nat, lastTerm: nat, lastSubterm: nat,
                                 committedTerm: nat, committedSubterm: nat, lead: NodeId, replicationSet: seq<NodeId>)

  datatype Response = Persist(state: HardState) | VoteGrant(granted: bool) | StaleTerm(term: nat)

  /** The witness a stored state stands for. */
  function Stored(state: HardState): W.State {
    W.State(state.term, state.vote, state.lastTerm, state.lastSubterm, state.commit,
            state.committedTerm, state.committedSubterm, state.lead, Elements(state.replicationSet))
  }

  /** The ids that voted for the candidate, as a vote request lists them. */
  function VotedYes(ids: seq<NodeId>, vals: seq<bool>): set<NodeId> {
    set i | 0 <= i < |ids| && i < |vals| && vals[i] :: ids[i]
  }

  /** A list of the elements of a set, each once. */
  method Listed(s: set<NodeId>) returns (r: seq<NodeId>)
    ensures Elements(r) == s && |r| == |s|
  {
    r := [];
    var rest := s;
    while rest != {}
      invariant rest <= s && Elements(r) == s - rest && |r| + |rest| == |s|
      decreases rest
    {
      var x :| x in rest;
      assert Elements(r + [x]) == Elements(r) + {x};
      r, rest := r + [x], rest - {x};
    }
  }

  class Witness {
    const id: NodeId
    var term: nat
    var vote: NodeId
    var lastTerm: nat
    var lastSubterm: nat
    var commit: nat
    var committedTerm: nat
    var committedSubterm: nat
    var lead: NodeId
    var replicationSet: set<NodeId>

    ghost function Value(): W.State
      reads this
    {
      W.State(term, vote, lastTerm, lastSubterm, commit, committedTerm, committedSubterm, lead, replicationSet)
    }

    constructor (i: NodeId)
      ensures Value() == W.FRESH && id == i
    {
      id, term, vote, lastTerm, lastSubterm := i, 0, INVALID_ID, 0, 0;
      commit, committedTerm, committedSubterm, lead, replicationSet := 0, 0, 0, INVALID_ID, {};
    }

    /** Restoring a state that was stored gives back the witness that stored it. */
    method Restore(state: HardState)
      modifies this
      ensures Value() == Stored(state)
    {
      term, vote, commit := state.term, state.vote, state.commit;
      lastTerm, lastSubterm := state.lastTerm, state.lastSubterm;
      committedTerm, committedSubterm := state.committedTerm, state.committedSubterm;
      lead := state.lead;
      replicationSet := set x | x in state.replicationSet;
    }

    method ToHardState() returns (state: HardState)
      ensures Value() == Stored(state)
    {
      var list := Listed(replicationSet);
      state := HardState(term, vote, commit, lastTerm, lastSubterm, committedTerm, committedSubterm, lead, list);
    }

    /** Crash and reopen: a fresh witness restored from storage is in the state the old one stored. */
    method Reopened() returns (w: Witness)
      ensures fresh(w) && w.Value() == Value()
    {
      var state := ToHardState();
      w := new Witness(id);
      w.Restore(state);
    }

    /** An append: a stale term is refused with the current one, otherwise the new state is to be
        persisted. */
    method HandleAppend(m: W.Append) returns (r: Response)
      modifies this
      ensures Value() == W.OnAppend(old(Value()), m)
      ensures m.term < old(term) ==> r == StaleTerm(old(term))
      ensures m.term >= old(term) ==> r.Persist? && Stored(r.state) == Value()
      ensures m.term >= old(term) ==>
                && term == m.term && vote == (if m.term > old(term) then INVALID_ID else old(vote))
                && lead == m.from && replicationSet == m.replicationSet
                && (m.ents != [] ==> var e := m.ents[|m.ents| - 1]; lastTerm == e.term && lastSubterm == e.subterm)
                && (m.ents == [] ==> lastTerm == old(lastTerm) && lastSubterm == old(lastSubterm))
                && commit >= old(commit) && commit >= m.commit && commit in {old(commit), m.commit}
      ensures m.term >= old(term) && m.commit > old(commit) ==>
                && (m.commitTerm != 0 ==> committedTerm == m.commitTerm && committedSubterm == m.commitSubterm)
                && (m.commitTerm == 0 && m.first <= m.commit < m.first + |m.ents| ==>
                      var e := m.ents[m.commit - m.first]; committedTerm == e.term && committedSubterm == e.subterm)
    {
      if m.term < term {
        return StaleTerm(term);
      }
      if m.term > term {
        term := m.term;
        vote := INVALID_ID;
      }
      lead := m.from;
      replicationSet := m.replicationSet;
      if m.ents != [] {
        lastTerm, lastSubterm := m.ents[|m.ents| - 1].term, m.ents[|m.ents| - 1].subterm;
      }
      if m.commit > commit {
        commit := m.commit;
        if m.commitTerm != 0 {
          committedTerm, committedSubterm := m.commitTerm, m.commitSubterm;
        } else if m.ents != [] && m.first <= m.commit <= m.first + |m.ents| - 1 {
          var e := m.ents[m.commit - m.first];
          committedTerm, committedSubterm := e.term, e.subterm;
        }
      }
      var state := ToHardState();
      r := Persist(state);
    }

    /** A vote request: stale ones are ignored, the rest is answered by the three-branch rule. */
    method HandleVote(from: NodeId, reqTerm: nat, pre: bool, candTerm: nat, candSubterm: nat,
                      ids: seq<NodeId>, vals: seq<bool>) returns (r: Option<Response>)
      modifies this
      ensures Value() == W.OnVote(old(Value()), from, reqTerm, pre, candTerm, candSubterm, VotedYes(ids, vals))
      ensures r.None? <==> reqTerm < old(term)
      ensures r.Some? ==>
                r.value == VoteGrant(W.Grants(old(Value()), from, reqTerm, pre, candTerm, candSubterm, VotedYes(ids, vals)))
      ensures r.Some? ==>
                (r.value == VoteGrant(true) <==>
                 && (reqTerm > old(term) || old(vote) == INVALID_ID || old(vote) == from)
                 && (|| candTerm > lastTerm || (candTerm == lastTerm && candSubterm > lastSubterm)
                     || (candTerm == lastTerm && candSubterm == lastSubterm
                         && (replicationSet == {} || VotedYes(ids, vals) <= replicationSet))))
    {
      if reqTerm < term {
        return None;
      }
      if reqTerm > term && !pre {
        term := reqTerm;
        vote := INVALID_ID;
      }
      var setOk := true;
      if replicationSet != {} {
        setOk := AllInSet(ids, vals);
      }
      var logOk := candTerm > lastTerm
                   || (candTerm == lastTerm && (candSubterm > lastSubterm || (candSubterm == lastSubterm && setOk)));
      var canVote := reqTerm > term || vote == INVALID_ID || vote == from;
      var grant := logOk && canVote;
      if grant && !pre {
        vote := from;
      }
      return Some(VoteGrant(grant));
    }

    /** Every voter counted for the candidate is in the replication set. */
    method AllInSet(ids: seq<NodeId>, vals: seq<bool>) returns (r: bool)
      ensures r <==> VotedYes(ids, vals) <= replicationSet
    {
      var n := if |ids| < |vals| then |ids| else |vals|;
      for i := 0 to n
        invariant forall x | 0 <= x < i && vals[x] :: ids[x] in replicationSet
      {
        if vals[i] && ids[i] !in replicationSet {
          assert ids[i] in VotedYes(ids, vals);
          return false;
        }
      }
      return true;
    }
  }
}
