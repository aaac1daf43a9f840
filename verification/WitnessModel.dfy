/** What the external witness computes (src/witness.rs), as functions on its state. */
module WitnessModel {
  import opened Quorum
  import opened RaftLogs

  datatype State = State(term: nat, vote: NodeId, lastTerm: nat, lastSubterm: nat, commit: nat,
                         committedTerm: nat, committedSubterm: nat, lead: NodeId, replicationSet: set<NodeId>)

  const FRESH := State(0, INVALID_ID, 0, 0, 0, 0, 0, INVALID_ID, {})

  /** The append a leader sends the witness: `ents` start at index `first`. */
  datatype Append = Append(from: NodeId, term: nat, ents: Log, first: nat, replicationSet: set<NodeId>,
                           commit: nat, commitTerm: nat, commitSubterm: nat)

  const EMPTY_APPEND := Append(INVALID_ID, 0, [], 0, {}, 0, 0, 0)

  function Stepped(w: State, term: nat): State {
    if term > w.term then w.(term := term, vote := INVALID_ID) else w
  }

  function WithEntries(w: State, ents: Log): State {
    if ents == [] then w
    else w.(lastTerm := LastTerm(ents), lastSubterm := LastSubterm(ents))
  }

  /** The commit index moves forward only; the position it stands for is taken from the message
      or looked up among its entries. */
  function WithCommit(w: State, m: Append): State {
    if m.commit <= w.commit then w
    else if m.commitTerm != 0 then
      w.(commit := m.commit, committedTerm := m.commitTerm, committedSubterm := m.commitSubterm)
    else if m.first <= m.commit < m.first + |m.ents| then
      w.(commit := m.commit, committedTerm := m.ents[m.commit - m.first].term,
      committedSubterm := m.ents[m.commit - m.first].subterm)
    else w.(commit := m.commit)
  }

  /** `handle_append`; an append of a stale term changes nothing. */
  function OnAppend(w: State, m: Append): State {
    if m.term < w.term then w
    else
      WithCommit(WithEntries(Stepped(w, m.term).(lead := m.from, replicationSet := m.replicationSet), m.ents), m)
  }

  /** The three branches under which the candidate's last position is good enough. */
  predicate LogOk(w: State, lastTerm: nat, lastSubterm: nat, granted: set<NodeId>) {
    || lastTerm > w.lastTerm
    || (lastTerm == w.lastTerm && lastSubterm > w.lastSubterm)
    || (lastTerm == w.lastTerm && lastSubterm == w.lastSubterm
        && (w.replicationSet == {} || granted <= w.replicationSet))
  }

  /** The decision of `handle_vote` on a request that is not stale. */
  predicate Grants(w: State, from: NodeId, term: nat, pre: bool, lastTerm: nat, lastSubterm: nat, granted: set<NodeId>) {
    var w' := if pre then w else Stepped(w, term);
    LogOk(w', lastTerm, lastSubterm, granted) && (term > w'.term || w'.vote == INVALID_ID || w'.vote == from)
  }

  /** The state after `handle_vote`. */
  function OnVote(w: State, from: NodeId, term: nat, pre: bool, lastTerm: nat, lastSubterm: nat, granted: set<NodeId>): State {
    if term < w.term || pre then w
    else if Grants(w, from, term, pre, lastTerm, lastSubterm, granted) then Stepped(w, term).(vote := from)
    else Stepped(w, term)
  }
}
