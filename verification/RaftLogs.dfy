/** Replicated logs as sequences, and the pure queries and edits of src/raft_log.rs on them.
    Index i of the protocol (counting from 1) is position i - 1 of the sequence. */
module RaftLogs {
  datatype Entry = Entry(term: nat, subterm: nat, data: nat)

  type Log = seq<Entry>

  function Min(a: nat, b: nat): nat {
    if a < b then a else b
  }

  /** `RaftLog::term`: 0 for index 0 and for an index past the end. */
  function TermAt(log: Log, i: nat): nat {
    if 1 <= i <= |log| then log[i - 1].term else 0
  }

  function LastTerm(log: Log): nat {
    TermAt(log, |log|)
  }

  function LastSubterm(log: Log): nat {
    if log == [] then 0 else log[|log| - 1].subterm
  }

  /** `RaftLog::is_up_to_date`: a log ending at (lastIndex, lastTerm) is at least as recent as `log`. */
  predicate UpToDate(log: Log, lastIndex: nat, lastTerm: nat) {
    lastTerm > LastTerm(log) || (lastTerm == LastTerm(log) && lastIndex >= |log|)
  }

  /** `RaftLog::find_conflict`, as an offset into `ents`: the first entry whose term
      the log does not hold at its index, or `|ents|`. */
  function FirstConflict(log: Log, prev: nat, ents: Log): (j: nat)
    ensures j <= |ents|
    ensures forall i | 0 <= i < j :: TermAt(log, prev + 1 + i) == ents[i].term
    ensures j < |ents| ==> TermAt(log, prev + 1 + j) != ents[j].term
    decreases |ents|
  {
    if ents == [] then 0
    else if TermAt(log, prev + 1) != ents[0].term then 0
    else 1 + FirstConflict(log, prev + 1, ents[1..])
  }

  /** The log after `RaftLog::maybe_append` accepted `ents` behind index `prev`. */
  function Spliced(log: Log, prev: nat, ents: Log): Log
    requires prev <= |log|
  {
    var j := FirstConflict(log, prev, ents);
    if j == |ents| then log
    else if prev + j <= |log| then log[..prev + j] + ents[j..]
    else log
  }

  /** The first entry that does not match is the conflict. */
  lemma {:induction false} FirstConflictIs(log: Log, prev: nat, ents: Log, j: nat)
    requires j <= |ents| && (forall i | 0 <= i < j :: TermAt(log, prev + 1 + i) == ents[i].term)
    requires j < |ents| ==> TermAt(log, prev + 1 + j) != ents[j].term
    ensures FirstConflict(log, prev, ents) == j
    decreases j
  {
    if j > 0 {
      assert forall i | 1 <= i < |ents| :: ents[1..][i - 1] == ents[i];
      FirstConflictIs(log, prev + 1, ents[1..], j - 1);
    }
  }
}
