/** The raft log of one node (src/raft_log.rs, src/log_unstable.rs) as a value: stable storage, the
    entries and the snapshot still to be written, and the pointers into them. The operations are
    functions; what they mean is stated against the one logical log they stand for. */
module LogState {
  import opened Options
  import opened RaftLogs

  /** A snapshot's metadata. */
  datatype Snap = Snap(index: nat, term: nat)

  /** The storage contract: entries `base + 1 ..`, and the term at `base` is retained. */
  datatype Store = Store(base: nat, baseTerm: nat, ents: Log)

  datatype State = State(store: Store, snap: Option<Snap>, ents: Log, offset: nat,
                         committed: nat, persisted: nat, applied: nat)

  /** The logical log: everything above `base`, whose term is known. */
  datatype View = View(base: nat, baseTerm: nat, ents: Log)

  function Last(v: View): nat {
    v.base + |v.ents|
  }

  /** The term at an index of the logical log, 0 outside of it. */
  function ViewTerm(v: View, i: nat): nat {
    if i == v.base then v.baseTerm
    else if v.base < i <= Last(v) then v.ents[i - v.base - 1].term
    else 0
  }

  /** The entries `lo .. hi - 1`. */
  function ViewSlice(v: View, lo: nat, hi: nat): Log
    requires v.base < lo <= hi <= Last(v) + 1
  {
    v.ents[lo - v.base - 1..hi - v.base - 1]
  }

  /** The log cut behind index `after` and continued with `ents`. */
  function Overwritten(v: View, after: nat, ents: Log): View
    requires v.base <= after <= Last(v)
  {
    v.(ents := v.ents[..after - v.base] + ents)
  }

  function StoreLast(s: Store): nat {
    s.base + |s.ents|
  }

  /** What the parts of the log owe each other, and the pointers their place in it. */
  predicate Valid(s: State) {
    && (match s.snap
        case Some(snap) => s.offset == snap.index + 1 && s.persisted <= snap.index <= s.committed
        case None => s.store.base < s.offset <= StoreLast(s.store) + 1 && s.store.base <= s.committed)
    && s.persisted < s.offset
    && s.committed < s.offset + |s.ents|
    && s.applied <= s.committed
  }

  /** The logical log a state stands for. */
  function ViewOf(s: State): View
    requires Valid(s)
  {
    match s.snap
    case Some(snap) => View(snap.index, snap.term, s.ents)
    case None => View(s.store.base, s.store.baseTerm, s.store.ents[..s.offset - s.store.base - 1] + s.ents)
  }

  // ---- Queries ----------------------------------------------------------------------------------------------

  function FirstIndex(s: State): nat {
    match s.snap
    case Some(snap) => snap.index + 1
    case None => s.store.base + 1
  }

  function LastIndex(s: State): nat {
    if s.ents != [] then s.offset + |s.ents| - 1
    else match s.snap
         case Some(snap) => snap.index
         case None => StoreLast(s.store)
  }

  /** `Storage::term` on the range the log asks it for. */
  function StoreTerm(s: Store, i: nat): nat {
    if i == s.base then s.baseTerm
    else if s.base < i <= StoreLast(s) then s.ents[i - s.base - 1].term
    else 0
  }

  /** `Unstable::maybe_term`. */
  function UnstableTerm(s: State, i: nat): Option<nat> {
    if i < s.offset then
      match s.snap
      case Some(snap) => if i == snap.index then Some(snap.term) else None
      case None => None
    else if i < s.offset + |s.ents| then Some(s.ents[i - s.offset].term)
    else None
  }

  function TermOf(s: State, i: nat): nat {
    if i < FirstIndex(s) - 1 || i > LastIndex(s) then 0
    else match UnstableTerm(s, i)
         case Some(t) => t
         case None => StoreTerm(s.store, i)
  }

  /** The written part of storage ends where the unstable entries begin. */
  predicate Settled(s: State) {
    s.snap.None? && s.ents == [] ==> s.offset == StoreLast(s.store) + 1
  }

  lemma QueriesMeanView(s: State, i: nat)
    requires Valid(s) && Settled(s)
    ensures FirstIndex(s) == ViewOf(s).base + 1
    ensures LastIndex(s) == Last(ViewOf(s))
    ensures TermOf(s, i) == ViewTerm(ViewOf(s), i)
  {
  }

  // ---- Appending ----------------------------------------------------------------------------------------------

  /** `RaftLog::append` behind index `after`, through `Unstable::truncate_and_append`. */
  function Append(s: State, after: nat, ents: Log): State
    requires s.committed <= after <= s.offset + |s.ents| - 1
  {
    if ents == [] then s
    else if after + 1 <= s.offset then s.(offset := after + 1, ents := ents)
    else s.(ents := s.ents[..after + 1 - s.offset] + ents)
  }

  /** Appending rewrites the logical log behind `after` and nothing else. */
  lemma AppendMeaning(s: State, after: nat, ents: Log)
    requires Valid(s) && Settled(s) && s.committed <= after <= Last(ViewOf(s)) && s.persisted <= after && ents != []
    ensures Valid(Append(s, after, ents)) && Settled(Append(s, after, ents))
    ensures ViewOf(Append(s, after, ents)) == Overwritten(ViewOf(s), after, ents)
    ensures Append(s, after, ents).committed == s.committed && Append(s, after, ents).persisted == s.persisted
  {
    var s', v := Append(s, after, ents), ViewOf(s);
    if s.snap.None? {
      var cut := after + 1 - s.store.base - 1;
      if after + 1 <= s.offset {
        assert s.store.ents[..s.offset - s.store.base - 1][..cut] == s.store.ents[..cut];
        assert v.ents[..cut] == s.store.ents[..cut];
      } else {
        assert v.ents[..cut] == s.store.ents[..s.offset - s.store.base - 1] + s.ents[..after + 1 - s.offset];
      }
      assert ViewOf(s').ents == v.ents[..cut] + ents;
    }
  }

  /** The committed prefix is never altered by an append. */
  lemma AppendKeepsCommitted(s: State, after: nat, ents: Log, i: nat)
    requires Valid(s) && Settled(s) && s.committed <= after <= Last(ViewOf(s)) && s.persisted <= after && ents != []
    requires ViewOf(s).base < i <= s.committed
    ensures ViewOf(Append(s, after, ents)).base == ViewOf(s).base
    ensures i <= Last(ViewOf(Append(s, after, ents)))
    ensures ViewOf(Append(s, after, ents)).ents[i - ViewOf(s).base - 1] == ViewOf(s).ents[i - ViewOf(s).base - 1]
  {
    AppendMeaning(s, after, ents);
  }

  /** The offset of the first entry that the log does not hold with its term, or `|ents|`. */
  function Conflict(s: State, prev: nat, ents: Log): (j: nat)
    ensures j <= |ents|
    ensures forall i | 0 <= i < j :: TermOf(s, prev + 1 + i) == ents[i].term
    ensures j < |ents| ==> TermOf(s, prev + 1 + j) != ents[j].term
    decreases |ents|
  {
    if ents == [] || TermOf(s, prev + 1) != ents[0].term then 0
    else 1 + Conflict(s, prev + 1, ents[1..])
  }

  function Max(a: nat, b: nat): nat {
    if a < b then b else a
  }

  /** What `maybe_append` demands so that no fatal branch is taken: terms are those of real entries,
      only index 0 has term 0, and no committed entry conflicts. */
  predicate Appendable(s: State, prev: nat, prevTerm: nat, ents: Log) {
    && (forall i | 0 <= i < |ents| :: ents[i].term >= 1)
    && (prevTerm == 0 ==> prev == 0 && FirstIndex(s) == 1)
    && (Conflict(s, prev, ents) < |ents| ==> prev + Conflict(s, prev, ents) >= s.committed)
  }

  predicate Matches(s: State, prev: nat, prevTerm: nat) {
    TermOf(s, prev) == prevTerm
  }

  /** `maybe_append` after a match. */
  function MaybeAppend(s: State, prev: nat, prevTerm: nat, commit: nat, ents: Log): State
    requires Valid(s) && Settled(s) && Appendable(s, prev, prevTerm, ents) && Matches(s, prev, prevTerm)
  {
    var j := Conflict(s, prev, ents);
    AppendInRange(s, prev, prevTerm, ents);
    var s1 := if j == |ents| then s else Append(s.(persisted := Min(s.persisted, prev + j)), prev + j, ents[j..]);
    s1.(committed := Max(s.committed, Min(commit, prev + |ents|)))
  }

  /** The conflicting entry lands inside or right behind the log. */
  lemma AppendInRange(s: State, prev: nat, prevTerm: nat, ents: Log)
    requires Valid(s) && Settled(s) && Appendable(s, prev, prevTerm, ents) && Matches(s, prev, prevTerm)
    ensures ViewOf(s).base <= prev <= Last(ViewOf(s))
    ensures prev + Conflict(s, prev, ents) <= Last(ViewOf(s)) <= s.offset + |s.ents| - 1
    ensures s.committed <= Last(ViewOf(s))
  {
    var j := Conflict(s, prev, ents);
    QueriesMeanView(s, prev);
    QueriesMeanView(s, prev + j);
    assert j > 0 ==> TermOf(s, prev + 1 + (j - 1)) == ents[j - 1].term;
  }

  /** An accepted append leaves the entries in the log, keeps the log up to `prev` and everything
      committed, keeps what follows unless something conflicted, and commits no further than the
      last entry sent. */
  lemma MaybeAppendMeaning(s: State, prev: nat, prevTerm: nat, commit: nat, ents: Log)
    requires Valid(s) && Settled(s) && Appendable(s, prev, prevTerm, ents) && Matches(s, prev, prevTerm)
    ensures var s', v, j := MaybeAppend(s, prev, prevTerm, commit, ents), ViewOf(s), Conflict(s, prev, ents);
            && Valid(s') && Settled(s')
            && v.base <= prev + j <= Last(v)
            && ViewOf(s') == (if j == |ents| then v else Overwritten(v, prev + j, ents[j..]))
            && s'.committed == Max(s.committed, Min(commit, prev + |ents|))
            && s'.persisted == (if j == |ents| then s.persisted else Min(s.persisted, prev + j))
  {
    hide Conflict, TermOf, ViewOf, Overwritten, Append;
    var j, v := Conflict(s, prev, ents), ViewOf(s);
    AppendInRange(s, prev, prevTerm, ents);
    var k := Max(s.committed, Min(commit, prev + |ents|));
    if j < |ents| {
      OverwrittenBehind(s, prev + j, ents[j..], k);
    } else {
      CommitStays(s, k);
    }
  }

  lemma OverwrittenBehind(s: State, after: nat, ents: Log, k: nat)
    requires Valid(s) && Settled(s) && s.committed <= after <= Last(ViewOf(s)) <= s.offset + |s.ents| - 1
    requires s.committed <= k <= after + |ents| && ents != []
    ensures var s' := Append(s.(persisted := Min(s.persisted, after)), after, ents).(committed := k);
            && Valid(s') && Settled(s') && ViewOf(s') == Overwritten(ViewOf(s), after, ents)
            && s'.persisted == Min(s.persisted, after)
  {
    var s0 := s.(persisted := Min(s.persisted, after));
    SamePointers(s, s0);
    AppendMeaning(s0, after, ents);
    hide ViewOf, Append;
    OverwrittenLast(ViewOf(s), after, ents);
    hide Overwritten;
    CommitStays(Append(s0, after, ents), k);
  }

  lemma OverwrittenLast(v: View, after: nat, ents: Log)
    requires v.base <= after <= Last(v)
    ensures Last(Overwritten(v, after, ents)) == after + |ents|
  {
  }

  /** The entries sent are in the log after an accepted append. */
  lemma MaybeAppendHolds(s: State, prev: nat, prevTerm: nat, commit: nat, ents: Log)
    requires Valid(s) && Settled(s) && Appendable(s, prev, prevTerm, ents) && Matches(s, prev, prevTerm)
    ensures Valid(MaybeAppend(s, prev, prevTerm, commit, ents))
    ensures forall i | 0 <= i < |ents| ::
              ViewTerm(ViewOf(MaybeAppend(s, prev, prevTerm, commit, ents)), prev + 1 + i) == ents[i].term
  {
    hide Conflict, TermOf, ViewTerm, ViewOf, Overwritten, MaybeAppend;
    var j, v := Conflict(s, prev, ents), ViewOf(s);
    AppendInRange(s, prev, prevTerm, ents);
    MaybeAppendMeaning(s, prev, prevTerm, commit, ents);
    forall i | 0 <= i < j ensures ViewTerm(v, prev + 1 + i) == ents[i].term { QueriesMeanView(s, prev + 1 + i); }
    if j < |ents| { OverwrittenTerms(v, prev, ents, j); }
  }

  /** The logical log does not depend on the pointers. */
  lemma SamePointers(s: State, s': State)
    requires Valid(s) && Valid(s') && s' == s.(committed := s'.committed, persisted := s'.persisted, applied := s'.applied)
    ensures ViewOf(s') == ViewOf(s) && Settled(s') == Settled(s)
  {
  }

  lemma CommitStays(s: State, index: nat)
    requires Valid(s) && s.committed <= index <= Last(ViewOf(s))
    ensures Valid(s.(committed := index)) && ViewOf(s.(committed := index)) == ViewOf(s)
    ensures Settled(s) ==> Settled(s.(committed := index))
  {
  }

  lemma OverwrittenTerms(v: View, prev: nat, ents: Log, j: nat)
    requires v.base <= prev && j <= |ents| && prev + j <= Last(v)
    requires forall i | 0 <= i < j :: ViewTerm(v, prev + 1 + i) == ents[i].term
    ensures forall i | 0 <= i < |ents| :: ViewTerm(Overwritten(v, prev + j, ents[j..]), prev + 1 + i) == ents[i].term
  {
    var w := Overwritten(v, prev + j, ents[j..]);
    forall i | 0 <= i < |ents| ensures ViewTerm(w, prev + 1 + i) == ents[i].term {
      var p := prev + 1 + i - v.base - 1;
      if i < j {
        assert ViewTerm(v, prev + 1 + i) == ents[i].term;
        assert w.ents[p] == v.ents[p];
      } else {
        assert w.ents[p] == ents[j..][i - j];
      }
    }
  }

  /** On an uncompacted log this is the append of the cluster model. */
  lemma {:induction false} SameConflict(s: State, prev: nat, ents: Log)
    requires Valid(s) && Settled(s) && ViewOf(s).base == 0 && ViewOf(s).baseTerm == 0
    ensures Conflict(s, prev, ents) == FirstConflict(ViewOf(s).ents, prev, ents)
    decreases |ents|
  {
    if ents != [] {
      QueriesMeanView(s, prev + 1);
      if TermOf(s, prev + 1) == ents[0].term { SameConflict(s, prev + 1, ents[1..]); }
    }
  }

  lemma MaybeAppendIsSplice(s: State, prev: nat, prevTerm: nat, commit: nat, ents: Log)
    requires Valid(s) && Settled(s) && Appendable(s, prev, prevTerm, ents) && Matches(s, prev, prevTerm)
    requires ViewOf(s).base == 0 && ViewOf(s).baseTerm == 0
    ensures Valid(MaybeAppend(s, prev, prevTerm, commit, ents)) && prev <= |ViewOf(s).ents|
    ensures ViewOf(MaybeAppend(s, prev, prevTerm, commit, ents)).ents == Spliced(ViewOf(s).ents, prev, ents)
  {
    hide Conflict, TermOf, ViewOf, MaybeAppend, FirstConflict;
    AppendInRange(s, prev, prevTerm, ents);
    MaybeAppendMeaning(s, prev, prevTerm, commit, ents);
    SameConflict(s, prev, ents);
  }

  // ---- Commit and persistence pointers -----------------------------------------------------------------------------

  /** `commit_to`, which never moves back. */
  function CommitTo(s: State, index: nat): State {
    s.(committed := Max(s.committed, index))
  }

  /** `maybe_commit`. */
  function MaybeCommit(s: State, index: nat, term: nat): State {
    if index > s.committed && TermOf(s, index) == term then s.(committed := index) else s
  }

  /** The first index that a write still outstanding may change. */
  function FirstUpdate(s: State): nat {
    match s.snap
    case Some(snap) => snap.index
    case None => s.offset
  }

  /** `maybe_persist`. */
  function MaybePersist(s: State, index: nat, term: nat): State {
    if index > s.persisted && index < FirstUpdate(s) && StoreTerm(s.store, index) == term then s.(persisted := index) else s
  }

  /** `maybe_persist_snap`. */
  function MaybePersistSnap(s: State, index: nat): State {
    if index > s.persisted then s.(persisted := index) else s
  }

  /** The fatal branches of `maybe_persist_snap` are not taken. */
  predicate PersistableSnap(s: State, index: nat) {
    index <= s.committed && index < s.offset
  }

  /** `restore`: the snapshot replaces the log. */
  function Restore(s: State, snap: Snap): State {
    s.(persisted := Min(s.persisted, s.committed), committed := snap.index, snap := Some(snap), ents := [],
    offset := snap.index + 1)
  }

  lemma RestoreMeaning(s: State, snap: Snap)
    requires Valid(s) && snap.index >= s.committed
    ensures Valid(Restore(s, snap)) && Settled(Restore(s, snap))
    ensures ViewOf(Restore(s, snap)) == View(snap.index, snap.term, [])
  {
  }

  lemma CommitToStays(s: State, index: nat)
    requires Valid(s) && index <= Last(ViewOf(s))
    ensures Valid(CommitTo(s, index)) && ViewOf(CommitTo(s, index)) == ViewOf(s)
  {
  }

  lemma MaybeCommitStays(s: State, index: nat, term: nat)
    requires Valid(s) && Settled(s) && term >= 1
    ensures Valid(MaybeCommit(s, index, term)) && ViewOf(MaybeCommit(s, index, term)) == ViewOf(s)
  {
    QueriesMeanView(s, index);
  }

  lemma MaybePersistStays(s: State, index: nat, term: nat)
    requires Valid(s)
    ensures Valid(MaybePersist(s, index, term)) && ViewOf(MaybePersist(s, index, term)) == ViewOf(s)
  {
  }

  lemma MaybePersistSnapStays(s: State, index: nat)
    requires Valid(s) && (index > s.persisted ==> PersistableSnap(s, index))
    requires s.snap.Some? ==> index <= s.snap.value.index
    ensures Valid(MaybePersistSnap(s, index)) && ViewOf(MaybePersistSnap(s, index)) == ViewOf(s)
  {
  }

  // ---- Writing ------------------------------------------------------------------------------------------------------

  /** Storage after the host wrote everything unstable: the snapshot first, then the entries, cutting
      off what they replace. */
  function Written(s: State): Store
    requires Valid(s)
  {
    match s.snap
    case Some(snap) => Store(snap.index, snap.term, s.ents)
    case None => s.store.(ents := s.store.ents[..s.offset - s.store.base - 1] + s.ents)
  }

  /** `stable_snap` and `stable_entries`, once storage holds what was written. */
  function Stable(s: State): State
    requires Valid(s)
  {
    s.(store := Written(s), snap := None, offset := s.offset + |s.ents|, ents := [])
  }

  /** Writing moves the border between storage and memory, not the log. */
  lemma StableMeaning(s: State)
    requires Valid(s) && Settled(s)
    ensures Valid(Stable(s)) && Settled(Stable(s)) && ViewOf(Stable(s)) == ViewOf(s)
  {
  }

  /** Dropping applied entries from storage. */
  function Compact(s: State, index: nat): State
    requires Valid(s) && s.snap.None? && s.store.base <= index <= s.applied && index < s.offset
  {
    s.(store := Store(index, StoreTerm(s.store, index), s.store.ents[index - s.store.base..]))
  }

  lemma CompactMeaning(s: State, index: nat)
    requires Valid(s) && Settled(s) && s.snap.None? && s.store.base <= index <= s.applied && index < s.offset
    ensures Valid(Compact(s, index)) && Settled(Compact(s, index))
    ensures var v := ViewOf(s);
            ViewOf(Compact(s, index)) == View(index, ViewTerm(v, index), v.ents[index - v.base..])
  {
    var v := ViewOf(s);
    QueriesMeanView(s, index);
    assert s.store.ents[index - s.store.base..][..s.offset - index - 1]
        == s.store.ents[..s.offset - s.store.base - 1][index - s.store.base..];
    assert ViewOf(Compact(s, index)).ents == v.ents[index - v.base..];
  }

  // ---- Handing out ------------------------------------------------------------------------------------------------------

  /** What the application may be handed next. */
  function NextUp(s: State, since: nat): Log
    requires Valid(s) && Settled(s)
  {
    var v, from, high := ViewOf(s), Max(since, ViewOf(s).base) + 1, Min(s.committed, s.persisted) + 1;
    if high > from then CommittedInRange(s); ViewSlice(v, from, high) else []
  }

  /** `ents` are the entries of the logical log right behind `since`, at least one if any is both committed and
      persisted, and `all` of those or fewer. */
  predicate IsNext(s: State, since: nat, all: bool, ents: Log)
    requires Valid(s)
  {
    var v, lo, hi := ViewOf(s), Max(since, ViewOf(s).base), Min(s.committed, s.persisted);
    && hi <= Last(v) && (hi <= lo ==> ents == [])
    && (hi > lo ==> 1 <= |ents| <= hi - lo && (all ==> |ents| == hi - lo))
    && forall i {:trigger ents[i]} | 0 <= i < |ents| :: ents[i] == v.ents[lo - v.base + i]
  }

  lemma NextUpMeans(s: State, since: nat)
    requires Valid(s) && Settled(s)
    ensures IsNext(s, since, true, NextUp(s, since))
  {
    CommittedInRange(s);
  }

  lemma CommittedInRange(s: State)
    requires Valid(s) && Settled(s)
    ensures ViewOf(s).base <= s.committed <= Last(ViewOf(s))
  {
  }
}
