/** The raft log as the object of src/raft_log.rs and src/log_unstable.rs, each method proved to do
    what the operation on the log's value does. */
module RaftLogObject {
  import opened Options
  import opened RaftLogs
  import opened EntryLimits
  import opened LogState

  class Unstable {
    var snapshot: Option<Snap>
    var entries: Log
    var entriesSize: nat
    var offset: nat

    ghost predicate Sized()
      reads this
    {
      entriesSize == TotalSize(entries)
    }

    constructor (start: nat)
      ensures snapshot == None && entries == [] && offset == start && Sized()
    {
      snapshot, entries, entriesSize, offset := None, [], 0, start;
    }

    /** Appends entries that start at index `first`, truncating what they overlap. A gap is fatal. */
    method TruncateAndAppend(first: nat, ents: Log)
      requires ents != [] && first <= offset + |entries| && Sized()
      modifies this
      ensures snapshot == old(snapshot) && Sized()
      ensures offset == Min(old(offset), first)
      ensures entries == (if first <= old(offset) then ents else old(entries)[..first - old(offset)] + ents)
    {
      if first == offset + |entries| {
        assert entries[..first - offset] == entries;
      } else if first <= offset {
        offset := first;
        entries := [];
        entriesSize := 0;
      } else {
        var keep := first - offset;
        var i := |entries|;
        assert entries[..i] == entries;
        while i > keep
          invariant keep <= i <= |entries| && entriesSize == TotalSize(entries[..i])
          invariant entries == old(entries) && offset == old(offset) && snapshot == old(snapshot)
        {
          assert entries[..i][..i - 1] == entries[..i - 1];
          entriesSize := entriesSize - EntrySize(entries[i - 1]);
          i := i - 1;
        }
        entries := entries[..keep];
      }
      TotalJoins(entries, ents);
      entries := entries + ents;
      entriesSize := entriesSize + TotalSize(ents);
    }

    /** Everything unstable has been written; the source insists on the last entry's index and term. */
    method StableEntries(index: nat, term: nat)
      requires snapshot.None? && entries != [] && index == offset + |entries| - 1
      requires term == entries[|entries| - 1].term && Sized()
      modifies this
      ensures snapshot == None && entries == [] && offset == index + 1 && Sized()
    {
      offset, entries, entriesSize := index + 1, [], 0;
    }

    method StableSnap(index: nat)
      requires snapshot.Some? && snapshot.value.index == index && Sized()
      modifies this
      ensures snapshot == None && entries == old(entries) && offset == old(offset) && Sized()
    {
      snapshot := None;
    }

    method Restore(snap: Snap)
      modifies this
      ensures snapshot == Some(snap) && entries == [] && offset == snap.index + 1 && Sized()
    {
      entries, entriesSize, offset, snapshot := [], 0, snap.index + 1, Some(snap);
    }
  }

  lemma {:induction false} TotalJoins(a: Log, b: Log)
    ensures TotalSize(a + b) == TotalSize(a) + TotalSize(b)
  {
    if b == [] {
      assert a + b == a;
    } else {
      TotalJoins(a, b[..|b| - 1]);
      assert (a + b)[..|a + b| - 1] == a + b[..|b| - 1];
    }
  }

  /** The concatenation of the pages. */
  function Joined(pages: seq<Log>): Log {
    if pages == [] then [] else Joined(pages[..|pages| - 1]) + pages[|pages| - 1]
  }

  datatype Sliced = Entries(ents: Log) | Compacted

  /** Storage already cuts its part to the size; if it cut something, the rest is not looked at. */
  method LimitParts(stored: Log, rest: Log, max: Limit) returns (ents: Log)
    ensures IsLimited(stored + rest, max, ents)
  {
    ents := LimitSize(stored, max);
    if |ents| < |stored| {
      LimitedPart(stored, rest, max, ents);
      return;
    }
    WholeIsLimited(stored, max, ents);
    ents := LimitSize(ents + rest, max);
  }

  /** The range from storage up to the offset and from memory after it. */
  method StitchedSlice(store: Store, entries: Log, offset: nat, ghost s: State,
                       lo: nat, hi: nat, max: Limit) returns (ents: Log)
    requires Valid(s) && Settled(s) && s.store == store && s.ents == entries && s.offset == offset
    requires ViewOf(s).base < lo <= hi <= Last(ViewOf(s)) + 1
    ensures IsLimited(ViewSlice(ViewOf(s), lo, hi), max, ents)
  {
    hide ViewOf, ViewSlice, Valid, Settled, IsLimited;
    if offset <= lo {
      UnstableSlice(s, lo, hi);
      ents := LimitSize(entries[lo - offset..hi - offset], max);
    } else if hi <= offset {
      StoredSlice(s, lo, hi);
      ents := LimitSize(store.ents[lo - store.base - 1..hi - store.base - 1], max);
    } else {
      StoredSlice(s, lo, offset);
      UnstableSlice(s, offset, hi);
      SliceJoins(ViewOf(s), lo, offset, hi);
      ents := LimitParts(store.ents[lo - store.base - 1..offset - store.base - 1], entries[0..hi - offset], max);
    }
  }

  /** The index of the first entry the log does not hold with its term, 0 if it holds them all. */
  function ConflictIndex(s: State, prev: nat, ents: Log): nat {
    var j := Conflict(s, prev, ents);
    if j == |ents| then 0 else prev + 1 + j
  }

  class RaftLog {
    var store: Store
    const unstable: Unstable
    var committed: nat
    var persisted: nat
    var applied: nat

    /** The value this object holds. */
    ghost function Value(): State
      reads this, unstable
    {
      State(store, unstable.snapshot, unstable.entries, unstable.offset, committed, persisted, applied)
    }

    ghost predicate Ok()
      reads this, unstable
    {
      Valid(Value()) && Settled(Value()) && unstable.Sized()
    }

    /** A log over a storage: nothing unstable, committed and applied at the last compaction. */
    constructor (s: Store)
      ensures Ok() && fresh(unstable) && Value() == State(s, None, [], StoreLast(s) + 1, s.base, StoreLast(s), s.base)
      ensures ViewOf(Value()) == View(s.base, s.baseTerm, s.ents)
    {
      store, committed, persisted, applied := s, s.base, StoreLast(s), s.base;
      unstable := new Unstable(StoreLast(s) + 1);
    }

    function First(): (r: nat)
      reads this, unstable
      requires Ok()
      ensures r == ViewOf(Value()).base + 1
    {
      match unstable.snapshot
      case Some(snap) => snap.index + 1
      case None => store.base + 1
    }

    function LastAt(): (r: nat)
      reads this, unstable
      requires Ok()
      ensures r == Last(ViewOf(Value()))
    {
      QueriesMeanView(Value(), 0);
      if unstable.entries != [] then unstable.offset + |unstable.entries| - 1
      else match unstable.snapshot
           case Some(snap) => snap.index
           case None => StoreLast(store)
    }

    function Term(i: nat): (r: nat)
      reads this, unstable
      requires Ok()
      ensures r == ViewTerm(ViewOf(Value()), i) == TermOf(Value(), i)
    {
      QueriesMeanView(Value(), i);
      if i < First() - 1 || i > LastAt() then 0
      else if i >= unstable.offset then unstable.entries[i - unstable.offset].term
      else match unstable.snapshot
           case Some(snap) => snap.term
           case None => StoreTerm(store, i)
    }

    /** The index of the first entry the log does not hold with its term, 0 if it holds them all. */
    method FindConflict(prev: nat, ents: Log) returns (index: nat)
      requires Ok()
      ensures index == ConflictIndex(Value(), prev, ents)
    {
      for i := 0 to |ents|
        invariant forall x | 0 <= x < i :: TermOf(Value(), prev + 1 + x) == ents[x].term
      {
        if Term(prev + 1 + i) != ents[i].term {
          ConflictIs(Value(), prev, ents, i);
          return prev + 1 + i;
        }
      }
      ConflictIs(Value(), prev, ents, |ents|);
      return 0;
    }

    /** The largest index up to `index` whose term is at most `term`; below the log terms are 0. */
    method FindConflictByTerm(index: nat, term: nat) returns (r: nat, t: Option<nat>)
      requires Ok() && (First() == 1 ==> ViewOf(Value()).baseTerm == 0)
      ensures index > Last(ViewOf(Value())) ==> r == index && t == None
      ensures index <= Last(ViewOf(Value())) ==>
                && r <= index && t == Some(ViewTerm(ViewOf(Value()), r)) && t.value <= term
                && forall i | r < i <= index :: ViewTerm(ViewOf(Value()), i) > term
    {
      r := index;
      if index > LastAt() {
        return r, None;
      }
      while Term(r) > term
        invariant r <= index
        invariant forall i | r < i <= index :: ViewTerm(ViewOf(Value()), i) > term
        decreases r
      {
        r := r - 1;
      }
      t := Some(Term(r));
    }

    method IsUpToDate(lastIndex: nat, term: nat) returns (r: bool)
      requires Ok()
      ensures var v := ViewOf(Value());
              r <==> term > ViewTerm(v, Last(v)) || (term == ViewTerm(v, Last(v)) && lastIndex >= Last(v))
    {
      r := term > Term(LastAt()) || (term == Term(LastAt()) && lastIndex >= LastAt());
    }

    /** Appends behind index `after`. Reaching back before the commit index, or leaving a gap, is fatal. */
    method AppendBehind(after: nat, ents: Log) returns (last: nat)
      requires Ok() && committed <= after <= LastAt() && persisted <= after
      modifies this, unstable
      ensures Ok() && Value() == Append(old(Value()), after, ents) && last == Last(ViewOf(Value()))
      ensures ents != [] ==> ViewOf(Value()) == Overwritten(old(ViewOf(Value())), after, ents)
    {
      ghost var s := Value();
      if ents == [] {
        return LastAt();
      }
      AppendMeaning(s, after, ents);
      unstable.TruncateAndAppend(after + 1, ents);
      assert Value() == Append(s, after, ents);
      last := LastAt();
    }

    /** Replaces the log from a conflicting index on; what is persisted can only lie before it. */
    method Replace(conflict: nat, ents: Log)
      requires unstable.Sized() && ents != [] && 1 <= conflict <= unstable.offset + |unstable.entries|
      modifies this, unstable
      ensures unstable.Sized() && unstable.offset == Min(old(unstable.offset), conflict)
      ensures unstable.entries == (if conflict <= old(unstable.offset) then ents
                                   else old(unstable.entries)[..conflict - old(unstable.offset)] + ents)
      ensures unstable.snapshot == old(unstable.snapshot) && store == old(store)
      ensures committed == old(committed) && applied == old(applied) && persisted == Min(old(persisted), conflict - 1)
    {
      unstable.TruncateAndAppend(conflict, ents);
      if persisted > conflict - 1 {
        persisted := conflict - 1;
      }
    }

    /** `maybe_append`: the conflict index and the last new index, or nothing if the log does not match. */
    method TryAppend(prev: nat, prevTerm: nat, commit: nat, ents: Log) returns (r: Option<(nat, nat)>)
      requires Ok() && Appendable(Value(), prev, prevTerm, ents)
      modifies this, unstable
      ensures Ok()
      ensures r.None? <==> ViewTerm(old(ViewOf(Value())), prev) != prevTerm
      ensures r.None? ==> Value() == old(Value())
      ensures r.Some? ==> Value() == MaybeAppend(old(Value()), prev, prevTerm, commit, ents)
      ensures r.Some? ==> r.value.1 == prev + |ents| && r.value.0 == ConflictIndex(old(Value()), prev, ents)
    {
      hide Conflict, ViewTerm, ViewOf, MaybeAppend, Valid, Settled, Appendable, TotalSize;
      if Term(prev) != prevTerm {
        return None;
      }
      var conflict := AppendMatched(prev, prevTerm, commit, ents);
      return Some((conflict, prev + |ents|));
    }

    /** The part of `maybe_append` behind the match. */
    method AppendMatched(prev: nat, prevTerm: nat, commit: nat, ents: Log) returns (conflict: nat)
      requires Ok() && Appendable(Value(), prev, prevTerm, ents) && Matches(Value(), prev, prevTerm)
      modifies this, unstable
      ensures Ok() && Value() == MaybeAppend(old(Value()), prev, prevTerm, commit, ents)
      ensures conflict == ConflictIndex(old(Value()), prev, ents)
    {
      hide Conflict, ViewOf, MaybeAppend, Valid, Settled, Appendable, Matches, TotalSize, TermOf, Overwritten, ViewTerm, Min, Max,
        FirstIndex, LastIndex, StoreTerm, UnstableTerm;
      ghost var s := Value();
      AppendInRange(s, prev, prevTerm, ents);
      MaybeAppendMeaning(s, prev, prevTerm, commit, ents);
      MaybeAppendParts(s, prev, prevTerm, commit, ents);
      ghost var s' := MaybeAppend(s, prev, prevTerm, commit, ents);
      conflict := FindConflict(prev, ents);
      if conflict != 0 {
        var j := conflict - (prev + 1);
        assert j == Conflict(s, prev, ents) && j < |ents|;
        Replace(conflict, ents[j..]);
      }
      assert unstable.snapshot == s'.snap && unstable.entries == s'.ents && unstable.offset == s'.offset;
      var lastNew := prev + |ents|;
      committed := Max(committed, Min(commit, lastNew));
      assert store == s'.store && committed == s'.committed && applied == s'.applied;
    }

    // ---- Pointers ------------------------------------------------------------------------------------------------

    /** Never moves back; going past the end is fatal. */
    method Commit(index: nat)
      requires Ok() && (index > committed ==> index <= LastAt())
      modifies this
      ensures Ok() && Value() == CommitTo(old(Value()), index) && ViewOf(Value()) == old(ViewOf(Value()))
      ensures committed == if index > old(committed) then index else old(committed)
    {
      if index <= LastAt() { CommitToStays(Value(), index); }
      if committed >= index {
        return;
      }
      committed := index;
    }

    method TryCommit(index: nat, term: nat) returns (r: bool)
      requires Ok() && term >= 1
      modifies this
      ensures Ok() && Value() == MaybeCommit(old(Value()), index, term) && ViewOf(Value()) == old(ViewOf(Value()))
      ensures r <==> index > old(committed) && ViewTerm(ViewOf(Value()), index) == term
      ensures committed == if r then index else old(committed)
    {
      MaybeCommitStays(Value(), index, term);
      r := index > committed && Term(index) == term;
      if r {
        committed := index;
      }
    }

    method TryPersist(index: nat, term: nat) returns (r: bool)
      requires Ok()
      modifies this
      ensures Ok() && Value() == MaybePersist(old(Value()), index, term) && ViewOf(Value()) == old(ViewOf(Value()))
      ensures r <==> index > old(persisted) && StoreTerm(store, index) == term
                     && index < if unstable.snapshot.Some? then unstable.snapshot.value.index else unstable.offset
      ensures persisted == if r then index else old(persisted)
    {
      MaybePersistStays(Value(), index, term);
      var firstUpdate := if unstable.snapshot.Some? then unstable.snapshot.value.index else unstable.offset;
      r := index > persisted && index < firstUpdate && StoreTerm(store, index) == term;
      if r {
        persisted := index;
      }
    }

    method TryPersistSnap(index: nat) returns (r: bool)
      requires Ok() && (index > persisted ==> PersistableSnap(Value(), index))
      requires unstable.snapshot.Some? ==> index <= unstable.snapshot.value.index
      modifies this
      ensures Ok() && Value() == MaybePersistSnap(old(Value()), index) && ViewOf(Value()) == old(ViewOf(Value()))
      ensures (r <==> index > old(persisted)) && persisted == if r then index else old(persisted)
    {
      MaybePersistSnapStays(Value(), index);
      r := index > persisted;
      if r {
        persisted := index;
      }
    }

    /** A snapshot behind the commit index is refused. */
    method RestoreFrom(snap: Snap)
      requires Ok() && snap.index >= committed
      modifies this, unstable
      ensures Ok() && Value() == Restore(old(Value()), snap) && ViewOf(Value()) == View(snap.index, snap.term, [])
      ensures committed == snap.index && applied == old(applied) && persisted == Min(old(persisted), old(committed))
    {
      RestoreMeaning(Value(), snap);
      if persisted > committed {
        persisted := committed;
      }
      committed := snap.index;
      unstable.Restore(snap);
    }

    /** The host has written the snapshot and entries a record describes and storage shows them:
        `stable_snap`, then `stable_entries`. Both insist on what is unstable being just that. The logical
        log stays the same. */
    method Stabilize(snap: Option<nat>, last: Option<(nat, nat)>, written: Store)
      requires Ok() && written == Written(Value())
      requires (snap.Some? <==> unstable.snapshot.Some?) && (snap.Some? ==> snap.value == unstable.snapshot.value.index)
      requires last.Some? <==> unstable.entries != []
      requires last.Some? ==>
                 last.value == (unstable.offset + |unstable.entries| - 1, unstable.entries[|unstable.entries| - 1].term)
      modifies this, unstable
      ensures Ok() && Value() == Stable(old(Value())) && ViewOf(Value()) == old(ViewOf(Value()))
    {
      ghost var s := Value();
      StableMeaning(s);
      if snap.Some? {
        unstable.StableSnap(snap.value);
      }
      if last.Some? {
        unstable.StableEntries(last.value.0, last.value.1);
      }
      store := written;
      assert Value() == Stable(s);
    }

    // ---- Slices ----------------------------------------------------------------------------------------------------

    /** The entries `lo .. hi - 1`, cut to a size but never to nothing. */
    method Slice(lo: nat, hi: nat, max: Limit) returns (r: Sliced)
      requires Ok() && lo <= hi <= LastAt() + 1
      ensures r == Compacted <==> lo < First()
      ensures r.Entries? ==> IsLimited(ViewSlice(ViewOf(Value()), lo, hi), max, r.ents)
    {
      if lo < First() {
        return Compacted;
      }
      if lo == hi {
        EmptySlice(ViewOf(Value()), lo);
        return Sliced.Entries([]);
      }
      var ents := SliceRange(lo, hi, max);
      return Sliced.Entries(ents);
    }

    method SliceRange(lo: nat, hi: nat, max: Limit) returns (ents: Log)
      requires Ok() && First() <= lo <= hi <= LastAt() + 1
      ensures IsLimited(ViewSlice(ViewOf(Value()), lo, hi), max, ents)
    {
      ents := StitchedSlice(store, unstable.entries, unstable.offset, Value(), lo, hi, max);
    }

    /** All entries from `index` on, up to a size. */
    method Entries(index: nat, max: Limit) returns (r: Sliced)
      requires Ok()
      ensures index > LastAt() ==> r == Sliced.Entries([])
      ensures index <= LastAt() ==> (r == Compacted <==> index < First())
      ensures index <= LastAt() && r.Entries? ==>
                IsLimited(ViewSlice(ViewOf(Value()), index, Last(ViewOf(Value())) + 1), max, r.ents)
    {
      if index > LastAt() {
        return Sliced.Entries([]);
      }
      r := Slice(index, LastAt() + 1, max);
    }

    /** Visits `lo .. hi - 1` in pages; the visitor may stop after `stop` pages. The pages are
        consecutive, none is empty, and together they are the whole range unless stopped. */
    method Scan(lo: nat, hi: nat, page: Limit, stop: nat) returns (pages: seq<Log>)
      requires Ok() && First() <= lo <= hi <= LastAt() + 1 && stop > 0
      ensures |pages| <= stop && forall i | 0 <= i < |pages| :: pages[i] != []
      ensures lo + |Joined(pages)| <= hi && Joined(pages) == ViewSlice(ViewOf(Value()), lo, lo + |Joined(pages)|)
      ensures |pages| < stop ==> Joined(pages) == ViewSlice(ViewOf(Value()), lo, hi)
    {
      hide ViewOf, IsLimited, TotalSize, Valid, Settled, Joined, ViewSlice;
      ghost var v := ViewOf(Value());
      pages := [];
      NoPages(v, lo);
      var at := lo;
      while at < hi
        invariant lo <= at <= hi && at == lo + |Joined(pages)| && |pages| < stop
        invariant Joined(pages) == ViewSlice(v, lo, at)
        invariant forall i | 0 <= i < |pages| :: pages[i] != []
        decreases hi - at
      {
        var r := Slice(at, hi, page);
        assert r.Entries?;
        OnePage(v, lo, at, hi, pages, page, r.ents);
        pages := pages + [r.ents];
        at := at + |r.ents|;
        if |pages| == stop {
          return;
        }
      }
    }

    /** Committed and persisted entries after `since`, up to a size. */
    method NextEntriesSince(since: nat, max: Limit) returns (ents: Log)
      requires Ok() && since < unstable.offset + |unstable.entries|
      ensures IsLimited(NextUp(Value(), since), max, ents)
      ensures IsNext(Value(), since, max.NoLimit?, ents)
    {
      CommittedInRange(Value());
      hide ViewSlice, ViewOf, TotalSize, IsNext;
      var from := Max(since + 1, First());
      var high := Min(committed, persisted) + 1;
      if high > from {
        var r := Slice(from, high, max);
        assert r.Entries?;
        ents := r.ents;
      } else {
        ents := [];
      }
      hide NextUp, IsLimited;
      NextLimited(Value(), since, max, ents);
    }
  }

  lemma NextLimited(s: State, since: nat, max: Limit, ents: Log)
    requires Valid(s) && Settled(s) && IsLimited(NextUp(s, since), max, ents)
    ensures IsNext(s, since, max.NoLimit?, ents)
  {
    hide TotalSize, ViewOf, NextUp, Valid, Settled;
    NextUpMeans(s, since);
    assert forall i {:trigger ents[i]} | 0 <= i < |ents| :: ents[i] == NextUp(s, since)[i];
  }

  lemma EmptySlice(v: View, at: nat)
    requires v.base < at <= Last(v) + 1
    ensures ViewSlice(v, at, at) == []
  {
  }

  lemma WholeIsLimited(ents: Log, max: Limit, r: Log)
    requires IsLimited(ents, max, r) && |r| >= |ents|
    ensures r == ents
  {
  }

  lemma SliceJoins(v: View, lo: nat, mid: nat, hi: nat)
    requires v.base < lo <= mid <= hi <= Last(v) + 1
    ensures ViewSlice(v, lo, hi) == ViewSlice(v, lo, mid) + ViewSlice(v, mid, hi)
  {
  }

  lemma StoredSlice(s: State, lo: nat, mid: nat)
    requires Valid(s) && Settled(s) && ViewOf(s).base < lo <= mid <= s.offset && lo < s.offset
    requires mid <= Last(ViewOf(s)) + 1
    ensures s.snap.None? && s.store.base < lo && mid <= StoreLast(s.store) + 1
    ensures ViewSlice(ViewOf(s), lo, mid) == s.store.ents[lo - s.store.base - 1..mid - s.store.base - 1]
  {
  }

  lemma UnstableSlice(s: State, mid: nat, hi: nat)
    requires Valid(s) && Settled(s) && ViewOf(s).base < mid <= hi <= Last(ViewOf(s)) + 1 && s.offset <= mid
    ensures hi <= s.offset + |s.ents|
    ensures ViewSlice(ViewOf(s), mid, hi) == s.ents[mid - s.offset..hi - s.offset]
  {
  }

  lemma NoPages(v: View, lo: nat)
    requires v.base < lo <= Last(v) + 1
    ensures Joined([]) == [] == ViewSlice(v, lo, lo)
  {
  }

  /** A page read at `at` continues the pages before it. */
  lemma OnePage(v: View, lo: nat, at: nat, hi: nat, pages: seq<Log>, max: Limit, page: Log)
    requires v.base < lo <= at < hi <= Last(v) + 1 && Joined(pages) == ViewSlice(v, lo, at)
    requires IsLimited(ViewSlice(v, at, hi), max, page)
    ensures page != [] && at + |page| <= hi && Joined(pages + [page]) == ViewSlice(v, lo, at + |page|)
    ensures |Joined(pages + [page])| == at + |page| - lo
  {
    assert (pages + [page])[..|pages|] == pages;
    assert |ViewSlice(v, at, hi)| == hi - at;
    hide TotalSize;
    assert page == ViewSlice(v, at, hi)[..|page|];
  }

  /** The parts of the log after `maybe_append`. */
  lemma MaybeAppendParts(s: State, prev: nat, prevTerm: nat, commit: nat, ents: Log)
    requires Valid(s) && Settled(s) && Appendable(s, prev, prevTerm, ents) && Matches(s, prev, prevTerm)
    ensures var s', j := MaybeAppend(s, prev, prevTerm, commit, ents), Conflict(s, prev, ents);
            && s'.store == s.store && s'.snap == s.snap && s'.applied == s.applied
            && (j == |ents| ==> s'.ents == s.ents && s'.offset == s.offset)
            && (j < |ents| ==>
                  && prev + 1 + j <= s.offset + |s.ents|
                  && s'.offset == Min(s.offset, prev + 1 + j)
                  && s'.ents == if prev + 1 + j <= s.offset then ents[j..]
                                else s.ents[..prev + 1 + j - s.offset] + ents[j..])
  {
    AppendInRange(s, prev, prevTerm, ents);
    hide Conflict, TermOf, ViewOf;
  }

  lemma {:induction false} ConflictIs(s: State, prev: nat, ents: Log, j: nat)
    requires j <= |ents| && (forall x | 0 <= x < j :: TermOf(s, prev + 1 + x) == ents[x].term)
    requires j < |ents| ==> TermOf(s, prev + 1 + j) != ents[j].term
    ensures Conflict(s, prev, ents) == j
    decreases |ents|
  {
    assert forall x | 1 <= x < |ents| :: ents[1..][x - 1] == ents[x];
    if j > 0 { ConflictIs(s, prev + 1, ents[1..], j - 1); }
  }
}
