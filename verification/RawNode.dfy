/** The object behind the Ready pipeline (src/raw_node.rs), each method proved to take the step of
    the state machine it stands for. */
module RawNodeObject {
  import opened Options
  import opened RaftLogs
  import opened EntryLimits
  import opened LogState
  import opened RaftLogObject
  import P = ReadyPipeline

  class RawNode {
    const log: RaftLog
    var records: seq<P.Record>
    var commitSince: nat
    var maxNumber: nat
    var role: P.Role
    var wasLeader: bool
    ghost var campaign: nat
    ghost var lone: bool
    ghost var out: Option<nat>
    ghost var truth: Log
    ghost var events: seq<P.Event>
    ghost var start: nat

    ghost function Repr(): set<object> {
      {this, log, log.unstable}
    }

    ghost function Value(): P.Node
      reads Repr()
    {
      P.Node(log.Value(), records, commitSince, maxNumber, role, wasLeader, campaign, lone, out, truth, events, start)
    }

    ghost predicate Ok()
      reads Repr()
    {
      log.Ok() && P.Inv(Value())
    }

    constructor (s: Store, applied: nat, committed: nat, ghost prefix: Log)
      requires s.base <= applied <= committed <= StoreLast(s)
      requires |prefix| == s.base
      ensures Ok() && P.Initial(Value()) && fresh(Repr() - {this})
    {
      log := new RaftLog(s);
      records, commitSince, maxNumber := [], applied, 0;
      role, wasLeader, campaign, lone, out := P.Follower, false, 0, false, None;
      truth, events, start := prefix + s.ents[..committed - s.base], [], applied;
      new;
      log.committed, log.applied := committed, applied;
      assert s.ents[..StoreLast(s) + 1 - s.base - 1] == s.ents;
      assert truth[s.base..] == s.ents[..committed - s.base];
    }

    /** `gen_light_ready`: the next committed and persisted entries, up to a size. */
    method NextCommitted(max: Limit) returns (handed: Log)
      requires log.Ok() && commitSince < log.unstable.offset && log.First() <= commitSince + 1
      modifies this`commitSince, this`events
      ensures IsLimited(NextUp(log.Value(), old(commitSince)), max, handed)
      ensures IsNext(log.Value(), old(commitSince), max.NoLimit?, handed)
      ensures commitSince == old(commitSince) + |handed|
      ensures events == if handed == [] then old(events) else old(events) + [P.Deliver(handed)]
    {
      hide NextUp, IsLimited, IsNext;
      handed := log.NextEntriesSince(commitSince, max);
      if handed != [] {
        commitSince := commitSince + |handed|;
        events := events + [P.Deliver(handed)];
      }
    }

    /** The record of what a Ready asks to be written. */
    method RecordOf(number: nat) returns (r: P.Record)
      ensures r == P.RecordOf(log.Value(), number)
    {
      var snapshot, entries := log.unstable.snapshot, log.unstable.entries;
      var last := if entries == [] then None
      else Some((log.unstable.offset + |entries| - 1, entries[|entries| - 1].term));
      r := P.Record(number, last, if snapshot.Some? then Some(snapshot.value.index) else None);
    }

    /** A node that has become leader forgets the records before it. The source insists that none of them
        had anything to write, which is sure if others voted for it. */
    method Drain() returns (blank: bool)
      requires Ok() && out.None?
      modifies this`records
      ensures records == if P.Drains(old(Value())) then [] else old(records)
      ensures blank <==> (P.Drains(old(Value())) ==> P.AllBlank(old(records)))
      ensures !lone ==> blank
    {
      P.DrainChecks(Value());
      hide P.Inv;
      blank := true;
      if !wasLeader && role == P.Leader {
        for i := 0 to |records|
          invariant blank <==> forall j | 0 <= j < i :: P.Blank(records[j])
        {
          blank := blank && records[i].last.None? && records[i].snap.None?;
        }
        records := [];
      }
    }

    /** `ready`: what to write, the snapshot to install, and the entries to apply. `blank` is what the source
        asserts of the records it drains. */
    method Ready(max: Limit) returns (number: nat, snapshot: Option<Snap>, entries: Log, handed: Log, blank: bool)
      requires Ok() && out.None?
      modifies this
      ensures Ok() && P.Enabled(old(Value()), P.TakeReady(max, handed)) && Value() == P.Next(old(Value()), P.TakeReady(max, handed))
      ensures blank <==> (P.Drains(old(Value())) ==> P.AllBlank(old(records)))
      ensures !old(lone) ==> blank
      ensures number == maxNumber && snapshot == log.unstable.snapshot && entries == log.unstable.entries
    {
      hide NextUp, IsLimited, P.Inv, P.Enabled, P.Next, ViewOf, TotalSize, Valid, Settled, P.RecordOf, P.AllBlank;
      ghost var n := Value();
      ReadyStarts(n);
      blank := Drain();
      maxNumber := maxNumber + 1;
      number, snapshot, entries := maxNumber, log.unstable.snapshot, log.unstable.entries;
      if snapshot.Some? {
        commitSince := snapshot.value.index;
        events := events + [P.Install(snapshot.value.index)];
      }
      var record := RecordOf(maxNumber);
      handed := NextCommitted(max);
      records := records + [record];
      out := Some(maxNumber);
      ReadyTaken(n, max, handed);
    }

    /** `commit_ready` of the Ready that is out, once storage shows what it asked to be written. The last
        record says what that was; its number is the Ready's, so the source's check of it cannot fail. */
    method CommitReady(number: nat, written: Store) returns (checked: bool)
      requires Ok() && out == Some(number) && written == Written(log.Value())
      modifies this`out, this`wasLeader, log, log.unstable
      ensures Ok() && checked && Value() == P.Next(old(Value()), P.HandBack)
    {
      hide P.Inv, P.Enabled, P.Next, ViewOf, TotalSize, Valid, Settled;
      ghost var n := Value();
      HandedBack(n);
      var record := records[|records| - 1];
      checked := record.number == number;
      log.Stabilize(record.snap, record.last, written);
      wasLeader := role == P.Leader;
      out := None;
    }

    /** `gen_light_ready` when a Ready is handed back: no snapshot is pending then. */
    method LightReady(max: Limit) returns (handed: Log)
      requires Ok() && out.None? && log.unstable.snapshot.None?
      modifies this
      ensures Ok() && P.Enabled(old(Value()), P.TakeLight(max, handed))
      ensures Value() == P.Next(old(Value()), P.TakeLight(max, handed))
    {
      hide NextUp, IsLimited, P.Exact, P.Position, ViewOf, P.Inv, TotalSize, Valid, Settled;
      ghost var n := Value();
      ReadyStarts(n);
      handed := NextCommitted(max);
      P.StepTakeLight(n, max, handed);
    }

    /** `on_persist_ready`: pops the records up to `number` and reports the newest of what they wrote. */
    method OnPersistReady(number: nat)
      requires Ok() && (out.Some? ==> number < out.value)
      modifies this, log
      ensures Ok() && Value() == P.OnPersist(old(Value()), number)
    {
      hide P.Exact, P.Position, P.Agrees, P.RecordOk, ViewOf, P.Upto, TotalSize, P.Inv, P.OutOk, Valid, Settled;
      ghost var n := Value();
      P.StepPersisted(n, number);
      RecordsOk(n);
      var index, term, snap := 0, 0, 0;
      ghost var k := 0;
      while records != [] && records[0].number <= number
        invariant 0 <= k <= |n.records| && records == n.records[k..]
        invariant (snap, index, term) == P.Newest(n.records, k)
        invariant forall i | 0 <= i < k :: n.records[i].number <= number
        invariant log.Value() == n.log && log.Ok()
        invariant commitSince == n.since && maxNumber == n.maxNumber
        invariant role == n.role && wasLeader == n.wasLeader && campaign == n.campaign && lone == n.lone && out == n.out && truth == n.truth && events == n.events && start == n.start
        decreases |records|
      {
        var r := records[0];
        assert r == n.records[k];
        records := records[1..];
        if r.snap.Some? {
          snap, index, term := r.snap.value, 0, 0;
        }
        if r.last.Some? {
          index, term := r.last.value.0, r.last.value.1;
        }
        k := k + 1;
      }
      UptoIs(n.records, number, k);
      P.NewestOk(n.log, n.records, k);
      if snap != 0 {
        var _ := log.TryPersistSnap(snap);
      }
      if index != 0 {
        var _ := log.TryPersist(index, term);
      }
    }
  }

  /** Where a Ready starts handing out entries is in front of memory and behind the compacted part. */
  lemma ReadyStarts(n: P.Node)
    requires P.Inv(n)
    ensures var since := if n.log.snap.Some? then n.log.snap.value.index else n.since;
            since < n.log.offset && ViewOf(n.log).base <= since
    ensures Valid(n.log) && Settled(n.log)
  {
    hide P.Exact, P.Position;
  }

  lemma ReadyTaken(n: P.Node, max: Limit, handed: Log)
    requires P.Inv(n) && n.out.None?
    requires IsLimited(NextUp(n.log, if n.log.snap.Some? then n.log.snap.value.index else n.since), max, handed)
    ensures P.Enabled(n, P.TakeReady(max, handed)) && P.Inv(P.Ready(n, handed))
    ensures P.Next(n, P.TakeReady(max, handed)) == P.Ready(n, handed)
  {
    hide P.Inv, NextUp, IsLimited, P.Ready;
    P.StepTakeReady(n, max, handed);
  }

  lemma HandedBack(n: P.Node)
    requires P.Inv(n) && n.out.Some?
    ensures P.Committable(n, n.out.value) && Valid(n.log)
    ensures P.Enabled(n, P.HandBack) && P.Next(n, P.HandBack) == P.CommitReady(n) && P.Inv(P.CommitReady(n))
  {
    P.HandBackChecks(n);
    P.StepHandBack(n);
  }

  lemma RecordsOk(n: P.Node)
    requires P.Inv(n)
    ensures forall i {:trigger n.records[i]} | 0 <= i < |n.records| :: P.RecordOk(n.log, n.records[i])
  {
  }

  lemma {:induction false} UptoIs(records: seq<P.Record>, number: nat, k: nat)
    requires k <= |records| && (forall i | 0 <= i < k :: records[i].number <= number)
    requires k < |records| ==> records[k].number > number
    ensures P.Upto(records, number) == k
  {
    if k > 0 {
      assert forall i | 1 <= i < |records| :: records[1..][i - 1] == records[i];
      UptoIs(records[1..], number, k - 1);
    }
  }
}
