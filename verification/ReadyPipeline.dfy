/** The Ready pipeline of src/raw_node.rs over the raft log, as a state machine: the protocol moves
    the log, the host takes a Ready, writes it and hands it back, and reports later, in order, that
    writes have reached the disk. No more than what is persisted is handed out to be applied. */
module ReadyPipeline {
  import opened Options
  import opened RaftLogs
  import opened EntryLimits
  import opened LogState

  /** What is remembered of a Ready until it is persisted: its number, the last entry's index and
      term, and the snapshot's index. */
  datatype Record = Record(number: nat, last: Option<(nat, nat)>, snap: Option<nat>)

  /** What the application was handed, in order. */
  datatype Event = Deliver(ents: Log) | Install(index: nat)

  datatype Role = Follower | Candidate | Leader

  /** `role` is the protocol's, and `wasLeader` says whether the last Ready handed back had announced a
      leader. `campaign` is the number of the last Ready before the candidacy began: the vote requests
      leave with the next one. `lone` says whether the last election was won by the own vote alone. `out`
      is the number of the Ready the host has taken and not handed back yet. These three, `truth` (the
      whole committed log), `events` and `start` are history: no operation reads them. */
  datatype Node = Node(log: State, records: seq<Record>, since: nat, maxNumber: nat, role: Role, wasLeader: bool,
                       campaign: nat, lone: bool, out: Option<nat>, truth: Log, events: seq<Event>, start: nat)

  // ---- What was delivered ----------------------------------------------------------------------------------

  /** The index the application has got to. */
  function Position(start: nat, events: seq<Event>): nat {
    if events == [] then start
    else match events[|events| - 1]
         case Deliver(ents) => Position(start, events[..|events| - 1]) + |ents|
         case Install(index) => index
  }

  /** Every delivery continues the committed log where the application stands; a snapshot only jumps
      forward. */
  predicate Exact(start: nat, events: seq<Event>, truth: Log) {
    events != [] ==>
      var before := events[..|events| - 1];
      var at := Position(start, before);
      && Exact(start, before, truth)
      && match events[|events| - 1]
         case Deliver(ents) => at + |ents| <= |truth| && ents == truth[at..at + |ents|]
         case Install(index) => at <= index <= |truth|
  }

  lemma {:induction false} ExactGrows(start: nat, events: seq<Event>, truth: Log, truth': Log)
    requires Exact(start, events, truth) && truth <= truth'
    ensures Exact(start, events, truth')
  {
    if events != [] {
      ExactGrows(start, events[..|events| - 1], truth, truth');
    }
  }

  lemma ExactNext(start: nat, events: seq<Event>, truth: Log, e: Event)
    requires Exact(start, events, truth)
    requires match e
             case Deliver(ents) =>
               Position(start, events) + |ents| <= |truth|
               && ents == truth[Position(start, events)..Position(start, events) + |ents|]
             case Install(index) => Position(start, events) <= index <= |truth|
    ensures Exact(start, events + [e], truth)
    ensures Position(start, events + [e]) == match e
                                             case Deliver(ents) => Position(start, events) + |ents|
                                             case Install(index) => index
  {
    assert (events + [e])[..|events + [e]| - 1] == events;
  }

  /** All entries handed out, one after the other. */
  function Handed(events: seq<Event>): Log {
    if events == [] then []
    else match events[|events| - 1]
         case Deliver(ents) => Handed(events[..|events| - 1]) + ents
         case Install(index) => Handed(events[..|events| - 1])
  }

  /** Without snapshots the application gets exactly the committed log from its starting point on. */
  lemma {:induction false} ExactlyOnce(start: nat, events: seq<Event>, truth: Log)
    requires Exact(start, events, truth) && start <= |truth| && forall e | e in events :: e.Deliver?
    ensures start <= Position(start, events) <= |truth|
    ensures Handed(events) == truth[start..Position(start, events)]
  {
    if events != [] {
      var before := events[..|events| - 1];
      assert forall e | e in before :: e in events;
      ExactlyOnce(start, before, truth);
      var at, ents := Position(start, before), events[|events| - 1].ents;
      assert truth[start..at] + truth[at..at + |ents|] == truth[start..at + |ents|];
    }
  }

  // ---- The invariant -----------------------------------------------------------------------------------------

  /** The part of the logical log that is committed is part of the committed log. */
  predicate Agrees(s: State, truth: Log)
    requires Valid(s)
  {
    var v := ViewOf(s);
    && |truth| == s.committed && v.base <= s.committed <= Last(v)
    && v.ents[..s.committed - v.base] == truth[v.base..]
  }

  predicate RecordOk(s: State, r: Record) {
    && (r.last.Some? ==> r.last.value.0 > 0)
    && (r.snap.Some? ==>
          && 0 < r.snap.value <= s.committed && r.snap.value < s.offset
          && (s.snap.Some? ==> r.snap.value <= s.snap.value.index))
  }

  /** The Ready had nothing to write. */
  predicate Blank(r: Record) {
    r.last.None? && r.snap.None?
  }

  predicate AllBlank(records: seq<Record>) {
    forall i | 0 <= i < |records| :: Blank(records[i])
  }

  predicate NothingUnstable(s: State) {
    s.ents == [] && s.snap.None?
  }

  /** Readies after the one that carried the vote requests have nothing to write while the candidacy
      lasts. A leader that has not been announced yet has entries to write, and no other records if others
      voted for it. */
  predicate RoleOk(n: Node) {
    && (n.role == Candidate && n.maxNumber > n.campaign ==>
          && (n.out != Some(n.campaign + 1) ==> NothingUnstable(n.log) && !n.wasLeader)
          && forall i {:trigger n.records[i]} | 0 <= i < |n.records| && n.records[i].number > n.campaign + 1 :: Blank(n.records[i]))
    && n.campaign <= n.maxNumber
    && (n.role == Leader && !n.wasLeader && n.out.None? ==> n.log.ents != [] && (!n.lone ==> AllBlank(n.records)))
  }

  /** With nothing unstable, everything stored is persisted or is what the newest records report. */
  predicate ReportOk(s: State, records: seq<Record>) {
    NothingUnstable(s) ==>
      var (snap, index, term) := Newest(records, |records|);
      || s.persisted == s.offset - 1
      || (index != 0 && index == s.offset - 1 && StoreTerm(s.store, index) == term)
      || (index == 0 && snap != 0 && snap == s.offset - 1)
  }

  /** While a Ready is out, the last record is that of its number and of what is still unstable, and a
      pending snapshot has been handed out. */
  predicate OutOk(n: Node) {
    n.out.Some? ==>
      && n.records != [] && n.out.value == n.maxNumber
      && n.records[|n.records| - 1] == RecordOf(n.log, n.out.value)
      && (n.log.snap.Some? ==> n.since == n.log.snap.value.index)
  }

  ghost predicate Inv(n: Node) {
    && Valid(n.log) && Settled(n.log) && Agrees(n.log, n.truth)
    && n.log.applied <= n.since <= n.log.committed && n.since < n.log.offset
    && (n.log.snap.None? ==> n.log.store.base <= n.since)
    && (n.log.snap.Some? ==> n.since <= n.log.snap.value.index && n.log.snap.value.index > 0)
    && (forall i {:trigger n.records[i]} | 0 <= i < |n.records| ::
          RecordOk(n.log, n.records[i]) && n.records[i].number <= n.maxNumber)
    && OutOk(n) && RoleOk(n) && ReportOk(n.log, n.records)
    && Exact(n.start, n.events, n.truth) && Position(n.start, n.events) == n.since
  }

  // ---- Steps -------------------------------------------------------------------------------------------------

  /** The committed log after the commit index of `s` moved. */
  function Grown(s: State, truth: Log): Log
    requires Valid(s) && ViewOf(s).base <= |truth| <= s.committed <= Last(ViewOf(s))
  {
    truth + ViewOf(s).ents[|truth| - ViewOf(s).base..s.committed - ViewOf(s).base]
  }

  /** The record of a Ready. */
  function RecordOf(s: State, number: nat): Record {
    Record(number,
           if s.ents == [] then None else Some((s.offset + |s.ents| - 1, s.ents[|s.ents| - 1].term)),
           if s.snap.Some? then Some(s.snap.value.index) else None)
  }

  /** The first Ready of a new leader forgets the records before it. */
  predicate Drains(n: Node) {
    n.role == Leader && !n.wasLeader
  }

  /** `ready`: a pending snapshot is handed out first, then entries (`ents`, cut to a size). */
  function Ready(n: Node, ents: Log): Node {
    var since, events := if n.log.snap.Some? then n.log.snap.value.index else n.since,
                         if n.log.snap.Some? then n.events + [Install(n.log.snap.value.index)] else n.events;
    n.(maxNumber := n.maxNumber + 1, out := Some(n.maxNumber + 1),
    records := (if Drains(n) then [] else n.records) + [RecordOf(n.log, n.maxNumber + 1)],
    since := since + |ents|, events := if ents == [] then events else events + [Deliver(ents)])
  }

  /** The host has written the Ready and hands it back: `commit_ready`. */
  function CommitReady(n: Node): Node
    requires Valid(n.log)
  {
    n.(log := Stable(n.log), out := None, wasLeader := n.role == Leader)
  }

  /** More entries, handed out when a Ready is handed back. */
  function Light(n: Node, ents: Log): Node {
    if ents == [] then n else n.(since := n.since + |ents|, events := n.events + [Deliver(ents)])
  }

  /** The newest snapshot and entries among the first `k` records; a snapshot supersedes entries
      before it. 0 stands for none. */
  function Newest(records: seq<Record>, k: nat): (nat, nat, nat)
    requires k <= |records|
  {
    if k == 0 then (0, 0, 0)
    else
      var (snap, index, term) := Newest(records, k - 1);
      var r := records[k - 1];
      var (snap1, index1, term1) := if r.snap.Some? then (r.snap.value, 0, 0) else (snap, index, term);
      if r.last.Some? then (snap1, r.last.value.0, r.last.value.1) else (snap1, index1, term1)
  }

  /** How many records have a number up to `number`, from the front. */
  function Upto(records: seq<Record>, number: nat): (k: nat)
    ensures k <= |records| && (forall i | 0 <= i < k :: records[i].number <= number)
    ensures k < |records| ==> records[k].number > number
  {
    if records == [] || records[0].number > number then 0 else 1 + Upto(records[1..], number)
  }

  /** `on_persist_ready`. */
  function OnPersist(n: Node, number: nat): Node {
    var k := Upto(n.records, number);
    var (snap, index, term) := Newest(n.records, k);
    var s1 := if snap != 0 then MaybePersistSnap(n.log, snap) else n.log;
    var s2 := if index != 0 then MaybePersist(s1, index, term) else s1;
    n.(log := s2, records := n.records[k..])
  }

  datatype Step =
    | StandUp
    | Elect(lone: bool, ents: Log)
    | StepDown
    | LeaderAppend(ents: Log)
    | FollowerAppend(prev: nat, prevTerm: nat, commit: nat, entries: Log)
    | Advance(index: nat)
    | RestoreSnap(snap: Snap, covered: Log)
    | TakeReady(limit: Limit, handed: Log)
    | HandBack
    | Persisted(number: nat)
    | TakeLight(limit: Limit, handed: Log)
    | Apply(index: nat)
    | CompactTo(index: nat)

  /** The protocol's own rules and the host's contract: while a Ready is out, the host neither lets the
      protocol move nor reports that Ready as persisted. */
  ghost predicate Enabled(n: Node, a: Step)
    requires Inv(n)
  {
    && (n.out.Some? ==> a.HandBack? || a.Apply? || a.CompactTo? || (a.Persisted? && a.number < n.out.value))
    && match a
       case StandUp => n.role != Leader
       case Elect(lone, ents) => Wins(n, lone) && n.log.persisted == Last(ViewOf(n.log)) && ents != []
       case StepDown => true
       case LeaderAppend(ents) => n.role == Leader && ents != []
       case FollowerAppend(prev, prevTerm, commit, ents) =>
         n.role == Follower && Appendable(n.log, prev, prevTerm, ents) && Matches(n.log, prev, prevTerm)
       case Advance(index) => index <= Last(ViewOf(n.log))
       case RestoreSnap(snap, covered) =>
         n.role == Follower && snap.index > 0 && snap.index >= n.log.committed && |covered| == snap.index && n.truth <= covered
       case TakeReady(limit, handed) =>
         var since := if n.log.snap.Some? then n.log.snap.value.index else n.since;
         IsLimited(NextUp(n.log, since), limit, handed)
       case HandBack => n.out.Some?
       case Persisted(number) => true
       case TakeLight(limit, handed) => n.log.snap.None? && IsLimited(NextUp(n.log, n.since), limit, handed)
       case Apply(index) => n.log.applied <= index <= n.since
       case CompactTo(index) => n.log.snap.None? && n.log.store.base <= index <= n.log.applied
  }

  /** The vote requests have left: the host sends them once the Ready that carries them is persisted. */
  predicate VotesAsked(n: Node) {
    n.maxNumber > n.campaign && forall i | 0 <= i < |n.records| :: n.records[i].number > n.campaign + 1
  }

  /** A candidacy may be won: at once with the own vote, if that is a quorum, or with the votes it asked for.
      `become_leader` insists that the log is persisted then. */
  predicate Wins(n: Node, lone: bool) {
    n.role == Candidate && n.out.None? && (lone || VotesAsked(n))
  }

  ghost function Next(n: Node, a: Step): Node
    requires Inv(n) && Enabled(n, a)
  {
    match a
    case StandUp => n.(role := Candidate, campaign := n.maxNumber)
    case Elect(lone, ents) => CommittedInRange(n.log); n.(role := Leader, lone := lone, log := LeaderAppended(n.log, ents))
    case StepDown => n.(role := Follower)
    case LeaderAppend(ents) => CommittedInRange(n.log); n.(log := LeaderAppended(n.log, ents))
    case FollowerAppend(prev, prevTerm, commit, ents) => Followed(n, prev, prevTerm, commit, ents)
    case Advance(index) => Advanced(n, index)
    case RestoreSnap(snap, covered) => n.(log := Restore(n.log, snap), truth := covered)
    case TakeReady(limit, handed) => Ready(n, handed)
    case HandBack => CommitReady(n)
    case Persisted(number) => OnPersist(n, number)
    case TakeLight(limit, handed) => Light(n, handed)
    case Apply(index) => n.(log := n.log.(applied := index))
    case CompactTo(index) => n.(log := Compact(n.log, index))
  }

  /** The log after an accepted append, and the committed log after what it committed. */
  function Followed(n: Node, prev: nat, prevTerm: nat, commit: nat, ents: Log): Node
    requires Valid(n.log) && Settled(n.log) && Agrees(n.log, n.truth)
    requires Appendable(n.log, prev, prevTerm, ents) && Matches(n.log, prev, prevTerm)
  {
    FollowerKeeps(n.log, n.truth, prev, prevTerm, commit, ents);
    var s := MaybeAppend(n.log, prev, prevTerm, commit, ents);
    n.(log := s, truth := Grown(s, n.truth))
  }

  function Advanced(n: Node, index: nat): Node
    requires Valid(n.log) && Settled(n.log) && Agrees(n.log, n.truth) && index <= Last(ViewOf(n.log))
  {
    CommitToStays(n.log, index);
    var s := CommitTo(n.log, index);
    CommittedInRange(s);
    n.(log := s, truth := Grown(s, n.truth))
  }

  function LeaderAppended(s: State, ents: Log): State
    requires Valid(s) && Settled(s)
  {
    CommittedInRange(s);
    LastInRange(s);
    Append(s, Last(ViewOf(s)), ents)
  }

  lemma LastInRange(s: State)
    requires Valid(s) && Settled(s)
    ensures s.committed <= Last(ViewOf(s)) == s.offset + |s.ents| - 1 && s.persisted <= Last(ViewOf(s))
  {
  }

  // ---- Every step keeps the invariant ------------------------------------------------------------------------------

  /** The records survive while the commit index and the offset stay beyond their snapshots. */
  predicate Covers(s: State, s': State) {
    && s.committed <= s'.committed && s'.snap == s.snap
    && (s'.offset >= s.offset || s'.offset > s.committed)
  }

  lemma RecordsStay(n: Node, s': State)
    requires Inv(n) && Covers(n.log, s')
    ensures forall i {:trigger n.records[i]} | 0 <= i < |n.records| :: RecordOk(s', n.records[i])
  {
    forall i | 0 <= i < |n.records| ensures RecordOk(s', n.records[i]) {
      assert RecordOk(n.log, n.records[i]);
    }
  }

  /** A step of the protocol: the log moves, and the committed log grows with it. */
  lemma Moved(n: Node, s': State, truth': Log)
    requires ReportOk(s', n.records) && (n.role == Candidate && NothingUnstable(n.log) ==> NothingUnstable(s'))
    requires n.role == Leader && n.log.ents != [] ==> s'.ents != []
    requires Inv(n) && n.out.None? && Valid(s') && Settled(s') && Agrees(s', truth') && n.truth <= truth'
    requires Covers(n.log, s') && s'.applied == n.log.applied && s'.store == n.log.store
    ensures Inv(n.(log := s', truth := truth'))
  {
    RecordsStay(n, s');
    ExactGrows(n.start, n.events, n.truth, truth');
  }

  lemma GrownAgrees(s: State, truth: Log)
    requires Valid(s) && ViewOf(s).base <= |truth| <= s.committed <= Last(ViewOf(s))
    requires ViewOf(s).ents[..|truth| - ViewOf(s).base] == truth[ViewOf(s).base..]
    ensures Agrees(s, Grown(s, truth)) && truth <= Grown(s, truth)
  {
    var v := ViewOf(s);
    var k, c := |truth| - v.base, s.committed - v.base;
    assert v.ents[..c] == v.ents[..k] + v.ents[k..c];
    assert Grown(s, truth)[v.base..] == truth[v.base..] + v.ents[k..c];
  }

  lemma OverwrittenKeeps(v: View, after: nat, ents: Log, k: nat)
    requires v.base <= k <= after <= Last(v)
    ensures Overwritten(v, after, ents).ents[..k - v.base] == v.ents[..k - v.base]
  {
  }

  lemma StepLeaderAppend(n: Node, ents: Log)
    requires Inv(n) && n.out.None? && n.role != Candidate && ents != []
    ensures Inv(n.(log := LeaderAppended(n.log, ents)))
  {
    var s, v := n.log, ViewOf(n.log);
    LastInRange(s);
    CommittedInRange(s);
    AppendMeaning(s, Last(v), ents);
    OverwrittenKeeps(v, Last(v), ents, s.committed);
    OverwrittenEnd(v, Last(v), ents);
    var s' := LeaderAppended(s, ents);
    assert Covers(s, s') && s'.applied == s.applied && s'.store == s.store && s'.ents != [];
    hide ViewOf, Overwritten, Append;
    assert Agrees(s', n.truth);
    hide Inv;
    Moved(n, s', n.truth);
  }

  lemma StepStandUp(n: Node)
    requires Inv(n) && Enabled(n, StandUp)
    ensures Inv(Next(n, StandUp))
  {
    hide Exact, Position, Valid, Settled;
  }

  lemma StepStepDown(n: Node)
    requires Inv(n)
    ensures Inv(n.(role := Follower))
  {
    hide Exact, Position, Valid, Settled;
  }

  /** A candidate that others voted for has nothing left to write and no record of anything written. */
  lemma Elected(n: Node)
    requires Inv(n) && Wins(n, false)
    ensures NothingUnstable(n.log) && AllBlank(n.records) && !n.wasLeader
    ensures n.log.persisted == Last(ViewOf(n.log))
  {
    hide Exact, Position;
    BlankReports(n.records, |n.records|);
    LastInRange(n.log);
  }

  lemma {:induction false} BlankReports(records: seq<Record>, k: nat)
    requires k <= |records| && forall i | 0 <= i < k :: Blank(records[i])
    ensures Newest(records, k) == (0, 0, 0)
  {
    if k > 0 { BlankReports(records, k - 1); }
  }

  lemma StepElect(n: Node, lone: bool, ents: Log)
    requires Inv(n) && Enabled(n, Elect(lone, ents))
    ensures Inv(Next(n, Elect(lone, ents)))
  {
    if !lone { Elected(n); }
    AppendsUnstable(n.log, ents);
    hide Exact, Position, Valid, Settled, ViewOf, Newest;
    var follower := n.(role := Follower);
    var s' := LeaderAppended(n.log, ents);
    assert Inv(follower);
    StepLeaderAppend(follower, ents);
    var n' := n.(role := Leader, lone := lone, log := s');
    assert Inv(follower.(log := s'));
    assert RoleOk(n') && OutOk(n');
  }

  lemma AppendsUnstable(s: State, ents: Log)
    requires Valid(s) && Settled(s) && ents != []
    ensures LeaderAppended(s, ents).ents != []
  {
    LastInRange(s);
  }

  lemma OverwrittenEnd(v: View, after: nat, ents: Log)
    requires v.base <= after <= Last(v)
    ensures Last(Overwritten(v, after, ents)) == after + |ents| && Overwritten(v, after, ents).base == v.base
  {
  }

  lemma FollowerCovers(s: State, prev: nat, prevTerm: nat, commit: nat, ents: Log)
    requires Valid(s) && Settled(s) && Appendable(s, prev, prevTerm, ents) && Matches(s, prev, prevTerm)
    ensures var s' := MaybeAppend(s, prev, prevTerm, commit, ents);
            Covers(s, s') && s'.applied == s.applied && s'.store == s.store
  {
    AppendInRange(s, prev, prevTerm, ents);
    hide Conflict, TermOf, ViewOf;
  }

  /** An append that leaves nothing unstable had nothing new. */
  lemma FollowerReports(s: State, prev: nat, prevTerm: nat, commit: nat, ents: Log, records: seq<Record>)
    requires Valid(s) && Settled(s) && Appendable(s, prev, prevTerm, ents) && Matches(s, prev, prevTerm) && ReportOk(s, records)
    ensures ReportOk(MaybeAppend(s, prev, prevTerm, commit, ents), records)
  {
    AppendInRange(s, prev, prevTerm, ents);
    hide Conflict, ViewOf, Newest;
    var s' := MaybeAppend(s, prev, prevTerm, commit, ents);
    if NothingUnstable(s') {
      assert s' == s.(committed := s'.committed);
    }
  }

  lemma StepFollowerAppend(n: Node, prev: nat, prevTerm: nat, commit: nat, ents: Log)
    requires Inv(n) && Enabled(n, FollowerAppend(prev, prevTerm, commit, ents))
    ensures Inv(Next(n, FollowerAppend(prev, prevTerm, commit, ents)))
  {
    hide Conflict, TermOf, ViewOf, MaybeAppend, Overwritten, Exact, Position, Grown;
    var s := n.log;
    MaybeAppendMeaning(s, prev, prevTerm, commit, ents);
    FollowerCovers(s, prev, prevTerm, commit, ents);
    FollowerReports(s, prev, prevTerm, commit, ents, n.records);
    FollowerKeeps(s, n.truth, prev, prevTerm, commit, ents);
    var s' := MaybeAppend(s, prev, prevTerm, commit, ents);
    GrownAgrees(s', n.truth);
    hide Inv;
    Moved(n, s', Grown(s', n.truth));
  }

  /** An accepted append leaves the committed part of the log alone. */
  lemma FollowerKeeps(s: State, truth: Log, prev: nat, prevTerm: nat, commit: nat, ents: Log)
    requires Valid(s) && Settled(s) && Appendable(s, prev, prevTerm, ents) && Matches(s, prev, prevTerm) && Agrees(s, truth)
    ensures var s' := MaybeAppend(s, prev, prevTerm, commit, ents);
            && Valid(s') && ViewOf(s').base <= |truth| <= s'.committed <= Last(ViewOf(s'))
            && ViewOf(s').ents[..|truth| - ViewOf(s').base] == truth[ViewOf(s').base..]
  {
    hide Conflict, TermOf, ViewOf, MaybeAppend, Overwritten;
    var v, j := ViewOf(s), Conflict(s, prev, ents);
    MaybeAppendMeaning(s, prev, prevTerm, commit, ents);
    CommittedInRange(MaybeAppend(s, prev, prevTerm, commit, ents));
    if j < |ents| {
      OverwrittenKeeps(v, prev + j, ents[j..], s.committed);
      OverwrittenEnd(v, prev + j, ents[j..]);
    }
  }

  lemma StepAdvance(n: Node, index: nat)
    requires Inv(n) && Enabled(n, Advance(index))
    ensures Inv(Next(n, Advance(index)))
  {
    hide Exact, Position, Newest, ViewOf, RecordOk, Valid, Settled;
    CommitToStays(n.log, index);
    var s' := CommitTo(n.log, index);
    assert s' == n.log.(committed := s'.committed);
    SettledStays(n.log, s');
    CommittedInRange(n.log);
    CommittedInRange(s');
    assert Agrees(n.log, n.truth) && ReportOk(s', n.records);
    GrownAgrees(s', n.truth);
    hide Inv, ReportOk, Grown;
    Moved(n, s', Grown(s', n.truth));
  }

  lemma SettledStays(s: State, s': State)
    requires Settled(s) && s' == s.(committed := s'.committed)
    ensures Settled(s')
  {
  }

  lemma StepRestoreSnap(n: Node, snap: Snap, covered: Log)
    requires Inv(n) && Enabled(n, RestoreSnap(snap, covered))
    ensures Inv(Next(n, RestoreSnap(snap, covered)))
  {
    RestoreMeaning(n.log, snap);
    var s' := Restore(n.log, snap);
    forall i | 0 <= i < |n.records| ensures RecordOk(s', n.records[i]) {
      assert RecordOk(n.log, n.records[i]);
    }
    ExactGrows(n.start, n.events, n.truth, covered);
  }

  /** What is handed out continues the committed log. */
  lemma NextUpIsTruth(s: State, since: nat, truth: Log, limit: Limit, handed: Log)
    requires Valid(s) && Settled(s) && Agrees(s, truth) && ViewOf(s).base <= since <= s.committed
    requires IsLimited(NextUp(s, since), limit, handed)
    ensures since + |handed| <= s.committed && handed == truth[since..since + |handed|]
    ensures handed != [] ==> since + |handed| <= s.persisted
  {
    hide ViewOf;
    var v, high := ViewOf(s), Min(s.committed, s.persisted);
    CommittedInRange(s);
    if high > since {
      assert NextUp(s, since) == v.ents[since - v.base..high - v.base];
      SameRange(v.ents, truth, v.base, since, high);
    }
    hide NextUp;
    HandedPrefix(NextUp(s, since), truth, since, high, limit, handed);
  }

  lemma SameRange(ents: Log, truth: Log, base: nat, lo: nat, hi: nat)
    requires base <= lo <= hi <= |truth| <= base + |ents| && ents[..|truth| - base] == truth[base..]
    ensures ents[lo - base..hi - base] == truth[lo..hi]
  {
    assert ents[lo - base..hi - base] == ents[..|truth| - base][lo - base..hi - base];
    assert truth[lo..hi] == truth[base..][lo - base..hi - base];
  }

  lemma HandedPrefix(up: Log, truth: Log, since: nat, high: nat, limit: Limit, handed: Log)
    requires IsLimited(up, limit, handed)
    requires if high > since then high <= |truth| && up == truth[since..high] else up == []
    requires since <= |truth|
    ensures since + |handed| <= |truth| && handed == truth[since..since + |handed|]
    ensures handed != [] ==> since + |handed| <= high
  {
    assert handed == up[..|handed|];
  }

  /** With a snapshot pending nothing behind it can be handed out. */
  lemma NothingBehindSnapshot(s: State)
    requires Valid(s) && Settled(s) && s.snap.Some?
    ensures NextUp(s, s.snap.value.index) == []
  {
  }

  lemma ReadyEvents(n: Node, limit: Limit, handed: Log)
    requires Inv(n) && Enabled(n, TakeReady(limit, handed))
    ensures Exact(n.start, Ready(n, handed).events, n.truth)
    ensures Position(n.start, Ready(n, handed).events) == Ready(n, handed).since
    ensures n.since <= Ready(n, handed).since <= n.log.committed && Ready(n, handed).since < n.log.offset
    ensures n.log.snap.Some? ==> handed == [] && Ready(n, handed).since == n.log.snap.value.index
  {
    if n.log.snap.Some? {
      NothingBehindSnapshot(n.log);
      ExactNext(n.start, n.events, n.truth, Install(n.log.snap.value.index));
    } else {
      NextUpIsTruth(n.log, n.since, n.truth, limit, handed);
      if handed != [] { ExactNext(n.start, n.events, n.truth, Deliver(handed)); }
    }
  }

  lemma StepTakeReady(n: Node, limit: Limit, handed: Log)
    requires Inv(n) && Enabled(n, TakeReady(limit, handed))
    ensures Inv(Next(n, TakeReady(limit, handed)))
  {
    ReadyEvents(n, limit, handed);
    CommittedInRange(n.log);
    var n' := Next(n, TakeReady(limit, handed));
    assert n.log.snap.Some? ==> n.log.snap.value.index <= n.log.committed && n.log.snap.value.index < n.log.offset;
    hide ViewOf, Exact, Position, Valid, Settled, Newest, Agrees;
    ReadyRecords(n, handed);
    ReadyReports(n, handed);
  }

  lemma ReadyRecords(n: Node, handed: Log)
    requires Inv(n) && n.out.None?
    requires n.log.snap.Some? ==> 0 < n.log.snap.value.index <= n.log.committed && n.log.snap.value.index < n.log.offset
    ensures var n' := Ready(n, handed);
            && RoleOk(n')
            && forall i {:trigger n'.records[i]} | 0 <= i < |n'.records| ::
                 RecordOk(n'.log, n'.records[i]) && n'.records[i].number <= n'.maxNumber
  {
    hide ViewOf, Exact, Position, Valid, Settled, Newest, Agrees, ReportOk;
    var n' := Ready(n, handed);
    forall i | 0 <= i < |n'.records|
      ensures RecordOk(n'.log, n'.records[i]) && n'.records[i].number <= n'.maxNumber
      ensures n'.role == Candidate && n.maxNumber > n.campaign && n'.records[i].number > n'.campaign + 1 ==> Blank(n'.records[i])
    {
      if i < |n'.records| - 1 {
        assert n'.records[i] == n.records[i];
        assert RecordOk(n.log, n.records[i]) && n.records[i].number <= n.maxNumber;
      }
    }
  }

  lemma ReadyReports(n: Node, handed: Log)
    requires Inv(n) && n.out.None?
    ensures ReportOk(n.log, Ready(n, handed).records)
  {
    hide ViewOf, Exact, Position, Valid, Settled, Agrees, RecordOk;
    var old_, new_ := n.records, Ready(n, handed).records;
    if NothingUnstable(n.log) {
      var k := |new_| - 1;
      assert Blank(new_[k]);
      assert new_[..k] == old_;
      NewestPrefix(new_, old_, k);
    }
  }

  lemma {:induction false} NewestPrefix(a: seq<Record>, b: seq<Record>, k: nat)
    requires k <= |a| && k <= |b| && a[..k] == b[..k]
    ensures Newest(a, k) == Newest(b, k)
  {
    if k > 0 {
      assert a[..k - 1] == a[..k][..k - 1] && b[..k - 1] == b[..k][..k - 1];
      assert a[k - 1] == a[..k][k - 1] && b[k - 1] == b[..k][k - 1];
      NewestPrefix(a, b, k - 1);
    }
  }

  lemma StepHandBack(n: Node)
    requires Inv(n) && Enabled(n, HandBack)
    ensures Inv(Next(n, HandBack))
  {
    StableMeaning(n.log);
    CommittedInRange(n.log);
    WrittenReports(n);
    var n' := Next(n, HandBack);
    hide Exact, Position, Newest, Valid, Settled;
    assert Agrees(n'.log, n'.truth);
    hide ViewOf, Agrees;
    forall i | 0 <= i < |n'.records| ensures RecordOk(n'.log, n'.records[i]) && n'.records[i].number <= n'.maxNumber {
      assert RecordOk(n.log, n.records[i]) && n.records[i].number <= n.maxNumber;
    }
    HandBackRole(n);
  }

  lemma HandBackRole(n: Node)
    requires Inv(n) && n.out.Some?
    ensures RoleOk(CommitReady(n))
  {
    hide Exact, Position, Newest, Settled, ViewOf, Agrees, RecordOk, ReportOk;
  }

  /** What the Ready that is handed back wrote is what the newest record reports. */
  lemma WrittenReports(n: Node)
    requires Inv(n) && n.out.Some?
    ensures ReportOk(Stable(n.log), n.records)
  {
    hide Exact, Position, Agrees, RecordOk;
    var s, k := n.log, |n.records|;
    var r := n.records[k - 1];
    var s' := Stable(s);
    if s.ents != [] {
      assert Newest(n.records, k).1 == s'.offset - 1;
      LastStored(s);
    } else if s.snap.Some? {
      assert Newest(n.records, k).0 == s.snap.value.index;
    } else {
      assert s' == s.(store := s'.store);
      assert s'.store == s.store;
    }
  }

  lemma LastStored(s: State)
    requires Valid(s) && Settled(s) && s.ents != []
    ensures StoreTerm(Stable(s).store, s.offset + |s.ents| - 1) == s.ents[|s.ents| - 1].term
  {
  }

  /** The fatal branches of `commit_ready`, `stable_snap` and `stable_entries`: the last record has the
      number of the Ready handed back, a recorded snapshot is the pending one, and recorded entries end
      where the unstable ones do, with the same term; without a record nothing of the kind is unstable. */
  predicate Committable(n: Node, number: nat) {
    && n.records != []
    && var r := n.records[|n.records| - 1];
    && r.number == number
    && (r.snap.Some? <==> n.log.snap.Some?) && (r.snap.Some? ==> r.snap.value == n.log.snap.value.index)
    && (r.last.Some? <==> n.log.ents != [])
    && (r.last.Some? ==> r.last.value == (n.log.offset + |n.log.ents| - 1, n.log.ents[|n.log.ents| - 1].term))
  }

  lemma StepTakeLight(n: Node, limit: Limit, handed: Log)
    requires Inv(n) && Enabled(n, TakeLight(limit, handed))
    ensures Inv(Next(n, TakeLight(limit, handed)))
  {
    NextUpIsTruth(n.log, n.since, n.truth, limit, handed);
    if handed != [] { ExactNext(n.start, n.events, n.truth, Deliver(handed)); }
  }

  /** What the records report is covered by the log. */
  lemma {:induction false} NewestOk(s: State, records: seq<Record>, k: nat)
    requires k <= |records| && forall i {:trigger records[i]} | 0 <= i < k :: RecordOk(s, records[i])
    ensures var snap := Newest(records, k).0;
            snap != 0 ==> PersistableSnap(s, snap) && (s.snap.Some? ==> snap <= s.snap.value.index)
  {
    if k > 0 {
      NewestOk(s, records, k - 1);
      assert RecordOk(s, records[k - 1]);
    }
  }

  lemma UptoBefore(records: seq<Record>, number: nat)
    requires records != [] && records[|records| - 1].number > number
    ensures Upto(records, number) < |records|
  {
  }

  lemma StepPersisted(n: Node, number: nat)
    requires Inv(n) && (n.out.Some? ==> number < n.out.value)
    ensures Inv(OnPersist(n, number))
  {
    hide Newest, Upto, ViewOf, Exact, Position, MaybePersist, MaybePersistSnap, Valid, Settled, Agrees;
    var k := Upto(n.records, number);
    var (snap, index, term) := Newest(n.records, k);
    NewestOk(n.log, n.records, k);
    PersistMoves(n.log, snap, index, term);
    if n.out.Some? { UptoBefore(n.records, number); }
    PoppedReports(n.log, n.records, k, OnPersist(n, number).log);
    hide Inv;
    Popped(n, OnPersist(n, number).log, k);
  }

  /** The newest of all records, from the first ones and the rest. */
  lemma {:induction false} NewestJoins(records: seq<Record>, k: nat, m: nat)
    requires k <= m <= |records|
    requires forall i {:trigger records[i]} | 0 <= i < m :: (records[i].last.Some? ==> records[i].last.value.0 > 0)
                                                            && (records[i].snap.Some? ==> records[i].snap.value > 0)
    ensures var (snap, index, term), (snap0, index0, term0), (snap1, index1, term1) :=
              Newest(records, m), Newest(records, k), Newest(records[k..], m - k);
            && snap == (if snap1 != 0 then snap1 else snap0)
            && (index, term) == (if snap1 != 0 || index1 != 0 then (index1, term1) else (index0, term0))
  {
    if m > k {
      NewestJoins(records, k, m - 1);
      assert records[k..][m - k - 1] == records[m - 1];
    }
  }

  /** Reporting the first records keeps: with nothing unstable, the rest reports what is not persisted yet. */
  lemma PoppedReports(s: State, records: seq<Record>, k: nat, s': State)
    requires Valid(s) && Settled(s) && k <= |records| && ReportOk(s, records)
    requires forall i {:trigger records[i]} | 0 <= i < |records| :: RecordOk(s, records[i])
    requires var (snap, index, term) := Newest(records, k);
             var s1 := if snap != 0 then MaybePersistSnap(s, snap) else s;
             s' == if index != 0 then MaybePersist(s1, index, term) else s1
    ensures ReportOk(s', records[k..])
  {
    assert s.persisted < s.offset;
    hide Newest, Valid, Settled, MaybePersist, MaybePersistSnap, StoreTerm;
    NewestOk(s, records, k);
    PersistEnd(s, Newest(records, k).0, Newest(records, k).1, Newest(records, k).2);
    if NothingUnstable(s) {
      NewestJoins(records, k, |records|);
    }
  }

  /** Reporting the last stored index makes it the persisted one; nothing else goes beyond it. */
  lemma PersistEnd(s: State, snap: nat, index: nat, term: nat)
    requires s.persisted < s.offset && (snap != 0 ==> snap < s.offset)
    ensures var s1 := if snap != 0 then MaybePersistSnap(s, snap) else s;
            var s' := if index != 0 then MaybePersist(s1, index, term) else s1;
            && s' == s.(persisted := s'.persisted)
            && (NothingUnstable(s) ==>
                  && (s.persisted == s.offset - 1 ==> s'.persisted == s.offset - 1)
                  && (index != 0 && index == s.offset - 1 && StoreTerm(s.store, index) == term ==> s'.persisted == s.offset - 1)
                  && (index == 0 && snap != 0 && snap == s.offset - 1 ==> s'.persisted == s.offset - 1))
  {
  }

  /** Dropping records from the front, but not that of a Ready that is out. */
  lemma Popped(n: Node, s': State, k: nat)
    requires Inv(n) && k <= |n.records| && (n.out.Some? ==> k < |n.records|)
    requires s' == n.log.(persisted := s'.persisted) && Valid(s') && Settled(s') && ViewOf(s') == ViewOf(n.log)
    requires ReportOk(s', n.records[k..])
    ensures Inv(n.(log := s', records := n.records[k..]))
  {
    hide ViewOf, Exact, Position, Valid, Settled, ReportOk;
    var n' := n.(log := s', records := n.records[k..]);
    forall i | 0 <= i < |n'.records| ensures RecordOk(n'.log, n'.records[i]) && n'.records[i].number <= n'.maxNumber {
      assert n'.records[i] == n.records[k + i];
      assert RecordOk(n.log, n.records[k + i]);
    }
    assert n.out.Some? ==> n'.records[|n'.records| - 1] == n.records[|n.records| - 1];
  }

  /** Reporting writes moves the persisted index and nothing else. */
  lemma PersistMoves(s: State, snap: nat, index: nat, term: nat)
    requires Valid(s) && Settled(s)
    requires snap != 0 ==> PersistableSnap(s, snap) && (s.snap.Some? ==> snap <= s.snap.value.index)
    ensures var s1 := if snap != 0 then MaybePersistSnap(s, snap) else s;
            var s2 := if index != 0 then MaybePersist(s1, index, term) else s1;
            && Valid(s2) && Settled(s2) && ViewOf(s2) == ViewOf(s) && s2 == s.(persisted := s2.persisted)
            && s2.persisted >= s.persisted
  {
    hide ViewOf;
    if snap != 0 { MaybePersistSnapStays(s, snap); }
    var s1 := if snap != 0 then MaybePersistSnap(s, snap) else s;
    MaybePersistStays(s1, index, term);
  }

  lemma StepCompactTo(n: Node, index: nat)
    requires Inv(n) && Enabled(n, CompactTo(index))
    ensures Inv(Next(n, CompactTo(index)))
  {
    hide ViewOf, Valid, Settled, Agrees, Exact, Position, ReportOk, RecordOk;
    CompactMeaning(n.log, index);
    CompactReports(n.log, index, n.records);
    CompactAgrees(n.log, index, n.truth);
    RecordsStay(n, Compact(n.log, index));
  }

  lemma CompactReports(s: State, index: nat, records: seq<Record>)
    requires Valid(s) && Settled(s) && s.snap.None? && s.store.base <= index <= s.applied && index < s.offset && ReportOk(s, records)
    ensures ReportOk(Compact(s, index), records)
  {
    hide Newest;
  }

  lemma CompactAgrees(s: State, index: nat, truth: Log)
    requires Valid(s) && Settled(s) && s.snap.None? && s.store.base <= index <= s.applied && index < s.offset && Agrees(s, truth)
    requires s.applied <= s.committed
    ensures Valid(Compact(s, index)) && Agrees(Compact(s, index), truth)
  {
    CompactMeaning(s, index);
    CommittedInRange(s);
    var v := ViewOf(s);
    hide ViewOf;
    assert v.ents[index - v.base..][..s.committed - index] == v.ents[..s.committed - v.base][index - v.base..];
    assert truth[v.base..][index - v.base..] == truth[index..];
  }

  lemma StepInv(n: Node, a: Step)
    requires Inv(n) && Enabled(n, a)
    ensures Inv(Next(n, a))
  {
    match a
    case StandUp => StepStandUp(n);
    case Elect(lone, ents) => StepElect(n, lone, ents);
    case StepDown => StepStepDown(n);
    case LeaderAppend(ents) => StepLeaderAppend(n, ents);
    case FollowerAppend(prev, prevTerm, commit, ents) => StepFollowerAppend(n, prev, prevTerm, commit, ents);
    case Advance(index) => StepAdvance(n, index);
    case RestoreSnap(snap, covered) => StepRestoreSnap(n, snap, covered);
    case TakeReady(limit, handed) => StepTakeReady(n, limit, handed);
    case HandBack => StepHandBack(n);
    case Persisted(number) => StepPersisted(n, number);
    case TakeLight(limit, handed) => StepTakeLight(n, limit, handed);
    case Apply(index) => ApplyStays(n, index);
    case CompactTo(index) => StepCompactTo(n, index);
  }

  lemma ApplyStays(n: Node, index: nat)
    requires Inv(n) && n.log.applied <= index <= n.since
    ensures Inv(n.(log := n.log.(applied := index)))
  {
    hide Exact, Position, Newest, RecordOk, Blank, AllBlank;
    var s' := n.log.(applied := index);
    assert ViewOf(s') == ViewOf(n.log);
    hide ViewOf;
    RecordsStay(n, s');
  }

  // ---- Runs ----------------------------------------------------------------------------------------------------------

  /** A node just opened on its storage: nothing unstable, nothing handed out yet. */
  predicate Initial(n: Node) {
    && n.log.snap.None? && n.log.ents == [] && n.log.offset == StoreLast(n.log.store) + 1
    && n.log.persisted == StoreLast(n.log.store)
    && n.log.store.base <= n.log.applied <= n.log.committed <= StoreLast(n.log.store)
    && |n.truth| == n.log.committed && n.truth[n.log.store.base..] == n.log.store.ents[..n.log.committed - n.log.store.base]
    && n.records == [] && n.role == Follower && !n.wasLeader && n.campaign <= n.maxNumber && n.out == None
    && n.events == [] && n.since == n.start == n.log.applied
  }

  /** Steps are defined on states that satisfy the invariant; all states of a run do. */
  ghost predicate IsRun(run: seq<Node>) {
    && run != [] && Initial(run[0])
    && forall i | 0 <= i < |run| - 1 :: Inv(run[i]) ==> exists a :: Enabled(run[i], a) && run[i + 1] == Next(run[i], a)
  }

  lemma InitialInv(n: Node)
    requires Initial(n)
    ensures Inv(n)
  {
    assert n.log.store.ents[..n.log.offset - n.log.store.base - 1] == n.log.store.ents;
  }

  lemma {:induction false} RunInv(run: seq<Node>, i: nat)
    requires IsRun(run) && i < |run|
    ensures Inv(run[i])
  {
    hide Inv, Enabled, Next, Initial;
    if i == 0 {
      InitialInv(run[0]);
    } else {
      RunInv(run, i - 1);
      var a :| Enabled(run[i - 1], a) && run[i] == Next(run[i - 1], a);
      StepInv(run[i - 1], a);
    }
  }

  /** One more step of a run. */
  lemma Continue(run: seq<Node>, a: Step, n: Node) returns (run': seq<Node>)
    requires IsRun(run) && Inv(run[|run| - 1]) && Enabled(run[|run| - 1], a) && n == Next(run[|run| - 1], a)
    ensures IsRun(run') && run' == run + [n] && Inv(n)
  {
    hide Inv, Enabled, Next, Initial;
    StepInv(run[|run| - 1], a);
    run' := run + [n];
    forall i | 0 <= i < |run'| - 1
      ensures Inv(run'[i]) ==> exists a :: Enabled(run'[i], a) && run'[i + 1] == Next(run'[i], a)
    {
      if i < |run| - 1 {
        assert run'[i] == run[i] && run'[i + 1] == run[i + 1];
      }
    }
  }

  /** Along every run the application is handed the committed log exactly once and in order, and it
      has got to the index the node believes it has. */
  lemma ExactDelivery(run: seq<Node>, i: nat)
    requires IsRun(run) && i < |run|
    ensures Exact(run[i].start, run[i].events, run[i].truth)
    ensures Position(run[i].start, run[i].events) == run[i].since
  {
    RunInv(run, i);
  }

  /** Whatever a step hands out is committed and persisted at that moment, and starts right behind
      what was handed out before. */
  lemma HandedIsDurable(run: seq<Node>, i: nat, limit: Limit, handed: Log)
    requires IsRun(run) && i < |run| && handed != []
    requires Inv(run[i]) && (Enabled(run[i], TakeReady(limit, handed)) || Enabled(run[i], TakeLight(limit, handed)))
    ensures run[i].since + |handed| <= Min(run[i].log.committed, run[i].log.persisted)
    ensures handed == run[i].truth[run[i].since..run[i].since + |handed|]
  {
    hide IsRun, Exact, Position;
    HandedFromLog(run[i], limit, handed);
    hide NextUp, ViewOf;
    NextUpIsTruth(run[i].log, run[i].since, run[i].truth, limit, handed);
  }

  lemma HandedFromLog(n: Node, limit: Limit, handed: Log)
    requires Inv(n) && handed != []
    requires Enabled(n, TakeReady(limit, handed)) || Enabled(n, TakeLight(limit, handed))
    ensures n.log.snap.None? && IsLimited(NextUp(n.log, n.since), limit, handed) && ViewOf(n.log).base <= n.since
  {
    hide Exact, Position;
    if n.log.snap.Some? { NothingBehindSnapshot(n.log); }
  }

  /** The persistence pointers stay in their places. */
  lemma PersistencePointers(run: seq<Node>, i: nat)
    requires IsRun(run) && i < |run|
    ensures Valid(run[i].log)
    ensures run[i].log.persisted < run[i].log.offset
    ensures run[i].log.snap.Some? ==> run[i].log.persisted <= run[i].log.snap.value.index
    ensures run[i].log.committed <= Last(ViewOf(run[i].log))
    ensures run[i].log.applied <= run[i].since <= run[i].log.committed
  {
    RunInv(run, i);
  }

  /** Once all records are reported and nothing is unstable, everything is persisted. A host can see to that
      before it lets a single voter campaign. */
  lemma ReportedIsPersisted(run: seq<Node>, i: nat)
    requires IsRun(run) && i < |run| && NothingUnstable(run[i].log) && AllBlank(run[i].records)
    ensures Valid(run[i].log) && run[i].log.persisted == Last(ViewOf(run[i].log))
  {
    hide IsRun;
    RunInv(run, i);
    hide Exact, Position;
    BlankReports(run[i].records, |run[i].records|);
    LastInRange(run[i].log);
  }

  /** The source's own checks never fail: a snapshot is not behind what was handed out and leaves
      nothing else to hand out, reported snapshots are committed and behind the offset, however many
      are in flight, a Ready handed back is the one the last record describes, and the records drained by
      a new leader that others voted for have nothing in them. */
  lemma ChecksHold(run: seq<Node>, i: nat, number: nat)
    requires IsRun(run) && i < |run|
    ensures var n := run[i];
            && (n.log.snap.Some? ==> n.since <= n.log.snap.value.index)
            && Valid(n.log) && Settled(n.log)
            && (n.log.snap.Some? ==> NextUp(n.log, n.log.snap.value.index) == [])
            && (var snap := Newest(n.records, Upto(n.records, number)).0; snap != 0 ==> PersistableSnap(n.log, snap))
            && (n.out.Some? ==> Committable(n, n.out.value))
            && (n.out.None? && Drains(n) && !n.lone ==> AllBlank(n.records))
  {
    hide IsRun, Inv, Newest, Upto, NextUp, Committable;
    RunInv(run, i);
    SnapshotChecks(run[i]);
    ReportChecks(run[i], number);
    if run[i].out.Some? { HandBackChecks(run[i]); } else { DrainChecks(run[i]); }
  }

  lemma SnapshotChecks(n: Node)
    requires Inv(n)
    ensures Valid(n.log) && Settled(n.log)
    ensures n.log.snap.Some? ==> n.since <= n.log.snap.value.index && NextUp(n.log, n.log.snap.value.index) == []
  {
    hide Exact, Position;
    if n.log.snap.Some? { NothingBehindSnapshot(n.log); }
  }

  lemma ReportChecks(n: Node, number: nat)
    requires Inv(n)
    ensures var snap := Newest(n.records, Upto(n.records, number)).0; snap != 0 ==> PersistableSnap(n.log, snap)
  {
    hide Exact, Position, Valid, Settled, Newest, Upto;
    NewestOk(n.log, n.records, Upto(n.records, number));
  }

  lemma DrainChecks(n: Node)
    requires Inv(n) && n.out.None?
    ensures Drains(n) && !n.lone ==> AllBlank(n.records)
  {
    hide Exact, Position, Valid, Settled;
  }

  lemma HandBackChecks(n: Node)
    requires Inv(n) && n.out.Some?
    ensures Committable(n, n.out.value)
  {
    hide Exact, Position, Valid, Settled;
  }
}
