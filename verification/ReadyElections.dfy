/** What becoming leader relies on in the Ready pipeline: that the log is persisted (src/raft.rs:1661) and that
    the records forgotten then had nothing to write (src/raw_node.rs:530). Both are sure when others voted,
    because the vote requests leave with a persisted Ready, and neither is when a single voter elects itself. */
module ReadyElections {
  import opened Options
  import opened RaftLogs
  import opened EntryLimits
  import opened LogState
  import opened ReadyPipeline

  // ---- What becoming leader relies on ------------------------------------------------------------------------------

  /** Whoever may become leader, winning that way, has persisted its whole log: the assertion in
      `become_leader` never fails. */
  ghost predicate WinnersPersisted(lone: bool) {
    forall run: seq<Node>, i: nat | IsRun(run) && i < |run| && Wins(run[i], lone) :: run[i].log.persisted == LastIndex(run[i].log)
  }

  /** It holds for elections others voted in, and for those only. */
  lemma WinnersPersistedIff(lone: bool)
    ensures WinnersPersisted(lone) <==> !lone
  {
    hide IsRun, Wins, LastIndex;
    if lone {
      var run := LaggingRun();
      assert Wins(run[4], true);
    } else {
      forall run: seq<Node>, i: nat | IsRun(run) && i < |run| && Wins(run[i], false)
        ensures run[i].log.persisted == LastIndex(run[i].log)
      {
        WinnerIsPersisted(run, i);
      }
    }
  }

  /** The vote requests left only after everything was persisted, and a candidate's log does not change. */
  lemma WinnerIsPersisted(run: seq<Node>, i: nat)
    requires IsRun(run) && i < |run| && Wins(run[i], false)
    ensures run[i].log.persisted == LastIndex(run[i].log)
  {
    hide IsRun, Wins;
    RunInv(run, i);
    Elected(run[i]);
    hide Exact, Position;
    QueriesMeanView(run[i].log, 0);
  }

  /** The records a leader drains had nothing to write: the assertions in `ready` never fail. */
  ghost predicate DrainsBlank(lone: bool) {
    forall run: seq<Node>, i: nat | IsRun(run) && i < |run| && Draining(run[i], lone) :: AllBlank(run[i].records)
  }

  predicate Draining(n: Node, lone: bool) {
    n.out.None? && Drains(n) && n.lone == lone
  }

  /** Again for elections others voted in only. */
  lemma DrainsBlankIff(lone: bool)
    ensures DrainsBlank(lone) <==> !lone
  {
    hide IsRun, AllBlank;
    if lone {
      var run := LateReportRun();
      assert Draining(run[|run| - 1], true);
    } else {
      forall run: seq<Node>, i: nat | IsRun(run) && i < |run| && Draining(run[i], false) ensures AllBlank(run[i].records) {
        RunInv(run, i);
        DrainChecks(run[i]);
      }
    }
  }

  // ---- A single voter -----------------------------------------------------------------------------------------------

  /** A node over a storage that starts at index 1, with nothing committed. */
  function Lone(stored: Log, ents: Log, offset: nat, persisted: nat, records: seq<Record>, number: nat,
                role: Role, campaign: nat, lone: bool, out: Option<nat>): Node
  {
    Node(State(Store(0, 0, stored), None, ents, offset, 0, persisted, 0), records, 0, number, role, false,
         campaign, lone, out, [], [], 0)
  }

  const OPENED := Lone([], [], 1, 0, [], 0, Follower, 0, false, None)

  lemma OpenedInitial()
    ensures IsRun([OPENED]) && Inv(OPENED)
  {
    assert Initial(OPENED);
    InitialInv(OPENED);
  }

  lemma Stands(n: Node)
    requires Inv(n) && n.out.None? && n.role != Leader
    ensures Enabled(n, StandUp) && Next(n, StandUp) == n.(role := Candidate, campaign := n.maxNumber)
  {
    hide Inv;
  }

  lemma StepsDown(n: Node)
    requires Inv(n) && n.out.None?
    ensures Enabled(n, StepDown) && Next(n, StepDown) == n.(role := Follower)
  {
    hide Inv;
  }

  /** A candidate that has persisted all it stored leads and appends. */
  lemma WinsAlone(n: Node, ents: Log)
    requires Inv(n) && n.out.None? && n.role == Candidate && NothingUnstable(n.log) && n.log.persisted == n.log.offset - 1 && ents != []
    ensures Enabled(n, Elect(true, ents))
    ensures Next(n, Elect(true, ents)) == n.(role := Leader, lone := true, log := n.log.(ents := ents))
  {
    hide Exact, Position, Agrees, RecordOk;
    LastInRange(n.log);
    CommittedInRange(n.log);
    hide Inv, ViewOf;
  }

  const ONE := [Entry(1, 0, 0)]
  const TWO := [Entry(2, 0, 0)]

  /** A single voter leads, appends, steps down and campaigns again before its entry is persisted. */
  lemma LaggingRun() returns (run: seq<Node>)
    ensures IsRun(run) && |run| == 5 && Wins(run[4], true) && run[4].log.persisted < LastIndex(run[4].log)
  {
    hide Inv, Enabled, Next, IsRun;
    OpenedInitial();
    var n1 := OPENED.(role := Candidate);
    var n2 := Lone([], ONE, 1, 0, [], 0, Leader, 0, true, None);
    var n3 := n2.(role := Follower);
    Stands(OPENED);
    run := Continue([OPENED], StandUp, n1);
    WinsAlone(n1, ONE);
    run := Continue(run, Elect(true, ONE), n2);
    StepsDown(n2);
    run := Continue(run, StepDown, n3);
    Stands(n3);
    run := Continue(run, StandUp, n3.(role := Candidate));
  }

  /** A follower whose log holds something else at index 1 copies one entry. */
  lemma Replaces(n: Node, ents: Log)
    requires Inv(n) && n.out.None? && n.role == Follower && n.truth == [] && |ents| == 1 && ents[0].term >= 1
    requires n.log.snap.None? && n.log.store.base == 0 && n.log.store.baseTerm == 0 && n.log.committed == 0 && n.log.persisted == 0
    requires TermOf(n.log, 1) != ents[0].term
    ensures Enabled(n, FollowerAppend(0, 0, 0, ents))
    ensures Next(n, FollowerAppend(0, 0, 0, ents)) == n.(log := n.log.(offset := 1, ents := ents))
  {
    hide Exact, Position, RecordOk, ReportOk;
    ReplacesLog(n.log, ents);
    hide MaybeAppend;
  }

  lemma ReplacesLog(s: State, ents: Log)
    requires Valid(s) && Settled(s) && |ents| == 1 && ents[0].term >= 1
    requires s.snap.None? && s.store.base == 0 && s.store.baseTerm == 0 && s.committed == 0 && s.persisted == 0
    requires TermOf(s, 1) != ents[0].term
    ensures Appendable(s, 0, 0, ents) && Matches(s, 0, 0)
    ensures MaybeAppend(s, 0, 0, 0, ents) == s.(offset := 1, ents := ents)
  {
    assert Conflict(s, 0, ents) == 0;
    QueriesMeanView(s, 0);
    assert ents[0..] == ents;
  }

  /** A Ready with nothing to apply. */
  lemma Takes(n: Node)
    requires Inv(n) && n.out.None? && n.role == Follower && n.log.snap.None? && n.log.committed == 0 && n.since == 0
    ensures Enabled(n, TakeReady(NoLimit, []))
    ensures Next(n, TakeReady(NoLimit, []))
         == n.(maxNumber := n.maxNumber + 1, out := Some(n.maxNumber + 1), records := n.records + [RecordOf(n.log, n.maxNumber + 1)])
  {
    hide Inv;
  }

  lemma GivesBack(n: Node)
    requires Inv(n) && n.out.Some?
    ensures Enabled(n, HandBack) && Valid(n.log)
    ensures Next(n, HandBack) == n.(log := Stable(n.log), out := None, wasLeader := n.role == Leader)
  {
  }

  lemma Reports(n: Node, number: nat)
    requires Inv(n) && n.out.None?
    ensures Enabled(n, Persisted(number)) && Next(n, Persisted(number)) == OnPersist(n, number)
  {
    hide Inv;
  }

  const R1 := Record(1, Some((1, 1)), None)
  const R2 := Record(2, Some((1, 1)), None)

  lemma StoredTwice() returns (run: seq<Node>)
    ensures IsRun(run) && run != [] && Inv(run[|run| - 1])
    ensures run[|run| - 1] == Lone(ONE, [], 2, 0, [R1, R2], 2, Follower, 0, false, None)
  {
    hide Inv, Enabled, Next, IsRun;
    OpenedInitial();
    run := StoreOne([OPENED], [], [], 1, [], 0);
    assert [] + [R1] == [R1] && [R1] + [R2] == [R1, R2];
    var n := Lone(ONE, [], 2, 0, [R1], 1, Follower, 0, false, None);
    Replaces(n, TWO);
    run := Continue(run, FollowerAppend(0, 0, 0, TWO), Lone(ONE, TWO, 1, 0, [R1], 1, Follower, 0, false, None));
    run := StoreOne(run, ONE, TWO, 1, [R1], 1);
  }

  /** The same entry is stored twice, replaced in between. The first report makes it the persisted one, and
      the node wins alone with the record of the second still there. */
  lemma LateReportRun() returns (run: seq<Node>)
    ensures IsRun(run) && run != [] && Draining(run[|run| - 1], true) && !AllBlank(run[|run| - 1].records)
  {
    hide Inv, Enabled, Next, IsRun, OnPersist;
    run := StoredTwice();
    var n := run[|run| - 1];
    Reports(n, 1);
    FirstReported(n, R1, R2);
    n := Lone(ONE, [], 2, 1, [R2], 2, Follower, 0, false, None);
    run := Continue(run, Persisted(1), n);
    Stands(n);
    n := Lone(ONE, [], 2, 1, [R2], 2, Candidate, 2, false, None);
    run := Continue(run, StandUp, n);
    WinsAlone(n, TWO);
    run := Continue(run, Elect(true, TWO), Lone(ONE, TWO, 2, 1, [R2], 2, Leader, 2, true, None));
    assert !Blank([R2][0]);
  }

  lemma FirstReported(n: Node, r1: Record, r2: Record)
    requires r1 == Record(1, Some((1, 1)), None) && r2 == Record(2, Some((1, 1)), None)
    requires n == Lone(ONE, [], 2, 0, [r1, r2], 2, Follower, 0, false, None)
    ensures OnPersist(n, 1) == Lone(ONE, [], 2, 1, [r2], 2, Follower, 0, false, None)
  {
    assert [r1, r2][1..] == [r2];
    assert Upto([r2], 1) == 0;
    assert Upto([r1, r2], 1) == 1;
    assert Newest([r1, r2], 1) == (0, 1, 1);
  }

  /** Copies an entry of term 1 and hands back the Ready that stores it. */
  lemma StoreOne(run: seq<Node>, stored: Log, ents: Log, offset: nat, records: seq<Record>, number: nat) returns (run': seq<Node>)
    requires IsRun(run) && run != [] && Inv(run[|run| - 1])
    requires run[|run| - 1] == Lone(stored, ents, offset, 0, records, number, Follower, 0, false, None)
    requires offset == 1 && TermOf(run[|run| - 1].log, 1) != 1
    ensures IsRun(run') && run' != [] && Inv(run'[|run'| - 1])
    ensures run'[|run'| - 1]
         == Lone(ONE, [], 2, 0, records + [Record(number + 1, Some((1, 1)), None)], number + 1, Follower, 0, false, None)
  {
    hide Inv, Enabled, Next, IsRun, TermOf;
    var n := run[|run| - 1];
    var r := Record(number + 1, Some((1, 1)), None);
    Replaces(n, ONE);
    var n1 := Lone(stored, ONE, 1, 0, records, number, Follower, 0, false, None);
    run' := Continue(run, FollowerAppend(0, 0, 0, ONE), n1);
    Takes(n1);
    var n2 := Lone(stored, ONE, 1, 0, records + [r], number + 1, Follower, 0, false, Some(number + 1));
    run' := Continue(run', TakeReady(NoLimit, []), n2);
    GivesBack(n2);
    assert stored[..0] + ONE == ONE;
    run' := Continue(run', HandBack, Lone(ONE, [], 2, 0, records + [r], number + 1, Follower, 0, false, None));
  }
}
