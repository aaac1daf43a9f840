/** What the Ready pipeline has to hand out: nothing committed and persisted is withheld, reports of the host
    count, and every run can be continued until the application has the whole committed log. */
module ReadyDelivery {
  import opened RaftLogs
  import opened EntryLimits
  import opened LogState
  import opened ReadyPipeline

  // ---- Nothing is withheld -----------------------------------------------------------------------------------

  /** The last index that may be handed out. */
  function Ceiling(s: State): nat {
    Min(s.committed, s.persisted)
  }

  /** Without a limit a Ready hands out everything committed and persisted. With one it hands out something as
      long as there is something. A pending snapshot goes first. */
  lemma TakesWhatIsReady(run: seq<Node>, i: nat, a: Step)
    requires IsRun(run) && i < |run| && Inv(run[i]) && (a.TakeReady? || a.TakeLight?) && Enabled(run[i], a)
    ensures run[i].log.snap.Some? ==> Next(run[i], a).since == run[i].log.snap.value.index
    ensures run[i].log.snap.None? ==>
              && Next(run[i], a).since >= run[i].since
              && (a.limit.NoLimit? ==> Next(run[i], a).since >= Ceiling(run[i].log))
              && (run[i].since < Ceiling(run[i].log) ==> Next(run[i], a).since > run[i].since)
  {
    hide IsRun;
    Takes(run[i], a);
  }

  lemma Takes(n: Node, a: Step)
    requires Inv(n) && (a.TakeReady? || a.TakeLight?) && Enabled(n, a)
    ensures n.log.snap.Some? ==> a.TakeReady? && Next(n, a).since == n.log.snap.value.index
    ensures n.log.snap.None? ==>
              && Next(n, a).since == n.since + |a.handed|
              && (a.limit.NoLimit? ==> Next(n, a).since >= Ceiling(n.log))
              && (n.since < Ceiling(n.log) ==> Next(n, a).since > n.since)
  {
    hide Exact, Position, ReportOk, RoleOk, OutOk, RecordOk, Agrees;
    if n.log.snap.Some? {
      NothingBehindSnapshot(n.log);
    } else {
      NextUpMeans(n.log, n.since);
    }
  }

  // ---- Reports count -------------------------------------------------------------------------------------------

  /** A reported write that the log still agrees with is persisted. */
  lemma ReportCounts(run: seq<Node>, i: nat, number: nat, k: nat)
    requires IsRun(run) && i < |run| && Inv(run[i]) && Enabled(run[i], Persisted(number))
    requires k < |run[i].records| && run[i].records[k].number <= number
    requires forall j | 0 <= j < k :: run[i].records[j].number <= number
    requires forall j | k < j < |run[i].records| :: run[i].records[j].number > number
    ensures var s, r, s' := run[i].log, run[i].records[k], Next(run[i], Persisted(number)).log;
            && (r.last.Some? && s.snap.None? && r.last.value.0 < s.offset && TermOf(s, r.last.value.0) == r.last.value.1 ==>
                  s'.persisted >= r.last.value.0)
            && (r.snap.Some? && r.last.None? ==> s'.persisted >= r.snap.value)
  {
    hide IsRun, Inv;
    Counts(run[i], number, k);
  }

  lemma Counts(n: Node, number: nat, k: nat)
    requires Inv(n) && k < |n.records| && n.records[k].number <= number
    requires forall j | 0 <= j < k :: n.records[j].number <= number
    requires forall j | k < j < |n.records| :: n.records[j].number > number
    ensures var s, r, s' := n.log, n.records[k], OnPersist(n, number).log;
            && (r.last.Some? && s.snap.None? && r.last.value.0 < s.offset && TermOf(s, r.last.value.0) == r.last.value.1 ==>
                  s'.persisted >= r.last.value.0)
            && (r.snap.Some? && r.last.None? ==> s'.persisted >= r.snap.value)
  {
    hide Exact, Position, ReportOk, RoleOk, OutOk, Agrees, Upto;
    assert Upto(n.records, number) == k + 1;
    assert RecordOk(n.log, n.records[k]);
  }

  // ---- Everything committed is delivered --------------------------------------------------------------------------

  /** A continuation of `run` that only hands out, writes and reports. */
  ghost predicate Continues(run: seq<Node>, run': seq<Node>) {
    && run != [] && IsRun(run) && IsRun(run') && run <= run'
    && run'[|run'| - 1].truth == run[|run| - 1].truth && run'[|run'| - 1].log.committed == run[|run| - 1].log.committed
  }

  lemma Step(run: seq<Node>, a: Step) returns (run': seq<Node>)
    requires run != [] && IsRun(run) && Inv(run[|run| - 1]) && Enabled(run[|run| - 1], a)
    ensures IsRun(run') && run' == run + [Next(run[|run| - 1], a)] && Inv(run'[|run'| - 1])
  {
    hide Inv, Enabled, Next, IsRun;
    run' := Continue(run, a, Next(run[|run| - 1], a));
  }

  /** There is a Ready to take with any limit. */
  lemma MayTake(n: Node, max: Limit) returns (a: Step)
    requires Inv(n) && n.out.None?
    ensures a.TakeReady? && Enabled(n, a) && Next(n, a).out.Some?
    ensures Next(n, a).log == n.log && Next(n, a).truth == n.truth
  {
    Starts(n);
    hide Inv;
    var since := if n.log.snap.Some? then n.log.snap.value.index else n.since;
    var handed := LimitExists(NextUp(n.log, since), max);
    hide NextUp, IsLimited, RecordOf;
    a := TakeReady(max, handed);
  }

  lemma Starts(n: Node)
    requires Inv(n)
    ensures Valid(n.log) && Settled(n.log) && |n.truth| == n.log.committed && n.since <= n.log.committed
  {
    hide Exact, Position, ReportOk, RoleOk, OutOk, RecordOk;
  }

  lemma Take(run: seq<Node>, max: Limit) returns (run': seq<Node>)
    requires run != [] && IsRun(run) && Inv(run[|run| - 1]) && run[|run| - 1].out.None?
    ensures run' != [] && IsRun(run') && Continues(run, run') && Inv(run'[|run'| - 1]) && run'[|run'| - 1].out.Some?
  {
    hide IsRun, Inv, Enabled, Next;
    var a := MayTake(run[|run| - 1], max);
    run' := Step(run, a);
  }

  /** Writes it and hands it back. */
  lemma Return(run: seq<Node>) returns (run': seq<Node>)
    requires run != [] && IsRun(run) && Inv(run[|run| - 1]) && run[|run| - 1].out.Some?
    ensures run' != [] && IsRun(run') && Continues(run, run') && Inv(run'[|run'| - 1]) && run'[|run'| - 1].out.None? && NothingUnstable(run'[|run'| - 1].log)
  {
    hide IsRun, Inv;
    run' := Step(run, HandBack);
  }

  /** Reports everything. */
  lemma Report(run: seq<Node>) returns (run': seq<Node>)
    requires run != [] && IsRun(run) && Inv(run[|run| - 1]) && run[|run| - 1].out.None? && NothingUnstable(run[|run| - 1].log)
    ensures run' != [] && IsRun(run') && Continues(run, run') && Inv(run'[|run'| - 1]) && run'[|run'| - 1].out.None? && NothingUnstable(run'[|run'| - 1].log)
    ensures run'[|run'| - 1].log.persisted >= run'[|run'| - 1].log.committed
  {
    var n := run[|run| - 1];
    hide IsRun;
    AllReported(n);
    hide Inv, OnPersist, Upto;
    run' := Step(run, Persisted(n.maxNumber));
    assert run'[|run'| - 1].records == [];
    ReportedIsPersisted(run', |run'| - 1);
    PersistencePointers(run', |run'| - 1);
  }

  lemma AllReported(n: Node)
    requires Inv(n)
    ensures OnPersist(n, n.maxNumber).records == []
    ensures var s := OnPersist(n, n.maxNumber).log; s == n.log.(persisted := s.persisted)
  {
    hide Exact, Position, ReportOk, RoleOk, OutOk, Agrees, RecordOk;
    var k := Upto(n.records, n.maxNumber);
    assert forall i | 0 <= i < |n.records| :: n.records[i].number <= n.maxNumber;
    assert k == |n.records|;
  }

  /** With everything persisted, there is more to hand out until the end is reached. */
  lemma MayTakeMore(n: Node, max: Limit) returns (a: Step)
    requires Inv(n) && n.out.None? && NothingUnstable(n.log) && n.log.persisted >= n.log.committed > n.since
    ensures a.TakeLight? && Enabled(n, a)
    ensures Next(n, a) == n.(since := Next(n, a).since, events := Next(n, a).events) && Next(n, a).since > n.since
  {
    Starts(n);
    hide Inv;
    var handed := LimitExists(NextUp(n.log, n.since), max);
    a := TakeLight(max, handed);
    Takes(n, a);
  }

  /** Light Readies until nothing is left. */
  lemma {:induction false} Drain(run: seq<Node>, max: Limit) returns (run': seq<Node>)
    requires run != [] && IsRun(run) && Inv(run[|run| - 1]) && run[|run| - 1].out.None? && NothingUnstable(run[|run| - 1].log)
    requires run[|run| - 1].log.persisted >= run[|run| - 1].log.committed >= run[|run| - 1].since
    ensures run' != [] && IsRun(run') && Continues(run, run') && Inv(run'[|run'| - 1]) && run'[|run'| - 1].since == run'[|run'| - 1].log.committed
    decreases run[|run| - 1].log.committed - run[|run| - 1].since
  {
    hide IsRun, Inv, Enabled, Next;
    var n := run[|run| - 1];
    if n.since == n.log.committed {
      run' := run;
    } else {
      var a := MayTakeMore(n, max);
      run' := Step(run, a);
      Starts(run'[|run'| - 1]);
      run' := Drain(run', max);
    }
  }

  lemma Joins(run: seq<Node>, run1: seq<Node>, run2: seq<Node>)
    requires Continues(run, run1) && Continues(run1, run2)
    ensures Continues(run, run2)
  {
    hide IsRun;
  }

  lemma NotEmpty(run: seq<Node>)
    requires IsRun(run)
    ensures run != []
  {
  }

  /** Everything is written. */
  lemma Write(run: seq<Node>, max: Limit) returns (run': seq<Node>)
    requires run != [] && IsRun(run)
    ensures run' != [] && Continues(run, run') && IsRun(run') && Inv(run'[|run'| - 1])
    ensures run'[|run'| - 1].out.None? && NothingUnstable(run'[|run'| - 1].log)
  {
    hide IsRun, Inv, NothingUnstable, Continues;
    RunInv(run, |run| - 1);
    if run[|run| - 1].out.None? {
      var taken := Take(run, max);
      run' := Return(taken);
      Joins(run, taken, run');
    } else {
      run' := Return(run);
    }
  }

  /** Whatever state a run is in, and however little is handed out at a time, the host can go on until the
      application has got to the end of the committed log. */
  lemma EverythingDelivered(run: seq<Node>, max: Limit) returns (run': seq<Node>)
    requires IsRun(run)
    ensures run' != [] && Continues(run, run')
    ensures var n := run'[|run'| - 1]; Position(n.start, n.events) == |n.truth| && Exact(n.start, n.events, n.truth)
  {
    hide IsRun, Inv, Exact, Position, Continues;
    NotEmpty(run);
    var written := Write(run, max);
    var reported := Report(written);
    Starts(reported[|reported| - 1]);
    run' := Drain(reported, max);
    Joins(run, written, reported);
    Joins(run, reported, run');
    Starts(run'[|run'| - 1]);
    ExactDelivery(run', |run'| - 1);
  }
}
