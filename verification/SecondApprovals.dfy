/** What an approver that passed the check can still do to the order of the stages once
    another's approval has landed. */
module SecondApprovals {
  import opened Common
  import opened Deployment
  import opened ApprovalRaces

  // ----- runs end with the health check -----

  predicate IsHealth(op: Op) {
    op.SetStage? && op.stage == HEALTH_CHECK && op.status == PASSED
  }

  predicate RunnerOk(run: Runner) {
    && (run.todo != [] ==> IsHealth(run.todo[|run.todo| - 1]))
    && (run.held.Some? ==> run.todo != [] && run.todo[0].SetStage?)
  }

  ghost predicate RunsWell(s: System) {
    forall a :: a in s.runs ==> RunnerOk(s.runs[a])
  }

  lemma {:induction false} RunsWellStep(s: System, e: Event, i: Inputs)
    requires RunsWell(s)
    ensures RunsWell(Next(s, e, i))
  {
    if e.RunStep? && e.a in s.runs {
      assert RunnerOk(s.runs[e.a]);
    }
  }

  lemma {:induction false} RunsWellRun(s: System, es: seq<Event>, i: Inputs)
    requires RunsWell(s)
    ensures RunsWell(After(s, es, i))
    decreases |es|
  {
    if es != [] {
      RunsWellStep(s, es[0], i);
      RunsWellRun(Next(s, es[0], i), es[1..], i);
    }
  }

  // ----- approvers still to put -----

  predicate Waiting(s: System, b: nat) {
    b in s.approvers && !s.approvers[b].Accepted?
  }

  /** The record an approver holds, or would read now. */
  function CopyOf(s: System, b: nat): Record {
    if b in s.approvers && s.approvers[b].Holding? then s.approvers[b].read else s.world.record
  }

  predicate Alive(s: System, a: nat) {
    a in s.runs && s.runs[a].todo != []
  }

  /** A stage after the first beyond the gate has begun. */
  predicate Ahead(r: Record) {
    |r.stages| == STAGE_COUNT && (r.stages[9].status != PENDING || r.stages[10].status != PENDING)
  }

  lemma {:induction false} Puts(s: System, w: World, b: nat, i: Inputs) returns (es: seq<Event>)
    requires Finishers(s, w) && RunsWell(s) && Waiting(s, b)
    ensures NoCheck(es)
    ensures var t := After(s, es, i);
            && Finishers(t, w) && RunsWell(t)
            && t.world.record == CopyOf(s, b).(approvedBy := Some(""))
            && t.runs == s.runs[b := Runner(FinishScript(CopyOf(s, b), i), None)]
            && t.approvers.Keys == s.approvers.Keys && forall c :: c in s.approvers && c != b ==> t.approvers[c] == s.approvers[c]
  {
    if s.approvers[b].Passed? {
      var m := Next(s, Read(b), i);
      es := [Read(b)] + [Put(b, "")];
      AfterConcat(s, [Read(b)], [Put(b, "")], i);
      assert After(s, [Read(b)], i) == m;
      assert After(m, [Put(b, "")], i) == Next(m, Put(b, ""), i);
      FinishersStep(s, Read(b), w, i);
      FinishersStep(m, Put(b, ""), w, i);
      RunsWellStep(s, Read(b), i);
      RunsWellStep(m, Put(b, ""), i);
    } else {
      es := [Put(b, "")];
      assert After(s, es, i) == Next(s, Put(b, ""), i);
      FinishersStep(s, Put(b, ""), w, i);
      RunsWellStep(s, Put(b, ""), i);
    }
  }

  /** A run goes on to its end, the health check. */
  lemma {:induction false} RunToEnd(s: System, w: World, a: nat, i: Inputs) returns (es: seq<Event>)
    requires Finishers(s, w) && RunsWell(s) && Alive(s, a)
    ensures NoCheck(es)
    ensures var t := After(s, es, i);
            && Finishers(t, w) && t.world.record.stages[HEALTH_CHECK].status == PASSED
            && t.runs == s.runs[a := Runner([], None)]
    decreases |s.runs[a].todo|, if s.runs[a].held.None? then 1 else 0
  {
    var t := Next(s, RunStep(a), i);
    FinishersStep(s, RunStep(a), w, i);
    RunsWellStep(s, RunStep(a), i);
    assert RunnerOk(s.runs[a]);
    if t.runs[a].todo == [] {
      es := [RunStep(a)];
      assert After(s, es, i) == t;
    } else {
      var rest := RunToEnd(t, w, a, i);
      es := [RunStep(a)] + rest;
      assert es[1..] == rest;
    }
  }

  lemma {:induction false} RunningBehind(stages: seq<StageResult>)
    requires |stages| == STAGE_COUNT && stages[8].status == RUNNING
    requires stages[9].status != PENDING || stages[10].status != PENDING
    ensures !exists n: nat :: InOrder(stages, n)
  {
    forall n: nat
      ensures !InOrder(stages, n)
    {
      assert !Terminal(stages[8].status);
    }
  }

  /** A new finishing run begins by marking stage 8 running. */
  lemma {:induction false} BeginsOver(s: System, b: nat, r: Record, i: Inputs) returns (es: seq<Event>)
    requires b in s.runs && s.runs[b] == Runner(FinishScript(r, i), None) && Ahead(s.world.record)
    ensures NoCheck(es) && !Ordered(After(s, es, i).world)
  {
    var p := |IfPr(r, i, MergePr)|;
    FinishBegins(r, i);
    var ops := FinishScript(r, i)[..p + 1];
    assert ops == FinishScript(r, i)[..p + 2][..p + 1];
    assert Simulated(8) == [Mark(8, RUNNING)] + [Fabricated(8)];
    assert ops == IfPr(r, i, MergePr) + [Mark(8, RUNNING)];
    es := StepsFor(b, ops);
    StepsCheckNothing(b, ops);
    Undisturbed(s, b, p + 1, i);
    MarkedOver(s.world, IfPr(r, i, MergePr));
  }

  lemma {:induction false} MarkedOver(w: World, first: seq<Op>)
    requires Ahead(w.record) && (first == [] || first == [MergePr])
    ensures !Ordered(ApplyAll(w, first + [Mark(8, RUNNING)]))
  {
    var w' := ApplyAll(w, first);
    if first == [MergePr] {
      assert first[..|first| - 1] == [];
      assert w' == Apply(ApplyAll(w, []), MergePr);
    }
    assert (first + [Mark(8, RUNNING)])[..|first|] == first;
    assert w'.record == w.record;
    RunningBehind(Apply(w', Mark(8, RUNNING)).record.stages);
  }

  // ----- three ways to break the order -----

  lemma {:induction false} AliveBreaks(s: System, w: World, a: nat, b: nat, i: Inputs) returns (es: seq<Event>)
    requires Finishers(s, w) && RunsWell(s) && Alive(s, a) && Waiting(s, b) && a != b
    ensures NoCheck(es) && !Ordered(After(s, es, i).world)
  {
    var first := Puts(s, w, b, i);
    var s1 := After(s, first, i);
    var second := RunToEnd(s1, w, a, i);
    var s2 := After(s1, second, i);
    var third := BeginsOver(s2, b, CopyOf(s, b), i);
    AfterConcat(s, first, second, i);
    AfterConcat(s, first + second, third, i);
    es := first + second + third;
  }

  lemma {:induction false} TwoBreak(s: System, w: World, b: nat, c: nat, i: Inputs) returns (es: seq<Event>)
    requires Finishers(s, w) && RunsWell(s) && Waiting(s, b) && Waiting(s, c) && b != c
    ensures NoCheck(es) && !Ordered(After(s, es, i).world)
  {
    var first := Puts(s, w, b, i);
    var s1 := After(s, first, i);
    FinishBegins(CopyOf(s, b), i);
    var rest := AliveBreaks(s1, w, b, c, i);
    AfterConcat(s, first, rest, i);
    es := first + rest;
  }

  lemma {:induction false} AheadBreaks(s: System, w: World, b: nat, i: Inputs) returns (es: seq<Event>)
    requires Finishers(s, w) && RunsWell(s) && Waiting(s, b) && Ahead(CopyOf(s, b))
    ensures NoCheck(es) && !Ordered(After(s, es, i).world)
  {
    var first := Puts(s, w, b, i);
    var s1 := After(s, first, i);
    var rest := BeginsOver(s1, b, CopyOf(s, b), i);
    AfterConcat(s, first, rest, i);
    es := first + rest;
  }

  // ----- otherwise a single run goes on alone -----

  function Statuses(stages: seq<StageResult>): (r: seq<StageStatus>)
    ensures |r| == |stages| && forall k :: 0 <= k < |r| ==> r[k] == stages[k].status
  {
    seq(|stages|, k requires 0 <= k < |stages| => stages[k].status)
  }

  predicate Lined(st: seq<StageStatus>, n: nat) {
    && n <= |st|
    && (forall k :: 0 <= k < n - 1 ==> Terminal(st[k]))
    && (n > 0 ==> Terminal(st[n - 1]) || st[n - 1] == RUNNING)
    && (forall k :: n <= k < |st| ==> st[k] == PENDING)
  }

  function Written(st: seq<StageStatus>, op: Op): seq<StageStatus> {
    if op.SetStage? && op.stage < |st| then st[op.stage := op.status] else st
  }

  /** The stages are in order and the writes to come keep them so. */
  ghost predicate StaysLined(st: seq<StageStatus>, todo: seq<Op>)
    decreases |todo|
  {
    && (exists n: nat :: Lined(st, n))
    && (todo != [] ==> StaysLined(Written(st, todo[0]), todo[1..]))
  }

  lemma {:induction false} WrittenStatuses(w: World, op: Op)
    ensures Statuses(Apply(w, op).record.stages) == Written(Statuses(w.record.stages), op)
  {
  }

  lemma {:induction false} LinedIsOrdered(w: World)
    ensures Ordered(w) <==> exists n: nat :: Lined(Statuses(w.record.stages), n)
  {
    var st := Statuses(w.record.stages);
    if n: nat :| InOrder(w.record.stages, n) {
      assert Lined(st, n);
    }
    if n: nat :| Lined(st, n) {
      assert InOrder(w.record.stages, n);
    }
  }

  lemma {:induction false} LastStaysLined(st: seq<StageStatus>, v: int)
    requires |st| == STAGE_COUNT && Lined(st, 10)
    requires st[9] == PASSED
    ensures StaysLined(st, [MarkActive(v), SetStage(HEALTH_CHECK, PASSED, Some("[simulated]"), Some(Active), None)])
  {
    var health := SetStage(HEALTH_CHECK, PASSED, Some("[simulated]"), Some(Active), None);
    assert Lined(Written(st, health), 11);
    assert [health][1..] == [];
    assert StaysLined(Written(st, health), []);
    assert StaysLined(st, [health]);
    assert [MarkActive(v), health][1..] == [health];
  }

  lemma {:induction false} StageStaysLined(st: seq<StageStatus>, k: nat, rest: seq<Op>)
    requires |st| == STAGE_COUNT && 8 <= k <= 9 && (exists n: nat :: Lined(st, n)) && Lined(st[k := RUNNING], k + 1)
    requires StaysLined(st[k := PASSED], rest)
    ensures StaysLined(st, Simulated(k) + rest)
  {
    var st1 := st[k := RUNNING];
    assert st1[k := PASSED] == st[k := PASSED];
    assert (Simulated(k) + rest)[1..] == [Fabricated(k)] + rest;
    assert ([Fabricated(k)] + rest)[1..] == rest;
    assert StaysLined(st1, [Fabricated(k)] + rest);
  }

  lemma {:induction false} LinesGoOn(st: seq<StageStatus>, n: nat)
    requires |st| == STAGE_COUNT && Lined(st, n) && 8 <= n <= 9 && Terminal(st[7])
    ensures Lined(st[8 := RUNNING], 9) && Lined(st[8 := PASSED], 9)
    ensures Lined(st[8 := PASSED][9 := RUNNING], 10) && Lined(st[8 := PASSED][9 := PASSED], 10)
  {
  }

  /** A finishing run alone, on a record that has at most begun its first stage. */
  lemma {:induction false} FinishStaysLined(r: Record, i: Inputs)
    requires |r.stages| == STAGE_COUNT && !Ahead(r) && r.stages[POLICY_CHECK].status == PASSED
    requires exists n: nat :: InOrder(r.stages, n)
    ensures StaysLined(Statuses(r.stages), FinishScript(r, i))
  {
    var st := Statuses(r.stages);
    var n: nat :| InOrder(r.stages, n);
    assert Lined(st, n) && (n == 8 || n == 9);
    var st8 := st[8 := PASSED];
    LinesGoOn(st, n);
    LastStaysLined(st8[9 := PASSED], r.version);
    StageStaysLined(st8, 9, LiveScript(r));
    StageStaysLined(st, 8, Simulated(9) + LiveScript(r));
    FinishIs(r, i);
    var all := Simulated(8) + (Simulated(9) + LiveScript(r));
    assert ([MergePr] + all)[1..] == all;
  }

  lemma {:induction false} FinishIs(r: Record, i: Inputs)
    ensures var all := Simulated(8) + (Simulated(9) + LiveScript(r));
            FinishScript(r, i) == all || FinishScript(r, i) == [MergePr] + all
  {
    var all := Simulated(8) + (Simulated(9) + LiveScript(r));
    assert [8, 9][..1] == [8] && [8][..0] == [];
    assert Advance([8]) == Simulated(8) && Advance([8, 9]) == Simulated(8) + Simulated(9);
    assert Advance([8, 9]) + LiveScript(r) == all;
    if r.pullRequest.Some? && i.repoKnown {
      assert FinishScript(r, i) == [MergePr] + all;
    } else {
      assert FinishScript(r, i) == all;
    }
  }

  /** Only b has still to put, or to run. */
  ghost predicate Solo(s: System, b: nat, i: Inputs) {
    && b in s.approvers && s.main.todo == []
    && (forall c :: c in s.approvers && c != b ==> s.approvers[c].Accepted?)
    && (forall a :: a in s.runs && a != b ==> s.runs[a].todo == [])
    && (if s.approvers[b].Accepted? then
          && b in s.runs && StaysLined(Statuses(s.world.record.stages), s.runs[b].todo)
          && (s.runs[b].held.Some? ==> s.runs[b].held.value == s.world.record)
        else
          && b !in s.runs && Ordered(s.world)
          && StaysLined(Statuses(CopyOf(s, b).stages), FinishScript(CopyOf(s, b), i)))
  }

  lemma {:induction false} SoloRuns(s: System, b: nat, i: Inputs)
    requires Solo(s, b, i) && s.approvers[b].Accepted?
    ensures Solo(Next(s, RunStep(b), i), b, i)
  {
    var run := s.runs[b];
    if run.todo != [] && !Waits(run) {
      assert run.held.Some? ==> s.world.(record := run.held.value) == s.world;
      WrittenStatuses(s.world, run.todo[0]);
    }
  }

  lemma {:induction false} SoloStops(s: System, b: nat, i: Inputs)
    requires Solo(s, b, i) && s.approvers[b].Accepted?
    ensures Solo(Next(s, RunStop(b), i), b, i)
  {
    assert StaysLined(Statuses(s.world.record.stages), []);
  }

  lemma {:induction false} SoloPuts(s: System, b: nat, who: string, i: Inputs)
    requires Solo(s, b, i) && s.approvers[b].Holding?
    ensures Solo(Next(s, Put(b, who), i), b, i)
  {
  }

  lemma {:induction false} SoloStep(s: System, e: Event, b: nat, i: Inputs)
    requires Solo(s, b, i) && !e.Check?
    ensures Solo(Next(s, e, i), b, i)
  {
    if e == RunStep(b) && s.approvers[b].Accepted? {
      SoloRuns(s, b, i);
    } else if e == RunStop(b) && s.approvers[b].Accepted? {
      SoloStops(s, b, i);
    } else if e.Put? && e.a == b && s.approvers[b].Holding? {
      SoloPuts(s, b, e.who, i);
    }
  }

  lemma {:induction false} SoloIsOrdered(s: System, b: nat, i: Inputs)
    requires Solo(s, b, i)
    ensures Ordered(s.world)
  {
    LinedIsOrdered(s.world);
  }

  lemma {:induction false} SoloRun(s: System, es: seq<Event>, b: nat, i: Inputs)
    requires Solo(s, b, i) && NoCheck(es)
    ensures Ordered(After(s, es, i).world)
    decreases |es|
  {
    if es == [] {
      SoloIsOrdered(s, b, i);
    } else {
      assert !es[0].Check?;
      SoloStep(s, es[0], b, i);
      SoloRun(Next(s, es[0], i), es[1..], b, i);
    }
  }

  // ----- with nobody left to put -----

  ghost predicate NoneWaits(s: System) {
    forall b :: !Waiting(s, b)
  }

  lemma {:induction false} NobodyPuts(s: System, es: seq<Event>, i: Inputs)
    requires NoneWaits(s) && NoCheck(es)
    ensures After(s, es, i).accepted == s.accepted
    decreases |es|
  {
    if es != [] {
      var t := Next(s, es[0], i);
      assert !es[0].Check?;
      if es[0].Read? || es[0].Put? {
        assert !Waiting(s, es[0].a);
      }
      assert t.approvers == s.approvers;
      assert forall b :: Waiting(t, b) ==> Waiting(s, b);
      NobodyPuts(t, es[1..], i);
    }
  }

  // ----- the copies approvers hold -----

  lemma {:induction false} AcceptedGrows(s: System, e: Event, i: Inputs)
    ensures |Next(s, e, i).accepted| >= |s.accepted|
  {
  }

  ghost predicate InSequence(r: Record) {
    exists n: nat :: InOrder(r.stages, n)
  }

  lemma {:induction false} CopyIsOlder(s: System, e: Event, b: nat, i: Inputs)
    ensures var r := CopyOf(Next(s, e, i), b);
            r == CopyOf(s, b) || r == s.world.record || r == Next(s, e, i).world.record
  {
  }

  lemma {:induction false} AfterLast(s: System, es: seq<Event>, i: Inputs)
    requires es != []
    ensures After(s, es, i) == Next(After(s, es[..|es| - 1], i), es[|es| - 1], i)
  {
    var before, e := es[..|es| - 1], es[|es| - 1];
    assert es == before + [e];
    AfterConcat(s, before, [e], i);
    assert After(After(s, before, i), [e], i) == Next(After(s, before, i), e, i);
  }

  /** As long as at most one approval has landed every copy is in order. */
  lemma {:induction false} CopiesInOrder(w: World, i: Inputs, es: seq<Event>, b: nat)
    requires Fresh(w) && |After(Triggered(w, i), es, i).accepted| <= 1
    ensures InSequence(CopyOf(After(Triggered(w, i), es, i), b))
    decreases |es|
  {
    PipelineSafety(w, i, es);
    if es != [] {
      AfterLast(Triggered(w, i), es, i);
      var m := After(Triggered(w, i), es[..|es| - 1], i);
      AcceptedGrows(m, es[|es| - 1], i);
      CopyIsOlder(m, es[|es| - 1], b, i);
      CopiesInOrder(w, i, es[..|es| - 1], b);
      PipelineSafety(w, i, es[..|es| - 1]);
    }
  }

  // ----- when exactly -----

  /** Somebody is still to put, and a finishing run is under way, or a second is still to put,
      or the copy to be put back is already ahead. */
  ghost predicate CanOverrun(s: System) {
    exists b :: Waiting(s, b) && ((exists a :: Alive(s, a)) || (exists c :: c != b && Waiting(s, c)) || Ahead(CopyOf(s, b)))
  }

  lemma {:induction false} OverrunBreaks(s: System, w: World, i: Inputs)
    requires Finishers(s, w) && RunsWell(s) && CanOverrun(s) && ApprovedOnce(s, w) && Counted(s)
    ensures OrderCanBreak(s, i)
  {
    var b :| Waiting(s, b) && ((exists a :: Alive(s, a)) || (exists c :: c != b && Waiting(s, c)) || Ahead(CopyOf(s, b)));
    var es;
    if exists a :: Alive(s, a) {
      var a :| Alive(s, a);
      assert a in s.runs.Keys;
      es := AliveBreaks(s, w, a, b, i);
    } else if exists c :: c != b && Waiting(s, c) {
      var c :| c != b && Waiting(s, c);
      es := TwoBreak(s, w, b, c, i);
    } else {
      es := AheadBreaks(s, w, b, i);
    }
    assert NoCheck(es) && !Ordered(After(s, es, i).world);
  }

  lemma {:induction false} IsSolo(s: System, w: World, b: nat, i: Inputs)
    requires Finishers(s, w) && ApprovedOnce(s, w) && Counted(s) && Ordered(s.world)
    requires Waiting(s, b) && !CanOverrun(s) && InSequence(CopyOf(s, b))
    ensures Solo(s, b, i)
  {
    var r := CopyOf(s, b);
    FinishStaysLined(r, i);
    forall c | c in s.approvers && c != b
      ensures s.approvers[c].Accepted?
    {
      assert !Waiting(s, c);
    }
    forall a | a in s.runs
      ensures s.runs[a].todo == [] && a != b
    {
      assert !Alive(s, a);
      assert a in s.runs.Keys;
    }
  }

  /** In every reachable state in which one approval has landed: the stage order can still
      break, without any further approver, if and only if another approver has passed the
      check and has yet to put, and either the finishing run is still under way, or there is
      a second such approver, or the copy it holds, or would read now, has begun a stage past
      the first beyond the gate. */
  lemma {:induction false} OrderBreaksAfterOneIff(w: World, i: Inputs, es: seq<Event>)
    requires Fresh(w) && |After(Triggered(w, i), es, i).accepted| == 1
    ensures OrderCanBreak(After(Triggered(w, i), es, i), i) <==> CanOverrun(After(Triggered(w, i), es, i))
  {
    var s0 := Triggered(w, i);
    var s := After(s0, es, i);
    TriggeredInv(w, i);
    InvRun(s0, es, w, i);
    RunsWellRun(s0, es, i);
    PipelineSafety(w, i, es);
    if CanOverrun(s) {
      OverrunBreaks(s, w, i);
    } else {
      forall more | NoCheck(more)
        ensures Ordered(After(s, more, i).world)
      {
        if b :| Waiting(s, b) {
          CopiesInOrder(w, i, es, b);
          IsSolo(s, w, b, i);
          SoloRun(s, more, b, i);
        } else {
          NobodyPuts(s, more, i);
          AfterConcat(s0, es, more, i);
          PipelineSafety(w, i, es + more);
        }
      }
    }
  }
}
