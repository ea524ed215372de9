/** A deployment in which every stage update and every approval is a read and a later put
    of the whole record, and any number of approvers act at once. Each approval whose put
    lands starts a finishing run of its own (api/v1/agents.py `approve_deployment`,
    deployment/status_store.py, deployment/pipeline_simulator.py). */
module ApprovalRaces {
  import opened Common
  import opened Deployment

  /** A run of the simulator: the writes to come, and the record held between a stage
      update's read and its put. */
  datatype Runner = Runner(todo: seq<Op>, held: Option<Record>)

  /** An approver that passed the check; that holds what record_approval read; whose put
      has landed. One that is refused leaves no trace. */
  datatype Approver = Passed | Holding(read: Record) | Accepted

  datatype System = System(
    world: World,
    main: Runner,
    approvers: map<nat, Approver>,
    runs: map<nat, Runner>,
    accepted: seq<nat>)

  datatype Event =
    | MainStep
    | MainStop
    | RunStep(a: nat)
    | RunStop(a: nat)
    | Check(a: nat)
    | Read(a: nat)
    | Put(a: nat, who: string)

  predicate Waits(r: Runner) {
    r.todo != [] && r.todo[0].SetStage? && r.held.None?
  }

  /** One call of a run: a read, a put of what was read, or a call elsewhere. */
  function Stepped(w: World, r: Runner): (World, Runner) {
    if r.todo == [] then (w, r)
    else if Waits(r) then (w, r.(held := Some(w.record)))
    else
      var w' := if r.todo[0].SetStage? && r.held.Some? then w.(record := r.held.value) else w;
      (Apply(w', r.todo[0]), Runner(r.todo[1..], None))
  }

  /** One step; an event that cannot happen here changes nothing. A call that raises ends
      its run. */
  function Next(s: System, e: Event, i: Inputs): System {
    match e
    case MainStep => s.(world := Stepped(s.world, s.main).0, main := Stepped(s.world, s.main).1)
    case MainStop => s.(main := Runner([], None))
    case RunStep(a) =>
      if a !in s.runs then s
      else s.(world := Stepped(s.world, s.runs[a]).0, runs := s.runs[a := Stepped(s.world, s.runs[a]).1])
    case RunStop(a) => if a !in s.runs then s else s.(runs := s.runs[a := Runner([], None)])
    case Check(a) =>
      if a in s.approvers || !CanApprove(s.world.record) then s else s.(approvers := s.approvers[a := Passed])
    case Read(a) =>
      if a !in s.approvers || !s.approvers[a].Passed? then s
      else s.(approvers := s.approvers[a := Holding(s.world.record)])
    case Put(a, who) =>
      if a !in s.approvers || !s.approvers[a].Holding? then s
      else
        var read := s.approvers[a].read;
        System(s.world.(record := read.(approvedBy := Some(who))), s.main, s.approvers[a := Accepted],
               s.runs[a := Runner(FinishScript(read, i), None)], s.accepted + [a])
  }

  function After(s: System, es: seq<Event>, i: Inputs): System
    decreases |es|
  {
    if es == [] then s else After(Next(s, es[0], i), es[1..], i)
  }

  function Triggered(w: World, i: Inputs): System {
    System(w, Runner(RunScript(w.record, i), None), map[], map[], [])
  }

  lemma {:induction false} AfterConcat(s: System, a: seq<Event>, b: seq<Event>, i: Inputs)
    ensures After(s, a + b, i) == After(After(s, a, i), b, i)
    decreases |a|
  {
    if a == [] {
      assert a + b == b;
    } else {
      assert (a + b)[1..] == a[1..] + b;
      AfterConcat(Next(s, a[0], i), a[1..], b, i);
    }
  }

  predicate About(e: Event, a: nat) {
    (e.Check? || e.Read? || e.Put?) && e.a == a
  }

  predicate NotAbout(es: seq<Event>, a: nat) {
    forall k :: 0 <= k < |es| ==> !About(es[k], a)
  }

  lemma {:induction false} OthersLeave(s: System, es: seq<Event>, a: nat, i: Inputs)
    requires NotAbout(es, a)
    ensures a in After(s, es, i).approvers <==> a in s.approvers
    ensures a in s.approvers ==> After(s, es, i).approvers[a] == s.approvers[a]
    decreases |es|
  {
    if es != [] {
      assert !About(es[0], a);
      OthersLeave(Next(s, es[0], i), es[1..], a, i);
    }
  }

  /** The approval endpoint, with others' steps between its check and its read, and between
      that read and its put. */
  class ApprovalEndpoint {
    const inputs: Inputs
    var s: System

    constructor (w: World, inputs: Inputs)
      ensures this.inputs == inputs && s == Triggered(w, inputs)
    {
      this.inputs := inputs;
      s := Triggered(w, inputs);
    }

    method Await(es: seq<Event>)
      modifies this`s
      ensures s == After(old(s), es, inputs)
    {
      var k := 0;
      while k < |es|
        invariant k <= |es| && After(s, es[k..], inputs) == After(old(s), es, inputs)
      {
        assert es[k..][1..] == es[k + 1..];
        s := Next(s, es[k], inputs);
        k := k + 1;
      }
      assert es[|es|..] == [];
    }

    /** The status store's part: it reads the record again, and puts what it read back. */
    method RecordApproval(a: nat, who: string, between: seq<Event>)
      requires a in s.approvers && s.approvers[a].Passed? && NotAbout(between, a)
      modifies this`s
      ensures s == After(old(s), [Read(a)] + (between + [Put(a, who)]), inputs)
      ensures s.world.record == old(s.world.record).(approvedBy := Some(who))
      ensures s.accepted == After(old(s), [Read(a)] + between, inputs).accepted + [a]
      ensures a in s.runs && s.runs[a] == Runner(FinishScript(old(s.world.record), inputs), None)
    {
      ghost var was := s;
      var read := s.world.record;
      s := s.(approvers := s.approvers[a := Holding(read)]);
      AfterConcat(was, [Read(a)], between, inputs);
      AfterConcat(was, [Read(a)], between + [Put(a, who)], inputs);
      assert After(was, [Read(a)], inputs) == s;
      OthersLeave(s, between, a, inputs);
      AfterConcat(s, between, [Put(a, who)], inputs);
      Await(between);
      assert After(s, [Put(a, who)], inputs) == Next(s, Put(a, who), inputs);
      s := System(s.world.(record := read.(approvedBy := Some(who))), s.main, s.approvers[a := Accepted],
                  s.runs[a := Runner(FinishScript(read, inputs), None)], s.accepted + [a]);
    }

    /** Accepted exactly when the record it reads first can be approved. The record is then
        the one its second read found, with the approver, whatever was written since, and a
        finishing run is scheduled. */
    method ApproveDeployment(a: nat, who: string, beforeRead: seq<Event>, beforePut: seq<Event>) returns (ok: bool)
      requires a !in s.approvers && NotAbout(beforeRead, a) && NotAbout(beforePut, a)
      modifies this`s
      ensures ok == CanApprove(old(s.world.record))
      ensures !ok ==> s == old(s)
      ensures ok ==> s == After(old(s), ([Check(a)] + beforeRead) + ([Read(a)] + (beforePut + [Put(a, who)])), inputs)
      ensures ok ==> s.world.record == After(old(s), [Check(a)] + beforeRead, inputs).world.record.(approvedBy := Some(who))
      ensures ok ==> s.accepted != [] && s.accepted[|s.accepted| - 1] == a && a in s.runs
    {
      if !s.world.record.manual || s.world.record.status != PendingApproval || s.world.record.approvedBy != None {
        return false;
      }
      ghost var was := s;
      s := s.(approvers := s.approvers[a := Passed]);
      AfterConcat(was, [Check(a)], beforeRead, inputs);
      AfterConcat(was, [Check(a)] + beforeRead, [Read(a)] + (beforePut + [Put(a, who)]), inputs);
      assert After(was, [Check(a)], inputs) == s;
      OthersLeave(s, beforeRead, a, inputs);
      Await(beforeRead);
      RecordApproval(a, who, beforePut);
      return true;
    }
  }

  // ----- a run that nobody disturbs -----

  /** The world is where the run has brought it, the writes to come are in order, and the
      record it holds is still the record. */
  predicate Tidy(w: World, live: Option<int>, r: Record, run: Runner, at: Progress) {
    && Reached(w, live, at) && SameIdentity(r, w.record)
    && MovedBy(r, Some(at), run.todo).Some?
    && (run.held.Some? ==> run.held.value == w.record && run.todo != [] && run.todo[0].SetStage?)
  }

  lemma {:induction false} MovedByHead(r: Record, at: Progress, ops: seq<Op>)
    requires ops != [] && MovedBy(r, Some(at), ops).Some?
    ensures Moved(r, at, ops[0]).Some?
    ensures MovedBy(r, Moved(r, at, ops[0]), ops[1..]) == MovedBy(r, Some(at), ops)
  {
    assert ops == [ops[0]] + ops[1..];
    MovedByPrefix(r, Some(at), [ops[0]], ops[1..]);
    MovedByConcat(r, Some(at), [ops[0]], ops[1..]);
    MovedByOne(r, at, ops[0]);
  }

  lemma {:induction false} TidyStep(w: World, live: Option<int>, r: Record, run: Runner, at: Progress) returns (at': Progress)
    requires Tidy(w, live, r, run, at)
    ensures Tidy(Stepped(w, run).0, live, r, Stepped(w, run).1, at')
  {
    at' := at;
    if run.todo != [] && !Waits(run) {
      var op := run.todo[0];
      MovedByHead(r, at, run.todo);
      at' := Moved(r, at, op).value;
      ReachedMoves(w, live, r, at, op);
      if op.SetStage? && run.held.Some? {
        assert w.(record := run.held.value) == w;
      }
    }
  }

  // ----- before any approval -----

  /** Parking is the last write of a run that parks. */
  predicate ParksLast(ops: seq<Op>) {
    forall k :: 0 <= k < |ops| - 1 ==> ops[k].SetStage? ==> ops[k].overall != Some(PendingApproval)
  }

  ghost predicate Unapproved(s: System, w: World, i: Inputs) {
    && s.accepted == [] && s.runs == map[]
    && w.record.approvedBy == None
    && (exists at: Progress :: Tidy(s.world, w.live, w.record, s.main, at))
    && ParksLast(s.main.todo)
    && (s.world.record.status == PendingApproval ==> s.main.todo == [])
    && (forall a :: a in s.approvers ==>
          CanApprove(s.world.record)
          && (s.approvers[a].Passed? || s.approvers[a] == Holding(s.world.record)))
  }

  // ----- after one approval -----

  ghost predicate ApprovedOnce(s: System, w: World) {
    && |s.accepted| == 1 && s.accepted[0] in s.runs && s.runs.Keys == {s.accepted[0]}
    && exists r: Record, at: Progress :: r.approvedBy.Some? && Tidy(s.world, w.live, r, s.runs[s.accepted[0]], at)
  }

  // ----- after any number of approvals -----

  /** A record of this deployment beyond the gate; `live` tells whether its version is. */
  predicate Beyond(rec: Record, w: Record, live: bool) {
    && |rec.stages| == STAGE_COUNT && rec.stages[POLICY_CHECK].status == PASSED
    && rec.manual && rec.version == w.version && rec.pullRequest == w.pullRequest
    && (rec.status == PendingApproval || (rec.status == Active && live))
  }

  /** A write of a finishing run. */
  predicate Finishing(op: Op, version: int) {
    match op
    case MergePr => true
    case MarkActive(v) => v == version
    case SetStage(stage, _, _, overall, _) => stage > POLICY_CHECK && (overall.None? || overall == Some(Active))
    case _ => false
  }

  predicate EndsLive(op: Op) {
    op.SetStage? && op.overall == Some(Active)
  }

  /** A rest of a finishing run: ACTIVE is only written once the version is live. */
  predicate FinishesWell(todo: seq<Op>, version: int, live: bool) {
    && (forall k :: 0 <= k < |todo| ==> Finishing(todo[k], version))
    && (forall k :: 0 <= k < |todo| && EndsLive(todo[k]) ==> live || exists j :: 0 <= j < k && todo[j].MarkActive?)
  }

  predicate RunOk(run: Runner, w: Record, live: bool) {
    && FinishesWell(run.todo, w.version, live)
    && (run.held.Some? ==> Beyond(run.held.value, w, live) && run.held.value.approvedBy.Some?)
  }

  ghost predicate Finishers(s: System, w: World) {
    var live := s.world.live == Some(w.record.version);
    && |s.accepted| > 0 && s.main.todo == []
    && Beyond(s.world.record, w.record, live) && s.world.record.approvedBy.Some?
    && !s.world.pr.Closed?
    && (forall a :: a in s.approvers && s.approvers[a].Holding? ==> Beyond(s.approvers[a].read, w.record, live))
    && (forall a :: a in s.runs ==> RunOk(s.runs[a], w.record, live))
  }

  /** Accepted approvals are approvers, each once. */
  ghost predicate Counted(s: System) {
    Distinct(s.accepted) && forall k :: 0 <= k < |s.accepted| ==> s.accepted[k] in s.approvers && s.approvers[s.accepted[k]].Accepted?
  }

  ghost predicate Inv(s: System, w: World, i: Inputs) {
    && Counted(s)
    && (s.accepted == [] ==> Unapproved(s, w, i))
    && (s.accepted != [] ==> Finishers(s, w))
    && (|s.accepted| == 1 ==> ApprovedOnce(s, w))
  }

  lemma {:induction false} TriggeredInv(w: World, i: Inputs)
    requires Fresh(w)
    ensures Inv(Triggered(w, i), w, i)
  {
    RunMoves(w.record, i);
    RunParksLast(w.record, i);
    assert Tidy(w, w.live, w.record, Runner(RunScript(w.record, i), None), Progress(0, false, Checking));
  }

  lemma {:induction false} NoParkInAdvance(stages: seq<nat>)
    ensures forall k :: 0 <= k < |Advance(stages)| ==> Advance(stages)[k].SetStage? && Advance(stages)[k].overall.None?
  {
    if stages != [] {
      NoParkInAdvance(stages[..|stages| - 1]);
    }
  }

  predicate NeverParks(ops: seq<Op>) {
    forall k :: 0 <= k < |ops| ==> ops[k].SetStage? ==> ops[k].overall != Some(PendingApproval)
  }

  lemma {:induction false} RunParksLast(r: Record, i: Inputs)
    ensures ParksLast(RunScript(r, i))
  {
    NoParkInAdvance([0, 1, 2]);
    NoParkInAdvance([3, 4, 5, 6]);
    NoParkInAdvance([7]);
    NoParkInAdvance([4]);
    NoParkInAdvance([6]);
    NoParkInAdvance([8, 9]);
    assert NeverParks(Advance([0, 1, 2]));
    assert NeverParks(CheckScript(r, i));
    assert NeverParks(FinishScript(r, i));
  }

  lemma {:induction false} FinishScriptOk(r: Record, i: Inputs, live: bool)
    ensures FinishesWell(FinishScript(r, i), r.version, live)
  {
    NoParkInAdvance([8, 9]);
    var before := IfPr(r, i, MergePr) + Advance([8, 9]);
    var ops := FinishScript(r, i);
    assert ops == before + LiveScript(r);
    AdvanceFinishes();
    assert ops[|before|] == MarkActive(r.version);
    assert forall k :: 0 <= k < |before| ==> ops[k] == before[k] && !EndsLive(before[k]);
  }

  lemma {:induction false} AdvanceFinishes()
    ensures forall k, v :: 0 <= k < |Advance([8, 9])| ==> Finishing(Advance([8, 9])[k], v)
  {
    assert [8, 9][..1] == [8] && [8][..0] == [];
    assert Advance([8]) == Simulated(8);
    assert Advance([8, 9]) == Simulated(8) + Simulated(9);
  }

  // ----- the steps before an approval -----

  lemma {:induction false} MainKeeps(s: System, w: World, i: Inputs)
    requires Unapproved(s, w, i)
    ensures Unapproved(Next(s, MainStep, i), w, i)
  {
    var t := Next(s, MainStep, i);
    var at: Progress :| Tidy(s.world, w.live, w.record, s.main, at);
    var at' := TidyStep(s.world, w.live, w.record, s.main, at);
    assert Tidy(t.world, w.live, w.record, t.main, at');
    if s.main.todo != [] && !Waits(s.main) {
      assert forall k :: 0 <= k < |t.main.todo| ==> t.main.todo[k] == s.main.todo[k + 1];
      assert s.main.held.Some? ==> s.world.(record := s.main.held.value) == s.world;
    }
  }

  lemma {:induction false} MainStopKeeps(s: System, w: World, i: Inputs)
    requires Unapproved(s, w, i)
    ensures Unapproved(Next(s, MainStop, i), w, i)
  {
    var at: Progress :| Tidy(s.world, w.live, w.record, s.main, at);
    assert Tidy(s.world, w.live, w.record, Runner([], None), at);
  }

  /** The first approval to land: everything is parked, so its read is the record. */
  lemma {:induction false} FirstPut(s: System, w: World, i: Inputs, a: nat, who: string)
    requires Unapproved(s, w, i) && a in s.approvers && s.approvers[a].Holding?
    ensures var t := Next(s, Put(a, who), i);
            t.accepted == [a] && ApprovedOnce(t, w) && Finishers(t, w)
  {
    var t := Next(s, Put(a, who), i);
    var at: Progress :| Tidy(s.world, w.live, w.record, s.main, at);
    assert at == Progress(8, false, Cleared);
    var r := t.world.record;
    FinishMoves(r, i);
    SameScript(s.world.record, r, i);
    assert Reached(t.world, w.live, at);
    assert Tidy(t.world, w.live, r, t.runs[a], at);
    FinishScriptOk(s.world.record, i, t.world.live == Some(w.record.version));
  }

  // ----- the steps after one -----

  lemma {:induction false} RunStepFinishes(s: System, w: World, i: Inputs, a: nat)
    requires Finishers(s, w) && a in s.runs
    ensures Finishers(Next(s, RunStep(a), i), w)
  {
    var t, run := Next(s, RunStep(a), i), s.runs[a];
    if run.todo != [] && !Waits(run) {
      var op, rest := run.todo[0], t.runs[a].todo;
      assert Finishing(op, w.record.version);
      assert forall k :: 0 <= k < |rest| ==> rest[k] == run.todo[k + 1];
      forall k | 0 <= k < |rest| && EndsLive(rest[k])
        ensures t.world.live == Some(w.record.version) || exists j :: 0 <= j < k && rest[j].MarkActive?
      {
        assert EndsLive(run.todo[k + 1]);
        if !(s.world.live == Some(w.record.version)) && !op.MarkActive? {
          var j :| 0 <= j < k + 1 && run.todo[j].MarkActive?;
          assert rest[j - 1].MarkActive?;
        }
      }
    }
  }

  lemma {:induction false} LaterPut(s: System, w: World, i: Inputs, a: nat, who: string)
    requires Finishers(s, w) && a in s.approvers && s.approvers[a].Holding?
    ensures Finishers(Next(s, Put(a, who), i), w)
  {
    FinishScriptOk(s.approvers[a].read, i, s.world.live == Some(w.record.version));
  }

  lemma {:induction false} FinishersStep(s: System, e: Event, w: World, i: Inputs)
    requires Finishers(s, w)
    ensures Finishers(Next(s, e, i), w)
  {
    if e.RunStep? && e.a in s.runs {
      RunStepFinishes(s, w, i, e.a);
    } else if e.Put? && e.a in s.approvers && s.approvers[e.a].Holding? {
      LaterPut(s, w, i, e.a, e.who);
    }
  }

  lemma {:induction false} ApprovedOnceStep(s: System, e: Event, w: World, i: Inputs)
    requires Finishers(s, w) && ApprovedOnce(s, w) && |Next(s, e, i).accepted| == 1
    ensures ApprovedOnce(Next(s, e, i), w)
  {
    var a, t := s.accepted[0], Next(s, e, i);
    var r: Record, at: Progress :| r.approvedBy.Some? && Tidy(s.world, w.live, r, s.runs[a], at);
    if e == RunStep(a) {
      var at' := TidyStep(s.world, w.live, r, s.runs[a], at);
      assert Tidy(t.world, w.live, r, t.runs[a], at');
    } else if e == RunStop(a) {
      assert Tidy(t.world, w.live, r, t.runs[a], at);
    } else {
      assert t.world == s.world && t.runs == s.runs;
    }
  }

  lemma {:induction false} CountedStep(s: System, e: Event, i: Inputs)
    requires Counted(s)
    ensures Counted(Next(s, e, i))
  {
  }

  lemma {:induction false} InvStep(s: System, e: Event, w: World, i: Inputs)
    requires Inv(s, w, i)
    ensures Inv(Next(s, e, i), w, i)
  {
    CountedStep(s, e, i);
    if s.accepted == [] {
      if e.MainStep? {
        MainKeeps(s, w, i);
      } else if e.MainStop? {
        MainStopKeeps(s, w, i);
      } else if e.Put? && e.a in s.approvers && s.approvers[e.a].Holding? {
        FirstPut(s, w, i, e.a, e.who);
      } else {
        OthersKeep(s, e, w, i);
      }
    } else {
      FinishersStep(s, e, w, i);
      if |Next(s, e, i).accepted| == 1 {
        ApprovedOnceStep(s, e, w, i);
      }
    }
  }

  /** Checks and reads change nothing but their approver. */
  lemma {:induction false} OthersKeep(s: System, e: Event, w: World, i: Inputs)
    requires Unapproved(s, w, i) && !e.MainStep? && !e.MainStop?
    requires e.Put? ==> e.a !in s.approvers || !s.approvers[e.a].Holding?
    ensures Unapproved(Next(s, e, i), w, i)
  {
  }

  lemma {:induction false} InvRun(s: System, es: seq<Event>, w: World, i: Inputs)
    requires Inv(s, w, i)
    ensures Inv(After(s, es, i), w, i)
    decreases |es|
  {
    if es != [] {
      InvStep(s, es[0], w, i);
      InvRun(Next(s, es[0], i), es[1..], w, i);
    }
  }

  // ----- what is safe whoever approves -----

  /** What holds of the record w' of a deployment of w, however approvals race: ACTIVE means
      the policy check passed, this version is live, the pull request was not closed and a
      manual run was approved; BLOCKED means the check blocked, nothing was merged or made
      live and no later stage began; until a manual run is approved nothing beyond the gate
      happens; and nothing is merged or made live before the gate. */
  ghost predicate GateHolds(w: World, w': World) {
    var r := w'.record;
    && |r.stages| == STAGE_COUNT
    && (r.status == Active ==>
          && r.stages[POLICY_CHECK].status == PASSED && w'.live == Some(r.version) && !w'.pr.Closed?
          && (r.manual ==> r.approvedBy.Some?))
    && (r.status == Blocked ==>
          && r.stages[POLICY_CHECK].status == BLOCKED && w'.live == w.live && !w'.pr.Merged?
          && forall k :: POLICY_CHECK < k < STAGE_COUNT ==> r.stages[k].status == PENDING)
    && (r.manual && r.approvedBy.None? ==>
          && w'.live == w.live && !w'.pr.Merged?
          && forall k :: POLICY_CHECK < k < STAGE_COUNT ==> r.stages[k].status == PENDING)
    && (w'.pr.Merged? || w'.live != w.live ==> r.stages[POLICY_CHECK].status == PASSED)
  }

  /** Every state a triggered deployment can reach, whatever calls fail, however many
      approvers act and however their reads and puts interleave with the runs' and each
      other's: the gate holds; and while at most one approval has landed the state is safe in
      full, stage order included. The live version here is the one the last mark put; what
      other writers of the agent's record make of it is the subject of LiveVersion. */
  lemma {:induction false} PipelineSafety(w: World, i: Inputs, es: seq<Event>)
    requires Fresh(w)
    ensures var t := After(Triggered(w, i), es, i);
            GateHolds(w, t.world) && (|t.accepted| <= 1 ==> Safe(w, t.world))
  {
    TriggeredInv(w, i);
    InvRun(Triggered(w, i), es, w, i);
    var t := After(Triggered(w, i), es, i);
    if t.accepted == [] {
      var at: Progress :| Tidy(t.world, w.live, w.record, t.main, at);
      ReachedIsSafe(w, t.world, at);
    } else if |t.accepted| == 1 {
      var r: Record, at: Progress :| r.approvedBy.Some? && Tidy(t.world, w.live, r, t.runs[t.accepted[0]], at);
      ReachedIsSafe(w, t.world, at);
    }
  }

  // ----- when the stage order can break -----

  predicate NoCheck(es: seq<Event>) {
    forall k :: 0 <= k < |es| ==> !es[k].Check?
  }

  ghost predicate Ordered(w: World) {
    exists n: nat :: InOrder(w.record.stages, n)
  }

  /** Without any further approver, some continuation leaves the stages out of order. */
  ghost predicate OrderCanBreak(s: System, i: Inputs) {
    exists es :: NoCheck(es) && !Ordered(After(s, es, i).world)
  }

  ghost predicate TwoPassed(s: System) {
    exists a, b :: a in s.approvers && b in s.approvers && a != b
  }

  lemma {:induction false} NobodyNew(s: System, es: seq<Event>, i: Inputs)
    requires NoCheck(es)
    ensures After(s, es, i).approvers.Keys == s.approvers.Keys
    decreases |es|
  {
    if es != [] {
      assert Next(s, es[0], i).approvers.Keys == s.approvers.Keys;
      NobodyNew(Next(s, es[0], i), es[1..], i);
    }
  }

  /** The steps that make the given writes when nobody disturbs the run. */
  function StepsFor(a: nat, ops: seq<Op>): seq<Event>
    decreases |ops|
  {
    if ops == [] then []
    else StepsFor(a, ops[..|ops| - 1]) + if ops[|ops| - 1].SetStage? then [RunStep(a), RunStep(a)] else [RunStep(a)]
  }

  lemma {:induction false} StepsCheckNothing(a: nat, ops: seq<Op>)
    ensures NoCheck(StepsFor(a, ops))
    decreases |ops|
  {
    if ops != [] {
      StepsCheckNothing(a, ops[..|ops| - 1]);
    }
  }

  lemma {:induction false} OneWrite(s: System, a: nat, i: Inputs)
    requires a in s.runs && s.runs[a].held.None? && s.runs[a].todo != []
    ensures var op := s.runs[a].todo[0];
            After(s, if op.SetStage? then [RunStep(a), RunStep(a)] else [RunStep(a)], i)
            == s.(world := Apply(s.world, op), runs := s.runs[a := Runner(s.runs[a].todo[1..], None)])
  {
    var op := s.runs[a].todo[0];
    if op.SetStage? {
      var t := Next(s, RunStep(a), i);
      assert [RunStep(a), RunStep(a)][1..] == [RunStep(a)];
      assert t.world.(record := t.runs[a].held.value) == s.world;
      var u := Next(t, RunStep(a), i);
      assert u.runs == s.runs[a := Runner(s.runs[a].todo[1..], None)];
      assert After(t, [RunStep(a)], i) == u;
    } else {
      assert After(s, [RunStep(a)], i) == Next(s, RunStep(a), i);
    }
  }

  lemma {:induction false} Undisturbed(s: System, a: nat, n: nat, i: Inputs)
    requires a in s.runs && s.runs[a].held.None? && n <= |s.runs[a].todo|
    ensures After(s, StepsFor(a, s.runs[a].todo[..n]), i)
            == s.(world := ApplyAll(s.world, s.runs[a].todo[..n]), runs := s.runs[a := Runner(s.runs[a].todo[n..], None)])
    decreases n
  {
    var todo := s.runs[a].todo;
    if n == 0 {
      assert s.runs[a := Runner(todo[0..], None)] == s.runs;
    } else {
      Undisturbed(s, a, n - 1, i);
      var ops := todo[..n];
      assert ops[..n - 1] == todo[..n - 1] && todo[n - 1..][1..] == todo[n..];
      var t := After(s, StepsFor(a, todo[..n - 1]), i);
      var last := if ops[n - 1].SetStage? then [RunStep(a), RunStep(a)] else [RunStep(a)];
      OneWrite(t, a, i);
      AfterConcat(s, StepsFor(a, todo[..n - 1]), last, i);
      assert t.runs[a := Runner(todo[n..], None)] == s.runs[a := Runner(todo[n..], None)];
    }
  }

  /** How a finishing run begins: the merge, if any, then APPLYING, then the next stage. */
  lemma {:induction false} FinishBegins(r: Record, i: Inputs)
    ensures var p := |IfPr(r, i, MergePr)|;
            && |FinishScript(r, i)| > p + 3
            && FinishScript(r, i)[..p + 2] == IfPr(r, i, MergePr) + Simulated(8)
            && FinishScript(r, i)[p + 2] == Mark(9, RUNNING)
  {
    assert [8, 9][..1] == [8] && [8][..0] == [];
    assert Advance([8]) == Simulated(8);
    assert Advance([8, 9]) == Simulated(8) + Simulated(9);
  }

  /** Both approvers hold the parked record. */
  lemma {:induction false} BothHold(s: System, w: World, i: Inputs, a: nat, b: nat) returns (es: seq<Event>)
    requires Unapproved(s, w, i) && a in s.approvers && b in s.approvers && a != b
    ensures NoCheck(es)
    ensures var t := After(s, es, i);
            && t.world == s.world && t.runs == s.runs && t.accepted == [] && t.main == s.main
            && a in t.approvers && b in t.approvers
            && t.approvers[a] == Holding(s.world.record) && t.approvers[b] == Holding(s.world.record)
  {
    var one, two := [Read(a)], [Read(b)];
    es := one + two;
    AfterConcat(s, one, two, i);
    var m := Next(s, Read(a), i);
    assert After(s, one, i) == m;
    assert After(m, two, i) == Next(m, Read(b), i);
  }

  lemma {:induction false} OutOfOrder(stages: seq<StageResult>)
    requires |stages| == STAGE_COUNT && stages[8].status == PENDING && stages[9].status == RUNNING
    ensures !exists n: nat :: InOrder(stages, n)
  {
    forall n: nat
      ensures !InOrder(stages, n)
    {
      assert !Terminal(stages[8].status);
    }
  }

  /** The next stage is marked running on a record that does not know the one before. */
  lemma {:induction false} MarksNext(s: System, a: nat, i: Inputs)
    requires a in s.runs && s.runs[a].held.None? && s.runs[a].todo != [] && s.runs[a].todo[0] == Mark(9, RUNNING)
    requires |s.world.record.stages| == STAGE_COUNT && s.world.record.stages[8].status == PENDING
    ensures !Ordered(After(s, [RunStep(a), RunStep(a)], i).world)
  {
    OneWrite(s, a, i);
    OutOfOrder(After(s, [RunStep(a), RunStep(a)], i).world.record.stages);
  }

  /** The first approver's run makes some writes; the second's put restores the record it
      read before; the first run goes on with one more stage write. */
  function Breaking(a: nat, b: nat, ops: seq<Op>): seq<Event> {
    [Put(a, "")] + (StepsFor(a, ops) + ([Put(b, "")] + [RunStep(a), RunStep(a)]))
  }

  lemma {:induction false} BreakingEnds(s: System, a: nat, b: nat, ops: seq<Op>, i: Inputs)
    ensures After(s, Breaking(a, b, ops), i) ==
            After(Next(After(Next(s, Put(a, ""), i), StepsFor(a, ops), i), Put(b, ""), i), [RunStep(a), RunStep(a)], i)
    ensures NoCheck(Breaking(a, b, ops))
  {
    var last := [RunStep(a), RunStep(a)];
    var s1 := Next(s, Put(a, ""), i);
    var s2 := After(s1, StepsFor(a, ops), i);
    AfterConcat(s, [Put(a, "")], StepsFor(a, ops) + ([Put(b, "")] + last), i);
    assert After(s, [Put(a, "")], i) == s1;
    AfterConcat(s1, StepsFor(a, ops), [Put(b, "")] + last, i);
    AfterConcat(s2, [Put(b, "")], last, i);
    assert After(s2, [Put(b, "")], i) == Next(s2, Put(b, ""), i);
    StepsCheckNothing(a, ops);
  }

  lemma {:induction false} LatePutBreaks(s: System, w: World, i: Inputs, a: nat, b: nat) returns (es: seq<Event>)
    requires Unapproved(s, w, i) && a in s.approvers && b in s.approvers && a != b
    requires s.approvers[a] == Holding(s.world.record) && s.approvers[b] == Holding(s.world.record)
    ensures NoCheck(es) && !Ordered(After(s, es, i).world)
  {
    var rec := s.world.record;
    var at: Progress :| Tidy(s.world, w.live, w.record, s.main, at);
    assert at == Progress(8, false, Cleared);
    var ops := FinishScript(rec, i);
    var p := |IfPr(rec, i, MergePr)|;
    FinishBegins(rec, i);
    var s1 := Next(s, Put(a, ""), i);
    Undisturbed(s1, a, p + 2, i);
    var s3 := Next(After(s1, StepsFor(a, ops[..p + 2]), i), Put(b, ""), i);
    assert s3.runs[a] == Runner(ops[p + 2..], None);
    MarksNext(s3, a, i);
    es := Breaking(a, b, ops[..p + 2]);
    BreakingEnds(s, a, b, ops[..p + 2], i);
  }

  /** In every reachable state in which no approval has landed: the stage order can still
      break, without any further approver, if and only if two approvers have passed the
      check. */
  lemma {:induction false} OrderBreaksIff(w: World, i: Inputs, es: seq<Event>)
    requires Fresh(w) && After(Triggered(w, i), es, i).accepted == []
    ensures OrderCanBreak(After(Triggered(w, i), es, i), i) <==> TwoPassed(After(Triggered(w, i), es, i))
  {
    var s := After(Triggered(w, i), es, i);
    TriggeredInv(w, i);
    InvRun(Triggered(w, i), es, w, i);
    if TwoPassed(s) {
      var a, b :| a in s.approvers && b in s.approvers && a != b;
      var first := BothHold(s, w, i, a, b);
      InvRun(s, first, w, i);
      var rest := LatePutBreaks(After(s, first, i), w, i, a, b);
      AfterConcat(s, first, rest, i);
      assert NoCheck(first + rest);
    } else {
      forall more | NoCheck(more)
        ensures Ordered(After(s, more, i).world)
      {
        OneAtMost(s, more, w, i);
        AfterConcat(Triggered(w, i), es, more, i);
        PipelineSafety(w, i, es + more);
      }
    }
  }

  lemma {:induction false} OneAtMost(s: System, es: seq<Event>, w: World, i: Inputs)
    requires Inv(s, w, i) && NoCheck(es) && !TwoPassed(s)
    ensures |After(s, es, i).accepted| <= 1
  {
    InvRun(s, es, w, i);
    NobodyNew(s, es, i);
    var t := After(s, es, i);
    if |t.accepted| > 1 {
      TwoLanded(t);
    }
  }

  lemma {:induction false} TwoLanded(s: System)
    requires Counted(s) && |s.accepted| > 1
    ensures TwoPassed(s)
  {
    assert s.accepted[0] != s.accepted[1];
    assert s.accepted[0] in s.approvers && s.accepted[1] in s.approvers;
  }

  // ----- runs that keep approvers apart -----

  /** No approver passes the check between another's check and put. */
  ghost predicate Exclusive(s: System, es: seq<Event>, i: Inputs)
    decreases |es|
  {
    es != [] ==>
      && (es[0].Check? && es[0].a !in s.approvers && CanApprove(s.world.record) ==>
            forall a :: a in s.approvers ==> s.approvers[a].Accepted?)
      && Exclusive(Next(s, es[0], i), es[1..], i)
  }

  lemma {:induction false} ExclusiveLetsOne(s: System, es: seq<Event>, w: World, i: Inputs)
    requires Inv(s, w, i) && Exclusive(s, es, i) && !TwoPassed(s)
    requires s.accepted == [] ==> forall a :: a in s.approvers ==> !s.approvers[a].Accepted?
    ensures |After(s, es, i).accepted| <= 1
    decreases |es|
  {
    if es == [] {
      OneAtMost(s, [], w, i);
    } else {
      InvStep(s, es[0], w, i);
      ExclusiveLetsOne(Next(s, es[0], i), es[1..], w, i);
    }
  }

  /** If approvers are kept apart, every state is safe in full. */
  lemma {:induction false} ExclusiveApprovalsAreSafe(w: World, i: Inputs, es: seq<Event>)
    requires Fresh(w) && Exclusive(Triggered(w, i), es, i)
    ensures Safe(w, After(Triggered(w, i), es, i).world)
  {
    TriggeredInv(w, i);
    ExclusiveLetsOne(Triggered(w, i), es, w, i);
    PipelineSafety(w, i, es);
  }
}
