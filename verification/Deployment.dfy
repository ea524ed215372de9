/** One deployment: its staged record (deployment/status_store.py), the pipeline that
    advances it (deployment/pipeline_simulator.py), its pull request, the agent's live
    version, and the human approval of a manual-mode run (api/v1/agents.py). */
module Deployment {
  import opened Common

  datatype StageStatus = PENDING | RUNNING | PASSED | FAILED | SKIPPED | BLOCKED

  datatype Overall = Pending | PendingApproval | Active | Failed | Blocked

  datatype StageResult = StageResult(
    status: StageStatus, startedAt: Option<int>, completedAt: Option<int>, summary: Option<string>)

  /** Stages by their place in DEPLOYMENT_STAGE_ORDER. */
  const SECURITY_SCANNING: nat := 3
  const TERRAFORM_VALIDATE: nat := 5
  const POLICY_CHECK: nat := 7
  const HEALTH_CHECK: nat := 10
  const STAGE_COUNT: nat := 11

  datatype Record = Record(
    version: int,
    manual: bool,
    pullRequest: Option<string>,
    status: Overall,
    currentStage: nat,
    approvedBy: Option<string>,
    stages: seq<StageResult>,
    failureReason: Option<string>,
    failedStage: Option<nat>)

  datatype PullRequest = NoPullRequest | Open | Merged | Closed

  datatype AgentStatus = AgentDeploying | AgentActive | AgentBlocked

  datatype World = World(record: Record, clock: int, live: Option<int>, agent: AgentStatus, pr: PullRequest)

  /** The writes a pipeline makes, each atomic. */
  datatype Op =
    | SetStage(stage: nat, status: StageStatus, summary: Option<string>, overall: Option<Overall>, failure: Option<string>)
    | MergePr
    | ClosePr
    | MarkBlocked
    | MarkActive(version: int)

  predicate Terminal(status: StageStatus) {
    status.PASSED? || status.FAILED? || status.SKIPPED? || status.BLOCKED?
  }

  /** `update_stage` on one stage entry. */
  function StageUpdated(r: StageResult, status: StageStatus, summary: Option<string>, now: int): StageResult {
    StageResult(status,
                if r.startedAt.Some? then r.startedAt else if status.RUNNING? then Some(now) else None,
                if Terminal(status) then Some(now) else r.completedAt,
                if summary.Some? then summary else r.summary)
  }

  function Apply(w: World, op: Op): World {
    var w' := w.(clock := w.clock + 1);
    match op
    case SetStage(i, status, summary, overall, failure) =>
      if i >= |w.record.stages| then w'
      else
        var stages := w.record.stages[i := StageUpdated(w.record.stages[i], status, summary, w.clock)];
        w'.(record := w.record.(
              stages := stages, currentStage := i,
              status := if overall.Some? then overall.value else w.record.status,
              failureReason := if failure.Some? then failure else w.record.failureReason,
              failedStage := if failure.Some? then Some(i) else w.record.failedStage))
    case MergePr => w'.(pr := if w.pr.Open? then Merged else w.pr)
    case ClosePr => w'.(pr := if w.pr.Open? then Closed else w.pr)
    case MarkBlocked => w'.(agent := if w.live.Some? then AgentActive else AgentBlocked)
    case MarkActive(v) => w'.(agent := AgentActive, live := Some(v))
  }

  function ApplyAll(w: World, ops: seq<Op>): World {
    if ops == [] then w else Apply(ApplyAll(w, ops[..|ops| - 1]), ops[|ops| - 1])
  }

  // ----- what each part of the pipeline writes -----

  function Mark(stage: nat, status: StageStatus): Op {
    SetStage(stage, status, None, None, None)
  }

  function Fabricated(stage: nat): Op {
    SetStage(stage, PASSED, Some("[simulated]"), None, None)
  }

  function Simulated(stage: nat): seq<Op> {
    [Mark(stage, RUNNING), Fabricated(stage)]
  }

  function Advance(stages: seq<nat>): seq<Op> {
    if stages == [] then []
    else Advance(stages[..|stages| - 1]) + Simulated(stages[|stages| - 1])
  }

  /** A real scan: its findings, whether terraform validate passed, and the gate. */
  datatype Scan = Scan(findings: string, validatePassed: bool, report: string, block: bool, reason: string)

  /** What a run is given: a scan (None when no runner, configuration or files were
      supplied) and whether the repository identifier can be formed. */
  datatype Inputs = Inputs(scan: Option<Scan>, repoKnown: bool)

  function IfPr(r: Record, i: Inputs, op: Op): seq<Op> {
    if r.pullRequest.Some? && i.repoKnown then [op] else []
  }

  function BlockScript(r: Record, i: Inputs, reason: string): seq<Op> {
    IfPr(r, i, ClosePr) + [MarkBlocked, SetStage(POLICY_CHECK, BLOCKED, Some(reason), Some(Blocked), Some(reason))]
  }

  predicate Blocks(i: Inputs) {
    i.scan.Some? && i.scan.value.block
  }

  function SecurityScript(scan: Scan): seq<Op> {
    [Mark(SECURITY_SCANNING, RUNNING), SetStage(SECURITY_SCANNING, PASSED, Some(scan.findings), None, None)]
  }

  function ValidateScript(scan: Scan): seq<Op> {
    [SetStage(TERRAFORM_VALIDATE, if scan.validatePassed then PASSED else FAILED, Some(scan.report), None, None)]
  }

  function ScanningScript(scan: Scan): seq<Op> {
    SecurityScript(scan) + Advance([4]) + ValidateScript(scan) + Advance([6])
  }

  function GateScript(r: Record, i: Inputs, scan: Scan): seq<Op> {
    if scan.block then BlockScript(r, i, scan.reason)
    else [SetStage(POLICY_CHECK, PASSED, Some(scan.reason), None, None)]
  }

  function CheckScript(r: Record, i: Inputs): seq<Op> {
    match i.scan
    case None => Advance([3, 4, 5, 6]) + Advance([7])
    case Some(scan) => ScanningScript(scan) + GateScript(r, i, scan)
  }

  function LiveScript(r: Record): seq<Op> {
    [MarkActive(r.version), SetStage(HEALTH_CHECK, PASSED, Some("[simulated]"), Some(Active), None)]
  }

  function FinishScript(r: Record, i: Inputs): seq<Op> {
    IfPr(r, i, MergePr) + Advance([8, 9]) + LiveScript(r)
  }

  function EndScript(r: Record, i: Inputs): seq<Op> {
    if Blocks(i) then []
    else if r.manual then [SetStage(POLICY_CHECK, PASSED, None, Some(PendingApproval), None)]
    else FinishScript(r, i)
  }

  function RunScript(r: Record, i: Inputs): seq<Op> {
    Advance([0, 1, 2]) + CheckScript(r, i) + EndScript(r, i)
  }

  predicate CanApprove(r: Record) {
    r.manual && r.status == PendingApproval && r.approvedBy == None
  }

  function Approved(w: World, who: string): World {
    w.(record := w.record.(approvedBy := Some(who)), clock := w.clock + 1)
  }

  // ----- the pipeline itself -----

  datatype ApproveError = NotApplicable | NotPendingApproval | AlreadyApproved

  /** The simulator with the stores it writes. Any external call may raise: `calls` is
      the number that still succeed. Every exception ends the run where it stands. */
  class DeploymentPipelineSimulator {
    var world: World
    var calls: nat
    ghost var start: World
    ghost var trace: seq<Op>

    ghost predicate Valid()
      reads this
    {
      world == ApplyAll(start, trace) && |world.record.stages| == STAGE_COUNT
    }

    constructor (world: World, calls: nat)
      requires |world.record.stages| == STAGE_COUNT
      ensures Valid() && start == world && trace == [] && this.world == world
    {
      this.world, this.calls := world, calls;
      start, trace := world, [];
    }

    /** The record as read, put back with one stage's entry and the fields given rewritten. */
    static method WriteStage(w: World, stage: nat, status: StageStatus, summary: Option<string>,
                             overall: Option<Overall>, failure: Option<string>)
      returns (w': World)
      requires stage < |w.record.stages|
      ensures w' == Apply(w, SetStage(stage, status, summary, overall, failure))
    {
      var record := w.record;
      var existing := record.stages[stage];
      var startedAt := existing.startedAt;
      if startedAt.None? && status.RUNNING? {
        startedAt := Some(w.clock);
      }
      var completedAt := if Terminal(status) then Some(w.clock) else existing.completedAt;
      var text := if summary.None? then existing.summary else summary;
      record := record.(stages := record.stages[stage := StageResult(status, startedAt, completedAt, text)],
                        currentStage := stage);
      if overall.Some? {
        record := record.(status := overall.value);
      }
      if failure.Some? {
        record := record.(failureReason := failure, failedStage := Some(stage));
      }
      return w.(record := record, clock := w.clock + 1);
    }

    /** The read-modify-write of one stage. */
    method UpdateStage(stage: nat, status: StageStatus, summary: Option<string>,
                       overall: Option<Overall>, failure: Option<string>)
      returns (ok: bool)
      requires Valid() && stage < STAGE_COUNT
      modifies this`world, this`calls, this`trace
      ensures Valid() && Did(old(trace), trace, [SetStage(stage, status, summary, overall, failure)], ok)
      ensures ok || calls == 0
    {
      if calls == 0 {
        return false;
      }
      calls := calls - 1;
      ghost var op := SetStage(stage, status, summary, overall, failure);
      var written := WriteStage(world, stage, status, summary, overall, failure);
      Extends(start, trace, world, op, written);
      world := written;
      trace := trace + [op];
      return true;
    }

    /** A call on the git provider or the agent registry. */
    method Call(op: Op) returns (ok: bool)
      requires Valid() && !op.SetStage?
      modifies this`world, this`calls, this`trace
      ensures Valid() && world.record == old(world.record) && Did(old(trace), trace, [op], ok)
      ensures ok || calls == 0
    {
      if calls == 0 {
        return false;
      }
      calls := calls - 1;
      var after := world.(clock := world.clock + 1);
      if op == MergePr && world.pr.Open? {
        after := after.(pr := Merged);
      }
      if op == ClosePr && world.pr.Open? {
        after := after.(pr := Closed);
      }
      if op == MarkBlocked {
        after := after.(agent := if world.live.Some? then AgentActive else AgentBlocked);
      }
      if op.MarkActive? {
        after := after.(agent := AgentActive, live := Some(op.version));
      }
      Extends(start, trace, world, op, after);
      world := after;
      trace := trace + [op];
      return true;
    }

    /** One fabricated stage: RUNNING, then PASSED. */
    method Simulate(stage: nat) returns (ok: bool)
      requires Valid() && stage < STAGE_COUNT
      modifies this`world, this`calls, this`trace
      ensures Valid() && Did(old(trace), trace, Simulated(stage), ok)
      ensures ok || calls == 0
    {
      ghost var t0 := trace;
      ok := UpdateStage(stage, RUNNING, None, None, None);
      DidOneOfTwo(t0, trace, Mark(stage, RUNNING), Fabricated(stage), ok);
      if !ok {
        return;
      }
      ghost var t1 := trace;
      ok := UpdateStage(stage, PASSED, Some("[simulated]"), None, None);
      DidTwo(t0, t1, trace, Mark(stage, RUNNING), Fabricated(stage), ok);
    }

    method AdvanceStages(stages: seq<nat>) returns (ok: bool)
      requires Valid() && forall s :: s in stages ==> s < STAGE_COUNT
      modifies this`world, this`calls, this`trace
      ensures Valid() && Did(old(trace), trace, Advance(stages), ok)
      ensures ok || calls == 0
    {
      var n := 0;
      while n < |stages|
        invariant 0 <= n <= |stages|
        invariant Valid() && trace == old(trace) + Advance(stages[..n])
      {
        AdvancePrefix(stages, n + 1);
        AdvanceSnoc(stages, n);
        assert stages[n] in stages;
        ghost var t := trace;
        ok := Simulate(stages[n]);
        DidPart(old(trace), Advance(stages[..n]), Simulated(stages[n]), [], t, trace, ok);
        if !ok {
          return;
        }
        n := n + 1;
      }
      assert stages[..n] == stages;
      return true;
    }

    /** The pull-request call of a step, when there is a pull request and a repository. */
    method CallOnPr(r: Record, i: Inputs, op: Op) returns (ok: bool)
      requires Valid() && !op.SetStage?
      modifies this`world, this`calls, this`trace
      ensures Valid() && world.record == old(world.record) && Did(old(trace), trace, IfPr(r, i, op), ok)
      ensures ok || calls == 0
    {
      ok := true;
      if r.pullRequest.Some? {
        if i.repoKnown {
          ok := Call(op);
        }
      }
    }

    method Block(r: Record, i: Inputs, reason: string) returns (ok: bool)
      requires Valid()
      modifies this`world, this`calls, this`trace
      ensures Valid() && Did(old(trace), trace, BlockScript(r, i, reason), ok)
      ensures ok || calls == 0
    {
      ghost var t0, s1, s2 := trace, IfPr(r, i, ClosePr), [MarkBlocked];
      ghost var s3 := [SetStage(POLICY_CHECK, BLOCKED, Some(reason), Some(Blocked), Some(reason))];
      assert BlockScript(r, i, reason) == s1 + s2 + s3;
      assert t0 == t0 + [];
      ok := CallOnPr(r, i, ClosePr);
      DidPart(t0, [], s1, s2 + s3, t0, trace, ok);
      if !ok {
        return;
      }
      ghost var t1 := trace;
      ok := Call(MarkBlocked);
      DidPart(t0, s1, s2, s3, t1, trace, ok);
      if !ok {
        return;
      }
      ghost var t2 := trace;
      ok := UpdateStage(POLICY_CHECK, BLOCKED, Some(reason), Some(Blocked), Some(reason));
      DidPart(t0, s1 + s2, s3, [], t2, trace, ok);
    }

    /** MarkActive and the closing stage, together. */
    method GoLive(r: Record) returns (ok: bool)
      requires Valid()
      modifies this`world, this`calls, this`trace
      ensures Valid() && Did(old(trace), trace, LiveScript(r), ok)
      ensures ok || calls == 0
    {
      ok := Call(MarkActive(r.version));
      if !ok {
        return;
      }
      ok := UpdateStage(HEALTH_CHECK, PASSED, Some("[simulated]"), Some(Active), None);
    }

    method Finish(r: Record, i: Inputs) returns (ok: bool)
      requires Valid()
      modifies this`world, this`calls, this`trace
      ensures Valid() && Did(old(trace), trace, FinishScript(r, i), ok)
      ensures ok || calls == 0
    {
      ghost var t0, s1, s2, s3 := trace, IfPr(r, i, MergePr), Advance([8, 9]), LiveScript(r);
      ok := CallOnPr(r, i, MergePr);
      DidFirst(t0, s1, s2, s3, trace, ok);
      if !ok {
        return;
      }
      ghost var t1 := trace;
      ok := AdvanceStages([8, 9]);
      DidPart(t0, s1, s2, s3, t1, trace, ok);
      if !ok {
        return;
      }
      ghost var t2 := trace;
      ok := GoLive(r);
      DidPart(t0, s1 + s2, s3, [], t2, trace, ok);
    }

    /** With nothing to scan the stages up to the gate are all fabricated. */
    method SimulateScan() returns (ok: bool)
      requires Valid()
      modifies this`world, this`calls, this`trace
      ensures Valid() && Did(old(trace), trace, Advance([3, 4, 5, 6]) + Advance([7]), ok)
      ensures ok || calls == 0
    {
      ghost var t0 := trace;
      ok := AdvanceStages([3, 4, 5, 6]);
      DidFirst(t0, Advance([3, 4, 5, 6]), Advance([7]), [], trace, ok);
      if !ok {
        return;
      }
      ghost var t1 := trace;
      ok := AdvanceStages([7]);
      DidPart(t0, Advance([3, 4, 5, 6]), Advance([7]), [], t1, trace, ok);
    }

    /** SECURITY_SCANNING to POLICY_CHECK. Reports whether the run goes on. */
    method RunScanAndPolicyCheck(r: Record, i: Inputs) returns (ok: bool, passed: bool)
      requires Valid()
      modifies this`world, this`calls, this`trace
      ensures Valid() && Did(old(trace), trace, CheckScript(r, i), ok)
      ensures ok || calls == 0
      ensures passed ==> ok
      ensures ok ==> passed == !Blocks(i)
    {
      ghost var t0 := trace;
      assert t0 == t0 + [];
      if i.scan.None? {
        ok := SimulateScan();
        return ok, ok;
      }
      var scan := i.scan.value;
      ghost var s1, s2 := ScanningScript(scan), GateScript(r, i, scan);
      ok := RunScan(scan);
      DidPart(t0, [], s1, s2, t0, trace, ok);
      if !ok {
        return ok, false;
      }
      ghost var t1 := trace;
      if scan.block {
        ok := Block(r, i, scan.reason);
        passed := false;
      } else {
        ok := UpdateStage(POLICY_CHECK, PASSED, Some(scan.reason), None, None);
        passed := ok;
      }
      DidPart(t0, s1, s2, [], t1, trace, ok);
    }

    method ScanSecurity(scan: Scan) returns (ok: bool)
      requires Valid()
      modifies this`world, this`calls, this`trace
      ensures Valid() && Did(old(trace), trace, SecurityScript(scan), ok)
      ensures ok || calls == 0
    {
      ok := UpdateStage(SECURITY_SCANNING, RUNNING, None, None, None);
      if !ok {
        return;
      }
      ok := UpdateStage(SECURITY_SCANNING, PASSED, Some(scan.findings), None, None);
    }

    /** The scanned stages before the gate. A failed terraform validate is recorded and
        does not stop the run. */
    method RunScan(scan: Scan) returns (ok: bool)
      requires Valid()
      modifies this`world, this`calls, this`trace
      ensures Valid() && Did(old(trace), trace, ScanningScript(scan), ok)
      ensures ok || calls == 0
    {
      ghost var t0, s1, s2, s3, s4 := trace, SecurityScript(scan), Advance([4]), ValidateScript(scan), Advance([6]);
      ok := ScanSecurity(scan);
      DidFirst(t0, s1, s2, s3 + s4, trace, ok);
      if !ok {
        return;
      }
      ghost var t1 := trace;
      ok := AdvanceStages([4]);
      DidPart(t0, s1, s2, s3 + s4, t1, trace, ok);
      if !ok {
        return;
      }
      ghost var t2 := trace;
      ok := UpdateStage(TERRAFORM_VALIDATE, if scan.validatePassed then PASSED else FAILED, Some(scan.report), None, None);
      DidPart(t0, s1 + s2, s3, s4, t2, trace, ok);
      if !ok {
        return;
      }
      ghost var t3 := trace;
      ok := AdvanceStages([6]);
      DidPart(t0, s1 + s2 + s3, s4, [], t3, trace, ok);
    }

    /** After the gate: park for approval, or go on to the end. */
    method Conclude(r: Record, i: Inputs) returns (ok: bool)
      requires Valid() && !Blocks(i)
      modifies this`world, this`calls, this`trace
      ensures Valid() && Did(old(trace), trace, EndScript(r, i), ok)
      ensures ok || calls == 0
    {
      if r.manual {
        ok := UpdateStage(POLICY_CHECK, PASSED, None, Some(PendingApproval), None);
      } else {
        ok := Finish(r, i);
      }
    }

    /** A freshly triggered deployment. Exceptions are swallowed: the run just ends. */
    method Run(i: Inputs)
      requires Valid()
      modifies this`world, this`calls, this`trace
      ensures Valid() && old(trace) <= trace <= old(trace) + RunScript(old(world.record), i)
      ensures trace == old(trace) + RunScript(old(world.record), i) || calls == 0
    {
      var r := world.record;
      ghost var t0, s1, s2, s3 := trace, Advance([0, 1, 2]), CheckScript(r, i), EndScript(r, i);
      var ok := AdvanceStages([0, 1, 2]);
      DidFirst(t0, s1, s2, s3, trace, ok);
      if !ok {
        return;
      }
      ghost var t1 := trace;
      var passed;
      ok, passed := RunScanAndPolicyCheck(r, i);
      DidPart(t0, s1, s2, s3, t1, trace, ok);
      if !passed {
        assert ok ==> s1 + s2 + s3 == s1 + s2;
        return;
      }
      ghost var t2 := trace;
      ok := Conclude(r, i);
      DidPart(t0, s1 + s2, s3, [], t2, trace, ok);
    }

    /** The simulator's entry point once a manual-mode deployment is approved. */
    method ResumeAfterApproval(i: Inputs)
      requires Valid()
      modifies this`world, this`calls, this`trace
      ensures Valid() && old(trace) <= trace <= old(trace) + FinishScript(old(world.record), i)
      ensures trace == old(trace) + FinishScript(old(world.record), i) || calls == 0
    {
      var _ := Finish(world.record, i);
    }

    /** What the approval endpoint asks of the record it reads. */
    method CheckApproval() returns (r: Result<(), ApproveError>)
      ensures r.Ok? <==> CanApprove(world.record)
      ensures r == Err(NotApplicable) <==> !world.record.manual
      ensures r == Err(AlreadyApproved) ==> world.record.approvedBy.Some? && world.record.status == PendingApproval
    {
      if !world.record.manual {
        return Err(NotApplicable);
      }
      if world.record.status != PendingApproval {
        return Err(NotPendingApproval);
      }
      if world.record.approvedBy != None {
        return Err(AlreadyApproved);
      }
      return Ok(());
    }

    /** The put of an approval, with the record its own read found, which need not be the
        record as it stands. */
    method RecordApproval(read: Record, who: string)
      requires |read.stages| == STAGE_COUNT
      modifies this`world, this`start, this`trace
      ensures Valid() && start == world && trace == []
      ensures world == old(world).(record := read.(approvedBy := Some(who)), clock := old(world).clock + 1)
    {
      world := world.(record := read.(approvedBy := Some(who)), clock := world.clock + 1);
      start, trace := world, [];
    }

    /** The approval endpoint with nobody else at work, up to scheduling the resume. */
    method ApproveDeployment(who: string) returns (r: Result<Record, ApproveError>)
      requires Valid()
      modifies this`world, this`start, this`trace
      ensures Valid()
      ensures r.Ok? <==> CanApprove(old(world.record))
      ensures r.Ok? ==> world == Approved(old(world), who) && r.value == world.record && trace == []
      ensures r.Ok? ==> world.record == old(world.record).(approvedBy := Some(who)) && world.clock == old(world.clock) + 1
      ensures r.Err? ==> world == old(world) && trace == old(trace) && start == old(start)
      ensures r == Err(AlreadyApproved) ==> old(world.record).approvedBy.Some?
    {
      var check := CheckApproval();
      if check.Err? {
        return Err(check.error);
      }
      RecordApproval(world.record, who);
      return Ok(world.record);
    }
  }

  /** Between two points the writes of a script were made, all of them when it succeeded
      and otherwise some first part of them. */
  predicate Did(before: seq<Op>, after: seq<Op>, script: seq<Op>, ok: bool) {
    && before <= after <= before + script
    && (ok ==> after == before + script)
  }

  /** A middle part of a script, done after the parts before it. */
  lemma {:induction false} DidPart(t0: seq<Op>, done: seq<Op>, part: seq<Op>, rest: seq<Op>, t: seq<Op>, t': seq<Op>, ok: bool)
    requires t == t0 + done && Did(t, t', part, ok)
    ensures t0 <= t' <= t0 + (done + part + rest)
    ensures ok ==> t' == t0 + (done + part)
  {
    assert t + part + rest == t0 + (done + part + rest);
    assert t + part == t0 + (done + part);
  }

  lemma {:induction false} DidFirst(t0: seq<Op>, part: seq<Op>, next: seq<Op>, rest: seq<Op>, t: seq<Op>, ok: bool)
    requires Did(t0, t, part, ok)
    ensures t0 <= t <= t0 + (part + next + rest)
    ensures t0 <= t <= t0 + (part + next)
    ensures ok ==> t == t0 + part
  {
    assert t0 + part + next == t0 + (part + next);
    assert t0 + (part + next) + rest == t0 + (part + next + rest);
  }

  lemma {:induction false} DidOneOfTwo(t0: seq<Op>, t: seq<Op>, first: Op, second: Op, ok: bool)
    requires Did(t0, t, [first], ok)
    ensures t0 <= t <= t0 + [first, second]
  {
    assert t0 + [first] + [second] == t0 + [first, second];
  }

  lemma {:induction false} DidTwo(t0: seq<Op>, t1: seq<Op>, t: seq<Op>, first: Op, second: Op, ok: bool)
    requires t1 == t0 + [first] && Did(t1, t, [second], ok)
    ensures Did(t0, t, [first, second], ok)
  {
    assert t1 + [second] == t0 + [first, second];
  }

  lemma {:induction false} ApplySnoc(w: World, ops: seq<Op>, op: Op)
    ensures ApplyAll(w, ops + [op]) == Apply(ApplyAll(w, ops), op)
  {
    assert (ops + [op])[..|ops|] == ops;
  }

  /** One more write on top of a script. */
  lemma {:induction false} Extends(start: World, trace: seq<Op>, w: World, op: Op, w': World)
    requires w == ApplyAll(start, trace) && w' == Apply(w, op)
    ensures w' == ApplyAll(start, trace + [op]) && |w'.record.stages| == |w.record.stages|
    ensures Did(trace, trace + [op], [op], true)
  {
    ApplySnoc(start, trace, op);
  }

  lemma {:induction false} AdvanceSnoc(stages: seq<nat>, n: nat)
    requires n < |stages|
    ensures Advance(stages[..n + 1]) == Advance(stages[..n]) + Simulated(stages[n])
  {
    assert stages[..n + 1][..n] == stages[..n];
  }

  lemma {:induction false} AdvancePrefix(stages: seq<nat>, n: nat)
    requires n <= |stages|
    ensures Advance(stages[..n]) <= Advance(stages)
    decreases |stages| - n
  {
    if n < |stages| {
      AdvancePrefix(stages, n + 1);
      assert stages[..n + 1][..n] == stages[..n];
    } else {
      assert stages[..n] == stages;
    }
  }

  // ----- every reachable state -----

  /** A deployment record as it is created, its pull request open if it has one. */
  predicate Fresh(w: World) {
    && |w.record.stages| == STAGE_COUNT
    && (forall k :: 0 <= k < STAGE_COUNT ==> w.record.stages[k] == StageResult(PENDING, None, None, None))
    && w.record.status == Pending && w.record.approvedBy == None
    && w.pr == (if w.record.pullRequest.Some? then Open else NoPullRequest)
  }

  // ----- how far a deployment has got -----

  /** Before the gate; turning it down; turned down; cleared by it; past it; the version
      live; all done. */
  datatype Phase = Checking | Closing | Refused | Cleared | Going | Live | Done

  /** The number of stages that are over, whether the next one is running, the phase. */
  datatype Progress = Progress(n: nat, running: bool, phase: Phase)

  /** Whether anything beyond the gate may happen: not before a manual approval. */
  predicate MayGo(r: Record) {
    !r.manual || r.approvedBy.Some?
  }

  predicate Early(phase: Phase) {
    phase.Checking? || phase.Closing?
  }

  /** The meaning of a progress: stages are over, running and pending in order; the
      status, live version and pull request are those of the phase. */
  predicate Reached(w: World, live: Option<int>, at: Progress) {
    var r, n := w.record, at.n;
    && |r.stages| == STAGE_COUNT && n <= STAGE_COUNT && (at.running ==> n < STAGE_COUNT)
    && (forall k :: 0 <= k < n ==> Terminal(r.stages[k].status))
    && (at.running ==> r.stages[n].status == RUNNING)
    && (forall k :: n <= k < STAGE_COUNT && !(at.running && k == n) ==> r.stages[k].status == PENDING)
    && (if Early(at.phase) then n <= POLICY_CHECK else n > POLICY_CHECK)
    && match at.phase
       case Checking => r.status == Pending && w.live == live && (w.pr.Open? || w.pr.NoPullRequest?)
       case Closing => r.status == Pending && w.live == live && !w.pr.Merged?
       case Refused => r.status == Blocked && w.live == live && !w.pr.Merged?
                       && n == 8 && !at.running && r.stages[POLICY_CHECK].status == BLOCKED
       case Cleared => Underway(r) && w.live == live && (w.pr.Open? || w.pr.NoPullRequest?)
                       && n == 8 && !at.running && r.stages[POLICY_CHECK].status == PASSED
       case Going => Underway(r) && w.live == live && !w.pr.Closed? && MayGo(r) && r.stages[POLICY_CHECK].status == PASSED
       case Live => Underway(r) && w.live == Some(r.version) && !w.pr.Closed? && MayGo(r)
                    && r.stages[POLICY_CHECK].status == PASSED
       case Done => r.status == Active && w.live == Some(r.version) && !w.pr.Closed? && MayGo(r)
                    && n == STAGE_COUNT && r.stages[POLICY_CHECK].status == PASSED
  }

  predicate Underway(r: Record) {
    r.status == Pending || r.status == PendingApproval
  }

  /** The phase after one write, if the write is in order. */
  function PhaseAfter(r: Record, phase: Phase, op: Op): Option<Phase> {
    match op
    case MergePr => if phase.Cleared? && MayGo(r) then Some(Going) else None
    case ClosePr => if phase.Checking? then Some(Closing) else None
    case MarkBlocked => if Early(phase) then Some(Closing) else None
    case MarkActive(v) => if phase.Going? && v == r.version then Some(Live) else None
    case SetStage(i, status, _, overall, _) =>
      if i < POLICY_CHECK && overall.None? && phase.Checking? then Some(Checking)
      else if i == POLICY_CHECK && status.RUNNING? && overall.None? && phase.Checking? then Some(Checking)
      else if i == POLICY_CHECK && status.PASSED? && overall.None? && phase.Checking? then Some(Cleared)
      else if i == POLICY_CHECK && status.PASSED? && overall == Some(PendingApproval) && phase.Cleared? then Some(Cleared)
      else if i == POLICY_CHECK && status.BLOCKED? && overall == Some(Blocked) && Early(phase) then Some(Refused)
      else if POLICY_CHECK < i < HEALTH_CHECK && overall.None? && (phase.Cleared? || phase.Going?) && MayGo(r) then Some(Going)
      else if i == HEALTH_CHECK && status.PASSED? && overall == Some(Active) && phase.Live? then Some(Done)
      else None
  }

  /** The progress after one write, if the write respects the order of stages. */
  function Moved(r: Record, at: Progress, op: Op): Option<Progress> {
    var phase := PhaseAfter(r, at.phase, op);
    if phase.None? then None
    else if !op.SetStage? then Some(at.(phase := phase.value))
    else if op.status.RUNNING? then
      if op.stage == at.n < STAGE_COUNT && !at.running then Some(Progress(at.n, true, phase.value)) else None
    else if !Terminal(op.status) then None
    else if op.stage == at.n < STAGE_COUNT then Some(Progress(at.n + 1, false, phase.value))
    else if op.stage + 1 == at.n <= STAGE_COUNT && !at.running && phase.value.Cleared? then Some(at)
    else None
  }

  function MovedBy(r: Record, from: Option<Progress>, ops: seq<Op>): Option<Progress> {
    if ops == [] then from
    else
      var at := MovedBy(r, from, ops[..|ops| - 1]);
      if at.None? then None else Moved(r, at.value, ops[|ops| - 1])
  }

  lemma {:induction false} MovedByConcat(r: Record, from: Option<Progress>, a: seq<Op>, b: seq<Op>)
    ensures MovedBy(r, from, a + b) == MovedBy(r, MovedBy(r, from, a), b)
  {
    if b == [] {
      assert a + b == a;
    } else {
      var b', last := b[..|b| - 1], b[|b| - 1];
      assert (a + b)[..|a + b| - 1] == a + b';
      MovedByConcat(r, from, a, b');
    }
  }

  /** A first part of an orderly script is orderly. */
  lemma {:induction false} MovedByPrefix(r: Record, from: Option<Progress>, t: seq<Op>, rest: seq<Op>)
    requires MovedBy(r, from, t + rest).Some?
    ensures MovedBy(r, from, t).Some?
  {
    if rest == [] {
      assert t + rest == t;
    } else {
      assert (t + rest)[..|t + rest| - 1] == t + rest[..|rest| - 1];
      MovedByPrefix(r, from, t, rest[..|rest| - 1]);
    }
  }

  /** What no write changes. */
  predicate SameIdentity(r: Record, r': Record) {
    r'.manual == r.manual && r'.approvedBy == r.approvedBy && r'.version == r.version && r'.pullRequest == r.pullRequest
  }

  lemma {:induction false} CallMoves(w: World, live: Option<int>, r: Record, at: Progress, op: Op)
    requires Reached(w, live, at) && SameIdentity(r, w.record) && Moved(r, at, op).Some? && !op.SetStage?
    ensures Reached(Apply(w, op), live, Moved(r, at, op).value)
  {
  }

  lemma {:induction false} StageMoves(w: World, live: Option<int>, r: Record, at: Progress, op: Op)
    requires Reached(w, live, at) && SameIdentity(r, w.record) && Moved(r, at, op).Some? && op.SetStage?
    ensures Reached(Apply(w, op), live, Moved(r, at, op).value)
  {
  }

  /** An orderly write takes the world to the next progress. */
  lemma {:induction false} ReachedMoves(w: World, live: Option<int>, r: Record, at: Progress, op: Op)
    requires Reached(w, live, at) && SameIdentity(r, w.record) && Moved(r, at, op).Some?
    ensures Reached(Apply(w, op), live, Moved(r, at, op).value)
    ensures SameIdentity(r, Apply(w, op).record)
  {
    if op.SetStage? {
      StageMoves(w, live, r, at, op);
    } else {
      CallMoves(w, live, r, at, op);
    }
  }

  lemma {:induction false} ReachedFollows(w: World, live: Option<int>, r: Record, at: Progress, ops: seq<Op>)
    requires Reached(w, live, at) && SameIdentity(r, w.record) && MovedBy(r, Some(at), ops).Some?
    ensures Reached(ApplyAll(w, ops), live, MovedBy(r, Some(at), ops).value)
    ensures SameIdentity(r, ApplyAll(w, ops).record)
  {
    if ops != [] {
      var before := ops[..|ops| - 1];
      ReachedFollows(w, live, r, at, before);
      ReachedMoves(ApplyAll(w, before), live, r, MovedBy(r, Some(at), before).value, ops[|ops| - 1]);
    }
  }

  // ----- the scripts are orderly -----

  lemma {:induction false} MovedByOne(r: Record, at: Progress, op: Op)
    ensures MovedBy(r, Some(at), [op]) == Moved(r, at, op)
  {
    assert [op][..0] == [];
  }

  lemma {:induction false} MovedByTwo(r: Record, at: Progress, a: Op, b: Op)
    requires Moved(r, at, a).Some?
    ensures MovedBy(r, Some(at), [a, b]) == Moved(r, Moved(r, at, a).value, b)
  {
    assert [a, b][..1] == [a];
    MovedByOne(r, at, a);
  }

  /** Consecutive fabricated stages on one side of the gate. */
  lemma {:induction false} AdvanceMoves(r: Record, stages: seq<nat>, at: Progress)
    requires !at.running && stages != [] && at.n + |stages| <= HEALTH_CHECK
    requires forall k :: 0 <= k < |stages| ==> stages[k] == at.n + k
    requires || (at.phase.Checking? && at.n + |stages| <= POLICY_CHECK)
             || ((at.phase.Cleared? || at.phase.Going?) && MayGo(r) && at.n > POLICY_CHECK)
    ensures MovedBy(r, Some(at), Advance(stages)) ==
            Some(Progress(at.n + |stages|, false, if at.phase.Checking? then Checking else Going))
  {
    var m := |stages| - 1;
    var before, next := stages[..m], at;
    if m > 0 {
      AdvanceMoves(r, before, at);
      next := Progress(at.n + m, false, if at.phase.Checking? then Checking else Going);
    }
    MovedByConcat(r, Some(at), Advance(before), Simulated(stages[m]));
    MovedByTwo(r, next, Simulated(stages[m])[0], Simulated(stages[m])[1]);
  }

  lemma {:induction false} FinishMoves(r: Record, i: Inputs)
    requires MayGo(r)
    ensures MovedBy(r, Some(Progress(8, false, Cleared)), FinishScript(r, i)) == Some(Progress(STAGE_COUNT, false, Done))
  {
    var at := Progress(8, false, Cleared);
    var s1, s2, s3 := IfPr(r, i, MergePr), Advance([8, 9]), LiveScript(r);
    MovedByConcat(r, Some(at), s1 + s2, s3);
    MovedByConcat(r, Some(at), s1, s2);
    MovedByOne(r, at, MergePr);
    AdvanceMoves(r, [8, 9], at);
    AdvanceMoves(r, [8, 9], at.(phase := Going));
    MovedByTwo(r, Progress(10, false, Going), s3[0], s3[1]);
  }

  lemma {:induction false} ScanningMoves(r: Record, scan: Scan)
    ensures MovedBy(r, Some(Progress(3, false, Checking)), ScanningScript(scan)) == Some(Progress(7, false, Checking))
  {
    var at := Progress(3, false, Checking);
    var s1, s2, s3, s4 := SecurityScript(scan), Advance([4]), ValidateScript(scan), Advance([6]);
    MovedByConcat(r, Some(at), s1 + s2 + s3, s4);
    MovedByConcat(r, Some(at), s1 + s2, s3);
    MovedByConcat(r, Some(at), s1, s2);
    MovedByTwo(r, at, s1[0], s1[1]);
    AdvanceMoves(r, [4], at.(n := 4));
    MovedByOne(r, at.(n := 5), s3[0]);
    AdvanceMoves(r, [6], at.(n := 6));
  }

  lemma {:induction false} GateMoves(r: Record, i: Inputs, scan: Scan)
    ensures MovedBy(r, Some(Progress(7, false, Checking)), GateScript(r, i, scan)) ==
            Some(Progress(8, false, if scan.block then Refused else Cleared))
  {
    var at := Progress(7, false, Checking);
    var s := GateScript(r, i, scan);
    if scan.block {
      var s1, s2 := IfPr(r, i, ClosePr), s[|s| - 2..];
      assert s == s1 + s2;
      MovedByConcat(r, Some(at), s1, s2);
      MovedByOne(r, at, ClosePr);
      MovedByTwo(r, at, s2[0], s2[1]);
      MovedByTwo(r, at.(phase := Closing), s2[0], s2[1]);
    } else {
      MovedByOne(r, at, s[0]);
    }
  }

  lemma {:induction false} CheckMoves(r: Record, i: Inputs)
    ensures MovedBy(r, Some(Progress(3, false, Checking)), CheckScript(r, i)) ==
            Some(Progress(8, false, if Blocks(i) then Refused else Cleared))
  {
    var at := Progress(3, false, Checking);
    match i.scan
    case None =>
      MovedByConcat(r, Some(at), Advance([3, 4, 5, 6]), Advance([7]));
      AdvanceMoves(r, [3, 4, 5, 6], at);
      assert Advance([7]) == Simulated(7) by {
        assert [7][..0] == [];
      }
      MovedByTwo(r, at.(n := 7), Simulated(7)[0], Simulated(7)[1]);
    case Some(scan) =>
      MovedByConcat(r, Some(at), ScanningScript(scan), GateScript(r, i, scan));
      ScanningMoves(r, scan);
      GateMoves(r, i, scan);
  }

  lemma {:induction false} EndMoves(r: Record, i: Inputs)
    requires !Blocks(i)
    ensures MovedBy(r, Some(Progress(8, false, Cleared)), EndScript(r, i)) ==
            Some(if r.manual then Progress(8, false, Cleared) else Progress(STAGE_COUNT, false, Done))
  {
    if r.manual {
      MovedByOne(r, Progress(8, false, Cleared), EndScript(r, i)[0]);
    } else {
      FinishMoves(r, i);
    }
  }

  lemma {:induction false} BeginMoves(r: Record, i: Inputs)
    ensures MovedBy(r, Some(Progress(0, false, Checking)), Advance([0, 1, 2]) + CheckScript(r, i)) ==
            Some(Progress(8, false, if Blocks(i) then Refused else Cleared))
  {
    var at := Progress(0, false, Checking);
    MovedByConcat(r, Some(at), Advance([0, 1, 2]), CheckScript(r, i));
    AdvanceMoves(r, [0, 1, 2], at);
    CheckMoves(r, i);
  }

  /** Where a run without failures ends. */
  function EndOf(r: Record, i: Inputs): Progress {
    if Blocks(i) then Progress(8, false, Refused)
    else if r.manual then Progress(8, false, Cleared) else Progress(STAGE_COUNT, false, Done)
  }

  /** A run's writes respect the stage order and the gate, from the first to the last. */
  lemma {:induction false} RunMoves(r: Record, i: Inputs)
    ensures MovedBy(r, Some(Progress(0, false, Checking)), RunScript(r, i)) == Some(EndOf(r, i))
  {
    var begin := Advance([0, 1, 2]) + CheckScript(r, i);
    MovedByConcat(r, Some(Progress(0, false, Checking)), begin, EndScript(r, i));
    BeginMoves(r, i);
    if Blocks(i) {
      assert begin + EndScript(r, i) == begin;
    } else {
      EndMoves(r, i);
    }
  }

  // ----- what holds in every reachable state -----

  lemma {:induction false} SameScript(r: Record, r': Record, i: Inputs)
    requires r'.version == r.version && r'.pullRequest == r.pullRequest
    ensures FinishScript(r, i) == FinishScript(r', i)
  {}

  /** What is promised of any state a deployment of w can be in: the stages that have
      begun are a first part of the stage order with at most the last of them running;
      ACTIVE means the policy check passed, this version is live, the pull request was not
      closed and a manual run was approved; BLOCKED means the check blocked, nothing was
      merged or made live and no later stage began; until a manual run is approved nothing
      beyond the gate happens; and nothing is merged or made live before the gate. */
  ghost predicate Safe(w: World, w': World) {
    var r := w'.record;
    && |r.stages| == STAGE_COUNT
    && (exists n: nat :: InOrder(r.stages, n))
    && (r.status == Active ==>
          && r.stages[POLICY_CHECK].status == PASSED && w'.live == Some(r.version) && !w'.pr.Closed?
          && (r.manual ==> r.approvedBy.Some?)
          && forall k :: 0 <= k < STAGE_COUNT ==> Terminal(r.stages[k].status))
    && (r.status == Blocked ==>
          && r.stages[POLICY_CHECK].status == BLOCKED && w'.live == w.live && !w'.pr.Merged?
          && forall k :: POLICY_CHECK < k < STAGE_COUNT ==> r.stages[k].status == PENDING)
    && (r.manual && r.approvedBy.None? ==>
          && w'.live == w.live && !w'.pr.Merged?
          && forall k :: POLICY_CHECK < k < STAGE_COUNT ==> r.stages[k].status == PENDING)
    && (w'.pr.Merged? || w'.live != w.live ==> r.stages[POLICY_CHECK].status == PASSED)
  }

  /** The first n stages have begun, all but the last of them are over, the rest have not. */
  predicate InOrder(stages: seq<StageResult>, n: nat) {
    && n <= |stages|
    && (forall k :: 0 <= k < n - 1 ==> Terminal(stages[k].status))
    && (n > 0 ==> Terminal(stages[n - 1].status) || stages[n - 1].status == RUNNING)
    && (forall k :: n <= k < |stages| ==> stages[k].status == PENDING)
  }

  lemma {:induction false} ReachedIsSafe(w: World, w': World, at: Progress)
    requires Reached(w', w.live, at)
    ensures Safe(w, w')
  {
    assert InOrder(w'.record.stages, if at.running then at.n + 1 else at.n);
  }

  // ----- the validate stage does not gate -----

  /** Writes that leave the validate stage alone. */
  predicate SparesValidate(ops: seq<Op>) {
    forall op :: op in ops && op.SetStage? ==> op.stage != TERRAFORM_VALIDATE
  }

  lemma {:induction false} ValidateSpared(w: World, ops: seq<Op>)
    requires |w.record.stages| == STAGE_COUNT && SparesValidate(ops)
    ensures |ApplyAll(w, ops).record.stages| == STAGE_COUNT
    ensures ApplyAll(w, ops).record.stages[TERRAFORM_VALIDATE] == w.record.stages[TERRAFORM_VALIDATE]
  {
    if ops != [] {
      assert forall op :: op in ops[..|ops| - 1] ==> op in ops;
      ValidateSpared(w, ops[..|ops| - 1]);
      assert ops[|ops| - 1] in ops;
    }
  }

  lemma {:induction false} ApplyConcat(w: World, a: seq<Op>, b: seq<Op>)
    ensures ApplyAll(w, a + b) == ApplyAll(ApplyAll(w, a), b)
  {
    if b == [] {
      assert a + b == a;
    } else {
      assert (a + b)[..|a + b| - 1] == a + b[..|b| - 1];
      ApplyConcat(w, a, b[..|b| - 1]);
    }
  }

  lemma {:induction false} AdvanceSpares(stages: seq<nat>)
    requires TERRAFORM_VALIDATE !in stages
    ensures SparesValidate(Advance(stages))
  {
    if stages != [] {
      AdvanceSpares(stages[..|stages| - 1]);
      assert stages[|stages| - 1] in stages;
    }
  }

  function BeforeValidate(scan: Scan): seq<Op> {
    Advance([0, 1, 2]) + (SecurityScript(scan) + Advance([4]))
  }

  function AfterValidate(r: Record, i: Inputs, scan: Scan): seq<Op> {
    Advance([6]) + (GateScript(r, i, scan) + EndScript(r, i))
  }

  lemma {:induction false} AroundValidate(r: Record, i: Inputs)
    requires i.scan.Some?
    ensures var scan := i.scan.value;
            RunScript(r, i) == BeforeValidate(scan) + (ValidateScript(scan) + AfterValidate(r, i, scan))
  {
    var scan := i.scan.value;
    var s0, s1, s2, s3 := Advance([0, 1, 2]), SecurityScript(scan), Advance([4]), ValidateScript(scan);
    var s4, s5, s6 := Advance([6]), GateScript(r, i, scan), EndScript(r, i);
    assert s0 + ((s1 + s2 + s3 + s4) + s5) + s6 == (s0 + (s1 + s2)) + (s3 + (s4 + (s5 + s6)));
  }

  lemma {:induction false} LaterWritesSpare(r: Record, i: Inputs, scan: Scan)
    ensures SparesValidate(AfterValidate(r, i, scan))
  {
    AdvanceSpares([6]);
    AdvanceSpares([8, 9]);
  }

  /** An automated run that is not blocked and meets no failure ends ACTIVE whether or not
      terraform validate passed; the stage records FAILED exactly when it did not. */
  lemma {:induction false} ValidateDoesNotGate(w: World, i: Inputs)
    requires Fresh(w) && !w.record.manual && i.scan.Some? && !Blocks(i)
    ensures var w' := ApplyAll(w, RunScript(w.record, i));
            && w'.record.status == Active && |w'.record.stages| == STAGE_COUNT
            && (w'.record.stages[TERRAFORM_VALIDATE].status == FAILED <==> !i.scan.value.validatePassed)
  {
    var r, scan, at := w.record, i.scan.value, Progress(0, false, Checking);
    var before, after := BeforeValidate(scan), AfterValidate(r, i, scan);
    AroundValidate(r, i);
    RunMoves(r, i);
    ReachedFollows(w, w.live, r, at, RunScript(r, i));
    MovedByPrefix(r, Some(at), before, ValidateScript(scan) + after);
    ReachedFollows(w, w.live, r, at, before);
    ApplyConcat(w, before, ValidateScript(scan) + after);
    ApplyConcat(ApplyAll(w, before), ValidateScript(scan), after);
    ApplySnoc(ApplyAll(w, before), [], ValidateScript(scan)[0]);
    assert [] + [ValidateScript(scan)[0]] == ValidateScript(scan);
    LaterWritesSpare(r, i, scan);
    ValidateSpared(ApplyAll(ApplyAll(w, before), ValidateScript(scan)), after);
  }

  // ----- what one write does, field by field -----

  /** The entry: when it first ran, when it ended, and a summary kept unless replaced. The
      record: where it stands, and the status or failure given. Nothing beside them. */
  lemma {:induction false} WriteIs(w: World, stage: nat, status: StageStatus, summary: Option<string>,
                                   overall: Option<Overall>, failure: Option<string>)
    requires stage < |w.record.stages|
    ensures var w' := Apply(w, SetStage(stage, status, summary, overall, failure));
            var r, r' := w.record, w'.record;
            && |r'.stages| == |r.stages| && (forall k :: 0 <= k < |r.stages| && k != stage ==> r'.stages[k] == r.stages[k])
            && var was, now := r.stages[stage], r'.stages[stage];
            && now.status == status
            && now.startedAt == (if was.startedAt == None && status == RUNNING then Some(w.clock) else was.startedAt)
            && now.completedAt == (if status in {PASSED, FAILED, SKIPPED, BLOCKED} then Some(w.clock) else was.completedAt)
            && now.summary == (if summary == None then was.summary else summary)
            && r'.currentStage == stage
            && (forall s :: overall == Some(s) ==> r'.status == s) && (overall == None ==> r'.status == r.status)
            && (failure != None ==> r'.failureReason == failure && r'.failedStage == Some(stage))
            && (failure == None ==> r'.failureReason == r.failureReason && r'.failedStage == r.failedStage)
            && r'.version == r.version && r'.manual == r.manual && r'.pullRequest == r.pullRequest && r'.approvedBy == r.approvedBy
            && w'.live == w.live && w'.agent == w.agent && w'.pr == w.pr && w'.clock == w.clock + 1
  {}

  /** The calls: an open request is merged or closed and any other left; a blocked agent
      falls back on its live version if it has one; an activated one has the version live. */
  lemma {:induction false} CallIs(w: World, version: int)
    ensures Apply(w, MergePr) == w.(clock := w.clock + 1, pr := if w.pr == Open then Merged else w.pr)
    ensures Apply(w, ClosePr) == w.(clock := w.clock + 1, pr := if w.pr == Open then Closed else w.pr)
    ensures Apply(w, MarkBlocked) == w.(clock := w.clock + 1, agent := if w.live == None then AgentBlocked else AgentActive)
    ensures Apply(w, MarkActive(version)) == w.(clock := w.clock + 1, agent := AgentActive, live := Some(version))
  {}

  // ----- how a run without failures ends -----

  /** Writes of a stage entry alone. */
  predicate EntriesOnly(ops: seq<Op>) {
    forall op :: op in ops ==> op.SetStage? && op.overall == None && op.failure == None
  }

  predicate SameBut(w: World, w': World) {
    && w'.record == w.record.(stages := w'.record.stages, currentStage := w'.record.currentStage)
    && w' == w.(record := w'.record, clock := w'.clock) && |w'.record.stages| == |w.record.stages|
  }

  lemma {:induction false} EntriesKeep(w: World, ops: seq<Op>)
    requires EntriesOnly(ops)
    ensures SameBut(w, ApplyAll(w, ops))
  {
    if ops != [] {
      assert ops[|ops| - 1] in ops && forall op :: op in ops[..|ops| - 1] ==> op in ops;
      EntriesKeep(w, ops[..|ops| - 1]);
    }
  }

  lemma {:induction false} AdvanceIsEntries(stages: seq<nat>)
    ensures EntriesOnly(Advance(stages))
  {
    if stages != [] {
      AdvanceIsEntries(stages[..|stages| - 1]);
    }
  }

  /** The writes up to the gate's own. */
  function UpToGate(i: Inputs): seq<Op> {
    Advance([0, 1, 2]) + if i.scan.None? then Advance([3, 4, 5, 6]) + Advance([7]) else ScanningScript(i.scan.value)
  }

  lemma {:induction false} UpToGateKeeps(w: World, i: Inputs)
    ensures SameBut(w, ApplyAll(w, UpToGate(i)))
  {
    UpToGateIsEntries(i);
    EntriesKeep(w, UpToGate(i));
  }

  lemma {:induction false} UpToGateIsEntries(i: Inputs)
    ensures EntriesOnly(UpToGate(i))
  {
    AdvanceIsEntries([0, 1, 2]);
    if i.scan.None? {
      AdvanceIsEntries([3, 4, 5, 6]);
      AdvanceIsEntries([7]);
    } else {
      ScanIsEntries(i.scan.value);
    }
  }

  lemma {:induction false} ScanIsEntries(scan: Scan)
    ensures EntriesOnly(ScanningScript(scan))
  {
    AdvanceIsEntries([4]);
    AdvanceIsEntries([6]);
  }

  /** The gate's own writes of a scanned run. */
  function AtGate(r: Record, i: Inputs): seq<Op> {
    if i.scan.None? then [] else GateScript(r, i, i.scan.value)
  }

  lemma {:induction false} RunInParts(r: Record, i: Inputs)
    ensures RunScript(r, i) == UpToGate(i) + (AtGate(r, i) + EndScript(r, i))
  {
    var s0, s1, s2 := Advance([0, 1, 2]), CheckScript(r, i), EndScript(r, i);
    var t := if i.scan.None? then Advance([3, 4, 5, 6]) + Advance([7]) else ScanningScript(i.scan.value);
    var gate := AtGate(r, i);
    assert s1 == t + gate;
    assert s0 + (t + gate) + s2 == (s0 + t) + (gate + s2);
  }

  lemma {:induction false} ApplyOne(w: World, op: Op)
    ensures ApplyAll(w, [op]) == Apply(w, op)
  {
    assert [op][..0] == [];
  }

  lemma {:induction false} ApplyTwo(w: World, a: Op, b: Op)
    ensures ApplyAll(w, [a, b]) == Apply(Apply(w, a), b)
  {
    assert [a, b][..1] == [a];
    ApplyOne(w, a);
  }

  /** A request that is there, in a repository that is known. */
  predicate HasRequest(r: Record, i: Inputs) {
    r.pullRequest.Some? && i.repoKnown
  }

  lemma {:induction false} IfPrApplies(w: World, r: Record, i: Inputs, op: Op)
    ensures ApplyAll(w, IfPr(r, i, op)) == if HasRequest(r, i) then Apply(w, op) else w
  {
    ApplyOne(w, op);
  }

  lemma {:induction false} FinishEnds(w: World, r: Record, i: Inputs)
    requires |w.record.stages| == STAGE_COUNT
    ensures var w' := ApplyAll(w, FinishScript(r, i));
            && w'.pr == (if HasRequest(r, i) && w.pr == Open then Merged else w.pr)
            && w'.record.status == Active && w'.live == Some(r.version) && w'.agent == AgentActive
            && w'.record.failureReason == w.record.failureReason && w'.record.failedStage == w.record.failedStage
            && w'.record.currentStage == HEALTH_CHECK && w'.record.approvedBy == w.record.approvedBy
  {
    var health := SetStage(HEALTH_CHECK, PASSED, Some("[simulated]"), Some(Active), None);
    var s1, s2 := IfPr(r, i, MergePr), Advance([8, 9]);
    IfPrApplies(w, r, i, MergePr);
    ApplyConcat(w, s1, s2);
    AdvanceIsEntries([8, 9]);
    EntriesKeep(ApplyAll(w, s1), s2);
    var m := ApplyAll(w, s1 + s2);
    ApplyConcat(w, s1 + s2, LiveScript(r));
    ApplyTwo(m, MarkActive(r.version), health);
  }

  lemma {:induction false} BlockEnds(w: World, r: Record, i: Inputs, reason: string)
    requires |w.record.stages| == STAGE_COUNT
    ensures var w' := ApplyAll(w, BlockScript(r, i, reason));
            && w'.pr == (if HasRequest(r, i) && w.pr == Open then Closed else w.pr)
            && w'.record.status == Blocked && w'.live == w.live
            && w'.agent == (if w.live.Some? then AgentActive else AgentBlocked)
            && w'.record.failureReason == Some(reason) && w'.record.failedStage == Some(POLICY_CHECK)
  {
    var last := SetStage(POLICY_CHECK, BLOCKED, Some(reason), Some(Blocked), Some(reason));
    IfPrApplies(w, r, i, ClosePr);
    ApplyConcat(w, IfPr(r, i, ClosePr), [MarkBlocked, last]);
    ApplyTwo(ApplyAll(w, IfPr(r, i, ClosePr)), MarkBlocked, last);
  }

  /** A fresh run that meets no failure. Blocked by its scan, it ends BLOCKED for the scan's
      reason, its request closed, the live version as it was and the agent falling back on it.
      Else a manual run is parked for approval with its request open; and an automated one
      ends ACTIVE, its version live and its request merged. Without a request, or without a
      known repository, the request stays as it was. */
  lemma {:induction false} RunEnds(w: World, i: Inputs)
    requires Fresh(w)
    ensures var w', r := ApplyAll(w, RunScript(w.record, i)), w.record;
            && (i.scan.Some? && i.scan.value.block ==>
                  && w'.pr == (if r.pullRequest.Some? && i.repoKnown then Closed else w.pr)
                  && w'.record.status == Blocked && w'.live == w.live
                  && w'.agent == (if w.live.Some? then AgentActive else AgentBlocked)
                  && w'.record.failureReason == Some(i.scan.value.reason) && w'.record.failedStage == Some(POLICY_CHECK))
            && (!(i.scan.Some? && i.scan.value.block) && r.manual ==>
                  && w'.pr == w.pr && w'.record.status == PendingApproval && w'.record.approvedBy == None
                  && w'.live == w.live && w'.agent == w.agent && w'.record.failureReason == r.failureReason)
            && (!(i.scan.Some? && i.scan.value.block) && !r.manual ==>
                  && w'.pr == (if r.pullRequest.Some? && i.repoKnown then Merged else w.pr)
                  && w'.record.status == Active && w'.live == Some(r.version) && w'.agent == AgentActive
                  && w'.record.failureReason == r.failureReason)
  {
    var r := w.record;
    UpToGateKeeps(w, i);
    RunPasses(w, r, i);
    var w1 := ApplyAll(w, UpToGate(i));
    if i.scan.Some? && i.scan.value.block {
      BlockEnds(w1, r, i, i.scan.value.reason);
    } else {
      EntriesKeep(w1, AtGate(r, i));
      EndEnds(ApplyAll(w1, AtGate(r, i)), r, i);
    }
  }

  lemma {:induction false} RunPasses(w: World, r: Record, i: Inputs)
    ensures ApplyAll(w, RunScript(r, i)) == ApplyAll(ApplyAll(ApplyAll(w, UpToGate(i)), AtGate(r, i)), EndScript(r, i))
  {
    RunInParts(r, i);
    ApplyConcat(w, UpToGate(i), AtGate(r, i) + EndScript(r, i));
    ApplyConcat(ApplyAll(w, UpToGate(i)), AtGate(r, i), EndScript(r, i));
  }

  lemma {:induction false} EndEnds(w: World, r: Record, i: Inputs)
    requires |w.record.stages| == STAGE_COUNT && !Blocks(i)
    ensures var w' := ApplyAll(w, EndScript(r, i));
            && (r.manual ==> w'.record.status == PendingApproval && w'.pr == w.pr && w'.live == w.live && w'.agent == w.agent
                             && w'.record.approvedBy == w.record.approvedBy && w'.record.failureReason == w.record.failureReason)
            && (!r.manual ==>
                  && w'.pr == (if HasRequest(r, i) && w.pr == Open then Merged else w.pr)
                  && w'.record.status == Active && w'.live == Some(r.version) && w'.agent == AgentActive
                  && w'.record.failureReason == w.record.failureReason)
  {
    if r.manual {
      ApplyOne(w, SetStage(POLICY_CHECK, PASSED, None, Some(PendingApproval), None));
    } else {
      FinishEnds(w, r, i);
    }
  }

  /** A resume that meets no failure: ACTIVE, this version live, and the open request merged. */
  lemma {:induction false} ResumeEnds(w: World, i: Inputs)
    requires |w.record.stages| == STAGE_COUNT
    ensures var w', r := ApplyAll(w, FinishScript(w.record, i)), w.record;
            && w'.pr == (if r.pullRequest.Some? && i.repoKnown && w.pr == Open then Merged else w.pr)
            && w'.record.status == Active && w'.live == Some(r.version) && w'.agent == AgentActive
            && w'.record.approvedBy == r.approvedBy
  {
    FinishEnds(w, w.record, i);
  }

  // ----- the stages at the end of such a run -----

  predicate Shows(e: StageResult, status: StageStatus, summary: Option<string>, started: bool) {
    e.status == status && e.summary == summary && (e.startedAt.Some? <==> started)
  }

  /** Stage k shows this after the writes, and there are as many stages as before. */
  predicate Then(w: World, ops: seq<Op>, k: nat, status: StageStatus, summary: Option<string>, started: bool)
    requires k < STAGE_COUNT
  {
    |ApplyAll(w, ops).record.stages| == STAGE_COUNT && Shows(ApplyAll(w, ops).record.stages[k], status, summary, started)
  }

  /** Consecutive fabricated stages, and any other. */
  lemma {:induction false} AdvanceLeaves(w: World, first: nat, stages: seq<nat>, k: nat)
    requires |w.record.stages| == STAGE_COUNT && k < STAGE_COUNT && first + |stages| <= STAGE_COUNT
    requires forall j :: 0 <= j < |stages| ==> stages[j] == first + j
    ensures var was := w.record.stages[k];
            if first <= k < first + |stages| then Then(w, Advance(stages), k, PASSED, Some("[simulated]"), true)
            else Then(w, Advance(stages), k, was.status, was.summary, was.startedAt.Some?)
    decreases |stages|
  {
    if stages != [] {
      var m := |stages| - 1;
      AdvanceLeaves(w, first, stages[..m], k);
      ApplyConcat(w, Advance(stages[..m]), Simulated(stages[m]));
      OneLeaves(ApplyAll(w, Advance(stages[..m])), stages[m], k);
    }
  }

  lemma {:induction false} OneLeaves(w: World, stage: nat, k: nat)
    requires |w.record.stages| == STAGE_COUNT && stage < STAGE_COUNT && k < STAGE_COUNT
    ensures var was := w.record.stages[k];
            if k == stage then Then(w, Simulated(stage), k, PASSED, Some("[simulated]"), true)
            else Then(w, Simulated(stage), k, was.status, was.summary, was.startedAt.Some?)
  {
    ApplyTwo(w, Mark(stage, RUNNING), Fabricated(stage));
  }

  lemma {:induction false} ScanLeaves(w: World, scan: Scan, k: nat)
    requires |w.record.stages| == STAGE_COUNT && k < STAGE_COUNT
    ensures var was, ops := w.record.stages[k], ScanningScript(scan);
            if k == 3 then Then(w, ops, k, PASSED, Some(scan.findings), true)
            else if k == 5 then Then(w, ops, k, if scan.validatePassed then PASSED else FAILED, Some(scan.report), was.startedAt.Some?)
            else if k == 4 || k == 6 then Then(w, ops, k, PASSED, Some("[simulated]"), true)
            else Then(w, ops, k, was.status, was.summary, was.startedAt.Some?)
  {
    var s1, s2, s3, s4 := SecurityScript(scan), Advance([4]), ValidateScript(scan), Advance([6]);
    ApplyConcat(w, s1 + s2 + s3, s4);
    ApplyConcat(w, s1 + s2, s3);
    ApplyConcat(w, s1, s2);
    ApplyTwo(w, s1[0], s1[1]);
    AdvanceLeaves(ApplyAll(w, s1), 4, [4], k);
    var w2 := ApplyAll(w, s1 + s2);
    ApplyOne(w2, s3[0]);
    AdvanceLeaves(ApplyAll(w2, s3), 6, [6], k);
  }

  lemma {:induction false} SimulatedLeaves(w: World, k: nat)
    requires |w.record.stages| == STAGE_COUNT && k < STAGE_COUNT
    ensures var was, ops := w.record.stages[k], Advance([3, 4, 5, 6]) + Advance([7]);
            if 3 <= k <= 7 then Then(w, ops, k, PASSED, Some("[simulated]"), true) else Then(w, ops, k, was.status, was.summary, was.startedAt.Some?)
  {
    AdvanceLeaves(w, 3, [3, 4, 5, 6], k);
    AdvanceLeaves(ApplyAll(w, Advance([3, 4, 5, 6])), 7, [7], k);
    ApplyConcat(w, Advance([3, 4, 5, 6]), Advance([7]));
  }

  lemma {:induction false} GateLeaves(w: World, r: Record, i: Inputs, scan: Scan, k: nat)
    requires |w.record.stages| == STAGE_COUNT && k < STAGE_COUNT
    ensures var was, ops := w.record.stages[k], GateScript(r, i, scan);
            if k == 7 then Then(w, ops, k, if scan.block then BLOCKED else PASSED, Some(scan.reason), was.startedAt.Some?)
            else Then(w, ops, k, was.status, was.summary, was.startedAt.Some?)
  {
    if scan.block {
      var last := SetStage(POLICY_CHECK, BLOCKED, Some(scan.reason), Some(Blocked), Some(scan.reason));
      IfPrApplies(w, r, i, ClosePr);
      ApplyConcat(w, IfPr(r, i, ClosePr), [MarkBlocked, last]);
      ApplyTwo(ApplyAll(w, IfPr(r, i, ClosePr)), MarkBlocked, last);
    } else {
      ApplyOne(w, SetStage(POLICY_CHECK, PASSED, Some(scan.reason), None, None));
    }
  }

  /** The stages up to the gate, when no call has failed so far. */
  lemma {:induction false} CheckLeaves(w: World, r: Record, i: Inputs, k: nat)
    requires |w.record.stages| == STAGE_COUNT && k < STAGE_COUNT
    ensures var was, ops := w.record.stages[k], CheckScript(r, i);
            if k < 3 || k > 7 then Then(w, ops, k, was.status, was.summary, was.startedAt.Some?)
            else if i.scan == None || k == 4 || k == 6 then Then(w, ops, k, PASSED, Some("[simulated]"), true)
            else if k == 3 then Then(w, ops, k, PASSED, Some(i.scan.value.findings), true)
            else if k == 5 then Then(w, ops, k, if i.scan.value.validatePassed then PASSED else FAILED, Some(i.scan.value.report), was.startedAt.Some?)
            else Then(w, ops, k, if i.scan.value.block then BLOCKED else PASSED, Some(i.scan.value.reason), was.startedAt.Some?)
  {
    if i.scan.None? {
      SimulatedLeaves(w, k);
    } else {
      var scan := i.scan.value;
      ScanLeaves(w, scan, k);
      ApplyConcat(w, ScanningScript(scan), GateScript(r, i, scan));
      GateLeaves(ApplyAll(w, ScanningScript(scan)), r, i, scan, k);
    }
  }

  lemma {:induction false} FinishLeaves(w: World, r: Record, i: Inputs, k: nat)
    requires |w.record.stages| == STAGE_COUNT && k < STAGE_COUNT
    ensures var was, ops := w.record.stages[k], FinishScript(r, i);
            if k < 8 then Then(w, ops, k, was.status, was.summary, was.startedAt.Some?)
            else Then(w, ops, k, PASSED, Some("[simulated]"), k < 10 || was.startedAt.Some?)
  {
    var s1, s2 := IfPr(r, i, MergePr), Advance([8, 9]);
    IfPrApplies(w, r, i, MergePr);
    ApplyConcat(w, s1, s2);
    AdvanceLeaves(ApplyAll(w, s1), 8, [8, 9], k);
    ApplyConcat(w, s1 + s2, LiveScript(r));
    LiveLeaves(ApplyAll(w, s1 + s2), r, k);
  }

  lemma {:induction false} LiveLeaves(w: World, r: Record, k: nat)
    requires |w.record.stages| == STAGE_COUNT && k < STAGE_COUNT
    ensures var was := w.record.stages[k];
            if k == 10 then Then(w, LiveScript(r), k, PASSED, Some("[simulated]"), was.startedAt.Some?)
            else Then(w, LiveScript(r), k, was.status, was.summary, was.startedAt.Some?)
  {
    ApplyTwo(w, LiveScript(r)[0], LiveScript(r)[1]);
  }

  lemma {:induction false} EndLeaves(w: World, r: Record, i: Inputs, k: nat)
    requires |w.record.stages| == STAGE_COUNT && k < STAGE_COUNT
    ensures var was, ops := w.record.stages[k], EndScript(r, i);
            if !Blocks(i) && !r.manual && k >= 8 then Then(w, ops, k, PASSED, Some("[simulated]"), k < 10 || was.startedAt.Some?)
            else if !Blocks(i) && r.manual && k == 7 then Then(w, ops, k, PASSED, was.summary, was.startedAt.Some?)
            else Then(w, ops, k, was.status, was.summary, was.startedAt.Some?)
  {
    if Blocks(i) {
      assert EndScript(r, i) == [];
    } else if r.manual {
      ApplyOne(w, SetStage(POLICY_CHECK, PASSED, None, Some(PendingApproval), None));
    } else {
      FinishLeaves(w, r, i, k);
    }
  }

  /** Stage k at the end of a run without failures: the real ones with what the scan, the
      validation and the gate said, every other one passed and marked simulated, and nothing
      after the gate unless the run went on to its end. The real validation and gate and the
      last stage are never marked running, so they have no start time. */
  lemma {:induction false} RunLeaves(w: World, i: Inputs, k: nat)
    requires Fresh(w) && k < 11
    ensures |ApplyAll(w, RunScript(w.record, i)).record.stages| == 11
    ensures var now := ApplyAll(w, RunScript(w.record, i)).record.stages[k];
            if k >= 8 && (w.record.manual || (i.scan.Some? && i.scan.value.block)) then Shows(now, PENDING, None, false)
            else if i.scan.Some? && k == 3 then Shows(now, PASSED, Some(i.scan.value.findings), true)
            else if i.scan.Some? && k == 5 then
              Shows(now, if i.scan.value.validatePassed then PASSED else FAILED, Some(i.scan.value.report), false)
            else if i.scan.Some? && k == 7 then
              Shows(now, if i.scan.value.block then BLOCKED else PASSED, Some(i.scan.value.reason), false)
            else Shows(now, PASSED, Some("[simulated]"), k < 10)
  {
    var r, begin := w.record, Advance([0, 1, 2]) + CheckScript(w.record, i);
    AdvanceLeaves(w, 0, [0, 1, 2], k);
    var w1 := ApplyAll(w, Advance([0, 1, 2]));
    CheckLeaves(w1, r, i, k);
    ApplyConcat(w, Advance([0, 1, 2]), CheckScript(r, i));
    var w2 := ApplyAll(w, begin);
    EndLeaves(w2, r, i, k);
    ApplyConcat(w, begin, EndScript(r, i));
  }

  /** A resume without failures adds the last three stages and leaves the others. */
  lemma {:induction false} ResumeLeaves(w: World, i: Inputs, k: nat)
    requires |w.record.stages| == STAGE_COUNT && k < 11
    ensures |ApplyAll(w, FinishScript(w.record, i)).record.stages| == 11
    ensures var was, now := w.record.stages[k], ApplyAll(w, FinishScript(w.record, i)).record.stages[k];
            if k < 8 then Shows(now, was.status, was.summary, was.startedAt.Some?)
            else Shows(now, PASSED, Some("[simulated]"), k < 10 || was.startedAt.Some?)
  {
    FinishLeaves(w, w.record, i, k);
  }
}
