/** The batch of tool calls of one LLM turn, run under the agent's tool policies
    (tool_policy.py, tool_executor.py), and what a second pass over the same batch
    does after a human has approved the one call that stopped the first. */
module ToolExecution {
  import opened Common

  // ----- policy -----

  /** The policy's risk text; a missing one reads as LOW. */
  datatype Risk = Low | Medium | High | Destructive | Unrecognised(text: string)

  datatype Policy = Policy(allowed: bool, risk: Risk)

  datatype Check =
    | Clear
    | NeedsApproval
    | DefaultDeny
    | Disabled
    | BadRisk  // RiskLevel raises ValueError

  /** The pure decision of ToolPolicyEngine.check. */
  function CheckTool(policies: map<string, Policy>, tool: string): Check {
    if tool !in policies then DefaultDeny
    else if !policies[tool].allowed then Disabled
    else match policies[tool].risk
      case Low => Clear
      case Medium => Clear
      case High => NeedsApproval
      case Destructive => NeedsApproval
      case Unrecognised(_) => BadRisk
  }

  // ----- calls, replies, outcomes -----

  datatype Arguments = Parsed(json: string) | Malformed

  datatype Call = Call(id: Option<string>, name: string, arguments: Arguments)

  /** Everything a resume needs, stored in the review row. */
  datatype TurnContext = TurnContext(calls: seq<Call>, approvedCallId: Option<string>, toolId: string)

  /** What invoking the Lambda gives: a payload, a function error with a payload, or an
      exception (the invocation raised, or its payload is not JSON). */
  datatype Reply = Payload(json: string) | FunctionError(json: string) | Raises

  datatype Entry =
    | UnknownTool(tool: string)
    | InvalidArguments(tool: string)
    | ToolResult(tool: string, json: string)
    | ToolError(tool: string, json: string)

  datatype AuditEvent =
    | Invoked(tool: string, success: bool)
    | Failed(tool: string)
    | DeniedEvent(tool: string)
    | ApprovalRequested(tool: string)

  /** How `execute` ends: it returns, or one of its exceptions escapes. */
  datatype Stop =
    | Completed
    | Denied(tool: string)
    | ApprovalRequired(tool: string)
    | UnknownRisk(tool: string)
    | InvocationRaised(tool: string)

  datatype Config = Config(tools: set<string>, policies: map<string, Policy>)

  /** What the loop body does with one call. */
  datatype Disposition = Skip(entry: Entry) | Halt(stop: Stop, audit: seq<AuditEvent>) | Go

  function Dispose(cfg: Config, call: Call, exempt: Option<string>): Disposition {
    if call.name !in cfg.tools then Skip(UnknownTool(call.name))
    else if call.arguments.Malformed? then Skip(InvalidArguments(call.name))
    else if call.id == exempt then Go
    else match CheckTool(cfg.policies, call.name)
      case Clear => Go
      case NeedsApproval => Halt(ApprovalRequired(call.name), [ApprovalRequested(call.name)])
      case BadRisk => Halt(UnknownRisk(call.name), [])
      case _ => Halt(Denied(call.name), [DeniedEvent(call.name)])
  }

  datatype Invocation = Invocation(tool: string, json: string)

  /** A stretch of a pass: the indices invoked and what was sent for them, the entries,
      the audit events, how it stopped and at which call. */
  datatype Pass = Pass(
    invoked: seq<nat>, sent: seq<Invocation>, results: seq<Entry>, audit: seq<AuditEvent>, stop: Stop, at: nat)

  function Nothing(i: nat): Pass {
    Pass([], [], [], [], Completed, i)
  }

  /** The loop body on call i. */
  function OneCall(cfg: Config, call: Call, exempt: Option<string>, reply: Reply, i: nat): Pass {
    match Dispose(cfg, call, exempt)
    case Skip(entry) => Pass([], [], [entry], [], Completed, i + 1)
    case Halt(stop, audit) => Pass([], [], [], audit, stop, i)
    case Go =>
      if reply.Raises? then Pass([i], [InvocationOf(call)], [], [], InvocationRaised(call.name), i)
      else Pass([i], [InvocationOf(call)], [EntryFor(call.name, reply)], EventsFor(call.name, reply), Completed, i + 1)
  }

  function Then(a: Pass, b: Pass): Pass {
    Pass(a.invoked + b.invoked, a.sent + b.sent, a.results + b.results, a.audit + b.audit, b.stop, b.at)
  }

  /** What the loop does with each call, were it reached. */
  function Each(cfg: Config, calls: seq<Call>, exempt: Option<string>, replies: nat -> Reply): (ones: seq<Pass>)
    ensures |ones| == |calls|
    ensures forall k :: 0 <= k < |ones| ==> ones[k] == OneCall(cfg, calls[k], exempt, replies(k), k)
  {
    seq(|calls|, k requires 0 <= k < |calls| => OneCall(cfg, calls[k], exempt, replies(k), k))
  }

  /** Calls i, i+1, ... up to the first that does not complete. */
  function Chain(ones: seq<Pass>, i: nat): Pass
    requires i <= |ones|
    decreases |ones| - i
  {
    if i == |ones| then Nothing(i)
    else if ones[i].stop.Completed? then Then(ones[i], Chain(ones, i + 1))
    else ones[i]
  }

  function InvocationOf(call: Call): Invocation {
    Invocation(call.name, if call.arguments.Parsed? then call.arguments.json else "")
  }

  function EntryFor(tool: string, reply: Reply): Entry
    requires !reply.Raises?
  {
    if reply.Payload? then ToolResult(tool, reply.json) else ToolError(tool, reply.json)
  }

  function EventsFor(tool: string, reply: Reply): seq<AuditEvent>
    requires !reply.Raises?
  {
    if reply.Payload? then [Invoked(tool, true)] else [Invoked(tool, false), Failed(tool)]
  }

  function Execute(cfg: Config, calls: seq<Call>, exempt: Option<string>, replies: nat -> Reply): Pass {
    Chain(Each(cfg, calls, exempt, replies), 0)
  }

  /** The executor of one agent, with the audit events and Lambda invocations it makes. */
  class ToolExecutor {
    const cfg: Config
    var audit: seq<AuditEvent>
    var invocations: seq<Invocation>

    constructor (cfg: Config)
      ensures this.cfg == cfg && audit == [] && invocations == []
    {
      this.cfg := cfg;
      audit := [];
      invocations := [];
    }

    /** A tool passes silently when its policy allows it at LOW or MEDIUM risk. Without a
        policy, or with one that does not allow it, it is denied; at HIGH or DESTRUCTIVE risk
        it needs an approval; both leave an event. A risk text that is none of the four
        raises without one. */
    method Enforce(tool: string) returns (stop: Option<Stop>)
      modifies this`audit
      ensures stop == None <==>
                tool in cfg.policies && cfg.policies[tool].allowed && cfg.policies[tool].risk in {Low, Medium}
      ensures stop == Some(ApprovalRequired(tool)) <==>
                tool in cfg.policies && cfg.policies[tool].allowed && cfg.policies[tool].risk in {High, Destructive}
      ensures stop == Some(Denied(tool)) <==> tool !in cfg.policies || !cfg.policies[tool].allowed
      ensures stop == Some(UnknownRisk(tool)) <==>
                tool in cfg.policies && cfg.policies[tool].allowed && cfg.policies[tool].risk.Unrecognised?
      ensures audit == old(audit) + if stop == Some(Denied(tool)) then [DeniedEvent(tool)]
                                    else if stop == Some(ApprovalRequired(tool)) then [ApprovalRequested(tool)] else []
      ensures match CheckTool(cfg.policies, tool)
              case Clear => stop.None? && audit == old(audit)
              case NeedsApproval => stop == Some(ApprovalRequired(tool)) && audit == old(audit) + [ApprovalRequested(tool)]
              case BadRisk => stop == Some(UnknownRisk(tool)) && audit == old(audit)
              case _ => stop == Some(Denied(tool)) && audit == old(audit) + [DeniedEvent(tool)]
    {
      var decision := CheckTool(cfg.policies, tool);
      if decision == BadRisk {
        return Some(UnknownRisk(tool));
      }
      if decision == DefaultDeny || decision == Disabled {
        audit := audit + [DeniedEvent(tool)];
        return Some(Denied(tool));
      }
      if decision == NeedsApproval {
        audit := audit + [ApprovalRequested(tool)];
        return Some(ApprovalRequired(tool));
      }
      return None;
    }

    /** The loop body: one call, with its policy check, invocation and audit events. */
    method ExecuteCall(call: Call, exempt: Option<string>, reply: Reply, ghost i: nat, ghost one: Pass)
      returns (r: Result<Entry, Stop>)
      requires one == OneCall(cfg, call, exempt, reply, i)
      modifies this
      ensures audit == old(audit) + one.audit && invocations == old(invocations) + one.sent
      ensures if one.stop.Completed? then r.Ok? && one.results == [r.value] else r == Err(one.stop)
    {
      if call.name !in cfg.tools {
        return Ok(UnknownTool(call.name));
      }
      if call.arguments.Malformed? {
        return Ok(InvalidArguments(call.name));
      }
      if call.id != exempt {
        var raised := Enforce(call.name);
        if raised.Some? {
          return Err(raised.value);
        }
      }
      invocations := invocations + [Invocation(call.name, call.arguments.json)];
      if reply.Raises? {
        return Err(InvocationRaised(call.name));
      }
      var failed := reply.FunctionError?;
      r := Ok(if failed then ToolError(call.name, reply.json) else ToolResult(call.name, reply.json));
      audit := audit + [Invoked(call.name, !failed)];
      if failed {
        audit := audit + [Failed(call.name)];
      }
    }

    method ExecuteBatch(calls: seq<Call>, exempt: Option<string>, replies: nat -> Reply)
      returns (results: seq<Entry>, stop: Stop)
      modifies this
      ensures var pass := Execute(cfg, calls, exempt, replies);
              && stop == pass.stop && (stop.Completed? ==> results == pass.results)
              && audit == old(audit) + pass.audit
              && invocations == old(invocations) + pass.sent
    {
      results := [];
      ghost var was := (audit, invocations);
      ghost var ones := Each(cfg, calls, exempt, replies);
      ghost var done := Nothing(0);
      for i := 0 to |calls|
        invariant SplitsAt(ones, done, i)
        invariant Reflects(was, done, results, audit, invocations)
      {
        var r := ExecuteCall(calls[i], exempt, replies(i), i, ones[i]);
        SplitStep(ones, done, i);
        ReflectsStep(was, done, ones[i], results, audit, invocations);
        done := Then(done, ones[i]);
        if r.Err? {
          return results, r.error;
        }
        results := results + [r.value];
      }
      SplitEnd(ones, done);
      stop := Completed;
    }
  }

  /** What the executor's state shows of what has been done so far. */
  ghost predicate Reflects(was: (seq<AuditEvent>, seq<Invocation>), done: Pass, results: seq<Entry>,
                           audit: seq<AuditEvent>, invocations: seq<Invocation>) {
    results == done.results && audit == was.0 + done.audit && invocations == was.1 + done.sent
  }

  lemma {:induction false} ReflectsStep(was: (seq<AuditEvent>, seq<Invocation>), done: Pass, one: Pass, results: seq<Entry>,
                                        audit: seq<AuditEvent>, invocations: seq<Invocation>)
    requires results == done.results
    requires audit == (was.0 + done.audit) + one.audit && invocations == (was.1 + done.sent) + one.sent
    ensures Reflects(was, Then(done, one), results + one.results, audit, invocations)
  {
    assert (was.0 + done.audit) + one.audit == was.0 + (done.audit + one.audit);
    assert (was.1 + done.sent) + one.sent == was.1 + (done.sent + one.sent);
  }

  /** The whole pass is what has been done so far, then a pass over the rest. */
  predicate SplitsAt(ones: seq<Pass>, done: Pass, i: nat) {
    i <= |ones| && Chain(ones, 0) == Then(done, Chain(ones, i))
  }

  lemma {:induction false} SplitStep(ones: seq<Pass>, done: Pass, i: nat)
    requires i < |ones| && SplitsAt(ones, done, i)
    ensures if ones[i].stop.Completed? then SplitsAt(ones, Then(done, ones[i]), i + 1)
            else Chain(ones, 0) == Then(done, ones[i])
  {
    ThenAssoc(done, ones[i], Chain(ones, i + 1));
  }

  lemma {:induction false} SplitEnd(ones: seq<Pass>, done: Pass)
    requires SplitsAt(ones, done, |ones|)
    ensures Chain(ones, 0) == done.(stop := Completed, at := |ones|)
  {}

  lemma {:induction false} ThenAssoc(a: Pass, b: Pass, c: Pass)
    ensures Then(Then(a, b), c) == Then(a, Then(b, c))
  {
    assert (a.invoked + b.invoked) + c.invoked == a.invoked + (b.invoked + c.invoked);
    assert (a.sent + b.sent) + c.sent == a.sent + (b.sent + c.sent);
    assert (a.results + b.results) + c.results == a.results + (b.results + c.results);
    assert (a.audit + b.audit) + c.audit == a.audit + (b.audit + c.audit);
  }

  // ----- the shape of one pass -----

  predicate Stops(cfg: Config, call: Call, exempt: Option<string>, reply: Reply) {
    var d := Dispose(cfg, call, exempt);
    d.Halt? || (d.Go? && reply.Raises?)
  }

  /** The results entry one call leaves when the pass goes beyond it. */
  function EntryOf(cfg: Config, call: Call, reply: Reply): Entry {
    if call.name !in cfg.tools then UnknownTool(call.name)
    else if call.arguments.Malformed? then InvalidArguments(call.name)
    else if reply.FunctionError? then ToolError(call.name, reply.json)
    else ToolResult(call.name, if reply.Payload? then reply.json else "")
  }

  /** What one call may contribute: itself, at its own place. */
  predicate Local(one: Pass, k: nat) {
    && one.at == (if one.stop.Completed? then k + 1 else k)
    && |one.results| == (if one.stop.Completed? then 1 else 0)
    && one.invoked in {[], [k]}
  }

  lemma {:induction false} ChainShape(ones: seq<Pass>, i: nat, k: nat)
    requires i <= |ones| && forall j :: i <= j < |ones| ==> Local(ones[j], j)
    ensures var pass := Chain(ones, i);
            && i <= pass.at <= |ones| && |pass.results| == pass.at - i
            && (i <= k < pass.at ==> ones[k].stop.Completed? && ones[k].results == [pass.results[k - i]])
            && (pass.stop.Completed? <==> pass.at == |ones|)
            && (pass.at < |ones| ==> pass.stop == ones[pass.at].stop)
    decreases |ones| - i
  {
    if i < |ones| {
      ChainShape(ones, i + 1, k);
    }
  }

  lemma {:induction false} ChainCounts(ones: seq<Pass>, i: nat, k: nat)
    requires i <= |ones| && forall j :: i <= j < |ones| ==> Local(ones[j], j)
    ensures var pass := Chain(ones, i);
            Count(k, pass.invoked) == if i <= k <= pass.at && k < |ones| && ones[k].invoked == [k] then 1 else 0
    decreases |ones| - i
  {
    if i < |ones| {
      ChainShape(ones, i + 1, k);
      if ones[i].stop.Completed? {
        ChainCounts(ones, i + 1, k);
        CountConcat(k, ones[i].invoked, Chain(ones, i + 1).invoked);
      }
    }
  }

  lemma {:induction false} OneCallFacts(cfg: Config, call: Call, exempt: Option<string>, reply: Reply, k: nat)
    ensures var one := OneCall(cfg, call, exempt, reply, k);
            && Local(one, k)
            && (one.stop.Completed? <==> !Stops(cfg, call, exempt, reply))
            && (one.stop.Completed? ==> one.results == [EntryOf(cfg, call, reply)])
            && (one.invoked == [k] <==> Dispose(cfg, call, exempt).Go?)
            && (one.stop.ApprovalRequired? <==> Dispose(cfg, call, exempt).Halt? && Risky(cfg, call))
            && (one.stop.ApprovalRequired? ==> one.stop.tool == call.name)
  {}

  /** A known, parseable call that policy stops. */
  predicate Policed(cfg: Config, call: Call) {
    && call.name in cfg.tools && call.arguments.Parsed?
    && !(call.name in cfg.policies && cfg.policies[call.name].allowed && cfg.policies[call.name].risk in {Low, Medium})
  }

  lemma {:induction false} EachIsLocal(cfg: Config, calls: seq<Call>, exempt: Option<string>, replies: nat -> Reply)
    ensures var ones := Each(cfg, calls, exempt, replies);
            |ones| == |calls| && forall k :: 0 <= k < |ones| ==> Local(ones[k], k)
  {
    forall k | 0 <= k < |calls|
      ensures Local(Each(cfg, calls, exempt, replies)[k], k)
    {
      OneCallFacts(cfg, calls[k], exempt, replies(k), k);
    }
  }

  /** How often a pass invokes each call; a call that policy does not clear gets through
      exactly by carrying the exempt id. */
  lemma {:induction false} PassInvokes(cfg: Config, calls: seq<Call>, exempt: Option<string>, replies: nat -> Reply, k: nat)
    ensures var pass := Execute(cfg, calls, exempt, replies);
            && Count(k, pass.invoked) == (if k <= pass.at && k < |calls| && Dispose(cfg, calls[k], exempt).Go? then 1 else 0)
            && (k <= pass.at && k < |calls| && Policed(cfg, calls[k]) ==>
                  Count(k, pass.invoked) == if calls[k].id == exempt then 1 else 0)
  {
    var ones := Each(cfg, calls, exempt, replies);
    EachIsLocal(cfg, calls, exempt, replies);
    ChainCounts(ones, 0, k);
    if k < |calls| {
      OneCallFacts(cfg, calls[k], exempt, replies(k), k);
    }
  }

  /** A pass halts at the first call that policy or the transport stops, never later;
      every call it goes beyond leaves its own entry, in order; and it invokes, once
      each, exactly the known, parseable and cleared calls up to its stopping point. A call
      that policy does not clear gets through exactly by carrying the exempt id: with
      nothing pre-approved, by carrying none. */
  lemma {:induction false} PassShape(cfg: Config, calls: seq<Call>, exempt: Option<string>, replies: nat -> Reply)
    ensures var pass := Execute(cfg, calls, exempt, replies);
            && pass.at <= |calls| == |Each(cfg, calls, exempt, replies)| && |pass.results| == pass.at
            && (forall k :: 0 <= k < pass.at ==>
                  !Stops(cfg, calls[k], exempt, replies(k)) && pass.results[k] == EntryOf(cfg, calls[k], replies(k)))
            && (pass.stop.Completed? <==> pass.at == |calls|)
            && (pass.at < |calls| ==> Stops(cfg, calls[pass.at], exempt, replies(pass.at)))
            && (pass.stop.ApprovalRequired? ==>
                  Risky(cfg, calls[pass.at]) && Dispose(cfg, calls[pass.at], exempt).Halt?
                  && pass.stop.tool == calls[pass.at].name)
    ensures var pass := Execute(cfg, calls, exempt, replies);
            forall k: nat ::
              && Count(k, pass.invoked) == (if k <= pass.at && k < |calls| && Dispose(cfg, calls[k], exempt).Go? then 1 else 0)
              && (k <= pass.at && k < |calls| && Policed(cfg, calls[k]) ==>
                    Count(k, pass.invoked) == if calls[k].id == exempt then 1 else 0)
  {
    PassEnds(cfg, calls, exempt, replies);
    forall k: nat {
      PassInvokes(cfg, calls, exempt, replies, k);
    }
  }

  lemma {:induction false} PassEnds(cfg: Config, calls: seq<Call>, exempt: Option<string>, replies: nat -> Reply)
    ensures var pass := Execute(cfg, calls, exempt, replies);
            && pass.at <= |calls| == |Each(cfg, calls, exempt, replies)| && |pass.results| == pass.at
            && (forall k :: 0 <= k < pass.at ==>
                  !Stops(cfg, calls[k], exempt, replies(k)) && pass.results[k] == EntryOf(cfg, calls[k], replies(k)))
            && (pass.stop.Completed? <==> pass.at == |calls|)
            && (pass.at < |calls| ==> Stops(cfg, calls[pass.at], exempt, replies(pass.at)))
            && (pass.stop.ApprovalRequired? ==>
                  Risky(cfg, calls[pass.at]) && Dispose(cfg, calls[pass.at], exempt).Halt?
                  && pass.stop.tool == calls[pass.at].name)
  {
    var ones := Each(cfg, calls, exempt, replies);
    EachIsLocal(cfg, calls, exempt, replies);
    ChainShape(ones, 0, 0);
    var pass := Chain(ones, 0);
    forall k | 0 <= k < pass.at
      ensures !Stops(cfg, calls[k], exempt, replies(k)) && pass.results[k] == EntryOf(cfg, calls[k], replies(k))
    {
      ChainShape(ones, 0, k);
      OneCallFacts(cfg, calls[k], exempt, replies(k), k);
    }
    if pass.at < |calls| {
      OneCallFacts(cfg, calls[pass.at], exempt, replies(pass.at), pass.at);
    }
  }

  // ----- the pass, from the policies alone -----

  /** A call that reaches the policy check: a known tool, arguments that parse, not exempt. */
  predicate Checked(cfg: Config, call: Call, exempt: Option<string>) {
    call.name in cfg.tools && call.arguments.Parsed? && call.id != exempt
  }

  /** What the loop body records of one call: an unknown tool and bad arguments are results that
      reach neither policy nor Lambda; a policy stop leaves its event; an invocation sends the
      tool its arguments, and its answer leaves a result or an error with one event or two. */
  lemma {:induction false} CallRecords(cfg: Config, call: Call, exempt: Option<string>, reply: Reply, k: nat)
    ensures var one := OneCall(cfg, call, exempt, reply, k);
            var known := call.name in cfg.policies && cfg.policies[call.name].allowed;
            && (call.name !in cfg.tools ==> one == Pass([], [], [UnknownTool(call.name)], [], Completed, k + 1))
            && (call.name in cfg.tools && call.arguments.Malformed? ==>
                  one == Pass([], [], [InvalidArguments(call.name)], [], Completed, k + 1))
            && (Checked(cfg, call, exempt) && !known ==>
                  one == Pass([], [], [], [DeniedEvent(call.name)], Denied(call.name), k))
            && (Checked(cfg, call, exempt) && known && cfg.policies[call.name].risk in {High, Destructive} ==>
                  one == Pass([], [], [], [ApprovalRequested(call.name)], ApprovalRequired(call.name), k))
            && (Checked(cfg, call, exempt) && known && cfg.policies[call.name].risk.Unrecognised? ==>
                  one == Pass([], [], [], [], UnknownRisk(call.name), k))
    ensures var one := OneCall(cfg, call, exempt, reply, k);
            && call.name in cfg.tools && call.arguments.Parsed?
            && (call.id == exempt || (call.name in cfg.policies && cfg.policies[call.name].allowed
                                      && cfg.policies[call.name].risk in {Low, Medium})) ==>
              one == match reply
                     case Payload(json) =>
                       Pass([k], [Invocation(call.name, call.arguments.json)], [ToolResult(call.name, json)],
                            [Invoked(call.name, true)], Completed, k + 1)
                     case FunctionError(json) =>
                       Pass([k], [Invocation(call.name, call.arguments.json)], [ToolError(call.name, json)],
                            [Invoked(call.name, false), Failed(call.name)], Completed, k + 1)
                     case Raises =>
                       Pass([k], [Invocation(call.name, call.arguments.json)], [], [], InvocationRaised(call.name), k)
  {
  }

  /** The policies decide a pass outright. Every call that is invoked without being exempt has a
      policy that allows it at LOW or MEDIUM risk. And at a call that is reached and checked
      the pass stops for an approval exactly when the policy allows it at HIGH or DESTRUCTIVE
      risk, as denied exactly when no policy allows it, and as an unknown risk exactly when
      one allows it at a risk that is none of the four. */
  lemma {:induction false} PolicyDecides(cfg: Config, calls: seq<Call>, exempt: Option<string>, replies: nat -> Reply, k: nat)
    requires k < |calls|
    ensures var pass, call := Execute(cfg, calls, exempt, replies), calls[k];
            var known := call.name in cfg.policies;
            && (k in pass.invoked ==> call.name in cfg.tools && call.arguments.Parsed? && k <= pass.at)
            && (k in pass.invoked && call.id != exempt ==>
                  known && cfg.policies[call.name].allowed && cfg.policies[call.name].risk in {Low, Medium})
            && (k <= pass.at && Checked(cfg, call, exempt) ==>
                  && (k == pass.at && pass.stop == ApprovalRequired(call.name) <==>
                        known && cfg.policies[call.name].allowed && cfg.policies[call.name].risk in {High, Destructive})
                  && (k == pass.at && pass.stop == Denied(call.name) <==> !known || !cfg.policies[call.name].allowed)
                  && (k == pass.at && pass.stop == UnknownRisk(call.name) <==>
                        known && cfg.policies[call.name].allowed && cfg.policies[call.name].risk.Unrecognised?)
                  && (k in pass.invoked <==>
                        known && cfg.policies[call.name].allowed && cfg.policies[call.name].risk in {Low, Medium}))
            && (k <= pass.at && call.name in cfg.tools && call.arguments.Parsed? && call.id == exempt ==> k in pass.invoked)
  {
    var ones := Each(cfg, calls, exempt, replies);
    EachIsLocal(cfg, calls, exempt, replies);
    ChainShape(ones, 0, k);
    ChainCounts(ones, 0, k);
    CallRecords(cfg, calls[k], exempt, replies(k), k);
    CountsMembers(k, Chain(ones, 0).invoked);
  }

  lemma {:induction false} CountsMembers(k: nat, s: seq<nat>)
    ensures k in s <==> Count(k, s) > 0
  {
    if s != [] {
      CountsMembers(k, s[1..]);
      assert s == [s[0]] + s[1..];
    }
  }

  lemma {:induction false} PassCounts(cfg: Config, calls: seq<Call>, exempt: Option<string>, replies: nat -> Reply, k: nat)
    requires k < |calls|
    ensures var pass := Execute(cfg, calls, exempt, replies);
            Count(k, pass.invoked) == if k <= pass.at && Dispose(cfg, calls[k], exempt).Go? then 1 else 0
  {
    PassInvokes(cfg, calls, exempt, replies, k);
  }

  /** Where a pass stands to one call of the batch. */
  lemma {:induction false} PassAtCall(cfg: Config, calls: seq<Call>, exempt: Option<string>, replies: nat -> Reply, k: nat)
    requires k < |calls|
    ensures var pass := Execute(cfg, calls, exempt, replies);
            && pass.at <= |calls|
            && (k < pass.at ==> !Stops(cfg, calls[k], exempt, replies(k)))
            && (k == pass.at ==> Stops(cfg, calls[k], exempt, replies(k)))
            && (pass.stop.Completed? <==> pass.at == |calls|)
  {
    PassShape(cfg, calls, exempt, replies);
  }

  // ----- the first pass, and the call it stopped at -----

  /** The policy allows the tool, at HIGH or DESTRUCTIVE risk. */
  predicate Risky(cfg: Config, call: Call) {
    call.name in cfg.policies && cfg.policies[call.name].allowed && cfg.policies[call.name].risk in {High, Destructive}
  }

  /** Every call carries an id of its own. */
  predicate OwnIds(calls: seq<Call>) {
    && (forall k :: 0 <= k < |calls| ==> calls[k].id.Some?)
    && (forall j, k :: 0 <= j < k < |calls| ==> calls[j].id != calls[k].id)
  }

  /** The first call of the batch with the given tool name: the call the pause stores. */
  function FirstNamed(calls: seq<Call>, tool: string): (k: nat)
    ensures k <= |calls|
    ensures forall j :: 0 <= j < k ==> calls[j].name != tool
    ensures k < |calls| ==> calls[k].name == tool
  {
    if calls == [] then 0 else if calls[0].name == tool then 0 else 1 + FirstNamed(calls[1..], tool)
  }

  /** The context the paused turn stores. */
  function ContextFor(calls: seq<Call>, tool: string): TurnContext {
    var k := FirstNamed(calls, tool);
    TurnContext(calls, if k < |calls| then calls[k].id else None, tool)
  }

  ghost predicate Paused(cfg: Config, calls: seq<Call>, replies: nat -> Reply) {
    Execute(cfg, calls, None, replies).stop.ApprovalRequired?
  }

  /** Where the first pass stopped, and for what. */
  lemma {:induction false} PausedAt(cfg: Config, calls: seq<Call>, replies: nat -> Reply)
    requires Paused(cfg, calls, replies)
    ensures var pass := Execute(cfg, calls, None, replies);
            && pass.at < |calls|
            && calls[pass.at].name in cfg.tools && calls[pass.at].arguments.Parsed?
            && Risky(cfg, calls[pass.at])
            && pass.stop.tool == calls[pass.at].name
            && FirstNamed(calls, pass.stop.tool) <= pass.at
  {
    PassShape(cfg, calls, None, replies);
  }

  /** The stored call is the one the pass stopped at, unless an earlier call of the same
      tool had malformed arguments; then it is that one. */
  lemma {:induction false} MatchIsTheStop(cfg: Config, calls: seq<Call>, replies: nat -> Reply)
    requires Paused(cfg, calls, replies) && OwnIds(calls)
    ensures var pass := Execute(cfg, calls, None, replies);
            var matched := FirstNamed(calls, pass.stop.tool);
            && pass.at < |calls| && matched <= pass.at
            && (matched == pass.at <==>
                  forall j :: 0 <= j < pass.at && calls[j].name == calls[pass.at].name ==> calls[j].arguments.Parsed?)
            && (matched != pass.at ==> calls[matched].arguments.Malformed?)
  {
    PassShape(cfg, calls, None, replies);
    PausedAt(cfg, calls, replies);
    var pass := Execute(cfg, calls, None, replies);
    var matched := FirstNamed(calls, pass.stop.tool);
    assert matched < pass.at ==> !Stops(cfg, calls[matched], None, replies(matched));
  }

  // ----- both passes -----

  /** The second pass over the stored batch, exempting the stored call. */
  function Resumed(cfg: Config, ctx: TurnContext, replies: nat -> Reply): Pass {
    Execute(cfg, ctx.calls, ctx.approvedCallId, replies)
  }

  /** How often call k is invoked by the first pass and one resume of it. */
  function Invocations2(cfg: Config, calls: seq<Call>, first: nat -> Reply, second: nat -> Reply, k: nat): nat
    requires Execute(cfg, calls, None, first).stop.ApprovalRequired?
  {
    var pass := Execute(cfg, calls, None, first);
    Count(k, pass.invoked) + Count(k, Resumed(cfg, ContextFor(calls, pass.stop.tool), second).invoked)
  }

  /** A resume invokes no HIGH/DESTRUCTIVE call but the one the turn paused on, and that
      one at most once; the first pass invoked none. Malformed arguments, unknown tools
      and failing invocations anywhere in the batch included. */
  lemma {:induction false} RiskyAtMostOnce(cfg: Config, calls: seq<Call>, first: nat -> Reply, second: nat -> Reply, k: nat)
    requires Paused(cfg, calls, first) && OwnIds(calls)
    requires k < |calls| && Risky(cfg, calls[k])
    ensures Count(k, Execute(cfg, calls, None, first).invoked) == 0
    ensures Invocations2(cfg, calls, first, second, k) <= 1
    ensures Invocations2(cfg, calls, first, second, k) == 1 ==> k == Execute(cfg, calls, None, first).at
  {
    var pass := Execute(cfg, calls, None, first);
    var ctx := ContextFor(calls, pass.stop.tool);
    var again := Resumed(cfg, ctx, second);
    RiskyIsExempt(cfg, calls, None, first, k);
    RiskyIsExempt(cfg, calls, ctx.approvedCallId, second, k);
    MatchIsTheStop(cfg, calls, first);
    if Count(k, again.invoked) > 0 {
      var matched := FirstNamed(calls, pass.stop.tool);
      assert calls[k].id == ctx.approvedCallId == calls[matched].id;
      assert k == matched;
      MatchedRunsIsTheStop(cfg, calls, ctx.approvedCallId, first, second, k);
    }
  }

  /** A pass invokes a risky call once at most, and only as the exempt one. */
  lemma {:induction false} RiskyIsExempt(cfg: Config, calls: seq<Call>, exempt: Option<string>, replies: nat -> Reply, k: nat)
    requires k < |calls| && Risky(cfg, calls[k])
    ensures var pass := Execute(cfg, calls, exempt, replies);
            && Count(k, pass.invoked) <= 1 && (Count(k, pass.invoked) > 0 ==> calls[k].id == exempt)
            && (k in pass.invoked ==> calls[k].arguments.Parsed?)
  {
    PolicyDecides(cfg, calls, exempt, replies, k);
    PassCounts(cfg, calls, exempt, replies, k);
    CountsMembers(k, Execute(cfg, calls, exempt, replies).invoked);
  }

  /** The stored call has malformed arguments unless the pause was at it. */
  lemma {:induction false} MatchedRunsIsTheStop(cfg: Config, calls: seq<Call>, exempt: Option<string>, first: nat -> Reply,
                                                second: nat -> Reply, k: nat)
    requires Paused(cfg, calls, first) && OwnIds(calls) && k < |calls| && Risky(cfg, calls[k])
    requires k == FirstNamed(calls, Execute(cfg, calls, None, first).stop.tool)
    requires Count(k, Execute(cfg, calls, exempt, second).invoked) > 0
    ensures k == Execute(cfg, calls, None, first).at
  {
    RiskyIsExempt(cfg, calls, exempt, second, k);
    CountsMembers(k, Execute(cfg, calls, exempt, second).invoked);
    MatchIsTheStop(cfg, calls, first);
  }

  /** No invocation raises at call k of the second pass. */
  predicate Answers(replies: nat -> Reply, k: nat) {
    !replies(k).Raises?
  }

  /** When the stored call is the stopping call and the Lambdas answer up to it, the
      resume gets strictly further than the first pass. */
  lemma {:induction false} ResumeGetsFurther(cfg: Config, calls: seq<Call>, first: nat -> Reply, second: nat -> Reply)
    requires Paused(cfg, calls, first) && OwnIds(calls) && CleanUpTo(cfg, calls, first, second)
    ensures var pass := Execute(cfg, calls, None, first);
            pass.at < Resumed(cfg, ContextFor(calls, pass.stop.tool), second).at <= |calls|
  {
    var pass := Execute(cfg, calls, None, first);
    var ctx := ContextFor(calls, pass.stop.tool);
    var again := Resumed(cfg, ctx, second);
    MatchIsTheStop(cfg, calls, first);
    PassAtCall(cfg, calls, ctx.approvedCallId, second, pass.at);
    if again.at <= pass.at {
      assert Answers(second, again.at);
      PassAtCall(cfg, calls, None, first, again.at);
      PassAtCall(cfg, calls, ctx.approvedCallId, second, again.at);
    }
  }

  /** Before the stop every argument text parses, and up to it the second pass's Lambdas
      answer. */
  ghost predicate CleanUpTo(cfg: Config, calls: seq<Call>, first: nat -> Reply, second: nat -> Reply) {
    var at := Execute(cfg, calls, None, first).at;
    && (forall j :: 0 <= j <= at && j < |calls| ==> Answers(second, j))
    && (forall j :: 0 <= j < at && j < |calls| ==> calls[j].arguments.Parsed?)
  }

  /** What ran before the pause runs a second time on resume, and the paused call runs
      for the first. */
  lemma {:induction false} BeforeThePauseTwice(cfg: Config, calls: seq<Call>, first: nat -> Reply, second: nat -> Reply, k: nat)
    requires Paused(cfg, calls, first) && OwnIds(calls) && CleanUpTo(cfg, calls, first, second)
    requires k <= Execute(cfg, calls, None, first).at && k < |calls|
    ensures Invocations2(cfg, calls, first, second, k) ==
            if k == Execute(cfg, calls, None, first).at then 1 else if calls[k].name in cfg.tools then 2 else 0
  {
    var pass := Execute(cfg, calls, None, first);
    var ctx := ContextFor(calls, pass.stop.tool);
    ResumeGetsFurther(cfg, calls, first, second);
    PassCounts(cfg, calls, None, first, k);
    PassCounts(cfg, calls, ctx.approvedCallId, second, k);
    MatchIsTheStop(cfg, calls, first);
    PassShape(cfg, calls, None, first);
    if k < pass.at && calls[k].name in cfg.tools {
      assert !Stops(cfg, calls[k], None, first(k));
      assert calls[k].id != None;
      assert CheckTool(cfg.policies, calls[k].name) == Clear;
    }
  }

  /** When moreover nothing after the paused call needs approval, is denied or has an
      unknown risk, the resume completes and every later known, parseable call runs
      exactly once over both passes. */
  lemma {:induction false} ResumeCompletes(cfg: Config, calls: seq<Call>, first: nat -> Reply, second: nat -> Reply)
    requires Paused(cfg, calls, first) && OwnIds(calls) && CleanUpTo(cfg, calls, first, second)
    requires var at := Execute(cfg, calls, None, first).at;
             && (forall j :: 0 <= j < |calls| ==> Answers(second, j))
             && (forall j :: at < j < |calls| && calls[j].name in cfg.tools && calls[j].arguments.Parsed? ==>
                   CheckTool(cfg.policies, calls[j].name) == Clear)
    ensures var pass := Execute(cfg, calls, None, first);
            var again := Resumed(cfg, ContextFor(calls, pass.stop.tool), second);
            && again.stop == Completed
            && forall k :: pass.at < k < |calls| ==>
                 Invocations2(cfg, calls, first, second, k) ==
                 if calls[k].name in cfg.tools && calls[k].arguments.Parsed? then 1 else 0
  {
    var pass := Execute(cfg, calls, None, first);
    var ctx := ContextFor(calls, pass.stop.tool);
    var again := Resumed(cfg, ctx, second);
    ResumeGetsFurther(cfg, calls, first, second);
    MatchIsTheStop(cfg, calls, first);
    PassAtCall(cfg, calls, ctx.approvedCallId, second, pass.at);
    if again.at < |calls| {
      assert Answers(second, again.at);
      PassAtCall(cfg, calls, ctx.approvedCallId, second, again.at);
    }
    forall k | pass.at < k < |calls|
      ensures Invocations2(cfg, calls, first, second, k) ==
              if calls[k].name in cfg.tools && calls[k].arguments.Parsed? then 1 else 0
    {
      PassCounts(cfg, calls, None, first, k);
      PassCounts(cfg, calls, ctx.approvedCallId, second, k);
    }
  }
}
