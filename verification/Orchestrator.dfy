/** One conversation turn (orchestrator.py): the pause on a HIGH/DESTRUCTIVE tool call,
    the resume after a decision, and what is recorded on every path out of either. */
module Orchestrator {
  import opened Common
  import opened ToolExecution
  import opened ToolApproval

  datatype LlmReply =
    | LlmRaises
    | LlmResult(content: string, calls: seq<Call>, cost: Option<real>, inTokens: Option<nat>, outTokens: Option<nat>)

  datatype GuardCheck = GuardCheck(blocked: bool, sanitised: Option<string>)

  datatype Response =
    | InputBlocked
    | HumanReview(inTokens: nat, outTokens: nat)
    | AwaitingApproval(key: ReviewKey, inTokens: nat, outTokens: nat)
    | Answer(text: string, inTokens: nat, outTokens: nat)
    | NotDecided(verdict: Verdict)
    | AlreadyProcessed
    | Refusal(verdict: Verdict)
    | ToolRaised(stop: Stop)
    | ReviewRaised
    | LlmRaised

  /** The reply's text before the output check, and the tokens of the turn so far. */
  datatype Drafted = Drafted(text: string, inTokens: nat, outTokens: nat)

  function OrZero(n: Option<nat>): nat {
    if n.Some? then n.value else 0
  }

  /** What `record_llm_cost` must be given for one LLM call. */
  function CostOf(reply: LlmReply): seq<real> {
    if reply.LlmRaises? then [] else [if reply.cost.Some? then reply.cost.value else 0.0]
  }

  /** The costs of a list of LLM calls, in order. */
  function CostsOf(made: seq<LlmReply>): seq<real>
    decreases |made|
  {
    if made == [] then [] else CostsOf(made[..|made| - 1]) + CostOf(made[|made| - 1])
  }

  function InOf(reply: LlmReply): nat {
    if reply.LlmRaises? then 0 else OrZero(reply.inTokens)
  }

  function OutOf(reply: LlmReply): nat {
    if reply.LlmRaises? then 0 else OrZero(reply.outTokens)
  }

  /** The input tokens of a list of LLM calls. */
  function InTokens(made: seq<LlmReply>): nat
    decreases |made|
  {
    if made == [] then 0 else InTokens(made[..|made| - 1]) + InOf(made[|made| - 1])
  }

  function OutTokens(made: seq<LlmReply>): nat
    decreases |made|
  {
    if made == [] then 0 else OutTokens(made[..|made| - 1]) + OutOf(made[|made| - 1])
  }

  /** No incurred LLM cost is lost or double-counted. */
  ghost predicate Recorded(made: seq<LlmReply>, spend: seq<real>, inUsed: nat, outUsed: nat) {
    spend == CostsOf(made) && inUsed == InTokens(made) && outUsed == OutTokens(made)
  }

  /** A call that returns costs what it says, or nothing if it does not say; one that raises
      is not recorded at all; and tokens that are not reported count as none. */
  lemma {:induction false} RecordedIs(made: seq<LlmReply>, reply: LlmReply)
    ensures CostsOf([]) == [] && InTokens([]) == OutTokens([]) == 0
    ensures match reply
            case LlmRaises =>
              && CostsOf(made + [reply]) == CostsOf(made)
              && InTokens(made + [reply]) == InTokens(made) && OutTokens(made + [reply]) == OutTokens(made)
            case LlmResult(_, _, cost, inTokens, outTokens) =>
              && CostsOf(made + [reply]) == CostsOf(made) + [if cost.Some? then cost.value else 0.0]
              && InTokens(made + [reply]) == InTokens(made) + (if inTokens.Some? then inTokens.value else 0)
              && OutTokens(made + [reply]) == OutTokens(made) + (if outTokens.Some? then outTokens.value else 0)
  {
    assert (made + [reply])[..|made|] == made;
  }

  lemma {:induction false} RecordedAppend(made: seq<LlmReply>, reply: LlmReply, spend: seq<real>, inUsed: nat, outUsed: nat)
    requires Recorded(made, spend, inUsed, outUsed)
    ensures Recorded(made + [reply], spend + CostOf(reply), inUsed + InOf(reply), outUsed + OutOf(reply))
  {
    assert (made + [reply])[..|made|] == made;
  }

  /** The reviews after a batch: a batch that needs an approval adds its own, fresh and with
      its whole context, if the put takes effect. */
  function WithReview(rows: map<ReviewKey, Row>, key: ReviewKey, now: int, timeoutHours: int, calls: seq<Call>,
                      stop: Stop, asking: Asking): map<ReviewKey, Row> {
    if stop.ApprovalRequired? && Takes(asking.put) then rows[key := FreshRow(now, timeoutHours, ContextFor(calls, stop.tool))]
    else rows
  }

  /** No LLM call raises, and a batch of tool calls, if there is one, completes. */
  ghost predicate Concludes(cfg: Config, first: LlmReply, replies: nat -> Reply, final: LlmReply) {
    && first.LlmResult?
    && (first.calls != [] ==> Execute(cfg, first.calls, None, replies).stop.Completed? && final.LlmResult?)
  }

  class AgentOrchestrator {
    const blockedText: string
    const timeoutHours: int
    const reviews: ReviewTable
    const executor: ToolExecutor
    var llmCalls: seq<LlmReply>           // every LLM call made, with what came back
    var spend: seq<real>                  // every cost recorded
    var memory: seq<(string, string)>     // saved message and response pairs
    var humanReviews: nat                 // pre-LLM reviews created
    ghost var inUsed: nat                 // tokens of all those calls
    ghost var outUsed: nat

    /** No incurred LLM cost is ever lost or double-counted. */
    ghost predicate Valid()
      reads this
    {
      Recorded(llmCalls, spend, inUsed, outUsed)
    }

    constructor (blockedText: string, timeoutHours: int, reviews: ReviewTable, executor: ToolExecutor)
      ensures Valid() && llmCalls == [] && memory == []
      ensures this.reviews == reviews && this.executor == executor
      ensures this.blockedText == blockedText && this.timeoutHours == timeoutHours
    {
      this.blockedText, this.timeoutHours := blockedText, timeoutHours;
      this.reviews, this.executor := reviews, executor;
      llmCalls, spend, memory, humanReviews := [], [], [], 0;
      inUsed, outUsed := 0, 0;
    }

    /** One LLM call, its cost recorded the moment it returns. */
    method Complete(reply: LlmReply)
      requires Valid()
      modifies this`llmCalls, this`spend, this`inUsed, this`outUsed
      ensures Valid() && llmCalls == old(llmCalls) + [reply]
      ensures inUsed == old(inUsed) + InOf(reply) && outUsed == old(outUsed) + OutOf(reply)
    {
      RecordedAppend(llmCalls, reply, spend, inUsed, outUsed);
      inUsed, outUsed := inUsed + InOf(reply), outUsed + OutOf(reply);
      llmCalls := llmCalls + [reply];
      if reply.LlmResult? {
        spend := spend + [if reply.cost.Some? then reply.cost.value else 0.0];
      } else {
        assert spend + CostOf(reply) == spend;
      }
    }

    method Finalize(text: string, message: string, output: GuardCheck) returns (response: string)
      modifies this`memory
      ensures response == if output.blocked then blockedText
                          else if output.sanitised.Some? then output.sanitised.value else text
      ensures memory == old(memory) + [(message, response)]
    {
      response := text;
      if output.blocked {
        response := blockedText;
      } else if output.sanitised.Some? {
        response := output.sanitised.value;
      }
      memory := memory + [(message, response)];
    }

    /** The tool batch of a fresh turn; when it needs an approval, the review is stored
        with everything a resume needs. */
    method CallTools(calls: seq<Call>, replies: nat -> Reply, key: ReviewKey, now: int, asking: Asking)
      returns (stop: Stop, asked: bool)
      modifies reviews, executor
      ensures stop == Execute(executor.cfg, calls, None, replies).stop
      ensures executor.invocations == old(executor.invocations) + Execute(executor.cfg, calls, None, replies).sent
      ensures asked <==> stop.ApprovalRequired? && Asked(asking)
      ensures reviews.rows == WithReview(old(reviews.rows), key, now, timeoutHours, calls, stop, asking)
    {
      var results;
      results, stop := executor.ExecuteBatch(calls, None, replies);
      asked := false;
      if stop.ApprovalRequired? {
        var matched := FirstNamed(calls, stop.tool);
        var id := if matched < |calls| then calls[matched].id else None;
        asked := reviews.RequestApproval(key, now, timeoutHours, TurnContext(calls, id, stop.tool), asking);
      }
    }

    /** From the first LLM call to the reply's text: the text and the tokens so far, or how the
        turn ends without one. */
    method Draft(first: LlmReply, replies: nat -> Reply, final: LlmReply, key: ReviewKey, now: int, asking: Asking)
      returns (r: Result<Drafted, Response>, ghost made: seq<LlmReply>)
      requires Valid()
      modifies this`llmCalls, this`spend, this`inUsed, this`outUsed, reviews, executor
      ensures Valid() && llmCalls == old(llmCalls) + made
      ensures var pass := Execute(executor.cfg, CallsOf(first), None, replies);
              && executor.invocations == old(executor.invocations) + pass.sent
              && reviews.rows == WithReview(old(reviews.rows), key, now, timeoutHours, CallsOf(first), pass.stop, asking)
              && (r.Err? && r.error.AwaitingApproval? <==> pass.stop.ApprovalRequired? && Asked(asking))
              && (r == Err(ReviewRaised) <==> pass.stop.ApprovalRequired? && !Asked(asking))
              && (r.Err? && r.error.ToolRaised? <==> !pass.stop.ApprovalRequired? && !pass.stop.Completed?)
              && (r.Err? && r.error.ToolRaised? ==> r.error.stop == pass.stop)
              && (r == Err(LlmRaised) <==>
                    first.LlmRaises? || (first.calls != [] && pass.stop.Completed? && final.LlmRaises?))
      ensures r.Err? ==> r.error.AwaitingApproval? || r.error.ToolRaised? || r.error in {ReviewRaised, LlmRaised}
      ensures r.Err? && r.error.AwaitingApproval? ==>
                r.error.key == key && r.error.inTokens == inUsed - old(inUsed) && r.error.outTokens == outUsed - old(outUsed)
      ensures r.Ok? ==>
                && r.value.text == (if first.calls == [] then first.content else final.content)
                && r.value.inTokens == inUsed - old(inUsed) && r.value.outTokens == outUsed - old(outUsed)
      ensures made == if first.LlmResult? && first.calls != [] && Execute(executor.cfg, first.calls, None, replies).stop.Completed?
                      then [first, final] else [first]
    {
      Complete(first);
      made := [first];
      if first.LlmRaises? {
        return Err(LlmRaised), made;
      }
      var totalIn, totalOut := OrZero(first.inTokens), OrZero(first.outTokens);
      if first.calls == [] {
        return Ok(Drafted(first.content, totalIn, totalOut)), made;
      }
      var stop, asked := CallTools(first.calls, replies, key, now, asking);
      if stop.ApprovalRequired? {
        return Err(if asked then AwaitingApproval(key, totalIn, totalOut) else ReviewRaised), made;
      }
      if !stop.Completed? {
        return Err(ToolRaised(stop)), made;
      }
      Complete(final);
      made := [first, final];
      if final.LlmRaises? {
        return Err(LlmRaised), made;
      }
      return Ok(Drafted(final.content, totalIn + OrZero(final.inTokens), totalOut + OrZero(final.outTokens))), made;
    }

    /** The turn from the first LLM call on. */
    method Converse(message: string, first: LlmReply, replies: nat -> Reply, final: LlmReply, output: GuardCheck,
                    key: ReviewKey, now: int, asking: Asking)
      returns (r: Response, ghost made: seq<LlmReply>)
      requires Valid()
      modifies this, reviews, executor
      ensures Valid() && llmCalls == old(llmCalls) + made && |made| <= 2
      ensures r.AwaitingApproval? || r.Answer? ==>
                r.inTokens == inUsed - old(inUsed) && r.outTokens == outUsed - old(outUsed)
      ensures !r.InputBlocked? && !r.HumanReview?
      ensures var pass := Execute(executor.cfg, CallsOf(first), None, replies);
              && executor.invocations == old(executor.invocations) + pass.sent
              && (r.AwaitingApproval? <==> pass.stop.ApprovalRequired? && Asked(asking))
              && (r.ReviewRaised? <==> pass.stop.ApprovalRequired? && !Asked(asking))
              && reviews.rows == WithReview(old(reviews.rows), key, now, timeoutHours, CallsOf(first), pass.stop, asking)
      ensures r.AwaitingApproval? || r.ReviewRaised? ==> made == [first]
      ensures r.AwaitingApproval? ==> r.key == key
      ensures if r.Answer? then memory == old(memory) + [(message, r.text)] else memory == old(memory)
      // an answer when nothing raised and nothing paused, and which text it is
      ensures r.Answer? <==> Concludes(executor.cfg, first, replies, final)
      ensures r.Answer? ==>
                && r.text == (if output.blocked then blockedText
                              else if output.sanitised.Some? then output.sanitised.value
                              else if first.calls == [] then first.content else final.content)
                && made == if first.calls == [] then [first] else [first, final]
    {
      var drafted;
      drafted, made := Draft(first, replies, final, key, now, asking);
      if drafted.Err? {
        return drafted.error, made;
      }
      var response := Finalize(drafted.value.text, message, output);
      return Answer(response, drafted.value.inTokens, drafted.value.outTokens), made;
    }

    /** A fresh turn. Its oracles: the two guardrail checks, the pre-LLM pause, the two
        LLM replies, the Lambda replies, the fresh review key, the clock, and how asking for
        the review goes. */
    method Run(message: string, input: GuardCheck, pause: bool, first: LlmReply, replies: nat -> Reply,
               final: LlmReply, output: GuardCheck, key: ReviewKey, now: int, asking: Asking)
      returns (r: Response, ghost made: seq<LlmReply>)
      requires Valid()
      modifies this, reviews, executor
      // every LLM call's cost is recorded, and the tokens of this turn's calls reported
      ensures Valid() && llmCalls == old(llmCalls) + made && |made| <= 2
      ensures r.HumanReview? || r.AwaitingApproval? || r.Answer? ==>
                r.inTokens == inUsed - old(inUsed) && r.outTokens == outUsed - old(outUsed)
      // a blocked or paused turn reaches neither the LLM nor a tool
      ensures r.InputBlocked? <==> input.blocked
      ensures r.HumanReview? <==> !input.blocked && pause
      ensures input.blocked || pause ==>
                && made == [] && executor.invocations == old(executor.invocations)
                && reviews.rows == old(reviews.rows) && memory == old(memory)
      // otherwise it pauses exactly on an approval-required batch whose review could be asked
      // for; the whole context is stored, also when only the notification failed
      ensures !input.blocked && !pause ==>
                var pass := Execute(executor.cfg, CallsOf(first), None, replies);
                && executor.invocations == old(executor.invocations) + pass.sent
                && (r.AwaitingApproval? <==> pass.stop.ApprovalRequired? && Asked(asking))
                && (r.ReviewRaised? <==> pass.stop.ApprovalRequired? && !Asked(asking))
                && (r.AwaitingApproval? || r.ReviewRaised? ==> made == [first])
                && (r.AwaitingApproval? ==> r.key == key)
                && reviews.rows == WithReview(old(reviews.rows), key, now, timeoutHours, CallsOf(first), pass.stop, asking)
      // an answer when nothing raised and nothing paused, and which text it is
      ensures r.Answer? <==> !input.blocked && !pause && Concludes(executor.cfg, first, replies, final)
      ensures r.Answer? ==>
                && r.text == (if output.blocked then blockedText
                              else if output.sanitised.Some? then output.sanitised.value
                              else if first.calls == [] then first.content else final.content)
                && made == if first.calls == [] then [first] else [first, final]
      // memory is saved exactly by a finished turn, under the sanitised message if there is one
      ensures memory == old(memory) + if !r.Answer? then []
                                      else [(if input.sanitised.Some? && input.sanitised.value != ""
                                             then input.sanitised.value else message, r.text)]
    {
      made := [];
      if input.blocked {
        return InputBlocked, made;
      }
      var effective := Effective(input, message);
      if pause {
        humanReviews := humanReviews + 1;
        return HumanReview(0, 0), made;
      }
      r, made := Converse(effective, first, replies, final, output, key, now, asking);
    }

    /** A resume call, run without interference between its steps. */
    method ResumeAfterApproval(key: ReviewKey, now: int, replies: nat -> Reply, final: LlmReply, output: GuardCheck,
                               message: string)
      returns (r: Response)
      requires Valid()
      modifies this, reviews, executor
      ensures Valid()
      // nothing to act on: nothing changes
      ensures var verdict := VerdictOn(old(reviews.Lookup(key)), now);
              r.NotDecided? <==> verdict in {StillPending, NotFound}
      ensures r == AlreadyProcessed <==> !r.NotDecided? && old(Claimed(reviews.Lookup(key)))
      ensures r.NotDecided? || r.AlreadyProcessed? ==> reviews.rows == old(reviews.rows)
      ensures r.NotDecided? || r.AlreadyProcessed? || r.Refusal? ==>
                && executor.invocations == old(executor.invocations)
                && llmCalls == old(llmCalls) && memory == old(memory)
      // otherwise the review is claimed for good, and only a grant runs the stored batch
      ensures !r.NotDecided? ==> Claimed(reviews.Lookup(key))
      ensures r.Refusal? <==>
                && !old(Claimed(reviews.Lookup(key)))
                && VerdictOn(old(reviews.Lookup(key)), now) in {Decided(Rejected), TimedOut}
      ensures var verdict := VerdictOn(old(reviews.Lookup(key)), now);
              Grants(verdict) && !old(Claimed(reviews.Lookup(key))) ==>
                executor.invocations == old(executor.invocations) +
                  Resumed(executor.cfg, ContextIn(old(reviews.Lookup(key))), replies).sent
      // an answer when the review is granted, claimed here, the stored batch completes and the
      // LLM answers; which text it is, and whose tokens are reported
      ensures r.Answer? <==>
                && VerdictOn(old(reviews.Lookup(key)), now) in {Decided(Approved), Decided(InfoRequested)}
                && !old(Claimed(reviews.Lookup(key)))
                && Resumed(executor.cfg, ContextIn(old(reviews.Lookup(key))), replies).stop.Completed?
                && final.LlmResult?
      ensures r.Answer? ==>
                && r.text == (if output.blocked then blockedText
                              else if output.sanitised.Some? then output.sanitised.value else final.content)
                && r.inTokens == (if final.inTokens.Some? then final.inTokens.value else 0)
                && r.outTokens == (if final.outTokens.Some? then final.outTokens.value else 0)
                && llmCalls == old(llmCalls) + [final]
      ensures if r.Answer? then memory == old(memory) + [(message, r.text)] else memory == old(memory)
    {
      var verdict, context := reviews.GetDecision(key, now);
      if verdict == StillPending || verdict == NotFound {
        return NotDecided(verdict);
      }
      var ctx := if context.Some? then context.value else TurnContext([], None, "");
      var claimed := reviews.TryClaimResume(key, now);
      if !claimed {
        return AlreadyProcessed;
      }
      if verdict == Decided(Rejected) || verdict == TimedOut {
        return Refusal(verdict);
      }
      var results, stop := executor.ExecuteBatch(ctx.calls, ctx.approvedCallId, replies);
      if !stop.Completed? {
        return ToolRaised(stop);
      }
      Complete(final);
      if final.LlmRaises? {
        return LlmRaised;
      }
      var text := Finalize(final.content, message, output);
      return Answer(text, OrZero(final.inTokens), OrZero(final.outTokens));
    }
  }

  function CallsOf(reply: LlmReply): seq<Call> {
    if reply.LlmRaises? then [] else reply.calls
  }

  /** The sanitised message when there is a non-empty one. */
  function Effective(input: GuardCheck, message: string): string {
    if input.sanitised.Some? && input.sanitised.value != "" then input.sanitised.value else message
  }

  function ContextIn(row: Option<Row>): TurnContext {
    if row.Some? && row.value.Row? && row.value.context.Some? then row.value.context.value
    else TurnContext([], None, "")
  }

  // ----- the paused call, over the whole life of its review -----

  /** Everybody who reads the review, now or later, reads the stored context. */
  ghost predicate Carries(s: State, ctx: TurnContext) {
    && s.row.Some? && s.row.value.Row? && s.row.value.context == Some(ctx)
    && forall d :: d in s.deciders && s.deciders[d].Holding? ==>
         s.deciders[d].read.Row? && s.deciders[d].read.context == Some(ctx)
  }

  lemma {:induction false} ContextIsCarried(s: State, es: seq<Event>, ctx: TurnContext)
    requires Carries(s, ctx) && After(s, es).Some?
    ensures Carries(After(s, es).value, ctx)
    decreases |es|
  {
    if es != [] {
      ContextIsCarried(Next(s, es[0]).value, es[1..], ctx);
    }
  }

  /** How often the resume calls that ran the tools invoked call k. Each of them meets
      its own Lambda replies. */
  function InvokedBy(cfg: Config, ctx: TurnContext, replies: nat -> nat -> Reply, runs: seq<nat>, k: nat): nat {
    if runs == [] then 0
    else Count(k, Resumed(cfg, ctx, replies(runs[0])).invoked) + InvokedBy(cfg, ctx, replies, runs[1..], k)
  }

  lemma {:induction false} InvokedByBound(cfg: Config, calls: seq<Call>, first: nat -> Reply,
                                          replies: nat -> nat -> Reply, runs: seq<nat>, k: nat)
    requires Paused(cfg, calls, first) && OwnIds(calls) && k < |calls| && Risky(cfg, calls[k])
    ensures var pass := Execute(cfg, calls, None, first);
            var n := InvokedBy(cfg, ContextFor(calls, pass.stop.tool), replies, runs, k);
            n <= |runs| && (k != pass.at ==> n == 0)
  {
    if runs != [] {
      RiskyAtMostOnce(cfg, calls, first, replies(runs[0]), k);
      InvokedByBound(cfg, calls, first, replies, runs[1..], k);
    }
  }

  /** A turn pauses, and any number of resumers and deciders then race on its review:
      over the whole life of the review, first pass included, no HIGH/DESTRUCTIVE call of
      the batch but the paused one is ever invoked; the paused one at most once per
      execution, so at most once plus the puts that wiped out a claim; and when every
      decision is atomic, at most once in all and only with the review approved or
      info_requested. */
  lemma {:induction false} PausedCallSafety(s: State, es: seq<Event>, cfg: Config, calls: seq<Call>, first: nat -> Reply,
                         replies: nat -> nat -> Reply, k: nat)
    requires Requested(s) && After(s, es).Some?
    requires Paused(cfg, calls, first) && OwnIds(calls) && k < |calls| && Risky(cfg, calls[k])
    requires s.row.value.context == Some(ContextFor(calls, Execute(cfg, calls, None, first).stop.tool))
    ensures var t := After(s, es).value;
            var pass := Execute(cfg, calls, None, first);
            var total := Count(k, pass.invoked) + InvokedBy(cfg, ContextIn(t.row), replies, t.runs, k);
            && total <= |t.runs| <= 1 + t.erased
            && (k != pass.at ==> total == 0)
            && (DecidesAtomically(es) ==> total <= 1)
            && (DecidesAtomically(es) && total == 1 ==> StatusIs(t.row, Approved) || StatusIs(t.row, InfoRequested))
  {
    var t := After(s, es).value;
    var ctx := ContextFor(calls, Execute(cfg, calls, None, first).stop.tool);
    ContextIsCarried(s, es, ctx);
    RiskyAtMostOnce(cfg, calls, first, replies(0), k);
    InvokedByBound(cfg, calls, first, replies, t.runs, k);
    ClaimsBoundedByErasures(s, es);
    if DecidesAtomically(es) {
      ToolsRunAtMostOnce(s, es);
    }
  }
}
