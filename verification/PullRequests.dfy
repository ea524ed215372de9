/** The pull request of a deployment, whatever calls fail and however approvals race: what
    the record says is what became of the request (deployment/pipeline_simulator.py,
    deployment/git_provider.py). */
module PullRequests {
  import opened Common
  import opened Deployment
  import opened ApprovalRaces

  /** What a run may do to the request, what becomes of it, and what the record then says. */
  datatype Fate = Fate(call: Op, result: PullRequest, status: Overall)

  function FateOf(i: Inputs): Fate {
    if Blocks(i) then Fate(ClosePr, Closed, Blocked) else Fate(MergePr, Merged, Active)
  }

  predicate CallsPr(op: Op) {
    op.MergePr? || op.ClosePr?
  }

  /** A status that ends a run for good. */
  predicate Ends(status: Overall) {
    status == Active || status == Blocked
  }

  predicate Final(op: Op) {
    op.SetStage? && op.overall.Some? && Ends(op.overall.value)
  }

  /** Only this fate's call and final status; a blocked run is never parked. */
  predicate Fitting(op: Op, i: Inputs) {
    && (CallsPr(op) ==> op == FateOf(i).call)
    && (Final(op) ==> op.overall.value == FateOf(i).status)
    && (op.SetStage? && op.overall == Some(PendingApproval) ==> !Blocks(i))
  }

  /** The request is dealt with before the final status is written. */
  predicate Settled(todo: seq<Op>, pr: PullRequest, i: Inputs) {
    && (forall k :: 0 <= k < |todo| ==> Fitting(todo[k], i))
    && (forall k :: 0 <= k < |todo| && Final(todo[k]) ==> pr == FateOf(i).result || exists j :: 0 <= j < k && todo[j] == FateOf(i).call)
  }

  predicate Truthful(rec: Record, pr: PullRequest, w: Record, i: Inputs) {
    && rec.pullRequest == w.pullRequest
    && (Ends(rec.status) ==> rec.status == FateOf(i).status && pr == FateOf(i).result)
    && (rec.status == PendingApproval ==> !Blocks(i))
  }

  predicate RunSettled(run: Runner, pr: PullRequest, w: Record, i: Inputs) {
    && Settled(run.todo, pr, i)
    && (run.held.Some? ==> Truthful(run.held.value, pr, w, i))
  }

  ghost predicate Accounted(s: System, w: Record, i: Inputs) {
    var pr := s.world.pr;
    && (pr == Open || pr == FateOf(i).result)
    && Truthful(s.world.record, pr, w, i)
    && RunSettled(s.main, pr, w, i)
    && (forall a :: a in s.runs ==> RunSettled(s.runs[a], pr, w, i))
    && (forall a :: a in s.approvers && s.approvers[a].Holding? ==> Truthful(s.approvers[a].read, pr, w, i))
    && (Blocks(i) ==> s.approvers == map[])
  }

  // ----- the scripts -----

  lemma {:induction false} EntriesFirst(entries: seq<Op>, todo: seq<Op>, pr: PullRequest, i: Inputs)
    requires EntriesOnly(entries) && Settled(todo, pr, i)
    ensures Settled(entries + todo, pr, i)
  {
    var all, n := entries + todo, |entries|;
    forall k | 0 <= k < |all|
      ensures Fitting(all[k], i)
      ensures Final(all[k]) ==> pr == FateOf(i).result || exists j :: 0 <= j < k && all[j] == FateOf(i).call
    {
      if k < n {
        assert entries[k] in entries;
      } else if Final(todo[k - n]) && pr != FateOf(i).result {
        var j :| 0 <= j < k - n && todo[j] == FateOf(i).call;
        assert all[n + j] == FateOf(i).call;
      }
    }
  }

  lemma {:induction false} FinishSettles(r: Record, i: Inputs)
    requires HasRequest(r, i) && !Blocks(i)
    ensures Settled(FinishScript(r, i), Open, i)
  {
    var entries, todo := Advance([8, 9]), FinishScript(r, i);
    AdvanceIsEntries([8, 9]);
    assert todo == [MergePr] + entries + LiveScript(r);
    assert todo[0] == MergePr;
    forall k | 0 <= k < |todo|
      ensures Fitting(todo[k], i) && (Final(todo[k]) ==> 0 < k)
    {
      if 0 < k <= |entries| {
        assert todo[k] == entries[k - 1] && entries[k - 1] in entries;
      }
    }
  }

  lemma {:induction false} RunSettles(r: Record, i: Inputs)
    requires HasRequest(r, i)
    ensures Settled(RunScript(r, i), Open, i)
  {
    RunInParts(r, i);
    UpToGateIsEntries(i);
    var end := EndScript(r, i);
    if Blocks(i) {
      var s := BlockScript(r, i, i.scan.value.reason);
      assert AtGate(r, i) + end == s;
      assert s[0] == ClosePr && |s| == 3;
    } else {
      if !r.manual {
        FinishSettles(r, i);
      }
      EntriesFirst(AtGate(r, i), end, Open, i);
    }
    EntriesFirst(UpToGate(i), AtGate(r, i) + end, Open, i);
  }

  // ----- the steps -----

  lemma {:induction false} StepSettles(w: World, run: Runner, r: Record, i: Inputs)
    requires w.pr == Open || w.pr == FateOf(i).result
    requires Truthful(w.record, w.pr, r, i) && RunSettled(run, w.pr, r, i)
    ensures var w', run' := Stepped(w, run).0, Stepped(w, run).1;
            && (w'.pr == w.pr || w'.pr == FateOf(i).result)
            && Truthful(w'.record, w'.pr, r, i) && RunSettled(run', w'.pr, r, i)
  {
    if run.todo != [] && !Waits(run) {
      var op, todo := run.todo[0], run.todo[1..];
      var pr := Stepped(w, run).0.pr;
      assert Fitting(op, i);
      forall k | 0 <= k < |todo|
        ensures Fitting(todo[k], i)
        ensures Final(todo[k]) ==> pr == FateOf(i).result || exists j :: 0 <= j < k && todo[j] == FateOf(i).call
      {
        assert todo[k] == run.todo[k + 1];
        if Final(todo[k]) && pr != FateOf(i).result {
          var j :| 0 <= j < k + 1 && run.todo[j] == FateOf(i).call;
          assert todo[j - 1] == FateOf(i).call;
        }
      }
    }
  }

  lemma {:induction false} AccountedStep(s: System, e: Event, w: Record, i: Inputs)
    requires Accounted(s, w, i) && (w.pullRequest.Some? && i.repoKnown)
    ensures Accounted(Next(s, e, i), w, i)
  {
    if e.MainStep? {
      StepSettles(s.world, s.main, w, i);
    } else if e.RunStep? && e.a in s.runs {
      StepSettles(s.world, s.runs[e.a], w, i);
    } else if e.Put? && e.a in s.approvers && s.approvers[e.a].Holding? {
      FinishSettles(s.approvers[e.a].read, i);
    }
  }

  lemma {:induction false} AccountedRun(s: System, es: seq<Event>, w: Record, i: Inputs)
    requires Accounted(s, w, i) && w.pullRequest.Some? && i.repoKnown
    ensures Accounted(After(s, es, i), w, i)
    decreases |es|
  {
    if es != [] {
      AccountedStep(s, es[0], w, i);
      AccountedRun(Next(s, es[0], i), es[1..], w, i);
    }
  }

  // ----- without a request -----

  predicate NoCalls(todo: seq<Op>) {
    forall k :: 0 <= k < |todo| ==> !CallsPr(todo[k])
  }

  predicate Alone(run: Runner, r: Record) {
    NoCalls(run.todo) && (run.held.Some? ==> run.held.value.pullRequest == r.pullRequest)
  }

  ghost predicate LeftAlone(s: System, w: World) {
    && s.world.pr == w.pr && s.world.record.pullRequest == w.record.pullRequest
    && Alone(s.main, w.record)
    && (forall a :: a in s.runs ==> Alone(s.runs[a], w.record))
    && (forall a :: a in s.approvers && s.approvers[a].Holding? ==> s.approvers[a].read.pullRequest == w.record.pullRequest)
  }

  lemma {:induction false} NoCallsIn(a: seq<Op>, b: seq<Op>)
    requires EntriesOnly(a) && NoCalls(b)
    ensures NoCalls(a + b)
  {
    assert forall k :: 0 <= k < |a| ==> a[k] in a;
  }

  lemma {:induction false} FinishCallsNothing(r: Record, i: Inputs)
    requires !HasRequest(r, i)
    ensures NoCalls(FinishScript(r, i))
  {
    AdvanceIsEntries([8, 9]);
    NoCallsIn(Advance([8, 9]), LiveScript(r));
    assert FinishScript(r, i) == Advance([8, 9]) + LiveScript(r);
  }

  lemma {:induction false} RunCallsNothing(r: Record, i: Inputs)
    requires !HasRequest(r, i)
    ensures NoCalls(RunScript(r, i))
  {
    RunInParts(r, i);
    UpToGateIsEntries(i);
    if !Blocks(i) {
      if !r.manual {
        FinishCallsNothing(r, i);
      }
      NoCallsIn(AtGate(r, i), EndScript(r, i));
    }
    NoCallsIn(UpToGate(i), AtGate(r, i) + EndScript(r, i));
  }

  lemma {:induction false} StepLeaves(w: World, run: Runner, r: Record)
    requires Alone(run, r) && w.record.pullRequest == r.pullRequest
    ensures var w', run' := Stepped(w, run).0, Stepped(w, run).1;
            w'.pr == w.pr && w'.record.pullRequest == r.pullRequest && Alone(run', r)
  {}

  lemma {:induction false} LeftAloneRun(s: System, es: seq<Event>, w: World, i: Inputs)
    requires LeftAlone(s, w) && !HasRequest(w.record, i)
    ensures LeftAlone(After(s, es, i), w)
    decreases |es|
  {
    if es != [] {
      var e := es[0];
      if e.MainStep? {
        StepLeaves(s.world, s.main, w.record);
      } else if e.RunStep? && e.a in s.runs {
        StepLeaves(s.world, s.runs[e.a], w.record);
      } else if e.Put? && e.a in s.approvers && s.approvers[e.a].Holding? {
        FinishCallsNothing(s.approvers[e.a].read, i);
      }
      LeftAloneRun(Next(s, e, i), es[1..], w, i);
    }
  }

  // ----- in every reachable state -----

  /** In every state a triggered deployment can reach, raced approvals included. With a
      request in a known repository: ACTIVE only when it is merged, BLOCKED only when it is
      closed; it is merged only if nothing blocked the run, closed only if something did, and
      it is still open while a manual run that is not blocked waits for its approval. Without
      one nothing ever happens to it. */
  lemma {:induction false} RequestFollows(w: World, i: Inputs, es: seq<Event>)
    requires Fresh(w)
    ensures var w' := After(Triggered(w, i), es, i).world;
            var blocked := i.scan.Some? && i.scan.value.block;
            if w.record.pullRequest.Some? && i.repoKnown then
              && (w'.record.status == Active ==> w'.pr == Merged)
              && (w'.record.status == Blocked ==> w'.pr == Closed)
              && (w'.pr == Open || w'.pr == if blocked then Closed else Merged)
              && (w'.record.manual && w'.record.approvedBy == None && !blocked ==> w'.pr == Open)
            else w'.pr == w.pr
  {
    var s := Triggered(w, i);
    if HasRequest(w.record, i) {
      RunSettles(w.record, i);
      AccountedRun(s, es, w.record, i);
      PipelineSafety(w, i, es);
    } else {
      RunCallsNothing(w.record, i);
      LeftAloneRun(s, es, w, i);
    }
  }
}
