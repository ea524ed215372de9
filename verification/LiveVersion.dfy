/** The live version on the agent's record, beside every other writer of that record: each
    reads the whole item and later puts the whole item back (app/modules/registry/store.py).
    `mark_deployment_active` does so too, but sets the live version whatever it read; all
    others, `mark_deployment_blocked`, rotations and revocations among them, carry the live
    version over from their read. */
module LiveVersion {
  import opened Common
  import opened Deployment
  import R = ApprovalRaces

  /** A writer's copy: the live version it read, and how many marks had landed then. */
  datatype Copy = Copy(live: Option<int>, marks: nat)

  /** The deployment, the live version on the agent's record, the marks that landed, and the
      writers between their read and their put. */
  datatype System = System(d: R.System, live: Option<int>, marks: nat, writers: map<nat, Copy>)

  datatype Event = Deploy(e: R.Event) | ReadAgent(w: nat) | PutAgent(w: nat)

  function Head(run: R.Runner): Option<Op> {
    if run.todo == [] then None else Some(run.todo[0])
  }

  /** The version that a step of the deployment makes live, if it is a mark. */
  function MarkOf(d: R.System, e: R.Event): Option<int> {
    var op := if e.MainStep? then Head(d.main) else if e.RunStep? && e.a in d.runs then Head(d.runs[e.a]) else None;
    if op.Some? && op.value.MarkActive? then Some(op.value.version) else None
  }

  function Next(s: System, e: Event, i: Inputs): System {
    match e
    case Deploy(e) =>
      var mark := MarkOf(s.d, e);
      var d := R.Next(s.d, e, i);
      if mark.Some? then s.(d := d, live := mark, marks := s.marks + 1) else s.(d := d)
    case ReadAgent(w) => if w in s.writers then s else s.(writers := s.writers[w := Copy(s.live, s.marks)])
    case PutAgent(w) => if w !in s.writers then s else s.(live := s.writers[w].live, writers := s.writers - {w})
  }

  function After(s: System, es: seq<Event>, i: Inputs): System
    decreases |es|
  {
    if es == [] then s else Next(After(s, es[..|es| - 1], i), es[|es| - 1], i)
  }

  function Triggered(w: World, i: Inputs): System {
    System(R.Triggered(w, i), w.live, 0, map[])
  }

  // ----- the deployment does not notice -----

  function Deploys(es: seq<Event>): seq<R.Event>
    decreases |es|
  {
    if es == [] then []
    else Deploys(es[..|es| - 1]) + if es[|es| - 1].Deploy? then [es[|es| - 1].e] else []
  }

  lemma {:induction false} Projects(w: World, es: seq<Event>, i: Inputs)
    ensures After(Triggered(w, i), es, i).d == R.After(R.Triggered(w, i), Deploys(es), i)
    decreases |es|
  {
    if es != [] {
      var before, last := es[..|es| - 1], es[|es| - 1];
      Projects(w, before, i);
      if last.Deploy? {
        assert Deploys(es) == Deploys(before) + [last.e];
        OneMore(R.Triggered(w, i), Deploys(before), last.e, i);
      } else {
        assert Deploys(es) == Deploys(before);
      }
    }
  }

  lemma {:induction false} OneMore(d: R.System, es: seq<R.Event>, e: R.Event, i: Inputs)
    ensures R.After(d, es + [e], i) == R.Next(R.After(d, es, i), e, i)
  {
    R.AfterConcat(d, es, [e], i);
    assert R.After(R.After(d, es, i), [e], i) == R.Next(R.After(d, es, i), e, i);
  }

  lemma {:induction false} DeployInv(w: World, es: seq<Event>, i: Inputs)
    requires Fresh(w)
    ensures R.Inv(After(Triggered(w, i), es, i).d, w, i)
  {
    Projects(w, es, i);
    R.TriggeredInv(w, i);
    R.InvRun(R.Triggered(w, i), Deploys(es), w, i);
  }

  /** A mark always marks this deployment's version. */
  lemma {:induction false} MarksTheVersion(d: R.System, e: R.Event, w: World, i: Inputs)
    requires R.Inv(d, w, i) && MarkOf(d, e).Some?
    ensures MarkOf(d, e) == Some(w.record.version) && R.Next(d, e, i).world.live == Some(w.record.version)
  {
    if d.accepted == [] {
      var at: Progress :| R.Tidy(d.world, w.live, w.record, d.main, at);
      R.MovedByHead(w.record, at, d.main.todo);
    } else {
      assert e.RunStep?;
      var run := d.runs[e.a];
      assert R.RunOk(run, w.record, d.world.live == Some(w.record.version));
      assert R.Finishing(run.todo[0], w.record.version);
    }
  }

  lemma {:induction false} OnlyMarksMove(d: R.System, e: R.Event, i: Inputs)
    requires MarkOf(d, e).None?
    ensures R.Next(d, e, i).world.live == d.world.live
  {
  }

  // ----- when the live version is rewound -----

  /** A put by a writer that had read the record before the first mark, after a mark. */
  predicate Late(s: System, e: Event) {
    e.PutAgent? && e.w in s.writers && s.writers[e.w].marks == 0 < s.marks
  }

  predicate HasLate(s: System, es: seq<Event>, i: Inputs) {
    exists k :: 0 <= k < |es| && Late(After(s, es[..k], i), es[k])
  }

  /** The version has been made live, and the agent's record says otherwise. */
  predicate Rewound(s: System, version: int) {
    s.marks > 0 && s.live != Some(version)
  }

  predicate EverRewound(s: System, es: seq<Event>, i: Inputs, version: int) {
    exists k :: 0 <= k <= |es| && Rewound(After(s, es[..k], i), version)
  }

  /** What a live version reads, given how many marks have landed. */
  predicate Tells(live: Option<int>, marks: nat, w: World) {
    live == if marks == 0 then w.live else Some(w.record.version)
  }

  /** The record and every copy of it say what the marks say. */
  ghost predicate Faithful(s: System, w: World) {
    && Tells(s.live, s.marks, w) && s.live == s.d.world.live
    && forall c :: c in s.writers ==> Tells(s.writers[c].live, s.writers[c].marks, w) && s.writers[c].marks <= s.marks
  }

  lemma {:induction false} DeployStep(s: System, e: R.Event, w: World, i: Inputs)
    requires R.Inv(s.d, w, i) && Faithful(s, w)
    ensures Faithful(Next(s, Deploy(e), i), w)
  {
    if MarkOf(s.d, e).Some? {
      MarksTheVersion(s.d, e, w, i);
    } else {
      OnlyMarksMove(s.d, e, i);
    }
  }

  lemma {:induction false} FaithfulStep(s: System, e: Event, w: World, i: Inputs)
    requires R.Inv(s.d, w, i) && Faithful(s, w)
    ensures !Late(s, e) ==> Faithful(Next(s, e, i), w)
    ensures Late(s, e) && w.live != Some(w.record.version) ==> Rewound(Next(s, e, i), w.record.version)
  {
    if e.Deploy? {
      DeployStep(s, e.e, w, i);
    }
  }

  lemma {:induction false} FaithfulUntilLate(w: World, es: seq<Event>, i: Inputs)
    requires Fresh(w) && !HasLate(Triggered(w, i), es, i)
    ensures Faithful(After(Triggered(w, i), es, i), w)
    decreases |es|
  {
    if es != [] {
      var s0, rest := Triggered(w, i), es[..|es| - 1];
      assert forall k :: 0 <= k < |rest| ==> rest[..k] == es[..k] && rest[k] == es[k];
      assert !Late(After(s0, rest, i), es[|es| - 1]);
      FaithfulUntilLate(w, rest, i);
      DeployInv(w, rest, i);
      FaithfulStep(After(s0, rest, i), es[|es| - 1], w, i);
    }
  }

  lemma {:induction false} LateSplits(s: System, es: seq<Event>, i: Inputs)
    requires es != []
    ensures HasLate(s, es, i) <==> HasLate(s, es[..|es| - 1], i) || Late(After(s, es[..|es| - 1], i), es[|es| - 1])
  {
    var rest := es[..|es| - 1];
    assert forall k :: 0 <= k < |rest| ==> rest[..k] == es[..k] && rest[k] == es[k];
  }

  lemma {:induction false} RewoundSplits(s: System, es: seq<Event>, i: Inputs, version: int)
    requires es != []
    ensures EverRewound(s, es, i, version) <==> EverRewound(s, es[..|es| - 1], i, version) || Rewound(After(s, es, i), version)
  {
    var rest := es[..|es| - 1];
    assert es[..|es|] == es;
    assert forall k :: 0 <= k <= |rest| ==> rest[..k] == es[..k];
  }

  /** In every run of a deployment of another version than the live one, with any number of
      approvers and of other writers of the agent's record: the live version is ever rewound
      if and only if a put lands after a mark whose read preceded every mark. */
  lemma {:induction false} RewoundIff(w: World, i: Inputs, es: seq<Event>)
    requires Fresh(w) && w.live != Some(w.record.version)
    ensures EverRewound(Triggered(w, i), es, i, w.record.version) <==> HasLate(Triggered(w, i), es, i)
    decreases |es|
  {
    var s0 := Triggered(w, i);
    if es == [] {
      assert forall k :: 0 <= k <= |es| ==> es[..k] == [];
    } else {
      var rest := es[..|es| - 1];
      RewoundIff(w, i, rest);
      LateSplits(s0, es, i);
      RewoundSplits(s0, es, i, w.record.version);
      if !HasLate(s0, rest, i) {
        FaithfulUntilLate(w, rest, i);
        DeployInv(w, rest, i);
        FaithfulStep(After(s0, rest, i), es[|es| - 1], w, i);
      }
    }
  }

  predicate Spares(es: seq<Event>, w: nat) {
    forall k :: 0 <= k < |es| ==> es[k].Deploy? || es[k].w != w
  }

  lemma {:induction false} CopyStays(s: System, es: seq<Event>, i: Inputs, x: nat)
    requires x in s.writers && Spares(es, x)
    ensures x in After(s, es, i).writers && After(s, es, i).writers[x] == s.writers[x]
    decreases |es|
  {
    if es != [] {
      CopyStays(s, es[..|es| - 1], i, x);
      assert Spares([es[|es| - 1]], x);
    }
  }

  lemma {:induction false} AfterConcat(s: System, a: seq<Event>, b: seq<Event>, i: Inputs)
    ensures After(s, a + b, i) == After(After(s, a, i), b, i)
    decreases |b|
  {
    if b == [] {
      assert a + b == a;
    } else {
      assert (a + b)[..|a + b| - 1] == a + b[..|b| - 1];
      AfterConcat(s, a, b[..|b| - 1], i);
    }
  }

  lemma {:induction false} NoMarkNoChange(w: World, es: seq<Event>, i: Inputs)
    requires After(Triggered(w, i), es, i).marks == 0
    ensures var s := After(Triggered(w, i), es, i);
            s.live == w.live && forall x :: x in s.writers ==> s.writers[x].live == w.live
    decreases |es|
  {
    if es != [] {
      NoMarkNoChange(w, es[..|es| - 1], i);
    }
  }

  /** How: a writer that read the record before any mark puts the version of before back,
      whatever the deployment and the other writers did meanwhile. */
  lemma {:induction false} OldCopyRewinds(w: World, i: Inputs, before: seq<Event>, between: seq<Event>, x: nat)
    requires var s := After(Triggered(w, i), before, i); x !in s.writers && s.marks == 0
    requires Spares(between, x)
    ensures var t := After(Triggered(w, i), before + [ReadAgent(x)] + between, i);
            var t' := After(Triggered(w, i), before + [ReadAgent(x)] + between + [PutAgent(x)], i);
            && t'.live == w.live && t'.d == t.d && t'.marks == t.marks
            && (t.marks > 0 && w.live != Some(w.record.version) ==> Rewound(t', w.record.version))
  {
    var s0 := Triggered(w, i);
    NoMarkNoChange(w, before, i);
    AfterConcat(s0, before, [ReadAgent(x)], i);
    var s := After(s0, before, i);
    assert [ReadAgent(x)][..0] == [];
    assert After(s, [ReadAgent(x)], i) == Next(s, ReadAgent(x), i);
    AfterConcat(s0, before + [ReadAgent(x)], between, i);
    CopyStays(After(s0, before + [ReadAgent(x)], i), between, i, x);
    var all := before + [ReadAgent(x)] + between;
    AfterConcat(s0, all, [PutAgent(x)], i);
    assert [PutAgent(x)][..0] == [];
  }

  /** Every state such a run can reach: without a late put all that is promised of a deployment
      holds with the live version on the agent's record; with one, all but that. */
  lemma {:induction false} PipelineSafety(w: World, i: Inputs, es: seq<Event>)
    requires Fresh(w)
    ensures var t := After(Triggered(w, i), es, i);
            && R.GateHolds(w, t.d.world)
            && (!HasLate(Triggered(w, i), es, i) ==>
                  t.live == t.d.world.live && (|t.d.accepted| <= 1 ==> Safe(w, t.d.world)))
  {
    Projects(w, es, i);
    R.PipelineSafety(w, i, Deploys(es));
    if !HasLate(Triggered(w, i), es, i) {
      FaithfulUntilLate(w, es, i);
    }
  }
}
