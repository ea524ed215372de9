/** Any number of platform upgrades at once, sharing the service pointer, each with its own
    record, failing at any call (lambda_handlers/platform_*.py). Nothing in the code keeps
    them apart. */
module UpgradeRaces {
  import opened Common
  import opened PlatformUpgrade

  /** Under way; past its health check; in its failure branch; over there; or its failure
      branch itself raised. */
  datatype Stage = Underway | Passed | Failing | TakenBack | Stuck

  /** One upgrade: the revision it read as the service's, the one it registered, whether
      both are on its record, and whether it has pointed the service at its own. */
  datatype One = One(image: string, version: string, prev: Option<Arn>, next: Option<Arn>,
                     recorded: bool, switched: bool, stage: Stage)

  datatype Platform = Platform(pointer: Arn, revisions: map<Arn, TaskDefinition>, upgrades: map<nat, One>)

  datatype Event =
    | Start(u: nat, image: string, version: string)
    | Describe(u: nat)
    | Register(u: nat, arn: Arn)
    | Record(u: nat)
    | Switch(u: nat)
    | Pass(u: nat)
    | Fail(u: nat)
    | Revert(u: nat)
    | Stick(u: nat)

  function With(s: Platform, u: nat, one: One): Platform {
    s.(upgrades := s.upgrades[u := one])
  }

  /** One call of one upgrade; an event that cannot happen here changes nothing. A call that
      raises after taking effect is its event followed by `Fail`. */
  function Next(s: Platform, e: Event): Platform {
    if e.Start? then
      if e.u in s.upgrades then s else With(s, e.u, One(e.image, e.version, None, None, false, false, Underway))
    else if e.u !in s.upgrades then s
    else Stepped(s, e, s.upgrades[e.u])
  }

  function Stepped(s: Platform, e: Event, one: One): Platform {
    match e
    case Describe(u) =>
      if !one.stage.Underway? || one.prev.Some? then s else With(s, u, one.(prev := Some(s.pointer)))
    case Register(u, arn) =>
      if !one.stage.Underway? || one.prev.None? || one.next.Some? || arn in s.revisions || one.prev.value !in s.revisions then s
      else
        With(s.(revisions := s.revisions[arn := Cloned(s.revisions[one.prev.value], one.image, one.version)]),
             u, one.(next := Some(arn)))
    case Record(u) => if !one.stage.Underway? || one.next.None? then s else With(s, u, one.(recorded := true))
    case Switch(u) =>
      if !one.stage.Underway? || !one.recorded || one.next.None? || one.switched then s
      else With(s.(pointer := one.next.value), u, one.(switched := true))
    case Pass(u) => if !one.stage.Underway? || !one.switched then s else With(s, u, one.(stage := Passed))
    case Fail(u) => if !one.stage.Underway? then s else With(s, u, one.(stage := Failing))
    case Revert(u) =>
      if !one.stage.Failing? then s
      else With(if one.recorded && one.prev.Some? then s.(pointer := one.prev.value) else s, u, one.(stage := TakenBack))
    case Stick(u) => if !one.stage.Failing? then s else With(s, u, one.(stage := Stuck))
    case _ => s
  }

  function After(s: Platform, es: seq<Event>): Platform
    decreases |es|
  {
    if es == [] then s else After(Next(s, es[0]), es[1..])
  }

  function Idle(pointer: Arn, revisions: map<Arn, TaskDefinition>): Platform {
    Platform(pointer, revisions, map[])
  }

  // ----- what every run keeps -----

  predicate Owns(s: Platform, u: nat, arn: Arn) {
    u in s.upgrades && s.upgrades[u].next == Some(arn)
  }

  /** A revision the service was ever pointed at: the first one, or a switched upgrade's. */
  predicate Served(s: Platform, original: Arn, arn: Arn) {
    arn == original || exists u :: u in s.upgrades && s.upgrades[u].next == Some(arn) && s.upgrades[u].switched
  }

  predicate PrevOk(s: Platform, original: Arn, one: One) {
    one.prev.Some? ==> one.prev.value in s.revisions && Served(s, original, one.prev.value)
  }

  predicate OneOk(s: Platform, original: Arn, u: nat)
    requires u in s.upgrades
  {
    PrevOk(s, original, s.upgrades[u]) && PlaceOk(s, original, s.upgrades[u])
  }

  predicate PlaceOk(s: Platform, original: Arn, one: One) {
    && (one.next.Some? ==> one.prev.Some? && one.next.value in s.revisions && one.next.value != original
                           && one.next != one.prev)
    && (one.recorded ==> one.next.Some?)
    && (one.switched ==> one.recorded)
    && (one.stage.Passed? ==> one.switched)
  }

  ghost predicate Inv(s: Platform, original: Arn) {
    && original in s.revisions && s.pointer in s.revisions && Served(s, original, s.pointer)
    && (forall u :: u in s.upgrades ==> OneOk(s, original, u))
    && OwnersApart(s)
  }

  lemma {:induction false} ServedStays(s: Platform, e: Event, original: Arn, arn: Arn)
    requires Served(s, original, arn)
    ensures Served(Next(s, e), original, arn)
  {
    if arn != original {
      var u :| u in s.upgrades && s.upgrades[u].next == Some(arn) && s.upgrades[u].switched;
      assert u in Next(s, e).upgrades && Next(s, e).upgrades[u].next == Some(arn) && Next(s, e).upgrades[u].switched;
    }
  }

  lemma {:induction false} PrevStaysServed(s: Platform, e: Event, original: Arn, u: nat)
    requires Inv(s, original) && u in Next(s, e).upgrades
    ensures PrevOk(Next(s, e), original, Next(s, e).upgrades[u])
  {
    if u in s.upgrades {
      assert OneOk(s, original, u);
      if s.upgrades[u].prev.Some? {
        ServedStays(s, e, original, s.upgrades[u].prev.value);
      } else {
        ServedStays(s, e, original, s.pointer);
      }
    }
  }

  lemma {:induction false} OwnPlaceStays(s: Platform, e: Event, original: Arn)
    requires original in s.revisions && e.u in s.upgrades
    requires PrevOk(s, original, s.upgrades[e.u]) && PlaceOk(s, original, s.upgrades[e.u])
    ensures PlaceOk(Next(s, e), original, Next(s, e).upgrades[e.u])
  {
  }

  lemma {:induction false} OneStays(s: Platform, e: Event, original: Arn, u: nat)
    requires Inv(s, original) && u in Next(s, e).upgrades
    ensures OneOk(Next(s, e), original, u)
  {
    PrevStaysServed(s, e, original, u);
    if u in s.upgrades {
      assert OneOk(s, original, u);
      if u == e.u {
        OwnPlaceStays(s, e, original);
      } else {
        assert Next(s, e).upgrades[u] == s.upgrades[u];
      }
    }
  }

  lemma {:induction false} PointerStaysServed(s: Platform, e: Event, original: Arn)
    requires Inv(s, original)
    ensures Next(s, e).pointer in Next(s, e).revisions && Served(Next(s, e), original, Next(s, e).pointer)
  {
    var t := Next(s, e);
    ServedStays(s, e, original, s.pointer);
    if e.u in s.upgrades {
      assert OneOk(s, original, e.u);
      if s.upgrades[e.u].prev.Some? {
        ServedStays(s, e, original, s.upgrades[e.u].prev.value);
      }
      if e.Switch? && t != s {
        assert t.upgrades[e.u].switched && t.upgrades[e.u].next == Some(t.pointer);
      }
    }
  }

  lemma {:induction false} OwnersStayApart(s: Platform, e: Event, original: Arn, u: nat, v: nat)
    requires Inv(s, original) && u in Next(s, e).upgrades && v in Next(s, e).upgrades && u != v
    requires Next(s, e).upgrades[u].next.Some?
    ensures Next(s, e).upgrades[u].next != Next(s, e).upgrades[v].next
  {
    assert u in s.upgrades ==> OneOk(s, original, u);
    assert v in s.upgrades ==> OneOk(s, original, v);
  }

  lemma {:induction false} OnesStay(s: Platform, e: Event, original: Arn)
    requires Inv(s, original)
    ensures forall u :: u in Next(s, e).upgrades ==> OneOk(Next(s, e), original, u)
  {
    forall u | u in Next(s, e).upgrades
      ensures OneOk(Next(s, e), original, u)
    {
      OneStays(s, e, original, u);
    }
  }

  ghost predicate OwnersApart(s: Platform) {
    forall u, v :: u in s.upgrades && v in s.upgrades && u != v && s.upgrades[u].next.Some? ==>
      s.upgrades[u].next != s.upgrades[v].next
  }

  lemma {:induction false} AllStayApart(s: Platform, e: Event, original: Arn)
    requires Inv(s, original)
    ensures OwnersApart(Next(s, e))
  {
    var t := Next(s, e);
    forall u, v | u in t.upgrades && v in t.upgrades && u != v && t.upgrades[u].next.Some?
      ensures t.upgrades[u].next != t.upgrades[v].next
    {
      OwnersStayApart(s, e, original, u, v);
    }
  }

  lemma {:induction false} RevisionsStay(s: Platform, e: Event, arn: Arn)
    requires arn in s.revisions
    ensures arn in Next(s, e).revisions
  {
  }

  lemma {:induction false} InvStep(s: Platform, e: Event, original: Arn)
    requires Inv(s, original)
    ensures Inv(Next(s, e), original)
  {
    PointerStaysServed(s, e, original);
    OnesStay(s, e, original);
    AllStayApart(s, e, original);
    RevisionsStay(s, e, original);
  }

  lemma {:induction false} InvRun(s: Platform, es: seq<Event>, original: Arn)
    requires Inv(s, original)
    ensures Inv(After(s, es), original)
    decreases |es|
  {
    if es != [] {
      InvStep(s, es[0], original);
      InvRun(Next(s, es[0]), es[1..], original);
    }
  }

  lemma {:induction false} AfterConcat(s: Platform, a: seq<Event>, b: seq<Event>)
    ensures After(s, a + b) == After(After(s, a), b)
    decreases |a|
  {
    if a == [] {
      assert a + b == b;
    } else {
      assert (a + b)[1..] == a[1..] + b;
      AfterConcat(Next(s, a[0]), a[1..], b);
    }
  }

  // ----- when the service ends up on a rejected revision -----

  /** An upgrade that did not go through: rolled back, or its rollback raised. */
  predicate Rejected(one: One) {
    one.stage.TakenBack? || one.stage.Stuck?
  }

  /** The service runs the revision of such an upgrade. */
  ghost predicate OnRejected(s: Platform) {
    exists v :: Owns(s, v, s.pointer) && Rejected(s.upgrades[v])
  }

  /** The service runs the revision of an upgrade that was rolled back. */
  ghost predicate OnTakenBack(s: Platform) {
    exists v :: Owns(s, v, s.pointer) && s.upgrades[v].stage.TakenBack?
  }

  /** Upgrade u can still roll back to what it read: it is under way, or failing with its
      record written. */
  predicate MayRollBack(one: One) {
    one.stage.Underway? || (one.stage.Failing? && one.recorded)
  }

  /** Upgrade u may still roll the service back to the revision of v, which has not passed
      its check: u read the pointer while v's revision was being tried. */
  predicate Threatens(s: Platform, u: nat, v: nat) {
    && u in s.upgrades && v in s.upgrades && u != v
    && MayRollBack(s.upgrades[u]) && s.upgrades[u].prev.Some? && s.upgrades[u].prev == s.upgrades[v].next
    && !s.upgrades[v].stage.Passed?
  }

  ghost predicate Threatened(s: Platform) {
    exists u, v :: Threatens(s, u, v)
  }

  /** No further reading of the pointer, and no failure branch that raises. */
  predicate Smooth(es: seq<Event>) {
    forall k :: 0 <= k < |es| ==> !es[k].Describe? && !es[k].Stick?
  }

  /** Without any of these the service can come to run a rejected revision. */
  ghost predicate CanEndRejected(s: Platform) {
    exists es :: Smooth(es) && OnRejected(After(s, es))
  }

  lemma {:induction false} ThreatsOnlyFade(s: Platform, e: Event, original: Arn, u: nat, v: nat)
    requires Inv(s, original) && !e.Describe? && Threatens(Next(s, e), u, v)
    ensures Threatens(s, u, v)
  {
    if v in s.upgrades && u in s.upgrades {
      assert OneOk(s, original, u);
    }
  }

  lemma {:induction false} SafeStep(s: Platform, e: Event, original: Arn)
    requires Inv(s, original) && !e.Describe? && !OnTakenBack(s) && !Threatened(s)
    ensures !OnTakenBack(Next(s, e)) && !Threatened(Next(s, e))
    ensures !e.Stick? && !OnRejected(s) ==> !OnRejected(Next(s, e))
  {
    var t := Next(s, e);
    if Threatened(t) {
      var u, v :| Threatens(t, u, v);
      ThreatsOnlyFade(s, e, original, u, v);
    }
    forall v | Owns(t, v, t.pointer)
      ensures !t.upgrades[v].stage.TakenBack?
      ensures !e.Stick? && !OnRejected(s) ==> !Rejected(t.upgrades[v])
    {
      PointerStaysGood(s, e, original, v);
    }
  }

  /** What the pointer moves to is no revision that has been given up. */
  lemma {:induction false} PointerStaysGood(s: Platform, e: Event, original: Arn, v: nat)
    requires Inv(s, original) && !e.Describe? && !OnTakenBack(s) && !Threatened(s)
    requires Owns(Next(s, e), v, Next(s, e).pointer)
    ensures !Next(s, e).upgrades[v].stage.TakenBack?
    ensures !e.Stick? && !OnRejected(s) ==> !Rejected(Next(s, e).upgrades[v])
  {
    if v in s.upgrades {
      assert OneOk(s, original, v);
      if e.u in s.upgrades {
        assert OneOk(s, original, e.u);
        assert !Threatens(s, e.u, v);
      }
      assert Owns(s, v, s.pointer) ==> !s.upgrades[v].stage.TakenBack?;
      assert Owns(s, v, s.pointer) && !OnRejected(s) ==> !Rejected(s.upgrades[v]);
    }
  }

  lemma {:induction false} TakenBackIsRejected(s: Platform)
    ensures OnTakenBack(s) ==> OnRejected(s)
  {
    if OnTakenBack(s) {
      var v :| Owns(s, v, s.pointer) && s.upgrades[v].stage.TakenBack?;
      assert Rejected(s.upgrades[v]);
    }
  }

  lemma {:induction false} SafeRun(s: Platform, es: seq<Event>, original: Arn)
    requires Inv(s, original) && Smooth(es) && !OnRejected(s) && !Threatened(s)
    ensures !OnRejected(After(s, es))
    decreases |es|
  {
    if es != [] {
      InvStep(s, es[0], original);
      TakenBackIsRejected(s);
      SafeStep(s, es[0], original);
      SafeRun(Next(s, es[0]), es[1..], original);
    }
  }

  lemma {:induction false} AfterTwo(s: Platform, a: Event, b: Event)
    ensures After(s, [a, b]) == Next(Next(s, a), b)
  {
    assert [a, b][1..] == [b];
    assert After(Next(s, a), [b]) == Next(Next(s, a), b);
  }

  /** The threatening upgrade's victim fails and is taken back, if it has not been yet. */
  lemma {:induction false} VictimFails(s: Platform, original: Arn, u: nat, v: nat) returns (es: seq<Event>)
    requires Inv(s, original) && Threatens(s, u, v)
    ensures Smooth(es)
    ensures var t := After(s, es);
            Inv(t, original) && Threatens(t, u, v) && Rejected(t.upgrades[v]) && t.upgrades[u] == s.upgrades[u]
  {
    if s.upgrades[v].stage.Underway? {
      es := [Fail(v), Revert(v)];
      AfterTwo(s, Fail(v), Revert(v));
    } else if s.upgrades[v].stage.Failing? {
      es := [Revert(v)];
      assert After(s, es) == Next(s, Revert(v));
    } else {
      es := [];
    }
    InvRun(s, es, original);
  }

  lemma {:induction false} FreshArn(revisions: map<Arn, TaskDefinition>) returns (arn: Arn)
    ensures arn !in revisions
  {
    arn := 0;
    var seen: set<Arn> := revisions.Keys;
    while seen != {}
      invariant forall a :: a in revisions && a !in seen ==> a < arn
      decreases seen
    {
      var a :| a in seen;
      if a >= arn {
        arn := a + 1;
      }
      seen := seen - {a};
    }
  }

  /** A threatening upgrade under way registers and records, if it has not yet. */
  lemma {:induction false} GetsRecorded(s: Platform, original: Arn, u: nat, v: nat) returns (es: seq<Event>)
    requires Inv(s, original) && Threatens(s, u, v) && Rejected(s.upgrades[v]) && s.upgrades[u].stage.Underway?
    ensures Smooth(es)
    ensures var t := After(s, es);
            && Inv(t, original) && Threatens(t, u, v) && t.upgrades[v] == s.upgrades[v]
            && t.upgrades[u].stage.Underway? && t.upgrades[u].recorded
  {
    assert OneOk(s, original, u);
    if s.upgrades[u].next.Some? {
      es := [Record(u)];
      assert After(s, es) == Next(s, Record(u));
    } else {
      var arn := FreshArn(s.revisions);
      es := [Register(u, arn), Record(u)];
      AfterTwo(s, Register(u, arn), Record(u));
    }
    InvRun(s, es, original);
  }

  /** Then it rolls back, to the rejected revision it had read. */
  lemma {:induction false} RollsBackToRejected(s: Platform, original: Arn, u: nat, v: nat) returns (es: seq<Event>)
    requires Inv(s, original) && Threatens(s, u, v) && Rejected(s.upgrades[v]) && s.upgrades[u].recorded
    ensures Smooth(es) && OnRejected(After(s, es))
  {
    if s.upgrades[u].stage.Underway? {
      es := [Fail(u), Revert(u)];
      AfterTwo(s, Fail(u), Revert(u));
    } else {
      es := [Revert(u)];
      assert After(s, es) == Next(s, Revert(u));
    }
    assert Owns(After(s, es), v, After(s, es).pointer);
  }

  lemma {:induction false} ThreatComesTrue(s: Platform, original: Arn, u: nat, v: nat)
    requires Inv(s, original) && Threatens(s, u, v)
    ensures CanEndRejected(s)
  {
    var first := VictimFails(s, original, u, v);
    var s1 := After(s, first);
    var second: seq<Event> := [];
    if s1.upgrades[u].stage.Underway? {
      second := GetsRecorded(s1, original, u, v);
    }
    var s2 := After(s1, second);
    var third := RollsBackToRejected(s2, original, u, v);
    AfterConcat(s, first, second);
    AfterConcat(s, first + second, third);
    assert Smooth(first + second + third);
  }

  /** From any state of any overlapping upgrades: with no further reading of the pointer and
      no failure branch that raises, the service can come to run a rejected revision if and
      only if it does already, or some upgrade that can still roll back has read the revision
      of another that has not passed its check. */
  lemma {:induction false} EndsRejectedIff(s: Platform, original: Arn)
    requires Inv(s, original)
    ensures CanEndRejected(s) <==> OnRejected(s) || Threatened(s)
  {
    if OnRejected(s) {
      assert After(s, []) == s;
    } else if Threatened(s) {
      var u, v :| Threatens(s, u, v);
      ThreatComesTrue(s, original, u, v);
    } else {
      forall es | Smooth(es)
        ensures !OnRejected(After(s, es))
      {
        SafeRun(s, es, original);
      }
    }
  }

  // ----- what to check when an upgrade reads the pointer -----

  /** Between an upgrade's update_service and its end. */
  predicate InTheAir(one: One) {
    one.switched && (one.stage.Underway? || one.stage.Failing?)
  }

  /** The service is on a revision that is being tried. */
  ghost predicate OnTrial(s: Platform) {
    exists v :: Owns(s, v, s.pointer) && InTheAir(s.upgrades[v])
  }

  predicate Reads(s: Platform, u: nat) {
    u in s.upgrades && s.upgrades[u].stage.Underway? && s.upgrades[u].prev.None?
  }

  lemma {:induction false} OwnerHasSwitched(s: Platform, original: Arn, v: nat)
    requires Inv(s, original) && Owns(s, v, s.pointer)
    ensures s.upgrades[v].switched
  {
    assert OneOk(s, original, v);
  }

  lemma {:induction false} ReadingRejectsNothing(s: Platform, u: nat)
    requires OnRejected(Next(s, Describe(u)))
    ensures OnRejected(s)
  {
    var t := Next(s, Describe(u));
    var v :| Owns(t, v, t.pointer) && Rejected(t.upgrades[v]);
    assert Owns(s, v, s.pointer) && Rejected(s.upgrades[v]);
  }

  /** Reading the pointer makes a rejected revision possible exactly when the service is on
      one that is being tried. */
  lemma {:induction false} ReadingIsSafeIff(s: Platform, original: Arn, u: nat)
    requires Inv(s, original) && !OnRejected(s) && !Threatened(s) && Reads(s, u)
    ensures CanEndRejected(Next(s, Describe(u))) <==> OnTrial(s)
  {
    var t := Next(s, Describe(u));
    InvStep(s, Describe(u), original);
    EndsRejectedIff(t, original);
    assert OneOk(s, original, u);
    if OnRejected(t) {
      ReadingRejectsNothing(s, u);
    }
    if OnTrial(s) {
      var v :| Owns(s, v, s.pointer) && InTheAir(s.upgrades[v]);
      assert Threatens(t, u, v);
    } else if Threatened(t) {
      var x, v :| Threatens(t, x, v);
      NewThreatIsTrial(s, original, u, x, v);
    }
  }

  lemma {:induction false} NewThreatIsTrial(s: Platform, original: Arn, u: nat, x: nat, v: nat)
    requires Inv(s, original) && !OnRejected(s) && !Threatened(s) && Reads(s, u) && Threatens(Next(s, Describe(u)), x, v)
    ensures OnTrial(s)
  {
    assert OneOk(s, original, u);
    assert !Threatens(s, x, v);
    assert Owns(s, v, s.pointer);
    OwnerHasSwitched(s, original, v);
  }

  // ----- runs whose readings are clear -----

  /** No upgrade reads the pointer while the service is on a revision that is being tried or
      that a failed rollback left there. */
  ghost predicate ClearReads(s: Platform, es: seq<Event>)
    decreases |es|
  {
    es != [] ==>
      && (es[0].Describe? && Reads(s, es[0].u) ==> !OnTrial(s) && !OnRejected(s))
      && ClearReads(Next(s, es[0]), es[1..])
  }

  lemma {:induction false} ClearReading(s: Platform, u: nat, original: Arn)
    requires Inv(s, original) && !OnRejected(s) && !Threatened(s) && Reads(s, u) && !OnTrial(s)
    ensures !OnTakenBack(Next(s, Describe(u))) && !Threatened(Next(s, Describe(u)))
  {
    var t := Next(s, Describe(u));
    ReadingIsSafeIff(s, original, u);
    InvStep(s, Describe(u), original);
    EndsRejectedIff(t, original);
    TakenBackIsRejected(t);
  }

  lemma {:induction false} ClearStep(s: Platform, e: Event, original: Arn)
    requires Inv(s, original) && !OnTakenBack(s) && !Threatened(s)
    requires e.Describe? && Reads(s, e.u) ==> !OnTrial(s) && !OnRejected(s)
    ensures !OnTakenBack(Next(s, e)) && !Threatened(Next(s, e))
  {
    if !e.Describe? {
      SafeStep(s, e, original);
    } else if Reads(s, e.u) {
      ClearReading(s, e.u, original);
    } else {
      assert Next(s, e) == s;
    }
  }

  lemma {:induction false} ClearRun(s: Platform, es: seq<Event>, original: Arn)
    requires Inv(s, original) && !OnTakenBack(s) && !Threatened(s) && ClearReads(s, es)
    ensures var t := After(s, es); Inv(t, original) && !OnTakenBack(t)
    decreases |es|
  {
    if es != [] {
      InvStep(s, es[0], original);
      ClearStep(s, es[0], original);
      ClearRun(Next(s, es[0]), es[1..], original);
    }
  }

  /** Every upgrade is over, and none's failure branch raised. */
  predicate Settled(s: Platform) {
    forall u :: u in s.upgrades ==> s.upgrades[u].stage.Passed? || s.upgrades[u].stage.TakenBack?
  }

  /** The revision is the one before all upgrades, or one that passed its check. */
  ghost predicate Accepted(s: Platform, original: Arn, arn: Arn) {
    arn == original || exists v :: Owns(s, v, arn) && s.upgrades[v].stage.Passed?
  }

  lemma {:induction false} SettledIff(s: Platform, original: Arn)
    requires Inv(s, original) && Settled(s)
    ensures Accepted(s, original, s.pointer) <==> !OnRejected(s)
  {
    if s.pointer != original {
      var v :| v in s.upgrades && s.upgrades[v].next == Some(s.pointer) && s.upgrades[v].switched;
      assert Owns(s, v, s.pointer);
    } else {
      assert forall v :: v in s.upgrades ==> OneOk(s, original, v);
    }
  }

  /** Any number of upgrades, overlapping and failing anywhere. When all are over and none's
      failure branch raised, the service runs the original or a revision that passed its
      check if and only if it does not run a rejected one. And when no upgrade reads the
      pointer while another's revision is being tried, or was left there, it never does: it
      runs no revision that was rolled back, and one whose own rollback raised at most. */
  lemma {:induction false} ClearReadsEndWell(original: Arn, revisions: map<Arn, TaskDefinition>, es: seq<Event>)
    requires original in revisions
    ensures var t := After(Idle(original, revisions), es);
            var over := forall u :: u in t.upgrades ==> t.upgrades[u].stage.Passed? || t.upgrades[u].stage.TakenBack?;
            && (over ==> (Accepted(t, original, t.pointer) <==> !OnRejected(t)))
            && (ClearReads(Idle(original, revisions), es) ==>
                  && !OnTakenBack(t)
                  && (over ==> Accepted(t, original, t.pointer))
                  && (OnRejected(t) ==> exists v :: Owns(t, v, t.pointer) && t.upgrades[v].stage.Stuck?))
  {
    var s := Idle(original, revisions);
    InvRun(s, es, original);
    var t := After(s, es);
    if Settled(t) {
      SettledIff(t, original);
    }
    if ClearReads(s, es) {
      ClearRun(s, es, original);
      RejectedIsStuck(t);
    }
  }

  lemma {:induction false} RejectedIsStuck(s: Platform)
    requires !OnTakenBack(s)
    ensures OnRejected(s) ==> exists v :: Owns(s, v, s.pointer) && s.upgrades[v].stage.Stuck?
    ensures Settled(s) ==> !OnRejected(s)
  {
    if OnRejected(s) {
      var v :| Owns(s, v, s.pointer) && Rejected(s.upgrades[v]);
      assert s.upgrades[v].stage.Stuck?;
    }
  }

  /** A second upgrade that begins while the first is being checked: whatever the images and
      revisions, the service can end on the first one's rejected revision. */
  lemma {:induction false} OverlapRestoresTheRejected(original: Arn, revisions: map<Arn, TaskDefinition>, a: nat, b: nat,
                                                      arn: Arn, image: string, version: string)
    requires original in revisions && arn !in revisions && a != b
    ensures var es := [Start(a, image, version), Start(b, image, version)] + [Describe(a), Register(a, arn)]
                      + [Record(a), Switch(a)];
            var s := After(Idle(original, revisions), es);
            s.pointer == arn && Reads(s, b) && OnTrial(s) && CanEndRejected(Next(s, Describe(b)))
  {
    var s0 := Idle(original, revisions);
    var e1, e2, e3 := [Start(a, image, version), Start(b, image, version)], [Describe(a), Register(a, arn)], [Record(a), Switch(a)];
    AfterConcat(s0, e1, e2);
    AfterConcat(s0, e1 + e2, e3);
    AfterTwo(s0, e1[0], e1[1]);
    var s1 := After(s0, e1);
    AfterTwo(s1, e2[0], e2[1]);
    var s2 := After(s1, e2);
    AfterTwo(s2, e3[0], e3[1]);
    var s := After(s2, e3);
    assert Owns(s, a, s.pointer) && InTheAir(s.upgrades[a]);
    InvRun(s0, e1 + e2 + e3, original);
    InvStep(s, Describe(b), original);
    var t := Next(s, Describe(b));
    assert Threatens(t, b, a);
    ThreatComesTrue(t, original, b, a);
  }

  // ----- the handlers are these steps -----

  /** The forward calls of one execution that take effect. */
  function Forwards(f: Faults, arn: Arn): seq<Event> {
    if !f.imageFound || !f.savePulled.Works? || !f.described then []
    else if !Takes(f.register) then [Describe(0)]
    else if f.register.Raises? || !Takes(f.saveRegistered) then [Describe(0), Register(0, arn)]
    else if f.saveRegistered.Raises? || !Takes(f.update) then [Describe(0), Register(0, arn), Record(0)]
    else [Describe(0), Register(0, arn), Record(0), Switch(0)]
  }

  predicate Forwarded(f: Faults, arn: Arn) {
    && f.imageFound && f.savePulled.Works? && f.described && f.register.Works? && f.saveRegistered.Works?
    && f.update.Works? && Stabilises(f.polls, arn) && f.saveUpdated.Works? && f.healthy && f.saveHealthy.Works?
  }

  predicate HasRecorded(f: Faults) {
    f.imageFound && f.savePulled.Works? && f.described && f.register.Works? && Takes(f.saveRegistered)
  }

  /** How it ends: past its check, taken back, or stuck in its failure branch. */
  function Ending(f: Faults, ok: bool, recorded: bool): seq<Event> {
    if ok then [Pass(0)]
    else if !f.readUpgrade || (recorded && !Takes(f.rollBack)) then [Fail(0), Stick(0)]
    else [Fail(0), Revert(0)]
  }

  lemma {:induction false} FailureSteps(m: Platform, c: Cloud, f: Faults)
    requires 0 in m.upgrades && m.upgrades[0].stage.Underway? && m.upgrades[0].recorded == c.upgrade.previous.Some?
    requires m.pointer == c.pointer && m.revisions == c.revisions
    requires m.upgrades[0].recorded ==> m.upgrades[0].prev == c.upgrade.previous
    ensures var t := After(m, Ending(f, false, m.upgrades[0].recorded));
            var (c', marked) := MarkedFailed(c, f, "Platform upgrade failed");
            && t.pointer == c'.pointer && t.revisions == c'.revisions && 0 in t.upgrades
            && t.upgrades[0].recorded == c'.upgrade.previous.Some? && (marked ==> t.upgrades[0].stage.TakenBack?)
  {
    AfterTwo(m, Fail(0), Stick(0));
    AfterTwo(m, Fail(0), Revert(0));
  }

  /** The platform after so many of the forward calls. */
  lemma {:induction false} ForwardStates(pointer: Arn, revisions: map<Arn, TaskDefinition>, arn: Arn, image: string, version: string)
    requires pointer in revisions && arn !in revisions
    ensures var s := Next(Idle(pointer, revisions), Start(0, image, version));
            var d, r, p, w := Describe(0), Register(0, arn), Record(0), Switch(0);
            var more := revisions[arn := Cloned(revisions[pointer], image, version)];
            var one := One(image, version, Some(pointer), Some(arn), false, false, Underway);
            && After(s, []) == Platform(pointer, revisions, map[0 := One(image, version, None, None, false, false, Underway)])
            && After(s, [d]) == Platform(pointer, revisions, map[0 := one.(next := None)])
            && After(s, [d, r]) == Platform(pointer, more, map[0 := one])
            && After(s, [d, r, p]) == Platform(pointer, more, map[0 := one.(recorded := true)])
            && After(s, [d, r, p, w]) == Platform(arn, more, map[0 := one.(recorded := true, switched := true)])
  {
    var s := Next(Idle(pointer, revisions), Start(0, image, version));
    var d, r, p, w := Describe(0), Register(0, arn), Record(0), Switch(0);
    assert After(s, [d]) == Next(s, d) by {
      assert After(Next(s, d), [d][1..]) == Next(s, d);
    }
    AfterTwo(s, d, r);
    AfterTwo(Next(Next(s, d), r), p, w);
    assert [d, r, p] == [d, r] + [p] && [d, r, p, w] == [d, r] + [p, w];
    AfterConcat(s, [d, r], [p]);
    AfterConcat(s, [d, r], [p, w]);
    assert After(Next(Next(s, d), r), [p]) == Next(Next(Next(s, d), r), p);
  }

  /** What the forward stages leave, by how many of their calls take effect. */
  lemma {:induction false} ForwardLeaves(c: Cloud, f: Faults, arn: Arn, image: string, version: string)
    requires c.pointer in c.revisions && arn !in c.revisions && c.upgrade.previous.None?
    ensures var n := |Forwards(f, arn)|;
            var (c', ok) := Forward(c, f, arn, image, version);
            && c'.pointer == (if n == 4 then arn else c.pointer)
            && c'.revisions == (if n >= 2 then c.revisions[arn := Cloned(c.revisions[c.pointer], image, version)] else c.revisions)
            && c'.upgrade.previous == (if n >= 3 then Some(c.pointer) else None)
            && ok == Forwarded(f, arn) && (ok ==> n == 4) && HasRecorded(f) == (n >= 3)
  {
  }

  lemma {:induction false} ForwardsAre(c: Cloud, f: Faults, arn: Arn, image: string, version: string)
    requires c.pointer in c.revisions && arn !in c.revisions && c.upgrade.previous.None?
    ensures var t := After(Next(Idle(c.pointer, c.revisions), Start(0, image, version)), Forwards(f, arn));
            var (c', ok) := Forward(c, f, arn, image, version);
            && t.pointer == c'.pointer && t.revisions == c'.revisions && 0 in t.upgrades
            && t.upgrades[0].stage.Underway? && t.upgrades[0].recorded == c'.upgrade.previous.Some? == HasRecorded(f)
            && (t.upgrades[0].recorded ==> t.upgrades[0].prev == c'.upgrade.previous)
            && ok == Forwarded(f, arn) && (ok ==> t.upgrades[0].switched)
  {
    ForwardStates(c.pointer, c.revisions, arn, image, version);
    ForwardLeaves(c, f, arn, image, version);
  }

  /** One execution of the workflow, whatever fails in it, is a run of these steps: same
      service pointer, same revisions, same word on the rollback target, and the end it
      reports is the stage it reaches. */
  lemma {:induction false} HandlersAreSteps(c: Cloud, f: Faults, arn: Arn, image: string, version: string)
    requires c.pointer in c.revisions && arn !in c.revisions && c.upgrade.previous.None?
    ensures var t := After(After(Next(Idle(c.pointer, c.revisions), Start(0, image, version)), Forwards(f, arn)),
                           Ending(f, Forwarded(f, arn), HasRecorded(f)));
            var (c', end) := Executed(c, f, arn, image, version);
            && t.pointer == c'.pointer && t.revisions == c'.revisions && 0 in t.upgrades
            && t.upgrades[0].recorded == c'.upgrade.previous.Some?
            && (end.Upgraded? ==> t.upgrades[0].stage.Passed?) && (end.Reverted? ==> t.upgrades[0].stage.TakenBack?)
  {
    ForwardsAre(c, f, arn, image, version);
    var m := After(Next(Idle(c.pointer, c.revisions), Start(0, image, version)), Forwards(f, arn));
    if Forwarded(f, arn) {
      assert After(m, [Pass(0)]) == Next(m, Pass(0));
    } else {
      FailureSteps(m, Forward(c, f, arn, image, version).0, f);
    }
  }
}
