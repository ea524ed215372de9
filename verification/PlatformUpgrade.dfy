/** Upgrading the platform's own service: register a new task definition revision,
    point the service at it, check it, and on any failure roll back
    (lambda_handlers/platform_*.py, step_functions/platform_upgrade_workflow.json). */
module PlatformUpgrade {
  import opened Common

  // ----- task definitions -----

  datatype EnvVar = EnvVar(name: string, value: string)

  /** A container definition; `rest` holds every other key. */
  datatype Container = Container(name: string, image: string, environment: Option<seq<EnvVar>>, rest: map<string, string>)

  /** A task definition: its containers, and every other key by name. */
  datatype TaskDefinition = TaskDefinition(containers: seq<Container>, attributes: map<string, string>)

  const RUNTIME_CONTAINER := "agent-builder-runtime"
  const VERSION_VARIABLE := "PLATFORM_VERSION"
  const COPY_KEYS: set<string> := {
    "family", "taskRoleArn", "executionRoleArn", "networkMode", "requiresCompatibilities", "cpu", "memory"}

  function Reversioned(e: EnvVar, version: string): EnvVar {
    if e.name == VERSION_VARIABLE then e.(value := version) else e
  }

  function ReversionedAll(env: seq<EnvVar>, version: string): (r: seq<EnvVar>)
    ensures |r| == |env| && forall k :: 0 <= k < |r| ==> r[k] == Reversioned(env[k], version)
  {
    seq(|env|, k requires 0 <= k < |env| => Reversioned(env[k], version))
  }

  function EnvironmentOf(c: Container): seq<EnvVar> {
    if c.environment.Some? then c.environment.value else []
  }

  function Retargeted(c: Container, image: string, version: string): Container {
    if c.name != RUNTIME_CONTAINER then c
    else c.(image := image, environment := Some(ReversionedAll(EnvironmentOf(c), version)))
  }

  function RetargetedAll(cs: seq<Container>, image: string, version: string): (r: seq<Container>)
    ensures |r| == |cs| && forall k :: 0 <= k < |r| ==> r[k] == Retargeted(cs[k], image, version)
  {
    seq(|cs|, k requires 0 <= k < |cs| => Retargeted(cs[k], image, version))
  }

  function Cloned(t: TaskDefinition, image: string, version: string): TaskDefinition {
    TaskDefinition(RetargetedAll(t.containers, image, version),
                   map k | k in t.attributes && k in COPY_KEYS :: t.attributes[k])
  }

  /** The inner loop: the copied variables are updated in place. */
  method Reversion(environment: seq<EnvVar>, version: string) returns (env: seq<EnvVar>)
    ensures env == ReversionedAll(environment, version)
  {
    env := environment;
    for j := 0 to |env|
      invariant |env| == |environment|
      invariant forall k :: 0 <= k < j ==> env[k] == Reversioned(environment[k], version)
      invariant forall k :: j <= k < |env| ==> env[k] == environment[k]
    {
      if env[j].name == VERSION_VARIABLE {
        env := env[j := env[j].(value := version)];
      }
    }
  }

  /** The outer loop, and the keys copied beside the containers. */
  method Clone(t: TaskDefinition, image: string, version: string) returns (r: TaskDefinition)
    ensures r == Cloned(t, image, version)
  {
    var containers: seq<Container> := [];
    for i := 0 to |t.containers|
      invariant |containers| == i
      invariant forall k :: 0 <= k < i ==> containers[k] == Retargeted(t.containers[k], image, version)
    {
      var container := t.containers[i];
      if container.name == RUNTIME_CONTAINER {
        var env := Reversion(EnvironmentOf(container), version);
        container := container.(image := image, environment := Some(env));
      }
      containers := containers + [container];
    }
    assert containers == RetargetedAll(t.containers, image, version);
    return TaskDefinition(containers, map k | k in t.attributes && k in COPY_KEYS :: t.attributes[k]);
  }

  /** The clone differs from the original only where it must: other containers are
      untouched; the runtime container keeps every other key and its variables in order,
      each with its name, and only a PLATFORM_VERSION variable gets a new value; copied
      keys keep their values and no other key appears. */
  lemma {:induction false} CloneFrame(t: TaskDefinition, image: string, version: string, i: nat)
    requires i < |t.containers|
    ensures var c, c' := t.containers[i], Cloned(t, image, version).containers[i];
            && |Cloned(t, image, version).containers| == |t.containers|
            && c'.name == c.name && c'.rest == c.rest
            && (c.name != "agent-builder-runtime" ==> c' == c)
            && (c.name == "agent-builder-runtime" ==>
                  && c'.image == image && c'.environment.Some?
                  && var env, env' := if c.environment.Some? then c.environment.value else [], c'.environment.value;
                     && |env'| == |env|
                     && forall k :: 0 <= k < |env| ==>
                          && env'[k].name == env[k].name
                          && env'[k].value == if env[k].name == "PLATFORM_VERSION" then version else env[k].value)
    ensures forall key :: key in Cloned(t, image, version).attributes <==> key in t.attributes && key in {
                "family", "taskRoleArn", "executionRoleArn", "networkMode", "requiresCompatibilities", "cpu", "memory"}
    ensures forall key :: key in Cloned(t, image, version).attributes ==>
              Cloned(t, image, version).attributes[key] == t.attributes[key]
  {
  }

  /** Cloning for the same target twice is cloning once, and a clone for a later target
      forgets the earlier one. */
  lemma {:induction false} CloneAbsorbs(t: TaskDefinition, image: string, version: string, image': string, version': string)
    ensures Cloned(Cloned(t, image, version), image', version') == Cloned(t, image', version')
  {
    var a, b := Cloned(Cloned(t, image, version), image', version'), Cloned(t, image', version');
    forall i | 0 <= i < |t.containers|
      ensures a.containers[i] == b.containers[i]
    {
      var c := t.containers[i];
      assert ReversionedAll(ReversionedAll(EnvironmentOf(c), version), version') == ReversionedAll(EnvironmentOf(c), version');
    }
    assert a.containers == b.containers;
    assert a.attributes == b.attributes;
  }

  // ----- the upgrade -----

  type Arn = nat

  datatype Status = Pending | PullingImage | Registering | Updating | HealthCheck | Active | Failed | RolledBack

  datatype Upgrade = Upgrade(status: Status, previous: Option<Arn>, next: Option<Arn>, reason: Option<string>)

  /** The service pointer, every registered revision, and the upgrade record. */
  datatype Cloud = Cloud(pointer: Arn, revisions: map<Arn, TaskDefinition>, upgrade: Upgrade)

  /** One answer of describe_services while waiting for the rollout. */
  datatype Poll = PollRaises | Seen(pointer: Arn, running: int, desired: int)

  const POLL_ATTEMPTS: nat := 20

  predicate Stable(p: Poll, arn: Arn) {
    p.Seen? && p.pointer == arn && p.running == p.desired
  }

  /** Some attempt saw the rollout finished, and none before it raised. */
  predicate Stabilises(polls: nat -> Poll, arn: Arn) {
    exists k: nat :: k < POLL_ATTEMPTS && Stable(polls(k), arn) && forall j: nat :: j < k ==> polls(j).Seen?
  }

  /** What goes wrong in one execution of the workflow. A failed write of a FAILED stage
      result is covered by its handler raising either way. */
  datatype Faults = Faults(
    imageFound: bool,
    savePulled: Remote,
    described: bool,
    register: Remote,
    saveRegistered: Remote,
    update: Remote,
    polls: nat -> Poll,
    saveUpdated: Remote,
    healthy: bool,
    saveHealthy: Remote,
    saveActive: Remote,
    noteFailure: bool,
    readUpgrade: bool,
    rollBack: Remote,
    saveFailed: Remote)

  /** The service and the upgrade record, as the five handlers change them. */
  class UpgradeHandlers {
    var cloud: Cloud

    constructor (cloud: Cloud)
      ensures this.cloud == cloud
    {
      this.cloud := cloud;
    }

    /** One write of the upgrade record. */
    method Save(c: Remote, upgrade: Upgrade) returns (ok: bool)
      modifies this
      ensures ok == c.Works?
      ensures cloud == old(cloud).(upgrade := if Takes(c) then upgrade else old(cloud.upgrade))
    {
      if Takes(c) {
        cloud := cloud.(upgrade := upgrade);
      }
      return c.Works?;
    }

    /** A handler's own note that its stage failed; it may itself fail. */
    method NoteFailure(f: Faults, reason: string)
      modifies this
      ensures cloud == Noted(old(cloud), f, reason)
    {
      if f.noteFailure {
        cloud := cloud.(upgrade := cloud.upgrade.(status := Failed, reason := Some(reason)));
      }
    }

    method PullImage(f: Faults) returns (ok: bool)
      modifies this
      ensures (cloud, ok) == Pulled(old(cloud), f)
    {
      if !f.imageFound {
        NoteFailure(f, "image not found");
        return false;
      }
      ok := Save(f.savePulled, cloud.upgrade.(status := PullingImage));
    }

    method RegisterTaskDefinition(f: Faults, newArn: Arn, image: string, version: string) returns (ok: bool)
      requires cloud.pointer in cloud.revisions
      modifies this
      ensures (cloud, ok) == Registered(old(cloud), f, newArn, image, version)
    {
      if !f.described {
        NoteFailure(f, "service not found");
        return false;
      }
      var previous := cloud.pointer;
      var revision := Clone(cloud.revisions[previous], image, version);
      if Takes(f.register) {
        cloud := cloud.(revisions := cloud.revisions[newArn := revision]);
      }
      if f.register.Raises? {
        NoteFailure(f, "register failed");
        return false;
      }
      ok := Save(f.saveRegistered,
                 cloud.upgrade.(status := Registering, previous := Some(previous), next := Some(newArn)));
    }

    /** Up to twenty polls; an exception from one of them ends the wait. */
    method WaitStable(polls: nat -> Poll, arn: Arn) returns (ok: bool)
      ensures ok == Stabilises(polls, arn)
      ensures ok <==> exists k: nat ::
                        && k < 20 && polls(k).Seen? && polls(k).pointer == arn && polls(k).running == polls(k).desired
                        && forall j: nat :: j < k ==> polls(j).Seen?
    {
      var attempt := 0;
      while attempt < POLL_ATTEMPTS
        invariant 0 <= attempt <= POLL_ATTEMPTS
        invariant forall j: nat :: j < attempt ==> polls(j).Seen? && !Stable(polls(j), arn)
      {
        var poll := polls(attempt);
        if poll.PollRaises? {
          assert forall k: nat :: Stable(polls(k), arn) && k < POLL_ATTEMPTS ==> k > attempt;
          return false;
        }
        if poll.pointer == arn && poll.running == poll.desired {
          assert Stable(polls(attempt), arn);
          return true;
        }
        attempt := attempt + 1;
      }
      return false;
    }

    method UpdateService(f: Faults, arn: Arn) returns (ok: bool)
      modifies this
      ensures (cloud, ok) == Updated(old(cloud), f, arn)
    {
      if Takes(f.update) {
        cloud := cloud.(pointer := arn);
      }
      if f.update.Raises? {
        NoteFailure(f, "update failed");
        return false;
      }
      var stable := WaitStable(f.polls, arn);
      if !stable {
        NoteFailure(f, "did not stabilize");
        return false;
      }
      ok := Save(f.saveUpdated, cloud.upgrade.(status := Updating));
    }

    method CheckHealth(f: Faults) returns (ok: bool)
      modifies this
      ensures (cloud, ok) == Checked(old(cloud), f)
    {
      if !f.healthy {
        NoteFailure(f, "unhealthy");
        return false;
      }
      ok := Save(f.saveHealthy, cloud.upgrade.(status := HealthCheck));
    }

    method MarkUpgradeFailed(f: Faults, reason: string) returns (ok: bool)
      modifies this
      ensures (cloud, ok) == MarkedFailed(old(cloud), f, reason)
    {
      if !f.readUpgrade {
        return false;
      }
      var rolledBack := false;
      if cloud.upgrade.previous.Some? {
        if Takes(f.rollBack) {
          cloud := cloud.(pointer := cloud.upgrade.previous.value);
        }
        if f.rollBack.Raises? {
          return false;
        }
        rolledBack := true;
      }
      ok := Save(f.saveFailed,
                 cloud.upgrade.(status := if rolledBack then RolledBack else Failed, reason := Some(reason)));
    }

    /** The state machine: the stages in order, and the failure branch from each. */
    method Execute(f: Faults, newArn: Arn, image: string, version: string) returns (end: End)
      requires cloud.pointer in cloud.revisions
      modifies this
      ensures (cloud, end) == Executed(old(cloud), f, newArn, image, version)
    {
      var ok := PullImage(f);
      if ok {
        ok := RegisterTaskDefinition(f, newArn, image, version);
      }
      if ok {
        ok := UpdateService(f, newArn);
      }
      if ok {
        ok := CheckHealth(f);
      }
      if ok {
        ok := Save(f.saveActive, cloud.upgrade.(status := Active));
        return if ok then Upgraded else MarkRaised;
      }
      ok := MarkUpgradeFailed(f, "Platform upgrade failed");
      return if ok then Reverted else MarkRaised;
    }
  }

  /** How an execution ends: in MarkUpgraded, in MarkUpgradeFailed, or because the last
      handler itself raised (it has no failure branch). */
  datatype End = Upgraded | Reverted | MarkRaised

  function Noted(c: Cloud, f: Faults, reason: string): Cloud {
    if f.noteFailure then c.(upgrade := c.upgrade.(status := Failed, reason := Some(reason))) else c
  }

  function Saved(c: Cloud, call: Remote, upgrade: Upgrade): (Cloud, bool) {
    (if Takes(call) then c.(upgrade := upgrade) else c, call.Works?)
  }

  function Pulled(c: Cloud, f: Faults): (Cloud, bool) {
    if !f.imageFound then (Noted(c, f, "image not found"), false)
    else Saved(c, f.savePulled, c.upgrade.(status := PullingImage))
  }

  function Registered(c: Cloud, f: Faults, newArn: Arn, image: string, version: string): (Cloud, bool)
    requires c.pointer in c.revisions
  {
    if !f.described then (Noted(c, f, "service not found"), false)
    else
      var c' := if Takes(f.register)
                then c.(revisions := c.revisions[newArn := Cloned(c.revisions[c.pointer], image, version)]) else c;
      if f.register.Raises? then (Noted(c', f, "register failed"), false)
      else Saved(c', f.saveRegistered,
                 c'.upgrade.(status := Registering, previous := Some(c.pointer), next := Some(newArn)))
  }

  function Updated(c: Cloud, f: Faults, arn: Arn): (Cloud, bool) {
    var c' := if Takes(f.update) then c.(pointer := arn) else c;
    if f.update.Raises? then (Noted(c', f, "update failed"), false)
    else if !Stabilises(f.polls, arn) then (Noted(c', f, "did not stabilize"), false)
    else Saved(c', f.saveUpdated, c'.upgrade.(status := Updating))
  }

  function Checked(c: Cloud, f: Faults): (Cloud, bool) {
    if !f.healthy then (Noted(c, f, "unhealthy"), false)
    else Saved(c, f.saveHealthy, c.upgrade.(status := HealthCheck))
  }

  function MarkedFailed(c: Cloud, f: Faults, reason: string): (Cloud, bool) {
    if !f.readUpgrade then (c, false)
    else if c.upgrade.previous.None? then
      Saved(c, f.saveFailed, c.upgrade.(status := Failed, reason := Some(reason)))
    else
      var c' := if Takes(f.rollBack) then c.(pointer := c.upgrade.previous.value) else c;
      if f.rollBack.Raises? then (c', false)
      else Saved(c', f.saveFailed, c'.upgrade.(status := RolledBack, reason := Some(reason)))
  }

  /** The cloud when the forward stages stop, and whether they all succeeded. */
  function Forward(c: Cloud, f: Faults, newArn: Arn, image: string, version: string): (Cloud, bool)
    requires c.pointer in c.revisions
  {
    var (c1, ok1) := Pulled(c, f);
    if !ok1 then (c1, false)
    else
      var (c2, ok2) := Registered(c1, f, newArn, image, version);
      if !ok2 then (c2, false)
      else
        var (c3, ok3) := Updated(c2, f, newArn);
        if !ok3 then (c3, false) else Checked(c3, f)
  }

  function Executed(c: Cloud, f: Faults, newArn: Arn, image: string, version: string): (Cloud, End)
    requires c.pointer in c.revisions
  {
    var (c', ok) := Forward(c, f, newArn, image, version);
    if ok then
      var (c4, saved) := Saved(c', f.saveActive, c'.upgrade.(status := Active));
      (c4, if saved then Upgraded else MarkRaised)
    else
      var (c5, marked) := MarkedFailed(c', f, "Platform upgrade failed");
      (c5, if marked then Reverted else MarkRaised)
  }

  /** What one handler says of its stage. Done, the record names the stage, and a registered
      revision with the one it replaces; the service is on the new revision once updated. If
      the stage failed before its record was written, the record is FAILED for that reason,
      or as it was when even that could not be noted. */
  lemma {:induction false} StagesSay(c: Cloud, f: Faults, newArn: Arn, image: string, version: string)
    requires c.pointer in c.revisions
    ensures var (c', ok) := Pulled(c, f);
            && c'.pointer == c.pointer && c'.revisions == c.revisions && (ok <==> f.imageFound && f.savePulled.Works?)
            && (ok ==> c'.upgrade == c.upgrade.(status := PullingImage))
            && (!f.imageFound ==> c'.upgrade == if f.noteFailure then c.upgrade.(status := Failed, reason := Some("image not found")) else c.upgrade)
    ensures var (c', ok) := Registered(c, f, newArn, image, version);
            && (ok <==> f.described && f.register.Works? && f.saveRegistered.Works?)
            && (ok ==> c'.upgrade == Upgrade(Registering, Some(c.pointer), Some(newArn), c.upgrade.reason))
            && (!f.described || f.register.Raises? ==>
                  c'.upgrade == if f.noteFailure
                                then c.upgrade.(status := Failed, reason := Some(if f.described then "register failed" else "service not found"))
                                else c.upgrade)
    ensures var (c', ok) := Updated(c, f, newArn);
            && c'.revisions == c.revisions
            && (ok ==> c'.pointer == newArn && c'.upgrade == c.upgrade.(status := Updating))
            && (f.update == Raises(false) ==> c'.pointer == c.pointer) && (f.update == Raises(true) ==> c'.pointer == newArn)
            && (f.update.Raises? ==>
                  c'.upgrade == if f.noteFailure then c.upgrade.(status := Failed, reason := Some("update failed")) else c.upgrade)
            && (f.update.Works? && !Stabilises(f.polls, newArn) ==>
                  && !ok && c'.pointer == newArn
                  && c'.upgrade == if f.noteFailure then c.upgrade.(status := Failed, reason := Some("did not stabilize")) else c.upgrade)
    ensures var (c', ok) := Checked(c, f);
            && c'.pointer == c.pointer && c'.revisions == c.revisions && (ok <==> f.healthy && f.saveHealthy.Works?)
            && (ok ==> c'.upgrade == c.upgrade.(status := HealthCheck))
            && (!f.healthy ==> c'.upgrade == if f.noteFailure then c.upgrade.(status := Failed, reason := Some("unhealthy")) else c.upgrade)
  {}

  /** The rollback target is on record whenever the service may have been moved. */
  predicate Recoverable(c: Cloud, original: Arn) {
    && (c.upgrade.previous.Some? ==> c.upgrade.previous.value == original)
    && (c.pointer != original ==> c.upgrade.previous == Some(original))
  }

  /** The first two stages leave the service where it was, and pass only once the clone
      is registered and both revisions are on record. */
  lemma {:induction false} RegisteredFirst(c: Cloud, f: Faults, newArn: Arn, image: string, version: string)
    requires c.pointer in c.revisions && newArn !in c.revisions && c.upgrade.previous.None?
    ensures var (c', ok) := Registered(c, f, newArn, image, version);
            && c'.pointer == c.pointer && Recoverable(c', c.pointer)
            && (ok ==> c'.upgrade.previous == Some(c.pointer) && c'.upgrade.next == Some(newArn)
                       && newArn in c'.revisions && c'.revisions[newArn] == Cloned(c.revisions[c.pointer], image, version))
            && (forall arn :: arn in c.revisions ==> arn in c'.revisions && c'.revisions[arn] == c.revisions[arn])
  {
  }

  lemma {:induction false} ForwardIsRecoverable(c: Cloud, f: Faults, newArn: Arn, image: string, version: string)
    requires c.pointer in c.revisions && newArn !in c.revisions && c.upgrade.previous.None?
    ensures var (c', ok) := Forward(c, f, newArn, image, version);
            && Recoverable(c', c.pointer)
            && (ok ==> c'.pointer == newArn && c'.upgrade.previous == Some(c.pointer) && c'.upgrade.next == Some(newArn)
                       && newArn in c'.revisions && c'.revisions[newArn] == Cloned(c.revisions[c.pointer], image, version))
            && (forall arn :: arn in c.revisions ==> arn in c'.revisions && c'.revisions[arn] == c.revisions[arn])
  {
    var (c1, ok1) := Pulled(c, f);
    if ok1 {
      RegisteredFirst(c1, f, newArn, image, version);
      var (c2, ok2) := Registered(c1, f, newArn, image, version);
      if ok2 {
        var (c3, ok3) := Updated(c2, f, newArn);
        assert c3.revisions == c2.revisions && Recoverable(c3, c.pointer);
      }
    }
  }

  lemma {:induction false} GoesThroughIff(c: Cloud, f: Faults, newArn: Arn, image: string, version: string)
    requires c.pointer in c.revisions
    ensures Executed(c, f, newArn, image, version).1.Upgraded? <==>
              && f.imageFound && f.savePulled.Works? && f.described && f.register.Works? && f.saveRegistered.Works?
              && f.update.Works? && f.saveUpdated.Works? && f.healthy && f.saveHealthy.Works? && f.saveActive.Works?
              && (exists k: nat ::
                    && k < 20 && f.polls(k).Seen? && f.polls(k).pointer == newArn && f.polls(k).running == f.polls(k).desired
                    && forall j: nat :: j < k ==> f.polls(j).Seen?)
  {
    var (c1, ok1) := Pulled(c, f);
    if ok1 {
      var (c2, ok2) := Registered(c1, f, newArn, image, version);
      if ok2 {
        var (c3, ok3) := Updated(c2, f, newArn);
        assert ok3 <==> f.update.Works? && Stabilises(f.polls, newArn) && f.saveUpdated.Works?;
      }
    }
  }

  /** A single upgrade, whatever goes wrong in it: if it reaches MarkUpgraded the service
      runs the cloned revision; if it ends in MarkUpgradeFailed the service is on its
      original revision, and the result is ROLLED_BACK exactly when a previous revision
      had been recorded; if the last handler itself raises, the rollback target is still
      on record unless the service never moved. No registered revision is ever lost. And it
      reaches MarkUpgraded exactly when no call fails and the service stabilises healthy. */
  lemma {:induction false} UpgradeOrOriginal(c: Cloud, f: Faults, newArn: Arn, image: string, version: string)
    requires c.pointer in c.revisions && newArn !in c.revisions && c.upgrade.previous.None?
    ensures var (c', end) := Executed(c, f, newArn, image, version);
            var (before, _) := Forward(c, f, newArn, image, version);
            && Recoverable(c', c.pointer)
            && (end.Upgraded? ==>
                  && c'.pointer == newArn && c'.upgrade.status == Active && newArn in c'.revisions
                  && c'.revisions[newArn] == Cloned(c.revisions[c.pointer], image, version))
            && (end.Reverted? ==>
                  && c'.pointer == c.pointer
                  && (c'.upgrade.status == RolledBack <==> before.upgrade.previous.Some?)
                  && (c'.upgrade.status == Failed <==> before.upgrade.previous.None?)
                  && c'.upgrade.reason == Some("Platform upgrade failed"))
            && (end.Reverted? <==> !Forward(c, f, newArn, image, version).1 && f.readUpgrade && f.saveFailed.Works?
                                   && (before.upgrade.previous.Some? ==> f.rollBack.Works?))
            && (forall arn :: arn in c.revisions ==> arn in c'.revisions && c'.revisions[arn] == c.revisions[arn])
    ensures Executed(c, f, newArn, image, version).1.Upgraded? <==>
              && f.imageFound && f.savePulled.Works? && f.described && f.register.Works? && f.saveRegistered.Works?
              && f.update.Works? && f.saveUpdated.Works? && f.healthy && f.saveHealthy.Works? && f.saveActive.Works?
              && (exists k: nat ::
                    && k < 20 && f.polls(k).Seen? && f.polls(k).pointer == newArn && f.polls(k).running == f.polls(k).desired
                    && forall j: nat :: j < k ==> f.polls(j).Seen?)
  {
    ForwardIsRecoverable(c, f, newArn, image, version);
    GoesThroughIff(c, f, newArn, image, version);
  }
}
