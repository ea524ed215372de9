/** The credential fields of an agent's record, as provisioning, rotation, revocation and
    every other update of the record write them: each reads the whole item and later puts
    the whole item back (app/modules/registry/store.py, app/api/v1/agents.py). */
module KeyRegistry {
  import opened Common
  import opened SecretCache

  const GRACE: int := 24 * 3600

  /** A generated key, and when it was generated. */
  datatype Key = Key(arn: Arn, value: string, at: real)

  /** What a writer of the record is about to do; `Other` is any of the store's updates
      that leaves the credential fields as it read them. */
  datatype Job = Provision(key: Key) | Rotate(key: Key) | Revoke | Other

  /** The record a job puts, given the record it read. */
  function Rewritten(read: Record, job: Job): Record {
    match job
    case Provision(key) => read.(arn := Some(key.arn))
    case Rotate(key) => read.(previous := read.arn, expires := Some(key.at.Floor + GRACE), arn := Some(key.arn))
    case Revoke => read.(revoked := true)
    case Other => read
  }

  /** A rotation needs a key to rotate. */
  predicate Refuses(read: Record, job: Job) {
    job.Rotate? && read.arn.None?
  }

  datatype Writer = Holding(read: Record, job: Job) | Done

  /** The record, the vault, the writers, and the jobs whose put has landed, in order. */
  datatype Registry = Registry(record: Record, vault: Vault, writers: map<nat, Writer>, log: seq<Job>)

  datatype Event = CreateSecret(key: Key) | Read(w: nat, job: Job) | PutBack(w: nat)

  /** The secret a job will point the record at exists already. */
  predicate HasSecret(vault: Vault, job: Job) {
    job.Provision? || job.Rotate? ==>
      && job.key.arn != "" && Ascii(job.key.value)
      && job.key.arn in vault && vault[job.key.arn] == job.key.value
  }

  predicate Lands(s: Registry, e: Event) {
    e.PutBack? && e.w in s.writers && s.writers[e.w].Holding?
  }

  /** One step; an event that cannot happen here changes nothing, and a writer that dies
      simply takes no further step. */
  function Stepped(s: Registry, e: Event): Registry {
    match e
    case CreateSecret(key) => if key.arn in s.vault then s else s.(vault := s.vault[key.arn := key.value])
    case Read(w, job) =>
      if w in s.writers || !HasSecret(s.vault, job) || Refuses(s.record, job) then s
      else s.(writers := s.writers[w := Holding(s.record, job)])
    case PutBack(w) =>
      if !Lands(s, e) then s
      else
        s.(record := Rewritten(s.writers[w].read, s.writers[w].job), writers := s.writers[w := Done],
           log := s.log + [s.writers[w].job])
  }

  function AfterAll(s: Registry, es: seq<Event>): Registry
    decreases |es|
  {
    if es == [] then s else Stepped(AfterAll(s, es[..|es| - 1]), es[|es| - 1])
  }

  // ----- when a revocation is undone -----

  /** A put, somewhere in the run, by a writer that had read the record before it was
      revoked and is not itself revoking. */
  predicate StalePut(s: Registry, e: Event) {
    && e.PutBack? && e.w in s.writers && s.writers[e.w].Holding?
    && !s.writers[e.w].read.revoked && !s.writers[e.w].job.Revoke?
  }

  predicate HasStalePut(s: Registry, es: seq<Event>) {
    exists k :: 0 <= k < |es| && StalePut(s, es[k])
  }

  predicate Undone(s: Registry, es: seq<Event>) {
    exists k :: 0 <= k <= |es| && !AfterAll(s, es[..k]).record.revoked
  }

  /** While no such put has landed the record stays revoked, whoever holds an unrevoked
      record held it from the start, and those writers are all still waiting. */
  ghost predicate StillRevoked(s: Registry, t: Registry) {
    && t.record.revoked
    && (forall w :: w in t.writers && t.writers[w].Holding? && !t.writers[w].read.revoked && !t.writers[w].job.Revoke? ==>
          w in s.writers && s.writers[w] == t.writers[w])
    && (forall w :: w in s.writers && s.writers[w].Holding? && !s.writers[w].read.revoked && !s.writers[w].job.Revoke? ==>
          w in t.writers && t.writers[w] == s.writers[w])
  }

  lemma {:induction false} StillRevokedStep(s: Registry, t: Registry, e: Event)
    requires StillRevoked(s, t)
    ensures if StalePut(s, e) then !Stepped(t, e).record.revoked else StillRevoked(s, Stepped(t, e))
  {
  }

  lemma {:induction false} NoStalePutYet(s: Registry, es: seq<Event>)
    requires s.record.revoked && !HasStalePut(s, es)
    ensures StillRevoked(s, AfterAll(s, es))
    decreases |es|
  {
    if es != [] {
      var rest, e := es[..|es| - 1], es[|es| - 1];
      assert forall k :: 0 <= k < |rest| ==> rest[k] == es[k];
      assert !StalePut(s, e);
      NoStalePutYet(s, rest);
      StillRevokedStep(s, AfterAll(s, rest), e);
    }
  }

  lemma {:induction false} UndoneIff(s: Registry, es: seq<Event>)
    requires s.record.revoked
    ensures Undone(s, es) <==> HasStalePut(s, es)
    decreases |es|
  {
    assert es[..|es|] == es;
    if es == [] {
      assert forall k :: 0 <= k <= |es| ==> es[..k] == [];
    } else {
      var rest, e := es[..|es| - 1], es[|es| - 1];
      UndoneIff(s, rest);
      assert forall k :: 0 <= k <= |rest| ==> es[..k] == rest[..k];
      assert forall k :: 0 <= k < |rest| ==> es[k] == rest[k];
      if !HasStalePut(s, rest) {
        NoStalePutYet(s, rest);
        StillRevokedStep(s, AfterAll(s, rest), e);
        assert HasStalePut(s, es) <==> StalePut(s, es[|es| - 1]);
      }
    }
  }

  /** A credential that carries the record's current key. */
  predicate CarriesCurrent(t: Registry, authorization: string) {
    && t.record.arn.Some? && t.record.arn.value != "" && t.record.arn.value in t.vault
    && Ascii(t.vault[t.record.arn.value]) && Provided(authorization) == Some(t.vault[t.record.arn.value])
  }

  /** In every run from a revoked record the revocation is undone if and only if a put lands
      whose read preceded it. Until then no key works, whatever is rotated or provisioned
      meanwhile, with any cache at any time: a rotation alone is no recovery. And whenever it
      is undone the current key works again, with any cache that agrees with the vault. */
  lemma {:induction false} RevocationUndoneIff(s: Registry, es: seq<Event>, cache: Cache, authorization: string, wall: real, clock: nat -> real)
    requires s.record.revoked
    ensures Undone(s, es) <==> HasStalePut(s, es)
    ensures var t := AfterAll(s, es);
            && (!HasStalePut(s, es) ==> Authenticated(cache, t.record, t.vault, authorization, wall, clock) == (Ok(false), cache))
            && (!t.record.revoked && Agrees(cache, t.vault) && CarriesCurrent(t, authorization) ==>
                  Authenticated(cache, t.record, t.vault, authorization, wall, clock).0 == Ok(true))
  {
    var t := AfterAll(s, es);
    UndoneIff(s, es);
    if !HasStalePut(s, es) {
      NoStalePutYet(s, es);
    } else if !t.record.revoked && Agrees(cache, t.vault) && CarriesCurrent(t, authorization) {
      AgreementIsTransparent(cache, t.record, t.vault, authorization, wall, clock);
    }
  }

  // ----- runs that are as good as one job after the other -----

  /** The record a job leaves when nothing happens between its read and its put. */
  function Applied(r: Record, job: Job): Record {
    if Refuses(r, job) then r else Rewritten(r, job)
  }

  function InTurn(r: Record, jobs: seq<Job>): Record
    decreases |jobs|
  {
    if jobs == [] then r else Applied(InTurn(r, jobs[..|jobs| - 1]), jobs[|jobs| - 1])
  }

  /** Nothing the put carries over from its read has changed meanwhile. */
  predicate Harmless(read: Record, now: Record, job: Job) {
    match job
    case Provision(_) => read.revoked == now.revoked && read.previous == now.previous && read.expires == now.expires
    case Rotate(_) => read.revoked == now.revoked && read.arn == now.arn
    case Revoke => read.arn == now.arn && read.previous == now.previous && read.expires == now.expires
    case Other => read == now
  }

  predicate HarmlessAt(s: Registry, e: Event) {
    Lands(s, e) ==> Harmless(s.writers[e.w].read, s.record, s.writers[e.w].job)
  }

  predicate AllHarmless(s: Registry, es: seq<Event>) {
    forall k :: 0 <= k < |es| ==> HarmlessAt(AfterAll(s, es[..k]), es[k])
  }

  const NO_KEYS := Registry(Record(false, None, None, None), map[], map[], [])

  /** The record is what the landed jobs, one after the other, would have made of it. */
  predicate Linear(t: Registry) {
    t.record == InTurn(NO_KEYS.record, t.log)
  }

  predicate LinearThroughout(es: seq<Event>) {
    forall k :: 0 <= k <= |es| ==> Linear(AfterAll(NO_KEYS, es[..k]))
  }

  /** A rotation is only ever held by a writer that found a key to rotate. */
  predicate RotationsHold(t: Registry) {
    forall w :: w in t.writers && t.writers[w].Holding? ==> !Refuses(t.writers[w].read, t.writers[w].job)
  }

  lemma {:induction false} RotationsAlwaysHold(es: seq<Event>)
    ensures RotationsHold(AfterAll(NO_KEYS, es))
    decreases |es|
  {
    if es != [] {
      RotationsAlwaysHold(es[..|es| - 1]);
    }
  }

  lemma {:induction false} LinearStepIff(t: Registry, e: Event)
    requires Linear(t) && RotationsHold(t)
    ensures Linear(Stepped(t, e)) <==> HarmlessAt(t, e)
  {
    if Lands(t, e) {
      var job := t.writers[e.w].job;
      assert (t.log + [job])[..|t.log|] == t.log;
      assert InTurn(NO_KEYS.record, t.log + [job]) == Applied(t.record, job);
    }
  }

  lemma {:induction false} LinearSplits(es: seq<Event>)
    requires es != []
    ensures LinearThroughout(es) <==> LinearThroughout(es[..|es| - 1]) && Linear(AfterAll(NO_KEYS, es))
  {
    var rest := es[..|es| - 1];
    assert es[..|es|] == es;
    assert forall k :: 0 <= k <= |rest| ==> es[..k] == rest[..k];
  }

  lemma {:induction false} HarmlessSplits(es: seq<Event>)
    requires es != []
    ensures AllHarmless(NO_KEYS, es) <==>
            AllHarmless(NO_KEYS, es[..|es| - 1]) && HarmlessAt(AfterAll(NO_KEYS, es[..|es| - 1]), es[|es| - 1])
  {
    var rest := es[..|es| - 1];
    assert forall k :: 0 <= k < |rest| ==> es[..k] == rest[..k] && es[k] == rest[k];
  }

  /** A run is at every moment as good as one job after the other if and only if every put
      that lands carries over nothing that has changed since its read. */
  lemma {:induction false} LinearIff(es: seq<Event>)
    ensures LinearThroughout(es) <==> AllHarmless(NO_KEYS, es)
    ensures LinearThroughout(es) ==> Linear(AfterAll(NO_KEYS, es))
    decreases |es|
  {
    assert es[..|es|] == es;
    if es == [] {
      assert forall k :: 0 <= k <= |es| ==> es[..k] == [];
    } else {
      var rest := es[..|es| - 1];
      LinearIff(rest);
      LinearSplits(es);
      HarmlessSplits(es);
      if LinearThroughout(rest) {
        RotationsAlwaysHold(rest);
        LinearStepIff(AfterAll(NO_KEYS, rest), es[|es| - 1]);
      }
    }
  }

  // ----- which keys work -----

  /** The key given out last. */
  function Newest(jobs: seq<Job>): Option<Key>
    decreases |jobs|
  {
    if jobs == [] then None
    else
      var before, last := Newest(jobs[..|jobs| - 1]), jobs[|jobs| - 1];
      if last.Provision? || (last.Rotate? && before.Some?) then Some(last.key) else before
  }

  /** The key the last rotation replaced, with the key it was replaced by. */
  function Replaced(jobs: seq<Job>): Option<(Key, Key)>
    decreases |jobs|
  {
    if jobs == [] then None
    else
      var rest, last := jobs[..|jobs| - 1], jobs[|jobs| - 1];
      if last.Rotate? && Newest(rest).Some? then Some((Newest(rest).value, last.key)) else Replaced(rest)
  }

  predicate Stored(vault: Vault, k: Key) {
    k.arn != "" && Ascii(k.value) && k.arn in vault && vault[k.arn] == k.value
  }

  /** What the record says of the jobs that made it. */
  predicate Tracks(r: Record, jobs: seq<Job>) {
    && (r.revoked <==> Revoke in jobs)
    && r.arn == (if Newest(jobs).Some? then Some(Newest(jobs).value.arn) else None)
    && r.previous == (if Replaced(jobs).Some? then Some(Replaced(jobs).value.0.arn) else None)
    && (Replaced(jobs).Some? ==> r.expires == Some(Replaced(jobs).value.1.at.Floor + GRACE))
  }

  lemma {:induction false} InTurnTracks(jobs: seq<Job>)
    ensures Tracks(InTurn(NO_KEYS.record, jobs), jobs)
    decreases |jobs|
  {
    if jobs != [] {
      InTurnTracks(jobs[..|jobs| - 1]);
      assert jobs == jobs[..|jobs| - 1] + [jobs[|jobs| - 1]];
    }
  }

  predicate KeysStored(t: Registry) {
    && (Newest(t.log).Some? ==> Stored(t.vault, Newest(t.log).value))
    && (Replaced(t.log).Some? ==> Stored(t.vault, Replaced(t.log).value.0))
    && (forall w :: w in t.writers && t.writers[w].Holding? ==> HasSecret(t.vault, t.writers[w].job))
  }

  lemma {:induction false} KeysStayStored(es: seq<Event>)
    ensures KeysStored(AfterAll(NO_KEYS, es))
    decreases |es|
  {
    if es != [] {
      KeysStayStored(es[..|es| - 1]);
      var t, e := AfterAll(NO_KEYS, es[..|es| - 1]), es[|es| - 1];
      if Lands(t, e) {
        assert (t.log + [t.writers[e.w].job])[..|t.log|] == t.log;
      }
    }
  }

  /** The newest key, or the one it replaced until a day after it was generated. */
  predicate Good(jobs: seq<Job>, key: string, wall: real) {
    || (Newest(jobs).Some? && key == Newest(jobs).value.value)
    || (Newest(jobs).Some? && Replaced(jobs).Some? && key == Replaced(jobs).value.0.value
        && wall < (Replaced(jobs).value.1.at.Floor + GRACE) as real)
  }

  /** In every run without a harmful put, through any cache that agrees with the vault: a
      credential is accepted exactly when nothing was ever revoked and it carries the
      newest key, or the one the last rotation replaced, within its day of grace. */
  lemma {:induction false} AcceptedExactly(es: seq<Event>, cache: Cache, authorization: string, wall: real, clock: nat -> real)
    requires AllHarmless(NO_KEYS, es) && Agrees(cache, AfterAll(NO_KEYS, es).vault)
    ensures var t := AfterAll(NO_KEYS, es);
            Authenticated(cache, t.record, t.vault, authorization, wall, clock).0 == Ok(true) <==>
              Revoke !in t.log && Provided(authorization).Some? && Good(t.log, Provided(authorization).value, wall)
  {
    var t := AfterAll(NO_KEYS, es);
    LinearIff(es);
    InTurnTracks(t.log);
    KeysStayStored(es);
    AgreementIsTransparent(cache, t.record, t.vault, authorization, wall, clock);
  }

  // ----- the store's methods -----

  lemma {:induction false} AfterSnoc(s: Registry, es: seq<Event>, e: Event)
    ensures AfterAll(s, es + [e]) == Stepped(AfterAll(s, es), e)
  {
    assert (es + [e])[..|es|] == es;
  }

  lemma {:induction false} AfterConcat(s: Registry, a: seq<Event>, b: seq<Event>)
    ensures AfterAll(s, a + b) == AfterAll(AfterAll(s, a), b)
    decreases |b|
  {
    if b == [] {
      assert a + b == a;
    } else {
      assert (a + b)[..|a + b| - 1] == a + b[..|b| - 1];
      AfterConcat(s, a, b[..|b| - 1]);
    }
  }

  predicate About(e: Event, w: nat) {
    !e.CreateSecret? && e.w == w
  }

  predicate NotAbout(es: seq<Event>, w: nat) {
    forall k :: 0 <= k < |es| ==> !About(es[k], w)
  }

  lemma {:induction false} OthersLeave(s: Registry, es: seq<Event>, w: nat)
    requires NotAbout(es, w)
    ensures w in AfterAll(s, es).writers <==> w in s.writers
    ensures w in s.writers ==> AfterAll(s, es).writers[w] == s.writers[w]
    decreases |es|
  {
    if es != [] {
      OthersLeave(s, es[..|es| - 1], w);
      assert !About(es[|es| - 1], w);
    }
  }

  lemma {:induction false} SecretsStay(s: Registry, es: seq<Event>, arn: Arn)
    requires arn in s.vault
    ensures arn in AfterAll(s, es).vault && AfterAll(s, es).vault[arn] == s.vault[arn]
    decreases |es|
  {
    if es != [] {
      SecretsStay(s, es[..|es| - 1], arn);
    }
  }

  /** A writer's read, others at work, its put. */
  function Writing(w: nat, job: Job, between: seq<Event>): seq<Event> {
    [Read(w, job)] + between + [PutBack(w)]
  }

  lemma {:induction false} WritingEnds(s: Registry, w: nat, job: Job, between: seq<Event>)
    requires w !in s.writers && NotAbout(between, w) && HasSecret(s.vault, job) && !Refuses(s.record, job)
    ensures var m := s.(writers := s.writers[w := Holding(s.record, job)]);
            && w in AfterAll(m, between).writers && AfterAll(m, between).writers[w] == Holding(s.record, job)
            && AfterAll(s, Writing(w, job, between)) == Stepped(AfterAll(m, between), PutBack(w))
  {
    var m := s.(writers := s.writers[w := Holding(s.record, job)]);
    assert [Read(w, job)][..0] == [] && AfterAll(s, [Read(w, job)]) == m;
    AfterConcat(s, [Read(w, job)], between);
    AfterSnoc(s, [Read(w, job)] + between, PutBack(w));
    OthersLeave(m, between, w);
  }

  /** One agent's record in the registry and its secrets, with others at work between a
      method's read of the record and its put. */
  class AgentRegistry {
    var s: Registry

    constructor ()
      ensures s == NO_KEYS
    {
      s := NO_KEYS;
    }

    method Await(es: seq<Event>)
      modifies this
      ensures s == AfterAll(old(s), es)
    {
      for k := 0 to |es|
        invariant s == AfterAll(old(s), es[..k])
      {
        assert es[..k + 1] == es[..k] + [es[k]];
        AfterSnoc(old(s), es[..k], es[k]);
        s := Stepped(s, es[k]);
      }
      assert es[..|es|] == es;
    }

    /** Whatever was written since its read, the record ends as it was read, revoked. */
    method RevokeApiKey(w: nat, between: seq<Event>)
      requires w !in s.writers && NotAbout(between, w)
      modifies this
      ensures s == AfterAll(old(s), Writing(w, Revoke, between))
      ensures s.record == old(s.record).(revoked := true)
      ensures s.log == AfterAll(old(s), [Read(w, Revoke)] + between).log + [Revoke]
    {
      WritingEnds(s, w, Revoke, between);
      AfterConcat(s, [Read(w, Revoke)], between);
      assert [Read(w, Revoke)][..0] == [];
      var read := s.record;
      s := s.(writers := s.writers[w := Holding(read, Revoke)]);
      Await(between);
      s := Registry(read.(revoked := true), s.vault, s.writers[w := Done], s.log + [Revoke]);
    }

    /** The first key, whose secret is there already. */
    method ProvisionApiKey(w: nat, key: Key, between: seq<Event>)
      requires w !in s.writers && NotAbout(between, w) && HasSecret(s.vault, Provision(key))
      modifies this
      ensures s == AfterAll(old(s), Writing(w, Provision(key), between))
      ensures s.record == old(s.record).(arn := Some(key.arn))
      ensures Stored(s.vault, key)
    {
      WritingEnds(s, w, Provision(key), between);
      var read := s.record;
      s := s.(writers := s.writers[w := Holding(read, Provision(key))]);
      SecretsStay(s, between, key.arn);
      Await(between);
      s := Registry(read.(arn := Some(key.arn)), s.vault, s.writers[w := Done], s.log + [Provision(key)]);
    }

    /** The rotation endpoint: a secret under a new name, then the record. It fails when the
        name is taken, or when the record it then reads has no key to rotate; the secret is
        there all the same. */
    method RotateApiKey(w: nat, key: Key, before: seq<Event>, between: seq<Event>) returns (ok: bool)
      requires w !in s.writers && NotAbout(before, w) && NotAbout(between, w) && key.arn != "" && Ascii(key.value)
      modifies this
      ensures key.arn in old(s.vault) ==> !ok && s == old(s)
      ensures var read := AfterAll(old(s), [CreateSecret(key)] + before).record;
              && (key.arn !in old(s.vault) ==> (ok <==> read.arn.Some?) && Stored(s.vault, key))
              && (ok ==> s.record == read.(previous := read.arn, expires := Some(key.at.Floor + GRACE), arn := Some(key.arn)))
      ensures key.arn !in old(s.vault) ==>
                s == AfterAll(old(s), [CreateSecret(key)] + before + if ok then Writing(w, Rotate(key), between) else [])
    {
      if key.arn in s.vault {
        return false;
      }
      ghost var was := s;
      s := s.(vault := s.vault[key.arn := key.value]);
      assert [CreateSecret(key)][..0] == [] && AfterAll(was, [CreateSecret(key)]) == s;
      AfterConcat(was, [CreateSecret(key)], before);
      SecretsStay(s, before, key.arn);
      OthersLeave(s, before, w);
      Await(before);
      var read := s.record;
      if read.arn.None? {
        assert [CreateSecret(key)] + before + [] == [CreateSecret(key)] + before;
        return false;
      }
      WritingEnds(s, w, Rotate(key), between);
      AfterConcat(was, [CreateSecret(key)] + before, Writing(w, Rotate(key), between));
      s := s.(writers := s.writers[w := Holding(read, Rotate(key))]);
      SecretsStay(s, between, key.arn);
      Await(between);
      s := Registry(read.(previous := read.arn, expires := Some(key.at.Floor + 24 * 3600), arn := Some(key.arn)),
                    s.vault, s.writers[w := Done], s.log + [Rotate(key)]);
      return true;
    }
  }
}
