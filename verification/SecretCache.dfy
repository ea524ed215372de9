/** The cached reading of API key secrets and the two-key rule that compares against them
    (services/agent-runtime/auth.py). */
module SecretCache {
  import opened Common

  type Arn = string
  type Vault = map<Arn, string>

  const TTL: real := 300.0

  datatype Entry = Entry(value: string, at: real)

  type Cache = map<Arn, Entry>

  predicate Live(cache: Cache, arn: Arn, now: real) {
    arn in cache && now - cache[arn].at < TTL
  }

  /** What a lookup answers: the live cache entry, else what the vault holds. */
  function Answer(cache: Cache, vault: Vault, arn: Arn, now: real): Option<string> {
    if Live(cache, arn, now) then Some(cache[arn].value)
    else if arn in vault then Some(vault[arn]) else None
  }

  /** The cache after a lookup; a fetched value is stamped when it has arrived. */
  function Looked(cache: Cache, vault: Vault, arn: Arn, now: real, arrived: real): Cache {
    if Live(cache, arn, now) || arn !in vault then cache else cache[arn := Entry(vault[arn], arrived)]
  }

  // ----- the two-key rule -----

  /** The credential fields of an agent record. */
  datatype Record = Record(revoked: bool, arn: Option<Arn>, previous: Option<Arn>, expires: Option<int>)

  datatype Failure = MissingSecret | NotAscii

  predicate IsSpace(c: char) {
    c == ' ' || '\t' <= c <= '\r' || '\U{1C}' <= c <= '\U{1F}' || c == '\U{85}' || c == '\U{A0}'
  }

  function Stripped(s: string): string
    decreases |s|
  {
    if s != "" && IsSpace(s[0]) then Stripped(s[1..])
    else if s != "" && IsSpace(s[|s| - 1]) then Stripped(s[..|s| - 1])
    else s
  }

  const BEARER := "Bearer "

  function Provided(authorization: string): Option<string> {
    if BEARER <= authorization && Stripped(authorization[|BEARER|..]) != "" then Some(Stripped(authorization[|BEARER|..]))
    else None
  }

  predicate Ascii(s: string) {
    forall k :: 0 <= k < |s| ==> s[k] < '\U{80}'
  }

  /** Constant-time comparison; it refuses to compare anything but ASCII. */
  function Compared(provided: string, secret: Option<string>): Result<bool, Failure> {
    if secret.None? then Err(MissingSecret)
    else if !Ascii(provided) || !Ascii(secret.value) then Err(NotAscii)
    else Ok(provided == secret.value)
  }

  predicate InGrace(r: Record, wall: real) {
    && r.previous.Some? && r.previous.value != ""
    && wall < (if r.expires.Some? then r.expires.value as real else 0.0)
  }

  predicate HasKey(r: Record) {
    !r.revoked && r.arn.Some? && r.arn.value != ""
  }

  /** The rule without any cache: the current key, or the previous one before its expiry,
      and neither once the agent is revoked. */
  function Uncached(r: Record, vault: Vault, authorization: string, wall: real): Result<bool, Failure> {
    var provided := Provided(authorization);
    if provided.None? || !HasKey(r) then Ok(false)
    else
      var current := Compared(provided.value, if r.arn.value in vault then Some(vault[r.arn.value]) else None);
      if current != Ok(false) || !InGrace(r, wall) then current
      else Compared(provided.value, if r.previous.value in vault then Some(vault[r.previous.value]) else None)
  }

  predicate AllSpace(s: string) {
    forall k :: 0 <= k < |s| ==>
      s[k] in {' ', '\t', '\n', '\U{0B}', '\U{0C}', '\r', '\U{1C}', '\U{1D}', '\U{1E}', '\U{1F}', '\U{85}', '\U{A0}'}
  }

  /** The text without the blanks around it, which neither starts nor ends with one. */
  lemma {:induction false} StrippedIs(before: string, t: string, after: string)
    requires AllSpace(before) && AllSpace(after)
    requires t == "" || (!AllSpace(t[..1]) && !AllSpace(t[|t| - 1..]))
    ensures Stripped(before + t + after) == t
    decreases |before|
  {
    if before == "" {
      assert before + t + after == t + after;
      StrippedAfter(t, after);
    } else {
      assert (before + t + after)[1..] == before[1..] + t + after;
      StrippedIs(before[1..], t, after);
    }
  }

  lemma {:induction false} StrippedAfter(t: string, after: string)
    requires AllSpace(after)
    requires t == "" || (!AllSpace(t[..1]) && !AllSpace(t[|t| - 1..]))
    ensures Stripped(t + after) == t
    decreases |after|
  {
    var s := t + after;
    if t != "" {
      assert t[..1][0] == t[0] == s[0] && t[|t| - 1..][0] == t[|t| - 1];
    }
    if after == "" {
      assert s == t;
    } else if t == "" {
      assert s[1..] == t + after[1..];
      StrippedAfter(t, after[1..]);
    } else {
      assert s[..|s| - 1] == t + after[..|after| - 1];
      StrippedAfter(t, after[..|after| - 1]);
    }
  }

  /** The key sent is what stands after "Bearer " without the blanks around it; a header
      with another beginning, or with nothing but blanks after it, sends none. */
  lemma {:induction false} ProvidedIs(before: string, key: string, after: string, other: string)
    requires AllSpace(before) && AllSpace(after)
    requires key == "" || (!AllSpace(key[..1]) && !AllSpace(key[|key| - 1..]))
    requires |other| < 7 || other[..7] != "Bearer "
    ensures Provided("Bearer " + (before + key + after)) == if key == "" then None else Some(key)
    ensures Provided(other) == None
  {
    StrippedIs(before, key, after);
    var sent := "Bearer " + (before + key + after);
    assert BEARER <= sent && sent[|BEARER|..] == before + key + after;
    NotBearer(other);
  }

  lemma {:induction false} NotBearer(other: string)
    ensures BEARER <= other <==> |other| >= 7 && other[..7] == "Bearer "
  {
  }

  /** The rule on a key that was sent. It is accepted when it is the current key, or, the
      current key being another, the previous one before its expiry, both plain ASCII; a
      secret that is gone or a key that cannot be compared is an error. */
  lemma {:induction false} RuleIs(r: Record, vault: Vault, authorization: string, wall: real, key: string)
    requires Provided(authorization) == Some(key)
    ensures var u := Uncached(r, vault, authorization, wall);
            var ascii := forall k :: 0 <= k < |key| ==> key[k] as int < 128;
            if r.revoked || r.arn == None || r.arn == Some("") then u == Ok(false)
            else if r.arn.value !in vault then u == Err(MissingSecret)
            else if !ascii || exists k :: 0 <= k < |vault[r.arn.value]| && vault[r.arn.value][k] as int >= 128 then u == Err(NotAscii)
            else if vault[r.arn.value] == key then u == Ok(true)
            else if r.previous == None || r.previous == Some("") then u == Ok(false)
            else if r.expires == None && wall >= 0.0 then u == Ok(false)
            else if r.expires != None && wall >= r.expires.value as real then u == Ok(false)
            else if r.previous.value !in vault then u == Err(MissingSecret)
            else if exists k :: 0 <= k < |vault[r.previous.value]| && vault[r.previous.value][k] as int >= 128 then u == Err(NotAscii)
            else u == Ok(vault[r.previous.value] == key)
  {}

  /** The check through the cache, and the cache it leaves. */
  function Authenticated(cache: Cache, r: Record, vault: Vault, authorization: string, wall: real, clock: nat -> real)
    : (Result<bool, Failure>, Cache)
  {
    var provided := Provided(authorization);
    if provided.None? || !HasKey(r) then (Ok(false), cache)
    else
      var current := Compared(provided.value, Answer(cache, vault, r.arn.value, clock(0)));
      var cache' := Looked(cache, vault, r.arn.value, clock(0), clock(1));
      if current != Ok(false) || !InGrace(r, wall) then (current, cache')
      else
        (Compared(provided.value, Answer(cache', vault, r.previous.value, clock(2))),
         Looked(cache', vault, r.previous.value, clock(2), clock(3)))
  }

  /** What a lookup by this process sees of the vault: its entry of the last 300 seconds first. */
  function SeenBy(cache: Cache, vault: Vault, arn: Arn, now: real): Vault {
    if arn in cache && now - cache[arn].at < 300.0 then vault[arn := cache[arn].value] else vault
  }

  /** The check through the cache is the rule on what its two lookups see, the first at the
      first clock reading and the second at the third; what a lookup fetches is kept with
      the reading after it, and nothing else changes. */
  lemma {:induction false} CheckedThroughCache(cache: Cache, r: Record, vault: Vault, authorization: string, wall: real, clock: nat -> real)
    requires r.arn.Some? && r.previous.Some? && r.arn != r.previous
    ensures var current, previous := r.arn.value, r.previous.value;
            var seen := SeenBy(cache, SeenBy(cache, vault, current, clock(0)), previous, clock(2));
            var (result, after) := Authenticated(cache, r, vault, authorization, wall, clock);
            && result == Uncached(r, seen, authorization, wall)
            && (forall k :: k != current && k != previous ==> (k in after <==> k in cache) && (k in cache ==> after[k] == cache[k]))
            && (current in after && !(current in cache && after[current] == cache[current]) ==>
                  current in vault && after[current] == Entry(vault[current], clock(1)))
            && (previous in after && !(previous in cache && after[previous] == cache[previous]) ==>
                  previous in vault && after[previous] == Entry(vault[previous], clock(3)))
  {}

  /** One process's credential check. */
  class ApiKeyAuthProvider {
    var cache: Cache

    constructor ()
      ensures cache == map[]
    {
      cache := map[];
    }

    method GetSecretValue(vault: Vault, arn: Arn, now: real, arrived: real) returns (value: Option<string>)
      modifies this
      ensures value == Answer(old(cache), vault, arn, now)
      ensures cache == Looked(old(cache), vault, arn, now, arrived)
      // an entry less than 300 seconds old answers for the vault; what is fetched is kept
      ensures arn in old(cache) && now - old(cache)[arn].at < 300.0 ==> value == Some(old(cache)[arn].value) && cache == old(cache)
      ensures !(arn in old(cache) && now - old(cache)[arn].at < 300.0) ==>
                if arn in vault then value == Some(vault[arn]) && cache == old(cache)[arn := Entry(vault[arn], arrived)]
                else value == None && cache == old(cache)
    {
      if arn in cache && now - cache[arn].at < TTL {
        return Some(cache[arn].value);
      }
      if arn !in vault {
        return None;
      }
      cache := cache[arn := Entry(vault[arn], arrived)];
      return Some(vault[arn]);
    }

    /** `clock` reads the monotonic clock: before and after each of the two lookups. */
    method Authenticate(r: Record, vault: Vault, authorization: string, wall: real, clock: nat -> real)
      returns (result: Result<bool, Failure>)
      modifies this
      ensures result == Authenticated(old(cache), r, vault, authorization, wall, clock).0
      ensures cache == Authenticated(old(cache), r, vault, authorization, wall, clock).1
    {
      if !(BEARER <= authorization) {
        return Ok(false);
      }
      var provided := Stripped(authorization[|BEARER|..]);
      if provided == "" || r.revoked || r.arn.None? || r.arn.value == "" {
        return Ok(false);
      }
      var secret := GetSecretValue(vault, r.arn.value, clock(0), clock(1));
      result := Compared(provided, secret);
      if result != Ok(false) {
        return;
      }
      var expires := if r.expires.Some? then r.expires.value as real else 0.0;
      if r.previous.Some? && r.previous.value != "" && wall < expires {
        secret := GetSecretValue(vault, r.previous.value, clock(2), clock(3));
        result := Compared(provided, secret);
      }
    }
  }

  /** Every cached value is the one the vault holds now. */
  ghost predicate Agrees(cache: Cache, vault: Vault) {
    forall arn :: arn in cache ==> arn in vault && vault[arn] == cache[arn].value
  }

  // ----- runs of clock, vault and lookups -----

  /** A fetch under way: what it has read, and when. */
  datatype Flight = Flight(arn: Arn, value: string, began: real)

  datatype State = State(now: real, vault: Vault, cache: Cache, flights: map<nat, Flight>)

  datatype Event =
    | Tick(seconds: real)
    | Put(arn: Arn, value: string)
    | Delete(arn: Arn)
    | Fetch(id: nat, arn: Arn)
    | Store(id: nat)

  function Next(s: State, e: Event): State {
    match e
    case Tick(d) => if d >= 0.0 then s.(now := s.now + d) else s
    case Put(arn, value) => s.(vault := s.vault[arn := value])
    case Delete(arn) => s.(vault := s.vault - {arn})
    case Fetch(id, arn) =>
      if Live(s.cache, arn, s.now) || arn !in s.vault then s
      else s.(flights := s.flights[id := Flight(arn, s.vault[arn], s.now)])
    case Store(id) =>
      if id !in s.flights then s
      else s.(cache := s.cache[s.flights[id].arn := Entry(s.flights[id].value, s.now)], flights := s.flights - {id})
  }

  function After(s: State, es: seq<Event>): State
    decreases |es|
  {
    if es == [] then s else Next(After(s, es[..|es| - 1]), es[|es| - 1])
  }

  /** Every fetch that is stored arrives within the given latency. */
  predicate Prompt(s: State, es: seq<Event>, latency: real)
    decreases |es|
  {
    es == [] ||
    var before, e := After(s, es[..|es| - 1]), es[|es| - 1];
    && Prompt(s, es[..|es| - 1], latency)
    && (e.Store? && e.id in before.flights ==> before.now - before.flights[e.id].began <= latency)
  }

  /** The vault held the value at some moment of the run, no earlier than `since`. */
  predicate Held(s: State, es: seq<Event>, arn: Arn, value: string, since: real) {
    exists j :: 0 <= j <= |es| && HeldAt(s, es, j, arn, value, since)
  }

  predicate HeldAt(s: State, es: seq<Event>, j: nat, arn: Arn, value: string, since: real)
    requires j <= |es|
  {
    var moment := After(s, es[..j]);
    arn in moment.vault && moment.vault[arn] == value && moment.now >= since
  }

  lemma {:induction false} HeldLonger(s: State, es: seq<Event>, arn: Arn, value: string, since: real, earlier: real)
    requires es != [] && Held(s, es[..|es| - 1], arn, value, since) && earlier <= since
    ensures Held(s, es, arn, value, earlier)
  {
    var rest := es[..|es| - 1];
    var j :| 0 <= j <= |rest| && HeldAt(s, rest, j, arn, value, since);
    assert es[..j] == rest[..j];
    assert HeldAt(s, es, j, arn, value, earlier);
  }

  lemma {:induction false} HeldNow(s: State, es: seq<Event>, arn: Arn, now: State)
    requires now == After(s, es) && arn in now.vault
    ensures Held(s, es, arn, now.vault[arn], now.now)
  {
    assert es[..|es|] == es;
    assert HeldAt(s, es, |es|, arn, now.vault[arn], now.now);
  }

  /** The entry holds what the vault held, at most the latency before its stamp. */
  predicate EntryFresh(s: State, es: seq<Event>, latency: real, arn: Arn, now: State) {
    arn in now.cache ==>
      now.cache[arn].at <= now.now && Held(s, es, arn, now.cache[arn].value, now.cache[arn].at - latency)
  }

  predicate FlightFresh(s: State, es: seq<Event>, id: nat, now: State) {
    id in now.flights ==> Held(s, es, now.flights[id].arn, now.flights[id].value, now.flights[id].began)
  }

  predicate Fresh(s: State, es: seq<Event>, latency: real, now: State) {
    && (forall arn :: arn in now.cache ==> EntryFresh(s, es, latency, arn, now))
    && (forall id :: id in now.flights ==> FlightFresh(s, es, id, now))
  }

  lemma {:induction false} EntryStaysFresh(s: State, es: seq<Event>, latency: real, arn: Arn, before: State, now: State)
    requires es != [] && Fresh(s, es[..|es| - 1], latency, before) && now == Next(before, es[|es| - 1])
    requires var e := es[|es| - 1];
             e.Store? && e.id in before.flights ==> before.now - before.flights[e.id].began <= latency
    ensures EntryFresh(s, es, latency, arn, now)
  {
    var e := es[|es| - 1];
    if arn in now.cache {
      var entry := now.cache[arn];
      if e.Store? && e.id in before.flights && before.flights[e.id].arn == arn {
        assert FlightFresh(s, es[..|es| - 1], e.id, before);
        HeldLonger(s, es, arn, entry.value, before.flights[e.id].began, entry.at - latency);
      } else {
        assert EntryFresh(s, es[..|es| - 1], latency, arn, before);
        HeldLonger(s, es, arn, entry.value, before.cache[arn].at - latency, entry.at - latency);
      }
    }
  }

  lemma {:induction false} FlightStaysFresh(s: State, es: seq<Event>, latency: real, id: nat, before: State, now: State)
    requires es != [] && Fresh(s, es[..|es| - 1], latency, before) && now == Next(before, es[|es| - 1])
    requires var e := es[|es| - 1];
             e.Fetch? && e.arn in now.vault ==> Held(s, es, e.arn, now.vault[e.arn], now.now)
    ensures FlightFresh(s, es, id, now)
  {
    var e := es[|es| - 1];
    if id in now.flights && (now == before || !e.Fetch? || e.id != id) {
      var f := before.flights[id];
      assert now.flights[id] == f && FlightFresh(s, es[..|es| - 1], id, before);
      HeldLonger(s, es, f.arn, f.value, f.began, f.began);
    }
  }

  lemma {:induction false} RunsAreFresh(s: State, es: seq<Event>, latency: real)
    requires s.cache == map[] && s.flights == map[] && Prompt(s, es, latency)
    ensures Fresh(s, es, latency, After(s, es))
    decreases |es|
  {
    if es != [] {
      RunsAreFresh(s, es[..|es| - 1], latency);
      var before, now := After(s, es[..|es| - 1]), After(s, es);
      forall arn | arn in now.cache
        ensures EntryFresh(s, es, latency, arn, now)
      {
        EntryStaysFresh(s, es, latency, arn, before, now);
      }
      var e := es[|es| - 1];
      if e.Fetch? && e.arn in now.vault {
        HeldNow(s, es, e.arn, now);
      }
      forall id | id in now.flights
        ensures FlightFresh(s, es, id, now)
      {
        FlightStaysFresh(s, es, latency, id, before, now);
      }
    }
  }

  /** However the clock, the writers and any number of overlapping fetches interleave: a
      lookup answers with a value the secret held within the last 300 seconds and the
      latency of a fetch; with none, a value of the last 300 seconds. */
  lemma {:induction false} AnswersAreRecent(s: State, es: seq<Event>, latency: real, arn: Arn)
    requires s.cache == map[] && s.flights == map[] && latency >= 0.0 && Prompt(s, es, latency)
    ensures var now := After(s, es);
            var answer := Answer(now.cache, now.vault, arn, now.now);
            answer.Some? ==>
              exists j :: 0 <= j <= |es| && var moment := After(s, es[..j]);
                && arn in moment.vault && moment.vault[arn] == answer.value && moment.now > now.now - 300.0 - latency
  {
    RunsAreFresh(s, es, latency);
    var now := After(s, es);
    if Live(now.cache, arn, now.now) {
      assert EntryFresh(s, es, latency, arn, now);
      var entry := now.cache[arn];
      var j :| 0 <= j <= |es| && HeldAt(s, es, j, arn, entry.value, entry.at - latency);
      assert After(s, es[..j]).now >= entry.at - latency;
    } else if arn in now.vault {
      assert es[..|es|] == es;
      assert After(s, es[..|es|]).now > now.now - 300.0 - latency;
    }
  }

  /** Rotation never reuses an ARN and nothing is deleted. */
  predicate WritesOnce(s: State, es: seq<Event>)
    decreases |es|
  {
    es == [] ||
    var before, e := After(s, es[..|es| - 1]), es[|es| - 1];
    WritesOnce(s, es[..|es| - 1]) && !e.Delete? && (e.Put? ==> e.arn !in before.vault)
  }

  /** While each ARN is written once the cache cannot be told from the vault, so a check at
      any time is the uncached rule. */
  lemma {:induction false} WrittenOnceAgrees(s: State, es: seq<Event>)
    requires s.cache == map[] && s.flights == map[] && WritesOnce(s, es)
    ensures var now := After(s, es);
            && Agrees(now.cache, now.vault)
            && (forall id :: id in now.flights ==>
                  now.flights[id].arn in now.vault && now.vault[now.flights[id].arn] == now.flights[id].value)
            && forall arn :: Answer(now.cache, now.vault, arn, now.now) == if arn in now.vault then Some(now.vault[arn]) else None
    decreases |es|
  {
    if es != [] {
      WrittenOnceAgrees(s, es[..|es| - 1]);
    }
  }

  /** With a cache that agrees with the vault, at any clock readings, the check gives the
      uncached rule's answer, errors included, and leaves a cache that still agrees. */
  lemma {:induction false} AgreementIsTransparent(cache: Cache, r: Record, vault: Vault, authorization: string, wall: real, clock: nat -> real)
    requires Agrees(cache, vault)
    ensures Authenticated(cache, r, vault, authorization, wall, clock).0 == Uncached(r, vault, authorization, wall)
    ensures Agrees(Authenticated(cache, r, vault, authorization, wall, clock).1, vault)
  {
  }
}
