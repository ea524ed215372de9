/** Request rate limits on Redis counters (services/agent-runtime/quota.py), with any number
    of requests interleaving between their Redis commands. Times are in milliseconds. */
module RateLimits {
  import opened Common

  // ----- Redis counters -----

  datatype Kind = Rpm | Rpd

  const MINUTE := 60_000
  const DAY := 86_400_000

  function Span(kind: Kind): int {
    if kind.Rpm? then MINUTE else DAY
  }

  function Ttl(kind: Kind): int {
    if kind.Rpm? then 61_000 else 90_000_000
  }

  /** How much longer than its window a counter lives at least. */
  function Slack(kind: Kind): int {
    Ttl(kind) - Span(kind)
  }

  datatype Key = Key(kind: Kind, window: int)

  function KeyAt(kind: Kind, now: int): Key {
    Key(kind, now / Span(kind))
  }

  datatype Counter = Counter(count: nat, expires: Option<int>)

  type Store = map<Key, Counter>

  predicate Live(store: Store, key: Key, at: int) {
    key in store && (store[key].expires.None? || at < store[key].expires.value)
  }

  function Incremented(store: Store, key: Key, at: int): Store {
    store[key := if Live(store, key, at) then store[key].(count := store[key].count + 1) else Counter(1, None)]
  }

  function Expiring(store: Store, key: Key, at: int): Store {
    if Live(store, key, at) then store[key := store[key].(expires := Some(at + Ttl(key.kind)))] else store
  }

  // ----- requests, one Redis command at a time -----

  datatype Limits = Limits(rpm: Option<int>, rpd: Option<int>)

  function LimitOf(limits: Limits, kind: Kind): Option<int> {
    if kind.Rpm? then limits.rpm else limits.rpd
  }

  datatype Verdict = Allowed | Denied(kind: Kind) | FailedOpen

  /** About to count in a window; about to set that counter's expiry; done. */
  datatype Pc = Counting(kind: Kind) | Setting(kind: Kind, count: nat) | Finished(verdict: Verdict)

  /** A count, and in which life of the counter it was given: an expired counter starts anew. */
  datatype Ticket = Ticket(life: nat, count: nat)

  /** A request: the clock it read, where it is, the counts it was given, and the windows
      it has tried to count in. */
  datatype Request = Request(now: int, pc: Pc, got: map<Kind, Ticket>, tried: set<Kind>)

  /** Redis, the clock, the requests, how often each key was really incremented, how many
      lives its counter has had, and how many commands raised. */
  datatype Limiter = Limiter(
    time: int, store: Store, requests: map<nat, Request>, hits: map<Key, nat>, lives: map<Key, nat>, raised: nat)

  datatype Event = Tick(ms: nat) | Arrive(id: nat) | Incr(id: nat, reply: Remote) | Expire(id: nat, reply: Remote)

  /** The next configured window from this one on, or the end. */
  function Onward(limits: Limits, kind: Kind): Pc {
    if LimitOf(limits, kind).Some? then Counting(kind)
    else if kind.Rpm? && limits.rpd.Some? then Counting(Rpd)
    else Finished(Allowed)
  }

  function Judged(limits: Limits, kind: Kind, count: nat): Pc {
    if LimitOf(limits, kind).Some? && count > LimitOf(limits, kind).value then Finished(Denied(kind))
    else if kind.Rpm? then Onward(limits, Rpd) else Finished(Allowed)
  }

  function HitsOf(s: Limiter, key: Key): nat {
    if key in s.hits then s.hits[key] else 0
  }

  function LivesOf(s: Limiter, key: Key): nat {
    if key in s.lives then s.lives[key] else 0
  }

  function With(s: Limiter, id: nat, q: Request): Limiter {
    s.(requests := s.requests[id := q])
  }

  function Counted(s: Limiter, key: Key): Limiter {
    s.(store := Incremented(s.store, key, s.time), hits := s.hits[key := HitsOf(s, key) + 1],
       lives := if Live(s.store, key, s.time) then s.lives else s.lives[key := LivesOf(s, key) + 1])
  }

  /** A command of the request raised. */
  function Raised(s: Limiter, id: nat, q: Request): Limiter {
    With(s, id, q.(pc := Finished(FailedOpen))).(raised := s.raised + 1)
  }

  /** An INCR: it may raise without counting, or count and then raise. */
  function DoIncr(limits: Limits, s: Limiter, id: nat, q: Request, reply: Remote): Limiter
    requires q.pc.Counting?
  {
    var kind := q.pc.kind;
    var key := KeyAt(kind, q.now);
    var tried := q.(tried := q.tried + {kind});
    var t := if Takes(reply) then Counted(s, key) else s;
    if reply.Raises? then Raised(t, id, tried)
    else
      var count := t.store[key].count;
      With(t, id, tried.(pc := if count == 1 then Setting(kind, count) else Judged(limits, kind, count),
                         got := q.got[kind := Ticket(LivesOf(t, key), count)]))
  }

  function DoExpire(limits: Limits, s: Limiter, id: nat, q: Request, reply: Remote): Limiter
    requires q.pc.Setting?
  {
    var key := KeyAt(q.pc.kind, q.now);
    var t := if Takes(reply) then s.(store := Expiring(s.store, key, s.time)) else s;
    if reply.Raises? then Raised(t, id, q) else With(t, id, q.(pc := Judged(limits, q.pc.kind, q.pc.count)))
  }

  /** One step; an event that cannot happen here changes nothing, and a request that dies
      simply takes no further step. */
  function Next(limits: Limits, s: Limiter, e: Event): Limiter {
    match e
    case Tick(ms) => s.(time := s.time + ms)
    case Arrive(id) =>
      if id in s.requests then s else With(s, id, Request(s.time, Onward(limits, Rpm), map[], {}))
    case Incr(id, reply) =>
      if id in s.requests && s.requests[id].pc.Counting? then DoIncr(limits, s, id, s.requests[id], reply) else s
    case Expire(id, reply) =>
      if id in s.requests && s.requests[id].pc.Setting? then DoExpire(limits, s, id, s.requests[id], reply) else s
  }

  function After(limits: Limits, s: Limiter, es: seq<Event>): Limiter
    decreases |es|
  {
    if es == [] then s else Next(limits, After(limits, s, es[..|es| - 1]), es[|es| - 1])
  }

  lemma {:induction false} AfterSnoc(limits: Limits, s: Limiter, es: seq<Event>, e: Event)
    ensures After(limits, s, es + [e]) == Next(limits, After(limits, s, es), e)
  {
    assert (es + [e])[..|es|] == es;
  }

  lemma {:induction false} AfterConcat(limits: Limits, s: Limiter, a: seq<Event>, b: seq<Event>)
    ensures After(limits, s, a + b) == After(limits, After(limits, s, a), b)
    decreases |b|
  {
    if b == [] {
      assert a + b == a;
    } else {
      assert (a + b)[..|a + b| - 1] == a + b[..|b| - 1];
      AfterConcat(limits, s, a, b[..|b| - 1]);
    }
  }

  predicate About(e: Event, id: nat) {
    !e.Tick? && e.id == id
  }

  predicate NotAbout(es: seq<Event>, id: nat) {
    forall k :: 0 <= k < |es| ==> !About(es[k], id)
  }

  lemma {:induction false} OtherLeaves(limits: Limits, s: Limiter, e: Event, id: nat)
    requires id in s.requests && !About(e, id)
    ensures id in Next(limits, s, e).requests && Next(limits, s, e).requests[id] == s.requests[id]
  {
  }

  lemma {:induction false} OthersLeave(limits: Limits, s: Limiter, es: seq<Event>, id: nat)
    requires id in s.requests && NotAbout(es, id)
    ensures id in After(limits, s, es).requests && After(limits, s, es).requests[id] == s.requests[id]
    decreases |es|
  {
    if es != [] {
      OthersLeave(limits, s, es[..|es| - 1], id);
      OtherLeaves(limits, After(limits, s, es[..|es| - 1]), es[|es| - 1], id);
    }
  }

  // ----- what one command does, outright -----

  /** A request reads the clock and goes to the first window that has a limit. */
  lemma {:induction false} ArriveIs(limits: Limits, s: Limiter, id: nat)
    requires id !in s.requests
    ensures var t := Next(limits, s, Arrive(id));
            && id in t.requests && t == s.(requests := t.requests) && t.requests[id].now == s.time
            && t.requests[id].pc == if limits.rpm != None then Counting(Rpm)
                                    else if limits.rpd != None then Counting(Rpd) else Finished(Allowed)
  {}

  /** The INCR of a minute's counter. Unless it raises before it counts, a counter that has
      not expired is raised by one and any other starts at one without an expiry. The first
      count has the expiry set next; one over the limit is refused; the day window follows. */
  lemma {:induction false} MinuteIncrIs(limits: Limits, s: Limiter, id: nat, reply: Remote)
    requires id in s.requests && s.requests[id].pc == Counting(Rpm)
    ensures var t, key := Next(limits, s, Incr(id, reply)), Key(Rpm, s.requests[id].now / 60_000);
            var alive := key in s.store && (s.store[key].expires == None || s.time < s.store[key].expires.value);
            var count := if alive then s.store[key].count + 1 else 1;
            && t.time == s.time && id in t.requests
            && t.store == (if reply == Raises(false) then s.store
                           else s.store[key := Counter(count, if alive then s.store[key].expires else None)])
            && t.raised == (if reply == Works then s.raised else s.raised + 1)
            && t.hits == (if reply == Raises(false) then s.hits else s.hits[key := 1 + if key in s.hits then s.hits[key] else 0])
            && t.lives == (if reply == Raises(false) || alive then s.lives
                           else s.lives[key := 1 + if key in s.lives then s.lives[key] else 0])
            && t.requests[id].pc ==
               if reply != Works then Finished(FailedOpen)
               else if count == 1 then Setting(Rpm, 1)
               else if limits.rpm != None && count > limits.rpm.value then Finished(Denied(Rpm))
               else if limits.rpd != None then Counting(Rpd) else Finished(Allowed)
  {}

  /** The same for a day's counter, which is the last. */
  lemma {:induction false} DayIncrIs(limits: Limits, s: Limiter, id: nat, reply: Remote)
    requires id in s.requests && s.requests[id].pc == Counting(Rpd)
    ensures var t, key := Next(limits, s, Incr(id, reply)), Key(Rpd, s.requests[id].now / 86_400_000);
            var alive := key in s.store && (s.store[key].expires == None || s.time < s.store[key].expires.value);
            var count := if alive then s.store[key].count + 1 else 1;
            && t.time == s.time && id in t.requests
            && t.store == (if reply == Raises(false) then s.store
                           else s.store[key := Counter(count, if alive then s.store[key].expires else None)])
            && t.raised == (if reply == Works then s.raised else s.raised + 1)
            && t.hits == (if reply == Raises(false) then s.hits else s.hits[key := 1 + if key in s.hits then s.hits[key] else 0])
            && t.lives == (if reply == Raises(false) || alive then s.lives
                           else s.lives[key := 1 + if key in s.lives then s.lives[key] else 0])
            && t.requests[id].pc ==
               if reply != Works then Finished(FailedOpen)
               else if count == 1 then Setting(Rpd, 1)
               else if limits.rpd != None && count > limits.rpd.value then Finished(Denied(Rpd))
               else Finished(Allowed)
  {}

  /** The EXPIRE: 61 seconds for a minute's counter, 25 hours for a day's; a second, and an
      hour, more than the window. */
  lemma {:induction false} ExpireIs(limits: Limits, s: Limiter, id: nat, reply: Remote)
    requires id in s.requests && s.requests[id].pc.Setting?
    ensures Slack(Rpm) == 1_000 && Slack(Rpd) == 3_600_000
    ensures var t, kind, count := Next(limits, s, Expire(id, reply)), s.requests[id].pc.kind, s.requests[id].pc.count;
            var key := if kind == Rpm then Key(Rpm, s.requests[id].now / 60_000) else Key(Rpd, s.requests[id].now / 86_400_000);
            var alive := key in s.store && (s.store[key].expires == None || s.time < s.store[key].expires.value);
            var limit := if kind == Rpm then limits.rpm else limits.rpd;
            && t.time == s.time && id in t.requests
            && t.store == (if reply == Raises(false) || !alive then s.store
                           else s.store[key := Counter(s.store[key].count,
                                                       Some(s.time + if kind == Rpm then 61_000 else 90_000_000))])
            && t.requests[id].pc ==
               if reply != Works then Finished(FailedOpen)
               else if limit != None && count > limit.value then Finished(Denied(kind))
               else if kind == Rpm && limits.rpd != None then Counting(Rpd) else Finished(Allowed)
  {}

  // ----- the check itself -----

  class RateLimiter {
    const limits: Limits
    var s: Limiter

    constructor (limits: Limits, time: int)
      ensures this.limits == limits && s == Limiter(time, map[], map[], map[], map[], 0)
    {
      this.limits := limits;
      s := Limiter(time, map[], map[], map[], map[], 0);
    }

    /** Other requests' commands, while this one waits. */
    method Await(es: seq<Event>)
      modifies this
      ensures s == After(limits, old(s), es)
    {
      for k := 0 to |es|
        invariant s == After(limits, old(s), es[..k])
      {
        assert es[..k + 1] == es[..k] + [es[k]];
        AfterSnoc(limits, old(s), es[..k], es[k]);
        s := Next(limits, s, es[k]);
      }
      assert es[..|es|] == es;
    }

    method Incr(id: nat, reply: Remote) returns (count: Option<nat>)
      requires id in s.requests && s.requests[id].pc.Counting?
      modifies this
      ensures s == Next(limits, old(s), Event.Incr(id, reply))
      ensures reply.Raises? <==> count.None?
      ensures id in s.requests
      ensures count.Some? ==>
                var kind := old(s.requests[id].pc.kind);
                s.requests[id].pc == if count.value == 1 then Setting(kind, count.value) else Judged(limits, kind, count.value)
      ensures count.None? ==> s.requests[id].pc == Finished(FailedOpen)
    {
      var q := s.requests[id];
      var key := KeyAt(q.pc.kind, q.now);
      if Takes(reply) {
        if Live(s.store, key, s.time) {
          s := s.(store := s.store[key := s.store[key].(count := s.store[key].count + 1)]);
        } else {
          s := s.(store := s.store[key := Counter(1, None)], lives := s.lives[key := LivesOf(s, key) + 1]);
        }
        s := s.(hits := s.hits[key := HitsOf(s, key) + 1]);
      }
      q := q.(tried := q.tried + {q.pc.kind});
      if reply.Raises? {
        s := Raised(s, id, q);
        return None;
      }
      var n := s.store[key].count;
      s := With(s, id, q.(pc := if n == 1 then Setting(q.pc.kind, n) else Judged(limits, q.pc.kind, n),
                          got := q.got[q.pc.kind := Ticket(LivesOf(s, key), n)]));
      return Some(n);
    }

    method Expire(id: nat, reply: Remote)
      requires id in s.requests && s.requests[id].pc.Setting?
      modifies this
      ensures s == Next(limits, old(s), Event.Expire(id, reply)) && id in s.requests
      ensures s.requests[id].pc == if reply.Raises? then Finished(FailedOpen)
                                   else Judged(limits, old(s.requests[id].pc.kind), old(s.requests[id].pc.count))
    {
      var q := s.requests[id];
      var key := KeyAt(q.pc.kind, q.now);
      if Takes(reply) && Live(s.store, key, s.time) {
        s := s.(store := s.store[key := s.store[key].(expires := Some(s.time + Ttl(q.pc.kind)))]);
      }
      s := if reply.Raises? then Raised(s, id, q) else With(s, id, q.(pc := Judged(limits, q.pc.kind, q.pc.count)));
    }

    /** The check of one window; a verdict when it ends the whole check. */
    method CheckWindow(id: nat, kind: Kind, incr: Remote, expire: Remote, before: seq<Event>, between: seq<Event>)
      returns (verdict: Option<Verdict>, ghost trace: seq<Event>)
      requires id in s.requests && s.requests[id].pc == Counting(kind) && LimitOf(limits, kind).Some?
      requires NotAbout(before, id) && NotAbout(between, id)
      modifies this
      ensures s == After(limits, old(s), trace) && id in s.requests
      ensures s.requests[id].pc == if verdict.Some? then Finished(verdict.value)
                                   else if kind.Rpm? then Onward(limits, Rpd) else Finished(Allowed)
    {
      ghost var was := s;
      OthersLeave(limits, s, before, id);
      Await(before);
      AfterSnoc(limits, was, before, Event.Incr(id, incr));
      var count := Incr(id, incr);
      trace := before + [Event.Incr(id, incr)];
      if count.None? {
        return Some(FailedOpen), trace;
      }
      if count.value == 1 {
        OthersLeave(limits, s, between, id);
        AfterConcat(limits, was, trace, between);
        Await(between);
        AfterSnoc(limits, was, trace + between, Event.Expire(id, expire));
        Expire(id, expire);
        trace := trace + between + [Event.Expire(id, expire)];
        if expire.Raises? {
          return Some(FailedOpen), trace;
        }
      }
      if count.value > LimitOf(limits, kind).value {
        return Some(Denied(kind)), trace;
      }
      return None, trace;
    }

    /** One request's whole check, with other requests' commands before each of its own: it
        is a run of these steps that ends with the verdict it returns. */
    method CheckRateLimit(id: nat, incrs: Kind -> Remote, expires: Kind -> Remote, others: nat -> seq<Event>)
      returns (verdict: Verdict, ghost trace: seq<Event>)
      requires id !in s.requests && forall k :: NotAbout(others(k), id)
      modifies this
      ensures s == After(limits, old(s), trace)
      ensures id in s.requests && s.requests[id].pc == Finished(verdict)
    {
      ghost var was := s;
      AfterSnoc(limits, was, [], Arrive(id));
      assert [] + [Arrive(id)] == [Arrive(id)];
      trace := [Arrive(id)];
      s := With(s, id, Request(s.time, Onward(limits, Rpm), map[], {}));
      var kinds := [Rpm, Rpd];
      for i := 0 to 2
        invariant s == After(limits, was, trace) && id in s.requests
        invariant s.requests[id].pc == if i == 0 then Onward(limits, Rpm) else if i == 1 then Onward(limits, Rpd) else Finished(Allowed)
      {
        var kind := kinds[i];
        if LimitOf(limits, kind).None? {
          continue;
        }
        var ended;
        ghost var more;
        ended, more := CheckWindow(id, kind, incrs(kind), expires(kind), others(2 * i), others(2 * i + 1));
        AfterConcat(limits, was, trace, more);
        trace := trace + more;
        if ended.Some? {
          return ended.value, trace;
        }
      }
      return Allowed, trace;
    }
  }

  // ----- what every run keeps -----

  predicate Within(limits: Limits, q: Request, kind: Kind) {
    LimitOf(limits, kind).Some? ==> kind in q.got && q.got[kind].count <= LimitOf(limits, kind).value
  }

  /** What the place of a request says of the counts it was given. */
  predicate PlaceOk(limits: Limits, q: Request) {
    match q.pc
    case Counting(kind) =>
      LimitOf(limits, kind).Some? && kind !in q.tried && (kind.Rpm? ==> Rpd !in q.tried) && (kind.Rpd? ==> Within(limits, q, Rpm))
    case Setting(kind, count) =>
      && LimitOf(limits, kind).Some? && kind in q.got && q.got[kind].count == count
      && (kind.Rpm? ==> Rpd !in q.tried) && (kind.Rpd? ==> Within(limits, q, Rpm))
    case Finished(Allowed) => Within(limits, q, Rpm) && Within(limits, q, Rpd)
    case Finished(Denied(kind)) =>
      && LimitOf(limits, kind).Some? && kind in q.got && q.got[kind].count > LimitOf(limits, kind).value
      && (kind.Rpm? ==> Rpd !in q.tried) && (kind.Rpd? ==> Within(limits, q, Rpm))
    case Finished(FailedOpen) => true
  }

  /** A counter is there once it has had a life. */
  predicate CounterOk(s: Limiter, key: Key) {
    key in s.store <==> LivesOf(s, key) > 0
  }

  /** A count given in the counter's present life is at most the counter. */
  predicate TicketOk(s: Limiter, key: Key, ticket: Ticket) {
    && 1 <= ticket.count && 1 <= ticket.life <= LivesOf(s, key)
    && (ticket.life == LivesOf(s, key) ==> key in s.store && ticket.count <= s.store[key].count)
  }

  predicate RequestOk(limits: Limits, s: Limiter, q: Request) {
    && q.now <= s.time && PlaceOk(limits, q) && q.got.Keys <= q.tried
    && forall kind :: kind in q.got ==> TicketOk(s, KeyAt(kind, q.now), q.got[kind])
  }

  /** No two requests of a window are given the same count in the same life. */
  predicate OwnCounts(s: Limiter, a: nat, b: nat, kind: Kind)
    requires a in s.requests && b in s.requests
  {
    var p, q := s.requests[a], s.requests[b];
    a != b && kind in p.got && kind in q.got && KeyAt(kind, p.now) == KeyAt(kind, q.now) ==> p.got[kind] != q.got[kind]
  }

  ghost predicate CountersOk(s: Limiter) {
    forall key :: CounterOk(s, key)
  }

  ghost predicate RequestsOk(limits: Limits, s: Limiter) {
    forall id :: id in s.requests ==> RequestOk(limits, s, s.requests[id])
  }

  ghost predicate AllOwn(s: Limiter) {
    forall a, b, kind :: a in s.requests && b in s.requests ==> OwnCounts(s, a, b, kind)
  }

  ghost predicate Inv(limits: Limits, s: Limiter) {
    CountersOk(s) && RequestsOk(limits, s) && AllOwn(s)
  }

  // ----- counting keeps it -----

  lemma {:induction false} CountedKeepsTicket(s: Limiter, key: Key, other: Key, ticket: Ticket)
    requires TicketOk(s, other, ticket) && CounterOk(s, key)
    ensures TicketOk(Counted(s, key), other, ticket)
  {
  }

  lemma {:induction false} NewTicketIsNew(s: Limiter, key: Key, ticket: Ticket)
    requires CounterOk(s, key)
    ensures var t := Counted(s, key);
            var mine := Ticket(LivesOf(t, key), t.store[key].count);
            TicketOk(t, key, mine) && (TicketOk(s, key, ticket) ==> ticket != mine)
  {
  }

  lemma {:induction false} CountedKeepsCounters(s: Limiter, key: Key)
    requires CountersOk(s)
    ensures CountersOk(Counted(s, key))
  {
    forall k
      ensures CounterOk(Counted(s, key), k)
    {
      assert CounterOk(s, k);
    }
  }

  /** A request that is not about to change, while some counter counts. */
  lemma {:induction false} CountedKeepsRequest(limits: Limits, s: Limiter, key: Key, q: Request)
    requires RequestOk(limits, s, q) && CounterOk(s, key)
    ensures RequestOk(limits, Counted(s, key), q)
  {
    forall kind | kind in q.got
      ensures TicketOk(Counted(s, key), KeyAt(kind, q.now), q.got[kind])
    {
      CountedKeepsTicket(s, key, KeyAt(kind, q.now), q.got[kind]);
    }
  }

  lemma {:induction false} CountedKeepsInv(limits: Limits, s: Limiter, key: Key)
    requires Inv(limits, s)
    ensures Inv(limits, Counted(s, key))
  {
    var t := Counted(s, key);
    CountedKeepsCounters(s, key);
    assert CounterOk(s, key);
    forall id | id in t.requests
      ensures RequestOk(limits, t, t.requests[id])
    {
      CountedKeepsRequest(limits, s, key, s.requests[id]);
    }
    forall a, b, kind | a in t.requests && b in t.requests
      ensures OwnCounts(t, a, b, kind)
    {
      assert OwnCounts(s, a, b, kind);
    }
  }

  /** A request moves on with the counts it has. */
  lemma {:induction false} MovesOn(limits: Limits, s: Limiter, id: nat, q: Request)
    requires Inv(limits, s) && id in s.requests && RequestOk(limits, s, q)
    requires q.got == s.requests[id].got && q.now == s.requests[id].now
    ensures Inv(limits, With(s, id, q))
  {
    var t := With(s, id, q);
    forall key
      ensures CounterOk(t, key)
    {
      assert CounterOk(s, key);
    }
    forall other | other in t.requests
      ensures RequestOk(limits, t, t.requests[other])
    {
      assert RequestOk(limits, s, if other == id then q else s.requests[other]);
    }
    forall a, b, kind | a in t.requests && b in t.requests
      ensures OwnCounts(t, a, b, kind)
    {
      assert OwnCounts(s, a, b, kind);
    }
  }

  /** A request is given the count it has just made, which nobody else has. */
  lemma {:induction false} TakesTicket(limits: Limits, s: Limiter, id: nat)
    requires Inv(limits, s) && id in s.requests && s.requests[id].pc.Counting?
    ensures Inv(limits, DoIncr(limits, s, id, s.requests[id], Works))
  {
    var q := s.requests[id];
    var kind := q.pc.kind;
    var key := KeyAt(kind, q.now);
    var m, t := Counted(s, key), DoIncr(limits, s, id, q, Works);
    assert RequestOk(limits, s, q) && CounterOk(s, key);
    CountedKeepsInv(limits, s, key);
    NewTicketIsNew(s, key, Ticket(0, 0));
    forall k
      ensures CounterOk(t, k)
    {
      assert CounterOk(m, k);
    }
    forall other | other in t.requests
      ensures RequestOk(limits, t, t.requests[other])
    {
      assert RequestOk(limits, m, s.requests[other]);
      if other == id {
        TakerIsOk(limits, s, id);
      }
    }
    forall a, b, k | a in t.requests && b in t.requests
      ensures OwnCounts(t, a, b, k)
    {
      TicketsDiffer(limits, s, id, a, b, k);
    }
  }

  lemma {:induction false} TakerIsOk(limits: Limits, s: Limiter, id: nat)
    requires Inv(limits, s) && id in s.requests && s.requests[id].pc.Counting?
    ensures var t := DoIncr(limits, s, id, s.requests[id], Works); RequestOk(limits, t, t.requests[id])
  {
    var q := s.requests[id];
    var key := KeyAt(q.pc.kind, q.now);
    var t := DoIncr(limits, s, id, q, Works);
    assert RequestOk(limits, s, q) && CounterOk(s, key);
    CountedKeepsRequest(limits, s, key, q);
    NewTicketIsNew(s, key, Ticket(0, 0));
    forall kind | kind in t.requests[id].got
      ensures TicketOk(t, KeyAt(kind, q.now), t.requests[id].got[kind])
    {
      if kind != q.pc.kind {
        assert TicketOk(Counted(s, key), KeyAt(kind, q.now), q.got[kind]);
      }
    }
  }

  lemma {:induction false} TicketsDiffer(limits: Limits, s: Limiter, id: nat, a: nat, b: nat, kind: Kind)
    requires Inv(limits, s) && id in s.requests && s.requests[id].pc.Counting? && a in s.requests && b in s.requests
    ensures OwnCounts(DoIncr(limits, s, id, s.requests[id], Works), a, b, kind)
  {
    var q := s.requests[id];
    var key := KeyAt(q.pc.kind, q.now);
    assert OwnCounts(s, a, b, kind) && CounterOk(s, key);
    assert RequestOk(limits, s, s.requests[a]) && RequestOk(limits, s, s.requests[b]);
    if kind == q.pc.kind && a == id && b != id && kind in s.requests[b].got {
      NewTicketIsNew(s, key, s.requests[b].got[kind]);
    } else if kind == q.pc.kind && b == id && a != id && kind in s.requests[a].got {
      NewTicketIsNew(s, key, s.requests[a].got[kind]);
    }
  }

  lemma {:induction false} RaisedIsMatterless(limits: Limits, s: Limiter, n: nat)
    requires Inv(limits, s)
    ensures Inv(limits, s.(raised := n))
  {
    var t := s.(raised := n);
    forall key
      ensures CounterOk(t, key)
    {
      assert CounterOk(s, key);
    }
    forall id | id in t.requests
      ensures RequestOk(limits, t, t.requests[id])
    {
      assert RequestOk(limits, s, s.requests[id]);
    }
    forall a, b, kind | a in t.requests && b in t.requests
      ensures OwnCounts(t, a, b, kind)
    {
      assert OwnCounts(s, a, b, kind);
    }
  }

  lemma {:induction false} IncrKeeps(limits: Limits, s: Limiter, id: nat, reply: Remote)
    requires Inv(limits, s) && id in s.requests && s.requests[id].pc.Counting?
    ensures Inv(limits, DoIncr(limits, s, id, s.requests[id], reply))
  {
    var q := s.requests[id];
    var key := KeyAt(q.pc.kind, q.now);
    if reply.Works? {
      TakesTicket(limits, s, id);
    } else {
      var t := if Takes(reply) then Counted(s, key) else s;
      if Takes(reply) {
        CountedKeepsInv(limits, s, key);
      }
      var gone := q.(tried := q.tried + {q.pc.kind}, pc := Finished(FailedOpen));
      assert RequestOk(limits, t, q);
      MovesOn(limits, t, id, gone);
      RaisedIsMatterless(limits, With(t, id, gone), t.raised + 1);
    }
  }

  lemma {:induction false} ExpiringKeepsInv(limits: Limits, s: Limiter, key: Key)
    requires Inv(limits, s)
    ensures Inv(limits, s.(store := Expiring(s.store, key, s.time)))
  {
    var t := s.(store := Expiring(s.store, key, s.time));
    forall k
      ensures CounterOk(t, k)
    {
      assert CounterOk(s, k);
    }
    forall id | id in t.requests
      ensures RequestOk(limits, t, t.requests[id])
    {
      assert RequestOk(limits, s, s.requests[id]);
      assert forall kind :: kind in s.requests[id].got ==>
        TicketOk(s, KeyAt(kind, s.requests[id].now), s.requests[id].got[kind]);
    }
    forall a, b, kind | a in t.requests && b in t.requests
      ensures OwnCounts(t, a, b, kind)
    {
      assert OwnCounts(s, a, b, kind);
    }
  }

  lemma {:induction false} SettlesOk(limits: Limits, s: Limiter, q: Request)
    requires RequestOk(limits, s, q) && q.pc.Setting?
    ensures RequestOk(limits, s, q.(pc := Finished(FailedOpen)))
    ensures RequestOk(limits, s, q.(pc := Judged(limits, q.pc.kind, q.pc.count)))
  {
  }

  lemma {:induction false} ExpireKeeps(limits: Limits, s: Limiter, id: nat, reply: Remote)
    requires Inv(limits, s) && id in s.requests && s.requests[id].pc.Setting?
    ensures Inv(limits, DoExpire(limits, s, id, s.requests[id], reply))
  {
    var q := s.requests[id];
    var key := KeyAt(q.pc.kind, q.now);
    var t := if Takes(reply) then s.(store := Expiring(s.store, key, s.time)) else s;
    if Takes(reply) {
      ExpiringKeepsInv(limits, s, key);
    }
    assert RequestOk(limits, t, q);
    SettlesOk(limits, t, q);
    if reply.Raises? {
      MovesOn(limits, t, id, q.(pc := Finished(FailedOpen)));
      RaisedIsMatterless(limits, With(t, id, q.(pc := Finished(FailedOpen))), t.raised + 1);
    } else {
      MovesOn(limits, t, id, q.(pc := Judged(limits, q.pc.kind, q.pc.count)));
    }
  }

  lemma {:induction false} TickKeeps(limits: Limits, s: Limiter, ms: nat)
    requires Inv(limits, s)
    ensures Inv(limits, s.(time := s.time + ms))
  {
    var t := s.(time := s.time + ms);
    forall key
      ensures CounterOk(t, key)
    {
      assert CounterOk(s, key);
    }
    forall id | id in t.requests
      ensures RequestOk(limits, t, t.requests[id])
    {
      assert RequestOk(limits, s, s.requests[id]);
      assert forall kind :: kind in s.requests[id].got ==>
        TicketOk(s, KeyAt(kind, s.requests[id].now), s.requests[id].got[kind]);
    }
    forall a, b, kind | a in t.requests && b in t.requests
      ensures OwnCounts(t, a, b, kind)
    {
      assert OwnCounts(s, a, b, kind);
    }
  }

  lemma {:induction false} ArriveKeeps(limits: Limits, s: Limiter, id: nat)
    requires Inv(limits, s) && id !in s.requests
    ensures Inv(limits, With(s, id, Request(s.time, Onward(limits, Rpm), map[], {})))
  {
    var t := With(s, id, Request(s.time, Onward(limits, Rpm), map[], {}));
    forall key
      ensures CounterOk(t, key)
    {
      assert CounterOk(s, key);
    }
    forall other | other in t.requests
      ensures RequestOk(limits, t, t.requests[other])
    {
      assert other != id ==> RequestOk(limits, s, s.requests[other]);
    }
    forall a, b, kind | a in t.requests && b in t.requests
      ensures OwnCounts(t, a, b, kind)
    {
      assert a != id && b != id ==> OwnCounts(s, a, b, kind);
    }
  }

  lemma {:induction false} InvStep(limits: Limits, s: Limiter, e: Event)
    requires Inv(limits, s)
    ensures Inv(limits, Next(limits, s, e))
  {
    match e
    case Tick(ms) => TickKeeps(limits, s, ms);
    case Arrive(id) =>
      if id !in s.requests {
        ArriveKeeps(limits, s, id);
      }
    case Incr(id, reply) =>
      if id in s.requests && s.requests[id].pc.Counting? {
        IncrKeeps(limits, s, id, reply);
      }
    case Expire(id, reply) =>
      if id in s.requests && s.requests[id].pc.Setting? {
        ExpireKeeps(limits, s, id, reply);
      }
  }

  function Empty(time: int): Limiter {
    Limiter(time, map[], map[], map[], map[], 0)
  }

  lemma {:induction false} InvRun(limits: Limits, time: int, es: seq<Event>)
    ensures Inv(limits, After(limits, Empty(time), es))
    decreases |es|
  {
    if es != [] {
      InvRun(limits, time, es[..|es| - 1]);
      InvStep(limits, After(limits, Empty(time), es[..|es| - 1]), es[|es| - 1]);
    }
  }

  // ----- while increments are timely -----

  /** Every INCR that counts does so within its window's slack of the clock reading; for the
      minute window that is the client's socket timeout. */
  predicate Timely(s: Limiter, e: Event) {
    e.Incr? && Takes(e.reply) && e.id in s.requests && s.requests[e.id].pc.Counting? ==>
      s.time <= s.requests[e.id].now + Slack(s.requests[e.id].pc.kind)
  }

  predicate AllTimely(limits: Limits, s: Limiter, es: seq<Event>)
    decreases |es|
  {
    es != [] ==> AllTimely(limits, s, es[..|es| - 1]) && Timely(After(limits, s, es[..|es| - 1]), es[|es| - 1])
  }

  /** The end of the last moment at which a request of the window can count in it. */
  function Deadline(key: Key): int {
    (key.window + 1) * Span(key.kind) + Slack(key.kind)
  }

  /** A window's counter is the number of times it was incremented, has one life at most, and
      outlives every request of the window. */
  predicate Exact(s: Limiter, key: Key) {
    if HitsOf(s, key) == 0 then key !in s.store && LivesOf(s, key) == 0
    else
      && key in s.store && s.store[key].count == HitsOf(s, key) && LivesOf(s, key) == 1
      && (s.store[key].expires.Some? ==> Deadline(key) <= s.store[key].expires.value)
  }

  ghost predicate AllExact(s: Limiter) {
    forall key :: Exact(s, key)
  }

  lemma {:induction false} WindowBounds(kind: Kind, now: int)
    ensures var w := now / Span(kind); w * Span(kind) <= now < (w + 1) * Span(kind)
  {}

  /** A timely INCR finds its window's counter as it was left. */
  lemma {:induction false} CountIsExact(s: Limiter, kind: Kind, now: int, k: Key)
    requires Exact(s, KeyAt(kind, now)) && Exact(s, k) && s.time <= now + Slack(kind)
    ensures Exact(Counted(s, KeyAt(kind, now)), k)
  {
    WindowBounds(kind, now);
  }

  lemma {:induction false} ExpiryIsLate(s: Limiter, kind: Kind, now: int, k: Key)
    requires Exact(s, k) && now <= s.time
    ensures Exact(s.(store := Expiring(s.store, KeyAt(kind, now), s.time)), k)
  {
    WindowBounds(kind, now);
  }

  lemma {:induction false} ExactStep(limits: Limits, s: Limiter, e: Event, k: Key)
    requires Inv(limits, s) && AllExact(s) && Timely(s, e)
    ensures Exact(Next(limits, s, e), k)
  {
    assert Exact(s, k);
    if e.Incr? && e.id in s.requests && s.requests[e.id].pc.Counting? {
      var q := s.requests[e.id];
      assert Exact(s, KeyAt(q.pc.kind, q.now));
      if Takes(e.reply) {
        CountIsExact(s, q.pc.kind, q.now, k);
      }
    } else if e.Expire? && e.id in s.requests && s.requests[e.id].pc.Setting? {
      var q := s.requests[e.id];
      assert RequestOk(limits, s, q);
      ExpiryIsLate(s, q.pc.kind, q.now, k);
    }
  }

  /** In every interleaving of requests, each failing at any command: no two requests of a
      window are given the same count in the same life of its counter, and every verdict
      follows from the counts. And while increments are timely a window's counter is exactly
      the number of times it was incremented, and has no second life. */
  lemma {:induction false} CountersExact(limits: Limits, time: int, es: seq<Event>)
    ensures Inv(limits, After(limits, Empty(time), es))
    ensures AllTimely(limits, Empty(time), es) ==> AllExact(After(limits, Empty(time), es))
    decreases |es|
  {
    InvRun(limits, time, es);
    if es != [] && AllTimely(limits, Empty(time), es) {
      var s := After(limits, Empty(time), es[..|es| - 1]);
      CountersExact(limits, time, es[..|es| - 1]);
      forall k
        ensures Exact(After(limits, Empty(time), es), k)
      {
        ExactStep(limits, s, es[|es| - 1], k);
      }
    }
  }

  /** The same, request by request and counter by counter. */
  lemma {:induction false} CountsTell(limits: Limits, time: int, es: seq<Event>, a: nat, b: nat, kind: Kind, window: int)
    requires a in After(limits, Empty(time), es).requests && b in After(limits, Empty(time), es).requests && a != b
    ensures var s := After(limits, Empty(time), es);
            var p, q, key := s.requests[a], s.requests[b], Key(kind, window);
            var span, limit := if kind == Rpm then 60_000 else 86_400_000, if kind == Rpm then limits.rpm else limits.rpd;
            && (kind in p.got && kind in q.got && p.now / span == q.now / span ==>
                  p.got[kind].life != q.got[kind].life || p.got[kind].count != q.got[kind].count)
            && (p.pc == Finished(Allowed) && limit != None ==> kind in p.got && p.got[kind].count <= limit.value)
            && (p.pc == Finished(Denied(kind)) ==> limit != None && kind in p.got && p.got[kind].count > limit.value)
            && (AllTimely(limits, Empty(time), es) ==>
                  && (key in s.store <==> HitsOf(s, key) > 0) && (key in s.store ==> s.store[key].count == HitsOf(s, key))
                  && LivesOf(s, key) == if key in s.store then 1 else 0)
  {
    var s := After(limits, Empty(time), es);
    CountersExact(limits, time, es);
    assert OwnCounts(s, a, b, kind) && RequestOk(limits, s, s.requests[a]);
    if AllTimely(limits, Empty(time), es) {
      assert Exact(s, Key(kind, window));
    }
  }

  /** Timeliness is what exactness needs: a request is given the number of increments of its
      window if and only if the window's counter, once there, has not expired; after that it
      starts again from one, in a second life. */
  lemma {:induction false} ExactUnlessExpired(limits: Limits, s: Limiter, id: nat)
    requires AllExact(s) && id in s.requests && s.requests[id].pc.Counting?
    ensures var t := Next(limits, s, Event.Incr(id, Works));
            var kind := s.requests[id].pc.kind;
            var key := KeyAt(kind, s.requests[id].now);
            && kind in t.requests[id].got
            && (t.requests[id].got[kind].count == HitsOf(t, key) <==> HitsOf(s, key) == 0 || Live(s.store, key, s.time))
            && (!Live(s.store, key, s.time) ==> t.requests[id].got[kind] == Ticket(LivesOf(s, key) + 1, 1))
            && (Timely(s, Event.Incr(id, Works)) ==> HitsOf(s, key) == 0 || Live(s.store, key, s.time))
  {
    var key := KeyAt(s.requests[id].pc.kind, s.requests[id].now);
    assert Exact(s, key);
    WindowBounds(s.requests[id].pc.kind, s.requests[id].now);
  }

  // ----- how many requests get through -----

  /** Values in (low, high], no two the same, are at most high - low. */
  lemma {:induction false} Pigeons(ids: set<nat>, f: map<nat, nat>, low: nat, high: nat)
    requires low <= high && forall a :: a in ids ==> a in f && low < f[a] <= high
    requires forall a, b :: a in ids && b in ids && a != b ==> f[a] != f[b]
    ensures |ids| <= high - low
    decreases high - low
  {
    if low == high {
      assert ids == {};
    } else if exists a :: a in ids && f[a] == high {
      var a :| a in ids && f[a] == high;
      Pigeons(ids - {a}, f, low, high - 1);
    } else {
      Pigeons(ids, f, low, high - 1);
    }
  }

  function Bound(limit: Option<int>): nat {
    if limit.Some? && limit.value > 0 then limit.value else 0
  }

  /** A bound, once per life. */
  function Times(lives: nat, bound: nat): nat {
    if lives == 0 then 0 else bound + Times(lives - 1, bound)
  }

  lemma {:induction false} TimesIs(lives: nat, bound: nat)
    ensures Times(lives, bound) == lives * bound
  {
    if lives > 0 {
      TimesIs(lives - 1, bound);
      assert (lives - 1) * bound + bound == lives * bound;
    }
  }

  /** The requests of a window that were given a count. */
  function GivenIn(s: Limiter, key: Key): set<nat> {
    set id | id in s.requests && key.kind in s.requests[id].got && KeyAt(key.kind, s.requests[id].now) == key
  }

  function CountsIn(s: Limiter, key: Key): map<nat, nat> {
    map id | id in GivenIn(s, key) :: s.requests[id].got[key.kind].count
  }

  /** Those whose count is within a bound. */
  function GivenUpTo(s: Limiter, key: Key, bound: nat): set<nat> {
    set id | id in GivenIn(s, key) && s.requests[id].got[key.kind].count <= bound
  }

  /** Those of them in one life of the counter; or in the first so many. */
  function InLife(s: Limiter, key: Key, bound: nat, life: nat): set<nat> {
    set id | id in GivenUpTo(s, key, bound) && s.requests[id].got[key.kind].life == life
  }

  function InLives(s: Limiter, key: Key, bound: nat, lives: nat): set<nat> {
    set id | id in GivenUpTo(s, key, bound) && s.requests[id].got[key.kind].life <= lives
  }

  lemma {:induction false} LifeBounded(limits: Limits, s: Limiter, key: Key, bound: nat, life: nat)
    requires Inv(limits, s)
    ensures |InLife(s, key, bound, life)| <= bound
  {
    var ids, counts := InLife(s, key, bound, life), CountsIn(s, key);
    forall a | a in ids
      ensures 0 < counts[a] <= bound
    {
      assert RequestOk(limits, s, s.requests[a]);
      assert TicketOk(s, key, s.requests[a].got[key.kind]);
    }
    forall a, b | a in ids && b in ids && a != b
      ensures counts[a] != counts[b]
    {
      assert OwnCounts(s, a, b, key.kind);
    }
    Pigeons(ids, counts, 0, bound);
  }

  /** Every count was given in some life of the counter. */
  lemma {:induction false} LivesAre(limits: Limits, s: Limiter, key: Key, bound: nat)
    requires Inv(limits, s)
    ensures InLives(s, key, bound, 0) == {} && InLives(s, key, bound, LivesOf(s, key)) == GivenUpTo(s, key, bound)
  {
    forall a | a in GivenUpTo(s, key, bound)
      ensures 0 < s.requests[a].got[key.kind].life <= LivesOf(s, key)
    {
      assert RequestOk(limits, s, s.requests[a]);
      assert TicketOk(s, key, s.requests[a].got[key.kind]);
    }
  }

  lemma {:induction false} OneMoreLife(s: Limiter, key: Key, bound: nat, lives: nat)
    requires lives > 0
    ensures |InLives(s, key, bound, lives)| <= |InLives(s, key, bound, lives - 1)| + |InLife(s, key, bound, lives)|
  {
    assert InLives(s, key, bound, lives) == InLives(s, key, bound, lives - 1) + InLife(s, key, bound, lives);
    UnionSize(InLives(s, key, bound, lives - 1), InLife(s, key, bound, lives));
  }

  lemma {:induction false} LivesBounded(limits: Limits, s: Limiter, key: Key, bound: nat, lives: nat)
    requires Inv(limits, s)
    ensures |InLives(s, key, bound, lives)| <= Times(lives, bound)
    decreases lives
  {
    if lives == 0 {
      LivesAre(limits, s, key, bound);
    } else {
      LivesBounded(limits, s, key, bound, lives - 1);
      LifeBounded(limits, s, key, bound, lives);
      OneMoreLife(s, key, bound, lives);
    }
  }

  /** In every reachable state at most `bound` requests of a window are given a count within it
      in each life of its counter; and where there is one life and every count was given to
      its request, exactly as many as fit. */
  lemma {:induction false} GivenBounded(limits: Limits, s: Limiter, key: Key, bound: nat)
    requires Inv(limits, s)
    ensures |GivenUpTo(s, key, bound)| <= Times(LivesOf(s, key), bound)
    ensures AllExact(s) && |GivenIn(s, key)| == HitsOf(s, key) ==>
              |GivenUpTo(s, key, bound)| == if HitsOf(s, key) < bound then HitsOf(s, key) else bound
  {
    LivesBounded(limits, s, key, bound, LivesOf(s, key));
    LivesAre(limits, s, key, bound);
    if AllExact(s) && |GivenIn(s, key)| == HitsOf(s, key) {
      ExactlyFit(limits, s, key, bound);
    }
  }

  /** With one life the counts are the first numbers, each once. */
  lemma {:induction false} OneLife(limits: Limits, s: Limiter, key: Key)
    requires Inv(limits, s) && AllExact(s)
    ensures forall a, b :: a in GivenIn(s, key) && b in GivenIn(s, key) && a != b ==> CountsIn(s, key)[a] != CountsIn(s, key)[b]
    ensures forall a :: a in GivenIn(s, key) ==> 0 < CountsIn(s, key)[a] <= HitsOf(s, key)
  {
    assert Exact(s, key);
    forall a | a in GivenIn(s, key)
      ensures 0 < CountsIn(s, key)[a] <= HitsOf(s, key) && s.requests[a].got[key.kind].life == 1
    {
      assert RequestOk(limits, s, s.requests[a]);
      assert TicketOk(s, key, s.requests[a].got[key.kind]);
    }
    forall a, b | a in GivenIn(s, key) && b in GivenIn(s, key) && a != b
      ensures CountsIn(s, key)[a] != CountsIn(s, key)[b]
    {
      assert OwnCounts(s, a, b, key.kind);
    }
  }

  lemma {:induction false} ExactlyFit(limits: Limits, s: Limiter, key: Key, bound: nat)
    requires Inv(limits, s) && AllExact(s) && |GivenIn(s, key)| == HitsOf(s, key)
    ensures |GivenUpTo(s, key, bound)| == if HitsOf(s, key) < bound then HitsOf(s, key) else bound
  {
    OneLife(limits, s, key);
    var hits := HitsOf(s, key);
    if hits <= bound {
      assert GivenUpTo(s, key, bound) == GivenIn(s, key);
    } else {
      var rest := GivenIn(s, key) - GivenUpTo(s, key, bound);
      Pigeons(GivenUpTo(s, key, bound), CountsIn(s, key), 0, bound);
      Pigeons(rest, CountsIn(s, key), bound, hits);
      assert GivenIn(s, key) == GivenUpTo(s, key, bound) + rest;
    }
  }

  /** The requests with a verdict, among those whose own clock lies in [from, upTo). */
  function WithVerdict(s: Limiter, verdict: Verdict, from: int, upTo: int): set<nat> {
    set id | id in s.requests && s.requests[id].pc == Finished(verdict) && from <= s.requests[id].now < upTo
  }

  function LetThrough(s: Limiter, from: int, upTo: int): set<nat> {
    WithVerdict(s, Allowed, from, upTo) + WithVerdict(s, FailedOpen, from, upTo)
  }

  lemma {:induction false} SubsetSize<T>(a: set<T>, b: set<T>)
    requires a <= b
    ensures |a| <= |b|
  {
    assert b == a + (b - a);
  }

  lemma {:induction false} UnionSize<T>(a: set<T>, b: set<T>)
    ensures |a + b| <= |a| + |b|
  {
    assert |a + b| == |a| + |b| - |a * b|;
  }

  /** An allowed request was given a count within the limit, in its own window. */
  lemma {:induction false} AllowedIsGiven(limits: Limits, s: Limiter, kind: Kind, from: int, id: nat)
    requires Inv(limits, s) && LimitOf(limits, kind).Some? && id in WithVerdict(s, Allowed, from, from + Span(kind))
    ensures var w, bound := from / Span(kind), Bound(LimitOf(limits, kind));
            && id in GivenUpTo(s, Key(kind, w), bound) + GivenUpTo(s, Key(kind, w + 1), bound)
            && (from % Span(kind) == 0 ==> id in GivenUpTo(s, Key(kind, w), bound))
  {
    var q := s.requests[id];
    assert RequestOk(limits, s, q) && Within(limits, q, kind);
    assert TicketOk(s, KeyAt(kind, q.now), q.got[kind]);
    WindowBounds(kind, from);
    WindowBounds(kind, q.now);
  }

  lemma {:induction false} AllowedAreGiven(limits: Limits, s: Limiter, kind: Kind, from: int)
    requires Inv(limits, s) && LimitOf(limits, kind).Some?
    ensures var w, bound := from / Span(kind), Bound(LimitOf(limits, kind));
            var allowed := WithVerdict(s, Allowed, from, from + Span(kind));
            && allowed <= GivenUpTo(s, Key(kind, w), bound) + GivenUpTo(s, Key(kind, w + 1), bound)
            && (from % Span(kind) == 0 ==> allowed <= GivenUpTo(s, Key(kind, w), bound))
  {
    forall id | id in WithVerdict(s, Allowed, from, from + Span(kind))
      ensures var w, bound := from / Span(kind), Bound(LimitOf(limits, kind));
              && id in GivenUpTo(s, Key(kind, w), bound) + GivenUpTo(s, Key(kind, w + 1), bound)
              && (from % Span(kind) == 0 ==> id in GivenUpTo(s, Key(kind, w), bound))
    {
      AllowedIsGiven(limits, s, kind, from, id);
    }
  }

  lemma {:induction false} CoveredSize(a: set<nat>, one: set<nat>, two: set<nat>)
    requires a <= one + two
    ensures |a| <= |one| + |two| && (a <= one ==> |a| <= |one|)
  {
    SubsetSize(a, one + two);
    UnionSize(one, two);
    if a <= one {
      SubsetSize(a, one);
    }
  }

  lemma {:induction false} AllowedWithin(limits: Limits, s: Limiter, kind: Kind, from: int)
    requires Inv(limits, s) && LimitOf(limits, kind).Some?
    ensures var w, bound := from / Span(kind), Bound(LimitOf(limits, kind));
            var n := |WithVerdict(s, Allowed, from, from + Span(kind))|;
            && n <= Times(LivesOf(s, Key(kind, w)), bound) + Times(LivesOf(s, Key(kind, w + 1)), bound)
            && (from % Span(kind) == 0 ==> n <= Times(LivesOf(s, Key(kind, w)), bound))
  {
    var w, bound := from / Span(kind), Bound(LimitOf(limits, kind));
    var one, two := GivenUpTo(s, Key(kind, w), bound), GivenUpTo(s, Key(kind, w + 1), bound);
    GivenBounded(limits, s, Key(kind, w), bound);
    GivenBounded(limits, s, Key(kind, w + 1), bound);
    AllowedAreGiven(limits, s, kind, from);
    CoveredSize(WithVerdict(s, Allowed, from, from + Span(kind)), one, two);
  }

  /** Every request let through by a failure had a command that raised. */
  function Failed(s: Limiter): set<nat> {
    set id | id in s.requests && s.requests[id].pc == Finished(FailedOpen)
  }

  predicate StillGoing(s: Limiter, id: nat) {
    id in s.requests && !s.requests[id].pc.Finished?
  }

  lemma {:induction false} RaisingFails(s: Limiter, id: nat, q: Request)
    requires StillGoing(s, id)
    ensures |Failed(Raised(s, id, q))| == |Failed(s)| + 1
  {
    assert Failed(Raised(s, id, q)) == Failed(s) + {id};
  }

  lemma {:induction false} GoingOnFailsNot(s: Limiter, id: nat, q: Request)
    requires id in s.requests ==> StillGoing(s, id)
    requires q.pc != Finished(FailedOpen)
    ensures Failed(With(s, id, q)) == Failed(s)
  {
  }

  lemma {:induction false} SameRequests(s: Limiter, t: Limiter)
    requires t.requests == s.requests
    ensures Failed(t) == Failed(s)
  {
  }

  lemma {:induction false} IncrFails(limits: Limits, s: Limiter, id: nat, reply: Remote)
    requires id in s.requests && s.requests[id].pc.Counting?
    ensures var t := DoIncr(limits, s, id, s.requests[id], reply); |Failed(t)| - |Failed(s)| == t.raised - s.raised
  {
    var q := s.requests[id];
    var m := if Takes(reply) then Counted(s, KeyAt(q.pc.kind, q.now)) else s;
    SameRequests(s, m);
    if reply.Raises? {
      RaisingFails(m, id, q.(tried := q.tried + {q.pc.kind}));
    } else {
      GoingOnFailsNot(m, id, DoIncr(limits, s, id, q, reply).requests[id]);
    }
  }

  lemma {:induction false} ExpireFails(limits: Limits, s: Limiter, id: nat, reply: Remote)
    requires id in s.requests && s.requests[id].pc.Setting?
    ensures var t := DoExpire(limits, s, id, s.requests[id], reply); |Failed(t)| - |Failed(s)| == t.raised - s.raised
  {
    var q := s.requests[id];
    var m := if Takes(reply) then s.(store := Expiring(s.store, KeyAt(q.pc.kind, q.now), s.time)) else s;
    SameRequests(s, m);
    if reply.Raises? {
      RaisingFails(m, id, q);
    } else {
      GoingOnFailsNot(m, id, q.(pc := Judged(limits, q.pc.kind, q.pc.count)));
    }
  }

  lemma {:induction false} FailedStep(limits: Limits, s: Limiter, e: Event)
    ensures |Failed(Next(limits, s, e))| - |Failed(s)| == Next(limits, s, e).raised - s.raised
  {
    match e
    case Tick(ms) => SameRequests(s, Next(limits, s, e));
    case Arrive(id) =>
      if id !in s.requests {
        GoingOnFailsNot(s, id, Request(s.time, Onward(limits, Rpm), map[], {}));
      }
    case Incr(id, reply) =>
      if id in s.requests && s.requests[id].pc.Counting? {
        IncrFails(limits, s, id, reply);
      }
    case Expire(id, reply) =>
      if id in s.requests && s.requests[id].pc.Setting? {
        ExpireFails(limits, s, id, reply);
      }
  }

  lemma {:induction false} FailedAreRaised(limits: Limits, time: int, es: seq<Event>)
    ensures |Failed(After(limits, Empty(time), es))| == After(limits, Empty(time), es).raised
    decreases |es|
  {
    if es == [] {
      assert Failed(Empty(time)) == {};
    } else {
      FailedAreRaised(limits, time, es[..|es| - 1]);
      FailedStep(limits, After(limits, Empty(time), es[..|es| - 1]), es[|es| - 1]);
    }
  }

  /** In every interleaving, whatever fails or is late: at most `limit` requests of a window are
      allowed per life of its counter, so at most twice that in any interval of a window's
      length while every counter has one life, as it has while increments are timely; those let
      through besides are no more than the commands that raised; and a request refused by the
      minute window has not tried to count in the day window. */
  lemma {:induction false} AllowedBounded(limits: Limits, time: int, es: seq<Event>, kind: Kind, from: int)
    requires LimitOf(limits, kind).Some?
    ensures var s := After(limits, Empty(time), es);
            var w, bound := from / Span(kind), Bound(LimitOf(limits, kind));
            var one, two := LivesOf(s, Key(kind, w)), LivesOf(s, Key(kind, w + 1));
            var allowed := |WithVerdict(s, Allowed, from, from + Span(kind))|;
            && allowed <= one * bound + two * bound
            && (from % Span(kind) == 0 ==> allowed <= one * bound)
            && (AllTimely(limits, Empty(time), es) ==>
                  allowed <= 2 * bound && (from % Span(kind) == 0 ==> allowed <= bound))
            && |LetThrough(s, from, from + Span(kind))| <= allowed + s.raised
            && forall id :: id in s.requests && s.requests[id].pc == Finished(Denied(Rpm)) ==> Rpd !in s.requests[id].tried
  {
    var s, w := After(limits, Empty(time), es), from / Span(kind);
    AllowedBySets(limits, time, es, kind, from);
    TimesIs(LivesOf(s, Key(kind, w)), Bound(LimitOf(limits, kind)));
    TimesIs(LivesOf(s, Key(kind, w + 1)), Bound(LimitOf(limits, kind)));
  }

  lemma {:induction false} AllowedBySets(limits: Limits, time: int, es: seq<Event>, kind: Kind, from: int)
    requires LimitOf(limits, kind).Some?
    ensures var s := After(limits, Empty(time), es);
            var w, bound := from / Span(kind), Bound(LimitOf(limits, kind));
            var allowed := |WithVerdict(s, Allowed, from, from + Span(kind))|;
            && allowed <= Times(LivesOf(s, Key(kind, w)), bound) + Times(LivesOf(s, Key(kind, w + 1)), bound)
            && (from % Span(kind) == 0 ==> allowed <= Times(LivesOf(s, Key(kind, w)), bound))
            && (AllTimely(limits, Empty(time), es) ==>
                  allowed <= 2 * bound && (from % Span(kind) == 0 ==> allowed <= bound))
            && |LetThrough(s, from, from + Span(kind))| <= allowed + s.raised
            && forall id :: id in s.requests && s.requests[id].pc == Finished(Denied(Rpm)) ==> Rpd !in s.requests[id].tried
  {
    var s := After(limits, Empty(time), es);
    CountersExact(limits, time, es);
    AllowedWithin(limits, s, kind, from);
    AllowedWhenTimely(limits, time, es, kind, from);
    FailedAreRaised(limits, time, es);
    LetThroughWithin(s, from, from + Span(kind));
    RefusalSparesTheDay(limits, s);
  }

  /** The terms of that bound: a window's length, its limit, none below zero, and who counts as
      allowed or let through. */
  lemma {:induction false} TermsAre(limits: Limits, s: Limiter, from: int, upTo: int)
    ensures Span(Rpm) == 60_000 && Span(Rpd) == 86_400_000
    ensures LimitOf(limits, Rpm) == limits.rpm && LimitOf(limits, Rpd) == limits.rpd
    ensures forall n :: Bound(Some(n)) == if n > 0 then n else 0
    ensures WithVerdict(s, Allowed, from, upTo)
            == set id | id in s.requests && s.requests[id].pc == Finished(Allowed) && from <= s.requests[id].now < upTo
    ensures LetThrough(s, from, upTo)
            == set id | id in s.requests && from <= s.requests[id].now < upTo
                        && (s.requests[id].pc == Finished(Allowed) || s.requests[id].pc == Finished(FailedOpen))
  {}

  lemma {:induction false} AllowedWhenTimely(limits: Limits, time: int, es: seq<Event>, kind: Kind, from: int)
    requires LimitOf(limits, kind).Some?
    ensures var bound := Bound(LimitOf(limits, kind));
            var n := |WithVerdict(After(limits, Empty(time), es), Allowed, from, from + Span(kind))|;
            AllTimely(limits, Empty(time), es) ==> n <= 2 * bound && (from % Span(kind) == 0 ==> n <= bound)
  {
    if AllTimely(limits, Empty(time), es) {
      CountersExact(limits, time, es);
      AllowedWhenExact(limits, After(limits, Empty(time), es), kind, from);
    }
  }

  lemma {:induction false} RefusalSparesTheDay(limits: Limits, s: Limiter)
    requires Inv(limits, s)
    ensures forall id :: id in s.requests && s.requests[id].pc == Finished(Denied(Rpm)) ==> Rpd !in s.requests[id].tried
  {
    forall id | id in s.requests && s.requests[id].pc == Finished(Denied(Rpm))
      ensures Rpd !in s.requests[id].tried
    {
      assert RequestOk(limits, s, s.requests[id]);
    }
  }

  lemma {:induction false} LetThroughWithin(s: Limiter, from: int, upTo: int)
    ensures |LetThrough(s, from, upTo)| <= |WithVerdict(s, Allowed, from, upTo)| + |Failed(s)|
  {
    SubsetSize(WithVerdict(s, FailedOpen, from, upTo), Failed(s));
    UnionSize(WithVerdict(s, Allowed, from, upTo), WithVerdict(s, FailedOpen, from, upTo));
  }

  lemma {:induction false} AllowedWhenExact(limits: Limits, s: Limiter, kind: Kind, from: int)
    requires Inv(limits, s) && AllExact(s) && LimitOf(limits, kind).Some?
    ensures var bound := Bound(LimitOf(limits, kind));
            var n := |WithVerdict(s, Allowed, from, from + Span(kind))|;
            n <= 2 * bound && (from % Span(kind) == 0 ==> n <= bound)
  {
    var w := from / Span(kind);
    AllowedWithin(limits, s, kind, from);
    assert Exact(s, Key(kind, w)) && Exact(s, Key(kind, w + 1));
  }
}
