/** The tamper-evident security event log of one tenant (audit/security_log.py): three
    separate writes per event, any of which can fail or interleave with another
    writer's. The digest function is a parameter, injective where a result needs it. */
module AuditChain {
  import opened Common

  type Digest = string

  /** What is hashed: a fresh event id, the event's fields, and the previous digest. */
  datatype Body = Body(id: nat, fields: string, prev: Option<Digest>)

  datatype Event = Event(body: Body, hash: Digest)

  type Hash = Body -> Digest

  ghost predicate Injective(h: Hash) {
    forall a, b :: h(a) == h(b) ==> a == b
  }

  function Sealed(h: Hash, id: nat, fields: string, prev: Option<Digest>): Event {
    var body := Body(id, fields, prev);
    Event(body, h(body))
  }

  // ----- what a verifier of a chain checks -----

  /** Every digest is that of its own body, and every event names its predecessor. */
  predicate Links(h: Hash, es: seq<Event>) {
    && (forall i :: 0 <= i < |es| ==> es[i].hash == h(es[i].body))
    && (forall i :: 0 < i < |es| ==> es[i].body.prev == Some(es[i - 1].hash))
  }

  predicate Verifies(h: Hash, es: seq<Event>) {
    Links(h, es) && (es != [] ==> es[0].body.prev == None)
  }

  function TailOf(es: seq<Event>): Option<Digest> {
    if es == [] then None else Some(es[|es| - 1].hash)
  }

  /** Two linked lists with the same last digest agree as far as the shorter one goes:
      also a log whose oldest events have expired is pinned down by its tail. */
  lemma {:induction false} SameTailSameSuffix(h: Hash, a: seq<Event>, b: seq<Event>)
    requires Injective(h) && Links(h, a) && Links(h, b)
    requires 0 < |a| <= |b| && TailOf(a) == TailOf(b)
    ensures a == b[|b| - |a|..]
    decreases |a|
  {
    var x, y := a[|a| - 1], b[|b| - 1];
    assert x.body == y.body;
    if |a| == 1 {
      assert b[|b| - 1..] == [y];
    } else {
      var a', b' := a[..|a| - 1], b[..|b| - 1];
      SameTailSameSuffix(h, a', b');
      assert a == a' + [x] && b == b' + [y];
    }
  }

  /** The tail digest determines the whole list: any edit, insertion, deletion or
      reordering below it stops the list from verifying. */
  lemma {:induction false} SameTailSameChain(h: Hash, a: seq<Event>, b: seq<Event>)
    requires Injective(h) && Verifies(h, a) && Verifies(h, b) && TailOf(a) == TailOf(b)
    ensures a == b
  {
    if a != [] && b != [] {
      if |a| <= |b| {
        NoLongerChain(h, a, b);
      } else {
        NoLongerChain(h, b, a);
      }
    }
  }

  lemma {:induction false} NoLongerChain(h: Hash, a: seq<Event>, b: seq<Event>)
    requires Injective(h) && Verifies(h, a) && Verifies(h, b) && TailOf(a) == TailOf(b)
    requires 0 < |a| <= |b|
    ensures a == b
  {
    var k := |b| - |a|;
    assert b[0..] == b && b[k..][0] == b[k];
    assert k == 0 || b[k].body.prev == Some(b[k - 1].hash);
    SameTailSameSuffix(h, a, b);
  }

  // ----- one writer -----

  /** Where the write of an event goes wrong, if it does. Every exception is swallowed. */
  datatype Fault = NoFault | AtRead | AtPut | AtAdvance

  datatype Log = Log(events: seq<Event>, tail: Option<Digest>)

  class SecurityAuditLog {
    const hash: Hash
    var events: seq<Event>
    var tail: Option<Digest>

    function Value(): Log
      reads this
    {
      Log(events, tail)
    }

    constructor (hash: Hash)
      ensures this.hash == hash && Value() == Log([], None)
    {
      this.hash := hash;
      events, tail := [], None;
    }

    method GetChainTailHash(fault: Fault) returns (r: Option<Option<Digest>>)
      ensures r == if fault.AtRead? then None else Some(tail)
    {
      if fault.AtRead? {
        return None;
      }
      return Some(tail);
    }

    method WriteEvent(id: nat, fields: string, fault: Fault)
      modifies this
      ensures Value() == Written(hash, old(Value()), Attempt(id, fields, fault))
      // nothing before the put; then the event over the tail that was read, and the tail itself last
      ensures fault in {AtRead, AtPut} ==> events == old(events) && tail == old(tail)
      ensures fault in {NoFault, AtAdvance} ==>
                var body := Body(id, fields, old(tail));
                && events == old(events) + [Event(body, hash(body))]
                && tail == if fault == AtAdvance then old(tail) else Some(hash(body))
    {
      var prev := GetChainTailHash(fault);
      if prev.None? {
        return;
      }
      var body := Body(id, fields, prev.value);
      var digest := hash(body);
      if fault.AtPut? {
        return;
      }
      events := events + [Event(body, digest)];
      if fault.AtAdvance? {
        return;
      }
      tail := Some(digest);
    }
  }

  datatype Attempt = Attempt(id: nat, fields: string, fault: Fault)

  function Written(h: Hash, log: Log, a: Attempt): Log {
    if a.fault.AtRead? || a.fault.AtPut? then log
    else
      var e := Sealed(h, a.id, a.fields, log.tail);
      Log(log.events + [e], if a.fault.AtAdvance? then log.tail else Some(e.hash))
  }

  /** Writers one after the other, on an empty log. */
  function WriteAll(h: Hash, attempts: seq<Attempt>): Log {
    if attempts == [] then Log([], None)
    else Written(h, WriteAll(h, attempts[..|attempts| - 1]), attempts[|attempts| - 1])
  }

  predicate OneList(h: Hash, log: Log) {
    Verifies(h, log.events) && log.tail == TailOf(log.events)
  }

  predicate OwnIds(attempts: seq<Attempt>) {
    forall i, j :: 0 <= i < j < |attempts| ==> attempts[i].id != attempts[j].id
  }

  /** Stored events are attempts, sealed; the tail is null or the digest of one. */
  predicate FromAttempts(h: Hash, attempts: seq<Attempt>, log: Log) {
    && (forall e :: e in log.events ==> e.hash == h(e.body) && exists i :: 0 <= i < |attempts| && attempts[i].id == e.body.id)
    && (log.tail.Some? ==> exists e :: e in log.events && log.tail == Some(e.hash))
  }

  lemma {:induction false} WriteAllFromAttempts(h: Hash, attempts: seq<Attempt>)
    ensures FromAttempts(h, attempts, WriteAll(h, attempts))
  {
    if attempts != [] {
      var before, last := attempts[..|attempts| - 1], attempts[|attempts| - 1];
      WriteAllFromAttempts(h, before);
      var old', log := WriteAll(h, before), WriteAll(h, attempts);
      forall e | e in log.events
        ensures e.hash == h(e.body) && exists i :: 0 <= i < |attempts| && attempts[i].id == e.body.id
      {
        if e in old'.events {
          var i :| 0 <= i < |before| && before[i].id == e.body.id;
          assert attempts[i].id == e.body.id;
        } else {
          assert attempts[|attempts| - 1].id == e.body.id;
        }
      }
      if log.tail.Some? && log.tail == old'.tail {
        var e :| e in old'.events && log.tail == Some(e.hash);
        assert e in log.events;
      }
    }
  }

  /** A put whose id is new is not the tail already. */
  lemma {:induction false} FreshDigest(h: Hash, before: seq<Attempt>, a: Attempt)
    requires Injective(h) && OwnIds(before + [a])
    ensures var log := WriteAll(h, before);
            log.tail != Some(Sealed(h, a.id, a.fields, log.tail).hash)
  {
    WriteAllFromAttempts(h, before);
    var log := WriteAll(h, before);
    var e := Sealed(h, a.id, a.fields, log.tail);
    forall i | 0 <= i < |before|
      ensures before[i].id != a.id
    {
      assert (before + [a])[i].id != (before + [a])[|before|].id;
    }
    assert forall d :: d in log.events ==> d.body.id != e.body.id;
  }

  /** One more put keeps the list one list exactly when it was one, and the tail moves. */
  lemma {:induction false} PutKeepsOneListIff(h: Hash, log: Log, a: Attempt)
    requires a.fault.NoFault? || a.fault.AtAdvance?
    requires log.tail != Some(Sealed(h, a.id, a.fields, log.tail).hash)
    requires log.events == [] ==> log.tail == None
    ensures OneList(h, Written(h, log, a)) <==> OneList(h, log) && a.fault.NoFault?
  {
    var log' := Written(h, log, a);
    var n := |log.events|;
    assert log'.events[..n] == log.events;
    assert log'.events[n].body.prev == log.tail;
    if Verifies(h, log'.events) {
      assert forall i :: 0 <= i < n ==> log.events[i] == log'.events[i];
      assert Verifies(h, log.events);
    }
  }

  /** Without overlap, the log is one verifying list that ends in the tail exactly when
      no writer died between putting its event and advancing the tail; writers that
      failed earlier leave no trace. */
  lemma {:induction false} SequentialOneListIff(h: Hash, attempts: seq<Attempt>)
    requires Injective(h) && OwnIds(attempts)
    ensures OneList(h, WriteAll(h, attempts)) <==> forall i :: 0 <= i < |attempts| ==> !attempts[i].fault.AtAdvance?
  {
    if attempts != [] {
      var before, last := attempts[..|attempts| - 1], attempts[|attempts| - 1];
      SequentialOneListIff(h, before);
      assert attempts == before + [last];
      FreshDigest(h, before, last);
      WriteAllFromAttempts(h, before);
      if last.fault.NoFault? || last.fault.AtAdvance? {
        PutKeepsOneListIff(h, WriteAll(h, before), last);
      }
      assert forall i :: 0 <= i < |before| ==> attempts[i] == before[i];
    }
  }

  /** With no failure at all the list holds every event, in the order written. */
  lemma {:induction false} SequentialHoldsAll(h: Hash, attempts: seq<Attempt>)
    requires forall i :: 0 <= i < |attempts| ==> attempts[i].fault.NoFault?
    ensures var log := WriteAll(h, attempts);
            && OneList(h, log) && |log.events| == |attempts|
            && forall i :: 0 <= i < |attempts| ==>
                 log.events[i].body.id == attempts[i].id && log.events[i].body.fields == attempts[i].fields
  {
    if attempts != [] {
      SequentialHoldsAll(h, attempts[..|attempts| - 1]);
    }
  }

  // ----- any interleaving of writers -----

  /** A writer has read the tail, or put its event; one that dies stays where it is. */
  datatype Writer = HasRead(prev: Option<Digest>) | HasPut(hash: Digest) | Finished

  datatype State = State(log: Log, writers: map<nat, Writer>)

  datatype Step = ReadTail(w: nat) | PutEvent(w: nat, fields: string) | Advance(w: nat)

  function Next(h: Hash, s: State, step: Step): Option<State> {
    match step
    case ReadTail(w) =>
      if w in s.writers then None else Some(s.(writers := s.writers[w := HasRead(s.log.tail)]))
    case PutEvent(w, fields) =>
      if w !in s.writers || !s.writers[w].HasRead? then None
      else
        var e := Sealed(h, w, fields, s.writers[w].prev);
        Some(State(s.log.(events := s.log.events + [e]), s.writers[w := HasPut(e.hash)]))
    case Advance(w) =>
      if w !in s.writers || !s.writers[w].HasPut? then None
      else Some(State(s.log.(tail := Some(s.writers[w].hash)), s.writers[w := Finished]))
  }

  function After(h: Hash, s: State, steps: seq<Step>): Option<State>
    decreases |steps|
  {
    if steps == [] then Some(s)
    else
      var m := Next(h, s, steps[0]);
      if m.None? then None else After(h, m.value, steps[1..])
  }

  /** A write that nobody disturbs is a run of these steps, whoever else has read or put. */
  lemma {:induction false} WritesAreSteps(h: Hash, s: State, a: Attempt)
    requires a.id !in s.writers
    ensures var body := Body(a.id, a.fields, s.log.tail);
            var three := [ReadTail(a.id), PutEvent(a.id, a.fields), Advance(a.id)];
            var all := After(h, s, if a.fault == NoFault then three else if a.fault == AtAdvance then three[..2]
                                   else if a.fault == AtPut then three[..1] else []);
            && all.Some? && all.value.log == Written(h, s.log, a)
            && (a.fault == NoFault ==> all.value == State(Log(s.log.events + [Event(body, h(body))], Some(h(body))), s.writers[a.id := Finished]))
            && (a.fault == AtAdvance ==> all.value.writers == s.writers[a.id := HasPut(h(body))])
            && (a.fault == AtPut ==> all.value.writers == s.writers[a.id := HasRead(s.log.tail)])
  {
    var three := [ReadTail(a.id), PutEvent(a.id, a.fields), Advance(a.id)];
    if a.fault == NoFault || a.fault == AtAdvance {
      var s1 := Next(h, s, three[0]).value;
      var s2 := Next(h, s1, three[1]).value;
      assert three[1..][1..] == [three[2]] && three[..2][1..] == [three[1]];
      assert After(h, s2, [three[2]]) == Next(h, s2, three[2]);
      assert After(h, s1, [three[1]]) == Some(s2);
      assert s2.writers == s.writers[a.id := HasPut(h(Body(a.id, a.fields, s.log.tail)))];
    } else if a.fault == AtPut {
      assert three[..1][1..] == [];
    }
  }

  const EMPTY := State(Log([], None), map[])

  /** A digest somebody may build on: null, or that of an event already stored. */
  predicate Stored(log: Log, d: Option<Digest>) {
    d.Some? ==> exists j :: 0 <= j < |log.events| && Some(log.events[j].hash) == d
  }

  /** Event i is rooted: it has no predecessor, or one stored before it. */
  predicate Rooted(events: seq<Event>, i: nat)
    requires i < |events|
  {
    events[i].body.prev.Some? ==> exists j :: 0 <= j < i && Some(events[j].hash) == events[i].body.prev
  }

  ghost predicate Forest(h: Hash, s: State) {
    && (forall i :: 0 <= i < |s.log.events| ==>
          Rooted(s.log.events, i) && s.log.events[i].hash == h(s.log.events[i].body))
    && Stored(s.log, s.log.tail)
    && (forall w :: w in s.writers ==> match s.writers[w]
          case HasRead(prev) => Stored(s.log, prev)
          case HasPut(hash) => Stored(s.log, Some(hash))
          case Finished => true)
  }

  lemma {:induction false} StoredGrows(log: Log, e: Event, d: Option<Digest>)
    requires Stored(log, d)
    ensures Stored(log.(events := log.events + [e]), d)
  {
    if d.Some? {
      var j :| 0 <= j < |log.events| && Some(log.events[j].hash) == d;
      assert (log.events + [e])[j] == log.events[j];
    }
  }

  lemma {:induction false} ForestStep(h: Hash, s: State, step: Step)
    requires Forest(h, s) && Next(h, s, step).Some?
    ensures Forest(h, Next(h, s, step).value)
    ensures s.log.events <= Next(h, s, step).value.log.events
  {
    if step.PutEvent? {
      var t := Next(h, s, step).value;
      var n := |s.log.events|;
      var e := t.log.events[n];
      assert t.log.(tail := s.log.tail) == s.log.(events := s.log.events + [e]);
      forall i | 0 <= i <= n
        ensures Rooted(t.log.events, i)
      {
        if i < n {
          assert Rooted(s.log.events, i);
          assert t.log.events[i] == s.log.events[i];
          assert forall j :: 0 <= j < i ==> t.log.events[j] == s.log.events[j];
        } else if e.body.prev.Some? {
          assert s.writers[step.w].HasRead? && Stored(s.log, e.body.prev);
          var j :| 0 <= j < n && Some(s.log.events[j].hash) == e.body.prev;
          assert Some(t.log.events[j].hash) == e.body.prev;
        }
      }
      forall d | Stored(s.log, d)
        ensures Stored(t.log, d)
      {
        StoredGrows(s.log, e, d);
      }
      assert t.log.events[n].hash == e.hash;
    }
  }

  /** Any interleaving of writers, any of them dying anywhere: stored events are never
      changed, each one's predecessor is null or an event stored before it, and the tail
      is null or the digest of a stored event. */
  lemma {:induction false} AlwaysForest(h: Hash, s: State, steps: seq<Step>)
    requires Forest(h, s) && After(h, s, steps).Some?
    ensures Forest(h, After(h, s, steps).value)
    ensures s.log.events <= After(h, s, steps).value.log.events
    decreases |steps|
  {
    if steps != [] {
      ForestStep(h, s, steps[0]);
      AlwaysForest(h, Next(h, s, steps[0]).value, steps[1..]);
    }
  }

  /** Following prev_hash from any event reaches null: the events on the way form a
      verifying chain of stored events that ends in this one. */
  lemma {:induction false} ChainOf(h: Hash, s: State, i: nat) returns (chain: seq<Event>)
    requires Forest(h, s) && i < |s.log.events|
    ensures Verifies(h, chain) && TailOf(chain) == Some(s.log.events[i].hash)
    ensures chain != [] && chain[|chain| - 1] == s.log.events[i]
    ensures forall e :: e in chain ==> e in s.log.events
    decreases i
  {
    var e := s.log.events[i];
    assert Rooted(s.log.events, i);
    if e.body.prev.None? {
      chain := [e];
    } else {
      var j :| 0 <= j < i && Some(s.log.events[j].hash) == e.body.prev;
      var below := ChainOf(h, s, j);
      chain := below + [e];
    }
  }

  /** In every reachable log each stored event ends exactly one verifying chain, and so
      does the tail when it is set. */
  lemma {:induction false} EveryEventHasOneChain(h: Hash, steps: seq<Step>, i: nat) returns (chain: seq<Event>)
    requires Injective(h) && After(h, EMPTY, steps).Some?
    requires i < |After(h, EMPTY, steps).value.log.events|
    ensures var log := After(h, EMPTY, steps).value.log;
            && Verifies(h, chain) && TailOf(chain) == Some(log.events[i].hash)
            && (forall e :: e in chain ==> e in log.events)
            && (forall other :: Verifies(h, other) && TailOf(other) == Some(log.events[i].hash) ==> other == chain)
  {
    AlwaysForest(h, EMPTY, steps);
    var t := After(h, EMPTY, steps).value;
    chain := ChainOf(h, t, i);
    forall other | Verifies(h, other) && TailOf(other) == Some(t.log.events[i].hash)
      ensures other == chain
    {
      SameTailSameChain(h, other, chain);
    }
  }

  // ----- which runs keep one list, from the order of their steps alone -----

  /** The writers that put, in order. */
  function Puts(steps: seq<Step>): seq<nat> {
    if steps == [] then []
    else Puts(steps[..|steps| - 1]) + if steps[|steps| - 1].PutEvent? then [steps[|steps| - 1].w] else []
  }

  /** The last writer to advance the tail. */
  function LastAdvance(steps: seq<Step>): Option<nat> {
    if steps == [] then None
    else if steps[|steps| - 1].Advance? then Some(steps[|steps| - 1].w) else LastAdvance(steps[..|steps| - 1])
  }

  /** The last writer to have advanced the tail when this one read it. */
  function Saw(steps: seq<Step>, w: nat): Option<nat> {
    if steps == [] then None
    else if steps[|steps| - 1] == ReadTail(w) then LastAdvance(steps[..|steps| - 1])
    else Saw(steps[..|steps| - 1], w)
  }

  /** A digest is that of a writer's event; null is that of none. */
  predicate Names(events: seq<Event>, w: Option<nat>, d: Option<Digest>) {
    && (w.None? <==> d.None?)
    && (w.Some? ==> exists k :: 0 <= k < |events| && events[k].body.id == w.value && Some(events[k].hash) == d)
  }

  predicate OwnEvents(h: Hash, events: seq<Event>) {
    && (forall k :: 0 <= k < |events| ==> events[k].hash == h(events[k].body))
    && (forall i, j :: 0 <= i < j < |events| ==> events[i].body.id != events[j].body.id)
  }

  /** What the log holds is what the order of the steps says. */
  ghost predicate Ordered(h: Hash, steps: seq<Step>, s: State) {
    && OwnEvents(h, s.log.events) && |s.log.events| == |Puts(steps)|
    && (forall k :: 0 <= k < |s.log.events| ==>
          && s.log.events[k].body.id == Puts(steps)[k]
          && Puts(steps)[k] in s.writers && !s.writers[Puts(steps)[k]].HasRead?
          && Names(s.log.events, Saw(steps, Puts(steps)[k]), s.log.events[k].body.prev))
    && Names(s.log.events, LastAdvance(steps), s.log.tail)
    && (forall w :: w in s.writers ==> match s.writers[w]
          case HasRead(prev) => Names(s.log.events, Saw(steps, w), prev)
          case HasPut(hash) => Names(s.log.events, Some(w), Some(hash))
          case Finished => true)
  }

  lemma {:induction false} NamesStay(events: seq<Event>, e: Event, w: Option<nat>, d: Option<Digest>)
    requires Names(events, w, d)
    ensures Names(events + [e], w, d)
  {
    if w.Some? {
      var k :| 0 <= k < |events| && events[k].body.id == w.value && Some(events[k].hash) == d;
      assert (events + [e])[k] == events[k];
    }
  }

  lemma {:induction false} AfterSnoc(h: Hash, s: State, steps: seq<Step>, step: Step)
    requires After(h, s, steps + [step]).Some?
    ensures After(h, s, steps).Some? && Next(h, After(h, s, steps).value, step) == After(h, s, steps + [step])
    decreases |steps|
  {
    if steps == [] {
      assert After(h, s, [step]) == Next(h, s, step) by {
        assert [step][1..] == [];
      }
      assert steps + [step] == [step];
    } else {
      assert (steps + [step])[1..] == steps[1..] + [step];
      AfterSnoc(h, Next(h, s, steps[0]).value, steps[1..], step);
    }
  }

  lemma {:induction false} PutOrdered(h: Hash, steps: seq<Step>, s: State, w: nat, fields: string)
    requires Ordered(h, steps, s) && Next(h, s, PutEvent(w, fields)).Some?
    ensures Ordered(h, steps + [PutEvent(w, fields)], Next(h, s, PutEvent(w, fields)).value)
  {
    var all, t := steps + [PutEvent(w, fields)], Next(h, s, PutEvent(w, fields)).value;
    assert all[..|steps|] == steps;
    var n := |s.log.events|;
    var e := t.log.events[n];
    forall o, d | Names(s.log.events, o, d)
      ensures Names(t.log.events, o, d)
    {
      NamesStay(s.log.events, e, o, d);
    }
    assert Names(t.log.events, Some(w), Some(e.hash)) by {
      assert t.log.events[n] == e;
    }
  }

  lemma {:induction false} OrderedStep(h: Hash, steps: seq<Step>, s: State, step: Step)
    requires Ordered(h, steps, s) && Next(h, s, step).Some?
    ensures Ordered(h, steps + [step], Next(h, s, step).value)
  {
    assert (steps + [step])[..|steps|] == steps;
    if step.PutEvent? {
      PutOrdered(h, steps, s, step.w, step.fields);
    }
  }

  lemma {:induction false} AlwaysOrdered(h: Hash, steps: seq<Step>)
    requires After(h, EMPTY, steps).Some?
    ensures Ordered(h, steps, After(h, EMPTY, steps).value)
    decreases |steps|
  {
    if steps != [] {
      var before, last := steps[..|steps| - 1], steps[|steps| - 1];
      assert steps == before + [last];
      AfterSnoc(h, EMPTY, before, last);
      AlwaysOrdered(h, before);
      OrderedStep(h, before, After(h, EMPTY, before).value, last);
    }
  }

  lemma {:induction false} NamesIff(h: Hash, events: seq<Event>, w: Option<nat>, d: Option<Digest>, i: nat)
    requires Injective(h) && OwnEvents(h, events) && Names(events, w, d) && i < |events|
    ensures d == Some(events[i].hash) <==> w == Some(events[i].body.id)
  {
    if w.Some? {
      var k :| 0 <= k < |events| && events[k].body.id == w.value && Some(events[k].hash) == d;
      if k != i {
        assert events[k].body.id != events[i].body.id;
        assert events[k].body != events[i].body;
      }
    }
  }

  /** The i-th writer to put had read the tail as the one before it left it. */
  predicate BuiltOnTheLast(steps: seq<Step>, i: nat)
    requires i < |Puts(steps)|
  {
    Saw(steps, Puts(steps)[i]) == if i == 0 then None else Some(Puts(steps)[i - 1])
  }

  predicate EachBuiltOnTheLast(steps: seq<Step>) {
    forall i :: 0 <= i < |Puts(steps)| ==> BuiltOnTheLast(steps, i)
  }

  /** The last to put was the last to advance the tail. */
  predicate LastHasAdvanced(steps: seq<Step>) {
    LastAdvance(steps) == if Puts(steps) == [] then None else Some(Puts(steps)[|Puts(steps)| - 1])
  }

  /** In any interleaving of any number of writers, dying anywhere, the log is one verifying
      list that ends in the tail if and only if each put built on the event stored just
      before it and the last stored event's writer has advanced the tail last. */
  lemma {:induction false} OneListIff(h: Hash, steps: seq<Step>)
    requires Injective(h) && After(h, EMPTY, steps).Some?
    ensures OneList(h, After(h, EMPTY, steps).value.log) <==> EachBuiltOnTheLast(steps) && LastHasAdvanced(steps)
  {
    var log := After(h, EMPTY, steps).value.log;
    var es, puts := log.events, Puts(steps);
    AlwaysOrdered(h, steps);
    forall i | 0 <= i < |es|
      ensures Follows(es, i) <==> BuiltOnTheLast(steps, i)
    {
      if i > 0 {
        NamesIff(h, es, Saw(steps, puts[i]), es[i].body.prev, i - 1);
      }
    }
    VerifiesIff(h, es);
    if es != [] {
      NamesIff(h, es, LastAdvance(steps), log.tail, |es| - 1);
    }
  }

  predicate Follows(es: seq<Event>, i: nat)
    requires i < |es|
  {
    es[i].body.prev == if i == 0 then None else Some(es[i - 1].hash)
  }

  lemma {:induction false} VerifiesIff(h: Hash, es: seq<Event>)
    requires OwnEvents(h, es)
    ensures Verifies(h, es) <==> forall i :: 0 <= i < |es| ==> Follows(es, i)
  {
    if es != [] && forall i :: 0 <= i < |es| ==> Follows(es, i) {
      assert Follows(es, 0);
      forall i | 0 < i < |es|
        ensures es[i].body.prev == Some(es[i - 1].hash)
      {
        assert Follows(es, i);
      }
    }
  }

  /** So wherever two writers that put had read the same tail, the log has forked: both
      events name the same predecessor, and it stays forked however the run goes on. */
  lemma {:induction false} OverlapForks(h: Hash, steps: seq<Step>, more: seq<Step>, i: nat, j: nat)
    requires Injective(h) && After(h, EMPTY, steps + more).Some?
    requires After(h, EMPTY, steps).Some?
    requires i < j < |Puts(steps)| && Saw(steps, Puts(steps)[i]) == Saw(steps, Puts(steps)[j])
    ensures var log := After(h, EMPTY, steps + more).value.log;
            j < |log.events| && log.events[i].body.prev == log.events[j].body.prev && !OneList(h, log)
  {
    var s := After(h, EMPTY, steps).value;
    AlwaysOrdered(h, steps);
    SameSawSamePrev(h, steps, s, i, j);
    AfterConcat(h, EMPTY, steps, more);
    AlwaysForest(h, EMPTY, steps);
    AlwaysForest(h, s, more);
    var es := After(h, EMPTY, steps + more).value.log.events;
    assert es[i] == s.log.events[i] && es[j] == s.log.events[j];
    AlwaysOrdered(h, steps + more);
    VerifyingNeverForks(h, es, i, j);
  }

  lemma {:induction false} VerifyingNeverForks(h: Hash, es: seq<Event>, i: nat, j: nat)
    requires OwnEvents(h, es) && Injective(h) && i < j < |es|
    ensures Verifies(h, es) ==> es[i].body.prev != es[j].body.prev
  {
    if Verifies(h, es) {
      VerifiesIff(h, es);
      assert Follows(es, i) && Follows(es, j);
      if i > 0 {
        assert es[i - 1].body.id != es[j - 1].body.id;
        assert es[i - 1].hash == h(es[i - 1].body) && es[j - 1].hash == h(es[j - 1].body);
      }
    }
  }

  lemma {:induction false} SameSawSamePrev(h: Hash, steps: seq<Step>, s: State, i: nat, j: nat)
    requires Ordered(h, steps, s) && i < j < |Puts(steps)| && Saw(steps, Puts(steps)[i]) == Saw(steps, Puts(steps)[j])
    ensures s.log.events[i].body.prev == s.log.events[j].body.prev
  {
    var es, w := s.log.events, Saw(steps, Puts(steps)[i]);
    assert Names(es, w, es[i].body.prev) && Names(es, w, es[j].body.prev);
    if w.Some? {
      var k :| 0 <= k < |es| && es[k].body.id == w.value && Some(es[k].hash) == es[i].body.prev;
      var m :| 0 <= m < |es| && es[m].body.id == w.value && Some(es[m].hash) == es[j].body.prev;
      assert k == m;
    }
  }

  lemma {:induction false} AfterConcat(h: Hash, s: State, a: seq<Step>, b: seq<Step>)
    requires After(h, s, a).Some?
    ensures After(h, s, a + b) == After(h, After(h, s, a).value, b)
    decreases |a|
  {
    if a == [] {
      assert a + b == b;
    } else {
      assert (a + b)[1..] == a[1..] + b;
      AfterConcat(h, Next(h, s, a[0]).value, a[1..], b);
    }
  }
}
