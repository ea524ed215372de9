/** The shared review row of a HIGH/DESTRUCTIVE tool call, and the protocol three
    kinds of processes run on it: resumers of the paused turn (tool_approval.py,
    orchestrator.py), deciders (hitl/store.py) and the clock. */
module ToolApproval {
  import opened Common
  import opened ToolExecution

  datatype Status = Pending | Approved | Rejected | InfoRequested

  /** The `resumed_at` attribute: missing, an explicit NULL, or a timestamp. */
  datatype Mark = Absent | Null | At(time: int)

  /** One item of the review table. `Stub` is what a conditional update leaves behind
      when it hits a key that was never put: only the key and `resumed_at`. */
  datatype Row =
    | Row(status: Status,
          requestedAt: Option<int>,  // None: missing or not an ISO timestamp
          timeoutHours: int,
          reviewedBy: Option<string>,
          reviewedAt: Option<int>,
          reason: Option<string>,
          context: Option<TurnContext>,
          resumedAt: Mark)
    | Stub(resumedAt: Mark)

  /** What a resume call learns from the row. */
  datatype Verdict = StillPending | NotFound | TimedOut | Decided(status: Status)

  const SECONDS_PER_HOUR := 3600

  function Expired(row: Row, now: int): bool
    requires row.Row?
  {
    row.requestedAt.Some? && now > row.requestedAt.value + row.timeoutHours * SECONDS_PER_HOUR
  }

  function VerdictOn(row: Option<Row>, now: int): Verdict {
    match row
    case None => NotFound
    case Some(Stub(_)) => StillPending
    case Some(r) =>
      if r.status != Pending then Decided(r.status)
      else if Expired(r, now) then TimedOut
      else StillPending
  }

  predicate Claimed(row: Option<Row>) {
    row.Some? && row.value.resumedAt.At?
  }

  /** The row after a successful conditional update. */
  function Marked(row: Option<Row>, now: int): Row {
    match row
    case None => Stub(At(now))
    case Some(r) => r.(resumedAt := At(now))
  }

  /** The whole-row image a decider puts back: everything it read, with its decision,
      and a `resumed_at` that is never absent again. */
  function Rewritten(read: Row, choice: Status, who: string, now: int, reason: Option<string>): Row
    requires read.Row?
  {
    read.(status := choice, reviewedBy := Some(who), reviewedAt := Some(now), reason := reason,
          resumedAt := if read.resumedAt.At? then read.resumedAt else Null)
  }

  function FreshRow(now: int, timeoutHours: int, context: TurnContext): Row {
    Row(Pending, Some(now), timeoutHours, None, None, None, Some(context), Absent)
  }

  /** How the put of a new review goes, and whether the notification after it, if one is
      configured, goes out. */
  datatype Asking = Asking(put: Remote, published: bool)

  predicate Asked(asking: Asking) {
    asking.put.Works? && asking.published
  }

  datatype ReviewKey = ReviewKey(tenant: string, review: string)

  datatype DecideError = ReviewNotFound | AlreadyDecided(status: Status) | NotARecord

  /** The review table, written by both services. */
  class ReviewTable {
    var rows: map<ReviewKey, Row>

    function Lookup(key: ReviewKey): Option<Row>
      reads this
    {
      if key in rows then Some(rows[key]) else None
    }

    constructor ()
      ensures rows == map[]
    {
      rows := map[];
    }

    /** The review is stored even if the notification after the put then raises. */
    method RequestApproval(key: ReviewKey, now: int, timeoutHours: int, context: TurnContext, asking: Asking)
      returns (ok: bool)
      modifies this
      ensures ok == Asked(asking)
      ensures ok <==> asking.put == Works && asking.published
      ensures rows == if Takes(asking.put) then old(rows)[key := FreshRow(now, timeoutHours, context)] else old(rows)
      ensures Takes(asking.put) ==>
                && rows[key] == Row(Pending, Some(now), timeoutHours, None, None, None, Some(context), Absent)
                && VerdictOn(Lookup(key), now) == (if timeoutHours < 0 then TimedOut else StillPending)
                && !Claimed(Lookup(key))
    {
      if Takes(asking.put) {
        rows := rows[key := Row(Pending, Some(now), timeoutHours, None, None, None, Some(context), Absent)];
      }
      return asking.put.Works? && asking.published;
    }

    /** The conditional update: succeeds exactly when no resume has marked the row. */
    method TryClaimResume(key: ReviewKey, now: int) returns (claimed: bool)
      modifies this
      ensures claimed <==> key !in old(rows) || !old(rows)[key].resumedAt.At?
      ensures claimed ==> key in rows && rows[key] == if key in old(rows) then old(rows)[key].(resumedAt := At(now)) else Stub(At(now))
      ensures claimed == !old(Claimed(Lookup(key)))
      ensures claimed ==> rows == old(rows)[key := Marked(old(Lookup(key)), now)]
      ensures !claimed ==> rows == old(rows)
      ensures Claimed(Lookup(key))
    {
      if key !in rows {
        rows := rows[key := Stub(At(now))];
        return true;
      }
      if rows[key].resumedAt.At? {
        return false;
      }
      rows := rows[key := rows[key].(resumedAt := At(now))];
      return true;
    }

    method GetDecision(key: ReviewKey, now: int) returns (verdict: Verdict, context: Option<TurnContext>)
      ensures verdict == VerdictOn(Lookup(key), now)
      // by the fields of the row: missing; still pending, as is a row without a status; timed
      // out more than its hours after it was requested; or decided
      ensures verdict == NotFound <==> key !in rows
      ensures verdict == TimedOut <==>
                && key in rows && rows[key].Row? && rows[key].status == Pending
                && rows[key].requestedAt.Some? && now - rows[key].requestedAt.value > 3600 * rows[key].timeoutHours
      ensures verdict == StillPending <==>
                && key in rows
                && (rows[key].Row? ==>
                      && rows[key].status == Pending
                      && (rows[key].requestedAt.Some? ==> now - rows[key].requestedAt.value <= 3600 * rows[key].timeoutHours))
      ensures verdict.Decided? <==> key in rows && rows[key].Row? && rows[key].status != Pending
      ensures verdict.Decided? ==> verdict.status == rows[key].status
      ensures context == if key in rows && rows[key].Row? then rows[key].context else None
    {
      if key !in rows {
        return NotFound, None;
      }
      var row := rows[key];
      context := if row.Row? then row.context else None;
      var status := if row.Row? then row.status else Pending;
      if status == Pending {
        if row.Row? && row.requestedAt.Some? {
          if Expired(row, now) {
            return TimedOut, context;
          }
        }
        return StillPending, context;
      }
      return Decided(status), context;
    }

    method RequirePending(key: ReviewKey) returns (r: Result<Row, DecideError>)
      ensures r.Ok? <==> key in rows && rows[key].Row? && rows[key].status == Pending
      ensures r.Ok? ==> r.value == rows[key]
      ensures r.Err? && r.error.AlreadyDecided? ==>
                key in rows && rows[key].Row? && rows[key].status == r.error.status != Pending
      ensures r == Err(ReviewNotFound) <==> key !in rows
    {
      if key !in rows {
        return Err(ReviewNotFound);
      }
      var row := rows[key];
      if row.Stub? {
        return Err(NotARecord);
      }
      if row.status != Pending {
        return Err(AlreadyDecided(row.status));
      }
      return Ok(row);
    }

    /** `_decide` run without interference between its read and its put. */
    method Decide(key: ReviewKey, choice: Status, who: string, now: int, reason: Option<string>)
      returns (r: Result<Row, DecideError>)
      modifies this
      ensures r.Ok? <==> key in old(rows) && old(rows)[key].Row? && old(rows)[key].status == Pending
      ensures r.Err? ==> rows == old(rows)
      ensures r.Ok? ==> rows == old(rows)[key := Rewritten(old(rows)[key], choice, who, now, reason)]
      ensures r.Ok? ==>
                var was, row := old(rows)[key], rows[key];
                && row == Row(choice, was.requestedAt, was.timeoutHours, Some(who), Some(now), reason, was.context,
                              if was.resumedAt.At? then was.resumedAt else Null)
                && r.value == row
      ensures Claimed(Lookup(key)) == old(Claimed(Lookup(key)))
    {
      var read := RequirePending(key);
      if read.Err? {
        return read;
      }
      var row := read.value;
      row := row.(status := choice, reviewedBy := Some(who), reviewedAt := Some(now), reason := reason,
                  resumedAt := match row.resumedAt
                               case At(t) => At(t)
                               case _ => Null);
      rows := rows[key := row];
      return Ok(row);
    }
  }

  // ----- the interleaved protocol on one review -----

  /** A resume call: it has read a verdict; it won the claim and is about to run the
      tools; it ran them; it won the claim but the verdict was a refusal; it lost the
      claim; or it went home because there was nothing to act on. */
  datatype Resumer = Looked(verdict: Verdict) | Won(verdict: Verdict) | Ran | Refused(verdict: Verdict) | Lost | Waiting

  /** A decider between its read and its put, or finished. */
  datatype Decider = Holding(read: Row, choice: Status) | Settled

  /** The row, everybody acting on it, and a history: which resume calls won a claim,
      which ran the tools, and how many puts wiped out a claim they had not read. */
  datatype State = State(
    now: int,
    row: Option<Row>,
    resumers: map<nat, Resumer>,
    deciders: map<nat, Decider>,
    winners: seq<nat>,
    runs: seq<nat>,
    erased: nat)

  datatype Event =
    | Tick(seconds: nat)
    | Look(p: nat)
    | Claim(p: nat)
    | RunTools(p: nat)
    | DecideRead(d: nat, choice: Status)
    | DecidePut(d: nat, who: string)
    | DecideAtomic(choice: Status, who: string)

  /** One step of the system; None when the event cannot happen here. A process that
      dies simply takes no further step. */
  function Next(s: State, e: Event): Option<State> {
    match e
    case Tick(dt) => Some(s.(now := s.now + dt))
    case Look(p) =>
      if p in s.resumers then None
      else
        var v := VerdictOn(s.row, s.now);
        Some(s.(resumers := s.resumers[p := if v in {StillPending, NotFound} then Waiting else Looked(v)]))
    case Claim(p) =>
      if p !in s.resumers || !s.resumers[p].Looked? then None
      else if Claimed(s.row) then Some(s.(resumers := s.resumers[p := Lost]))
      else
        var v := s.resumers[p].verdict;
        Some(s.(row := Some(Marked(s.row, s.now)),
                winners := s.winners + [p],
                resumers := s.resumers[p := if v in {Decided(Rejected), TimedOut} then Refused(v) else Won(v)]))
    case RunTools(p) =>
      if p !in s.resumers || !s.resumers[p].Won? then None
      else Some(s.(resumers := s.resumers[p := Ran], runs := s.runs + [p]))
    case DecideRead(d, choice) =>
      if d in s.deciders || choice == Pending || !Undecided(s.row) then None
      else Some(s.(deciders := s.deciders[d := Holding(s.row.value, choice)]))
    case DecidePut(d, who) =>
      if d !in s.deciders || !s.deciders[d].Holding? || !s.deciders[d].read.Row? then None
      else
        var held := s.deciders[d];
        Some(s.(row := Some(Rewritten(held.read, held.choice, who, s.now, None)),
                deciders := s.deciders[d := Settled],
                erased := s.erased + if Claimed(s.row) && !held.read.resumedAt.At? then 1 else 0))
    case DecideAtomic(choice, who) =>
      if choice == Pending || !Undecided(s.row) then None
      else Some(s.(row := Some(Rewritten(s.row.value, choice, who, s.now, None))))
  }

  predicate Undecided(row: Option<Row>) {
    row.Some? && row.value.Row? && row.value.status == Pending
  }

  /** The state reached by a whole run. */
  function After(s: State, es: seq<Event>): Option<State>
    decreases |es|
  {
    if es == [] then Some(s)
    else
      var m := Next(s, es[0]);
      if m.None? then None else After(m.value, es[1..])
  }

  /** A review that has just been requested: pending, unclaimed, nobody acting. */
  predicate Requested(s: State) {
    && Undecided(s.row) && !Claimed(s.row)
    && s.resumers == map[] && s.deciders == map[]
    && s.winners == [] && s.runs == [] && s.erased == 0
  }

  function AboutToRun(s: State): set<nat> {
    set p | p in s.resumers && s.resumers[p].Won?
  }

  /** Every claim beyond the first is paid for by a put that wiped one out. */
  ghost predicate Accounted(s: State) {
    && |s.winners| <= s.erased + (if Claimed(s.row) then 1 else 0)
    && |s.runs| + |AboutToRun(s)| <= |s.winners|
  }

  lemma {:induction false} AccountedStep(s: State, e: Event)
    requires Accounted(s) && Next(s, e).Some?
    ensures Accounted(Next(s, e).value)
  {
    var t := Next(s, e).value;
    if e.Claim? && t.resumers[e.p].Won? {
      assert AboutToRun(t) == AboutToRun(s) + {e.p};
    } else if e.RunTools? {
      assert e.p in AboutToRun(s) && AboutToRun(t) == AboutToRun(s) - {e.p};
    } else {
      SameAboutToRun(s, e);
    }
  }

  lemma {:induction false} SameAboutToRun(s: State, e: Event)
    requires Next(s, e).Some? && !e.RunTools? && (e.Claim? ==> !Next(s, e).value.resumers[e.p].Won?)
    ensures AboutToRun(Next(s, e).value) == AboutToRun(s)
  {
  }

  lemma {:induction false} AccountedRun(s: State, es: seq<Event>)
    requires Accounted(s) && After(s, es).Some?
    ensures Accounted(After(s, es).value)
    decreases |es|
  {
    if es != [] {
      AccountedStep(s, es[0]);
      AccountedRun(Next(s, es[0]).value, es[1..]);
    }
  }

  /** Any number of resumers and deciders, interleaved at every call: tool executions
      never exceed claims, and claims never exceed one plus the puts that landed on a
      claim they had not read. */
  lemma {:induction false} ClaimsBoundedByErasures(s: State, es: seq<Event>)
    requires Requested(s) && After(s, es).Some?
    ensures var t := After(s, es).value; |t.runs| <= |t.winners| <= 1 + t.erased
  {
    assert AboutToRun(s) == {};
    AccountedRun(s, es);
  }

  // ----- the bound cannot be improved -----

  lemma {:induction false} AfterConcat(s: State, a: seq<Event>, b: seq<Event>)
    requires After(s, a).Some?
    ensures After(s, a + b) == After(After(s, a).value, b)
    decreases |a|
  {
    if a == [] {
      assert a + b == b;
    } else {
      assert (a + b)[1..] == a[1..] + b;
      AfterConcat(Next(s, a[0]).value, a[1..], b);
    }
  }

  lemma {:induction false} AfterOne(s: State, e: Event)
    ensures After(s, [e]) == Next(s, e)
  {
    if Next(s, e).Some? {
      assert After(Next(s, e).value, [e][1..]) == Some(Next(s, e).value);
    }
  }

  /** A decider about to put an approval it based on an unclaimed row. */
  predicate Approving(s: State, d: nat) {
    && d in s.deciders && s.deciders[d].Holding? && s.deciders[d].choice == Approved
    && s.deciders[d].read.Row? && !s.deciders[d].read.resumedAt.At?
  }

  /** Deciders 0..n have all read the pending row, none has put. */
  ghost predicate AllHolding(s: State, from: nat, n: nat) {
    && (forall d: nat :: from <= d <= n ==> Approving(s, d))
    && (forall p: nat :: p in s.resumers ==> p < from)
  }

  lemma {:induction false} ReadersFirst(s: State, n: nat) returns (es: seq<Event>)
    requires Requested(s)
    ensures After(s, es).Some?
    ensures var t := After(s, es).value;
            && AllHolding(t, 0, n) && (forall d :: d in t.deciders ==> d <= n)
            && t == s.(deciders := t.deciders)
  {
    if n == 0 {
      es := [DecideRead(0, Approved)];
      AfterOne(s, es[0]);
    } else {
      var before := ReadersFirst(s, n - 1);
      var m := After(s, before).value;
      AfterConcat(s, before, [DecideRead(n, Approved)]);
      AfterOne(m, DecideRead(n, Approved));
      es := before + [DecideRead(n, Approved)];
      var t := After(s, es).value;
      assert forall d: nat :: d < n && Approving(m, d) ==> Approving(t, d);
    }
  }

  /** Decider `d` puts, then resumer `d` looks, claims and runs the tools. */
  function Round(d: nat): seq<Event> {
    [DecidePut(d, ""), Look(d), Claim(d), RunTools(d)]
  }

  lemma {:induction false} OneRound(s: State, d: nat, n: nat)
    requires d <= n && AllHolding(s, d, n)
    ensures After(s, Round(d)).Some?
    ensures var t := After(s, Round(d)).value;
            && AllHolding(t, d + 1, n) && Claimed(t.row)
            && |t.runs| == |s.runs| + 1
            && t.erased == s.erased + if Claimed(s.row) then 1 else 0
  {
    assert Approving(s, d);
    var s1 := Next(s, DecidePut(d, "")).value;
    var s2 := Next(s1, Look(d)).value;
    var s3 := Next(s2, Claim(d)).value;
    var s4 := Next(s3, RunTools(d)).value;
    assert Round(d)[1..] == [Look(d), Claim(d), RunTools(d)];
    assert Round(d)[1..][1..] == [Claim(d), RunTools(d)];
    assert Round(d)[1..][1..][1..] == [RunTools(d)];
    assert Round(d)[1..][1..][1..][1..] == [];
    AfterOne(s3, RunTools(d));
    assert forall c: nat :: c != d && Approving(s, c) ==> Approving(s4, c);
    assert After(s2, [Claim(d), RunTools(d)]) == Some(s4);
    assert After(s1, [Look(d), Claim(d), RunTools(d)]) == Some(s4);
  }

  lemma {:induction false} Rounds(s: State, d: nat, n: nat) returns (es: seq<Event>)
    requires d <= n && AllHolding(s, d, n)
    requires Claimed(s.row)
    ensures After(s, es).Some?
    ensures var t := After(s, es).value;
            |t.runs| == |s.runs| + (n - d + 1) && t.erased == s.erased + (n - d + 1)
    decreases n - d
  {
    OneRound(s, d, n);
    var t := After(s, Round(d)).value;
    if d == n {
      es := Round(d);
    } else {
      var rest := Rounds(t, d + 1, n);
      AfterConcat(s, Round(d), rest);
      es := Round(d) + rest;
    }
  }

  /** For every n there is a run in which n puts wipe out a claim and the tools really
      do run n + 1 times: with n >= 1 this is the double execution that the claim
      alone does not prevent when a decider's read and put are split. */
  lemma {:induction false} ErasuresAllowReruns(s: State, n: nat) returns (es: seq<Event>)
    requires Requested(s)
    ensures After(s, es).Some?
    ensures var t := After(s, es).value; t.erased == n && |t.runs| == n + 1
  {
    var readers := ReadersFirst(s, n);
    var m := After(s, readers).value;
    OneRound(m, 0, n);
    AfterConcat(s, readers, Round(0));
    es := readers + Round(0);
    if n > 0 {
      var rest := Rounds(After(s, es).value, 1, n);
      AfterConcat(s, es, rest);
      es := es + rest;
    }
  }

  /** A put reopens a claimed review exactly when its read did not see the claim. */
  lemma {:induction false} PutReopensIff(s: State, d: nat, who: string)
    requires Next(s, DecidePut(d, who)).Some? && Claimed(s.row)
    ensures var t := Next(s, DecidePut(d, who)).value;
            && (!Claimed(t.row) <==> !s.deciders[d].read.resumedAt.At?)
            && (!Claimed(t.row) <==> t.erased == s.erased + 1)
  {}

  predicate Grants(v: Verdict) {
    v == Decided(Approved) || v == Decided(InfoRequested)
  }

  predicate StatusIs(row: Option<Row>, status: Status) {
    row.Some? && row.value.Row? && row.value.status == status
  }

  // ----- when a claimed review can still run again -----

  predicate IsGrant(status: Status) {
    status == Approved || status == InfoRequested
  }

  /** Decider d has read the row, without a claim, and has yet to put. */
  predicate OpenHolder(s: State, d: nat) {
    d in s.deciders && s.deciders[d].Holding? && !s.deciders[d].read.resumedAt.At?
  }

  ghost predicate SomeOpenHolder(s: State) {
    exists d :: OpenHolder(s, d)
  }

  predicate GrantLooked(s: State, p: nat) {
    p in s.resumers && s.resumers[p].Looked? && Grants(s.resumers[p].verdict)
  }

  predicate GrantHeld(s: State, d: nat) {
    d in s.deciders && s.deciders[d].Holding? && IsGrant(s.deciders[d].choice)
  }

  /** A granting verdict that somebody has, or may still come to have: a resumer has looked
      at one, the row holds one or is still pending, or a decider is about to put one. */
  ghost predicate SomeGrant(s: State) {
    || (exists p :: GrantLooked(s, p))
    || Undecided(s.row) || StatusIs(s.row, Approved) || StatusIs(s.row, InfoRequested)
    || (exists d :: GrantHeld(s, d))
  }

  predicate ResumerOk(s: State, p: nat)
    requires p in s.resumers
  {
    match s.resumers[p]
    case Looked(v) => (Grants(v) || v == Decided(Rejected) || v == TimedOut) && p !in s.winners
    case Won(v) => p in s.winners
    case Ran => p in s.winners
    case Refused(v) => p in s.winners
    case Lost => p !in s.winners
    case Waiting => p !in s.winners
  }

  predicate DeciderOk(s: State, d: nat)
    requires d in s.deciders
  {
    s.deciders[d].Holding? ==> Undecided(Some(s.deciders[d].read)) && s.deciders[d].choice != Pending
  }

  /** What every state of a requested review has in common. */
  ghost predicate Wellformed(s: State) {
    && s.row.Some? && s.row.value.Row?
    && (forall p :: p in s.winners ==> p in s.resumers)
    && (forall p :: p in s.runs ==> p in s.winners)
    && (forall p :: p in s.resumers ==> ResumerOk(s, p))
    && (forall d :: d in s.deciders ==> DeciderOk(s, d))
  }

  lemma {:induction false} WellformedStep(s: State, e: Event)
    requires Wellformed(s) && Next(s, e).Some?
    ensures Wellformed(Next(s, e).value)
  {
    var t := Next(s, e).value;
    forall p | p in t.resumers
      ensures ResumerOk(t, p)
    {
      assert p in s.resumers ==> ResumerOk(s, p);
    }
    forall d | d in t.deciders
      ensures DeciderOk(t, d)
    {
      assert d in s.deciders ==> DeciderOk(s, d);
    }
    if e.RunTools? {
      assert ResumerOk(s, e.p);
    }
  }

  lemma {:induction false} WellformedRun(s: State, es: seq<Event>)
    requires Wellformed(s) && After(s, es).Some?
    ensures Wellformed(After(s, es).value)
    decreases |es|
  {
    if es != [] {
      WellformedStep(s, es[0]);
      WellformedRun(Next(s, es[0]).value, es[1..]);
    }
  }

  /** A run after which a resume call that had not won before has run the tools. */
  ghost predicate Reruns(s: State, es: seq<Event>, p: nat) {
    After(s, es).Some? && p in After(s, es).value.runs && p !in s.winners
  }

  ghost predicate CanRerun(s: State) {
    exists es, p :: Reruns(s, es, p)
  }

  // ... never, without an open holder or without a grant

  /** Whoever is about to run the tools, or has, is among those winners. */
  ghost predicate OnlyThese(s: State, winners: seq<nat>) {
    && (forall p :: p in s.runs ==> p in winners)
    && (forall p :: p in s.resumers && s.resumers[p].Won? ==> p in winners)
  }

  ghost predicate Shut(s: State) {
    Claimed(s.row) && !SomeOpenHolder(s)
  }

  lemma {:induction false} ShutStep(s: State, e: Event, winners: seq<nat>)
    requires Wellformed(s) && Shut(s) && OnlyThese(s, winners) && Next(s, e).Some?
    ensures Shut(Next(s, e).value) && OnlyThese(Next(s, e).value, winners)
  {
    var t := Next(s, e).value;
    forall d
      ensures !OpenHolder(t, d)
    {
      assert !OpenHolder(s, d);
    }
    if e.DecidePut? {
      assert !OpenHolder(s, e.d);
    }
  }

  lemma {:induction false} GrantlessStep(s: State, e: Event, winners: seq<nat>)
    requires Wellformed(s) && !SomeGrant(s) && OnlyThese(s, winners) && Next(s, e).Some?
    ensures !SomeGrant(Next(s, e).value) && OnlyThese(Next(s, e).value, winners)
  {
    var t := Next(s, e).value;
    assert StatusIs(s.row, Rejected);
    forall p
      ensures !GrantLooked(t, p)
    {
      assert !GrantLooked(s, p);
    }
    forall d
      ensures !GrantHeld(t, d)
    {
      assert !GrantHeld(s, d);
    }
    if e.Claim? {
      assert !GrantLooked(s, e.p) && ResumerOk(s, e.p);
    }
    if e.DecidePut? {
      assert !GrantHeld(s, e.d) && DeciderOk(s, e.d);
    }
  }

  lemma {:induction false} NeverReruns(s: State, es: seq<Event>, winners: seq<nat>)
    requires Wellformed(s) && OnlyThese(s, winners) && After(s, es).Some?
    requires Shut(s) || !SomeGrant(s)
    ensures OnlyThese(After(s, es).value, winners)
    decreases |es|
  {
    if es != [] {
      WellformedStep(s, es[0]);
      if Shut(s) {
        ShutStep(s, es[0], winners);
      } else {
        GrantlessStep(s, es[0], winners);
      }
      NeverReruns(Next(s, es[0]).value, es[1..], winners);
    }
  }

  // ... otherwise by one of these schedules

  lemma {:induction false} FreshId(ids: set<nat>) returns (id: nat)
    ensures forall i :: i in ids ==> i < id
  {
    id := 0;
    var rest := ids;
    while rest != {}
      invariant rest <= ids && forall i :: i in ids && i !in rest ==> i < id
      decreases |rest|
    {
      var i :| i in rest;
      rest := rest - {i};
      id := if i < id then id else i + 1;
    }
  }

  lemma {:induction false} AfterCons(s: State, e: Event, es: seq<Event>)
    requires Next(s, e).Some?
    ensures After(s, [e] + es) == After(Next(s, e).value, es)
  {
    assert ([e] + es)[1..] == es;
  }

  /** An unclaimed row lets a resumer with a granting verdict through. */
  lemma {:induction false} ClaimAndRun(s: State, p: nat)
    requires Wellformed(s) && GrantLooked(s, p) && !Claimed(s.row)
    ensures Reruns(s, [Claim(p)] + [RunTools(p)], p)
  {
    var s1 := Next(s, Claim(p)).value;
    AfterCons(s, Claim(p), [RunTools(p)]);
    AfterOne(s1, RunTools(p));
    assert ResumerOk(s, p);
  }

  lemma {:induction false} LookedReruns(s: State, p: nat, d: nat) returns (es: seq<Event>)
    requires Wellformed(s) && GrantLooked(s, p) && OpenHolder(s, d)
    ensures Reruns(s, es, p)
  {
    assert DeciderOk(s, d);
    var put := DecidePut(d, "");
    var s1 := Next(s, put).value;
    if Claimed(s.row) {
      PutReopensIff(s, d, "");
    }
    WellformedStep(s, put);
    ClaimAndRun(s1, p);
    es := [put] + ([Claim(p)] + [RunTools(p)]);
    AfterCons(s, put, [Claim(p)] + [RunTools(p)]);
  }

  lemma {:induction false} NewLook(s: State) returns (p: nat)
    requires Wellformed(s) && (StatusIs(s.row, Approved) || StatusIs(s.row, InfoRequested))
    ensures p !in s.winners && Next(s, Look(p)).Some?
    ensures var t := Next(s, Look(p)).value; Wellformed(t) && GrantLooked(t, p) && t == s.(resumers := t.resumers)
  {
    p := FreshId(s.resumers.Keys);
    WellformedStep(s, Look(p));
  }

  lemma {:induction false} RowReruns(s: State, d: nat) returns (es: seq<Event>, p: nat)
    requires Wellformed(s) && (StatusIs(s.row, Approved) || StatusIs(s.row, InfoRequested)) && OpenHolder(s, d)
    ensures Reruns(s, es, p)
  {
    p := NewLook(s);
    var rest := LookedReruns(Next(s, Look(p)).value, p, d);
    AfterCons(s, Look(p), rest);
    es := [Look(p)] + rest;
  }

  lemma {:induction false} PendingReruns(s: State, d: nat) returns (es: seq<Event>, p: nat)
    requires Wellformed(s) && Undecided(s.row) && OpenHolder(s, d)
    ensures Reruns(s, es, p)
  {
    var e := DecideAtomic(Approved, "");
    WellformedStep(s, e);
    var rest;
    rest, p := RowReruns(Next(s, e).value, d);
    AfterCons(s, e, rest);
    es := [e] + rest;
  }

  lemma {:induction false} HeldReruns(s: State, d: nat, other: nat) returns (es: seq<Event>, p: nat)
    requires Wellformed(s) && GrantHeld(s, other) && OpenHolder(s, d)
    ensures Reruns(s, es, p)
  {
    assert DeciderOk(s, other);
    var put := DecidePut(other, "");
    var s1 := Next(s, put).value;
    WellformedStep(s, put);
    var rest;
    if other == d {
      p := NewLook(s1);
      ClaimAndRun(Next(s1, Look(p)).value, p);
      rest := [Look(p)] + ([Claim(p)] + [RunTools(p)]);
      AfterCons(s1, Look(p), [Claim(p)] + [RunTools(p)]);
    } else {
      rest, p := RowReruns(s1, d);
    }
    AfterCons(s, put, rest);
    es := [put] + rest;
  }

  lemma {:induction false} OpenAndGrantRerun(s: State)
    requires Wellformed(s) && SomeOpenHolder(s) && SomeGrant(s)
    ensures CanRerun(s)
  {
    var d :| OpenHolder(s, d);
    var es, p;
    if exists q :: GrantLooked(s, q) {
      p :| GrantLooked(s, p);
      es := LookedReruns(s, p, d);
    } else if exists c :: GrantHeld(s, c) {
      var c :| GrantHeld(s, c);
      es, p := HeldReruns(s, d, c);
    } else if Undecided(s.row) {
      es, p := PendingReruns(s, d);
    } else {
      es, p := RowReruns(s, d);
    }
    assert Reruns(s, es, p);
  }

  /** From a claimed state of a review, whatever has happened before, the tools can be run by
      a further resume call if and only if some decider holds a read of the row without the
      claim, and a granting verdict is there or can still come. Without that nothing anybody
      does runs them again. */
  lemma {:induction false} RerunsIff(s: State, before: seq<Event>)
    requires Requested(s) && After(s, before).Some? && Claimed(After(s, before).value.row)
    ensures var m := After(s, before).value;
            CanRerun(m) <==> SomeOpenHolder(m) && SomeGrant(m)
  {
    var m := After(s, before).value;
    assert Wellformed(s);
    WellformedRun(s, before);
    if SomeOpenHolder(m) && SomeGrant(m) {
      OpenAndGrantRerun(m);
    } else if CanRerun(m) {
      var es, p :| Reruns(m, es, p);
      forall q | q in m.resumers && m.resumers[q].Won?
        ensures q in m.winners
      {
        assert ResumerOk(m, q);
      }
      NeverReruns(m, es, m.winners);
    }
  }

  // ----- runs in which every decision is atomic -----

  predicate DecidesAtomically(es: seq<Event>) {
    forall e :: e in es ==> !e.DecideRead? && !e.DecidePut?
  }

  predicate Agrees(row: Option<Row>, v: Verdict) {
    v == TimedOut || (v.Decided? && v.status != Pending && StatusIs(row, v.status))
  }

  /** The row is a real one, at most one claim was made, and nobody is between a read
      and a put. */
  predicate AtomicRow(s: State) {
    && s.deciders == map[] && s.erased == 0
    && s.row.Some? && s.row.value.Row?
    && |s.winners| == (if Claimed(s.row) then 1 else 0)
  }

  /** Resumer p's knowledge is still true of the row, and what it did is the history. */
  predicate AtomicResumer(s: State, p: nat)
    requires p in s.resumers
  {
    match s.resumers[p]
    case Looked(v) => Agrees(s.row, v)
    case Won(v) => s.winners == [p] && s.runs == [] && Agrees(s.row, v) && Grants(v)
    case Refused(v) => s.winners == [p] && s.runs == []
    case _ => true
  }

  predicate AtomicRuns(s: State) {
    s.runs != [] ==>
      && |s.runs| == 1 && s.winners == s.runs
      && (StatusIs(s.row, Approved) || StatusIs(s.row, InfoRequested))
  }

  ghost predicate AtomicInv(s: State) {
    AtomicRow(s) && AtomicRuns(s) && forall p :: p in s.resumers ==> AtomicResumer(s, p)
  }

  lemma {:induction false} AtomicInvStep(s: State, e: Event)
    requires AtomicInv(s) && Next(s, e).Some? && !e.DecideRead? && !e.DecidePut?
    ensures AtomicInv(Next(s, e).value)
  {
    var t := Next(s, e).value;
    forall p | p in t.resumers
      ensures AtomicResumer(t, p)
    {
      assert p in s.resumers ==> AtomicResumer(s, p);
      if e.Claim? || e.RunTools? {
        assert AtomicResumer(s, e.p);
      }
    }
    if e.RunTools? {
      assert AtomicResumer(s, e.p);
    }
  }

  lemma {:induction false} DecisionsStay(s: State, e: Event)
    requires AtomicInv(s) && Next(s, e).Some? && !e.DecideRead? && !e.DecidePut?
    ensures StaysDecided(s, Next(s, e).value)
  {}

  /** What no later step of an atomic run undoes: a decision, and a refusal. */
  ghost predicate StaysDecided(s: State, t: State) {
    && (forall st :: st != Pending && StatusIs(s.row, st) ==> StatusIs(t.row, st))
    && (forall p :: p in s.resumers && s.resumers[p].Refused? ==> p in t.resumers && t.resumers[p] == s.resumers[p])
  }

  lemma {:induction false} AtomicInvRun(s: State, es: seq<Event>)
    requires AtomicInv(s) && After(s, es).Some? && DecidesAtomically(es)
    ensures AtomicInv(After(s, es).value)
    ensures StaysDecided(s, After(s, es).value)
    decreases |es|
  {
    if es != [] {
      AtomicInvStep(s, es[0]);
      DecisionsStay(s, es[0]);
      assert forall e :: e in es[1..] ==> e in es;
      AtomicInvRun(Next(s, es[0]).value, es[1..]);
    }
  }

  /** With atomic decisions, any number of racing resume calls run the tools at most
      once, and only while the stored status is approved or info_requested. */
  lemma {:induction false} ToolsRunAtMostOnce(s: State, es: seq<Event>)
    requires Requested(s) && After(s, es).Some? && DecidesAtomically(es)
    ensures var t := After(s, es).value;
            && |t.runs| <= |t.winners| <= 1
            && (t.runs != [] ==> StatusIs(t.row, Approved) || StatusIs(t.row, InfoRequested))
  {
    AtomicInvRun(s, es);
  }

  /** Once a review is recorded rejected, or the resume call that claimed it reported a
      timeout, the tools have not run and never will, whatever anybody does later. */
  lemma {:induction false} RefusalIsFinal(s: State, before: seq<Event>, later: seq<Event>)
    requires Requested(s) && DecidesAtomically(before) && DecidesAtomically(later)
    requires After(s, before).Some? && After(After(s, before).value, later).Some?
    requires var m := After(s, before).value;
             StatusIs(m.row, Rejected) || exists p :: p in m.resumers && m.resumers[p] == Refused(TimedOut)
    ensures After(After(s, before).value, later).value.runs == []
  {
    AtomicInvRun(s, before);
    AtomicInvRun(After(s, before).value, later);
  }

  /** The code's grant is wider than "approved": a review answered only with a request
      for more information is claimed and run like an approved one. */
  lemma {:induction false} InfoRequestRunsTools(s: State) returns (es: seq<Event>)
    requires Requested(s)
    ensures DecidesAtomically(es) && After(s, es).Some?
    ensures var t := After(s, es).value; |t.runs| == 1 && StatusIs(t.row, InfoRequested)
  {
    es := [DecideAtomic(InfoRequested, ""), Look(0), Claim(0), RunTools(0)];
    var s1 := Next(s, es[0]).value;
    var s2 := Next(s1, es[1]).value;
    var s3 := Next(s2, es[2]).value;
    var s4 := Next(s3, es[3]).value;
    assert After(s4, es[1..][1..][1..][1..]) == Some(s4);
    assert After(s3, es[1..][1..][1..]) == Some(s4);
    assert After(s2, es[1..][1..]) == Some(s4);
    assert After(s1, es[1..]) == Some(s4);
  }
}
