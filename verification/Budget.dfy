/** The monthly cost budget of one agent (services/agent-runtime/quota.py): its spend is kept
    in the agent's record, which the registry store also rewrites as a whole. */
module Budget {
  import opened Common

  /** The agent record's spend fields; periods are numbered months. */
  datatype Spend = Spend(amount: real, period: Option<int>)

  function WithinBudget(row: Spend, budget: Option<real>, current: int): bool {
    budget.None? || row.period != Some(current) || row.amount <= budget.value
  }

  function Recorded(row: Spend, cost: real, period: int): Spend {
    if row.period == Some(period) then row.(amount := row.amount + cost) else Spend(cost, Some(period))
  }

  /** Whether a cost reaches the record: by the ADD if the record is of its period, else,
      once the ADD has been refused, by the SET. */
  predicate Lands(row: Spend, period: int, add: Remote, reset: Remote) {
    if row.period == Some(period) then Takes(add) else add.Works? && Takes(reset)
  }

  // ----- single updates -----

  datatype Charge = Charge(cost: real, period: int)

  /** A SET still to come; a store's copy of the record. `at` is how many charges had landed
      that it takes account of. */
  datatype Pending = Pending(cost: real, period: int, at: nat)

  datatype Held = Held(row: Spend, at: nat)

  /** A write that replaced the record: how many charges it takes account of, and how many
      had landed when it did. */
  datatype Gap = Gap(from: nat, upTo: nat)

  /** The record; the recorders whose ADD was refused; the store operations that have read
      it; the charges that landed; and the writes that replaced it. */
  datatype Ledger = Ledger(row: Spend, pending: map<nat, Pending>, held: map<nat, Held>, done: seq<Charge>, gaps: seq<Gap>)

  const EMPTY := Ledger(Spend(0.0, None), map[], map[], [], [])

  datatype Update =
    | TryAdd(id: nat, cost: real, period: int, reply: Remote)
    | Reset(id: nat, reply: Remote)
    | StoreRead(writer: nat)
    | StorePut(writer: nat)

  /** A SET takes account of the charges landed when its ADD was refused; one for a month
      gone by takes account of none, as it turns the record back to before the later months. */
  function Seen(l: Ledger, period: int): nat {
    if l.row.period.Some? && l.row.period.value > period then 0 else |l.done|
  }

  function Add(l: Ledger, id: nat, cost: real, period: int, reply: Remote): Ledger {
    if l.row.period == Some(period) then
      if Takes(reply) then l.(row := l.row.(amount := l.row.amount + cost), done := l.done + [Charge(cost, period)]) else l
    else if reply.Works? then l.(pending := l.pending[id := Pending(cost, period, Seen(l, period))])
    else l
  }

  function Set(l: Ledger, id: nat, reply: Remote): Ledger
    requires id in l.pending
  {
    var p := l.pending[id];
    var m := l.(pending := l.pending - {id});
    if !Takes(reply) then m
    else m.(row := Spend(p.cost, Some(p.period)), done := l.done + [Charge(p.cost, p.period)], gaps := l.gaps + [Gap(p.at, |l.done|)])
  }

  /** One update; one that cannot happen here changes nothing. */
  function Next(l: Ledger, u: Update): Ledger {
    match u
    case TryAdd(id, cost, period, reply) => if cost <= 0.0 || id in l.pending then l else Add(l, id, cost, period, reply)
    case Reset(id, reply) => if id in l.pending then Set(l, id, reply) else l
    case StoreRead(w) => l.(held := l.held[w := Held(l.row, |l.done|)])
    case StorePut(w) =>
      if w !in l.held then l
      else l.(row := l.held[w].row, held := l.held - {w}, gaps := l.gaps + [Gap(l.held[w].at, |l.done|)])
  }

  function After(l: Ledger, us: seq<Update>): Ledger
    decreases |us|
  {
    if us == [] then l else Next(After(l, us[..|us| - 1]), us[|us| - 1])
  }

  lemma {:induction false} AfterSnoc(l: Ledger, us: seq<Update>, u: Update)
    ensures After(l, us + [u]) == Next(After(l, us), u)
  {
    assert (us + [u])[..|us|] == us;
  }

  lemma {:induction false} AfterConcat(l: Ledger, a: seq<Update>, b: seq<Update>)
    ensures After(l, a + b) == After(After(l, a), b)
    decreases |b|
  {
    if b == [] {
      assert a + b == a;
    } else {
      assert (a + b)[..|a + b| - 1] == a + b[..|b| - 1];
      AfterConcat(l, a, b[..|b| - 1]);
    }
  }

  lemma {:induction false} AfterOne(l: Ledger, u: Update)
    ensures After(l, [u]) == Next(l, u)
  {
    assert [u][..0] == [];
  }

  predicate Leaves(us: seq<Update>, id: nat) {
    forall k :: 0 <= k < |us| ==> !(us[k].Reset? && us[k].id == id)
  }

  lemma {:induction false} OthersLeave(l: Ledger, us: seq<Update>, id: nat)
    requires id in l.pending && Leaves(us, id)
    ensures id in After(l, us).pending && After(l, us).pending[id] == l.pending[id]
    decreases |us|
  {
    if us != [] {
      OthersLeave(l, us[..|us| - 1], id);
      assert Leaves([us[|us| - 1]], id);
    }
  }

  class AgentRecord {
    var l: Ledger

    constructor ()
      ensures l == EMPTY == Ledger(Spend(0.0, None), map[], map[], [], [])
    {
      l := EMPTY;
    }

    method CheckMonthlyBudget(budget: Option<real>, current: int) returns (ok: bool)
      ensures ok == WithinBudget(l.row, budget, current)
      ensures ok <==> !(budget.Some? && l.row.period == Some(current) && l.row.amount > budget.value)
    {
      if budget.None? {
        return true;
      }
      if l.row.period != Some(current) {
        return true;
      }
      return l.row.amount <= budget.value;
    }

    /** Other recorders and the store, while this one waits. */
    method Await(us: seq<Update>)
      modifies this
      ensures l == After(old(l), us)
    {
      for k := 0 to |us|
        invariant l == After(old(l), us[..k])
      {
        assert us[..k + 1] == us[..k] + [us[k]];
        AfterSnoc(old(l), us[..k], us[k]);
        l := Next(l, us[k]);
      }
      assert us[..|us|] == us;
    }

    /** The conditional ADD: refused when the record is not of the period. */
    method AddSpend(id: nat, cost: real, period: int, reply: Remote) returns (refused: bool)
      requires cost > 0.0 && id !in l.pending
      modifies this
      ensures l == Next(old(l), TryAdd(id, cost, period, reply))
      ensures refused <==> old(l.row).period != Some(period) && reply.Works?
      ensures refused ==> l == old(l).(pending := old(l).pending[id := Pending(cost, period, Seen(old(l), period))])
      ensures !refused ==> l.pending == old(l).pending
    {
      refused := false;
      if l.row.period == Some(period) {
        if Takes(reply) {
          l := l.(row := l.row.(amount := l.row.amount + cost), done := l.done + [Charge(cost, period)]);
        }
      } else if reply.Works? {
        l := l.(pending := l.pending[id := Pending(cost, period, Seen(l, period))]);
        refused := true;
      }
    }

    /** The SET that starts a period. */
    method StartPeriod(id: nat, reply: Remote)
      requires id in l.pending
      modifies this
      ensures l == Next(old(l), Reset(id, reply)) && id !in l.pending
    {
      var p := l.pending[id];
      l := l.(pending := l.pending - {id});
      if Takes(reply) {
        l := l.(row := Spend(p.cost, Some(p.period)), done := l.done + [Charge(p.cost, p.period)], gaps := l.gaps + [Gap(p.at, |l.done|)]);
      }
    }

    /** A run of these updates whatever happens between its two; undisturbed, the cost is
        recorded exactly when it lands, and no failure reaches the caller. */
    method RecordLlmCost(id: nat, cost: Option<real>, period: int, add: Remote, reset: Remote, between: seq<Update>)
      returns (ghost trace: seq<Update>)
      requires id !in l.pending && Leaves(between, id)
      modifies this
      ensures l == After(old(l), trace) && id !in l.pending
      ensures cost.None? || cost.value <= 0.0 ==> trace == []
      // undisturbed: added to a record of this period, else, once that is refused, starting it anew
      ensures between == [] && cost.Some? && cost.value > 0.0 ==>
                l.row == (if old(l.row).period == Some(period) then
                            if add == Raises(false) then old(l.row) else Spend(old(l.row).amount + cost.value, Some(period))
                          else if add == Works && reset != Raises(false) then Spend(cost.value, Some(period)) else old(l.row))
      ensures between == [] && cost.Some? && cost.value > 0.0 ==>
                var lands := Lands(old(l.row), period, add, reset);
                && l.row == (if lands then Recorded(old(l.row), cost.value, period) else old(l.row))
                && l.done == old(l.done) + if lands then [Charge(cost.value, period)] else []
    {
      if cost.None? || cost.value <= 0.0 {
        return [];
      }
      ghost var was := l;
      trace := [TryAdd(id, cost.value, period, add)];
      AfterOne(was, trace[0]);
      var refused := AddSpend(id, cost.value, period, add);
      if refused {
        ghost var mid := l;
        OthersLeave(mid, between, id);
        AfterConcat(was, trace, between);
        Await(between);
        AfterSnoc(was, trace + between, Reset(id, reset));
        trace := trace + between + [Reset(id, reset)];
        StartPeriod(id, reset);
      }
    }
  }

  // ----- what the record shows -----

  function SpentIn(cs: seq<Charge>, period: int): real {
    if cs == [] then 0.0
    else SpentIn(cs[..|cs| - 1], period) + if cs[|cs| - 1].period == period then cs[|cs| - 1].cost else 0.0
  }

  function Shown(row: Spend, period: int): real {
    if row.period == Some(period) then row.amount else 0.0
  }

  predicate Well(done: seq<Charge>, gaps: seq<Gap>) {
    forall g :: g in gaps ==> g.from <= g.upTo <= |done|
  }

  /** The charges of a period that landed without being taken account of by a write that then
      replaced the record, over all such writes. */
  function Lost(done: seq<Charge>, gaps: seq<Gap>, period: int): real
    requires Well(done, gaps)
  {
    if gaps == [] then 0.0
    else
      assert forall g :: g in gaps[..|gaps| - 1] ==> g in gaps;
      var g := gaps[|gaps| - 1];
      Lost(done, gaps[..|gaps| - 1], period) + SpentIn(done[g.from..g.upTo], period)
  }

  predicate AllPositive(cs: seq<Charge>) {
    forall c :: c in cs ==> c.cost > 0.0
  }

  lemma {:induction false} SpentNotNegative(cs: seq<Charge>, period: int)
    requires AllPositive(cs)
    ensures SpentIn(cs, period) >= 0.0
  {
    if cs != [] {
      assert cs[|cs| - 1] in cs && forall c :: c in cs[..|cs| - 1] ==> c in cs;
      SpentNotNegative(cs[..|cs| - 1], period);
    }
  }

  lemma {:induction false} SpentSnoc(cs: seq<Charge>, c: Charge, period: int)
    ensures SpentIn(cs + [c], period) == SpentIn(cs, period) + if c.period == period then c.cost else 0.0
  {
    assert (cs + [c])[..|cs|] == cs;
  }

  lemma {:induction false} SpentConcat(a: seq<Charge>, b: seq<Charge>, period: int)
    ensures SpentIn(a + b, period) == SpentIn(a, period) + SpentIn(b, period)
    decreases |b|
  {
    if b == [] {
      assert a + b == a;
    } else {
      assert (a + b)[..|a + b| - 1] == a + b[..|b| - 1];
      SpentConcat(a, b[..|b| - 1], period);
    }
  }

  lemma {:induction false} SpentSplit(cs: seq<Charge>, at: nat, period: int)
    requires at <= |cs|
    ensures SpentIn(cs, period) == SpentIn(cs[..at], period) + SpentIn(cs[at..], period)
  {
    SpentConcat(cs[..at], cs[at..], period);
    assert cs[..at] + cs[at..] == cs;
  }

  lemma {:induction false} LostGrows(done: seq<Charge>, gaps: seq<Gap>, c: Charge, period: int)
    requires Well(done, gaps)
    ensures Lost(done + [c], gaps, period) == Lost(done, gaps, period)
    decreases |gaps|
  {
    if gaps != [] {
      assert forall g :: g in gaps[..|gaps| - 1] ==> g in gaps;
      var g := gaps[|gaps| - 1];
      assert g in gaps && (done + [c])[g.from..g.upTo] == done[g.from..g.upTo];
      LostGrows(done, gaps[..|gaps| - 1], c, period);
    }
  }

  lemma {:induction false} LostSnoc(done: seq<Charge>, gaps: seq<Gap>, g: Gap, period: int)
    requires Well(done, gaps + [g])
    ensures Well(done, gaps)
    ensures Lost(done, gaps + [g], period) == Lost(done, gaps, period) + SpentIn(done[g.from..g.upTo], period)
  {
    assert forall h :: h in gaps ==> h in gaps + [g];
    assert (gaps + [g])[..|gaps|] == gaps && g in gaps + [g];
  }

  /** A copy of the record, taken when `at` charges had landed, shows no more than they are. */
  predicate NoMore(row: Spend, done: seq<Charge>, at: nat) {
    at <= |done| && 0.0 <= row.amount && (row.period.Some? ==> row.amount <= SpentIn(done[..at], row.period.value))
  }

  /** It shows no less than those of a period, up to what replacing writes have lost. */
  predicate NoLess(row: Spend, l: Ledger, at: nat, period: int)
    requires at <= |l.done| && Well(l.done, l.gaps)
  {
    row.period.None? || row.period.value <= period ==>
      SpentIn(l.done[..at], period) <= Shown(row, period) + Lost(l.done, l.gaps, period)
  }

  ghost predicate Inv(l: Ledger) {
    && AllPositive(l.done) && Well(l.done, l.gaps)
    && (forall id :: id in l.pending ==> l.pending[id].cost > 0.0 && l.pending[id].at <= |l.done|)
    && NoMore(l.row, l.done, |l.done|)
    && (forall w :: w in l.held ==> NoMore(l.held[w].row, l.done, l.held[w].at))
  }

  lemma {:induction false} NoMoreLater(row: Spend, done: seq<Charge>, c: Charge, at: nat)
    requires AllPositive(done) && NoMore(row, done, at)
    ensures NoMore(row, done + [c], at) && NoMore(row, done, |done|)
  {
    assert (done + [c])[..at] == done[..at] && done[..|done|] == done;
    if row.period.Some? {
      SpentSplit(done, at, row.period.value);
      assert forall d :: d in done[at..] ==> d in done;
      SpentNotNegative(done[at..], row.period.value);
    }
  }

  /** A charge that lands, by an ADD or by a SET. */
  lemma {:induction false} LandKeeps(l: Ledger, row: Spend, c: Charge, gaps: seq<Gap>)
    requires Inv(l) && c.cost > 0.0 && Well(l.done, gaps)
    requires row == Recorded(l.row, c.cost, c.period) || row == Spend(c.cost, Some(c.period))
    ensures Inv(l.(row := row, done := l.done + [c], gaps := gaps))
  {
    var t := l.(row := row, done := l.done + [c], gaps := gaps);
    SpentSnoc(l.done, c, c.period);
    SpentNotNegative(l.done, c.period);
    assert t.done[..|t.done|] == t.done && l.done[..|l.done|] == l.done;
    forall w | w in t.held
      ensures NoMore(t.held[w].row, t.done, t.held[w].at)
    {
      NoMoreLater(l.held[w].row, l.done, c, l.held[w].at);
    }
  }

  lemma {:induction false} InvStep(l: Ledger, u: Update)
    requires Inv(l)
    ensures Inv(Next(l, u))
  {
    match u
    case TryAdd(id, cost, period, reply) =>
      if cost > 0.0 && l.row.period == Some(period) && id !in l.pending && Takes(reply) {
        LandKeeps(l, Recorded(l.row, cost, period), Charge(cost, period), l.gaps);
      }
    case Reset(id, reply) =>
      if id in l.pending && Takes(reply) {
        var p := l.pending[id];
        LandKeeps(l.(pending := l.pending - {id}), Spend(p.cost, Some(p.period)), Charge(p.cost, p.period), l.gaps + [Gap(p.at, |l.done|)]);
      }
    case StoreRead(w) =>
    case StorePut(w) =>
      if w in l.held {
        NoMoreLater(l.held[w].row, l.done, Charge(1.0, 0), l.held[w].at);
      }
  }

  // ----- how much less it shows -----

  /** What a SET takes account of, the record did not show of its month or a later one. */
  predicate PendingOk(l: Ledger, p: Pending, period: int)
    requires p.at <= |l.done| && Well(l.done, l.gaps)
  {
    p.period <= period ==> SpentIn(l.done[..p.at], period) <= Lost(l.done, l.gaps, period)
  }

  ghost predicate Tracks(l: Ledger, period: int)
    requires Inv(l)
  {
    && NoLess(l.row, l, |l.done|, period)
    && (forall w :: w in l.held ==> NoLess(l.held[w].row, l, l.held[w].at, period))
    && (forall id :: id in l.pending ==> PendingOk(l, l.pending[id], period))
  }

  lemma {:induction false} LostNotNegative(done: seq<Charge>, gaps: seq<Gap>, period: int)
    requires AllPositive(done) && Well(done, gaps)
    ensures Lost(done, gaps, period) >= 0.0
    decreases |gaps|
  {
    if gaps != [] {
      assert forall g :: g in gaps[..|gaps| - 1] ==> g in gaps;
      var g := gaps[|gaps| - 1];
      assert g in gaps && forall c :: c in done[g.from..g.upTo] ==> c in done;
      SpentNotNegative(done[g.from..g.upTo], period);
      LostNotNegative(done, gaps[..|gaps| - 1], period);
    }
  }

  /** Copies and refusals of before stay as good when a charge lands or a write loses more. */
  lemma {:induction false} EarlierStay(l: Ledger, done: seq<Charge>, gaps: seq<Gap>, at: nat, period: int)
    requires Inv(l) && at <= |l.done| && Well(done, gaps) && AllPositive(done)
    requires (exists c :: done == l.done + [c]) || done == l.done
    requires gaps == l.gaps || exists g :: gaps == l.gaps + [g]
    ensures done[..at] == l.done[..at]
    ensures Lost(done, gaps, period) >= Lost(l.done, l.gaps, period)
  {
    assert done[..at] == l.done[..at];
    if done != l.done {
      var c :| done == l.done + [c];
      assert Well(done, l.gaps);
      LostGrows(l.done, l.gaps, c, period);
    }
    if gaps != l.gaps {
      var g :| gaps == l.gaps + [g];
      LostSnoc(done, l.gaps, g, period);
      assert g in gaps && forall c :: c in done[g.from..g.upTo] ==> c in done;
      SpentNotNegative(done[g.from..g.upTo], period);
    }
  }

  lemma {:induction false} OthersTrack(l: Ledger, t: Ledger, period: int)
    requires Inv(l) && Inv(t) && Tracks(l, period)
    requires (exists c :: t.done == l.done + [c]) || t.done == l.done
    requires t.gaps == l.gaps || exists g :: t.gaps == l.gaps + [g]
    ensures forall w :: w in t.held && w in l.held && t.held[w] == l.held[w] ==> NoLess(t.held[w].row, t, t.held[w].at, period)
    ensures forall id :: id in t.pending && id in l.pending && t.pending[id] == l.pending[id] ==> PendingOk(t, t.pending[id], period)
  {
    forall w | w in t.held && w in l.held && t.held[w] == l.held[w]
      ensures NoLess(t.held[w].row, t, t.held[w].at, period)
    {
      EarlierStay(l, t.done, t.gaps, l.held[w].at, period);
    }
    forall id | id in t.pending && id in l.pending && t.pending[id] == l.pending[id]
      ensures PendingOk(t, t.pending[id], period)
    {
      EarlierStay(l, t.done, t.gaps, l.pending[id].at, period);
    }
  }

  lemma {:induction false} AddLands(l: Ledger, t: Ledger, c: Charge, p: int)
    requires Inv(l) && Inv(t) && Tracks(l, p) && c.cost > 0.0 && l.row.period == Some(c.period)
    requires t == l.(row := Recorded(l.row, c.cost, c.period), done := l.done + [c])
    ensures NoLess(t.row, t, |t.done|, p)
  {
    SpentSnoc(l.done, c, p);
    LostGrows(l.done, l.gaps, c, p);
    assert t.done[..|t.done|] == t.done && l.done[..|l.done|] == l.done;
  }

  lemma {:induction false} AddTracks(l: Ledger, id: nat, cost: real, period: int, reply: Remote, p: int)
    requires Inv(l) && Tracks(l, p) && cost > 0.0 && id !in l.pending
    ensures var t := Next(l, TryAdd(id, cost, period, reply)); Inv(t) && Tracks(t, p)
  {
    var t := Next(l, TryAdd(id, cost, period, reply));
    InvStep(l, TryAdd(id, cost, period, reply));
    OthersTrack(l, t, p);
    if t.done != l.done {
      AddLands(l, t, Charge(cost, period), p);
    } else if id in t.pending {
      RefusedShowsNothing(l, t.pending[id], p);
    }
  }

  lemma {:induction false} RefusedShowsNothing(l: Ledger, q: Pending, p: int)
    requires Inv(l) && Tracks(l, p) && q.at == Seen(l, q.period) && l.row.period != Some(q.period)
    ensures PendingOk(l, q, p)
  {
    LostNotNegative(l.done, l.gaps, p);
    assert l.done[..|l.done|] == l.done && l.done[..0] == [];
  }

  lemma {:induction false} SetTracks(l: Ledger, id: nat, p: int)
    requires Inv(l) && Tracks(l, p) && id in l.pending
    ensures var t := Next(l, Reset(id, Works)); Inv(t) && NoLess(t.row, t, |t.done|, p)
  {
    var q, t := l.pending[id], Next(l, Reset(id, Works));
    InvStep(l, Reset(id, Works));
    var c, g := Charge(q.cost, q.period), Gap(q.at, |l.done|);
    assert t.done == l.done + [c] && t.gaps == l.gaps + [g];
    assert t.done[..|t.done|] == t.done;
    SpentSnoc(l.done, c, p);
    SpentSplit(l.done, q.at, p);
    LostGrows(l.done, l.gaps, c, p);
    LostSnoc(t.done, l.gaps, g, p);
    assert t.done[g.from..g.upTo] == l.done[q.at..];
  }

  lemma {:induction false} PutTracks(l: Ledger, w: nat, p: int)
    requires Inv(l) && Tracks(l, p) && w in l.held
    ensures var t := Next(l, StorePut(w)); Inv(t) && NoLess(t.row, t, |t.done|, p)
  {
    var h, t := l.held[w], Next(l, StorePut(w));
    InvStep(l, StorePut(w));
    var g := Gap(h.at, |l.done|);
    SpentSplit(l.done, h.at, p);
    LostSnoc(l.done, l.gaps, g, p);
    assert l.done[h.at..|l.done|] == l.done[h.at..] && t.done[..|t.done|] == t.done;
  }

  lemma {:induction false} TracksStep(l: Ledger, u: Update, p: int)
    requires Inv(l) && Tracks(l, p)
    ensures Inv(Next(l, u)) && Tracks(Next(l, u), p)
  {
    var t := Next(l, u);
    InvStep(l, u);
    match u
    case TryAdd(id, cost, period, reply) =>
      if cost > 0.0 && id !in l.pending {
        AddTracks(l, id, cost, period, reply, p);
      }
    case Reset(id, reply) =>
      if id in l.pending {
        if Takes(reply) {
          assert t == Next(l, Reset(id, Works));
          SetTracks(l, id, p);
        } else {
          assert t.row == l.row && t.done == l.done && t.gaps == l.gaps;
        }
        OthersTrack(l, t, p);
      }
    case StoreRead(w) =>
      OthersTrack(l, t, p);
    case StorePut(w) =>
      if w in l.held {
        PutTracks(l, w, p);
        OthersTrack(l, t, p);
      }
  }

  /** However recorders, failing anywhere, interleave their two updates with each other and
      with whole-record writes of the store: the record never shows more than was charged in
      its period; and, of its own or a later period, no less than was charged except what
      landed without being taken account of by a write that then replaced the record. */
  lemma {:induction false} SpendTracksCharges(us: seq<Update>, period: int)
    ensures var l := After(EMPTY, us);
            && Well(l.done, l.gaps)
            && (l.row.period.Some? ==> l.row.amount <= SpentIn(l.done, l.row.period.value))
            && (l.row.period.None? || l.row.period.value <= period ==>
                  SpentIn(l.done, period) - Lost(l.done, l.gaps, period) <= Shown(l.row, period) <= SpentIn(l.done, period))
  {
    var l := After(EMPTY, us);
    Reached(us, period);
    SpentNotNegative(l.done, period);
    assert l.done[..|l.done|] == l.done;
  }

  lemma {:induction false} Reached(us: seq<Update>, period: int)
    ensures Inv(After(EMPTY, us)) && Tracks(After(EMPTY, us), period)
  {
    if us != [] {
      Reached(us[..|us| - 1], period);
      TracksStep(After(EMPTY, us[..|us| - 1]), us[|us| - 1], period);
    }
  }

  predicate Untouched(l: Ledger, period: int) {
    Well(l.done, l.gaps) && forall g, k :: g in l.gaps && g.from <= k < g.upTo ==> l.done[k].period != period
  }

  lemma {:induction false} NothingLost(done: seq<Charge>, gaps: seq<Gap>, period: int)
    requires Well(done, gaps) && forall g, k :: g in gaps && g.from <= k < g.upTo ==> done[k].period != period
    ensures Lost(done, gaps, period) == 0.0
    decreases |gaps|
  {
    if gaps != [] {
      assert forall g :: g in gaps[..|gaps| - 1] ==> g in gaps;
      var g := gaps[|gaps| - 1];
      assert g in gaps;
      NothingLost(done, gaps[..|gaps| - 1], period);
      SpentElsewhere(done[g.from..g.upTo], period);
    }
  }

  lemma {:induction false} SpentElsewhere(cs: seq<Charge>, period: int)
    requires forall k :: 0 <= k < |cs| ==> cs[k].period != period
    ensures SpentIn(cs, period) == 0.0
  {
    if cs != [] {
      SpentElsewhere(cs[..|cs| - 1], period);
    }
  }

  /** So where no charge of the period fell into such a gap, in particular with no store
      writes and no two recorders at the month's start, the record is the sum. */
  lemma {:induction false} SpendIsTheSum(us: seq<Update>, period: int)
    requires var l := After(EMPTY, us);
             Untouched(l, period) && (l.row.period.None? || l.row.period.value <= period)
    ensures Shown(After(EMPTY, us).row, period) == SpentIn(After(EMPTY, us).done, period)
  {
    var l := After(EMPTY, us);
    SpendTracksCharges(us, period);
    NothingLost(l.done, l.gaps, period);
  }

  predicate ByOthers(us: seq<Update>, w: nat) {
    forall k :: 0 <= k < |us| ==> us[k].StoreRead? || us[k].StorePut? ==> us[k].writer != w
  }

  lemma {:induction false} CopyStays(l: Ledger, us: seq<Update>, w: nat)
    requires w in l.held && ByOthers(us, w)
    ensures w in After(l, us).held && After(l, us).held[w] == l.held[w]
    decreases |us|
  {
    if us != [] {
      CopyStays(l, us[..|us| - 1], w);
      assert ByOthers([us[|us| - 1]], w);
    }
  }

  /** The loss is real: a store operation that reads the record and writes it back forgets
      every charge in between, however many there are. */
  lemma {:induction false} StalePutForgets(l: Ledger, us: seq<Update>, w: nat)
    requires ByOthers(us, w)
    ensures After(l, [StoreRead(w)] + us + [StorePut(w)]).row == l.row
    ensures After(l, [StoreRead(w)] + us).done == After(l, [StoreRead(w)] + us + [StorePut(w)]).done
  {
    AfterSnoc(l, [], StoreRead(w));
    assert [] + [StoreRead(w)] == [StoreRead(w)];
    AfterConcat(l, [StoreRead(w)], us);
    CopyStays(Next(l, StoreRead(w)), us, w);
    AfterSnoc(l, [StoreRead(w)] + us, StorePut(w));
  }
}
