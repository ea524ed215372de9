/** How far the soft monthly budget can be overshot (services/agent-runtime/main.py, quota.py):
    requests are admitted on a copy of the agent record they fetched, and record their costs
    by the split updates of the ledger, beside whole-record writes of the registry store. */
module SoftBudget {
  import opened Common
  import opened Budget

  /** The monthly budget, and the most one request may cost. */
  datatype Plan = Plan(budget: real, most: real)

  /** A request slot: free; the agent record fetched; admitted, with what it may still cost;
      or recording a cost, with the month it is for and whether its ADD was refused. */
  datatype Slot =
    | Free
    | Fetched(row: Spend)
    | Running(left: real)
    | Recording(left: real, cost: real, period: int, refused: bool)

  /** The ledger, the month, the slots, and the most that a store's write ever raised the
      month's record to. */
  datatype System = System(l: Ledger, month: int, slots: seq<Slot>, high: real)

  datatype Move =
    | Fetch(slot: nat)
    | Check(slot: nat)
    | Incur(slot: nat, cost: real)
    | AddCost(slot: nat, reply: Remote)
    | SetCost(slot: nat, reply: Remote)
    | Finish(slot: nat)
    | NextMonth
    | CopyRecord(writer: nat)
    | PutBack(writer: nat)

  function NotBelowZero(x: real): real {
    if x < 0.0 then 0.0 else x
  }

  function Larger(a: real, b: real): real {
    if a < b then b else a
  }

  predicate Admits(row: Spend, month: int, plan: Plan) {
    WithinBudget(row, Some(plan.budget), month)
  }

  function SpentNow(s: System): real {
    Shown(s.l.row, s.month)
  }

  function WithSlot(s: System, i: nat, slot: Slot): System
    requires i < |s.slots|
  {
    s.(slots := s.slots[i := slot])
  }

  /** One move of the request in slot i. */
  function SlotMoved(s: System, m: Move, i: nat, plan: Plan): System
    requires i < |s.slots|
  {
    var slot := s.slots[i];
    match m
    case Fetch(_) => if slot.Free? then WithSlot(s, i, Fetched(s.l.row)) else s
    case Check(_) =>
      if slot.Fetched? then WithSlot(s, i, if Admits(slot.row, s.month, plan) then Running(plan.most) else Free) else s
    case Incur(_, cost) =>
      if slot.Running? && 0.0 < cost <= slot.left then WithSlot(s, i, Recording(slot.left - cost, cost, s.month, false)) else s
    case AddCost(_, reply) => if slot.Recording? && !slot.refused then Added(s, i, slot, reply) else s
    case SetCost(_, reply) => if slot.Recording? && slot.refused then WithReset(s, i, Running(slot.left), reply) else s
    case Finish(_) => if slot.Recording? && slot.refused then WithReset(s, i, Free, Raises(false)) else WithSlot(s, i, Free)
    case _ => s
  }

  function Added(s: System, i: nat, slot: Slot, reply: Remote): System
    requires i < |s.slots| && slot.Recording?
  {
    var l := Next(s.l, TryAdd(i, slot.cost, slot.period, reply));
    s.(l := l, slots := s.slots[i := if i in l.pending then slot.(refused := true) else Running(slot.left)])
  }

  /** The SET, or, with a reply that never comes, a recorder that dies before it. */
  function WithReset(s: System, i: nat, slot: Slot, reply: Remote): System
    requires i < |s.slots|
  {
    s.(l := Next(s.l, Reset(i, reply)), slots := s.slots[i := slot])
  }

  function Put(s: System, w: nat): System {
    var t := s.(l := Next(s.l, StorePut(w)));
    t.(high := if SpentNow(t) > SpentNow(s) then Larger(s.high, SpentNow(t)) else s.high)
  }

  /** One move; one that cannot happen here changes nothing, and a request or writer that
      dies makes no further move but leaving its slot. */
  function Moved(s: System, m: Move, plan: Plan): System {
    match m
    case NextMonth => s.(month := s.month + 1, high := 0.0)
    case CopyRecord(w) => s.(l := Next(s.l, StoreRead(w)))
    case PutBack(w) => Put(s, w)
    case _ => if m.slot < |s.slots| then SlotMoved(s, m, m.slot, plan) else s
  }

  function Run(s: System, ms: seq<Move>, plan: Plan): System
    decreases |ms|
  {
    if ms == [] then s else Run(Moved(s, ms[0], plan), ms[1..], plan)
  }

  /** A new agent, with k request slots. */
  function NewAgent(k: nat, month: int): System {
    System(EMPTY, month, seq(k, _ => Free), 0.0)
  }

  // ----- what requests may still cost -----

  /** What a slot may still add to a period's charges. */
  function Due(slot: Slot, period: int, month: int, plan: Plan): real {
    match slot
    case Free => 0.0
    case Fetched(row) => if period == month && Admits(row, month, plan) then plan.most else 0.0
    case Running(left) => if period == month then left else 0.0
    case Recording(left, cost, p, _) => (if period == month then left else 0.0) + (if p == period then cost else 0.0)
  }

  function Owed(slots: seq<Slot>, period: int, month: int, plan: Plan): real {
    if slots == [] then 0.0 else Due(slots[0], period, month, plan) + Owed(slots[1..], period, month, plan)
  }

  /** k times the most one request may cost. */
  function Cap(k: nat, most: real): real {
    if k == 0 then 0.0 else most + Cap(k - 1, most)
  }

  lemma {:induction false} CapIsTheProduct(k: nat, most: real)
    ensures Cap(k, most) == (k as real) * most
  {
    if k > 0 {
      CapIsTheProduct(k - 1, most);
      assert (k as real) * most == ((k - 1) as real) * most + most;
    }
  }

  lemma {:induction false} OwedUpdate(slots: seq<Slot>, i: nat, slot: Slot, period: int, month: int, plan: Plan)
    requires i < |slots|
    ensures Owed(slots[i := slot], period, month, plan) ==
            Owed(slots, period, month, plan) - Due(slots[i], period, month, plan) + Due(slot, period, month, plan)
  {
    if i == 0 {
      assert slots[0 := slot][1..] == slots[1..];
    } else {
      assert slots[i := slot][1..] == slots[1..][i - 1 := slot];
      OwedUpdate(slots[1..], i - 1, slot, period, month, plan);
    }
  }

  predicate Affordable(slot: Slot, plan: Plan) {
    match slot
    case Running(left) => 0.0 <= left <= plan.most
    case Recording(left, cost, _, _) => 0.0 <= left && 0.0 < cost && left + cost <= plan.most
    case _ => true
  }

  predicate AllAffordable(slots: seq<Slot>, plan: Plan) {
    forall i :: 0 <= i < |slots| ==> Affordable(slots[i], plan)
  }

  lemma {:induction false} OwedRange(slots: seq<Slot>, period: int, month: int, plan: Plan)
    requires plan.most >= 0.0 && AllAffordable(slots, plan)
    ensures 0.0 <= Owed(slots, period, month, plan) <= Cap(|slots|, plan.most)
  {
    if slots != [] {
      OwedRange(slots[1..], period, month, plan);
      assert Affordable(slots[0], plan);
    }
  }

  /** As the month passes less can be charged to the months before. */
  lemma {:induction false} OwedFades(slots: seq<Slot>, period: int, month: int, plan: Plan)
    requires plan.most >= 0.0 && AllAffordable(slots, plan) && period != month + 1
    ensures Owed(slots, period, month + 1, plan) <= Owed(slots, period, month, plan)
  {
    if slots != [] {
      OwedFades(slots[1..], period, month, plan);
      assert Affordable(slots[0], plan);
    }
  }

  // ----- what every run keeps -----

  predicate Dated(row: Spend, month: int) {
    row.period.Some? ==> row.period.value <= month
  }

  predicate SlotOk(s: System, i: nat)
    requires i < |s.slots|
  {
    match s.slots[i]
    case Recording(_, cost, period, refused) =>
      && period <= s.month && (refused <==> i in s.l.pending)
      && (refused ==> s.l.pending[i].cost == cost && s.l.pending[i].period == period)
    case _ => i !in s.l.pending
  }

  predicate AllDated(s: System) {
    && Dated(s.l.row, s.month)
    && (forall w :: w in s.l.held ==> Dated(s.l.held[w].row, s.month))
    && (forall c :: c in s.l.done ==> c.period <= s.month)
  }

  ghost predicate Sound(s: System, plan: Plan) {
    && plan.most >= 0.0 && Inv(s.l) && AllAffordable(s.slots, plan) && AllDated(s)
    && forall i :: 0 <= i < |s.slots| ==> SlotOk(s, i)
  }

  lemma {:induction false} SlotKeepsDates(s: System, m: Move, i: nat, plan: Plan)
    requires Sound(s, plan) && i < |s.slots|
    ensures AllDated(SlotMoved(s, m, i, plan)) && Inv(SlotMoved(s, m, i, plan).l)
  {
    assert SlotOk(s, i);
    SlotUpdates(s, m, i, plan);
    if UpdateOf(s, m, i).Some? {
      InvStep(s.l, UpdateOf(s, m, i).value);
    }
  }

  lemma {:induction false} SlotKeepsSlots(s: System, m: Move, i: nat, plan: Plan)
    requires Sound(s, plan) && i < |s.slots|
    ensures var t := SlotMoved(s, m, i, plan);
            && |t.slots| == |s.slots| && Affordable(t.slots[i], plan) && SlotOk(t, i)
            && forall j :: 0 <= j < |s.slots| && j != i ==>
                 t.slots[j] == s.slots[j] && (j in t.l.pending <==> j in s.l.pending)
                 && (j in s.l.pending ==> t.l.pending[j] == s.l.pending[j])
  {
    assert SlotOk(s, i) && Affordable(s.slots[i], plan);
  }

  lemma {:induction false} SlotKeepsSound(s: System, m: Move, i: nat, plan: Plan)
    requires Sound(s, plan) && i < |s.slots|
    ensures Sound(SlotMoved(s, m, i, plan), plan) && SlotMoved(s, m, i, plan).month == s.month
  {
    var t := SlotMoved(s, m, i, plan);
    SlotKeepsDates(s, m, i, plan);
    SlotKeepsSlots(s, m, i, plan);
    forall j | 0 <= j < |t.slots|
      ensures SlotOk(t, j) && Affordable(t.slots[j], plan)
    {
      assert SlotOk(s, j) && Affordable(s.slots[j], plan);
    }
  }

  lemma {:induction false} SoundStep(s: System, m: Move, plan: Plan)
    requires Sound(s, plan)
    ensures Sound(Moved(s, m, plan), plan) && |Moved(s, m, plan).slots| == |s.slots|
  {
    match m
    case NextMonth =>
      forall i | 0 <= i < |s.slots|
        ensures SlotOk(Moved(s, m, plan), i)
      {
        assert SlotOk(s, i);
      }
    case CopyRecord(w) =>
      StoreKeepsSound(s, StoreRead(w), plan);
    case PutBack(w) =>
      StoreKeepsSound(s, StorePut(w), plan);
      HighIsNoMatter(s.(l := Next(s.l, StorePut(w))), Moved(s, m, plan), plan);
    case _ =>
      if m.slot < |s.slots| {
        SlotKeepsSlots(s, m, m.slot, plan);
        SlotKeepsSound(s, m, m.slot, plan);
      }
  }

  lemma {:induction false} HighIsNoMatter(s: System, t: System, plan: Plan)
    requires Sound(s, plan) && t == s.(high := t.high)
    ensures Sound(t, plan)
  {
    forall i | 0 <= i < |t.slots|
      ensures SlotOk(t, i)
    {
      assert SlotOk(s, i);
    }
  }

  lemma {:induction false} StoreKeepsSound(s: System, u: Update, plan: Plan)
    requires Sound(s, plan) && (u.StoreRead? || u.StorePut?)
    ensures Sound(s.(l := Next(s.l, u)), plan)
  {
    var t := s.(l := Next(s.l, u));
    InvStep(s.l, u);
    forall i | 0 <= i < |t.slots|
      ensures SlotOk(t, i)
    {
      assert SlotOk(s, i);
    }
  }

  lemma {:induction false} NewAgentIsSound(k: nat, month: int, plan: Plan)
    requires plan.most >= 0.0
    ensures Sound(NewAgent(k, month), plan)
    ensures var s := NewAgent(k, month);
            && s.l == Ledger(Spend(0.0, None), map[], map[], [], []) && s.month == month && s.high == 0.0
            && |s.slots| == k && forall i :: 0 <= i < k ==> s.slots[i] == Free
  {
  }

  // ----- what the record shows -----

  /** The budget, or the most a store's write raised the month's record to. */
  function Top(s: System, plan: Plan): real {
    Larger(NotBelowZero(plan.budget), s.high)
  }

  predicate RecordBounded(s: System, plan: Plan) {
    SpentNow(s) + Owed(s.slots, s.month, s.month, plan) <= Top(s, plan) + Cap(|s.slots|, plan.most)
  }

  /** A cost recorded, or dropped, was owed by its slot. */
  lemma {:induction false} SlotPays(s: System, m: Move, i: nat, plan: Plan)
    requires Sound(s, plan) && i < |s.slots| && !m.Fetch?
    ensures var t := SlotMoved(s, m, i, plan);
            SpentNow(t) + Due(t.slots[i], s.month, s.month, plan) <= SpentNow(s) + Due(s.slots[i], s.month, s.month, plan)
  {
    assert SlotOk(s, i) && Affordable(s.slots[i], plan);
  }

  lemma {:induction false} SlotStaysBounded(s: System, m: Move, i: nat, plan: Plan)
    requires Sound(s, plan) && RecordBounded(s, plan) && i < |s.slots|
    ensures RecordBounded(SlotMoved(s, m, i, plan), plan)
  {
    var t := SlotMoved(s, m, i, plan);
    SlotKeepsSound(s, m, i, plan);
    SlotKeepsSlots(s, m, i, plan);
    assert t.slots == s.slots[i := t.slots[i]];
    OwedUpdate(s.slots, i, t.slots[i], s.month, s.month, plan);
    OwedRange(t.slots, s.month, s.month, plan);
    if !m.Fetch? {
      SlotPays(s, m, i, plan);
    }
  }

  lemma {:induction false} BoundedStep(s: System, m: Move, plan: Plan)
    requires Sound(s, plan) && RecordBounded(s, plan)
    ensures RecordBounded(Moved(s, m, plan), plan)
  {
    var t := Moved(s, m, plan);
    OwedRange(t.slots, t.month, t.month, plan) by {
      SoundStep(s, m, plan);
    }
    match m
    case NextMonth =>
    case CopyRecord(w) =>
    case PutBack(w) =>
    case _ =>
      if m.slot < |s.slots| {
        SlotStaysBounded(s, m, m.slot, plan);
      }
  }

  lemma {:induction false} RunIsBounded(s: System, ms: seq<Move>, plan: Plan)
    requires Sound(s, plan) && RecordBounded(s, plan)
    ensures var t := Run(s, ms, plan); Sound(t, plan) && RecordBounded(t, plan) && |t.slots| == |s.slots|
    decreases |ms|
  {
    if ms != [] {
      SoundStep(s, ms[0], plan);
      BoundedStep(s, ms[0], plan);
      RunIsBounded(Moved(s, ms[0], plan), ms[1..], plan);
    }
  }

  /** With at most k requests in flight, each costing at most `most`, in every interleaving of
      their fetches, checks and split updates, failing anywhere, with each other, with store
      writes and with the turn of the month: the month's record never shows more than k times
      that above the budget (or zero, for a negative one), or above the most that a store's
      write has raised it to in this month. */
  lemma {:induction false} OvershootBounded(k: nat, month: int, ms: seq<Move>, plan: Plan)
    requires plan.most >= 0.0
    ensures var s := Run(NewAgent(k, month), ms, plan);
            var spent := if s.l.row.period == Some(s.month) then s.l.row.amount else 0.0;
            var budget := if plan.budget < 0.0 then 0.0 else plan.budget;
            && spent <= (if budget < s.high then s.high else budget) + (k as real) * plan.most
            && (s.high == 0.0 ==> spent <= budget + (k as real) * plan.most)
  {
    CapIsTheProduct(k, plan.most);
    var s0 := NewAgent(k, month);
    NewAgentIsSound(k, month, plan);
    OwedRange(s0.slots, month, month, plan);
    RunIsBounded(s0, ms, plan);
    var s := Run(s0, ms, plan);
    OwedRange(s.slots, s.month, s.month, plan);
  }

  // ----- what was really charged -----

  ghost predicate ChargesOk(s: System, period: int, plan: Plan)
    requires Inv(s.l)
  {
    if s.month < period then SpentIn(s.l.done, period) == 0.0
    else
      SpentIn(s.l.done, period) + Owed(s.slots, period, s.month, plan)
        <= NotBelowZero(plan.budget) + Cap(|s.slots|, plan.most) + Lost(s.l.done, s.l.gaps, period)
  }

  /** A ledger step adds at most its own charge to a period, and undoes no loss. */
  lemma {:induction false} StepSums(l: Ledger, u: Update, period: int)
    requires Inv(l)
    ensures Inv(Next(l, u)) && Lost(Next(l, u).done, Next(l, u).gaps, period) >= Lost(l.done, l.gaps, period)
    ensures var more := SpentIn(Next(l, u).done, period) - SpentIn(l.done, period);
            match u
            case TryAdd(id, cost, p, reply) =>
              more == if Next(l, u).done != l.done && p == period then cost else 0.0
            case Reset(id, reply) =>
              more == if Next(l, u).done != l.done && l.pending[id].period == period then l.pending[id].cost else 0.0
            case _ => more == 0.0
  {
    InvStep(l, u);
    var t := Next(l, u);
    EarlierStay(l, t.done, t.gaps, 0, period) by {
      GrowsByOne(l, u);
    }
    match u
    case TryAdd(id, cost, p, reply) => SpentSnoc(l.done, Charge(cost, p), period);
    case Reset(id, reply) =>
      if id in l.pending {
        SpentSnoc(l.done, Charge(l.pending[id].cost, l.pending[id].period), period);
      }
    case _ =>
  }

  lemma {:induction false} GrowsByOne(l: Ledger, u: Update)
    ensures Next(l, u).done == l.done || exists c :: Next(l, u).done == l.done + [c]
    ensures Next(l, u).gaps == l.gaps || exists g :: Next(l, u).gaps == l.gaps + [g]
  {
  }

  /** The ledger's part in a slot's move, if any. */
  function UpdateOf(s: System, m: Move, i: nat): Option<Update>
    requires i < |s.slots|
  {
    var slot := s.slots[i];
    if !slot.Recording? then None
    else
      match m
      case AddCost(_, reply) => if slot.refused then None else Some(TryAdd(i, slot.cost, slot.period, reply))
      case SetCost(_, reply) => if slot.refused then Some(Reset(i, reply)) else None
      case Finish(_) => if slot.refused then Some(Reset(i, Raises(false))) else None
      case _ => None
  }

  lemma {:induction false} SlotUpdates(s: System, m: Move, i: nat, plan: Plan)
    requires i < |s.slots|
    ensures SlotMoved(s, m, i, plan).l == if UpdateOf(s, m, i).Some? then Next(s.l, UpdateOf(s, m, i).value) else s.l
  {
  }

  /** What a slot's move leaves charged and owed. */
  predicate Pays(s: System, t: System, i: nat, period: int, plan: Plan)
    requires Inv(s.l) && Inv(t.l) && i < |s.slots| == |t.slots|
  {
    && Lost(t.l.done, t.l.gaps, period) >= Lost(s.l.done, s.l.gaps, period)
    && SpentIn(t.l.done, period) + Due(t.slots[i], period, s.month, plan)
       <= SpentIn(s.l.done, period) + Due(s.slots[i], period, s.month, plan)
    && (s.month < period ==> SpentIn(t.l.done, period) == SpentIn(s.l.done, period))
  }

  /** A cost whose ADD is over is no longer owed, unless it is still to be SET. */
  lemma {:induction false} AddOwesLess(s: System, i: nat, reply: Remote, period: int, plan: Plan)
    requires i < |s.slots| && s.slots[i].Recording? && i !in s.l.pending && s.slots[i].cost > 0.0
    ensures var slot, t := s.slots[i], Added(s, i, s.slots[i], reply);
            Due(t.slots[i], period, s.month, plan) <=
              Due(slot, period, s.month, plan) - if t.l.done != s.l.done && slot.period == period then slot.cost else 0.0
  {
  }

  lemma {:induction false} AddPays(s: System, i: nat, reply: Remote, period: int, plan: Plan)
    requires Sound(s, plan) && i < |s.slots| && s.slots[i].Recording? && !s.slots[i].refused
    ensures var t := SlotMoved(s, AddCost(i, reply), i, plan); Inv(t.l) && |t.slots| == |s.slots| && Pays(s, t, i, period, plan)
  {
    assert SlotOk(s, i) && Affordable(s.slots[i], plan);
    AddOwesLess(s, i, reply, period, plan);
    StepSums(s.l, TryAdd(i, s.slots[i].cost, s.slots[i].period, reply), period);
  }

  lemma {:induction false} SetPays(s: System, i: nat, reply: Remote, period: int, plan: Plan)
    requires Sound(s, plan) && i < |s.slots| && s.slots[i].Recording? && s.slots[i].refused
    ensures var t := SlotMoved(s, SetCost(i, reply), i, plan); Inv(t.l) && |t.slots| == |s.slots| && Pays(s, t, i, period, plan)
  {
    assert SlotOk(s, i) && Affordable(s.slots[i], plan);
    StepSums(s.l, Reset(i, reply), period);
  }

  lemma {:induction false} LeavingPays(s: System, i: nat, period: int, plan: Plan)
    requires Sound(s, plan) && i < |s.slots|
    ensures var t := SlotMoved(s, Finish(i), i, plan); Inv(t.l) && |t.slots| == |s.slots| && Pays(s, t, i, period, plan)
  {
    assert SlotOk(s, i) && Affordable(s.slots[i], plan);
    if s.slots[i].Recording? && s.slots[i].refused {
      StepSums(s.l, Reset(i, Raises(false)), period);
    }
  }

  /** A charge that lands was owed by its slot, in its period. */
  lemma {:induction false} SlotCharges(s: System, m: Move, i: nat, period: int, plan: Plan)
    requires Sound(s, plan) && i < |s.slots| && !m.Fetch?
    ensures var t := SlotMoved(s, m, i, plan); Inv(t.l) && |t.slots| == |s.slots| && Pays(s, t, i, period, plan)
  {
    assert Affordable(s.slots[i], plan);
    if m.AddCost? && s.slots[i].Recording? && !s.slots[i].refused {
      AddPays(s, i, m.reply, period, plan);
    } else if m.SetCost? && s.slots[i].Recording? && s.slots[i].refused {
      SetPays(s, i, m.reply, period, plan);
    } else if m.Finish? {
      LeavingPays(s, i, period, plan);
    }
  }

  /** A request that is let in finds the period's charges within the budget, up to what
      replacing writes have lost. */
  lemma {:induction false} AdmittedWithin(s: System, period: int, plan: Plan)
    requires Sound(s, plan) && Tracks(s.l, period) && s.month == period && Admits(s.l.row, s.month, plan)
    ensures SpentIn(s.l.done, period) <= NotBelowZero(plan.budget) + Lost(s.l.done, s.l.gaps, period)
  {
    assert s.l.done[..|s.l.done|] == s.l.done;
  }

  lemma {:induction false} SlotChargesOk(s: System, m: Move, i: nat, period: int, plan: Plan)
    requires Sound(s, plan) && Tracks(s.l, period) && ChargesOk(s, period, plan) && i < |s.slots|
    ensures Inv(SlotMoved(s, m, i, plan).l) && ChargesOk(SlotMoved(s, m, i, plan), period, plan)
  {
    var t := SlotMoved(s, m, i, plan);
    SlotKeepsSound(s, m, i, plan);
    SlotKeepsSlots(s, m, i, plan);
    assert t.slots == s.slots[i := t.slots[i]];
    OwedUpdate(s.slots, i, t.slots[i], period, s.month, plan);
    OwedRange(t.slots, period, s.month, plan);
    if !m.Fetch? {
      SlotCharges(s, m, i, period, plan);
    } else if s.month == period && Admits(s.l.row, s.month, plan) {
      AdmittedWithin(s, period, plan);
    }
  }

  lemma {:induction false} MonthChargesOk(s: System, period: int, plan: Plan)
    requires Sound(s, plan) && ChargesOk(s, period, plan)
    ensures ChargesOk(Moved(s, NextMonth, plan), period, plan)
  {
    if s.month + 1 == period {
      OwedRange(s.slots, period, period, plan);
      LostNotNegative(s.l.done, s.l.gaps, period);
    } else {
      OwedFades(s.slots, period, s.month, plan);
    }
  }

  lemma {:induction false} ChargesStep(s: System, m: Move, period: int, plan: Plan)
    requires Sound(s, plan) && Tracks(s.l, period) && ChargesOk(s, period, plan)
    ensures var t := Moved(s, m, plan); Inv(t.l) && Tracks(t.l, period) && ChargesOk(t, period, plan)
  {
    match m
    case NextMonth => MonthChargesOk(s, period, plan);
    case CopyRecord(w) =>
      TracksStep(s.l, StoreRead(w), period);
      StepSums(s.l, StoreRead(w), period);
    case PutBack(w) =>
      TracksStep(s.l, StorePut(w), period);
      StepSums(s.l, StorePut(w), period);
    case _ =>
      if m.slot < |s.slots| {
        SlotChargesOk(s, m, m.slot, period, plan);
        SlotTracks(s, m, m.slot, period, plan);
      }
  }

  lemma {:induction false} SlotTracks(s: System, m: Move, i: nat, period: int, plan: Plan)
    requires Sound(s, plan) && Tracks(s.l, period) && i < |s.slots|
    ensures var l := SlotMoved(s, m, i, plan).l; Inv(l) && Tracks(l, period)
  {
    SlotUpdates(s, m, i, plan);
    if UpdateOf(s, m, i).Some? {
      TracksStep(s.l, UpdateOf(s, m, i).value, period);
    }
  }

  lemma {:induction false} ChargesRun(s: System, ms: seq<Move>, period: int, plan: Plan)
    requires Sound(s, plan) && Tracks(s.l, period) && ChargesOk(s, period, plan)
    ensures var t := Run(s, ms, plan); Sound(t, plan) && ChargesOk(t, period, plan) && |t.slots| == |s.slots|
    decreases |ms|
  {
    if ms != [] {
      SoundStep(s, ms[0], plan);
      ChargesStep(s, ms[0], period, plan);
      ChargesRun(Moved(s, ms[0], plan), ms[1..], period, plan);
    }
  }

  /** In every such run, what lands in a period is at most the budget, k times `most`, and what
      replacing writes have lost of that period. */
  lemma {:induction false} ChargesBounded(k: nat, month: int, ms: seq<Move>, plan: Plan, period: int)
    requires plan.most >= 0.0
    ensures var l := Run(NewAgent(k, month), ms, plan).l;
            && Well(l.done, l.gaps)
            && SpentIn(l.done, period)
               <= (if plan.budget < 0.0 then 0.0 else plan.budget) + (k as real) * plan.most + Lost(l.done, l.gaps, period)
  {
    CapIsTheProduct(k, plan.most);
    var s0 := NewAgent(k, month);
    NewAgentIsSound(k, month, plan);
    OwedRange(s0.slots, period, month, plan);
    ChargesRun(s0, ms, period, plan);
    var s := Run(s0, ms, plan);
    OwedRange(s.slots, period, s.month, plan);
    LostNotNegative(s.l.done, s.l.gaps, period);
    OwedRange(s.slots, period, s.month, plan);
    CapNotNegative(k, plan.most);
  }

  lemma {:induction false} CapNotNegative(k: nat, most: real)
    requires most >= 0.0
    ensures Cap(k, most) >= 0.0
  {
    if k > 0 {
      CapNotNegative(k - 1, most);
    }
  }

  // ----- filling up the slots -----

  lemma {:induction false} RunConcat(s: System, a: seq<Move>, b: seq<Move>, plan: Plan)
    ensures Run(s, a + b, plan) == Run(Run(s, a, plan), b, plan)
    decreases |a|
  {
    if a == [] {
      assert a + b == b;
    } else {
      assert (a + b)[1..] == a[1..] + b;
      RunConcat(Moved(s, a[0], plan), a[1..], b, plan);
    }
  }

  lemma {:induction false} RunTwo(s: System, a: Move, b: Move, plan: Plan)
    ensures Run(s, [a, b], plan) == Moved(Moved(s, a, plan), b, plan)
  {
    assert [a, b][1..] == [b];
    assert Run(Moved(s, a, plan), [b], plan) == Moved(Moved(s, a, plan), b, plan);
  }

  lemma {:induction false} RunThree(s: System, a: Move, b: Move, c: Move, plan: Plan)
    ensures Run(s, [a, b, c], plan) == Moved(Moved(Moved(s, a, plan), b, plan), c, plan)
  {
    assert [a, b, c][1..] == [b, c];
    RunTwo(Moved(s, a, plan), b, c, plan);
  }

  predicate NoCopies(ms: seq<Move>) {
    forall i :: 0 <= i < |ms| ==> !ms[i].CopyRecord?
  }

  predicate AllRunning(slots: seq<Slot>, n: nat, most: real) {
    n <= |slots| && forall i :: 0 <= i < n ==> slots[i] == Running(most)
  }

  /** Everybody leaves, and while the record is within budget every slot is taken again. */
  lemma {:induction false} AllAdmitted(s: System, n: nat, plan: Plan) returns (ms: seq<Move>)
    requires Sound(s, plan) && n <= |s.slots| && Admits(s.l.row, s.month, plan)
    ensures NoCopies(ms)
    ensures var t := Run(s, ms, plan);
            && Sound(t, plan) && |t.slots| == |s.slots| && AllRunning(t.slots, n, plan.most)
            && t.l.row == s.l.row && t.l.held == s.l.held && t.month == s.month
    decreases n
  {
    if n == 0 {
      ms := [];
    } else {
      var before := AllAdmitted(s, n - 1, plan);
      var m := Run(s, before, plan);
      var i := n - 1;
      var moves := [Finish(i), Fetch(i), Check(i)];
      RunThree(m, Finish(i), Fetch(i), Check(i), plan);
      RunConcat(s, before, moves, plan);
      ms := before + moves;
      OneAdmitted(m, i, plan);
    }
  }

  lemma {:induction false} OneAdmitted(s: System, i: nat, plan: Plan)
    requires Sound(s, plan) && i < |s.slots| && Admits(s.l.row, s.month, plan)
    ensures var t := Moved(Moved(Moved(s, Finish(i), plan), Fetch(i), plan), Check(i), plan);
            && Sound(t, plan) && t.slots == s.slots[i := Running(plan.most)]
            && t.l.row == s.l.row && t.l.held == s.l.held && t.month == s.month
  {
    assert SlotOk(s, i);
    SoundStep(s, Finish(i), plan);
    var s1 := Moved(s, Finish(i), plan);
    assert s1.slots == s.slots[i := Free] && s1.l.row == s.l.row;
    SoundStep(s1, Fetch(i), plan);
    SoundStep(Moved(s1, Fetch(i), plan), Check(i), plan);
  }

  /** Every running request then spends all it may, in a month that has begun. */
  lemma {:induction false} AllCharged(s: System, n: nat, plan: Plan) returns (ms: seq<Move>)
    requires Sound(s, plan) && plan.most > 0.0 && AllRunning(s.slots, n, plan.most) && s.l.row.period == Some(s.month)
    ensures NoCopies(ms)
    ensures var t := Run(s, ms, plan);
            && Sound(t, plan) && |t.slots| == |s.slots| && t.month == s.month
            && t.l.row == Spend(s.l.row.amount + Cap(n, plan.most), Some(s.month))
    decreases n
  {
    if n == 0 {
      ms := [];
    } else {
      var i := n - 1;
      var moves := [Incur(i, plan.most), AddCost(i, Works)];
      OneCharged(s, i, plan);
      RunTwo(s, Incur(i, plan.most), AddCost(i, Works), plan);
      var t := Run(s, moves, plan);
      var rest := AllCharged(t, i, plan);
      RunConcat(s, moves, rest, plan);
      ms := moves + rest;
    }
  }

  lemma {:induction false} OneCharged(s: System, i: nat, plan: Plan)
    requires Sound(s, plan) && plan.most > 0.0 && i < |s.slots| && s.slots[i] == Running(plan.most)
    requires s.l.row.period == Some(s.month)
    ensures var t := Moved(Moved(s, Incur(i, plan.most), plan), AddCost(i, Works), plan);
            && Sound(t, plan) && |t.slots| == |s.slots| && t.month == s.month
            && t.l.row == Spend(s.l.row.amount + plan.most, Some(s.month))
            && forall j :: 0 <= j < |s.slots| && j != i ==> t.slots[j] == s.slots[j]
  {
    assert SlotOk(s, i);
    SoundStep(s, Incur(i, plan.most), plan);
    SoundStep(Moved(s, Incur(i, plan.most), plan), AddCost(i, Works), plan);
  }

  // ----- when the plain bound can be exceeded -----

  predicate Exceeds(s: System, plan: Plan) {
    SpentNow(s) > NotBelowZero(plan.budget) + Cap(|s.slots|, plan.most)
  }

  /** Without any further reading by the store. */
  ghost predicate CanExceed(s: System, plan: Plan) {
    exists ms :: NoCopies(ms) && Exceeds(Run(s, ms, plan), plan)
  }

  /** A store operation holds a copy that shows more than the budget. */
  ghost predicate HoldsOver(s: System, plan: Plan) {
    exists w :: w in s.l.held && Shown(s.l.held[w].row, s.month) > NotBelowZero(plan.budget)
  }

  ghost predicate Calm(s: System, plan: Plan) {
    && !HoldsOver(s, plan)
    && SpentNow(s) + Owed(s.slots, s.month, s.month, plan) <= NotBelowZero(plan.budget) + Cap(|s.slots|, plan.most)
  }

  lemma {:induction false} SlotHoldsNothing(s: System, m: Move, i: nat, plan: Plan)
    requires i < |s.slots|
    ensures SlotMoved(s, m, i, plan).l.held == s.l.held
  {
  }

  lemma {:induction false} CalmStep(s: System, m: Move, plan: Plan)
    requires Sound(s, plan) && Calm(s, plan) && !m.CopyRecord?
    ensures Calm(Moved(s, m, plan), plan)
  {
    var t := Moved(s, m, plan);
    OwedRange(t.slots, t.month, t.month, plan) by {
      SoundStep(s, m, plan);
    }
    forall w | w in t.l.held
      ensures Shown(t.l.held[w].row, t.month) <= NotBelowZero(plan.budget)
    {
      if !m.NextMonth? && !m.CopyRecord? && !m.PutBack? && m.slot < |s.slots| {
        SlotHoldsNothing(s, m, m.slot, plan);
      }
      assert w in s.l.held && t.l.held[w] == s.l.held[w];
      assert Dated(s.l.held[w].row, s.month);
    }
    if !m.NextMonth? && !m.PutBack? && m.slot < |s.slots| {
      SlotStaysCalm(s, m, m.slot, plan);
    }
  }

  lemma {:induction false} SlotStaysCalm(s: System, m: Move, i: nat, plan: Plan)
    requires Sound(s, plan) && Calm(s, plan) && i < |s.slots|
    ensures var t := SlotMoved(s, m, i, plan);
            SpentNow(t) + Owed(t.slots, t.month, t.month, plan) <= NotBelowZero(plan.budget) + Cap(|t.slots|, plan.most)
  {
    var low := s.(high := 0.0);
    HighIsNoMatter(s, low, plan);
    SlotStaysBounded(low, m, i, plan);
    assert SlotMoved(low, m, i, plan) == SlotMoved(s, m, i, plan).(high := 0.0);
  }

  lemma {:induction false} CalmRun(s: System, ms: seq<Move>, plan: Plan)
    requires Sound(s, plan) && Calm(s, plan) && NoCopies(ms)
    ensures !Exceeds(Run(s, ms, plan), plan)
    decreases |ms|
  {
    if ms == [] {
      OwedRange(s.slots, s.month, s.month, plan);
    } else {
      SoundStep(s, ms[0], plan);
      CalmStep(s, ms[0], plan);
      CalmRun(Moved(s, ms[0], plan), ms[1..], plan);
    }
  }

  /** From any state whose record is within budget, whatever has happened before: without a
      further reading by the store the plain bound can be exceeded if and only if a store
      operation holds a copy that shows more than the budget, so that putting it back lands
      it above the row. */
  lemma {:induction false} ExceedsIff(k: nat, month: int, before: seq<Move>, plan: Plan)
    requires plan.most >= 0.0
    requires var s := Run(NewAgent(k, month), before, plan); Admits(s.l.row, s.month, plan)
    ensures var s := Run(NewAgent(k, month), before, plan); CanExceed(s, plan) <==> HoldsOver(s, plan)
  {
    var s := Run(NewAgent(k, month), before, plan);
    NewAgentIsSound(k, month, plan);
    OwedRange(NewAgent(k, month).slots, month, month, plan);
    RunIsBounded(NewAgent(k, month), before, plan);
    OwedRange(s.slots, s.month, s.month, plan);
    if HoldsOver(s, plan) {
      var w :| w in s.l.held && Shown(s.l.held[w].row, s.month) > NotBelowZero(plan.budget);
      CopyExceeds(s, w, plan);
    } else {
      forall ms | NoCopies(ms)
        ensures !Exceeds(Run(s, ms, plan), plan)
      {
        CalmRun(s, ms, plan);
      }
    }
  }

  lemma {:induction false} CopyExceeds(s: System, w: nat, plan: Plan)
    requires Sound(s, plan) && Admits(s.l.row, s.month, plan)
    requires w in s.l.held && Shown(s.l.held[w].row, s.month) > NotBelowZero(plan.budget)
    ensures CanExceed(s, plan)
  {
    var first := AllAdmitted(s, |s.slots|, plan);
    var s1 := Run(s, first, plan);
    var rest := PutThenSpend(s1, w, plan);
    RunConcat(s, first, rest, plan);
    assert Exceeds(Run(s, first + rest, plan), plan);
  }

  /** With every slot taken, the copy is put back and everybody spends. */
  lemma {:induction false} PutThenSpend(s: System, w: nat, plan: Plan) returns (ms: seq<Move>)
    requires Sound(s, plan) && AllRunning(s.slots, |s.slots|, plan.most)
    requires w in s.l.held && Shown(s.l.held[w].row, s.month) > NotBelowZero(plan.budget)
    ensures NoCopies(ms) && Exceeds(Run(s, ms, plan), plan)
  {
    var t := Moved(s, PutBack(w), plan);
    SoundStep(s, PutBack(w), plan);
    assert t.l.row == s.l.held[w].row && t.slots == s.slots && t.month == s.month;
    var rest: seq<Move> := [];
    if plan.most > 0.0 {
      rest := AllCharged(t, |s.slots|, plan);
    } else {
      CapIsTheProduct(|s.slots|, plan.most);
    }
    ms := [PutBack(w)] + rest;
    assert ms[1..] == rest;
  }

  // ----- the bound is reached -----

  /** One request after the other, in slot 0, spends what is left of the budget. */
  lemma {:induction false} OneSpends(s: System, cost: real, plan: Plan) returns (ms: seq<Move>)
    requires Sound(s, plan) && |s.slots| > 0 && 0.0 < cost <= plan.most && Admits(s.l.row, s.month, plan)
    ensures NoCopies(ms)
    ensures var t := Run(s, ms, plan);
            && Sound(t, plan) && |t.slots| == |s.slots| && t.month == s.month
            && t.l.row == Spend(SpentNow(s) + cost, Some(s.month)) && t.l.held == s.l.held
  {
    var a := [Finish(0), Fetch(0), Check(0)];
    RunThree(s, Finish(0), Fetch(0), Check(0), plan);
    OneAdmitted(s, 0, plan);
    var s1 := Run(s, a, plan);
    var b := [Incur(0, cost), AddCost(0, Works), SetCost(0, Works)];
    RunThree(s1, Incur(0, cost), AddCost(0, Works), SetCost(0, Works), plan);
    RunConcat(s, a, b, plan);
    ms := a + b;
    SlotRecords(s1, cost, plan);
  }

  lemma {:induction false} SlotRecords(s: System, cost: real, plan: Plan)
    requires Sound(s, plan) && |s.slots| > 0 && 0.0 < cost <= plan.most && s.slots[0] == Running(plan.most)
    ensures var t := Moved(Moved(Moved(s, Incur(0, cost), plan), AddCost(0, Works), plan), SetCost(0, Works), plan);
            && Sound(t, plan) && |t.slots| == |s.slots| && t.month == s.month
            && t.l.row == Spend(SpentNow(s) + cost, Some(s.month)) && t.l.held == s.l.held
  {
    assert SlotOk(s, 0);
    SoundStep(s, Incur(0, cost), plan);
    var s2 := Moved(s, Incur(0, cost), plan);
    SoundStep(s2, AddCost(0, Works), plan);
    SoundStep(Moved(s2, AddCost(0, Works), plan), SetCost(0, Works), plan);
  }

  /** ... in at most n requests. */
  lemma {:induction false} BudgetIsSpent(s: System, n: nat, plan: Plan) returns (ms: seq<Move>)
    requires Sound(s, plan) && |s.slots| > 0 && plan.most > 0.0 && Admits(s.l.row, s.month, plan)
    requires 0.0 < plan.budget - SpentNow(s) <= Cap(n, plan.most)
    ensures NoCopies(ms)
    ensures var t := Run(s, ms, plan);
            && Sound(t, plan) && |t.slots| == |s.slots| && t.month == s.month
            && t.l.row == Spend(plan.budget, Some(s.month))
    decreases n
  {
    var left := plan.budget - SpentNow(s);
    if left <= plan.most {
      ms := OneSpends(s, left, plan);
    } else {
      var one := OneSpends(s, plan.most, plan);
      var t := Run(s, one, plan);
      var rest := BudgetIsSpent(t, n - 1, plan);
      RunConcat(s, one, rest, plan);
      ms := one + rest;
    }
  }

  /** The bound is the best possible: for every positive budget a new agent with k slots can
      come to show the budget and the whole k times `most`, without any store write. */
  lemma {:induction false} OvershootIsReached(k: nat, month: int, plan: Plan) returns (ms: seq<Move>)
    requires k > 0 && plan.budget > 0.0 && plan.most > 0.0
    ensures NoCopies(ms)
    ensures var s := Run(NewAgent(k, month), ms, plan);
            s.l.row.period == Some(s.month) && s.l.row.amount == plan.budget + (k as real) * plan.most
  {
    CapIsTheProduct(k, plan.most);
    assert (k as real) * plan.most > 0.0;
    var s0 := NewAgent(k, month);
    NewAgentIsSound(k, month, plan);
    var n := (plan.budget / plan.most).Floor + 1;
    CapIsTheProduct(n, plan.most);
    EnoughRequests(plan.budget, plan.most);
    var a := BudgetIsSpent(s0, n, plan);
    var s1 := Run(s0, a, plan);
    var b := AllAdmitted(s1, k, plan);
    var s2 := Run(s1, b, plan);
    var c := AllCharged(s2, k, plan);
    RunConcat(s0, a, b, plan);
    RunConcat(s0, a + b, c, plan);
    ms := a + b + c;
  }

  lemma {:induction false} EnoughRequests(budget: real, most: real)
    requires budget > 0.0 && most > 0.0
    ensures (budget / most).Floor >= 0 && budget <= ((budget / most).Floor + 1) as real * most
  {
    var q := budget / most;
    assert q * most == budget && q < (q.Floor + 1) as real;
  }
}
