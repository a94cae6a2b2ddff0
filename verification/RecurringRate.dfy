/** One scheduler whose calls succeed: each slot fires exactly once, and no due schedule starves. */
module RecurringRate {
  import opened Query
  import opened Recurring

  // ----- Exactly once -----

  /** One scheduler runs at a time, and its calls succeed. */
  ghost predicate Flawless(s: State, a: Action) {
    && (a.Begin? ==> forall t :: t in s.threads ==> s.threads[t] == Gone)
    && (a.Inserted? ==> a.ok) && (a.Sent? ==> a.ok) && (a.Advanced? ==> a.ok)
  }

  ghost predicate FlawlessRun(cron: Cron, s: State, run: seq<Action>)
    decreases |run|
  {
    run == [] ||
    (Enabled(cron, s, run[0]) && Flawless(s, run[0]) && FlawlessRun(cron, Next(cron, s, run[0]), run[1..]))
  }

  /** The schedule has only fired slots before this one. */
  ghost predicate Ahead(s: State, id: nat, slot: int) {
    forall f :: f in s.fired && f.id == id ==> f.slot < slot
  }

  ghost predicate AdvancingHead(s: State, id: nat) {
    exists t :: t in s.threads && s.threads[t].Advance? && |s.threads[t].batch| > 0 && s.threads[t].batch[0].id == id
  }

  function BatchOf(pc: Pc): seq<Due> {
    match pc
    case Insert(batch) => batch
    case Send(batch) => batch
    case Advance(batch) => batch
    case _ => []
  }

  /** The batch still says what the table says; only the head of an advancing one has just fired. */
  ghost predicate BatchFresh(s: State, pc: Pc) {
    var batch := BatchOf(pc);
    && (forall i, j :: 0 <= i < j < |batch| ==> batch[i].id != batch[j].id)
    && (forall i :: 0 <= i < |batch| ==>
          && batch[i].id < s.nextId
          && (batch[i].id in s.table ==> s.table[batch[i].id] == batch[i].sched)
          && (if pc.Advance? && i == 0 then Ahead(s, batch[i].id, batch[i].sched.slot + 1)
              else Ahead(s, batch[i].id, batch[i].sched.slot)))
  }

  ghost predicate OneLive(s: State) {
    forall t, u :: t in s.threads && u in s.threads && s.threads[t] != Gone && s.threads[u] != Gone ==> t == u
  }

  ghost predicate Rising(fired: seq<Firing>) {
    forall i, j :: 0 <= i < j < |fired| && fired[i].id == fired[j].id ==> fired[i].slot < fired[j].slot
  }

  ghost predicate Once(s: State) {
    && OneLive(s) && Rising(s.fired)
    && (forall f :: f in s.fired ==> f.id < s.nextId)
    && (forall id :: id in s.table ==> id < s.nextId)
    && (forall id :: id in s.table ==> Ahead(s, id, s.table[id].slot) || AdvancingHead(s, id))
    && (forall t :: t in s.threads ==> BatchFresh(s, s.threads[t]))
  }

  lemma ListedOnce(cron: Cron, s: State, a: Action)
    requires Once(s) && Enabled(cron, s, a) && a.Listed?
    ensures Once(Next(cron, s, a))
  {
    var pc := if a.ids == [] then Gone else Insert(Snapshot(s.table, a.ids));
    ListedBatch(s, s.threads[a.tid].now, a.ids);
    assert BatchFresh(s, Gone);
    MovedOnce(s, Next(cron, s, a), a.tid, pc);
  }

  lemma ListedBatch(s: State, now: int, ids: seq<nat>)
    requires Once(s) && Listing(DueKeys(s.table, now), 50, ids) && forall t :: t in s.threads ==> !s.threads[t].Advance?
    ensures BatchFresh(s, Insert(Snapshot(s.table, ids)))
  {
    var batch := Snapshot(s.table, ids);
    assert BatchOf(Insert(batch)) == batch;
    forall i | 0 <= i < |ids| ensures ids[i] in s.table && Ahead(s, ids[i], s.table[ids[i]].slot) {
      assert ids[i] in DueKeys(s.table, now);
      assert !AdvancingHead(s, ids[i]);
    }
  }

  lemma FiringAdds(s: State, s': State, f: Firing, id: nat, slot: int)
    requires s'.fired == s.fired + [f] && Ahead(s, id, slot) && (f.id == id ==> f.slot < slot)
    ensures Ahead(s', id, slot)
  {
  }

  lemma SentBatch(s: State, s': State, batch: seq<Due>, f: Firing)
    requires |batch| > 0 && BatchFresh(s, Send(batch))
    requires f.id == batch[0].id && f.slot == batch[0].sched.slot && s'.fired == s.fired + [f]
    requires s'.table == s.table && s'.nextId == s.nextId
    ensures BatchFresh(s', Advance(batch))
  {
    assert BatchOf(Send(batch)) == batch && BatchOf(Advance(batch)) == batch;
    forall i | 0 <= i < |batch|
      ensures Ahead(s', batch[i].id, if i == 0 then batch[i].sched.slot + 1 else batch[i].sched.slot)
    {
      assert Ahead(s, batch[i].id, batch[i].sched.slot);
      FiringAdds(s, s', f, batch[i].id, if i == 0 then batch[i].sched.slot + 1 else batch[i].sched.slot);
    }
  }

  lemma SentTable(s: State, s': State, t: Tid, batch: seq<Due>, f: Firing)
    requires Once(s) && t in s.threads && |batch| > 0 && s.threads[t] == Send(batch) && f.id == batch[0].id
    requires s'.table == s.table && s'.fired == s.fired + [f] && s'.threads == s.threads[t := Advance(batch)]
    ensures forall id :: id in s'.table ==> Ahead(s', id, s'.table[id].slot) || AdvancingHead(s', id)
  {
    assert s'.threads[t] == Advance(batch);
    forall id | id in s'.table ensures Ahead(s', id, s'.table[id].slot) || AdvancingHead(s', id) {
      assert !AdvancingHead(s, id);
      if id != f.id {
        FiringAdds(s, s', f, id, s.table[id].slot);
      }
    }
  }

  /** The others are gone. */
  lemma SentThreads(s: State, s': State, t: Tid, batch: seq<Due>)
    requires OneLive(s) && t in s.threads && s.threads[t] == Send(batch)
    requires s'.threads == s.threads[t := Advance(batch)] && BatchFresh(s', Advance(batch))
    ensures forall u :: u in s'.threads ==> BatchFresh(s', s'.threads[u])
  {
    forall u | u in s'.threads ensures BatchFresh(s', s'.threads[u]) {
      assert u != t ==> s.threads[u] == Gone;
    }
  }

  lemma SentOnce(cron: Cron, s: State, a: Action)
    requires Once(s) && Enabled(cron, s, a) && a.Sent? && a.ok
    ensures Once(Next(cron, s, a))
  {
    var s', t := Next(cron, s, a), a.tid;
    var batch := s.threads[t].batch;
    var f := Firing(batch[0].id, batch[0].sched.slot, s.clock, true);
    assert BatchFresh(s, s.threads[t]) && Ahead(s, f.id, f.slot);
    assert s'.threads == s.threads[t := Advance(batch)] && s'.fired == s.fired + [f];
    SentBatch(s, s', batch, f);
    SentThreads(s, s', t, batch);
    SentTable(s, s', t, batch, f);
  }

  lemma AdvancedBatch(s: State, s': State, batch: seq<Due>)
    requires |batch| > 0 && BatchFresh(s, Advance(batch)) && s'.fired == s.fired && s'.nextId == s.nextId
    requires forall id :: id != batch[0].id ==> (id in s'.table <==> id in s.table)
    requires forall id :: id != batch[0].id && id in s.table ==> s'.table[id] == s.table[id]
    ensures BatchFresh(s', Continue(batch))
  {
    assert BatchOf(Advance(batch)) == batch;
    if |batch| > 1 {
      var rest := batch[1..];
      assert BatchOf(Insert(rest)) == rest;
      forall i | 0 <= i < |rest|
        ensures rest[i].id < s'.nextId && Ahead(s', rest[i].id, rest[i].sched.slot)
        ensures rest[i].id in s'.table ==> s'.table[rest[i].id] == rest[i].sched
      {
        assert rest[i] == batch[i + 1] && batch[i + 1].id != batch[0].id;
        assert Ahead(s, batch[i + 1].id, batch[i + 1].sched.slot);
      }
    }
  }

  lemma AdvancedOnce(cron: Cron, s: State, a: Action)
    requires Forward(cron) && Inv(cron, s) && Once(s) && Enabled(cron, s, a) && a.Advanced? && a.ok
    ensures Once(Next(cron, s, a))
  {
    var s', t := Next(cron, s, a), a.tid;
    var batch := s.threads[t].batch;
    var d := batch[0];
    assert BatchFresh(s, s.threads[t]) && s.threads[t] == Advance(batch);
    assert s'.threads == s.threads[t := Continue(batch)];
    AdvancedAhead(cron, s, t, batch);
    AheadOfOthers(s, t, batch);
    AdvancedBatch(s, s', batch);
    OnlyOneFresh(s, s', t, Continue(batch));
  }

  lemma OnlyOneFresh(s: State, s': State, t: Tid, pc: Pc)
    requires OneLive(s) && t in s.threads && s.threads[t] != Gone
    requires s'.threads == s.threads[t := pc] && BatchFresh(s', pc)
    ensures OneLive(s') && forall u :: u in s'.threads ==> BatchFresh(s', s'.threads[u])
  {
    forall u | u in s'.threads && u != t ensures s'.threads[u] == Gone {
      assert s'.threads[u] == s.threads[u];
    }
    assert BatchFresh(s', Gone);
  }

  lemma AheadOfOthers(s: State, t: Tid, batch: seq<Due>)
    requires Once(s) && t in s.threads && s.threads[t] == Advance(batch) && |batch| > 0
    ensures forall id :: id in s.table && id != batch[0].id ==> Ahead(s, id, s.table[id].slot)
  {
    forall id | id in s.table && id != batch[0].id ensures !AdvancingHead(s, id) {
    }
  }

  /** The next slot of the head is ahead of all it has fired. */
  lemma AdvancedAhead(cron: Cron, s: State, t: Tid, batch: seq<Due>)
    requires Forward(cron) && Inv(cron, s) && t in s.threads && s.threads[t] == Advance(batch) && |batch| > 0
    requires BatchFresh(s, Advance(batch))
    ensures Ahead(s, batch[0].id, cron.next(batch[0].sched.expr, batch[0].sched.slot))
  {
    var d := batch[0];
    assert PcOk(cron, s, s.threads[t]) && SchedOk(cron, s, d.id, d.sched);
    assert BatchOf(Advance(batch)) == batch && Ahead(s, d.id, d.sched.slot + 1);
    assert cron.next(d.sched.expr, d.sched.slot) >= d.sched.slot + 1;
  }

  /** A thread that only moves on within its batch changes nothing of this. */
  lemma MovedOnce(s: State, s': State, t: Tid, pc: Pc)
    requires Once(s) && s' == s.(threads := s.threads[t := pc]) && !pc.Advance?
    requires t in s.threads ==> s.threads[t] != Gone && !s.threads[t].Advance?
    requires t !in s.threads ==> forall u :: u in s.threads ==> s.threads[u] == Gone
    requires BatchFresh(s, pc)
    ensures Once(s')
  {
    assert forall id, slot :: Ahead(s, id, slot) <==> Ahead(s', id, slot);
    forall u | u in s'.threads ensures BatchFresh(s', s'.threads[u]) {
      assert u != t ==> BatchFresh(s, s.threads[u]);
    }
    forall id | id in s'.table ensures Ahead(s', id, s'.table[id].slot) || AdvancingHead(s', id) {
      assert !AdvancingHead(s, id);
    }
  }

  /** So do the creation and the deletion of schedules, and time. */
  lemma TableOnce(s: State, s': State)
    requires Once(s)
    requires s'.threads == s.threads && s'.fired == s.fired && s.nextId <= s'.nextId
    requires forall id :: id in s'.table ==>
               if id in s.table then s'.table[id] == s.table[id] else s.nextId <= id < s'.nextId
    ensures Once(s')
  {
    assert forall id, slot :: Ahead(s, id, slot) <==> Ahead(s', id, slot);
    assert forall id :: AdvancingHead(s, id) <==> AdvancingHead(s', id);
    forall t | t in s'.threads ensures BatchFresh(s', s'.threads[t]) {
      assert BatchFresh(s, s.threads[t]);
    }
  }

  lemma InsertedBatch(s: State, batch: seq<Due>)
    requires BatchFresh(s, Insert(batch))
    ensures BatchFresh(s, Send(batch))
  {
    assert BatchOf(Insert(batch)) == batch && BatchOf(Send(batch)) == batch;
  }

  lemma StepOnce(cron: Cron, s: State, a: Action)
    requires Forward(cron) && Inv(cron, s) && Once(s) && Enabled(cron, s, a) && Flawless(s, a)
    ensures Once(Next(cron, s, a))
  {
    var s' := Next(cron, s, a);
    if a.Skip? {
      SkipImpossible(cron, s, a);
    } else if a.Listed? {
      ListedOnce(cron, s, a);
    } else if a.Sent? {
      SentOnce(cron, s, a);
    } else if a.Advanced? {
      AdvancedOnce(cron, s, a);
    } else if a.Add? || a.Delete? || a.Pass? {
      TableOnce(s, s');
    } else {
      var pc := s'.threads[a.tid];
      if a.Inserted? {
        InsertedBatch(s, s.threads[a.tid].batch);
      }
      assert BatchFresh(s, pc);
      MovedOnce(s, s', a.tid, pc);
    }
  }

  lemma {:induction false} RunOnce(cron: Cron, s: State, run: seq<Action>)
    requires Forward(cron) && Inv(cron, s) && Once(s) && FlawlessRun(cron, s, run)
    ensures ValidRun(cron, s, run) && Once(After(cron, s, run))
    decreases |run|
  {
    if run != [] {
      StepOnce(cron, s, run[0]);
      StepKeepsInv(cron, s, run[0]);
      RunOnce(cron, Next(cron, s, run[0]), run[1..]);
    }
  }

  /** With one scheduler and nothing failing, no slot of a schedule fires twice, and slots fire in order. */
  lemma EachSlotFiresOnce(cron: Cron, clock: int, run: seq<Action>, i: nat, j: nat)
    requires Forward(cron) && FlawlessRun(cron, Init(clock), run)
    ensures ValidRun(cron, Init(clock), run)
    ensures var fired := After(cron, Init(clock), run).fired;
            i < j < |fired| && fired[i].id == fired[j].id ==> fired[i].slot < fired[j].slot
  {
    RunOnce(cron, Init(clock), run);
  }

  // ----- No starvation -----

  /** How many slots of a schedule, from this one on, are not after t. */
  function SlotsUntil(cron: Cron, expr: string, slot: int, bound: int): nat
    requires Forward(cron) && cron.parses(expr)
    decreases bound - slot
  {
    if slot > bound then 0 else 1 + SlotsUntil(cron, expr, cron.next(expr, slot), bound)
  }

  ghost predicate AllParse(cron: Cron, table: map<nat, Sched>) {
    forall id :: id in table ==> cron.parses(table[id].expr)
  }

  /** The pending (schedule, slot) pairs with a slot not after `bound`, over the schedules with an id below n. */
  function Backlog(cron: Cron, table: map<nat, Sched>, bound: int, n: nat): nat
    requires Forward(cron) && AllParse(cron, table)
  {
    if n == 0 then 0
    else Backlog(cron, table, bound, n - 1)
         + (if n - 1 in table then SlotsUntil(cron, table[n - 1].expr, table[n - 1].slot, bound) else 0)
  }

  function Serve(cron: Cron, table: map<nat, Sched>, id: nat): map<nat, Sched> {
    if id in table then table[id := table[id].(slot := cron.next(table[id].expr, table[id].slot))] else table
  }

  /** A whole tick that nothing disturbs: each listed schedule fires its slot and advances. */
  function ServeAll(cron: Cron, table: map<nat, Sched>, ids: seq<nat>): map<nat, Sched>
    decreases |ids|
  {
    if ids == [] then table else ServeAll(cron, Serve(cron, table, ids[0]), ids[1..])
  }

  lemma {:induction false} ServeLowers(cron: Cron, table: map<nat, Sched>, id: nat, bound: int, n: nat)
    requires Forward(cron) && AllParse(cron, table) && id in table
    ensures AllParse(cron, Serve(cron, table, id))
    ensures Backlog(cron, Serve(cron, table, id), bound, n)
            == Backlog(cron, table, bound, n) - (if id < n && table[id].slot <= bound then 1 else 0)
  {
    if n > 0 {
      ServeLowers(cron, table, id, bound, n - 1);
    }
  }

  lemma {:induction false} UnlistedUntouched(cron: Cron, table: map<nat, Sched>, ids: seq<nat>, id: nat)
    requires id !in ids
    ensures id in ServeAll(cron, table, ids) <==> id in table
    ensures id in table ==> ServeAll(cron, table, ids)[id] == table[id]
    decreases |ids|
  {
    if ids != [] {
      UnlistedUntouched(cron, Serve(cron, table, ids[0]), ids[1..], id);
    }
  }

  lemma {:induction false} BacklogWithout(cron: Cron, table: map<nat, Sched>, id: nat, bound: int, n: nat)
    requires Forward(cron) && AllParse(cron, table) && id in table
    ensures Backlog(cron, table - {id}, bound, n)
            <= Backlog(cron, table, bound, n) - (if id < n && table[id].slot <= bound then 1 else 0)
  {
    if n > 0 {
      BacklogWithout(cron, table, id, bound, n - 1);
    }
  }

  /** Each schedule with a slot up to `bound` counts in the backlog. */
  lemma {:induction false} BacklogCovers(cron: Cron, table: map<nat, Sched>, ids: set<nat>, bound: int, n: nat)
    requires Forward(cron) && AllParse(cron, table)
    requires forall id :: id in ids ==> id < n && id in table && table[id].slot <= bound
    ensures |ids| <= Backlog(cron, table, bound, n)
    decreases n
  {
    if n == 0 {
      assert ids == {};
    } else {
      var rest := ids - {n - 1};
      assert |ids| == |rest| + if n - 1 in ids then 1 else 0;
      BacklogCovers(cron, table, rest, bound, n - 1);
    }
  }

  lemma {:induction false} BacklogOfNew(cron: Cron, table: map<nat, Sched>, id: nat, sched: Sched, bound: int, n: nat)
    requires Forward(cron) && AllParse(cron, table) && id !in table && cron.parses(sched.expr)
    ensures Backlog(cron, table[id := sched], bound, n)
            == Backlog(cron, table, bound, n) + (if id < n then SlotsUntil(cron, sched.expr, sched.slot, bound) else 0)
  {
    if n > 0 {
      BacklogOfNew(cron, table, id, sched, bound, n - 1);
    }
  }

  /**
   A new schedule adds to the backlog of a time exactly when its first slot is not after it; so it
   adds nothing to the backlog of any time up to the one at which CreateSchedule read the clock.
   */
  lemma CreatingAddsNoBacklog(cron: Cron, s: State, a: Action, bound: int, n: nat)
    requires Forward(cron) && Inv(cron, s) && AllParse(cron, s.table) && Enabled(cron, s, a) && a.Add? && s.nextId < n
    ensures AllParse(cron, Next(cron, s, a).table)
    ensures Backlog(cron, Next(cron, s, a).table, bound, n) > Backlog(cron, s.table, bound, n)
            <==> a.sched.slot <= bound
    ensures bound <= a.at ==> Backlog(cron, Next(cron, s, a).table, bound, n) == Backlog(cron, s.table, bound, n)
  {
    BacklogOfNew(cron, s.table, s.nextId, a.sched, bound, n);
  }

  /** A thread lists for no earlier time than `bound`, and its batch holds others, with slots up to `bound`. */
  ghost predicate PcBefore(pc: Pc, id: nat, bound: int, n: nat) {
    && (pc.List? ==> bound <= pc.now)
    && forall i :: 0 <= i < |BatchOf(pc)| ==>
         BatchOf(pc)[i].id != id && BatchOf(pc)[i].id < n && BatchOf(pc)[i].sched.slot <= bound
  }

  /** The schedule waits at slot `bound`, due; the schedules numbered from n on are all for later slots. */
  ghost predicate Awaits(cron: Cron, s: State, id: nat, bound: int, n: nat) {
    && Inv(cron, s) && Once(s) && bound <= s.clock
    && id in s.table && id < n && s.table[id].slot == bound
    && (forall other :: other in s.table && n <= other ==> s.table[other].slot > bound)
    && forall t :: t in s.threads ==> PcBefore(s.threads[t], id, bound, n)
  }

  ghost predicate Batched(s: State, id: nat) {
    exists t :: t in s.threads && InBatch(BatchOf(s.threads[t]), id)
  }

  ghost predicate InBatch(batch: seq<Due>, id: nat) {
    exists i :: 0 <= i < |batch| && batch[i].id == id
  }

  /** The schedules that are listed and not advanced yet. */
  ghost function Taken(s: State): set<nat> {
    set id | id in s.table && Batched(s, id)
  }

  lemma InvParses(cron: Cron, s: State)
    requires Inv(cron, s)
    ensures AllParse(cron, s.table)
  {
    forall id | id in s.table ensures cron.parses(s.table[id].expr) {
      assert SchedOk(cron, s, id, s.table[id]);
    }
  }

  /** The backlog, less what a batch has already taken of it. */
  ghost function Queue(cron: Cron, s: State, bound: int, n: nat): int
    requires Forward(cron) && AllParse(cron, s.table)
  {
    Backlog(cron, s.table, bound, n) - |Taken(s)|
  }

  /** The action leaves the schedule alone: it is not listed, not deleted, and nothing comes before it. */
  predicate Spares(a: Action, id: nat, bound: int) {
    && (a.Listed? ==> id !in a.ids)
    && (a.Delete? ==> a.id != id)
    && (a.Add? ==> a.sched.slot > bound)
  }

  ghost function TakenOf(table: map<nat, Sched>, batch: seq<Due>): set<nat> {
    set id | id in table && InBatch(batch, id)
  }

  ghost predicate OthersGone(s: State, t: Tid) {
    forall u :: u in s.threads && u != t ==> s.threads[u] == Gone
  }

  lemma TakenByOne(s: State, t: Tid)
    requires t in s.threads && OthersGone(s, t)
    ensures Taken(s) == TakenOf(s.table, BatchOf(s.threads[t]))
  {
    forall id ensures Batched(s, id) <==> InBatch(BatchOf(s.threads[t]), id) {
      assert forall u :: u in s.threads && u != t ==> BatchOf(s.threads[u]) == [];
    }
  }

  lemma TakenOfListing(table: map<nat, Sched>, ids: seq<nat>)
    requires forall i :: 0 <= i < |ids| ==> ids[i] in table
    requires forall i, j :: 0 <= i < j < |ids| ==> ids[i] != ids[j]
    ensures |TakenOf(table, Snapshot(table, ids))| == |ids|
  {
    var batch := Snapshot(table, ids);
    DistinctCount<nat>(ids);
    var listed: set<nat> := set id: nat | id in ids;
    assert |listed| == |ids|;
    forall id ensures id in TakenOf(table, batch) <==> id in listed {
      if id in ids {
        var i :| 0 <= i < |ids| && ids[i] == id;
        assert batch[i].id == id;
      }
    }
    assert TakenOf(table, batch) == listed;
  }

  /** The listing that passes a due schedule by takes fifty, all for slots no later than its own. */
  lemma PassingListing(cron: Cron, s: State, a: Action, id: nat, bound: int, n: nat)
    requires Awaits(cron, s, id, bound, n) && Enabled(cron, s, a) && a.Listed? && Spares(a, id, bound)
    ensures |a.ids| == 50 && PcBefore(Insert(Snapshot(s.table, a.ids)), id, bound, n)
  {
    var keys := DueKeys(s.table, s.threads[a.tid].now);
    assert PcBefore(s.threads[a.tid], id, bound, n);
    assert id in keys && |a.ids| == 50;
    var batch := Snapshot(s.table, a.ids);
    assert BatchOf(Insert(batch)) == batch;
    forall i | 0 <= i < |batch| ensures batch[i].id != id && batch[i].id < n && batch[i].sched.slot <= bound {
      assert a.ids[i] in keys && keys[a.ids[i]] <= keys[id];
    }
  }

  lemma Alone(s: State, t: Tid)
    requires OneLive(s) && t in s.threads && s.threads[t] != Gone
    ensures OthersGone(s, t)
  {
  }

  lemma ListedQueue(cron: Cron, s: State, a: Action, id: nat, bound: int, n: nat)
    requires Awaits(cron, s, id, bound, n) && Enabled(cron, s, a) && a.Listed? && Spares(a, id, bound)
    ensures Next(cron, s, a).table == s.table && |Taken(Next(cron, s, a))| == |Taken(s)| + 50
    ensures PcBefore(Next(cron, s, a).threads[a.tid], id, bound, n)
  {
    var s' := Next(cron, s, a);
    PassingListing(cron, s, a, id, bound, n);
    Alone(s, a.tid);
    TakenByOne(s, a.tid);
    TakenByOne(s', a.tid);
    assert BatchOf(s.threads[a.tid]) == [] && TakenOf(s.table, []) == {};
    assert BatchOf(s'.threads[a.tid]) == Snapshot(s.table, a.ids);
    TakenOfListing(s.table, a.ids);
  }

  lemma TakenOfRest(table: map<nat, Sched>, batch: seq<Due>)
    requires |batch| > 0 && forall i, j :: 0 <= i < j < |batch| ==> batch[i].id != batch[j].id
    ensures TakenOf(table, batch[1..]) == TakenOf(table, batch) - {batch[0].id}
  {
    forall id ensures InBatch(batch[1..], id) <==> InBatch(batch, id) && id != batch[0].id {
      if InBatch(batch[1..], id) {
        var i :| 0 <= i < |batch[1..]| && batch[1..][i].id == id;
        assert batch[i + 1].id == id && batch[0].id != batch[i + 1].id;
      }
      if InBatch(batch, id) && id != batch[0].id {
        var i :| 0 <= i < |batch| && batch[i].id == id;
        assert batch[1..][i - 1].id == id;
      }
    }
  }

  /** Advancing the head takes it out of the backlog and out of what is taken, or finds it deleted. */
  lemma AdvancedTable(cron: Cron, table: map<nat, Sched>, batch: seq<Due>, bound: int, n: nat)
    requires Forward(cron) && AllParse(cron, table) && |batch| > 0
    requires forall i, j :: 0 <= i < j < |batch| ==> batch[i].id != batch[j].id
    requires batch[0].id < n && batch[0].sched.slot <= bound
    requires batch[0].id in table ==> table[batch[0].id] == batch[0].sched
    ensures var table' := WithSlot(cron, table, batch[0]);
            && AllParse(cron, table')
            && Backlog(cron, table', bound, n) - |TakenOf(table', batch[1..])|
               == Backlog(cron, table, bound, n) - |TakenOf(table, batch)|
  {
    var id, table' := batch[0].id, WithSlot(cron, table, batch[0]);
    assert table'.Keys == table.Keys;
    assert TakenOf(table', batch[1..]) == TakenOf(table, batch[1..]);
    TakenOfRest(table, batch);
    if id in table {
      assert InBatch(batch, id) && id in TakenOf(table, batch);
      assert table' == Serve(cron, table, id);
      ServeLowers(cron, table, id, bound, n);
    }
  }

  lemma AdvancedQueue(cron: Cron, s: State, a: Action, id: nat, bound: int, n: nat)
    requires Forward(cron) && Awaits(cron, s, id, bound, n) && Enabled(cron, s, a) && a.Advanced? && a.ok
    ensures AllParse(cron, s.table) && AllParse(cron, Next(cron, s, a).table)
    ensures Queue(cron, Next(cron, s, a), bound, n) == Queue(cron, s, bound, n)
  {
    var batch := s.threads[a.tid].batch;
    InvParses(cron, s);
    AdvancingBatch(s, batch, id, bound, n);
    AdvancedTable(cron, s.table, batch, bound, n);
    AdvancedTaken(cron, s, Next(cron, s, a), a.tid, batch);
  }

  lemma AdvancingBatch(s: State, batch: seq<Due>, id: nat, bound: int, n: nat)
    requires BatchFresh(s, Advance(batch)) && PcBefore(Advance(batch), id, bound, n) && |batch| > 0
    ensures forall i, j :: 0 <= i < j < |batch| ==> batch[i].id != batch[j].id
    ensures batch[0].id < n && batch[0].id != id && batch[0].sched.slot <= bound
    ensures batch[0].id in s.table ==> s.table[batch[0].id] == batch[0].sched
  {
    assert BatchOf(Advance(batch)) == batch;
  }

  lemma AdvancedTaken(cron: Cron, s: State, s': State, t: Tid, batch: seq<Due>)
    requires OneLive(s) && t in s.threads && s.threads[t] == Advance(batch) && |batch| > 0
    requires s'.threads == s.threads[t := Continue(batch)]
    ensures Taken(s) == TakenOf(s.table, batch) && Taken(s') == TakenOf(s'.table, batch[1..])
  {
    Alone(s, t);
    TakenByOne(s, t);
    TakenByOne(s', t);
    assert BatchOf(Advance(batch)) == batch && BatchOf(Continue(batch)) == batch[1..];
  }

  lemma AddedQueue(cron: Cron, s: State, a: Action, id: nat, bound: int, n: nat)
    requires Forward(cron) && Awaits(cron, s, id, bound, n) && Enabled(cron, s, a) && Spares(a, id, bound) && a.Add?
    ensures AllParse(cron, s.table) && AllParse(cron, Next(cron, s, a).table)
    ensures Queue(cron, Next(cron, s, a), bound, n) == Queue(cron, s, bound, n)
  {
    InvParses(cron, s);
    BacklogOfNew(cron, s.table, s.nextId, a.sched, bound, n);
    NotBatched(s, s.nextId);
    SameThreadsBatched(s, Next(cron, s, a));
    assert Taken(Next(cron, s, a)) == Taken(s);
  }

  lemma SameThreadsBatched(s: State, s': State)
    requires s'.threads == s.threads
    ensures forall id :: Batched(s', id) <==> Batched(s, id)
  {
  }

  lemma DeletedTable(cron: Cron, table: map<nat, Sched>, taken: set<nat>, id: nat, bound: int, n: nat)
    requires Forward(cron) && AllParse(cron, table)
    requires id in taken ==> id in table && id < n && table[id].slot <= bound
    ensures AllParse(cron, table - {id})
    ensures Backlog(cron, table - {id}, bound, n) - |taken - {id}| <= Backlog(cron, table, bound, n) - |taken|
  {
    if id in table {
      BacklogWithout(cron, table, id, bound, n);
    } else {
      assert table - {id} == table;
    }
    assert |taken - {id}| == |taken| - if id in taken then 1 else 0;
  }

  lemma DeletedTaken(s: State, s': State, id: nat)
    requires s'.threads == s.threads && s'.table == s.table - {id}
    ensures Taken(s') == Taken(s) - {id}
  {
    SameThreadsBatched(s, s');
  }

  lemma DeletedQueue(cron: Cron, s: State, a: Action, id: nat, bound: int, n: nat)
    requires Forward(cron) && Awaits(cron, s, id, bound, n) && Enabled(cron, s, a) && a.Delete?
    ensures AllParse(cron, s.table) && AllParse(cron, Next(cron, s, a).table)
    ensures Queue(cron, Next(cron, s, a), bound, n) <= Queue(cron, s, bound, n)
  {
    InvParses(cron, s);
    if a.id in Taken(s) {
      BatchedBefore(s, a.id, id, bound, n);
    }
    DeletedTable(cron, s.table, Taken(s), a.id, bound, n);
    DeletedTaken(s, Next(cron, s, a), a.id);
  }

  lemma NotBatched(s: State, id: nat)
    requires Once(s) && id >= s.nextId
    ensures !Batched(s, id)
  {
    forall t | t in s.threads ensures !InBatch(BatchOf(s.threads[t]), id) {
      assert BatchFresh(s, s.threads[t]);
    }
  }

  lemma BatchedBefore(s: State, other: nat, id: nat, bound: int, n: nat)
    requires forall t :: t in s.threads ==> PcBefore(s.threads[t], id, bound, n) && BatchFresh(s, s.threads[t])
    requires Batched(s, other)
    ensures other < n && other != id && (other in s.table ==> s.table[other].slot <= bound)
  {
    var t :| t in s.threads && InBatch(BatchOf(s.threads[t]), other);
    assert PcBefore(s.threads[t], id, bound, n) && BatchFresh(s, s.threads[t]);
  }

  lemma SameBatches(s: State, s': State, t: Tid, pc: Pc)
    requires s'.table == s.table && s'.threads == s.threads[t := pc]
    requires BatchOf(pc) == if t in s.threads then BatchOf(s.threads[t]) else []
    ensures Taken(s') == Taken(s)
  {
    forall id ensures Batched(s', id) <==> Batched(s, id) {
      if Batched(s, id) {
        var u :| u in s.threads && InBatch(BatchOf(s.threads[u]), id);
        assert u in s'.threads && InBatch(BatchOf(s'.threads[u]), id);
      }
    }
  }

  /** Every other step leaves the table and the batches as they are. */
  lemma QuietQueue(cron: Cron, s: State, a: Action)
    requires Inv(cron, s) && Enabled(cron, s, a) && Flawless(s, a)
    requires !a.Listed? && !a.Advanced? && !a.Add? && !a.Delete?
    ensures Next(cron, s, a).table == s.table && Taken(Next(cron, s, a)) == Taken(s)
  {
    var s' := Next(cron, s, a);
    if a.Skip? {
      SkipImpossible(cron, s, a);
    } else if a.Pass? {
      SameThreadsBatched(s, s');
    } else {
      SameBatches(s, s', a.tid, s'.threads[a.tid]);
    }
  }

  lemma TableStillAwaits(cron: Cron, s: State, a: Action, id: nat, bound: int, n: nat)
    requires Awaits(cron, s, id, bound, n) && Enabled(cron, s, a) && Spares(a, id, bound)
    ensures var s' := Next(cron, s, a);
            && bound <= s'.clock && id in s'.table && s'.table[id].slot == bound
            && forall other :: other in s'.table && n <= other ==> s'.table[other].slot > bound
  {
    if a.Advanced? {
      AdvancingBatch(s, s.threads[a.tid].batch, id, bound, n);
    }
  }

  lemma StillAwaits(cron: Cron, s: State, a: Action, id: nat, bound: int, n: nat)
    requires Forward(cron) && Awaits(cron, s, id, bound, n)
    requires Enabled(cron, s, a) && Flawless(s, a) && Spares(a, id, bound)
    ensures Awaits(cron, Next(cron, s, a), id, bound, n)
  {
    var s' := Next(cron, s, a);
    StepKeepsInv(cron, s, a);
    StepOnce(cron, s, a);
    TableStillAwaits(cron, s, a, id, bound, n);
    forall t | t in s'.threads ensures PcBefore(s'.threads[t], id, bound, n) {
      if t in s.threads {
        PcStaysBefore(cron, s, a, t, id, bound, n);
      } else {
        assert BatchOf(s'.threads[t]) == [];
      }
    }
  }

  lemma PcStaysBefore(cron: Cron, s: State, a: Action, t: Tid, id: nat, bound: int, n: nat)
    requires Awaits(cron, s, id, bound, n) && Enabled(cron, s, a) && Spares(a, id, bound) && t in s.threads
    ensures t in Next(cron, s, a).threads ==> PcBefore(Next(cron, s, a).threads[t], id, bound, n)
  {
    if a.Listed? {
      ListedQueue(cron, s, a, id, bound, n);
    } else {
      OtherStaysBefore(cron, s, a, t, id, bound, n);
    }
  }

  /** No other step puts a schedule into a batch. */
  lemma OtherStaysBefore(cron: Cron, s: State, a: Action, t: Tid, id: nat, bound: int, n: nat)
    requires Enabled(cron, s, a) && !a.Listed? && bound <= s.clock
    requires t in s.threads && PcBefore(s.threads[t], id, bound, n)
    ensures t in Next(cron, s, a).threads ==> PcBefore(Next(cron, s, a).threads[t], id, bound, n)
  {
    var pc, pc' := s.threads[t], Next(cron, s, a).threads[t];
    if pc' != pc {
      if a.Skip? || a.Inserted? || a.Sent? || a.Advanced? {
        BatchStaysBefore(BatchOf(pc), pc, pc', id, bound, n);
      } else {
        assert BatchOf(pc') == [];
      }
    }
  }

  /** A batch goes on whole, without its head, or not at all. */
  lemma BatchStaysBefore(batch: seq<Due>, pc: Pc, pc': Pc, id: nat, bound: int, n: nat)
    requires |batch| > 0 && BatchOf(pc) == batch && PcBefore(pc, id, bound, n)
    requires pc' == Continue(batch) || pc' == Send(batch) || pc' == Advance(batch)
    ensures PcBefore(pc', id, bound, n)
  {
    if pc' == Continue(batch) && |batch| > 1 {
      assert BatchOf(pc') == batch[1..];
    } else if pc' != Gone {
      assert BatchOf(pc') == batch;
    }
  }

  lemma StepServes(cron: Cron, s: State, a: Action, id: nat, bound: int, n: nat)
    requires Forward(cron) && Awaits(cron, s, id, bound, n)
    requires Enabled(cron, s, a) && Flawless(s, a) && Spares(a, id, bound)
    ensures AllParse(cron, s.table) && AllParse(cron, Next(cron, s, a).table)
    ensures Queue(cron, Next(cron, s, a), bound, n) <= Queue(cron, s, bound, n) - if a.Listed? then 50 else 0
  {
    InvParses(cron, s);
    if a.Listed? {
      ListedQueue(cron, s, a, id, bound, n);
    } else if a.Advanced? {
      AdvancedQueue(cron, s, a, id, bound, n);
    } else if a.Add? {
      AddedQueue(cron, s, a, id, bound, n);
    } else if a.Delete? {
      DeletedQueue(cron, s, a, id, bound, n);
    } else {
      QuietQueue(cron, s, a);
    }
  }

  /** What is still in the queue includes the schedule itself. */
  lemma QueueHoldsIt(cron: Cron, s: State, id: nat, bound: int, n: nat)
    requires Forward(cron) && Awaits(cron, s, id, bound, n)
    ensures AllParse(cron, s.table) && Queue(cron, s, bound, n) >= 1
  {
    InvParses(cron, s);
    var ids := Taken(s) + {id};
    forall other | other in Taken(s) ensures other < n && other != id && s.table[other].slot <= bound {
      BatchedBefore(s, other, id, bound, n);
    }
    BacklogCovers(cron, s.table, ids, bound, n);
  }

  function Listings(run: seq<Action>): nat {
    if run == [] then 0 else (if run[0].Listed? then 1 else 0) + Listings(run[1..])
  }

  lemma {:induction false} RunServes(cron: Cron, s: State, run: seq<Action>, id: nat, bound: int, n: nat)
    requires Forward(cron) && Awaits(cron, s, id, bound, n) && FlawlessRun(cron, s, run)
    requires forall a :: a in run ==> Spares(a, id, bound)
    ensures AllParse(cron, s.table) && 50 * Listings(run) < Queue(cron, s, bound, n)
    decreases |run|
  {
    if run == [] {
      QueueHoldsIt(cron, s, id, bound, n);
    } else {
      StepServes(cron, s, run[0], id, bound, n);
      StillAwaits(cron, s, run[0], id, bound, n);
      RunServes(cron, Next(cron, s, run[0]), run[1..], id, bound, n);
    }
  }

  /** No tick has read the clock yet. */
  predicate BetweenTicks(s: State) {
    forall t :: t in s.threads ==> s.threads[t] == Gone || s.threads[t] == Clock
  }

  /**
   No due schedule starves: while it waits at its slot, the listings that pass it by number fewer
   than M / 50, where M counts the pending (schedule, slot) pairs with a slot not after its own.
   At any step schedules may be deleted, or created for later slots.
   */
  lemma NoScheduleStarves(cron: Cron, clock: int, before: seq<Action>, run: seq<Action>, id: nat, bound: int)
    requires Forward(cron) && FlawlessRun(cron, Init(clock), before) && ValidRun(cron, Init(clock), before)
    requires var s := After(cron, Init(clock), before);
             && BetweenTicks(s) && id in s.table && s.table[id].slot == bound <= s.clock
             && FlawlessRun(cron, s, run)
    requires forall a :: a in run ==> Spares(a, id, bound)
    ensures var s := After(cron, Init(clock), before);
            AllParse(cron, s.table) && 50 * Listings(run) < Backlog(cron, s.table, bound, s.nextId)
  {
    var s := After(cron, Init(clock), before);
    RunOnce(cron, Init(clock), before);
    RunKeepsInv(cron, Init(clock), before);
    forall t | t in s.threads ensures BatchOf(s.threads[t]) == [] {
      assert s.threads[t] == Gone || s.threads[t] == Clock;
    }
    assert Awaits(cron, s, id, bound, s.nextId);
    RunServes(cron, s, run, id, bound, s.nextId);
  }
}
