/**
 Recurring schedules: any number of scheduler threads read the due schedules, create and enqueue a
 job for each, and advance the schedule; any of these calls may fail, and schedules come and go.
 */
module Recurring {
  import opened Jobs
  import opened Query

  type Tid = nat

  /** The cron library: which expressions parse, and the first slot after a given time. */
  datatype Cron = Cron(parses: string -> bool, next: (string, int) -> int)

  ghost predicate Forward(cron: Cron) {
    forall expr, time: int :: cron.parses(expr) ==> cron.next(expr, time) > time
  }

  /** A row of the schedules table; `slot` is next_run_at. */
  datatype Sched = Sched(expr: string, slot: int, typ: string, payload: Bytes, queue: string, maxRetry: int32)

  datatype Due = Due(id: nat, sched: Sched)

  /**
   A slot of a schedule was fired: its job was sent, at this time. A send whose success was not
   confirmed may have happened all the same.
   */
  datatype Firing = Firing(id: nat, slot: int, at: int, confirmed: bool)

  datatype Pc =
    | Clock
    | List(now: int)
    | Insert(batch: seq<Due>)
    | Send(batch: seq<Due>)
    | Advance(batch: seq<Due>)
    | Gone

  /** `fired` and `origins` are history: the firings in order, and each schedule as it was created. */
  datatype State = State(table: map<nat, Sched>, nextId: nat, clock: int, threads: map<Tid, Pc>,
                         fired: seq<Firing>, origins: map<nat, Sched>)

  datatype Action =
    | Begin(tid: Tid)
    | ReadClock(tid: Tid)
    | Listed(tid: Tid, ids: seq<nat>)
    | ListFails(tid: Tid)
    | Skip(tid: Tid)
    | Inserted(tid: Tid, ok: bool)
    | Sent(tid: Tid, ok: bool)
    | Advanced(tid: Tid, ok: bool, applied: bool)
    | Add(sched: Sched, at: int)
    | Delete(id: nat)
    | Pass(now: int)

  function DueKeys(table: map<nat, Sched>, now: int): map<nat, int> {
    map id | id in table && table[id].slot <= now :: table[id].slot
  }

  function Snapshot(table: map<nat, Sched>, ids: seq<nat>): seq<Due>
    requires forall i :: 0 <= i < |ids| ==> ids[i] in table
  {
    seq(|ids|, i requires 0 <= i < |ids| => Due(ids[i], table[ids[i]]))
  }

  /** The loop goes on with the next due schedule, whatever happened to this one. */
  function Continue(batch: seq<Due>): Pc {
    if |batch| <= 1 then Gone else Insert(batch[1..])
  }

  ghost predicate Enabled(cron: Cron, s: State, a: Action) {
    match a
    case Begin(_) => a.tid !in s.threads
    case ReadClock(_) => a.tid in s.threads && s.threads[a.tid] == Clock
    case Listed(_, _) =>
      a.tid in s.threads && s.threads[a.tid].List? && Listing(DueKeys(s.table, s.threads[a.tid].now), 50, a.ids)
    case ListFails(_) => a.tid in s.threads && s.threads[a.tid].List?
    case Skip(_) =>
      && a.tid in s.threads && s.threads[a.tid].Insert? && |s.threads[a.tid].batch| > 0
      && !cron.parses(s.threads[a.tid].batch[0].sched.expr)
    case Inserted(_, _) =>
      && a.tid in s.threads && s.threads[a.tid].Insert? && |s.threads[a.tid].batch| > 0
      && cron.parses(s.threads[a.tid].batch[0].sched.expr)
    case Sent(_, _) => a.tid in s.threads && s.threads[a.tid].Send? && |s.threads[a.tid].batch| > 0
    case Advanced(_, _, _) =>
      && a.tid in s.threads && s.threads[a.tid].Advance? && |s.threads[a.tid].batch| > 0
      && (a.ok ==> a.applied)
    case Add(_, _) => a.at <= s.clock && cron.parses(a.sched.expr) && a.sched.slot == cron.next(a.sched.expr, a.at)
    case Delete(_) => true
    case Pass(_) => s.clock <= a.now
  }

  function Move(s: State, t: Tid, pc: Pc): State {
    s.(threads := s.threads[t := pc])
  }

  /** UPDATE schedules SET next_run_at WHERE id, from the slot that the thread had read. */
  function WithSlot(cron: Cron, table: map<nat, Sched>, d: Due): map<nat, Sched> {
    if d.id in table then table[d.id := table[d.id].(slot := cron.next(d.sched.expr, d.sched.slot))] else table
  }

  ghost function Next(cron: Cron, s: State, a: Action): State
    requires Enabled(cron, s, a)
  {
    match a
    case Begin(_) => Move(s, a.tid, Clock)
    case ReadClock(_) => Move(s, a.tid, List(s.clock))
    case Listed(_, _) => Move(s, a.tid, if a.ids == [] then Gone else Insert(Snapshot(s.table, a.ids)))
    case ListFails(_) => Move(s, a.tid, Gone)
    case Skip(_) => Move(s, a.tid, Continue(s.threads[a.tid].batch))
    case Inserted(_, _) =>
      Move(s, a.tid, if a.ok then Send(s.threads[a.tid].batch) else Continue(s.threads[a.tid].batch))
    case Sent(_, _) =>
      var batch := s.threads[a.tid].batch;
      Move(s, a.tid, if a.ok then Advance(batch) else Continue(batch))
        .(fired := s.fired + [Firing(batch[0].id, batch[0].sched.slot, s.clock, a.ok)])
    case Advanced(_, _, _) =>
      var batch := s.threads[a.tid].batch;
      Move(s, a.tid, Continue(batch)).(table := if a.applied then WithSlot(cron, s.table, batch[0]) else s.table)
    case Add(_, _) =>
      s.(table := s.table[s.nextId := a.sched], origins := s.origins[s.nextId := a.sched], nextId := s.nextId + 1)
    case Delete(_) => s.(table := s.table - {a.id})
    case Pass(_) => s.(clock := a.now)
  }

  function Init(clock: int): State {
    State(map[], 0, clock, map[], [], map[])
  }

  ghost predicate ValidRun(cron: Cron, s: State, run: seq<Action>)
    decreases |run|
  {
    run == [] || (Enabled(cron, s, run[0]) && ValidRun(cron, Next(cron, s, run[0]), run[1..]))
  }

  ghost function After(cron: Cron, s: State, run: seq<Action>): State
    requires ValidRun(cron, s, run)
    decreases |run|
  {
    if run == [] then s else After(cron, Next(cron, s, run[0]), run[1..])
  }

  // ----- None skipped, none early -----

  /** The n-th slot of a schedule: its first one, the one after that, and so on. */
  function Orbit(cron: Cron, origin: Sched, n: nat): int {
    if n == 0 then origin.slot else cron.next(origin.expr, Orbit(cron, origin, n - 1))
  }

  ghost predicate FiredBy(s: State, id: nat, slot: int, k: nat) {
    exists i :: 0 <= i < k && i < |s.fired| && s.fired[i].id == id && s.fired[i].slot == slot && s.fired[i].confirmed
  }

  /** The slot is the n-th of its schedule, and every earlier one has a confirmed firing among the first k. */
  ghost predicate NthAfterAll(cron: Cron, s: State, id: nat, slot: int, n: nat, k: nat) {
    && id in s.origins
    && slot == Orbit(cron, s.origins[id], n)
    && forall m: nat :: m < n ==> FiredBy(s, id, Orbit(cron, s.origins[id], m), k)
  }

  ghost predicate InTurn(cron: Cron, s: State, id: nat, slot: int, k: nat) {
    exists n: nat :: NthAfterAll(cron, s, id, slot, n, k)
  }

  /** What is known of a schedule read from the table, now or earlier. */
  ghost predicate SchedOk(cron: Cron, s: State, id: nat, sched: Sched) {
    && id in s.origins && sched == s.origins[id].(slot := sched.slot)
    && cron.parses(sched.expr)
    && InTurn(cron, s, id, sched.slot, |s.fired|)
  }

  ghost predicate BatchOk(cron: Cron, s: State, batch: seq<Due>) {
    forall i :: 0 <= i < |batch| ==> SchedOk(cron, s, batch[i].id, batch[i].sched) && batch[i].sched.slot <= s.clock
  }

  ghost predicate PcOk(cron: Cron, s: State, pc: Pc) {
    match pc
    case List(now) => now <= s.clock
    case Insert(batch) => BatchOk(cron, s, batch)
    case Send(batch) => BatchOk(cron, s, batch)
    case Advance(batch) =>
      BatchOk(cron, s, batch) && (|batch| > 0 ==> FiredBy(s, batch[0].id, batch[0].sched.slot, |s.fired|))
    case _ => true
  }

  ghost predicate Inv(cron: Cron, s: State) {
    && (forall id :: id in s.table ==> SchedOk(cron, s, id, s.table[id]))
    && (forall id :: id in s.origins ==> id < s.nextId)
    && (forall t :: t in s.threads ==> PcOk(cron, s, s.threads[t]))
    && (forall k :: 0 <= k < |s.fired| ==>
          InTurn(cron, s, s.fired[k].id, s.fired[k].slot, k) && s.fired[k].slot <= s.fired[k].at <= s.clock)
  }

  /** History and clock only grow. */
  ghost predicate Grows(s: State, s': State) {
    && s.fired <= s'.fired && s.clock <= s'.clock
    && forall id :: id in s.origins ==> id in s'.origins && s'.origins[id] == s.origins[id]
  }

  lemma InTurnSurvives(cron: Cron, s: State, s': State, id: nat, slot: int, k: nat, k': nat)
    requires Grows(s, s') && k <= k' && InTurn(cron, s, id, slot, k)
    ensures InTurn(cron, s', id, slot, k')
  {
    var n: nat :| NthAfterAll(cron, s, id, slot, n, k);
    forall m: nat | m < n ensures FiredBy(s', id, Orbit(cron, s.origins[id], m), k') {
      var i :| 0 <= i < k && i < |s.fired| && s.fired[i].confirmed
               && s.fired[i].id == id && s.fired[i].slot == Orbit(cron, s.origins[id], m);
      assert s'.fired[i] == s.fired[i];
    }
    assert NthAfterAll(cron, s', id, slot, n, k');
  }

  lemma SchedSurvives(cron: Cron, s: State, s': State, id: nat, sched: Sched)
    requires Grows(s, s') && SchedOk(cron, s, id, sched)
    ensures SchedOk(cron, s', id, sched)
  {
    InTurnSurvives(cron, s, s', id, sched.slot, |s.fired|, |s'.fired|);
  }

  lemma BatchSurvives(cron: Cron, s: State, s': State, batch: seq<Due>)
    requires Grows(s, s') && BatchOk(cron, s, batch)
    ensures BatchOk(cron, s', batch)
  {
    forall i | 0 <= i < |batch|
      ensures SchedOk(cron, s', batch[i].id, batch[i].sched) && batch[i].sched.slot <= s'.clock
    {
      SchedSurvives(cron, s, s', batch[i].id, batch[i].sched);
    }
  }

  lemma FiredSurvives(s: State, s': State, id: nat, slot: int)
    requires Grows(s, s') && FiredBy(s, id, slot, |s.fired|)
    ensures FiredBy(s', id, slot, |s'.fired|)
  {
    var i :| 0 <= i < |s.fired| && s.fired[i].id == id && s.fired[i].slot == slot && s.fired[i].confirmed;
    assert s'.fired[i] == s.fired[i];
  }

  lemma PcSurvives(cron: Cron, s: State, s': State, pc: Pc)
    requires Grows(s, s') && PcOk(cron, s, pc)
    ensures PcOk(cron, s', pc)
  {
    match pc
    case Insert(batch) => BatchSurvives(cron, s, s', batch);
    case Send(batch) => BatchSurvives(cron, s, s', batch);
    case Advance(batch) =>
      BatchSurvives(cron, s, s', batch);
      if |batch| > 0 {
        FiredSurvives(s, s', batch[0].id, batch[0].sched.slot);
      }
    case _ =>
  }

  /** When a slot has been fired, the next one is in turn. */
  lemma NextInTurn(cron: Cron, s: State, id: nat, sched: Sched)
    requires SchedOk(cron, s, id, sched) && FiredBy(s, id, sched.slot, |s.fired|)
    ensures SchedOk(cron, s, id, sched.(slot := cron.next(sched.expr, sched.slot)))
  {
    var n: nat :| NthAfterAll(cron, s, id, sched.slot, n, |s.fired|);
    assert NthAfterAll(cron, s, id, cron.next(sched.expr, sched.slot), n + 1, |s.fired|);
  }

  lemma StepGrows(cron: Cron, s: State, a: Action)
    requires Inv(cron, s) && Enabled(cron, s, a)
    ensures Grows(s, Next(cron, s, a))
  {
  }

  lemma TableStaysOk(cron: Cron, s: State, a: Action, id: nat)
    requires Inv(cron, s) && Enabled(cron, s, a) && id in Next(cron, s, a).table
    ensures SchedOk(cron, Next(cron, s, a), id, Next(cron, s, a).table[id])
  {
    var s' := Next(cron, s, a);
    StepGrows(cron, s, a);
    if a.Add? && id == s.nextId {
      assert NthAfterAll(cron, s', id, a.sched.slot, 0, |s'.fired|);
    } else if a.Advanced? && a.applied && id == s.threads[a.tid].batch[0].id {
      var d := s.threads[a.tid].batch[0];
      assert PcOk(cron, s, s.threads[a.tid]);
      assert SchedOk(cron, s, id, s.table[id]);
      NextInTurn(cron, s, id, d.sched);
      SchedSurvives(cron, s, s', id, d.sched.(slot := cron.next(d.sched.expr, d.sched.slot)));
    } else {
      SchedSurvives(cron, s, s', id, s.table[id]);
    }
  }

  lemma MoverStaysOk(cron: Cron, s: State, a: Action, t: Tid)
    requires Inv(cron, s) && Enabled(cron, s, a) && t in Next(cron, s, a).threads
    requires t in s.threads && Next(cron, s, a).threads[t] != s.threads[t]
    ensures PcOk(cron, Next(cron, s, a), Next(cron, s, a).threads[t])
  {
    var s' := Next(cron, s, a);
    StepGrows(cron, s, a);
    PcSurvives(cron, s, s', s.threads[t]);
    if a.Listed? {
      var now := s.threads[t].now;
      forall i | 0 <= i < |a.ids|
        ensures SchedOk(cron, s', a.ids[i], s.table[a.ids[i]]) && s.table[a.ids[i]].slot <= now {
        assert a.ids[i] in DueKeys(s.table, now);
        SchedSurvives(cron, s, s', a.ids[i], s.table[a.ids[i]]);
      }
    } else if a.Sent? && a.ok {
      assert s'.fired[|s.fired|] == Firing(s.threads[t].batch[0].id, s.threads[t].batch[0].sched.slot, s.clock, true);
    }
  }

  lemma StepKeepsInv(cron: Cron, s: State, a: Action)
    requires Inv(cron, s) && Enabled(cron, s, a)
    ensures Inv(cron, Next(cron, s, a))
  {
    var s' := Next(cron, s, a);
    StepGrows(cron, s, a);
    forall id | id in s'.table ensures SchedOk(cron, s', id, s'.table[id]) {
      TableStaysOk(cron, s, a, id);
    }
    forall t | t in s'.threads ensures PcOk(cron, s', s'.threads[t]) {
      if t in s.threads {
        if s'.threads[t] == s.threads[t] {
          PcSurvives(cron, s, s', s.threads[t]);
        } else {
          MoverStaysOk(cron, s, a, t);
        }
      }
    }
    forall k | 0 <= k < |s'.fired|
      ensures InTurn(cron, s', s'.fired[k].id, s'.fired[k].slot, k) && s'.fired[k].slot <= s'.fired[k].at <= s'.clock
    {
      if k < |s.fired| {
        assert s'.fired[k] == s.fired[k];
        InTurnSurvives(cron, s, s', s.fired[k].id, s.fired[k].slot, k, k);
      } else {
        assert PcOk(cron, s, s.threads[a.tid]);
        var d := s.threads[a.tid].batch[0];
        InTurnSurvives(cron, s, s', d.id, d.sched.slot, k, k);
      }
    }
  }

  lemma {:induction false} RunKeepsInv(cron: Cron, s: State, run: seq<Action>)
    requires Inv(cron, s) && ValidRun(cron, s, run)
    ensures Inv(cron, After(cron, s, run))
    decreases |run|
  {
    if run != [] {
      StepKeepsInv(cron, s, run[0]);
      RunKeepsInv(cron, Next(cron, s, run[0]), run[1..]);
    }
  }

  /**
   Whatever fails and however many schedulers run, each firing of a schedule, confirmed or not, is
   one of its slots n0, Next(n0), Next(Next(n0)), ..., comes after a confirmed firing of every
   earlier slot, and is not early.
   */
  lemma SlotsFireInOrbitOrder(cron: Cron, clock: int, run: seq<Action>, k: nat)
    requires ValidRun(cron, Init(clock), run) && k < |After(cron, Init(clock), run).fired|
    ensures var s := After(cron, Init(clock), run);
            var f := s.fired[k];
            && f.slot <= f.at <= s.clock
            && f.id in s.origins
            && exists n: nat ::
                 && f.slot == Orbit(cron, s.origins[f.id], n)
                 && forall m: nat :: m < n ==> FiredBy(s, f.id, Orbit(cron, s.origins[f.id], m), k)
  {
    RunKeepsInv(cron, Init(clock), run);
    var s := After(cron, Init(clock), run);
    var f := s.fired[k];
    var n: nat :| NthAfterAll(cron, s, f.id, f.slot, n, k);
  }

  lemma {:induction false} OrbitClimbs(cron: Cron, origin: Sched, m: nat, n: nat)
    requires Forward(cron) && cron.parses(origin.expr) && m <= n
    ensures Orbit(cron, origin, m) <= Orbit(cron, origin, n)
    decreases n
  {
    if m < n {
      OrbitClimbs(cron, origin, m, n - 1);
    }
  }

  /**
   next_run_at never passes an unfired slot: at any time it is one of the schedule's own slots, and
   every slot before it has a confirmed firing, whatever failed on the way.
   */
  lemma NextRunPassesOnlyFired(cron: Cron, clock: int, run: seq<Action>, id: nat)
    requires Forward(cron) && ValidRun(cron, Init(clock), run) && id in After(cron, Init(clock), run).table
    ensures var s := After(cron, Init(clock), run);
            && id in s.origins
            && (exists n: nat :: s.table[id].slot == Orbit(cron, s.origins[id], n))
            && forall m: nat :: Orbit(cron, s.origins[id], m) < s.table[id].slot ==>
                 FiredBy(s, id, Orbit(cron, s.origins[id], m), |s.fired|)
  {
    RunKeepsInv(cron, Init(clock), run);
    var s := After(cron, Init(clock), run);
    assert SchedOk(cron, s, id, s.table[id]);
    var n: nat :| NthAfterAll(cron, s, id, s.table[id].slot, n, |s.fired|);
    forall m: nat | Orbit(cron, s.origins[id], m) < s.table[id].slot
      ensures FiredBy(s, id, Orbit(cron, s.origins[id], m), |s.fired|)
    {
      if n <= m {
        OrbitClimbs(cron, s.origins[id], n, m);
      }
    }
  }

  lemma SkipImpossible(cron: Cron, s: State, a: Action)
    requires Inv(cron, s) && a.Skip?
    ensures !Enabled(cron, s, a)
  {
    if a.tid in s.threads {
      assert PcOk(cron, s, s.threads[a.tid]);
    }
  }

  /** The parser used by the scheduler accepts every schedule it ever meets: no schedule is passed over. */
  lemma NeverSkipped(cron: Cron, clock: int, run: seq<Action>, t: Tid)
    requires ValidRun(cron, Init(clock), run)
    ensures !Enabled(cron, After(cron, Init(clock), run), Skip(t))
  {
    RunKeepsInv(cron, Init(clock), run);
    SkipImpossible(cron, After(cron, Init(clock), run), Skip(t));
  }
}
