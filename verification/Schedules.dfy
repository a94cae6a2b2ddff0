/**
 The recurring scheduler's code and CreateSchedule: the schedules table as mutable state, and a tick
 that creates and enqueues jobs on the shared cluster, in the midst of its other threads.
 */
module Schedules {
  import opened Jobs
  import opened Query
  import opened Recurring
  import opened RecurringRate
  import P = Protocol
  import Shared
  import Services
  import opened Guards

  lemma {:induction false} RunAppend(cron: Cron, s: State, run: seq<Action>, a: Action)
    requires ValidRun(cron, s, run) && Enabled(cron, After(cron, s, run), a)
    ensures ValidRun(cron, s, run + [a]) && After(cron, s, run + [a]) == Next(cron, After(cron, s, run), a)
    decreases |run|
  {
    if run == [] {
      assert run + [a] == [a] && [a][1..] == [];
    } else {
      assert (run + [a])[0] == run[0] && (run + [a])[1..] == run[1..] + [a];
      RunAppend(cron, Next(cron, s, run[0]), run[1..], a);
    }
  }

  /** The others only removed schedules, and added new ones under new ids. */
  ghost predicate OthersWrote(table: map<nat, Sched>, nextId: nat, table': map<nat, Sched>, nextId': nat) {
    nextId <= nextId' && forall id :: id in table' && id < nextId ==> id in table && table'[id] == table[id]
  }

  /** A step of the scheduler that neither reads nor writes the table. */
  ghost predicate LeavesTable(cron: Cron, threads: map<Tid, Pc>, a: Action) {
    match a
    case Begin(t) => t !in threads
    case Skip(t) =>
      t in threads && threads[t].Insert? && |threads[t].batch| > 0 && !cron.parses(threads[t].batch[0].sched.expr)
    case Inserted(t, _) =>
      t in threads && threads[t].Insert? && |threads[t].batch| > 0 && cron.parses(threads[t].batch[0].sched.expr)
    case Sent(t, _) => t in threads && threads[t].Send? && |threads[t].batch| > 0
    case _ => false
  }

  /** Where such a step takes its thread. */
  ghost function Follows(threads: map<Tid, Pc>, a: Action): Pc
    requires a.Begin? || ((a.Skip? || a.Inserted? || a.Sent?) &&
                          a.tid in threads && (threads[a.tid].Insert? || threads[a.tid].Send?))
  {
    if a.Begin? then Clock else
    var batch := threads[a.tid].batch;
    if a.Inserted? && a.ok then Send(batch) else if a.Sent? && a.ok then Advance(batch) else Continue(batch)
  }

  ghost function FiringOf(threads: map<Tid, Pc>, a: Action, at: int): Firing
    requires a.Sent? && a.tid in threads && threads[a.tid].Send? && |threads[a.tid].batch| > 0
  {
    var d := threads[a.tid].batch[0];
    Firing(d.id, d.sched.slot, at, a.ok)
  }

  class Timetable {
    const cron: Cron
    var table: map<nat, Sched>
    var nextId: nat
    var clock: int
    ghost var threads: map<Tid, Pc>
    ghost var fired: seq<Firing>
    ghost var origins: map<nat, Sched>

    /** How many of the calls made through this object have returned an error. */
    ghost var faults: nat

    ghost function View(): State
      reads this
    {
      State(table, nextId, clock, threads, fired, origins)
    }

    constructor (cron: Cron, clock: int)
      ensures this.cron == cron && View() == Init(clock) && faults == 0
    {
      this.cron := cron;
      table, nextId, this.clock := map[], 0, clock;
      threads, fired, origins, faults := map[], [], map[], 0;
    }

    ghost predicate At(me: Tid, pc: Pc)
      reads this
    {
      me in threads && threads[me] == pc
    }

    /** The run led from `before` to where the system is now. */
    ghost predicate Ran(before: State, run: seq<Action>)
      reads this
    {
      ValidRun(cron, before, run) && After(cron, before, run) == View()
    }

    /** Ids are given out in order. */
    predicate Numbered()
      reads this
    {
      forall id :: id in table ==> id < nextId
    }

    /** What happens between two calls of the scheduler: schedules are created and deleted, and time passes. */
    method OthersMove(ghost before: State, ghost run: seq<Action>) returns (ghost ran: seq<Action>)
      requires Ran(before, run) && Numbered()
      modifies this`table, this`nextId, this`clock, this`origins
      ensures Ran(before, ran) && Numbered() && clock >= old(clock)
      ensures OthersWrote(old(table), old(nextId), table, nextId)
    {
      ran := run;
      var moves: seq<(Sched, int, nat, int)> := *;
      for i := 0 to |moves|
        invariant Ran(before, ran) && Numbered() && clock >= old(clock)
        invariant OthersWrote(old(table), old(nextId), table, nextId)
      {
        var (sched, at, id, later) := moves[i];
        if at <= clock && cron.parses(sched.expr) && sched.slot == cron.next(sched.expr, at) {
          RunAppend(cron, before, ran, Add(sched, at));
          ran, origins := ran + [Add(sched, at)], origins[nextId := sched];
          table, nextId := table[nextId := sched], nextId + 1;
        } else if clock <= later {
          RunAppend(cron, before, ran, Action.Pass(later));
          ran, clock := ran + [Action.Pass(later)], later;
        } else {
          RunAppend(cron, before, ran, Delete(id));
          ran, table := ran + [Delete(id)], table - {id};
        }
      }
    }

    /** The scheduler's next step, one that leaves the table alone, after whatever the others did. */
    method Step(ghost before: State, ghost run: seq<Action>, ghost a: Action) returns (ghost ran: seq<Action>)
      requires Ran(before, run) && Numbered() && LeavesTable(cron, threads, a)
      modifies this
      ensures Ran(before, ran) && Numbered() && clock >= old(clock) && faults == old(faults)
      ensures OthersWrote(old(table), old(nextId), table, nextId)
      ensures threads == old(threads)[a.tid := Follows(old(threads), a)]
      ensures fired == old(fired) || a.Sent?
      ensures a.Sent? ==> exists at :: old(clock) <= at && fired == old(fired) + [FiringOf(old(threads), a, at)]
    {
      ran := OthersMove(before, run);
      RunAppend(cron, before, ran, a);
      ghost var after := Next(cron, View(), a);
      ran, threads, fired := ran + [a], after.threads, after.fired;
      assert a.Sent? ==> fired == old(fired) + [FiringOf(old(threads), a, clock)];
    }

    method Now(ghost before: State, ghost run: seq<Action>, ghost me: Tid) returns (now: int, ghost ran: seq<Action>)
      requires Ran(before, run) && Numbered() && At(me, Clock)
      modifies this
      ensures Ran(before, ran) && Numbered() && At(me, List(now)) && old(clock) <= now <= clock
      ensures OthersWrote(old(table), old(nextId), table, nextId)
      ensures fired == old(fired) && faults == old(faults)
    {
      ran := OthersMove(before, run);
      now := clock;
      RunAppend(cron, before, ran, ReadClock(me));
      ran, threads := ran + [ReadClock(me)], threads[me := List(now)];
    }

    /** The query reads the table as the others have left it, `listed`. */
    method ListSchedulesDue(ghost before: State, ghost run: seq<Action>, ghost me: Tid, now: int)
      returns (ok: bool, due: seq<Due>, ghost ids: seq<nat>, ghost ran: seq<Action>)
      requires Ran(before, run) && Numbered() && At(me, List(now))
      modifies this
      ensures Ran(before, ran) && Numbered() && clock >= old(clock)
      ensures OthersWrote(old(table), old(nextId), table, nextId) && fired == old(fired)
      ensures At(me, if ok && due != [] then Insert(due) else Gone)
      ensures ok ==> Listing(DueKeys(table, now), 50, ids) && due == Snapshot(table, ids)
      ensures faults == old(faults) + if ok then 0 else 1
    {
      ran := OthersMove(before, run);
      ok := *;
      due, ids := [], [];
      if ok {
        var found := table;
        var selected := Select(DueKeys(found, now), 50);
        ids := selected;
        due := Snapshot(found, selected);
      }
      ghost var a := if ok then Listed(me, ids) else ListFails(me);
      RunAppend(cron, before, ran, a);
      ran, threads := ran + [a], Next(cron, View(), a).threads;
      faults := faults + if ok then 0 else 1;
    }

    /** The update of one schedule; one that fails may have taken effect. */
    method UpdateScheduleNextRun(ghost before: State, ghost run: seq<Action>, ghost me: Tid, id: nat, slot: int)
      returns (ok: bool, ghost ran: seq<Action>)
      requires Ran(before, run) && Numbered() && me in threads && threads[me].Advance? && |threads[me].batch| > 0
      requires var d := threads[me].batch[0]; id == d.id && slot == cron.next(d.sched.expr, d.sched.slot)
      modifies this
      ensures Ran(before, ran) && Numbered() && At(me, Continue(old(threads[me].batch)))
      ensures clock >= old(clock) && nextId >= old(nextId)
      ensures var served := WithSlot(cron, old(table), old(threads[me].batch[0]));
              ok ==> OthersWrote(served, old(nextId), table, nextId)
      ensures fired == old(fired) && faults == old(faults) + if ok then 0 else 1
    {
      ran := OthersMove(before, run);
      ok := *;
      var lost: bool := *;
      ghost var a := Advanced(me, ok, ok || lost);
      RunAppend(cron, before, ran, a);
      ghost var after := Next(cron, View(), a);
      if (ok || lost) && id in table {
        table := table[id := table[id].(slot := slot)];
      }
      ran, threads := ran + [a], after.threads;
      faults := faults + if ok then 0 else 1;
    }

    /** The insertion of a schedule, its first slot computed from the time read a moment ago. */
    method InsertSchedule(sched: Sched, ghost at: int) returns (id: Option<nat>)
      requires Enabled(cron, View(), Add(sched, at))
      modifies this
      ensures id.Some? ==> id.value == old(nextId) && View() == Next(cron, old(View()), Add(sched, at))
      ensures id.Some? ==> table == old(table)[id.value := sched] && nextId == old(nextId) + 1
      ensures id.None? ==> View() == old(View()) || View() == Next(cron, old(View()), Add(sched, at))
      ensures faults == old(faults) + if id.Some? then 0 else 1
    {
      var ok: bool, lost: bool := *, *;
      id := if ok then Some(nextId) else None;
      if ok || lost {
        origins := origins[nextId := sched];
        table := table[nextId := sched];
        nextId := nextId + 1;
      }
      faults := faults + if ok then 0 else 1;
    }

    /** Between the reading of the clock and the insertion the others move; `mid` is the state the insertion meets. */
    method CreateSchedule(ghost before: State, ghost run: seq<Action>, name: string, jobType: string,
                          payload: Option<Bytes>, cronExpr: string, queue: string, maxRetry: int32)
      returns (id: Option<nat>, ghost mid: State, ghost ran: seq<Action>)
      requires Ran(before, run) && Numbered()
      modifies this
      ensures Ran(before, ran) && Numbered()
      ensures name == "" || jobType == "" || cronExpr == "" || !cron.parses(cronExpr) ==>
                id.None? && View() == old(View())
      ensures name != "" && jobType != "" && cronExpr != "" && cron.parses(cronExpr) ==>
                var first := cron.next(cronExpr, old(clock));
                var stored := if payload.Some? then payload.value else "{}";
                var add := Add(Sched(cronExpr, first, jobType, stored, NormalQueue(queue), maxRetry), old(clock));
                && OthersWrote(old(table), old(nextId), mid.table, mid.nextId) && Enabled(cron, mid, add)
                && (View() == Next(cron, mid, add) || (id.None? && View() == mid))
                && (id.Some? ==> id.value == mid.nextId && id.value in table && table[id.value] == add.sched)
                && (id.None? ==> faults > old(faults))
    {
      mid, ran := View(), run;
      if name == "" || jobType == "" || cronExpr == "" {
        return None, mid, ran;
      }
      if !cron.parses(cronExpr) {
        return None, mid, ran;
      }
      var now := clock;
      var stored := if payload.Some? then payload.value else "{}";
      var sched := Sched(cronExpr, cron.next(cronExpr, now), jobType, stored, NormalQueue(queue), maxRetry);
      ran := OthersMove(before, run);
      mid := View();
      RunAppend(cron, before, ran, Add(sched, now));
      id := InsertSchedule(sched, now);
      ran := if View() == mid then ran else ran + [Add(sched, now)];
    }
  }

  // ----- internal/scheduler/recurring.go -----

  /** A job of the schedule was put on the log, from offset n on: its first attempt, of no priority. */
  ghost predicate JobSent(log: seq<Message>, n: nat, sched: Sched) {
    exists jobId: JobId :: Asked(log, n, jobId, sched.typ, sched.payload, sched.queue, sched.maxRetry, 0, 0)
  }

  /** Its row is in the table. */
  ghost predicate JobStored(rows: map<JobId, Row>, jobId: JobId, sched: Sched) {
    && jobId in rows && rows[jobId].typ == sched.typ && rows[jobId].payload == sched.payload
    && rows[jobId].queue == sched.queue && rows[jobId].runAt == 0 && rows[jobId].priority == 0 && rows[jobId].key == ""
  }

  function JobOf(sched: Sched, jobId: JobId): P.LaunchArgs {
    P.LaunchArgs(jobId, sched.typ, sched.payload, sched.queue, sched.maxRetry, 0)
  }

  lemma SentLater(log: seq<Message>, log': seq<Message>, n: nat, sched: Sched)
    requires log <= log' && JobSent(log, n, sched)
    ensures JobSent(log', n, sched)
  {
    var jobId :| Asked(log, n, jobId, sched.typ, sched.payload, sched.queue, sched.maxRetry, 0, 0);
    var k :| n <= k < |log|
             && Asks(log[k], jobId, sched.typ, sched.payload, sched.queue, sched.maxRetry, 0, 0);
    assert log'[k] == log[k];
    assert Asked(log', n, jobId, sched.typ, sched.payload, sched.queue, sched.maxRetry, 0, 0);
  }

  lemma SentEarlier(log: seq<Message>, n: nat, n': nat, sched: Sched)
    requires n <= n' && JobSent(log, n', sched)
    ensures JobSent(log, n, sched)
  {
    var jobId :| Asked(log, n', jobId, sched.typ, sched.payload, sched.queue, sched.maxRetry, 0, 0);
    AskedEarlier(log, n, n', jobId, sched.typ, sched.payload, sched.queue, sched.maxRetry, 0, 0);
  }

  ghost predicate JobsSent(log: seq<Message>, n: nat, due: seq<Due>, i: nat) {
    i <= |due| && forall j :: 0 <= j < i ==> JobSent(log, n, due[j].sched)
  }

  lemma OneMoreSent(log: seq<Message>, log': seq<Message>, n: nat, due: seq<Due>, i: nat)
    requires n <= |log| && log <= log' && i < |due| && JobsSent(log, n, due, i) && JobSent(log', |log|, due[i].sched)
    ensures JobsSent(log', n, due, i + 1)
  {
    forall j | 0 <= j < i ensures JobSent(log', n, due[j].sched) {
      SentLater(log, log', n, due[j].sched);
    }
    SentEarlier(log', n, |log|, due[i].sched);
  }

  /** Store.Create and Producer.Enqueue for the job of a schedule, as a thread of the cluster. */
  method Launch(c: Shared.Cluster, ghost origin: P.State, sched: Sched) returns (created: bool, sent: bool)
    requires P.Reach(c.env, origin, c.View())
    modifies c
    ensures P.Reach(c.env, origin, c.View()) && old(c.log) <= c.log
    ensures created ==> exists jobId :: JobStored(c.rows, jobId, sched)
    ensures sent ==> created && JobSent(c.log, |old(c.log)|, sched)
    ensures c.faults == old(c.faults) + if sent then 0 else 1
  {
    ghost var here := c.View();
    P.ReachSelf(c.env, here);
    var jobId := Services.NewUuid();
    ghost var t := c.Enter(here, P.Launching(true, JobOf(sched, jobId)));
    created, sent := Services.LaunchJob(c, here, t, JobOf(sched, jobId));
    P.ReachGrows(c.env, here, c.View());
    if sent {
      assert Asked(c.log, |here.db.log|, jobId, sched.typ, sched.payload, sched.queue, sched.maxRetry, 0, 0);
    }
    if created {
      var row := Row(sched.typ, sched.payload, sched.queue, Pending, 0, 0, "", 0);
      CreatedStays(c.env, here, c.View(), t, jobId, row);
      assert JobStored(c.rows, jobId, sched);
    }
    P.ReachTransitive(c.env, origin, here, c.View());
  }

  lemma {:induction false} ServeOneMore(cron: Cron, table: map<nat, Sched>, ids: seq<nat>, id: nat)
    requires id !in ids
    ensures ServeAll(cron, table, ids + [id]) == Serve(cron, ServeAll(cron, table, ids), id)
    decreases |ids|
  {
    if ids == [] {
      assert (ids + [id])[1..] == [];
    } else {
      assert (ids + [id])[0] == ids[0] && (ids + [id])[1..] == ids[1..] + [id];
      ServeOneMore(cron, Serve(cron, table, ids[0]), ids[1..], id);
    }
  }

  /** Of the schedules in `served`, those that were not deleted are as it says. */
  ghost predicate Matches(table: map<nat, Sched>, served: map<nat, Sched>) {
    forall id :: id in table && id in served ==> table[id] == served[id]
  }

  /** What the tick has fired since `before`: the slots of its first i schedules, each confirmed. */
  ghost predicate FiredInTurn(before: seq<Firing>, fired: seq<Firing>, due: seq<Due>, i: nat) {
    && i <= |due| && |fired| == |before| + i && before <= fired
    && forall j :: 0 <= j < i ==>
         var f := fired[|before| + j]; f.id == due[j].id && f.slot == due[j].sched.slot && f.confirmed
  }

  lemma FiredOneMore(before: seq<Firing>, fired: seq<Firing>, due: seq<Due>, i: nat, at: int)
    requires FiredInTurn(before, fired, due, i) && i < |due|
    ensures FiredInTurn(before, fired + [Firing(due[i].id, due[i].sched.slot, at, true)], due, i + 1)
  {
  }

  /** The tick so far: its first i schedules fired their slots, are advanced, and have jobs on the log. */
  ghost predicate CleanSoFar(cron: Cron, listed: map<nat, Sched>, ids: seq<nat>, i: nat, t: State, fired: seq<Firing>,
                             log: seq<Message>, n: nat) {
    && i <= |ids| && (forall j :: 0 <= j < |ids| ==> ids[j] in listed)
    && Matches(t.table, ServeAll(cron, listed, ids[..i]))
    && FiredInTurn(fired, t.fired, Snapshot(listed, ids), i)
    && JobsSent(log, n, Snapshot(listed, ids), i)
  }

  lemma {:induction false} ServeKeepsIds(cron: Cron, table: map<nat, Sched>, ids: seq<nat>)
    ensures ServeAll(cron, table, ids).Keys == table.Keys
    decreases |ids|
  {
    if ids != [] {
      ServeKeepsIds(cron, Serve(cron, table, ids[0]), ids[1..]);
    }
  }

  lemma MatchesOneMore(cron: Cron, listed: map<nat, Sched>, ids: seq<nat>, i: nat, table: map<nat, Sched>, nextId: nat,
                       table': map<nat, Sched>, nextId': nat)
    requires i < |ids| && (forall j :: 0 <= j < |ids| ==> ids[j] in listed) && forall id :: id in listed ==> id < nextId
    requires forall j, k :: 0 <= j < k < |ids| ==> ids[j] != ids[k]
    requires Matches(table, ServeAll(cron, listed, ids[..i]))
    requires OthersWrote(WithSlot(cron, table, Due(ids[i], listed[ids[i]])), nextId, table', nextId')
    ensures Matches(table', ServeAll(cron, listed, ids[..i + 1]))
  {
    var served := ServeAll(cron, listed, ids[..i]);
    assert ids[..i + 1] == ids[..i] + [ids[i]];
    ServeKeepsIds(cron, listed, ids[..i]);
    UnlistedUntouched(cron, listed, ids[..i], ids[i]);
    ServeOneMore(cron, listed, ids[..i], ids[i]);
    assert Serve(cron, served, ids[i]) == WithSlot(cron, served, Due(ids[i], listed[ids[i]]));
  }

  lemma CleanOneMore(cron: Cron, listed: map<nat, Sched>, ids: seq<nat>, i: nat, t: State, t': State,
                     fired: seq<Firing>, log: seq<Message>, log': seq<Message>, n: nat, at: int)
    requires CleanSoFar(cron, listed, ids, i, t, fired, log, n) && i < |ids|
    requires forall id :: id in listed ==> id < t.nextId
    requires forall j, k :: 0 <= j < k < |ids| ==> ids[j] != ids[k]
    requires OthersWrote(WithSlot(cron, t.table, Due(ids[i], listed[ids[i]])), t.nextId, t'.table, t'.nextId)
    requires t'.fired == t.fired + [Firing(ids[i], listed[ids[i]].slot, at, true)]
    requires n <= |log| && log <= log' && JobSent(log', |log|, listed[ids[i]])
    ensures CleanSoFar(cron, listed, ids, i + 1, t', fired, log', n)
  {
    var due := Snapshot(listed, ids);
    MatchesOneMore(cron, listed, ids, i, t.table, t.nextId, t'.table, t'.nextId);
    FiredOneMore(fired, t.fired, due, i, at);
    OneMoreSent(log, log', n, due, i);
  }

  // ----- The tick -----

  /** The job of a schedule, as far as the scheduler's thread: created and sent, or not. */
  method FireSchedule(t: Timetable, c: Shared.Cluster, ghost origin: P.State, ghost before: State,
                      ghost run: seq<Action>, ghost me: Tid, ghost batch: seq<Due>, due: Due)
    returns (sent: bool, ghost ran: seq<Action>)
    requires P.Reach(c.env, origin, c.View()) && t.Ran(before, run) && t.Numbered()
    requires |batch| > 0 && batch[0] == due && t.At(me, Insert(batch)) && t.cron.parses(due.sched.expr)
    modifies t, c
    ensures P.Reach(c.env, origin, c.View()) && t.Ran(before, ran) && t.Numbered()
    ensures t.At(me, if sent then Advance(batch) else Continue(batch))
    ensures OthersWrote(old(t.table), old(t.nextId), t.table, t.nextId)
    ensures old(c.log) <= c.log && (sent ==> JobSent(c.log, |old(c.log)|, due.sched))
    ensures sent ==> exists at :: t.fired == old(t.fired) + [Firing(due.id, due.sched.slot, at, true)]
    ensures t.faults == old(t.faults) && c.faults == old(c.faults) + if sent then 0 else 1
  {
    var created: bool;
    created, sent := Launch(c, origin, due.sched);
    ran := t.Step(before, run, Inserted(me, created));
    if created {
      ran := t.Step(before, ran, Sent(me, sent));
    }
  }

  /** One round of the tick's loop. It ends where the automaton's thread goes on with the rest of its batch. */
  method ServeSchedule(t: Timetable, c: Shared.Cluster, ghost origin: P.State, ghost before: State,
                       ghost run: seq<Action>, ghost me: Tid, ghost batch: seq<Due>, due: Due)
    returns (ok: bool, ghost ran: seq<Action>)
    requires P.Reach(c.env, origin, c.View()) && t.Ran(before, run) && t.Numbered()
    requires |batch| > 0 && batch[0] == due && t.At(me, Insert(batch))
    modifies t, c
    ensures P.Reach(c.env, origin, c.View()) && t.Ran(before, ran) && t.Numbered() && t.At(me, Continue(batch))
    ensures old(c.log) <= c.log && old(t.nextId) <= t.nextId && (ok ==> JobSent(c.log, |old(c.log)|, due.sched))
    ensures ok ==> OthersWrote(WithSlot(t.cron, old(t.table), due), old(t.nextId), t.table, t.nextId)
    ensures ok ==> exists at :: t.fired == old(t.fired) + [Firing(due.id, due.sched.slot, at, true)]
    ensures c.faults + t.faults >= old(c.faults) + old(t.faults)
    ensures !ok ==> !t.cron.parses(due.sched.expr) || c.faults + t.faults > old(c.faults) + old(t.faults)
  {
    if !t.cron.parses(due.sched.expr) {
      ran := t.Step(before, run, Skip(me));
      return false, ran;
    }
    var sent: bool;
    sent, ran := FireSchedule(t, c, origin, before, run, me, batch, due);
    if !sent {
      return false, ran;
    }
    var nextRun := t.cron.next(due.sched.expr, due.sched.slot);
    ok, ran := t.UpdateScheduleNextRun(before, ran, me, due.id, nextRun);
  }

  /** The start of a tick: what is due by now, in the table as it is when listed. */
  method ListDueNow(t: Timetable, ghost me: Tid)
    returns (ok: bool, due: seq<Due>, now: int, ghost ids: seq<nat>, ghost run: seq<Action>)
    requires me !in t.threads && t.Numbered()
    modifies t
    ensures t.Ran(old(t.View()), run) && t.Numbered() && old(t.clock) <= now <= t.clock
    ensures t.At(me, if ok && due != [] then Insert(due) else Gone)
    ensures OthersWrote(old(t.table), old(t.nextId), t.table, t.nextId) && t.fired == old(t.fired)
    ensures ok ==> Listing(DueKeys(t.table, now), 50, ids) && due == Snapshot(t.table, ids)
    ensures t.faults == old(t.faults) + if ok then 0 else 1
  {
    ghost var before := t.View();
    run := t.Step(before, [], Begin(me));
    now, run := t.Now(before, run, me);
    ok, due, ids, run := t.ListSchedulesDue(before, run, me, now);
  }

  /** Where the thread is before the i-th schedule of its batch. */
  function From(due: seq<Due>, i: nat): Pc
    requires i <= |due|
  {
    if i == |due| then Gone else Insert(due[i..])
  }

  lemma ContinueFrom(due: seq<Due>, i: nat)
    requires i < |due|
    ensures Continue(due[i..]) == From(due, i + 1)
  {
    assert due[i..][1..] == due[i + 1..];
  }

  /** The loop of a tick. */
  method ServeAllDue(t: Timetable, c: Shared.Cluster, ghost origin: P.State, ghost before: State,
                     ghost opening: seq<Action>, ghost me: Tid, due: seq<Due>, ghost ids: seq<nat>, ghost now: int)
    returns (clean: bool, ghost run: seq<Action>)
    requires P.Reach(c.env, origin, c.View()) && t.Ran(before, opening) && t.Numbered()
    requires Listing(DueKeys(t.table, now), 50, ids) && due == Snapshot(t.table, ids)
    requires t.At(me, From(due, 0))
    modifies t, c
    ensures P.Reach(c.env, origin, c.View()) && t.Ran(before, run) && t.Numbered() && t.At(me, Gone)
    ensures clean ==> CleanSoFar(t.cron, old(t.table), ids, |ids|, t.View(), old(t.fired), c.log, |old(c.log)|)
    ensures c.faults + t.faults >= old(c.faults) + old(t.faults)
    ensures !clean ==> !AllParse(t.cron, old(t.table)) || c.faults + t.faults > old(c.faults) + old(t.faults)
  {
    ghost var listed := t.table;
    run, clean := opening, true;
    var i := 0;
    while i < |due|
      invariant 0 <= i <= |due| == |ids|
      invariant P.Reach(c.env, origin, c.View()) && t.Ran(before, run) && t.Numbered() && t.At(me, From(due, i))
      invariant old(t.nextId) <= t.nextId && old(c.log) <= c.log
      invariant clean ==> CleanSoFar(t.cron, listed, ids, i, t.View(), old(t.fired), c.log, |old(c.log)|)
      invariant c.faults + t.faults >= old(c.faults) + old(t.faults)
      invariant !clean ==> !AllParse(t.cron, listed) || c.faults + t.faults > old(c.faults) + old(t.faults)
    {
      ghost var here, log := t.View(), c.log;
      var ok: bool;
      ok, run := ServeSchedule(t, c, origin, before, run, me, due[i..], due[i]);
      ContinueFrom(due, i);
      if clean && ok {
        ghost var at :| t.fired == here.fired + [Firing(due[i].id, due[i].sched.slot, at, true)];
        CleanOneMore(t.cron, listed, ids, i, here, t.View(), old(t.fired), log, c.log, |old(c.log)|, at);
      }
      clean := clean && ok;
      i := i + 1;
    }
  }

  /**
   A tick, with schedules created and deleted between any two of its calls. Whatever fails, it is a
   run of the scheduler's automaton; and it is clean, unless a call returned an error or an
   expression does not parse. Then it fires exactly the slots of the listed schedules, in order, puts a
   job of each on the log, and leaves each schedule that was not deleted as `ServeAll` says.
   */
  method RunRecurringTick(t: Timetable, c: Shared.Cluster, ghost origin: P.State, ghost me: Tid)
    returns (clean: bool, ghost run: seq<Action>, ghost ids: seq<nat>, ghost listed: map<nat, Sched>, ghost now: int)
    requires P.Reach(c.env, origin, c.View()) && me !in t.threads && t.Numbered()
    modifies t, c
    ensures P.Reach(c.env, origin, c.View()) && t.Numbered()
    ensures t.Ran(old(t.View()), run) && t.At(me, Gone)
    ensures exists nextId :: OthersWrote(old(t.table), old(t.nextId), listed, nextId)
    ensures clean ==>
              && old(t.clock) <= now && Listing(DueKeys(listed, now), 50, ids)
              && CleanSoFar(t.cron, listed, ids, |ids|, t.View(), old(t.fired), c.log, |old(c.log)|)
    ensures !clean ==> !AllParse(t.cron, listed) || c.faults + t.faults > old(c.faults) + old(t.faults)
  {
    ghost var before := t.View();
    var due: seq<Due>, time: int;
    clean, due, time, ids, run := ListDueNow(t, me);
    listed, now := t.table, time;
    if clean {
      assert due[0..] == due;
      clean, run := ServeAllDue(t, c, origin, before, run, me, due, ids, now);
    }
  }
}
