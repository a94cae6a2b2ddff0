/**
 The shared store, producer and clock as mutable state, one method per call. The contract of each
 method says that at some moment its thread's call got this reply and had its effect, and that the
 system moved by some run of the protocol before and after: code written against these contracts is
 correct under any interference.
 */
module Shared {
  import opened Jobs
  import opened Query
  import opened Protocol

  class Cluster {
    const env: Env
    var rows: map<JobId, Row>
    var log: seq<Message>
    var outbox: seq<OutboxRow>
    var paused: set<string>
    var clock: int
    ghost var threads: map<Tid, Pc>
    ghost var failures: set<nat>
    ghost var promoted: seq<Due>

    /** How many of the calls made through this object have returned an error. */
    ghost var faults: nat

    ghost function Db(): Tables
      reads this
    {
      Tables(rows, log, outbox, paused, clock)
    }

    ghost function View(): State
      reads this
    {
      State(Db(), threads, failures, promoted)
    }

    constructor (env: Env, clock: int)
      ensures this.env == env && View() == Init(clock) && faults == 0
    {
      this.env := env;
      rows, log, outbox, paused, this.clock := map[], [], [], {}, clock;
      threads, failures, promoted, faults := map[], {}, [], 0;
    }

    /** The thread is at a place whose next call is this one, in a run that began at `origin`. */
    ghost predicate Calls(origin: State, me: Tid, call: Call)
      reads this
    {
      Reach(env, origin, View()) && me in threads && CallOf(threads[me]) == call
    }

    /** The call got this reply on the way from `origin`, and the thread went on; the others may have moved too. */
    ghost predicate Resumed(origin: State, me: Tid, pc: Pc, reply: Reply)
      reads this
    {
      && Reach(env, origin, View()) && me in threads && threads[me] == Resume(pc, reply)
      && Took(env, origin, View(), me, pc, reply) && Got(env, origin, View(), me, CallOf(pc), reply)
    }

    /** The same after a write; one that failed may have taken effect. */
    ghost predicate Written(origin: State, me: Tid, pc: Pc, ok: bool)
      reads this
    {
      if ok then Resumed(origin, me, pc, Ok)
      else Resumed(origin, me, pc, Failure(false)) || Resumed(origin, me, pc, Failure(true))
    }

    // ----- Threads -----

    ghost method Enter(origin: State, entry: Pc) returns (me: Tid)
      requires Reach(env, origin, View()) && Entry(entry)
      modifies this`threads
      ensures Reach(env, origin, View()) && Reach(env, old(View()), View())
      ensures me in threads && threads[me] == entry
    {
      me := FreshTid(threads);
      ReachStep(env, View(), Begin(me, entry));
      ghost var after := Do(env, origin, View(), Begin(me, entry));
      threads := threads[me := entry];
    }

    /** A delivery of message k to a new worker thread. */
    ghost method Take(origin: State, k: nat) returns (me: Tid)
      requires Reach(env, origin, View()) && k < |log|
      modifies this`threads
      ensures Reach(env, origin, View()) && Reach(env, old(View()), View())
      ensures me in threads && threads[me] == Working(PauseCheck, k, log[k])
    {
      me := FreshTid(threads);
      ReachStep(env, View(), Deliver(me, k));
      ghost var after := Do(env, origin, View(), Deliver(me, k));
      threads := threads[me := Working(PauseCheck, k, log[k])];
    }

    ghost method Advance(origin: State, before: State, me: Tid, reply: Reply)
      requires Reach(env, origin, before) && me in before.threads
      requires Possible(env, before.db, CallOf(before.threads[me]), reply)
      requires View() == before.(db := Apply(before.db, CallOf(before.threads[me]), reply))
      modifies this`threads, this`failures, this`promoted
      ensures Resumed(origin, me, before.threads[me], reply) && Reach(env, before, View())
      ensures View() == Next(before, Step(me, reply))
    {
      ReachStep(env, before, Step(me, reply));
      var after := Do(env, origin, before, Step(me, reply));
      threads, failures, promoted := after.threads, after.failures, after.promoted;
      TakesStep(env, origin, before, me, reply);
    }

    // ----- internal/store/postgres.go -----

    method GetQueue(ghost origin: State, ghost me: Tid, queue: string) returns (answer: Option<bool>)
      requires Calls(origin, me, Call.GetQueue(queue))
      modifies this
      ensures Resumed(origin, me, old(threads[me]), if answer.None? then Failure(false) else IsPaused(answer.value))
      ensures answer.Some? ==> PausedWas(env, origin, View(), queue, answer.value)
      ensures Reach(env, old(View()), View()) && faults == old(faults) + if answer.Some? then 0 else 1
    {
      var ok: bool := *;
      answer := if ok then Some(queue in paused) else None;
      ghost var before := View();
      Advance(origin, before, me, if ok then IsPaused(queue in paused) else Failure(false));
      assert OnTheWay(env, origin, before, View());
      faults := faults + if ok then 0 else 1;
    }

    method GetByID(ghost origin: State, ghost me: Tid, id: JobId) returns (ok: bool, row: Option<Row>)
      requires Calls(origin, me, GetById(id))
      modifies this
      ensures Resumed(origin, me, old(threads[me]), if ok then Found(row) else Failure(false))
      ensures (ok ==> RowWas(env, origin, View(), id, row)) && (row.Some? ==> id in rows)
      ensures Reach(env, old(View()), View()) && faults == old(faults) + if ok then 0 else 1
    {
      ok := *;
      row := if ok then Lookup(rows, id) else None;
      ghost var before := View();
      Advance(origin, before, me, if ok then Found(row) else Failure(false));
      assert OnTheWay(env, origin, before, View());
      faults := faults + if ok then 0 else 1;
    }

    method GetByIdempotencyKey(ghost origin: State, ghost me: Tid, typ: string, queue: string, key: string)
      returns (ok: bool, id: Option<JobId>)
      requires Calls(origin, me, FindKey(typ, queue, key))
      modifies this
      ensures Resumed(origin, me, old(threads[me]), if ok then FoundId(id) else Failure(false))
      ensures Reach(env, old(View()), View()) && faults == old(faults) + if ok then 0 else 1
    {
      ok := *;
      id := None;
      if found :| found in rows && SameKey(rows[found], typ, queue, key) {
        id := Some(found);
      }
      Advance(origin, View(), me, if ok then FoundId(id) else Failure(false));
      faults := faults + if ok then 0 else 1;
    }

    /** An insert that breaks the primary key or the unique index is refused with an error. */
    method Create(ghost origin: State, ghost me: Tid, id: JobId, row: Row) returns (ok: bool)
      requires Calls(origin, me, Call.Create(id, row))
      modifies this
      ensures Written(origin, me, old(threads[me]), ok)
      ensures Reach(env, old(View()), View()) && faults == old(faults) + if ok then 0 else 1
    {
      ghost var before := View();
      ok := *;
      var lost: bool := *;
      if Insertable(rows, id, row) && (ok || lost) {
        rows := rows[id := row];
      } else {
        ok, lost := false, false;
      }
      Advance(origin, before, me, if ok then Ok else Failure(lost));
      faults := faults + if ok then 0 else 1;
    }

    method UpdateStatus(ghost origin: State, ghost me: Tid, id: JobId, status: Status, attempt: int32)
      returns (ok: bool)
      requires Calls(origin, me, SetStatus(id, status, attempt))
      modifies this
      ensures Written(origin, me, old(threads[me]), ok)
      ensures ok ==> Made(env, origin, View(), me, SetStatus(id, status, attempt))
      ensures Reach(env, old(View()), View()) && faults == old(faults) + if ok then 0 else 1
    {
      ghost var before := View();
      ok := *;
      var lost: bool := *;
      if ok || lost {
        rows := WithStatus(rows, id, status, attempt);
      }
      Advance(origin, before, me, if ok then Ok else Failure(lost));
      faults := faults + if ok then 0 else 1;
    }

    method CompleteJobWithOutbox(ghost origin: State, ghost me: Tid, id: JobId, attempt: int32, mail: OutboxRow)
      returns (ok: bool)
      requires Calls(origin, me, CompleteWithOutbox(id, attempt, mail))
      modifies this
      ensures Written(origin, me, old(threads[me]), ok)
      ensures ok ==> mail in outbox && Made(env, origin, View(), me, CompleteWithOutbox(id, attempt, mail))
      ensures Reach(env, old(View()), View()) && faults == old(faults) + if ok then 0 else 1
    {
      ghost var before := View();
      ok := *;
      var lost: bool := *;
      if ok || lost {
        rows := WithStatus(rows, id, Completed, attempt);
        outbox := outbox + [mail];
      }
      Advance(origin, before, me, if ok then Ok else Failure(lost));
      faults := faults + if ok then 0 else 1;
    }

    method ListScheduledDue(ghost origin: State, ghost me: Tid, now: int) returns (ok: bool, due: seq<Due>)
      requires Calls(origin, me, ListDue(now)) && origin.db.clock <= now <= clock
      modifies this
      ensures Resumed(origin, me, old(threads[me]), if ok then Listed(due) else Failure(false))
      ensures ok ==> DueWas(env, origin, View(), due)
      ensures Reach(env, old(View()), View()) && faults == old(faults) + if ok then 0 else 1
    {
      ok := *;
      var found := rows;
      var ids := Select(DueKeys(found, now), 50);
      due := [];
      if ok {
        due := seq(|ids|, i requires 0 <= i < |ids| && ids[i] in found => Due(ids[i], found[ids[i]]));
        assert Ids(due) == ids;
      }
      ghost var before := View();
      Advance(origin, before, me, if ok then Listed(due) else Failure(false));
      assert OnTheWay(env, origin, before, View());
      faults := faults + if ok then 0 else 1;
    }

    // ----- internal/kafkaqueue/producer.go -----

    method Enqueue(ghost origin: State, ghost me: Tid, id: JobId, typ: string, payload: Bytes, queue: string,
                   maxRetry: int32, runAt: int, attempt: int32, priority: int32) returns (ok: bool)
      requires Calls(origin, me, Send(NewMessage(id, typ, payload, queue, maxRetry, runAt, attempt, priority)))
      modifies this
      ensures Written(origin, me, old(threads[me]), ok)
      ensures var m := NewMessage(id, typ, payload, queue, maxRetry, runAt, attempt, priority);
              ok ==> SentSince(log, |old(log)|, m) && Made(env, origin, View(), me, Send(m))
      ensures Reach(env, old(View()), View()) && faults == old(faults) + if ok then 0 else 1
    {
      ghost var before := View();
      var options: Option<Options> := None;
      if maxRetry > 0 || runAt > 0 || priority != 0 {
        options := Some(Options(maxRetry, runAt, priority));
      }
      var m := Message(id, typ, payload, queue, attempt, options);
      ok := *;
      var lost: bool := *;
      if ok || lost {
        log := log + [m];
        assert log[|before.db.log|] == m;
      }
      Advance(origin, before, me, if ok then Ok else Failure(lost));
      faults := faults + if ok then 0 else 1;
    }

    // ----- Clock and handlers -----

    method Now(ghost origin: State, ghost me: Tid) returns (now: int)
      requires Calls(origin, me, ReadClock)
      modifies this
      ensures Resumed(origin, me, old(threads[me]), Time(now)) && old(clock) <= now <= clock
      ensures Reach(env, old(View()), View()) && faults == old(faults)
    {
      now := clock;
      Advance(origin, View(), me, Time(now));
    }

    /** ValidateEmailPayload, registry.Get and the handler itself, which answers as it likes. */
    method Execute(ghost origin: State, ghost me: Tid, m: Message) returns (outcome: Protocol.Outcome)
      requires Calls(origin, me, Call.Execute(m))
      modifies this
      ensures Resumed(origin, me, old(threads[me]), Reply.Outcome(outcome)) && OutcomePossible(env, m, outcome)
      ensures m.typ == EMAIL ==> outcome == if env.validEmail(m.payload) then Succeeds else Fails
      ensures m.typ != EMAIL ==> (outcome == Unhandled <==> m.typ !in env.handlers)
      ensures Reach(env, old(View()), View()) && faults == old(faults)
    {
      if m.typ == EMAIL {
        outcome := if env.validEmail(m.payload) then Succeeds else Fails;
      } else if m.typ !in env.handlers {
        outcome := Unhandled;
      } else {
        var ok: bool := *;
        outcome := if ok then Succeeds else Fails;
      }
      Advance(origin, View(), me, Reply.Outcome(outcome));
    }
  }
}
