/**
 What the tests in the code guard, over all runs: however the threads interleave and whatever fails,
 a thread whose test says no never gets past it.
 */
module Guards {
  import opened Jobs
  import opened Protocol
  import opened Agreement
  import opened Idempotency

  // ----- Rows -----

  lemma {:induction false} RunExtends(env: Env, s: State, run: seq<Action>)
    requires ValidRun(env, s, run)
    ensures Extends(s.db.rows, After(s, run).db.rows)
    ensures UniqueKeys(s.db.rows) ==> UniqueKeys(After(s, run).db.rows)
    decreases |run|
  {
    if run != [] {
      StepGrows(env, s, run[0]);
      if UniqueKeys(s.db.rows) {
        StepKeepsUniqueKeys(env, s, run[0]);
      }
      RunExtends(env, Next(s, run[0]), run[1..]);
    }
  }

  /** Rows stay and remain rows of the same job, and keys remain unique. */
  lemma ReachExtends(env: Env, s: State, s': State)
    requires Reach(env, s, s')
    ensures Extends(s.db.rows, s'.db.rows) && (UniqueKeys(s.db.rows) ==> UniqueKeys(s'.db.rows))
  {
    var run :| ValidRun(env, s, run) && After(s, run) == s';
    RunExtends(env, s, run);
  }

  /** A row that a thread created is there, and a row of that job, ever after. */
  lemma CreatedStays(env: Env, origin: State, s: State, t: Tid, id: JobId, row: Row)
    requires Made(env, origin, s, t, Create(id, row))
    ensures id in s.db.rows && SameJob(row, s.db.rows[id])
  {
    var pc :| CallOf(pc) == Create(id, row) && Took(env, origin, s, t, pc, Ok);
    var before, after := StepOnTheWay(env, origin, s, t, pc, Ok);
    ReachExtends(env, after, s);
  }

  // ----- Paused queues -----

  ghost predicate NoUnpausing(run: seq<Action>, queue: string)
    decreases |run|
  {
    run == [] || (!(run[0].Pause? && run[0].queue == queue && !run[0].on) && NoUnpausing(run[1..], queue))
  }

  /** The worker has not got past its look at the queue. */
  predicate NotBegun(pc: Pc, k: nat, m: Message) {
    pc == Working(PauseCheck, k, m) || pc == Gone
  }

  /** While its queue is paused, a message delivered is dropped: no read of its row, no mark, no handler, no write. */
  lemma {:induction false} PausedIsDropped(env: Env, s: State, run: seq<Action>, t: Tid, k: nat, m: Message)
    requires ValidRun(env, s, run) && NoUnpausing(run, NormalQueue(m.queue))
    requires NormalQueue(m.queue) in s.db.paused && t in s.threads && NotBegun(s.threads[t], k, m)
    ensures t in After(s, run).threads && NotBegun(After(s, run).threads[t], k, m)
    decreases |run|
  {
    if run != [] {
      PausedIsDropped(env, Next(s, run[0]), run[1..], t, k, m);
    }
  }

  // ----- Idempotency keys -----

  /** Where a submission is whose key is taken by job `id`: it looks, or has answered with that job or an error. */
  predicate Answers(pc: Pc, a: SubmitArgs, id: JobId) {
    pc == Submitting(Find, a) || pc == Submitted(a, Some(id)) || pc == Submitted(a, None)
  }

  /** A submission whose key is taken inserts nothing and sends nothing, and returns no other job. */
  lemma {:induction false} TakenKeyIsFound(env: Env, s: State, run: seq<Action>, t: Tid, a: SubmitArgs, id: JobId)
    requires ValidRun(env, s, run) && UniqueKeys(s.db.rows)
    requires id in s.db.rows && SameKey(s.db.rows[id], a.typ, a.queue, a.key)
    requires t in s.threads && Answers(s.threads[t], a, id)
    ensures t in After(s, run).threads && Answers(After(s, run).threads[t], a, id)
    decreases |run|
  {
    if run != [] {
      var s' := Next(s, run[0]);
      StepGrows(env, s, run[0]);
      StepKeepsUniqueKeys(env, s, run[0]);
      FoundOrFailed(env, s, run[0], t, a, id);
      TakenKeyIsFound(env, s', run[1..], t, a, id);
    }
  }

  lemma FoundOrFailed(env: Env, s: State, e: Action, t: Tid, a: SubmitArgs, id: JobId)
    requires Enabled(env, s, e) && UniqueKeys(s.db.rows)
    requires id in s.db.rows && SameKey(s.db.rows[id], a.typ, a.queue, a.key)
    requires t in s.threads && Answers(s.threads[t], a, id)
    ensures t in Next(s, e).threads && Answers(Next(s, e).threads[t], a, id)
  {
    if e.Step? && e.tid == t {
      assert s.threads[t] == Submitting(Find, a);
    }
  }

  /** A lookup that does not fail finds a row that was there before it began; the one, as keys are unique. */
  lemma LookupFinds(env: Env, origin: State, s: State, t: Tid, typ: string, queue: string, key: string, reply: Reply,
                    id: JobId)
    requires Got(env, origin, s, t, FindKey(typ, queue, key), reply) && reply.FoundId?
    requires id in origin.db.rows && SameKey(origin.db.rows[id], typ, queue, key)
    ensures reply.id.Some? && (UniqueKeys(origin.db.rows) ==> reply.id == Some(id))
  {
    var pc :| CallOf(pc) == FindKey(typ, queue, key) && Took(env, origin, s, t, pc, reply);
    var before, after := StepOnTheWay(env, origin, s, t, pc, reply);
    ReachExtends(env, origin, before);
  }

  // ----- Cancellation and replay -----

  /** The row is there, completed or being processed, in every state of the run. */
  ghost predicate StaysBusy(s: State, run: seq<Action>, id: JobId)
    decreases |run|
  {
    && id in s.db.rows && s.db.rows[id].status in {Completed, Processing}
    && (run != [] ==> StaysBusy(Next(s, run[0]), run[1..], id))
  }

  /** A job that is completed or being processed cannot be cancelled: its cancellation ends with the look at the row. */
  lemma {:induction false} BusyIsNotCancelled(env: Env, s: State, run: seq<Action>, t: Tid, id: JobId)
    requires ValidRun(env, s, run) && StaysBusy(s, run, id)
    requires t in s.threads && s.threads[t] in {CancelRead(id), Gone}
    ensures t in After(s, run).threads && After(s, run).threads[t] in {CancelRead(id), Gone}
    decreases |run|
  {
    if run != [] {
      BusyIsNotCancelled(env, Next(s, run[0]), run[1..], t, id);
    }
  }

  ghost predicate StaysUnarchived(s: State, run: seq<Action>, id: JobId)
    decreases |run|
  {
    && (id in s.db.rows ==> s.db.rows[id].status != Archived)
    && (run != [] ==> StaysUnarchived(Next(s, run[0]), run[1..], id))
  }

  /** A job that is not archived is not replayed. */
  lemma {:induction false} UnarchivedIsNotReplayed(env: Env, s: State, run: seq<Action>, t: Tid, id: JobId,
                                                   queue: string, newId: JobId)
    requires ValidRun(env, s, run) && StaysUnarchived(s, run, id)
    requires t in s.threads && s.threads[t] in {Replaying(id, queue, newId), Gone}
    ensures t in After(s, run).threads && After(s, run).threads[t] in {Replaying(id, queue, newId), Gone}
    decreases |run|
  {
    if run != [] {
      UnarchivedIsNotReplayed(env, Next(s, run[0]), run[1..], t, id, queue, newId);
    }
  }

  // ----- Promotion -----

  /** The message by which the promoter sends a due job on. */
  ghost predicate PromotionSent(log: seq<Message>, d: Due) {
    Asked(log, 0, d.id, d.row.typ, d.row.payload, d.row.queue, 2, 0, d.row.priority)
  }

  ghost predicate SetsOnlySent(s: State) {
    forall t :: t in s.threads && s.threads[t].PromoteSet? ==>
      s.threads[t].due != [] && PromotionSent(s.db.log, s.threads[t].due[0])
  }

  lemma StepSetsOnlySent(env: Env, s: State, a: Action)
    requires SetsOnlySent(s) && Enabled(env, s, a)
    ensures SetsOnlySent(Next(s, a))
  {
    var s' := Next(s, a);
    forall t | t in s'.threads && s'.threads[t].PromoteSet?
      ensures s'.threads[t].due != [] && PromotionSent(s'.db.log, s'.threads[t].due[0])
    {
      if t in s.threads && s.threads[t] == s'.threads[t] {
        AskedStill(s.db.log, s'.db.log, s.threads[t].due[0]);
      } else {
        assert s.threads[t] == PromoteSend(s'.threads[t].due);
        assert s'.db.log[|s.db.log|] == PromoteMessage(s'.threads[t].due[0].id, s'.threads[t].due[0].row);
      }
    }
  }

  lemma AskedStill(log: seq<Message>, log': seq<Message>, d: Due)
    requires log <= log' && PromotionSent(log, d)
    ensures PromotionSent(log', d)
  {
    var k :| 0 <= k < |log| && Asks(log[k], d.id, d.row.typ, d.row.payload, d.row.queue, 2, 0, d.row.priority);
    assert log'[k] == log[k];
  }

  /** The promoter sets a job "pending" only when its message, with the promoter's retry limit, is on the log. */
  lemma {:induction false} PendingOnlyWhenSent(env: Env, s: State, run: seq<Action>)
    requires SetsOnlySent(s) && ValidRun(env, s, run)
    ensures SetsOnlySent(After(s, run))
    decreases |run|
  {
    if run != [] {
      StepSetsOnlySent(env, s, run[0]);
      PendingOnlyWhenSent(env, Next(s, run[0]), run[1..]);
    }
  }
}
