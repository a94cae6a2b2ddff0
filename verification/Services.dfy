/**
 The code of the API, the promoter and the worker over the shared cluster. Each method takes the
 steps of its thread, with other threads moving in between, and leaves the thread at its end; and
 unless one of its calls returned an error, what it set out to do has happened on the way.
 */
module Services {
  import opened Jobs
  import opened Protocol
  import opened Shared
  import opened Guards
  import Idempotency

  /** uuid.New: any non-empty string; the store rejects it should it collide. */
  method NewUuid() returns (id: JobId)
    ensures id != ""
  {
    id := *;
    if id == "" {
      id := "0";
    }
  }

  // ----- internal/api/backend.go -----

  /** Submit read a time before the job's run time. */
  ghost predicate ForLater(env: Env, origin: State, s: State, t: Tid, runAt: int) {
    exists now :: 0 < runAt && now < runAt && Got(env, origin, s, t, ReadClock, Time(now))
  }

  /** The row that Submit inserts: "scheduled" if it has a run time. */
  ghost predicate Inserted(env: Env, origin: State, s: State, t: Tid, id: JobId, jobType: string, payload: Bytes,
                           queue: string, runAt: int, key: string, priority: int32) {
    if runAt > 0
    then Made(env, origin, s, t, Create(id, Row(jobType, payload, queue, Scheduled, 0, runAt, key, priority)))
    else Made(env, origin, s, t, Create(id, Row(jobType, payload, queue, Pending, 0, 0, key, priority)))
  }

  /** The job was sent, or is for later. */
  ghost predicate SentOrLater(env: Env, origin: State, s: State, t: Tid, id: JobId, jobType: string, payload: Bytes,
                              queue: string, maxRetry: int32, runAt: int, priority: int32) {
    || ForLater(env, origin, s, t, runAt)
    || Made(env, origin, s, t, Send(NewMessage(id, jobType, payload, queue, maxRetry, runAt, 0, priority)))
  }

  method SubmitNow(c: Cluster, ghost origin: State, ghost me: Tid, ghost args: SubmitArgs, jobId: JobId,
                   jobType: string, payload: Bytes, queue: string, maxRetry: int32, runAt: int, priority: int32)
    returns (result: Option<JobId>)
    requires args == SubmitArgs(jobId, jobType, payload, queue, maxRetry, runAt, args.key, priority)
    requires Reach(c.env, origin, c.View()) && me in c.threads && c.threads[me] == Submitting(Publish, args)
    modifies c
    ensures Reach(c.env, origin, c.View()) && me in c.threads && c.threads[me] == Submitted(args, result)
    ensures Reach(c.env, old(c.View()), c.View()) && c.faults == old(c.faults) + if result.None? then 1 else 0
    ensures result.Some? ==>
              result.value == jobId
              && Made(c.env, origin, c.View(), me,
                      Send(NewMessage(jobId, jobType, payload, queue, maxRetry, runAt, 0, priority)))
  {
    var sent := c.Enqueue(origin, me, jobId, jobType, payload, queue, maxRetry, runAt, 0, priority);
    result := if sent then Some(jobId) else None;
  }

  /** The end of Submit, when the row is there: nothing more for a job that is for later. */
  method SubmitCreated(c: Cluster, ghost origin: State, ghost me: Tid, ghost args: SubmitArgs, jobId: JobId,
                       jobType: string, payload: Bytes, queue: string, maxRetry: int32, runAt: int, key: string,
                       priority: int32)
    returns (result: Option<JobId>)
    requires args == SubmitArgs(jobId, jobType, payload, queue, maxRetry, runAt, key, priority)
    requires Reach(c.env, origin, c.View()) && me in c.threads && c.threads[me] == Submitting(Decide, args)
    modifies c
    ensures Reach(c.env, origin, c.View()) && me in c.threads && c.threads[me] == Submitted(args, result)
    ensures Reach(c.env, old(c.View()), c.View()) && c.faults == old(c.faults) + if result.None? then 1 else 0
    ensures result.Some? ==>
              && result.value == jobId
              && SentOrLater(c.env, origin, c.View(), me, jobId, jobType, payload, queue, maxRetry, runAt, priority)
  {
    ghost var before := c.View();
    var now := c.Now(origin, me);
    if runAt > 0 && runAt > now {
      assert Got(c.env, origin, c.View(), me, ReadClock, Time(now));
      return Some(jobId);
    }
    assert c.threads[me] == Submitting(Publish, args);
    ghost var here := c.View();
    result := SubmitNow(c, origin, me, args, jobId, jobType, payload, queue, maxRetry, runAt, priority);
    ReachTransitive(c.env, before, here, c.View());
  }

  /** The second half of Submit: insert the row, and enqueue it unless it is for later. */
  method SubmitNew(c: Cluster, ghost origin: State, ghost me: Tid, ghost args: SubmitArgs, jobId: JobId,
                   jobType: string, payload: Bytes, queue: string, maxRetry: int32, runAt: int, key: string,
                   priority: int32)
    returns (result: Option<JobId>)
    requires args == SubmitArgs(jobId, jobType, payload, queue, maxRetry, runAt, key, priority)
    requires Reach(c.env, origin, c.View()) && me in c.threads && c.threads[me] == Submitting(Insert, args)
    modifies c
    ensures Reach(c.env, origin, c.View()) && me in c.threads && c.threads[me] == Submitted(args, result)
    ensures result.None? <==> c.faults > old(c.faults)
    ensures result.Some? ==>
              && result.value == jobId
              && Inserted(c.env, origin, c.View(), me, jobId, jobType, payload, queue, runAt, key, priority)
              && SentOrLater(c.env, origin, c.View(), me, jobId, jobType, payload, queue, maxRetry, runAt, priority)
  {
    var status := if runAt > 0 then Scheduled else Pending;
    var row := Row(jobType, payload, queue, status, 0, Max0(runAt), key, priority);
    var created := c.Create(origin, me, jobId, row);
    if !created {
      return None;
    }
    ghost var here := c.View();
    result := SubmitCreated(c, origin, me, args, jobId, jobType, payload, queue, maxRetry, runAt, key, priority);
    GotStill(c.env, origin, here, c.View(), me, Create(jobId, row), Ok);
  }

  /** A row with this key was there at the start. */
  ghost predicate KeyTaken(origin: State, typ: string, queue: string, key: string) {
    exists id :: id in origin.db.rows && SameKey(origin.db.rows[id], typ, queue, key)
  }

  /** The lookup found a job of the key; the one that was there, if there was one. */
  ghost predicate KeyFound(env: Env, origin: State, s: State, t: Tid, typ: string, queue: string, key: string,
                           result: Option<JobId>) {
    && result.Some? && Got(env, origin, s, t, FindKey(typ, queue, key), FoundId(result))
    && (Idempotency.UniqueKeys(origin.db.rows) ==>
          forall id :: id in origin.db.rows && SameKey(origin.db.rows[id], typ, queue, key) ==> result.value == id)
  }

  /** The lookup by key. It ends the submission unless there is no job with the key. */
  method LooksUp(c: Cluster, ghost origin: State, ghost me: Tid, ghost args: SubmitArgs, jobType: string, queue: string,
                 key: string)
    returns (over: bool, result: Option<JobId>)
    requires (args.typ, args.queue, args.key) == (jobType, queue, key)
    requires Reach(c.env, origin, c.View()) && me in c.threads && c.threads[me] == Submitting(Find, args)
    modifies c
    ensures Reach(c.env, origin, c.View()) && me in c.threads
    ensures c.threads[me] == if over then Submitted(args, result) else Submitting(Insert, args)
    ensures c.faults == old(c.faults) + if over && result.None? then 1 else 0
    ensures over && result.Some? ==> KeyFound(c.env, origin, c.View(), me, jobType, queue, key, result)
    ensures over && result.None? ==> Got(c.env, origin, c.View(), me, FindKey(jobType, queue, key), Failure(false))
    ensures !over ==> !KeyTaken(origin, jobType, queue, key)
  {
    var ok, existing := c.GetByIdempotencyKey(origin, me, jobType, queue, key);
    if !ok {
      return true, None;
    }
    forall id | id in origin.db.rows && SameKey(origin.db.rows[id], jobType, queue, key)
      ensures existing.Some? && (Idempotency.UniqueKeys(origin.db.rows) ==> existing == Some(id))
    {
      LookupFinds(c.env, origin, c.View(), me, jobType, queue, key, FoundId(existing), id);
    }
    over, result := existing.Some?, existing;
  }

  /**
   A job id is one that was found by key, or a new one, whose row was inserted and whose message was
   sent unless it is for later. If a job with the key was there at the start, it is the answer, or
   the lookup failed.
   */
  method Submit(c: Cluster, ghost origin: State, jobType: string, payload: Bytes, queue: string, maxRetry: int32,
                runAt: int, key: string, priority: int32) returns (result: Option<JobId>, ghost me: Option<Tid>)
    requires Reach(c.env, origin, c.View())
    modifies c
    ensures Reach(c.env, origin, c.View())
    ensures jobType == "" ==> result.None? && c.View() == old(c.View())
    ensures jobType != "" ==>
              && (result.None? <==> c.faults > old(c.faults))
              && me.Some? && me.value in c.threads && c.threads[me.value].Submitted?
              && c.threads[me.value].result == result
              && var a := c.threads[me.value].args;
                 && (a.typ, a.payload, a.queue, a.maxRetry) == (jobType, payload, NormalQueue(queue), maxRetry)
                 && (a.runAt, a.key, a.priority) == (runAt, key, priority)
    ensures jobType != "" && result.Some? ==>
              var s, t, name := c.View(), me.value, NormalQueue(queue);
              || KeyFound(c.env, origin, s, t, jobType, name, key, result)
              || (&& Inserted(c.env, origin, s, t, result.value, jobType, payload, name, runAt, key, priority)
                  && SentOrLater(c.env, origin, s, t, result.value, jobType, payload, name, maxRetry, runAt, priority))
    ensures jobType != "" && KeyTaken(origin, jobType, NormalQueue(queue), key) ==>
              var s, t, name := c.View(), me.value, NormalQueue(queue);
              || KeyFound(c.env, origin, s, t, jobType, name, key, result)
              || (result.None? && Got(c.env, origin, s, t, FindKey(jobType, name, key), Failure(false)))
  {
    me := None;
    if jobType == "" {
      return None, None;
    }
    var name := NormalQueue(queue);
    var jobId := NewUuid();
    ghost var args := SubmitArgs(jobId, jobType, payload, name, maxRetry, runAt, key, priority);
    ghost var t := c.Enter(origin, Submitting(if key == "" then Insert else Find, args));
    me := Some(t);
    if key != "" {
      var over: bool;
      over, result := LooksUp(c, origin, t, args, jobType, name, key);
      if over {
        return;
      }
    }
    result := SubmitNew(c, origin, t, args, jobId, jobType, payload, name, maxRetry, runAt, key, priority);
  }

  /** A cancellation is refused for no row, or for one that is completed or being processed. */
  predicate NotCancellable(row: Option<Row>) {
    row.None? || row.value.status in {Completed, Processing}
  }

  ghost predicate Refused(env: Env, origin: State, s: State, t: Tid, id: JobId) {
    exists row :: Got(env, origin, s, t, GetById(id), Found(row)) && NotCancellable(row)
  }

  /** The row was found, neither completed nor being processed. */
  ghost predicate FoundCancellable(env: Env, origin: State, s: State, t: Tid, id: JobId) {
    exists row :: Got(env, origin, s, t, GetById(id), Found(Some(row))) && row.status !in {Completed, Processing}
  }

  lemma WriteSeen(env: Env, origin: State, here: State, s: State, t: Tid, id: JobId, ok: bool)
    requires Reach(env, origin, here) && Reach(env, here, s) && id in here.db.rows
    requires if ok then Made(env, here, s, t, SetStatus(id, Cancelled, 0))
             else exists lost :: Got(env, here, s, t, SetStatus(id, Cancelled, 0), Failure(lost))
    ensures Reach(env, origin, s) && id in s.db.rows
    ensures if ok then Made(env, origin, s, t, SetStatus(id, Cancelled, 0)) && Passed(env, origin, s, id, Cancelled)
            else exists lost :: Got(env, origin, s, t, SetStatus(id, Cancelled, 0), Failure(lost))
  {
    ReachGrows(env, here, s);
    ReachTransitive(env, origin, here, s);
    if ok {
      StatusPassed(env, origin, here, s, t, id, Cancelled, 0);
      GotSooner(env, origin, here, s, t, SetStatus(id, Cancelled, 0), Ok);
    } else {
      var lost :| Got(env, here, s, t, SetStatus(id, Cancelled, 0), Failure(lost));
      GotSooner(env, origin, here, s, t, SetStatus(id, Cancelled, 0), Failure(lost));
    }
  }

  /** The write of a cancellation, for a row that was found. */
  method WritesCancelled(c: Cluster, ghost origin: State, ghost me: Tid, id: JobId) returns (ok: bool)
    requires Reach(c.env, origin, c.View()) && me in c.threads && c.threads[me] == CancelWrite(id) && id in c.rows
    modifies c
    ensures Reach(c.env, origin, c.View()) && me in c.threads && c.threads[me] == Gone
    ensures Reach(c.env, old(c.View()), c.View())
    ensures if ok then id in c.rows && Passed(c.env, origin, c.View(), id, Cancelled) else c.faults > old(c.faults)
    ensures if ok then Made(c.env, origin, c.View(), me, SetStatus(id, Cancelled, 0))
            else exists lost :: Got(c.env, origin, c.View(), me, SetStatus(id, Cancelled, 0), Failure(lost))
  {
    ghost var here := c.View();
    ReachSelf(c.env, here);
    ok := c.UpdateStatus(here, me, id, Cancelled, 0);
    WriteSeen(c.env, origin, here, c.View(), me, id, ok);
  }

  /** A success means that a row was found that may be cancelled, and was set "cancelled". */
  method CancelJob(c: Cluster, ghost origin: State, ghost me: Tid, id: JobId) returns (ok: bool)
    requires Reach(c.env, origin, c.View())
    requires id != "" ==> me in c.threads && c.threads[me] == CancelRead(id)
    modifies c
    ensures Reach(c.env, origin, c.View())
    ensures id == "" ==> !ok && c.View() == old(c.View())
    ensures id != "" ==> me in c.threads && c.threads[me] == Gone
    ensures ok ==> id in c.rows && Passed(c.env, origin, c.View(), id, Cancelled)
    ensures ok ==> FoundCancellable(c.env, origin, c.View(), me, id)
                   && Made(c.env, origin, c.View(), me, SetStatus(id, Cancelled, 0))
    ensures id != "" && !ok ==> c.faults > old(c.faults) || Refused(c.env, origin, c.View(), me, id)
    ensures id != "" && !ok ==>
              || Refused(c.env, origin, c.View(), me, id)
              || Got(c.env, origin, c.View(), me, GetById(id), Failure(false))
              || exists lost :: Got(c.env, origin, c.View(), me, SetStatus(id, Cancelled, 0), Failure(lost))
  {
    if id == "" {
      return false;
    }
    var read, row := c.GetByID(origin, me, id);
    if !read || row.None? || row.value.status == Completed || row.value.status == Processing {
      return false;
    }
    ghost var here := c.View();
    ok := WritesCancelled(c, origin, me, id);
    GotStill(c.env, origin, here, c.View(), me, GetById(id), Found(row));
  }

  /** A replay is refused for no row, or for one that is not archived. */
  ghost predicate NotArchived(env: Env, origin: State, s: State, t: Tid, id: JobId) {
    exists row :: Got(env, origin, s, t, GetById(id), Found(row)) && (row.None? || row.value.status != Archived)
  }

  /** A new "pending" row, and its message: Create and Enqueue as a replay and the recurring scheduler call them. */
  method LaunchJob(c: Cluster, ghost origin: State, ghost me: Tid, l: LaunchArgs) returns (created: bool, sent: bool)
    requires Reach(c.env, origin, c.View()) && me in c.threads && c.threads[me] == Launching(true, l)
    modifies c
    ensures Reach(c.env, origin, c.View()) && Reach(c.env, old(c.View()), c.View())
    ensures me in c.threads && c.threads[me] == Gone
    ensures created ==> Made(c.env, origin, c.View(), me,
                             Create(l.newId, Row(l.typ, l.payload, l.queue, Pending, 0, 0, "", l.priority)))
    ensures sent ==>
              created && Asked(c.log, |old(c.log)|, l.newId, l.typ, l.payload, l.queue, l.maxRetry, 0, l.priority)
    ensures c.faults == old(c.faults) + if sent then 0 else 1
  {
    ghost var before := c.View();
    var row := Row(l.typ, l.payload, l.queue, Pending, 0, 0, "", l.priority);
    created := c.Create(origin, me, l.newId, row);
    sent := false;
    ghost var here := c.View();
    if created {
      ReachGrows(c.env, before, here);
      sent := c.Enqueue(origin, me, l.newId, l.typ, l.payload, l.queue, l.maxRetry, 0, 0, l.priority);
      ReachTransitive(c.env, before, here, c.View());
      GotStill(c.env, origin, here, c.View(), me, Create(l.newId, row), Ok);
    }
  }

  /** The payload of a replay: the archived one, but a picture to load for an image job without any. */
  predicate ReplaysPayload(row: Row, payload: Bytes) {
    if row.typ == "image" && row.payload in {"", "{}"} then payload == PLACEHOLDER_IMAGE else payload == row.payload
  }

  /** From the archived row on: the job was stored and sent anew, with its type, payload and priority. */
  ghost predicate Replayed(env: Env, origin: State, s: State, t: Tid, n: nat, row: Row, queue: string, newId: JobId) {
    exists payload ::
      && ReplaysPayload(row, payload)
      && Made(env, origin, s, t, Create(newId, Row(row.typ, payload, queue, Pending, 0, 0, "", row.priority)))
      && Asked(s.db.log, n, newId, row.typ, payload, queue, 0, 0, row.priority)
  }

  /** The replay of a row that was found archived. */
  method ReplayRow(c: Cluster, ghost origin: State, ghost me: Tid, rec: Row, name: string, newId: JobId)
    returns (result: Option<JobId>)
    requires Reach(c.env, origin, c.View())
    requires me in c.threads && c.threads[me] == Launching(true, Replay(rec, name, newId))
    modifies c
    ensures Reach(c.env, origin, c.View()) && Reach(c.env, old(c.View()), c.View())
    ensures me in c.threads && c.threads[me] == Gone
    ensures if result.None? then c.faults > old(c.faults)
            else result.value == newId && Replayed(c.env, origin, c.View(), me, |old(c.log)|, rec, name, newId)
  {
    var payload := rec.payload;
    if rec.typ == "image" && (payload == "" || payload == "{}") {
      payload := PLACEHOLDER_IMAGE;
    }
    var _, sent := LaunchJob(c, origin, me, LaunchArgs(newId, rec.typ, payload, name, 0, rec.priority));
    result := if sent then Some(newId) else None;
  }

  /** `newId` is the UUID that the replay will draw. */
  method RetryArchivedJob(c: Cluster, ghost origin: State, ghost me: Tid, id: JobId, queue: string, newId: JobId)
    returns (result: Option<JobId>)
    requires Reach(c.env, origin, c.View())
    requires id != "" ==> me in c.threads && c.threads[me] == Replaying(id, NormalQueue(queue), newId)
    modifies c
    ensures Reach(c.env, origin, c.View())
    ensures id == "" ==> result.None? && c.View() == old(c.View())
    ensures id != "" ==> me in c.threads && c.threads[me] == Gone
    ensures result.Some? ==> result.value == newId && exists row ::
              && Got(c.env, origin, c.View(), me, GetById(id), Found(Some(row))) && row.status == Archived
              && Replayed(c.env, origin, c.View(), me, |old(c.log)|, row, NormalQueue(queue), newId)
    ensures id != "" && result.None? ==> c.faults > old(c.faults) || NotArchived(c.env, origin, c.View(), me, id)
  {
    if id == "" {
      return None;
    }
    var name := NormalQueue(queue);
    ghost var before := c.View();
    var read, row := c.GetByID(origin, me, id);
    if !read || row.None? || row.value.status != Archived {
      return None;
    }
    ghost var here := c.View();
    ReachGrows(c.env, before, here);
    result := ReplayRow(c, origin, me, row.value, name, newId);
    GotStill(c.env, origin, here, c.View(), me, GetById(id), Found(row));
    if result.Some? {
      ReplayedEarlier(c.env, origin, c.View(), me, |before.db.log|, |here.db.log|, row.value, name, newId);
    }
  }

  lemma ReplayedEarlier(env: Env, origin: State, s: State, t: Tid, n: nat, n': nat, row: Row, queue: string,
                        newId: JobId)
    requires n <= n' && Replayed(env, origin, s, t, n', row, queue, newId)
    ensures Replayed(env, origin, s, t, n, row, queue, newId)
  {
    var payload :|
      && ReplaysPayload(row, payload)
      && Made(env, origin, s, t, Create(newId, Row(row.typ, payload, queue, Pending, 0, 0, "", row.priority)))
      && Asked(s.db.log, n', newId, row.typ, payload, queue, 0, 0, row.priority);
    AskedEarlier(s.db.log, n, n', newId, row.typ, payload, queue, 0, 0, row.priority);
  }

  // ----- internal/scheduler/promoter.go -----

  /** What the promoter sends for a due job, with its own retry limit. */
  function PromoterSends(d: Due): Call {
    Send(NewMessage(d.id, d.row.typ, d.row.payload, d.row.queue, 2, 0, 0, d.row.priority))
  }

  /** It sent the job and set it "pending". */
  ghost predicate Promoted(env: Env, origin: State, s: State, t: Tid, d: Due) {
    && Made(env, origin, s, t, PromoterSends(d))
    && Made(env, origin, s, t, SetStatus(d.id, Pending, d.row.attempt))
  }

  /** Whatever fails: it tried to send the job, and to set it "pending" if that succeeded. */
  ghost predicate Attended(env: Env, origin: State, s: State, t: Tid, d: Due) {
    || (exists lost :: Got(env, origin, s, t, PromoterSends(d), Failure(lost)))
    || (Made(env, origin, s, t, PromoterSends(d)) && Called(env, origin, s, t, SetStatus(d.id, Pending, d.row.attempt)))
  }

  lemma PromotedStill(env: Env, origin: State, s: State, s': State, t: Tid, d: Due)
    requires Reach(env, s, s')
    ensures Promoted(env, origin, s, t, d) ==> Promoted(env, origin, s', t, d)
  {
    GotStill(env, origin, s, s', t, PromoterSends(d), Ok);
    GotStill(env, origin, s, s', t, SetStatus(d.id, Pending, d.row.attempt), Ok);
  }

  lemma AttendedStill(env: Env, origin: State, s: State, s': State, t: Tid, d: Due)
    requires Reach(env, s, s') && Attended(env, origin, s, t, d)
    ensures Attended(env, origin, s', t, d)
  {
    if lost :| Got(env, origin, s, t, PromoterSends(d), Failure(lost)) {
      GotStill(env, origin, s, s', t, PromoterSends(d), Failure(lost));
    } else {
      GotStill(env, origin, s, s', t, PromoterSends(d), Ok);
      CalledStill(env, origin, s, s', t, SetStatus(d.id, Pending, d.row.attempt));
    }
  }

  /** The update, after the send. */
  method PromoteSets(c: Cluster, ghost origin: State, ghost me: Tid, ghost due: seq<Due>, id: JobId, j: Row)
    requires Reach(c.env, origin, c.View())
    requires |due| > 0 && due[0] == Due(id, j) && me in c.threads && c.threads[me] == PromoteSet(due)
    modifies c
    ensures Reach(c.env, origin, c.View()) && Reach(c.env, old(c.View()), c.View())
    ensures me in c.threads && c.threads[me] == PromoteNext(due)
    ensures Called(c.env, origin, c.View(), me, SetStatus(id, Pending, j.attempt))
    ensures c.faults > old(c.faults) ||
            (c.faults == old(c.faults) && Made(c.env, origin, c.View(), me, SetStatus(id, Pending, j.attempt)))
  {
    var updated := c.UpdateStatus(origin, me, id, Pending, j.attempt);
  }

  /** The body of the loop. */
  method PromoteJob(c: Cluster, ghost origin: State, ghost me: Tid, ghost due: seq<Due>, id: JobId, j: Row)
    requires Reach(c.env, origin, c.View())
    requires |due| > 0 && due[0] == Due(id, j) && me in c.threads && c.threads[me] == PromoteSend(due)
    modifies c
    ensures Reach(c.env, origin, c.View()) && Reach(c.env, old(c.View()), c.View())
    ensures me in c.threads && c.threads[me] == PromoteNext(due)
    ensures Attended(c.env, origin, c.View(), me, due[0])
    ensures c.faults > old(c.faults) || (c.faults == old(c.faults) && Promoted(c.env, origin, c.View(), me, due[0]))
  {
    ghost var before := c.View();
    var sent := c.Enqueue(origin, me, id, j.typ, j.payload, j.queue, 2, 0, 0, j.priority);
    ghost var here := c.View();
    if sent {
      PromoteSets(c, origin, me, due, id, j);
      GotStill(c.env, origin, here, c.View(), me, PromoterSends(due[0]), Ok);
      ReachTransitive(c.env, before, here, c.View());
    }
  }

  /** The jobs were the first 50 due, at some time of the way, and the first n of them were attended to. */
  ghost predicate AllAttended(env: Env, origin: State, s: State, t: Tid, due: seq<Due>, n: nat) {
    && DueWas(env, origin, s, due)
    && n <= |due| && forall i :: 0 <= i < n ==> Attended(env, origin, s, t, due[i])
  }

  ghost predicate AllPromoted(env: Env, origin: State, s: State, t: Tid, due: seq<Due>, n: nat) {
    n <= |due| && forall i :: 0 <= i < n ==> Promoted(env, origin, s, t, due[i])
  }

  /** Where the promoter is before the i-th job of its batch. */
  function PromoteFrom(due: seq<Due>, i: nat): Pc
    requires i <= |due|
  {
    if i == |due| then Gone else PromoteSend(due[i..])
  }

  lemma PromoteNextFrom(due: seq<Due>, i: nat)
    requires i < |due|
    ensures PromoteNext(due[i..]) == PromoteFrom(due, i + 1)
  {
    assert due[i..][1..] == due[i + 1..];
  }

  /**
   The first 50 jobs due, at some time of the way, were each attended to, whatever became of the ones
   before; unless a call returned an error they were all promoted.
   */
  method PromoteDue(c: Cluster, ghost origin: State) returns (ghost me: Tid, listed: bool, ghost batch: seq<Due>)
    requires Reach(c.env, origin, c.View())
    modifies c
    ensures Reach(c.env, origin, c.View())
    ensures me in c.threads && c.threads[me] == Gone
    ensures if listed then AllAttended(c.env, origin, c.View(), me, batch, |batch|) else c.faults > old(c.faults)
    ensures c.faults > old(c.faults) || AllPromoted(c.env, origin, c.View(), me, batch, |batch|)
  {
    me := c.Enter(origin, PromoteClock);
    var due: seq<Due>;
    listed, due := ListsDue(c, origin, me);
    batch := due;
    if listed {
      PromoteAll(c, origin, me, due);
    }
  }

  /** The clock and the query. */
  method ListsDue(c: Cluster, ghost origin: State, ghost me: Tid) returns (listed: bool, due: seq<Due>)
    requires Reach(c.env, origin, c.View()) && me in c.threads && c.threads[me] == PromoteClock
    modifies c
    ensures Reach(c.env, origin, c.View()) && me in c.threads
    ensures c.threads[me] == if listed then PromoteFrom(due, 0) else Gone
    ensures listed ==> DueWas(c.env, origin, c.View(), due)
    ensures c.faults == old(c.faults) + if listed then 0 else 1
  {
    ReachGrows(c.env, origin, c.View());
    var now := c.Now(origin, me);
    assert c.threads[me] == PromoteList(now);
    listed, due := c.ListScheduledDue(origin, me, now);
  }

  lemma AllStill(env: Env, origin: State, s: State, s': State, t: Tid, due: seq<Due>, n: nat)
    requires Reach(env, s, s') && AllAttended(env, origin, s, t, due, n)
    ensures AllAttended(env, origin, s', t, due, n)
    ensures AllPromoted(env, origin, s, t, due, n) ==> AllPromoted(env, origin, s', t, due, n)
  {
    DueWasStill(env, origin, s, s', due);
    forall j | 0 <= j < n
      ensures Attended(env, origin, s', t, due[j])
      ensures Promoted(env, origin, s, t, due[j]) ==> Promoted(env, origin, s', t, due[j])
    {
      AttendedStill(env, origin, s, s', t, due[j]);
      PromotedStill(env, origin, s, s', t, due[j]);
    }
  }

  lemma OneMoreAttended(env: Env, origin: State, s: State, s': State, t: Tid, due: seq<Due>, i: nat)
    requires Reach(env, s, s') && AllAttended(env, origin, s, t, due, i)
    requires i < |due| && Attended(env, origin, s', t, due[i])
    ensures AllAttended(env, origin, s', t, due, i + 1)
    ensures AllPromoted(env, origin, s, t, due, i) && Promoted(env, origin, s', t, due[i]) ==>
              AllPromoted(env, origin, s', t, due, i + 1)
  {
    AllStill(env, origin, s, s', t, due, i);
  }

  /** The i-th round of the loop. */
  method PromoteIth(c: Cluster, ghost origin: State, ghost me: Tid, due: seq<Due>, i: nat)
    requires i < |due| && me in c.threads && c.threads[me] == PromoteFrom(due, i)
    requires Reach(c.env, origin, c.View()) && AllAttended(c.env, origin, c.View(), me, due, i)
    modifies c
    ensures Reach(c.env, origin, c.View()) && me in c.threads && c.threads[me] == PromoteFrom(due, i + 1)
    ensures AllAttended(c.env, origin, c.View(), me, due, i + 1)
    ensures c.faults > old(c.faults) ||
            (c.faults == old(c.faults) &&
             (AllPromoted(c.env, origin, old(c.View()), me, due, i) ==>
                AllPromoted(c.env, origin, c.View(), me, due, i + 1)))
  {
    ghost var here := c.View();
    assert due[i..][0] == due[i];
    PromoteJob(c, origin, me, due[i..], due[i].id, due[i].row);
    PromoteNextFrom(due, i);
    OneMoreAttended(c.env, origin, here, c.View(), me, due, i);
  }

  /** The loop. */
  method PromoteAll(c: Cluster, ghost origin: State, ghost me: Tid, due: seq<Due>)
    requires Reach(c.env, origin, c.View()) && me in c.threads && c.threads[me] == PromoteFrom(due, 0)
    requires DueWas(c.env, origin, c.View(), due)
    modifies c
    ensures Reach(c.env, origin, c.View()) && me in c.threads && c.threads[me] == Gone
    ensures AllAttended(c.env, origin, c.View(), me, due, |due|)
    ensures c.faults > old(c.faults) ||
            (c.faults == old(c.faults) && AllPromoted(c.env, origin, c.View(), me, due, |due|))
  {
    var i := 0;
    while i < |due|
      invariant 0 <= i <= |due|
      invariant Reach(c.env, origin, c.View()) && me in c.threads && c.threads[me] == PromoteFrom(due, i)
      invariant AllAttended(c.env, origin, c.View(), me, due, i)
      invariant c.faults > old(c.faults) ||
                (c.faults == old(c.faults) && AllPromoted(c.env, origin, c.View(), me, due, i))
    {
      PromoteIth(c, origin, me, due, i);
      i := i + 1;
    }
  }

  // ----- cmd/worker/main.go -----

  /** The message was dropped: its queue was found paused, or its job cancelled. */
  ghost predicate Dropped(env: Env, origin: State, s: State, t: Tid, m: Message) {
    || Got(env, origin, s, t, GetQueue(NormalQueue(m.queue)), IsPaused(true))
    || (exists row :: Got(env, origin, s, t, GetById(m.id), Found(Some(row))) && row.status == Cancelled)
  }

  /** One of the two reads failed. */
  ghost predicate Unread(env: Env, origin: State, s: State, t: Tid, m: Message) {
    || Got(env, origin, s, t, GetQueue(NormalQueue(m.queue)), Failure(false))
    || Got(env, origin, s, t, GetById(m.id), Failure(false))
  }

  predicate IsCancelled(row: Option<Row>) {
    row.Some? && row.value.status == Cancelled
  }

  /** The job was found not cancelled, and marked "processing", whether or not that was stored. */
  ghost predicate Marked(env: Env, origin: State, s: State, t: Tid, m: Message) {
    && (exists row :: Got(env, origin, s, t, GetById(m.id), Found(row)) && !IsCancelled(row))
    && Called(env, origin, s, t, SetStatus(m.id, Processing, m.attempt))
  }

  /** The same, and before that its queue was found not paused. */
  ghost predicate Admitted(env: Env, origin: State, s: State, t: Tid, m: Message) {
    Got(env, origin, s, t, GetQueue(NormalQueue(m.queue)), IsPaused(false)) && Marked(env, origin, s, t, m)
  }

  lemma MarkedStill(env: Env, origin: State, s: State, s': State, t: Tid, m: Message)
    requires Reach(env, s, s') && Marked(env, origin, s, t, m)
    ensures Marked(env, origin, s', t, m)
  {
    var row :| Got(env, origin, s, t, GetById(m.id), Found(row)) && !IsCancelled(row);
    GotStill(env, origin, s, s', t, GetById(m.id), Found(row));
    CalledStill(env, origin, s, s', t, SetStatus(m.id, Processing, m.attempt));
  }

  /** What the worker sends for another attempt. */
  function AnotherAttempt(m: Message): Call {
    Send(NewMessage(m.id, m.typ, m.payload, m.queue, MaxRetryOf(m), 0, Inc(m.attempt), PriorityOf(m)))
  }

  /** The write of a completion: for an e-mail together with its outbox row. */
  function Completion(m: Message): Call {
    if m.typ == EMAIL then CompleteWithOutbox(m.id, m.attempt, OutboxRow(m.id, EMAIL, m.payload))
    else SetStatus(m.id, Completed, m.attempt)
  }

  /** The thread processed the message with this outcome: it made the calls that belong to it, and they succeeded. */
  ghost predicate Concluded(env: Env, origin: State, s: State, t: Tid, m: Message, outcome: Protocol.Outcome) {
    match outcome
    case Succeeds => Made(env, origin, s, t, Completion(m))
    case Fails =>
      && Made(env, origin, s, t, SetStatus(m.id, Failed, Inc(m.attempt)))
      && Made(env, origin, s, t, if Inc(m.attempt) <= MaxRetryOf(m) then AnotherAttempt(m)
                                 else SetStatus(m.id, Archived, Inc(m.attempt)))
    case Unhandled => Made(env, origin, s, t, SetStatus(m.id, Failed, m.attempt))
  }

  /** It made all these calls, whichever of them failed. */
  ghost predicate Attempted(env: Env, origin: State, s: State, t: Tid, m: Message, outcome: Protocol.Outcome) {
    match outcome
    case Succeeds => Called(env, origin, s, t, Completion(m))
    case Fails =>
      && Called(env, origin, s, t, SetStatus(m.id, Failed, Inc(m.attempt)))
      && Called(env, origin, s, t, if Inc(m.attempt) <= MaxRetryOf(m) then AnotherAttempt(m)
                                   else SetStatus(m.id, Archived, Inc(m.attempt)))
    case Unhandled => Called(env, origin, s, t, SetStatus(m.id, Failed, m.attempt))
  }

  /** The handler answered; an error is returned only for an e-mail whose completion failed. */
  ghost predicate Handled(env: Env, origin: State, s: State, t: Tid, m: Message, outcome: Protocol.Outcome, ok: bool) {
    && Got(env, origin, s, t, Execute(m), Reply.Outcome(outcome)) && Attempted(env, origin, s, t, m, outcome)
    && (!ok ==> m.typ == EMAIL && outcome == Succeeds
                && exists lost :: Got(env, origin, s, t, Completion(m), Failure(lost)))
  }

  /** The retry limit that a message carries. */
  method RetryLimit(req: Message) returns (maxRetry: int32)
    ensures maxRetry == MaxRetryOf(req)
  {
    maxRetry := 0;
    if req.options.Some? {
      maxRetry := req.options.value.maxRetry;
    }
  }

  /** The next attempt is sent, with the priority of this one. */
  method TriesAgain(c: Cluster, ghost origin: State, ghost me: Tid, ghost k: nat, req: Message, maxRetry: int32,
                    attempt: int32)
    requires Reach(c.env, origin, c.View()) && me in c.threads && c.threads[me] == Working(Retry, k, req)
    requires maxRetry == MaxRetryOf(req) && attempt == Inc(req.attempt)
    modifies c
    ensures Reach(c.env, origin, c.View()) && me in c.threads && c.threads[me] == Gone
    ensures Reach(c.env, old(c.View()), c.View())
    ensures Called(c.env, origin, c.View(), me, AnotherAttempt(req))
    ensures c.faults > old(c.faults) ||
            (c.faults == old(c.faults) && Made(c.env, origin, c.View(), me, AnotherAttempt(req)))
  {
    var priority: int32 := 0;
    if req.options.Some? {
      priority := req.options.value.priority;
    }
    var _ := c.Enqueue(origin, me, req.id, req.typ, req.payload, req.queue, maxRetry, 0, attempt, priority);
  }

  /** After "failed": once more, or "archived". */
  method RetriesOrArchives(c: Cluster, ghost origin: State, ghost me: Tid, ghost k: nat, req: Message, attempt: int32)
    requires Reach(c.env, origin, c.View()) && me in c.threads && attempt == Inc(req.attempt)
    requires c.threads[me] == Working(if Retries(req, attempt) then Retry else Archive, k, req)
    modifies c
    ensures Reach(c.env, origin, c.View()) && me in c.threads && c.threads[me] == Gone
    ensures Reach(c.env, old(c.View()), c.View())
    ensures var call := if attempt <= MaxRetryOf(req) then AnotherAttempt(req)
                        else SetStatus(req.id, Archived, attempt);
            && Called(c.env, origin, c.View(), me, call)
            && (c.faults > old(c.faults) || (c.faults == old(c.faults) && Made(c.env, origin, c.View(), me, call)))
  {
    var maxRetry := RetryLimit(req);
    if attempt <= maxRetry {
      TriesAgain(c, origin, me, k, req, maxRetry, attempt);
    } else {
      var _ := c.UpdateStatus(origin, me, req.id, Archived, attempt);
    }
  }

  /** The first write of a failure. Whether it is stored or not, the worker goes on. */
  method MarksFailed(c: Cluster, ghost origin: State, ghost me: Tid, ghost k: nat, req: Message, attempt: int32)
    requires Reach(c.env, origin, c.View()) && me in c.threads && attempt == Inc(req.attempt)
    requires c.threads[me] == Working(Fail, k, req)
    modifies c
    ensures Reach(c.env, origin, c.View()) && me in c.threads
    ensures c.threads[me] == Working(if Retries(req, attempt) then Retry else Archive, k, req)
    ensures Reach(c.env, old(c.View()), c.View())
    ensures Called(c.env, origin, c.View(), me, SetStatus(req.id, Failed, attempt))
    ensures c.faults > old(c.faults) ||
            (c.faults == old(c.faults) && Made(c.env, origin, c.View(), me, SetStatus(req.id, Failed, attempt)))
  {
    var _ := c.UpdateStatus(origin, me, req.id, Failed, attempt);
  }

  /** The two failure paths of process, which are the same: "failed", then again or "archived". */
  method Fails(c: Cluster, ghost origin: State, ghost me: Tid, ghost k: nat, req: Message)
    requires Reach(c.env, origin, c.View()) && me in c.threads && c.threads[me] == Working(Fail, k, req)
    modifies c
    ensures Reach(c.env, origin, c.View()) && me in c.threads && c.threads[me] == Gone
    ensures Reach(c.env, old(c.View()), c.View()) && Attempted(c.env, origin, c.View(), me, req, Outcome.Fails)
    ensures c.faults > old(c.faults) ||
            (c.faults == old(c.faults) && Concluded(c.env, origin, c.View(), me, req, Outcome.Fails))
  {
    ghost var before := c.View();
    var attempt := Inc(req.attempt);
    MarksFailed(c, origin, me, k, req, attempt);
    ghost var here := c.View();
    RetriesOrArchives(c, origin, me, k, req, attempt);
    ReachTransitive(c.env, before, here, c.View());
    GotStill(c.env, origin, here, c.View(), me, SetStatus(req.id, Failed, attempt), Ok);
    CalledStill(c.env, origin, here, c.View(), me, SetStatus(req.id, Failed, attempt));
  }

  /** The success path: an e-mail is completed together with its outbox row. */
  method Completes(c: Cluster, ghost origin: State, ghost me: Tid, ghost k: nat, req: Message) returns (ok: bool)
    requires Reach(c.env, origin, c.View()) && me in c.threads
    requires c.threads[me] == Working(if req.typ == EMAIL then FinishEmail else Finish, k, req)
    modifies c
    ensures Reach(c.env, origin, c.View()) && me in c.threads && c.threads[me] == Gone
    ensures Reach(c.env, old(c.View()), c.View()) && Attempted(c.env, origin, c.View(), me, req, Succeeds)
    ensures c.faults > old(c.faults) ||
            (c.faults == old(c.faults) && ok && Concluded(c.env, origin, c.View(), me, req, Succeeds))
    ensures !ok ==> c.faults > old(c.faults) && req.typ == EMAIL
                    && exists lost :: Got(c.env, origin, c.View(), me, Completion(req), Failure(lost))
    ensures ok && req.typ == EMAIL ==> Concluded(c.env, origin, c.View(), me, req, Succeeds)
  {
    ok := true;
    if req.typ == EMAIL {
      ok := c.CompleteJobWithOutbox(origin, me, req.id, req.attempt, OutboxRow(req.id, EMAIL, req.payload));
    } else {
      var _ := c.UpdateStatus(origin, me, req.id, Completed, req.attempt);
    }
  }

  /** The look at the job's row: a cancelled job is passed over, any other is marked. */
  method Marks(c: Cluster, ghost origin: State, ghost me: Tid, ghost k: nat, req: Message) returns (ok: bool, go: bool)
    requires Reach(c.env, origin, c.View()) && me in c.threads && c.threads[me] == Working(Read, k, req)
    modifies c
    ensures Reach(c.env, origin, c.View()) && Reach(c.env, old(c.View()), c.View()) && me in c.threads
    ensures c.threads[me] == if go then Working(Run, k, req) else Gone
    ensures c.faults >= old(c.faults) && (!ok ==> !go && c.faults > old(c.faults))
    ensures go ==> Marked(c.env, origin, c.View(), me, req)
    ensures ok && !go ==> Dropped(c.env, origin, c.View(), me, req)
    ensures !ok ==> Unread(c.env, origin, c.View(), me, req)
    ensures go ==>
              c.faults > old(c.faults) || Made(c.env, origin, c.View(), me, SetStatus(req.id, Processing, req.attempt))
  {
    ghost var before := c.View();
    var read, rec := c.GetByID(origin, me, req.id);
    if !read {
      return false, false;
    }
    if rec.Some? && rec.value.status == Cancelled {
      return true, false;
    }
    assert c.threads[me] == Working(Mark, k, req);
    ghost var here := c.View();
    var _ := c.UpdateStatus(origin, me, req.id, Processing, req.attempt);
    ReachTransitive(c.env, before, here, c.View());
    GotStill(c.env, origin, here, c.View(), me, GetById(req.id), Found(rec));
    return true, true;
  }

  /** The first half of process, up to the handler; `go` says that the handler is to run. */
  method Begins(c: Cluster, ghost origin: State, ghost me: Tid, ghost k: nat, req: Message) returns (ok: bool, go: bool)
    requires Reach(c.env, origin, c.View()) && me in c.threads && c.threads[me] == Working(PauseCheck, k, req)
    modifies c
    ensures Reach(c.env, origin, c.View()) && me in c.threads
    ensures c.threads[me] == if go then Working(Run, k, req) else Gone
    ensures c.faults >= old(c.faults) && (!ok ==> !go && c.faults > old(c.faults))
    ensures go ==> Admitted(c.env, origin, c.View(), me, req)
    ensures ok && !go ==> Dropped(c.env, origin, c.View(), me, req)
    ensures !ok ==> Unread(c.env, origin, c.View(), me, req)
    ensures go ==>
              c.faults > old(c.faults) || Made(c.env, origin, c.View(), me, SetStatus(req.id, Processing, req.attempt))
  {
    var queue := NormalQueue(req.queue);
    var paused := c.GetQueue(origin, me, queue);
    if paused.None? {
      return false, false;
    }
    if paused.value {
      return true, false;
    }
    assert c.threads[me] == Working(Read, k, req);
    ghost var here := c.View();
    ok, go := Marks(c, origin, me, k, req);
    GotStill(c.env, origin, here, c.View(), me, GetQueue(queue), IsPaused(false));
  }

  /** A type without a handler: "failed", and not tried again. */
  method Rejects(c: Cluster, ghost origin: State, ghost me: Tid, ghost k: nat, req: Message)
    requires Reach(c.env, origin, c.View()) && me in c.threads && c.threads[me] == Working(Reject, k, req)
    modifies c
    ensures Reach(c.env, origin, c.View()) && me in c.threads && c.threads[me] == Gone
    ensures Reach(c.env, old(c.View()), c.View()) && Attempted(c.env, origin, c.View(), me, req, Unhandled)
    ensures c.faults > old(c.faults) ||
            (c.faults == old(c.faults) && Concluded(c.env, origin, c.View(), me, req, Unhandled))
  {
    var _ := c.UpdateStatus(origin, me, req.id, Failed, req.attempt);
  }

  /** What belongs to the handler's answer. */
  method Settles(c: Cluster, ghost origin: State, ghost me: Tid, ghost k: nat, req: Message, outcome: Protocol.Outcome)
    returns (ok: bool)
    requires Reach(c.env, origin, c.View()) && me in c.threads
    requires c.threads[me] == ResumeWork(Run, k, req, Reply.Outcome(outcome))
    modifies c
    ensures Reach(c.env, origin, c.View()) && me in c.threads && c.threads[me] == Gone
    ensures Reach(c.env, old(c.View()), c.View()) && Attempted(c.env, origin, c.View(), me, req, outcome)
    ensures !ok ==> c.faults > old(c.faults) && req.typ == EMAIL && outcome == Succeeds
                    && exists lost :: Got(c.env, origin, c.View(), me, Completion(req), Failure(lost))
    ensures c.faults > old(c.faults) ||
            (c.faults == old(c.faults) && Concluded(c.env, origin, c.View(), me, req, outcome))
    ensures ok && req.typ == EMAIL && outcome == Succeeds ==> Concluded(c.env, origin, c.View(), me, req, outcome)
  {
    ok := true;
    match outcome
    case Fails => Fails(c, origin, me, k, req);
    case Unhandled => Rejects(c, origin, me, k, req);
    case Succeeds => ok := Completes(c, origin, me, k, req);
  }

  /** From the handler's answer on. */
  method Ends(c: Cluster, ghost origin: State, ghost me: Tid, ghost k: nat, req: Message)
    returns (ok: bool, outcome: Protocol.Outcome)
    requires Reach(c.env, origin, c.View()) && me in c.threads && c.threads[me] == Working(Run, k, req)
    modifies c
    ensures Reach(c.env, origin, c.View()) && me in c.threads && c.threads[me] == Gone
    ensures Reach(c.env, old(c.View()), c.View()) && Handled(c.env, origin, c.View(), me, req, outcome, ok)
    ensures OutcomePossible(c.env, req, outcome) && (!ok ==> c.faults > old(c.faults))
    ensures c.faults > old(c.faults) ||
            (c.faults == old(c.faults) && Concluded(c.env, origin, c.View(), me, req, outcome))
    ensures ok && req.typ == EMAIL && outcome == Succeeds ==> Concluded(c.env, origin, c.View(), me, req, outcome)
  {
    ghost var before := c.View();
    outcome := c.Execute(origin, me, req);
    ghost var here := c.View();
    ok := Settles(c, origin, me, k, req, outcome);
    ReachTransitive(c.env, before, here, c.View());
    GotStill(c.env, origin, here, c.View(), me, Execute(req), Reply.Outcome(outcome));
  }

  /** What became of a delivered message: without an answer it was dropped or a read failed, else it was handled. */
  ghost predicate Processed(env: Env, origin: State, s: State, t: Tid, m: Message, outcome: Option<Protocol.Outcome>,
                            ok: bool) {
    match outcome
    case None => if ok then Dropped(env, origin, s, t, m) else Unread(env, origin, s, t, m)
    case Some(answer) => Admitted(env, origin, s, t, m) && Handled(env, origin, s, t, m, answer, ok)
  }

  /**
   The process closure: every path of it, from the delivery of message k to its commit. Whatever
   fails, the handler runs exactly if the queue was found not paused and the job not cancelled, and
   all that belongs to its answer is attempted; without an error it is done.
   */
  method Process(c: Cluster, ghost origin: State, ghost me: Tid, ghost k: nat, req: Message)
    returns (ok: bool, ghost outcome: Option<Protocol.Outcome>)
    requires Reach(c.env, origin, c.View()) && me in c.threads && c.threads[me] == Working(PauseCheck, k, req)
    modifies c
    ensures Reach(c.env, origin, c.View()) && me in c.threads && c.threads[me] == Gone
    ensures !ok ==> c.faults > old(c.faults)
    ensures Processed(c.env, origin, c.View(), me, req, outcome, ok)
    ensures outcome.Some? ==>
              && OutcomePossible(c.env, req, outcome.value)
              && (c.faults > old(c.faults) || Concluded(c.env, origin, c.View(), me, req, outcome.value))
              && (ok && req.typ == EMAIL && outcome.value == Succeeds ==>
                    Concluded(c.env, origin, c.View(), me, req, Succeeds))
  {
    var go: bool;
    outcome := None;
    ok, go := Begins(c, origin, me, k, req);
    if !go {
      return;
    }
    ghost var here := c.View();
    var answer: Protocol.Outcome;
    ok, answer := Ends(c, origin, me, k, req);
    GotStill(c.env, origin, here, c.View(), me, GetQueue(NormalQueue(req.queue)), IsPaused(false));
    MarkedStill(c.env, origin, here, c.View(), me, req);
    outcome := Some(answer);
  }

  /** The goroutine of a message: the k-th of the log is delivered to a new thread, and processed. */
  method Handle(c: Cluster, ghost origin: State, k: nat)
    returns (ok: bool, ghost me: Tid, ghost outcome: Option<Protocol.Outcome>)
    requires Reach(c.env, origin, c.View()) && k < |c.log|
    modifies c
    ensures Reach(c.env, origin, c.View()) && me in c.threads && c.threads[me] == Gone
    ensures !ok ==> c.faults > old(c.faults)
    ensures Processed(c.env, origin, c.View(), me, old(c.log)[k], outcome, ok)
    ensures outcome.Some? ==>
              var req := old(c.log)[k];
              && OutcomePossible(c.env, req, outcome.value)
              && (c.faults > old(c.faults) || Concluded(c.env, origin, c.View(), me, req, outcome.value))
  {
    var req := c.log[k];
    me := c.Take(origin, k);
    ok, outcome := Process(c, origin, me, k, req);
  }
}
