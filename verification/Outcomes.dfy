/**
 What every run of the lifecycle guarantees: one live message per job, sticky outcomes, who is left
 behind, how attempts end, and one e-mail per completed e-mail job.
 */
module Outcomes {
  import opened Jobs
  import opened Protocol
  import opened Lifecycle

  ghost predicate Happens(env: Env, s: World, run: seq<Event>)
    decreases |run|
  {
    run == [] ||
    (Occurs(env, s, run[0]) && InTime(s, run[0]) && Happens(env, Then(env, s, run[0]), run[1..]))
  }

  ghost function Later(env: Env, s: World, run: seq<Event>): World
    requires Happens(env, s, run)
    decreases |run|
  {
    if run == [] then s else Later(env, Then(env, s, run[0]), run[1..])
  }

  lemma EmptyInv(env: Env, start: int)
    ensures Inv(env, Empty(start))
  {
    forall id ensures JobOk(env, Empty(start), id) {
    }
  }

  lemma {:induction false} RunKeepsInv(env: Env, s: World, run: seq<Event>)
    requires Inv(env, s) && Happens(env, s, run)
    ensures Inv(env, Later(env, s, run))
    decreases |run|
  {
    if run != [] {
      EventKeepsInv(env, s, run[0]);
      RunKeepsInv(env, Then(env, s, run[0]), run[1..]);
    }
  }

  // ----- Single flight -----

  predicate InFlightFor(s: World, k: nat, id: JobId) {
    Carries(s, k, id) && s.phase[k] == InFlight
  }

  /** At most one live message per job; a row is "processing" exactly while its message is in flight. */
  lemma SingleFlightAlways(env: Env, start: int, run: seq<Event>)
    requires Happens(env, Empty(start), run)
    ensures var s := Later(env, Empty(start), run);
            && SingleFlight(s)
            && forall id :: id in s.db.rows ==>
                 (s.db.rows[id].status == Processing <==> exists k: nat :: InFlightFor(s, k, id))
  {
    EmptyInv(env, start);
    RunKeepsInv(env, Empty(start), run);
    var s := Later(env, Empty(start), run);
    forall j: nat, k: nat, id | Carries(s, j, id) && Carries(s, k, id) ensures j == k {
      assert JobOk(env, s, id);
    }
    forall id | id in s.db.rows
      ensures s.db.rows[id].status == Processing <==> exists k: nat :: InFlightFor(s, k, id)
    {
      assert JobOk(env, s, id);
      if s.db.rows[id].status == Processing {
        var k: nat :| Carries(s, k, id);
        assert MessageOk(env, s, k) && InFlightFor(s, k, id);
      } else {
        forall k: nat ensures !InFlightFor(s, k, id) {
          assert Carries(s, k, id) ==> MessageOk(env, s, k);
        }
      }
    }
  }

  // ----- Sticky outcomes -----

  predicate MayBecome(from: Status, to: Status) {
    match from
    case Completed => to == Completed
    case Cancelled => to == Cancelled
    case Archived => to == Archived || to == Cancelled
    case Scheduled => to != Processing && to != Failed && to != Completed && to != Archived
    case _ => to != Scheduled
  }

  ghost predicate Proceeds(s: World, s': World, id: JobId) {
    id in s.db.rows ==> id in s'.db.rows && MayBecome(s.db.rows[id].status, s'.db.rows[id].status)
  }

  lemma {:induction false} PromoteProceeds(s: World, due: seq<Due>, sends: set<JobId>, id: JobId)
    requires AllDue(s, due)
    ensures var s' := PromoteNextAll(s, due, sends);
            && (id in s.db.rows <==> id in s'.db.rows)
            && (id in s.db.rows ==>
                  s'.db.rows[id] == s.db.rows[id] ||
                  (s.db.rows[id].status == Scheduled && s'.db.rows[id] == s.db.rows[id].(status := Pending)))
    ensures PromoteNextAll(s, due, sends).stuck == s.stuck
    decreases |due|
  {
    if due != [] {
      var s' := if due[0].id in sends then PromoteOne(s, due[0]) else s;
      PromoteProceeds(s', due[1..], sends, id);
    }
  }

  lemma WorkProceeds(env: Env, s: World, e: Event, id: JobId)
    requires Inv(env, s) && Occurs(env, s, e) && (e.Start? || e.End?)
    ensures Proceeds(s, Then(env, s, e), id)
  {
    var k, m := e.offset, s.db.log[e.offset];
    assert JobOk(env, s, m.id) && Carries(s, k, m.id) && MessageOk(env, s, k);
    if e.Start? {
      StartWrites(s, k, e.read);
    } else {
      EndWrites(s, k, e.outcome, e.sent);
    }
  }

  lemma EventProceeds(env: Env, s: World, e: Event, id: JobId)
    requires Inv(env, s) && Occurs(env, s, e)
    ensures Proceeds(s, Then(env, s, e), id)
  {
    match e
    case Promote(due, sends) =>
      ListedAllDue(s, s.db.clock, due);
      PromoteProceeds(s, due, sends, id);
    case Start(_, _) => WorkProceeds(env, s, e, id);
    case End(_, _, _) => WorkProceeds(env, s, e, id);
    case Replays(source, queue, newId, sent) =>
      if source in s.db.rows && s.db.rows[source].status == Archived {
        LaunchProceeds(s, Replay(s.db.rows[source], queue, newId), sent, id);
      }
    case Launch(l, sent) => LaunchProceeds(s, l, sent, id);
    case Submit(a, sent) => SubmitProceeds(s, a, sent, id);
    case _ =>
  }

  lemma LaunchProceeds(s: World, l: LaunchArgs, sent: bool, id: JobId)
    ensures Proceeds(s, LaunchNext(s, l, sent), id)
  {
  }

  lemma SubmitProceeds(s: World, a: SubmitArgs, sent: bool, id: JobId)
    ensures Proceeds(s, SubmitNext(s, a, sent), id)
  {
  }

  /** "completed" and "cancelled" are never left, and "archived" only for "cancelled". */
  lemma {:induction false} OutcomesStick(env: Env, s: World, run: seq<Event>, id: JobId)
    requires Inv(env, s) && Happens(env, s, run) && id in s.db.rows
    requires s.db.rows[id].status in {Completed, Cancelled, Archived}
    ensures id in Later(env, s, run).db.rows
    ensures MayBecome(s.db.rows[id].status, Later(env, s, run).db.rows[id].status)
    decreases |run|
  {
    if run != [] {
      EventProceeds(env, s, run[0], id);
      EventKeepsInv(env, s, run[0]);
      OutcomesStick(env, Then(env, s, run[0]), run[1..], id);
    }
  }

  // ----- Jobs left behind -----

  /** Nothing fails at the store or the producer. */
  predicate Flawless(e: Event) {
    match e
    case Submit(_, sent) => sent
    case Replays(_, _, _, sent) => sent
    case Launch(_, sent) => sent
    case Promote(due, sends) => forall i :: 0 <= i < |due| ==> due[i].id in sends
    case Start(_, read) => read
    case End(_, _, sent) => sent
    case _ => true
  }

  /** The event consumes the job's message while its queue is paused, or finds no handler for its type. */
  ghost predicate LeavesBehind(env: Env, s: World, e: Event, id: JobId) {
    && (e.Start? || e.End?) && Occurs(env, s, e) && s.db.log[e.offset].id == id
    && (e.Start? ==> NormalQueue(s.db.log[e.offset].queue) in s.db.paused)
    && (e.End? ==> e.outcome == Unhandled)
  }

  /**
   A job that waits in "pending", "processing" or "failed" has no live message exactly if it was
   left behind. Any other job that is not finished has a live message or is still "scheduled", and
   then the promoter's query selects it from its run time on.
   */
  lemma StuckExactlyWhenLeftBehind(env: Env, start: int, run: seq<Event>, id: JobId)
    requires Happens(env, Empty(start), run)
    requires id in Later(env, Empty(start), run).db.rows
    ensures var s := Later(env, Empty(start), run);
            var row := s.db.rows[id];
            && (row.status in {Pending, Processing, Failed} ==> (!Live(s, id) <==> id in s.stuck))
            && (id in s.stuck ==> !Live(s, id) && row.status in {Pending, Failed, Cancelled})
            && (row.status == Scheduled ==> forall now :: row.runAt <= now ==> id in DueKeys(s.db.rows, now))
  {
    EmptyInv(env, start);
    RunKeepsInv(env, Empty(start), run);
    var s := Later(env, Empty(start), run);
    assert JobOk(env, s, id);
  }

  /** Event i of the run leaves the job behind. */
  ghost predicate LeftBehindAt(env: Env, s: World, run: seq<Event>, i: nat, id: JobId) {
    i < |run| && Happens(env, s, run[..i]) && LeavesBehind(env, Later(env, s, run[..i]), run[i], id)
  }

  lemma LeftBehindInRest(env: Env, s: World, run: seq<Event>, i: nat, id: JobId)
    requires Happens(env, s, run) && 0 < i < |run|
    ensures LeftBehindAt(env, s, run, i, id) <==> LeftBehindAt(env, Then(env, s, run[0]), run[1..], i - 1, id)
  {
    assert run[..i][1..] == run[1..][..i - 1];
  }

  /**
   In a run without failures, exactly those are left behind whose message some event consumes while
   its queue is paused, or finds without a handler for its type.
   */
  lemma {:induction false} LeftBehindExactlyWhen(env: Env, s: World, run: seq<Event>, id: JobId)
    requires Inv(env, s) && Happens(env, s, run) && id !in s.stuck
    requires forall e :: e in run ==> Flawless(e)
    ensures id in Later(env, s, run).stuck <==> exists i: nat :: LeftBehindAt(env, s, run, i, id)
    decreases |run|
  {
    if run != [] {
      assert run[0] in run && run[..0] == [];
      var s' := Then(env, s, run[0]);
      EventKeepsInv(env, s, run[0]);
      NewlyLeftBehind(env, s, run[0], id);
      if id in s'.stuck {
        StaysBehind(env, s', run[1..], id);
        assert LeftBehindAt(env, s, run, 0, id);
      } else {
        LeftBehindExactlyWhen(env, s', run[1..], id);
        forall i: nat | 0 < i < |run|
          ensures LeftBehindAt(env, s, run, i, id) <==> LeftBehindAt(env, s', run[1..], i - 1, id)
        {
          LeftBehindInRest(env, s, run, i, id);
        }
        if i: nat :| LeftBehindAt(env, s', run[1..], i, id) {
          assert LeftBehindAt(env, s, run, i + 1, id);
        }
      }
    }
  }

  lemma {:induction false} StaysBehind(env: Env, s: World, run: seq<Event>, id: JobId)
    requires Happens(env, s, run) && id in s.stuck
    ensures id in Later(env, s, run).stuck
    decreases |run|
  {
    if run != [] {
      var e := run[0];
      if e.Promote? {
        ListedAllDue(s, s.db.clock, e.due);
        PromoteProceeds(s, e.due, e.sends, id);
      }
      StaysBehind(env, Then(env, s, e), run[1..], id);
    }
  }

  lemma NewlyLeftBehind(env: Env, s: World, e: Event, id: JobId)
    requires Occurs(env, s, e) && Flawless(e) && id !in s.stuck
    ensures id in Then(env, s, e).stuck <==> LeavesBehind(env, s, e, id)
  {
    if e.Promote? {
      ListedAllDue(s, s.db.clock, e.due);
      PromoteProceeds(s, e.due, e.sends, id);
    }
  }

  /**
   The same on the whole history: without failures, a job that waits in "pending", "processing" or
   "failed" has no live message exactly if such an event happened to it.
   */
  lemma WaitsInVainExactlyWhen(env: Env, start: int, run: seq<Event>, id: JobId)
    requires Happens(env, Empty(start), run) && forall e :: e in run ==> Flawless(e)
    requires var s := Later(env, Empty(start), run);
             id in s.db.rows && s.db.rows[id].status in {Pending, Processing, Failed}
    ensures !Live(Later(env, Empty(start), run), id) <==> exists i: nat :: LeftBehindAt(env, Empty(start), run, i, id)
  {
    EmptyInv(env, start);
    LeftBehindExactlyWhen(env, Empty(start), run, id);
    StuckExactlyWhenLeftBehind(env, start, run, id);
  }

  // ----- How attempts end -----

  /**
   The closed form of retrying. Whenever a job whose messages carry the retry limit R is neither
   live, nor left behind, nor cancelled, it is completed at its first succeeding attempt i, with
   i <= max(0, R), or archived with attempt max(0, R) + 1 after as many failures. At any time its
   handler has run at most max(0, R) + 1 times.
   */
  lemma AttemptsEnd(env: Env, start: int, run: seq<Event>, id: JobId)
    requires Happens(env, Empty(start), run)
    requires var s := Later(env, Empty(start), run);
             id in s.db.rows && id in s.budget && s.budget[id] < MAX_INT32
    ensures var s := Later(env, Empty(start), run);
            && id in s.tried
            && var row, results, most := s.db.rows[id], s.tried[id], Max0(s.budget[id]);
            && |results| <= most + 1
            && (!Live(s, id) && id !in s.stuck && row.status !in {Cancelled, Scheduled} ==>
                  || (row.status == Completed && FirstSuccess(results, row.attempt) && row.attempt <= most)
                  || (row.status == Archived && AllFailed(results) && |results| == row.attempt == most + 1))
  {
    EmptyInv(env, start);
    RunKeepsInv(env, Empty(start), run);
    var s := Later(env, Empty(start), run);
    assert JobOk(env, s, id);
  }

  lemma BudgetStays(env: Env, s: World, e: Event, id: JobId)
    requires Inv(env, s) && Occurs(env, s, e) && InTime(s, e)
    requires id in s.db.rows && s.db.rows[id].status != Scheduled && id in s.budget
    ensures id in Then(env, s, e).budget && Then(env, s, e).budget[id] == s.budget[id]
    ensures id in Then(env, s, e).db.rows && Then(env, s, e).db.rows[id].status != Scheduled
  {
    EventProceeds(env, s, e, id);
    if e.Promote? {
      ListedAllDue(s, s.db.clock, e.due);
      PromoteBudget(s, e.due, e.sends, id);
    } else if e.End? {
      EndKeepsBudget(env, s, e, id);
    }
  }

  lemma EndKeepsBudget(env: Env, s: World, e: Event, id: JobId)
    requires Inv(env, s) && Occurs(env, s, e) && e.End? && id in s.budget
    ensures id in Then(env, s, e).budget && Then(env, s, e).budget[id] == s.budget[id]
  {
    var k := e.offset;
    assert JobOk(env, s, s.db.log[k].id) && Carries(s, k, s.db.log[k].id) && MessageOk(env, s, k);
  }

  lemma {:induction false} PromoteBudget(s: World, due: seq<Due>, sends: set<JobId>, id: JobId)
    requires AllDue(s, due) && id in s.db.rows && id in s.budget
    requires s.db.rows[id].status != Scheduled
    ensures id in PromoteNextAll(s, due, sends).budget && PromoteNextAll(s, due, sends).budget[id] == s.budget[id]
    decreases |due|
  {
    if due != [] {
      var s' := if due[0].id in sends then PromoteOne(s, due[0]) else s;
      PromoteBudget(s', due[1..], sends, id);
    }
  }

  lemma {:induction false} BudgetStaysOverRun(env: Env, s: World, run: seq<Event>, id: JobId)
    requires Inv(env, s) && Happens(env, s, run)
    requires id in s.db.rows && s.db.rows[id].status != Scheduled && id in s.budget
    ensures id in Later(env, s, run).budget && Later(env, s, run).budget[id] == s.budget[id]
    ensures id in Later(env, s, run).db.rows
    decreases |run|
  {
    if run != [] {
      BudgetStays(env, s, run[0], id);
      EventKeepsInv(env, s, run[0]);
      BudgetStaysOverRun(env, Then(env, s, run[0]), run[1..], id);
    }
  }

  /** From its submission for at once with retry limit R, in any later run, a job ends as the closed form says for R. */
  lemma SubmittedJobEnds(env: Env, s: World, a: SubmitArgs, run: seq<Event>)
    requires Inv(env, s) && Insertable(s.db.rows, a.newId, NewRow(a)) && a.runAt <= 0 && a.maxRetry < MAX_INT32
    requires Happens(env, SubmitNext(s, a, true), run)
    ensures var s' := Later(env, SubmitNext(s, a, true), run);
            && a.newId in s'.db.rows && a.newId in s'.tried
            && var row, results := s'.db.rows[a.newId], s'.tried[a.newId];
               && |results| <= Max0(a.maxRetry) + 1
               && (row.status == Completed ==> FirstSuccess(results, row.attempt) && row.attempt <= Max0(a.maxRetry))
               && (row.status == Archived ==> AllFailed(results) && |results| == row.attempt == Max0(a.maxRetry) + 1)
               && (row.status in {Pending, Processing, Failed} ==> Live(s', a.newId) || a.newId in s'.stuck)
  {
    var s1 := SubmitNext(s, a, true);
    SubmitKeeps(env, s, a, true);
    RunKeepsInv(env, s1, run);
    BudgetStaysOverRun(env, s1, run, a.newId);
    assert JobOk(env, Later(env, s1, run), a.newId);
  }

  // ----- E-mail -----

  /**
   An e-mail job is completed exactly if one outbox row, and no second one, is for it. Every outbox
   row carries the payload of its job, and that payload passes the check.
   */
  lemma OneMailPerCompletedJob(env: Env, start: int, run: seq<Event>)
    requires Happens(env, Empty(start), run)
    ensures var s := Later(env, Empty(start), run);
            && (forall id :: id in s.db.rows && s.db.rows[id].typ == EMAIL ==>
                  (s.db.rows[id].status == Completed <==> exists i: nat :: Mails(s, i, id)))
            && (forall i: nat, j: nat, id :: Mails(s, i, id) && Mails(s, j, id) ==> i == j)
            && (forall i :: 0 <= i < |s.db.outbox| ==>
                  var mail := s.db.outbox[i];
                  && mail.jobId in s.db.rows && s.db.rows[mail.jobId].typ == EMAIL
                  && mail.payload == s.db.rows[mail.jobId].payload && env.validEmail(mail.payload))
  {
    EmptyInv(env, start);
    RunKeepsInv(env, Empty(start), run);
    var s := Later(env, Empty(start), run);
    forall id | id in s.db.rows && s.db.rows[id].typ == EMAIL
      ensures s.db.rows[id].status == Completed <==> exists i: nat :: Mails(s, i, id)
    {
      assert JobOk(env, s, id);
    }
    forall i: nat, j: nat, id | Mails(s, i, id) && Mails(s, j, id) ensures i == j {
      assert JobOk(env, s, id);
    }
    forall i | 0 <= i < |s.db.outbox|
      ensures var mail := s.db.outbox[i];
              && mail.jobId in s.db.rows && s.db.rows[mail.jobId].typ == EMAIL
              && mail.payload == s.db.rows[mail.jobId].payload && env.validEmail(mail.payload)
    {
      assert JobOk(env, s, s.db.outbox[i].jobId) && Mails(s, i, s.db.outbox[i].jobId);
      assert MailOk(env, s, i);
    }
  }
}
