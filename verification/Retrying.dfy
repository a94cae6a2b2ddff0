/** Retrying terminates: what is left to do falls with every message consumed, except at the largest retry limit. */
module Retrying {
  import opened Jobs
  import opened Protocol
  import opened Lifecycle
  import opened Outcomes

  /** The attempts that a message still stands for, its own included. */
  function Remaining(m: Message): int {
    Max0(MaxRetryOf(m)) - m.attempt + 1
  }

  /** The sum over the first n messages of what each live one stands for. */
  function Load(log: seq<Message>, phase: seq<Phase>, n: nat): int
    requires n <= |log| && n <= |phase|
  {
    if n == 0 then 0
    else Load(log, phase, n - 1) + (if phase[n - 1] == Done then 0 else Remaining(log[n - 1]))
  }

  function Total(s: World): int
    requires |s.phase| == |s.db.log|
  {
    Load(s.db.log, s.phase, |s.phase|)
  }

  /** No live message carries the largest int32 as its retry limit. */
  ghost predicate Limited(s: World) {
    forall k: nat, id :: Carries(s, k, id) ==> MaxRetryOf(s.db.log[k]) < MAX_INT32
  }

  lemma {:induction false} LoadOnlyReads(log: seq<Message>, log': seq<Message>, phase: seq<Phase>, phase': seq<Phase>,
                                         n: nat)
    requires n <= |log| && n <= |phase| && n <= |log'| && n <= |phase'|
    requires log[..n] == log'[..n] && phase[..n] == phase'[..n]
    ensures Load(log, phase, n) == Load(log', phase', n)
  {
    if n > 0 {
      assert log[..n][n - 1] == log'[..n][n - 1] && phase[..n][n - 1] == phase'[..n][n - 1];
      assert log[..n - 1] == log[..n][..n - 1] && log'[..n - 1] == log'[..n][..n - 1];
      assert phase[..n - 1] == phase[..n][..n - 1] && phase'[..n - 1] == phase'[..n][..n - 1];
      LoadOnlyReads(log, log', phase, phase', n - 1);
    }
  }

  lemma {:induction false} LoadMoves(log: seq<Message>, phase: seq<Phase>, k: nat, to: Phase, n: nat)
    requires k < n <= |log| && n <= |phase| && phase[k] != Done
    ensures Load(log, phase[k := to], n)
            == Load(log, phase, n) - (if to == Done then Remaining(log[k]) else 0)
  {
    if k == n - 1 {
      LoadOnlyReads(log, log, phase, phase[k := to], n - 1);
    } else {
      LoadMoves(log, phase, k, to, n - 1);
    }
  }

  lemma LoadAppends(log: seq<Message>, phase: seq<Phase>, m: Message)
    requires |log| == |phase|
    ensures Load(log + [m], phase + [Queued], |phase| + 1) == Load(log, phase, |phase|) + Remaining(m)
  {
    LoadOnlyReads(log, log + [m], phase, phase + [Queued], |phase|);
  }

  lemma RemainingPositive(env: Env, s: World, k: nat)
    requires Inv(env, s) && k < |s.phase| && s.phase[k] != Done && MaxRetryOf(s.db.log[k]) < MAX_INT32
    ensures Remaining(s.db.log[k]) >= 1
    ensures Retries(s.db.log[k], Inc(s.db.log[k].attempt)) ==>
              && MaxRetryOf(RetryMessage(s.db.log[k])) == MaxRetryOf(s.db.log[k])
              && Remaining(RetryMessage(s.db.log[k])) == Remaining(s.db.log[k]) - 1
  {
    assert JobOk(env, s, s.db.log[k].id) && Carries(s, k, s.db.log[k].id) && MessageOk(env, s, k);
  }

  /** A consumed message takes at least one attempt off the total, even if it sends the next one. */
  lemma ConsumingLowersTheTotal(env: Env, s: World, e: Event)
    requires Inv(env, s) && Limited(s) && (e.Start? || e.End?) && Occurs(env, s, e)
    ensures var s' := Then(env, s, e);
            && |s'.phase| == |s'.db.log| && |s'.phase| >= |s.phase| && Limited(s')
            && (s'.phase[e.offset] == Done ==> Total(s') < Total(s))
            && (s'.phase[e.offset] != Done ==> Total(s') == Total(s))
  {
    var s', k, m := Then(env, s, e), e.offset, s.db.log[e.offset];
    assert Carries(s, k, m.id);
    RemainingPositive(env, s, k);
    if e.Start? { StartShape(s, k, e.read); } else { EndShape(s, k, e.outcome, e.sent); }
    LoadMoves(s.db.log, s.phase, k, s'.phase[k], |s.phase|);
    if |s'.phase| > |s.phase| {
      LoadAppends(s.db.log, s.phase[k := Done], RetryMessage(m));
    }
    LimitStays(s, s', k);
  }

  lemma LimitStays(s: World, s': World, k: nat)
    requires Limited(s) && |s.phase| == |s.db.log| && k < |s.phase| && s.phase[k] != Done
    requires (s'.phase == s.phase[k := InFlight] && s'.db.log == s.db.log) || Consumed(s, s', k)
    requires |s'.phase| > |s.phase| ==> MaxRetryOf(RetryMessage(s.db.log[k])) == MaxRetryOf(s.db.log[k])
    ensures Limited(s')
  {
    assert Carries(s, k, s.db.log[k].id);
    forall i: nat, id | Carries(s', i, id) ensures MaxRetryOf(s'.db.log[i]) < MAX_INT32 {
      if i < |s.phase| && i != k {
        assert Carries(s, i, id);
      }
    }
  }

  /** Workers, cancellations, pauses and time, but no new messages from the API or the scheduler. */
  predicate NoNewWork(e: Event) {
    e.Cancel? || e.Start? || e.End? || e.Pass? || e.Pause?
  }

  function Ends(run: seq<Event>): nat {
    if run == [] then 0 else (if run[0].End? then 1 else 0) + Ends(run[1..])
  }

  lemma {:induction false} TotalNonNegative(env: Env, s: World, n: nat)
    requires Inv(env, s) && Limited(s) && n <= |s.phase|
    ensures Load(s.db.log, s.phase, n) >= 0
  {
    if n > 0 {
      TotalNonNegative(env, s, n - 1);
      if s.phase[n - 1] != Done {
        assert Carries(s, n - 1, s.db.log[n - 1].id);
        RemainingPositive(env, s, n - 1);
      }
    }
  }

  /** Without new work, handlers run at most as often as the live messages stand for: retrying ends. */
  lemma {:induction false} RetryingEnds(env: Env, s: World, run: seq<Event>)
    requires Inv(env, s) && Limited(s) && Happens(env, s, run)
    requires forall e :: e in run ==> NoNewWork(e)
    ensures Ends(run) <= Total(s)
    decreases |run|
  {
    if run == [] {
      TotalNonNegative(env, s, |s.phase|);
    } else {
      assert NoNewWork(run[0]);
      var s' := Then(env, s, run[0]);
      EventKeepsInv(env, s, run[0]);
      if run[0].Start? || run[0].End? {
        ConsumingLowersTheTotal(env, s, run[0]);
      } else {
        assert forall k: nat, id :: Carries(s', k, id) <==> Carries(s, k, id);
      }
      RetryingEnds(env, s', run[1..]);
    }
  }

  // ----- The limit of the limit -----

  /** Some handling of the job can fail. */
  predicate MayFail(env: Env, row: Row) {
    if row.typ == EMAIL then !env.validEmail(row.payload) else row.typ in env.handlers
  }

  /** A job that was sent and not cancelled, whose handler can fail, with a retry limit below the largest int32. */
  ghost predicate Archivable(env: Env, s: World, id: JobId) {
    && id in s.db.rows && id in s.budget
    && s.db.rows[id].status != Cancelled && MayFail(env, s.db.rows[id]) && s.budget[id] < MAX_INT32
  }

  ghost predicate IsArchived(s: World, id: JobId) {
    id in s.db.rows && s.db.rows[id].status == Archived
  }

  /** The job has been sent, and is neither archived nor on the way there. */
  ghost predicate NeverArchived(env: Env, s: World, id: JobId) {
    && id in s.db.rows && id in s.budget && s.db.rows[id].status != Scheduled
    && !Archivable(env, s, id) && !IsArchived(s, id)
  }

  /** Type and payload stay, and only a failure archives. */
  ghost predicate SameWork(s: World, s': World, e: Event, id: JobId)
    requires id in s.db.rows
  {
    && id in s'.db.rows && s'.db.rows[id].typ == s.db.rows[id].typ && s'.db.rows[id].payload == s.db.rows[id].payload
    && (IsArchived(s', id) ==> IsArchived(s, id) || (e.End? && e.outcome == Fails && Carries(s, e.offset, id)))
  }

  lemma EventKeepsWork(env: Env, s: World, e: Event, id: JobId)
    requires Occurs(env, s, e) && id in s.db.rows
    ensures SameWork(s, Then(env, s, e), e, id)
  {
    if e.Promote? {
      ListedAllDue(s, s.db.clock, e.due);
      PromoteProceeds(s, e.due, e.sends, id);
    } else if e.Start? {
      StartWrites(s, e.offset, e.read);
    } else if e.End? {
      EndWrites(s, e.offset, e.outcome, e.sent);
    } else {
      ApiKeepsWork(env, s, e, id);
    }
  }

  lemma ApiKeepsWork(env: Env, s: World, e: Event, id: JobId)
    requires Occurs(env, s, e) && id in s.db.rows && !e.Promote? && !e.Start? && !e.End?
    ensures SameWork(s, Then(env, s, e), e, id)
  {
  }

  /** Only an archiving failure of an archivable job archives it. */
  lemma ArchivedByFailure(env: Env, s: World, e: Event, id: JobId)
    requires Inv(env, s) && Occurs(env, s, e) && InTime(s, e) && NeverArchived(env, s, id)
    ensures NeverArchived(env, Then(env, s, e), id)
  {
    EventProceeds(env, s, e, id);
    EventKeepsWork(env, s, e, id);
    BudgetStays(env, s, e, id);
    if e.End? && e.outcome == Fails && Carries(s, e.offset, id) {
      assert JobOk(env, s, id) && MessageOk(env, s, e.offset);
      EndWrites(s, e.offset, e.outcome, e.sent);
    }
  }

  lemma {:induction false} StaysUnarchived(env: Env, s: World, run: seq<Event>, id: JobId)
    requires Inv(env, s) && Happens(env, s, run) && NeverArchived(env, s, id)
    ensures NeverArchived(env, Later(env, s, run), id)
    decreases |run|
  {
    if run != [] {
      ArchivedByFailure(env, s, run[0], id);
      EventKeepsInv(env, s, run[0]);
      StaysUnarchived(env, Then(env, s, run[0]), run[1..], id);
    }
  }

  lemma HappensFirst(env: Env, s: World, e: Event, rest: seq<Event>) returns (run: seq<Event>)
    requires Occurs(env, s, e) && InTime(s, e) && Happens(env, Then(env, s, e), rest)
    ensures Happens(env, s, run) && Later(env, s, run) == Later(env, Then(env, s, e), rest)
  {
    run := [e] + rest;
    assert run[1..] == rest;
  }

  /** Let the queue go on, start the message, let it fail, and so on with its retry. */
  lemma {:induction false} ArchivingRun(env: Env, s: World, id: JobId, k: nat) returns (run: seq<Event>)
    requires Inv(env, s) && Carries(s, k, id) && Archivable(env, s, id)
    ensures Happens(env, s, run) && IsArchived(Later(env, s, run), id)
    decreases Max0(MaxRetryOf(s.db.log[k])) + 1 - s.db.log[k].attempt, if s.phase[k] == Queued then 1 else 0
  {
    var m := s.db.log[k];
    assert JobOk(env, s, id) && MessageOk(env, s, k);
    if s.phase[k] == Queued {
      var on := Event.Pause(NormalQueue(m.queue), false);
      var s1 := Then(env, s, on);
      EventKeepsInv(env, s, on);
      StartKeeps(env, s1, k, true);
      var rest := ArchivingRun(env, StartNext(s1, k, true), id, k);
      run := HappensFirst(env, s1, Start(k, true), rest);
      run := HappensFirst(env, s, on, run);
    } else {
      var e := End(k, Fails, true);
      var s' := Then(env, s, e);
      EventKeepsInv(env, s, e);
      EventKeepsWork(env, s, e, id);
      EndWrites(s, k, Fails, true);
      var rest := [];
      if !IsArchived(s', id) {
        BudgetStays(env, s, e, id);
        rest := ArchivingRun(env, s', id, |s.db.log|);
      }
      run := HappensFirst(env, s, e, rest);
    }
  }

  ghost predicate CanBeArchived(env: Env, s: World, id: JobId) {
    exists run :: Happens(env, s, run) && IsArchived(Later(env, s, run), id)
  }

  lemma LiveArchivedExactlyWhen(env: Env, s: World, id: JobId)
    requires Inv(env, s) && Live(s, id)
    ensures CanBeArchived(env, s, id) <==> Archivable(env, s, id)
  {
    var k: nat :| Carries(s, k, id);
    assert JobOk(env, s, id) && MessageOk(env, s, k);
    if Archivable(env, s, id) {
      var run := ArchivingRun(env, s, id, k);
    } else {
      forall run | Happens(env, s, run) ensures !IsArchived(Later(env, s, run), id) {
        StaysUnarchived(env, s, run, id);
      }
    }
  }

  /**
   When retrying can end. From any state the system can be in, a job with a live message can come to
   be archived exactly if it is not cancelled, its handler can fail, and its retry limit is below the
   largest int32. At that limit the attempt number wraps, and the job is sent for ever.
   */
  lemma RetryingCanEndExactlyWhen(env: Env, start: int, run: seq<Event>, id: JobId)
    requires Happens(env, Empty(start), run) && Live(Later(env, Empty(start), run), id)
    ensures var s := Later(env, Empty(start), run);
            CanBeArchived(env, s, id) <==> Archivable(env, s, id)
  {
    EmptyInv(env, start);
    RunKeepsInv(env, Empty(start), run);
    LiveArchivedExactlyWhen(env, Later(env, Empty(start), run), id);
  }

  /** Nothing fails but the job's handler, and nobody cancels the job or lets its message go. */
  ghost predicate HandlerFails(env: Env, s: World, e: Event, id: JobId) {
    && Flawless(e) && !LeavesBehind(env, s, e, id) && (e.Cancel? ==> e.id != id)
    && (e.End? && Carries(s, e.offset, id) ==> e.outcome == Fails)
  }

  /** The job is not cancelled, and its retry limit is the largest int32. */
  predicate Unlimited(s: World, id: JobId) {
    && id in s.db.rows && s.db.rows[id].status != Cancelled
    && id in s.budget && s.budget[id] == MAX_INT32
  }

  ghost predicate HandlerAlwaysFails(env: Env, s: World, run: seq<Event>, id: JobId)
    requires Happens(env, s, run)
    decreases |run|
  {
    run == [] || (HandlerFails(env, s, run[0], id) && HandlerAlwaysFails(env, Then(env, s, run[0]), run[1..], id))
  }

  lemma FailingStaysLive(env: Env, s: World, e: Event, id: JobId)
    requires Inv(env, s) && Occurs(env, s, e) && InTime(s, e) && HandlerFails(env, s, e, id)
    requires Live(s, id) && Unlimited(s, id)
    ensures var s' := Then(env, s, e);
            Inv(env, s') && Live(s', id) && Unlimited(s', id)
  {
    var k: nat :| Carries(s, k, id);
    assert JobOk(env, s, id) && MessageOk(env, s, k);
    EventKeepsInv(env, s, e);
    BudgetStays(env, s, e, id);
    EventProceeds(env, s, e, id);
    NewlyLeftBehind(env, s, e, id);
    FailingStatus(env, s, e, id);
    assert JobOk(env, Then(env, s, e), id);
  }

  lemma FailingStatus(env: Env, s: World, e: Event, id: JobId)
    requires Inv(env, s) && Occurs(env, s, e) && HandlerFails(env, s, e, id)
    requires id in s.db.rows && s.db.rows[id].status in {Pending, Processing, Failed}
    requires id in s.budget && s.budget[id] == MAX_INT32
    ensures id in Then(env, s, e).db.rows && Then(env, s, e).db.rows[id].status in {Pending, Processing, Failed}
  {
    if e.Promote? {
      ListedAllDue(s, s.db.clock, e.due);
      PromoteProceeds(s, e.due, e.sends, id);
    } else if e.Start? {
      StartWrites(s, e.offset, e.read);
    } else if e.End? {
      assert Carries(s, e.offset, s.db.log[e.offset].id) && JobOk(env, s, s.db.log[e.offset].id);
      assert MessageOk(env, s, e.offset);
      EndWrites(s, e.offset, e.outcome, e.sent);
    }
  }

  /** At the largest retry limit, a job whose handler always fails always has a live message again. */
  lemma {:induction false} SentForEver(env: Env, s: World, run: seq<Event>, id: JobId)
    requires Inv(env, s) && Happens(env, s, run) && HandlerAlwaysFails(env, s, run, id)
    requires Live(s, id) && Unlimited(s, id)
    ensures Live(Later(env, s, run), id)
    decreases |run|
  {
    if run != [] {
      FailingStaysLive(env, s, run[0], id);
      SentForEver(env, Then(env, s, run[0]), run[1..], id);
    }
  }
}
