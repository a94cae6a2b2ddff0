/**
 The job lifecycle in larger steps: an API call, a promoter tick, and the start and the finish of a
 worker's processing are each atomic, so that anything can happen while a handler runs. Status
 writes succeed; reads by the worker and sends may fail; no message is delivered twice.
 */
module Lifecycle {
  import opened Jobs
  import opened Protocol

  datatype Phase = Queued | InFlight | Done

  /**
   Why a job was left behind: its message was consumed while its queue was paused, its type has no
   handler, or a read or send failed.
   */
  datatype Reason = Dropped | NoHandler | Lost

  /**
   `phase` says of every message in the log how far it is. The rest is history: the handler
   results of each job, the retry limit its messages carry, and the jobs left behind.
   */
  datatype World = World(db: Tables, phase: seq<Phase>, tried: map<JobId, seq<bool>>,
                         budget: map<JobId, int32>, stuck: map<JobId, Reason>)

  datatype Event =
    | Submit(args: SubmitArgs, sent: bool)
    | Cancel(id: JobId)
    | Replays(id: JobId, queue: string, newId: JobId, sent: bool)
    | Launch(launch: LaunchArgs, sent: bool)
    | Promote(due: seq<Due>, sends: set<JobId>)
    | Start(offset: nat, read: bool)
    | End(offset: nat, outcome: Outcome, sent: bool)
    | Pass(now: int)
    | Pause(queue: string, on: bool)

  function Write(s: World, id: JobId, status: Status, attempt: int32): World {
    s.(db := s.db.(rows := WithStatus(s.db.rows, id, status, attempt)))
  }

  function SendNew(s: World, m: Message): World {
    s.(db := s.db.(log := s.db.log + [m]), phase := s.phase + [Queued], budget := s.budget[m.id := MaxRetryOf(m)])
  }

  function SendOrLose(s: World, m: Message, sent: bool): World {
    if sent then SendNew(s, m) else s.(stuck := s.stuck[m.id := Lost])
  }

  function Insert(s: World, id: JobId, row: Row): World {
    s.(db := s.db.(rows := s.db.rows[id := row]), tried := s.tried[id := []])
  }

  function Consume(s: World, k: nat): World
    requires k < |s.phase|
  {
    s.(phase := s.phase[k := Done])
  }

  function SubmitNext(s: World, a: SubmitArgs, sent: bool): World {
    if !Insertable(s.db.rows, a.newId, NewRow(a)) then s
    else if a.runAt > 0 && a.runAt > s.db.clock then Insert(s, a.newId, NewRow(a))
    else SendOrLose(Insert(s, a.newId, NewRow(a)), SubmitMessage(a), sent)
  }

  function LaunchNext(s: World, l: LaunchArgs, sent: bool): World {
    if !Insertable(s.db.rows, l.newId, LaunchedRow(l)) then s
    else SendOrLose(Insert(s, l.newId, LaunchedRow(l)), LaunchMessage(l), sent)
  }

  function CancelNext(s: World, id: JobId): World {
    if id in s.db.rows && s.db.rows[id].status !in {Completed, Processing} then Write(s, id, Cancelled, 0) else s
  }

  function ReplayNext(s: World, id: JobId, queue: string, newId: JobId, sent: bool): World {
    if id in s.db.rows && s.db.rows[id].status == Archived
    then LaunchNext(s, Replay(s.db.rows[id], queue, newId), sent) else s
  }

  function PromoteOne(s: World, d: Due): World {
    Write(SendNew(s, PromoteMessage(d.id, d.row)), d.id, Pending, d.row.attempt)
  }

  /** One tick: each due job whose send succeeds is promoted, the others stay as they are. */
  function PromoteNextAll(s: World, due: seq<Due>, sends: set<JobId>): World
    decreases |due|
  {
    if due == [] then s
    else PromoteNextAll(if due[0].id in sends then PromoteOne(s, due[0]) else s, due[1..], sends)
  }

  function StartNext(s: World, k: nat, read: bool): World
    requires k < |s.phase| == |s.db.log|
  {
    var m := s.db.log[k];
    if !read then Consume(s, k).(stuck := s.stuck[m.id := Lost])
    else if NormalQueue(m.queue) in s.db.paused then Consume(s, k).(stuck := s.stuck[m.id := Dropped])
    else if m.id in s.db.rows && s.db.rows[m.id].status == Cancelled then Consume(s, k)
    else Write(s, m.id, Processing, m.attempt).(phase := s.phase[k := InFlight])
  }

  function Tried(s: World, id: JobId, ok: bool): World {
    s.(tried := s.tried[id := (if id in s.tried then s.tried[id] else []) + [ok]])
  }

  function FailNext(s: World, m: Message, sent: bool): World {
    if Retries(m, Inc(m.attempt)) then SendOrLose(Write(s, m.id, Failed, Inc(m.attempt)), RetryMessage(m), sent)
    else Write(s, m.id, Archived, Inc(m.attempt))
  }

  function EndNext(s: World, k: nat, outcome: Outcome, sent: bool): World
    requires k < |s.phase| == |s.db.log|
  {
    var m := s.db.log[k];
    var s' := Consume(s, k);
    match outcome
    case Succeeds =>
      var done := Write(Tried(s', m.id, true), m.id, Completed, m.attempt);
      if m.typ == EMAIL
      then done.(db := done.db.(outbox := done.db.outbox + [OutboxRow(m.id, EMAIL, m.payload)])) else done
    case Fails => FailNext(Tried(s', m.id, false), m, sent)
    case Unhandled => Write(s', m.id, Failed, m.attempt).(stuck := s.stuck[m.id := NoHandler])
  }

  ghost predicate Occurs(env: Env, s: World, e: Event) {
    match e
    case Submit(a, _) => a.newId != "" && a.typ != "" && a.queue != ""
    case Cancel(id) => id != ""
    case Replays(id, queue, newId, _) => id != "" && queue != "" && newId != ""
    case Launch(l, _) => l.newId != ""
    case Promote(due, _) => DueListing(s.db.rows, s.db.clock, due)
    case Start(k, _) => k < |s.phase| == |s.db.log| && s.phase[k] == Queued
    case End(k, outcome, _) =>
      k < |s.phase| == |s.db.log| && s.phase[k] == InFlight && OutcomePossible(env, s.db.log[k], outcome)
    case Pass(now) => s.db.clock <= now
    case Pause(q, _) => q != ""
  }

  /** Submit with 0 < runAt <= now creates a "scheduled" row and also enqueues it. */
  predicate InTime(s: World, e: Event) {
    e.Submit? ==> e.args.runAt <= 0 || e.args.runAt > s.db.clock
  }

  ghost function Then(env: Env, s: World, e: Event): World
    requires Occurs(env, s, e)
  {
    match e
    case Submit(a, sent) => SubmitNext(s, a, sent)
    case Cancel(id) => CancelNext(s, id)
    case Replays(id, queue, newId, sent) => ReplayNext(s, id, queue, newId, sent)
    case Launch(l, sent) => LaunchNext(s, l, sent)
    case Promote(due, sends) => PromoteNextAll(s, due, sends)
    case Start(k, read) => StartNext(s, k, read)
    case End(k, outcome, sent) => EndNext(s, k, outcome, sent)
    case Pass(now) => s.(db := s.db.(clock := now))
    case Pause(q, on) => s.(db := s.db.(paused := if on then s.db.paused + {q} else s.db.paused - {q}))
  }

  function Empty(clock: int): World {
    World(Tables(map[], [], [], {}, clock), [], map[], map[], map[])
  }

  // ----- The invariant -----

  /** Message k is queued or in flight, for this job. */
  predicate Carries(s: World, k: nat, id: JobId) {
    k < |s.phase| && k < |s.db.log| && s.phase[k] != Done && s.db.log[k].id == id
  }

  ghost predicate Live(s: World, id: JobId) {
    exists k: nat :: Carries(s, k, id)
  }

  /** At most one live message per job. */
  ghost predicate SingleFlight(s: World) {
    forall j: nat, k: nat, id :: Carries(s, j, id) && Carries(s, k, id) ==> j == k
  }

  predicate AllFailed(results: seq<bool>) {
    forall i :: 0 <= i < |results| ==> !results[i]
  }

  predicate FirstSuccess(results: seq<bool>, at: int) {
    0 <= at && |results| == at + 1 && results[at] && AllFailed(results[..at])
  }

  /** A live message carries the job's next attempt; its row says where it is. */
  ghost predicate MessageOk(env: Env, s: World, k: nat)
    requires k < |s.phase| == |s.db.log|
  {
    var m := s.db.log[k];
    s.phase[k] != Done ==>
      && m.id in s.db.rows && Agrees(s.db.rows[m.id], m) && m.id !in s.stuck
      && m.id in s.tried && AllFailed(s.tried[m.id])
      && m.id in s.budget && s.budget[m.id] == MaxRetryOf(m)
      && (MaxRetryOf(m) < MAX_INT32 ==> m.attempt == |s.tried[m.id]| <= Max0(MaxRetryOf(m)))
      && (if s.phase[k] == InFlight then s.db.rows[m.id].status == Processing
          else s.db.rows[m.id].status in {Pending, Failed, Cancelled})
  }

  /** How the attempts of a job have gone so far, and what its status says about them. */
  ghost predicate AttemptsOk(env: Env, row: Row, results: seq<bool>, budget: Option<int32>) {
    && (budget.None? ==> results == [])
    && (budget.Some? && budget.value < MAX_INT32 ==> |results| <= Max0(budget.value) + 1)
    && (row.typ == EMAIL && |results| > 0 ==> results[0] == env.validEmail(row.payload))
    && (row.status in {Completed, Archived} ==> budget.Some?)
    && (row.status == Completed && budget.value < MAX_INT32 ==>
          FirstSuccess(results, row.attempt) && row.attempt <= Max0(budget.value))
    && (row.status == Archived && budget.value < MAX_INT32 ==>
          AllFailed(results) && |results| == row.attempt == Max0(budget.value) + 1)
  }

  function BudgetOf(s: World, id: JobId): Option<int32> {
    if id in s.budget then Some(s.budget[id]) else None
  }

  /** Outbox row i is for this job. */
  predicate Mails(s: World, i: nat, id: JobId) {
    i < |s.db.outbox| && s.db.outbox[i].jobId == id
  }

  /** An outbox row belongs to a completed e-mail job and carries its payload, which is valid. */
  ghost predicate MailOk(env: Env, s: World, i: nat)
    requires i < |s.db.outbox|
  {
    var mail := s.db.outbox[i];
    && mail.typ == EMAIL && env.validEmail(mail.payload)
    && mail.jobId in s.db.rows
    && s.db.rows[mail.jobId].typ == EMAIL && s.db.rows[mail.jobId].payload == mail.payload
    && s.db.rows[mail.jobId].status == Completed
  }

  ghost predicate RowOk(env: Env, s: World, id: JobId)
    requires id in s.db.rows
  {
    var row := s.db.rows[id];
    && id in s.tried && AttemptsOk(env, row, s.tried[id], BudgetOf(s, id))
    && (row.status in {Pending, Failed} ==> id in s.stuck || Live(s, id))
    && (row.status == Processing ==> Live(s, id))
    && (row.status == Scheduled ==> row.runAt > 0 && row.attempt == 0 && s.tried[id] == [])
    && (id in s.stuck ==> row.status in {Pending, Failed, Cancelled})
    && (row.status == Completed && row.typ == EMAIL ==> exists i: nat :: Mails(s, i, id))
  }

  ghost predicate JobOk(env: Env, s: World, id: JobId)
    requires |s.phase| == |s.db.log|
  {
    && (id in s.db.rows ==> RowOk(env, s, id))
    && (id in s.stuck || id in s.budget ==> id in s.db.rows)
    && (forall k: nat :: Carries(s, k, id) ==> MessageOk(env, s, k))
    && (forall j: nat, k: nat :: Carries(s, j, id) && Carries(s, k, id) ==> j == k)
    && (forall i: nat :: Mails(s, i, id) ==> MailOk(env, s, i))
    && (forall i: nat, j: nat :: Mails(s, i, id) && Mails(s, j, id) ==> i == j)
  }

  ghost predicate Inv(env: Env, s: World) {
    && |s.phase| == |s.db.log|
    && forall id :: JobOk(env, s, id)
  }

  // ----- Every event keeps it -----

  /** From `s` to `s'` nothing changes but what belongs to this job. */
  ghost predicate OnlyJob(s: World, s': World, id: JobId) {
    && |s.phase| == |s.db.log| && |s'.phase| == |s'.db.log| && s.db.log <= s'.db.log && s.db.outbox <= s'.db.outbox
    && (forall k :: |s.db.log| <= k < |s'.db.log| ==> s'.db.log[k].id == id)
    && (forall k :: 0 <= k < |s.db.log| && s.db.log[k].id != id ==> s'.phase[k] == s.phase[k])
    && (forall i :: |s.db.outbox| <= i < |s'.db.outbox| ==> s'.db.outbox[i].jobId == id)
    && s'.db.rows - {id} == s.db.rows - {id} && s'.tried - {id} == s.tried - {id}
    && s'.budget - {id} == s.budget - {id} && s'.stuck - {id} == s.stuck - {id}
  }

  lemma SameWithout<T>(m: map<JobId, T>, m': map<JobId, T>, id: JobId, other: JobId)
    requires m - {id} == m' - {id} && other != id
    ensures other in m <==> other in m'
    ensures other in m ==> m[other] == m'[other]
  {
    assert other in m - {id} <==> other in m;
    assert other in m' - {id} <==> other in m';
    if other in m {
      assert (m - {id})[other] == m[other];
      assert (m' - {id})[other] == m'[other];
    }
  }

  lemma OthersStayOk(env: Env, s: World, s': World, id: JobId, other: JobId)
    requires OnlyJob(s, s', id) && other != id && JobOk(env, s, other)
    ensures JobOk(env, s', other)
  {
    SameWithout(s.db.rows, s'.db.rows, id, other);
    SameWithout(s.tried, s'.tried, id, other);
    SameWithout(s.budget, s'.budget, id, other);
    SameWithout(s.stuck, s'.stuck, id, other);
    assert forall k: nat :: Carries(s', k, other) <==> Carries(s, k, other);
    assert forall i: nat :: Mails(s', i, other) <==> Mails(s, i, other);
  }

  lemma Frame(env: Env, s: World, s': World, id: JobId)
    requires Inv(env, s) && OnlyJob(s, s', id) && JobOk(env, s', id)
    ensures Inv(env, s')
  {
    forall other ensures JobOk(env, s', other) {
      if other != id {
        assert JobOk(env, s, other);
        OthersStayOk(env, s, s', id, other);
      }
    }
  }

  lemma StartedJobOk(env: Env, s: World, k: nat, read: bool)
    requires Inv(env, s) && k < |s.phase| && s.phase[k] == Queued
    ensures JobOk(env, StartNext(s, k, read), s.db.log[k].id)
  {
    var s', id := StartNext(s, k, read), s.db.log[k].id;
    assert JobOk(env, s, id) && Carries(s, k, id) && MessageOk(env, s, k);
    assert s'.phase[k] != Done ==> Carries(s', k, id);
    assert forall i: nat :: Carries(s', i, id) ==> i == k || Carries(s, i, id);
    assert forall i: nat :: Mails(s', i, id) <==> Mails(s, i, id);
  }

  lemma StartOnlyJob(s: World, k: nat, read: bool)
    requires |s.phase| == |s.db.log| && k < |s.phase|
    ensures OnlyJob(s, StartNext(s, k, read), s.db.log[k].id)
  {
  }

  lemma StartKeeps(env: Env, s: World, k: nat, read: bool)
    requires Inv(env, s) && k < |s.phase| && s.phase[k] == Queued
    ensures Inv(env, StartNext(s, k, read))
  {
    StartedJobOk(env, s, k, read);
    StartOnlyJob(s, k, read);
    Frame(env, s, StartNext(s, k, read), s.db.log[k].id);
  }

  lemma SucceededJobOk(env: Env, s: World, k: nat, sent: bool)
    requires Inv(env, s) && k < |s.phase| && s.phase[k] == InFlight && OutcomePossible(env, s.db.log[k], Succeeds)
    ensures JobOk(env, EndNext(s, k, Succeeds, sent), s.db.log[k].id)
  {
    var s', m := EndNext(s, k, Succeeds, sent), s.db.log[k];
    assert JobOk(env, s, m.id) && Carries(s, k, m.id);
    assert forall i: nat :: Carries(s', i, m.id) ==> Carries(s, i, m.id);
    assert forall i: nat :: Mails(s', i, m.id) ==> i == |s.db.outbox| || Mails(s, i, m.id);
    assert m.typ == EMAIL ==> Mails(s', |s.db.outbox|, m.id);
    assert s'.tried[m.id][..|s.tried[m.id]|] == s.tried[m.id];
  }

  lemma SucceedKeeps(env: Env, s: World, k: nat, sent: bool)
    requires Inv(env, s) && k < |s.phase| && s.phase[k] == InFlight && OutcomePossible(env, s.db.log[k], Succeeds)
    ensures Inv(env, EndNext(s, k, Succeeds, sent))
  {
    SucceededJobOk(env, s, k, sent);
    Frame(env, s, EndNext(s, k, Succeeds, sent), s.db.log[k].id);
  }

  lemma RejectKeeps(env: Env, s: World, k: nat, sent: bool)
    requires Inv(env, s) && k < |s.phase| && s.phase[k] == InFlight && OutcomePossible(env, s.db.log[k], Unhandled)
    ensures Inv(env, EndNext(s, k, Unhandled, sent))
  {
    var s', m := EndNext(s, k, Unhandled, sent), s.db.log[k];
    assert JobOk(env, s, m.id) && Carries(s, k, m.id);
    assert forall i: nat :: Carries(s', i, m.id) ==> Carries(s, i, m.id);
    assert forall i: nat :: Mails(s', i, m.id) <==> Mails(s, i, m.id);
    Frame(env, s, s', m.id);
  }

  lemma FailKeeps(env: Env, s: World, k: nat, sent: bool)
    requires Inv(env, s) && k < |s.phase| && s.phase[k] == InFlight && OutcomePossible(env, s.db.log[k], Fails)
    ensures Inv(env, EndNext(s, k, Fails, sent))
  {
    var m := s.db.log[k];
    if Retries(m, Inc(m.attempt)) && sent {
      RetriedJobOk(env, s, k);
    } else {
      LeftJobOk(env, s, k, sent);
    }
    FailOnlyJob(s, k, sent);
    Frame(env, s, EndNext(s, k, Fails, sent), m.id);
  }

  lemma FailOnlyJob(s: World, k: nat, sent: bool)
    requires |s.phase| == |s.db.log| && k < |s.phase|
    ensures OnlyJob(s, EndNext(s, k, Fails, sent), s.db.log[k].id)
  {
    var m := s.db.log[k];
    var tried := Tried(Consume(s, k), m.id, false);
    FailNextOnlyJob(tried, m, sent);
    OnlyJobThen(s, tried, FailNext(tried, m, sent), m.id);
  }

  lemma FailNextOnlyJob(s: World, m: Message, sent: bool)
    requires |s.phase| == |s.db.log|
    ensures OnlyJob(s, FailNext(s, m, sent), m.id)
  {
    var failed := Write(s, m.id, Failed, Inc(m.attempt));
    WriteOnlyJob(s, m.id, Failed, Inc(m.attempt));
    WriteOnlyJob(s, m.id, Archived, Inc(m.attempt));
    SendOnlyJob(failed, RetryMessage(m), sent);
    OnlyJobThen(s, failed, SendOrLose(failed, RetryMessage(m), sent), m.id);
  }

  lemma WriteOnlyJob(s: World, id: JobId, status: Status, attempt: int32)
    requires |s.phase| == |s.db.log|
    ensures OnlyJob(s, Write(s, id, status, attempt), id)
  {
  }

  lemma SendOnlyJob(s: World, m: Message, sent: bool)
    requires |s.phase| == |s.db.log|
    ensures OnlyJob(s, SendOrLose(s, m, sent), m.id)
  {
  }

  lemma OnlyJobThen(s: World, s': World, s'': World, id: JobId)
    requires OnlyJob(s, s', id) && OnlyJob(s', s'', id)
    ensures OnlyJob(s, s'', id)
  {
  }

  lemma RetriedJobOk(env: Env, s: World, k: nat)
    requires Inv(env, s) && k < |s.phase| && s.phase[k] == InFlight && OutcomePossible(env, s.db.log[k], Fails)
    requires Retries(s.db.log[k], Inc(s.db.log[k].attempt))
    ensures JobOk(env, EndNext(s, k, Fails, true), s.db.log[k].id)
  {
    var s', m := EndNext(s, k, Fails, true), s.db.log[k];
    assert JobOk(env, s, m.id) && Carries(s, k, m.id);
    assert Carries(s', |s.db.log|, m.id);
    assert forall i: nat :: Carries(s', i, m.id) ==> i == |s.db.log| || (Carries(s, i, m.id) && i != k);
    assert forall i: nat :: !Mails(s, i, m.id);
    assert forall i: nat :: Mails(s', i, m.id) ==> Mails(s, i, m.id);
  }

  lemma LeftJobOk(env: Env, s: World, k: nat, sent: bool)
    requires Inv(env, s) && k < |s.phase| && s.phase[k] == InFlight && OutcomePossible(env, s.db.log[k], Fails)
    requires !(Retries(s.db.log[k], Inc(s.db.log[k].attempt)) && sent)
    ensures JobOk(env, EndNext(s, k, Fails, sent), s.db.log[k].id)
  {
    var s', m := EndNext(s, k, Fails, sent), s.db.log[k];
    assert JobOk(env, s, m.id) && Carries(s, k, m.id);
    assert forall i: nat :: Carries(s', i, m.id) ==> Carries(s, i, m.id) && i != k;
    assert forall i: nat :: !Mails(s, i, m.id);
    assert forall i: nat :: Mails(s', i, m.id) ==> Mails(s, i, m.id);
  }

  lemma InsertedJobOk(env: Env, s: World, id: JobId, row: Row, m: Message, sent: bool)
    requires Inv(env, s) && id !in s.db.rows && m.id == id && Agrees(row, m) && m.attempt == 0
    requires row.status == Pending
    ensures JobOk(env, SendOrLose(Insert(s, id, row), m, sent), id)
  {
    var s' := SendOrLose(Insert(s, id, row), m, sent);
    assert JobOk(env, s, id);
    assert forall k: nat :: !Carries(s, k, id);
    assert forall k: nat :: Carries(s', k, id) ==> k == |s.db.log| || Carries(s, k, id);
    assert sent ==> Carries(s', |s.db.log|, id);
    assert forall i: nat :: Mails(s', i, id) <==> Mails(s, i, id);
  }

  lemma InsertKeeps(env: Env, s: World, id: JobId, row: Row, m: Message, sent: bool)
    requires Inv(env, s) && id !in s.db.rows && m.id == id && Agrees(row, m) && m.attempt == 0
    requires row.status == Pending
    ensures Inv(env, SendOrLose(Insert(s, id, row), m, sent))
  {
    InsertedJobOk(env, s, id, row, m, sent);
    Frame(env, s, SendOrLose(Insert(s, id, row), m, sent), id);
  }

  lemma SubmitKeeps(env: Env, s: World, a: SubmitArgs, sent: bool)
    requires Inv(env, s) && (a.runAt <= 0 || a.runAt > s.db.clock)
    ensures Inv(env, SubmitNext(s, a, sent))
  {
    if Insertable(s.db.rows, a.newId, NewRow(a)) {
      if a.runAt <= 0 {
        InsertKeeps(env, s, a.newId, NewRow(a), SubmitMessage(a), sent);
      } else {
        var s' := SubmitNext(s, a, sent);
        assert JobOk(env, s, a.newId);
        assert forall k: nat :: Carries(s', k, a.newId) <==> Carries(s, k, a.newId);
        assert forall i: nat :: Mails(s', i, a.newId) <==> Mails(s, i, a.newId);
        Frame(env, s, s', a.newId);
      }
    }
  }

  lemma LaunchKeeps(env: Env, s: World, l: LaunchArgs, sent: bool)
    requires Inv(env, s)
    ensures Inv(env, LaunchNext(s, l, sent))
  {
    if Insertable(s.db.rows, l.newId, LaunchedRow(l)) {
      InsertKeeps(env, s, l.newId, LaunchedRow(l), LaunchMessage(l), sent);
    }
  }

  lemma CancelKeeps(env: Env, s: World, id: JobId)
    requires Inv(env, s)
    ensures Inv(env, CancelNext(s, id))
  {
    var s' := CancelNext(s, id);
    assert JobOk(env, s, id);
    assert forall k: nat :: Carries(s', k, id) <==> Carries(s, k, id);
    assert forall i: nat :: Mails(s', i, id) <==> Mails(s, i, id);
    Frame(env, s, s', id);
  }

  /** What a due listing says of each job in it, and what stays so for the rest of the batch. */
  ghost predicate AllDue(s: World, due: seq<Due>) {
    && (forall i :: 0 <= i < |due| ==>
          due[i].id in s.db.rows && due[i].row == s.db.rows[due[i].id] && due[i].row.status == Scheduled)
    && (forall i, j :: 0 <= i < j < |due| ==> due[i].id != due[j].id)
  }

  lemma ListedAllDue(s: World, now: int, due: seq<Due>)
    requires DueListing(s.db.rows, now, due)
    ensures AllDue(s, due)
  {
    forall i | 0 <= i < |due| ensures due[i].row.status == Scheduled {
      assert Ids(due)[i] in DueKeys(s.db.rows, now);
    }
    forall i, j | 0 <= i < j < |due| ensures due[i].id != due[j].id {
      assert Ids(due)[i] != Ids(due)[j];
    }
  }

  lemma PromoteOneKeeps(env: Env, s: World, d: Due)
    requires Inv(env, s) && AllDue(s, [d])
    ensures Inv(env, PromoteOne(s, d))
  {
    var s' := PromoteOne(s, d);
    assert d.id in s.db.rows && d.row == s.db.rows[d.id] && d.row.status == Scheduled by {
      assert [d][0] == d;
    }
    assert JobOk(env, s, d.id);
    assert forall k: nat :: !Carries(s, k, d.id);
    assert forall k: nat :: Carries(s', k, d.id) ==> k == |s.db.log| || Carries(s, k, d.id);
    assert Carries(s', |s.db.log|, d.id);
    assert forall i: nat :: Mails(s', i, d.id) <==> Mails(s, i, d.id);
    Frame(env, s, s', d.id);
  }

  lemma {:induction false} PromoteKeeps(env: Env, s: World, due: seq<Due>, sends: set<JobId>)
    requires Inv(env, s) && AllDue(s, due)
    ensures Inv(env, PromoteNextAll(s, due, sends))
    decreases |due|
  {
    if due != [] {
      var s' := if due[0].id in sends then PromoteOne(s, due[0]) else s;
      if due[0].id in sends {
        PromoteOneKeeps(env, s, due[0]);
      }
      PromoteKeeps(env, s', due[1..], sends);
    }
  }

  lemma EventKeepsInv(env: Env, s: World, e: Event)
    requires Inv(env, s) && Occurs(env, s, e) && InTime(s, e)
    ensures Inv(env, Then(env, s, e))
  {
    match e
    case Submit(a, sent) => SubmitKeeps(env, s, a, sent);
    case Cancel(id) => CancelKeeps(env, s, id);
    case Replays(id, queue, newId, sent) =>
      if id in s.db.rows && s.db.rows[id].status == Archived {
        LaunchKeeps(env, s, Replay(s.db.rows[id], queue, newId), sent);
      }
    case Launch(l, sent) => LaunchKeeps(env, s, l, sent);
    case Promote(due, sends) =>
      ListedAllDue(s, s.db.clock, due);
      PromoteKeeps(env, s, due, sends);
    case Start(k, read) => StartKeeps(env, s, k, read);
    case End(k, Succeeds, sent) => SucceedKeeps(env, s, k, sent);
    case End(k, Fails, sent) => FailKeeps(env, s, k, sent);
    case End(k, Unhandled, sent) => RejectKeeps(env, s, k, sent);
    case Pass(now) => NothingMoves(env, s, Then(env, s, e));
    case Pause(q, on) => NothingMoves(env, s, Then(env, s, e));
  }

  lemma NothingMoves(env: Env, s: World, s': World)
    requires Inv(env, s)
    requires s' == s.(db := s.db.(clock := s'.db.clock, paused := s'.db.paused))
    ensures Inv(env, s')
  {
    assert JobOk(env, s, "");
    assert OnlyJob(s, s', "");
    assert forall k: nat :: Carries(s', k, "") <==> Carries(s, k, "");
    assert forall k: nat :: Mails(s', k, "") <==> Mails(s, k, "");
    Frame(env, s, s', "");
  }

  /** The message is done with; at most its retry was appended. */
  ghost predicate Consumed(s: World, s': World, k: nat)
    requires k < |s.phase| == |s.db.log|
  {
    var m := s.db.log[k];
    || (s'.db.log == s.db.log && s'.phase == s.phase[k := Done])
    || (Retries(m, Inc(m.attempt)) &&
        s'.db.log == s.db.log + [RetryMessage(m)] && s'.phase == s.phase[k := Done] + [Queued])
  }

  /** A tick adds queued messages, and leaves time and the set of rows alone. */
  lemma {:induction false} PromoteShape(s: World, due: seq<Due>, sends: set<JobId>)
    ensures PromoteNextAll(s, due, sends).db.clock == s.db.clock
    ensures |s.phase| == |s.db.log| ==>
              var s' := PromoteNextAll(s, due, sends);
              && |s'.phase| == |s'.db.log| && s.phase <= s'.phase && s.db.log <= s'.db.log
              && (forall k :: |s.phase| <= k < |s'.phase| ==> s'.phase[k] == Queued)
    decreases |due|
  {
    if due != [] {
      PromoteShape(if due[0].id in sends then PromoteOne(s, due[0]) else s, due[1..], sends);
    }
  }

  lemma StartShape(s: World, k: nat, read: bool)
    requires k < |s.phase| == |s.db.log|
    ensures var s' := StartNext(s, k, read);
            s'.db.log == s.db.log && (s'.phase == s.phase[k := InFlight] || s'.phase == s.phase[k := Done])
  {
  }

  /** The status with which an outcome leaves the row, and the attempt. */
  function EndStatus(m: Message, outcome: Outcome): Status {
    match outcome
    case Succeeds => Completed
    case Fails => if Retries(m, Inc(m.attempt)) then Failed else Archived
    case Unhandled => Failed
  }

  function EndAttempt(m: Message, outcome: Outcome): int32 {
    if outcome == Fails then Inc(m.attempt) else m.attempt
  }

  lemma StartWrites(s: World, k: nat, read: bool)
    requires k < |s.phase| == |s.db.log|
    ensures var m, s' := s.db.log[k], StartNext(s, k, read);
            && s'.db.clock == s.db.clock
            && (s'.db.rows == s.db.rows
                || (s'.db.rows == WithStatus(s.db.rows, m.id, Processing, m.attempt)
                    && !(m.id in s.db.rows && s.db.rows[m.id].status == Cancelled)))
  {
  }

  lemma EndWrites(s: World, k: nat, outcome: Outcome, sent: bool)
    requires k < |s.phase| == |s.db.log|
    ensures var m, s' := s.db.log[k], EndNext(s, k, outcome, sent);
            && s'.db.clock == s.db.clock
            && s'.db.rows == WithStatus(s.db.rows, m.id, EndStatus(m, outcome), EndAttempt(m, outcome))
  {
    match outcome
    case Succeeds =>
    case Unhandled =>
    case Fails =>
      var m := s.db.log[k];
      assert EndNext(s, k, Fails, sent) == FailNext(Tried(Consume(s, k), m.id, false), m, sent);
  }

  lemma EndShape(s: World, k: nat, outcome: Outcome, sent: bool)
    requires k < |s.phase| == |s.db.log|
    ensures Consumed(s, EndNext(s, k, outcome, sent), k)
  {
    match outcome
    case Succeeds =>
    case Unhandled =>
    case Fails =>
      var m := s.db.log[k];
      assert FailNext(Tried(Consume(s, k), m.id, false), m, sent) == EndNext(s, k, Fails, sent);
  }
}
