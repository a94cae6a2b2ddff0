/**
 The fine-grained protocol: every call of the store, of the producer, of the clock and of a job
 handler is a step of its own, and the steps of all threads interleave. A thread is the place its
 code has reached (`Pc`); `CallOf` says which call it makes next and `Resume` where the reply takes it.
 */
module Protocol {
  import opened Jobs
  import opened Query

  type Tid = nat

  /** The arguments of Submit, the queue already normalised; `newId` is the UUID it will draw. */
  datatype SubmitArgs = SubmitArgs(newId: JobId, typ: string, payload: Bytes, queue: string,
                                   maxRetry: int32, runAt: int, key: string, priority: int32)

  /** A job created as "pending" and enqueued at once: a replay of an archived job, a recurring job. */
  datatype LaunchArgs = LaunchArgs(newId: JobId, typ: string, payload: Bytes, queue: string,
                                   maxRetry: int32, priority: int32)

  /** A row as the promoter's query returned it. */
  datatype Due = Due(id: JobId, row: Row)

  datatype SubmitAt = Find | Insert | Decide | Publish
  datatype WorkAt = PauseCheck | Read | Mark | Run | FinishEmail | Finish | Reject | Fail | Retry | Archive

  datatype Pc =
    | Submitting(at: SubmitAt, args: SubmitArgs)
    | Submitted(args: SubmitArgs, result: Option<JobId>)
    | Launching(insert: bool, launch: LaunchArgs)
    | Replaying(archived: JobId, replayQueue: string, newId: JobId)
    | CancelRead(cancel: JobId)
    | CancelWrite(cancel: JobId)
    | PromoteClock
    | PromoteList(now: int)
    | PromoteSend(due: seq<Due>)
    | PromoteSet(due: seq<Due>)
    | Working(work: WorkAt, offset: nat, msg: Message)
    | Gone

  datatype Outcome = Succeeds | Fails | Unhandled

  datatype Call =
    | GetQueue(queue: string)
    | GetById(id: JobId)
    | FindKey(typ: string, queue: string, key: string)
    | Create(id: JobId, row: Row)
    | SetStatus(id: JobId, status: Status, attempt: int32)
    | CompleteWithOutbox(id: JobId, attempt: int32, outbox: OutboxRow)
    | Send(message: Message)
    | Execute(message: Message)
    | ReadClock
    | ListDue(now: int)
    | Halt

  /** A write that fails may still have taken effect: the error can be lost on the way back. */
  datatype Reply =
    | Failure(applied: bool)
    | Ok
    | IsPaused(paused: bool)
    | Found(row: Option<Row>)
    | FoundId(id: Option<JobId>)
    | Outcome(outcome: Outcome)
    | Time(now: int)
    | Listed(due: seq<Due>)

  datatype Tables = Tables(rows: map<JobId, Row>, log: seq<Message>, outbox: seq<OutboxRow>,
                           paused: set<string>, clock: int)

  /**
   The whole system. `failures` and `promoted` are history: the log offsets whose message was
   processed and failed, and what the promoter enqueued, in order.
   */
  datatype State = State(db: Tables, threads: map<Tid, Pc>, failures: set<nat>, promoted: seq<Due>)

  datatype Action =
    | Begin(tid: Tid, entry: Pc)
    | Deliver(tid: Tid, offset: nat)
    | Step(tid: Tid, reply: Reply)
    | Pass(now: int)
    | Pause(queue: string, on: bool)

  // ----- The calls -----

  function DueKeys(rows: map<JobId, Row>, now: int): map<JobId, int> {
    map id | id in rows && rows[id].status == Scheduled && 0 < rows[id].runAt <= now :: rows[id].runAt
  }

  function Ids(due: seq<Due>): seq<JobId> {
    seq(|due|, i requires 0 <= i < |due| => due[i].id)
  }

  ghost predicate DueListing(rows: map<JobId, Row>, now: int, due: seq<Due>) {
    && Listing(DueKeys(rows, now), 50, Ids(due))
    && forall i :: 0 <= i < |due| ==> due[i].id in rows && due[i].row == rows[due[i].id]
  }

  ghost predicate IsDue(due: seq<Due>, id: JobId) {
    exists i :: 0 <= i < |due| && due[i].id == id
  }

  /** An e-mail job is checked, deterministically; any other handler answers as it likes. */
  predicate OutcomePossible(env: Env, m: Message, outcome: Outcome) {
    if m.typ == EMAIL then outcome == (if env.validEmail(m.payload) then Succeeds else Fails)
    else outcome == Unhandled <==> m.typ !in env.handlers
  }

  ghost predicate Possible(env: Env, db: Tables, call: Call, reply: Reply) {
    match call
    case GetQueue(q) => reply == Failure(false) || reply == IsPaused(q in db.paused)
    case GetById(id) => reply == Failure(false) || reply == Found(Lookup(db.rows, id))
    case FindKey(typ, queue, key) =>
      || reply == Failure(false)
      || (reply.FoundId? && match reply.id
          case None => forall id :: id in db.rows ==> !SameKey(db.rows[id], typ, queue, key)
          case Some(id) => id in db.rows && SameKey(db.rows[id], typ, queue, key))
    case Create(id, row) =>
      || reply == Failure(false)
      || ((reply == Ok || reply == Failure(true)) && Insertable(db.rows, id, row))
    case SetStatus(_, _, _) => reply == Ok || reply.Failure?
    case CompleteWithOutbox(_, _, _) => reply == Ok || reply.Failure?
    case Send(_) => reply == Ok || reply.Failure?
    case Execute(m) => reply.Outcome? && OutcomePossible(env, m, reply.outcome)
    case ReadClock => reply == Time(db.clock)
    case ListDue(now) => reply == Failure(false) || (reply.Listed? && DueListing(db.rows, now, reply.due))
    case Halt => false
  }

  function Apply(db: Tables, call: Call, reply: Reply): Tables {
    if reply == Failure(false) then db else
    match call
    case Create(id, row) => db.(rows := db.rows[id := row])
    case SetStatus(id, status, attempt) => db.(rows := WithStatus(db.rows, id, status, attempt))
    case CompleteWithOutbox(id, attempt, row) =>
      db.(rows := WithStatus(db.rows, id, Completed, attempt), outbox := db.outbox + [row])
    case Send(m) => db.(log := db.log + [m])
    case _ => db
  }

  // ----- The threads -----

  function NewRow(a: SubmitArgs): Row {
    Row(a.typ, a.payload, a.queue, if a.runAt > 0 then Scheduled else Pending, 0,
        Max0(a.runAt), a.key, a.priority)
  }

  function LaunchedRow(l: LaunchArgs): Row {
    Row(l.typ, l.payload, l.queue, Pending, 0, 0, "", l.priority)
  }

  function SubmitMessage(a: SubmitArgs): Message {
    NewMessage(a.newId, a.typ, a.payload, a.queue, a.maxRetry, a.runAt, 0, a.priority)
  }

  function LaunchMessage(l: LaunchArgs): Message {
    NewMessage(l.newId, l.typ, l.payload, l.queue, l.maxRetry, 0, 0, l.priority)
  }

  /** The promoter does not know the submitted retry limit and always sends 2. */
  function PromoteMessage(id: JobId, row: Row): Message {
    NewMessage(id, row.typ, row.payload, row.queue, 2, 0, 0, row.priority)
  }

  const PLACEHOLDER_IMAGE: Bytes :=
    "{\"source_url\":\"https://via.placeholder.com/100\",\"width\":50,\"height\":50,\"out_path\":\"\"}"

  function Replay(row: Row, queue: string, newId: JobId): LaunchArgs {
    var payload := if row.typ == "image" && (row.payload == "" || row.payload == "{}")
                   then PLACEHOLDER_IMAGE else row.payload;
    LaunchArgs(newId, row.typ, payload, queue, 0, row.priority)
  }

  function SubmitCall(at: SubmitAt, a: SubmitArgs): Call {
    match at
    case Find => FindKey(a.typ, a.queue, a.key)
    case Insert => Create(a.newId, NewRow(a))
    case Decide => ReadClock
    case Publish => Send(SubmitMessage(a))
  }

  function WorkCall(at: WorkAt, m: Message): Call {
    match at
    case PauseCheck => GetQueue(NormalQueue(m.queue))
    case Read => GetById(m.id)
    case Mark => SetStatus(m.id, Processing, m.attempt)
    case Run => Execute(m)
    case FinishEmail => CompleteWithOutbox(m.id, m.attempt, OutboxRow(m.id, EMAIL, m.payload))
    case Finish => SetStatus(m.id, Completed, m.attempt)
    case Reject => SetStatus(m.id, Failed, m.attempt)
    case Fail => SetStatus(m.id, Failed, Inc(m.attempt))
    case Retry => Send(RetryMessage(m))
    case Archive => SetStatus(m.id, Archived, Inc(m.attempt))
  }

  /** The call that the thread makes next. */
  function CallOf(pc: Pc): Call {
    match pc
    case Submitting(at, a) => SubmitCall(at, a)
    case Submitted(_, _) => Halt
    case Launching(insert, l) => if insert then Create(l.newId, LaunchedRow(l)) else Send(LaunchMessage(l))
    case Replaying(id, _, _) => GetById(id)
    case CancelRead(id) => GetById(id)
    case CancelWrite(id) => SetStatus(id, Cancelled, 0)
    case PromoteClock => ReadClock
    case PromoteList(now) => ListDue(now)
    case PromoteSend(due) => if due == [] then Halt else Send(PromoteMessage(due[0].id, due[0].row))
    case PromoteSet(due) => if due == [] then Halt else SetStatus(due[0].id, Pending, due[0].row.attempt)
    case Working(at, _, m) => WorkCall(at, m)
    case Gone => Halt
  }

  function ResumeSubmit(at: SubmitAt, a: SubmitArgs, reply: Reply): Pc {
    match at
    case Find =>
      if reply.FoundId? then
        (if reply.id.Some? then Submitted(a, reply.id) else Submitting(Insert, a))
      else Submitted(a, None)
    case Insert => if reply == Ok then Submitting(Decide, a) else Submitted(a, None)
    case Decide =>
      if reply.Time? && a.runAt > 0 && a.runAt > reply.now then Submitted(a, Some(a.newId))
      else Submitting(Publish, a)
    case Publish => Submitted(a, if reply == Ok then Some(a.newId) else None)
  }

  function ResumeWork(at: WorkAt, k: nat, m: Message, reply: Reply): Pc {
    match at
    case PauseCheck => if reply == IsPaused(false) then Working(Read, k, m) else Gone
    case Read =>
      if reply.Failure? || (reply.Found? && reply.row.Some? && reply.row.value.status == Cancelled) then Gone
      else Working(Mark, k, m)
    case Mark => Working(Run, k, m)
    case Run =>
      if !reply.Outcome? then Gone else
      (match reply.outcome
       case Succeeds => Working(if m.typ == EMAIL then FinishEmail else Finish, k, m)
       case Fails => Working(Fail, k, m)
       case Unhandled => Working(Reject, k, m))
    case Fail => Working(if Retries(m, Inc(m.attempt)) then Retry else Archive, k, m)
    case _ => Gone
  }

  /** The promoter's loop goes on with the next due job, whatever happened to this one. */
  function PromoteNext(due: seq<Due>): Pc {
    if |due| <= 1 then Gone else PromoteSend(due[1..])
  }

  function Resume(pc: Pc, reply: Reply): Pc {
    match pc
    case Submitting(at, a) => ResumeSubmit(at, a, reply)
    case Launching(insert, l) => if insert && reply == Ok then Launching(false, l) else Gone
    case Replaying(_, queue, newId) =>
      if reply.Found? && reply.row.Some? && reply.row.value.status == Archived
      then Launching(true, Replay(reply.row.value, queue, newId)) else Gone
    case CancelRead(id) =>
      if reply.Found? && reply.row.Some? && reply.row.value.status !in {Completed, Processing}
      then CancelWrite(id) else Gone
    case CancelWrite(_) => Gone
    case PromoteClock => if reply.Time? then PromoteList(reply.now) else Gone
    case PromoteList(_) => if reply.Listed? && reply.due != [] then PromoteSend(reply.due) else Gone
    case PromoteSend(due) => if reply == Ok && due != [] then PromoteSet(due) else PromoteNext(due)
    case PromoteSet(due) => PromoteNext(due)
    case Working(at, k, m) => ResumeWork(at, k, m, reply)
    case _ => pc
  }

  /** Where a thread of the API or of the scheduler may start. */
  predicate Entry(pc: Pc) {
    match pc
    case Submitting(at, a) =>
      a.newId != "" && a.typ != "" && a.queue != "" && at == (if a.key == "" then Insert else Find)
    case Launching(insert, l) => insert && l.newId != ""
    case Replaying(id, queue, newId) => id != "" && queue != "" && newId != ""
    case CancelRead(id) => id != ""
    case PromoteClock => true
    case _ => false
  }

  // ----- The system -----

  ghost predicate Enabled(env: Env, s: State, a: Action) {
    match a
    case Begin(t, pc) => t !in s.threads && Entry(pc)
    case Deliver(t, k) => t !in s.threads && k < |s.db.log|
    case Step(t, reply) => t in s.threads && Possible(env, s.db, CallOf(s.threads[t]), reply)
    case Pass(now) => s.db.clock <= now
    case Pause(q, on) => q != ""
  }

  function Next(s: State, a: Action): State {
    match a
    case Begin(t, pc) => s.(threads := s.threads[t := pc])
    case Deliver(t, k) =>
      if k < |s.db.log| then s.(threads := s.threads[t := Working(PauseCheck, k, s.db.log[k])]) else s
    case Step(t, reply) => if t in s.threads then Stepped(s, t, s.threads[t], reply) else s
    case Pass(now) => s.(db := s.db.(clock := now))
    case Pause(q, on) => s.(db := s.db.(paused := if on then s.db.paused + {q} else s.db.paused - {q}))
  }

  function Stepped(s: State, t: Tid, pc: Pc, reply: Reply): State {
    State(Apply(s.db, CallOf(pc), reply),
          s.threads[t := Resume(pc, reply)],
          if pc.Working? && pc.work == Run && reply == Outcome(Fails) then s.failures + {pc.offset} else s.failures,
          if pc.PromoteSend? && pc.due != [] && reply == Ok then s.promoted + [pc.due[0]] else s.promoted)
  }

  function Init(clock: int): State {
    State(Tables(map[], [], [], {}, clock), map[], {}, [])
  }

  ghost predicate ValidRun(env: Env, s: State, run: seq<Action>)
    decreases |run|
  {
    run == [] || (Enabled(env, s, run[0]) && ValidRun(env, Next(s, run[0]), run[1..]))
  }

  function After(s: State, run: seq<Action>): State
    decreases |run|
  {
    if run == [] then s else After(Next(s, run[0]), run[1..])
  }

  /** `s'` is reached from `s` by some run, of whichever threads. */
  ghost predicate Reach(env: Env, s: State, s': State) {
    exists run :: ValidRun(env, s, run) && After(s, run) == s'
  }

  lemma {:induction false} RunConcat(env: Env, s: State, first: seq<Action>, second: seq<Action>)
    requires ValidRun(env, s, first) && ValidRun(env, After(s, first), second)
    ensures ValidRun(env, s, first + second) && After(s, first + second) == After(After(s, first), second)
    decreases |first|
  {
    if first == [] {
      assert first + second == second;
    } else {
      assert (first + second)[1..] == first[1..] + second;
      RunConcat(env, Next(s, first[0]), first[1..], second);
    }
  }

  lemma ReachTransitive(env: Env, s: State, s': State, s'': State)
    requires Reach(env, s, s') && Reach(env, s', s'')
    ensures Reach(env, s, s'')
  {
    var first :| ValidRun(env, s, first) && After(s, first) == s';
    var second :| ValidRun(env, s', second) && After(s', second) == s'';
    RunConcat(env, s, first, second);
  }

  lemma ReachStep(env: Env, s: State, a: Action)
    requires Enabled(env, s, a)
    ensures Reach(env, s, Next(s, a))
  {
    var run := [a];
    assert run[1..] == [];
    assert ValidRun(env, Next(s, a), run[1..]);
    assert ValidRun(env, s, run) && After(s, run) == Next(s, a);
  }

  lemma ReachSelf(env: Env, s: State)
    ensures Reach(env, s, s)
  {
    assert ValidRun(env, s, []) && After(s, []) == s;
  }

  /** The message is in the log, from offset n on. */
  ghost predicate SentSince(log: seq<Message>, n: nat, m: Message) {
    exists k :: n <= k < |log| && log[k] == m
  }

  lemma {:induction false} RunGrows(env: Env, s: State, run: seq<Action>)
    requires ValidRun(env, s, run)
    ensures s.db.log <= After(s, run).db.log && s.db.rows.Keys <= After(s, run).db.rows.Keys
    ensures s.db.outbox <= After(s, run).db.outbox && s.db.clock <= After(s, run).db.clock
    decreases |run|
  {
    if run != [] {
      RunGrows(env, Next(s, run[0]), run[1..]);
    }
  }

  lemma ReachGrows(env: Env, s: State, s': State)
    requires Reach(env, s, s')
    ensures s.db.log <= s'.db.log && s.db.rows.Keys <= s'.db.rows.Keys
    ensures s.db.outbox <= s'.db.outbox && s.db.clock <= s'.db.clock
  {
    var run :| ValidRun(env, s, run) && After(s, run) == s';
    RunGrows(env, s, run);
  }

  // ----- What was so on the way -----

  ghost predicate OnTheWay(env: Env, origin: State, mid: State, s: State) {
    Reach(env, origin, mid) && Reach(env, mid, s)
  }

  /** Some run from `origin` to `s` has this step of the thread, taken at `pc`. */
  ghost predicate Took(env: Env, origin: State, s: State, t: Tid, pc: Pc, reply: Reply) {
    exists first, rest :: TookBetween(env, origin, first, rest, s, t, pc, reply)
  }

  ghost predicate TookBetween(env: Env, origin: State, first: seq<Action>, rest: seq<Action>, s: State,
                              t: Tid, pc: Pc, reply: Reply) {
    && ValidRun(env, origin, first + [Step(t, reply)] + rest)
    && After(origin, first + [Step(t, reply)] + rest) == s
    && t in After(origin, first).threads && After(origin, first).threads[t] == pc
  }

  /** The thread made this call on the way, and got this reply. */
  ghost predicate Got(env: Env, origin: State, s: State, t: Tid, call: Call, reply: Reply) {
    exists pc :: CallOf(pc) == call && Took(env, origin, s, t, pc, reply)
  }

  /** It made the call, and the call succeeded. */
  ghost predicate Made(env: Env, origin: State, s: State, t: Tid, call: Call) {
    Got(env, origin, s, t, call, Ok)
  }

  /** It made the call, which may have failed. */
  ghost predicate Called(env: Env, origin: State, s: State, t: Tid, call: Call) {
    exists reply :: Got(env, origin, s, t, call, reply)
  }

  /** The row was there and had this status. */
  ghost predicate Passed(env: Env, origin: State, s: State, id: JobId, status: Status) {
    exists mid :: OnTheWay(env, origin, mid, s) && id in mid.db.rows && mid.db.rows[id].status == status
  }

  ghost predicate RowWas(env: Env, origin: State, s: State, id: JobId, row: Option<Row>) {
    exists mid :: OnTheWay(env, origin, mid, s) && Lookup(mid.db.rows, id) == row
  }

  ghost predicate PausedWas(env: Env, origin: State, s: State, queue: string, paused: bool) {
    exists mid :: OnTheWay(env, origin, mid, s) && (queue in mid.db.paused) == paused
  }

  /** The jobs were the first 50 of those due at some time of the way. */
  ghost predicate DueWas(env: Env, origin: State, s: State, due: seq<Due>) {
    exists mid, now :: OnTheWay(env, origin, mid, s) && origin.db.clock <= now <= mid.db.clock
                       && DueListing(mid.db.rows, now, due)
  }

  lemma TakesStep(env: Env, origin: State, s: State, t: Tid, reply: Reply)
    requires Reach(env, origin, s) && t in s.threads && Possible(env, s.db, CallOf(s.threads[t]), reply)
    ensures Took(env, origin, Next(s, Step(t, reply)), t, s.threads[t], reply)
  {
    var run :| ValidRun(env, origin, run) && After(origin, run) == s;
    var step := [Step(t, reply)];
    assert step[1..] == [] && ValidRun(env, Next(s, step[0]), step[1..]);
    assert ValidRun(env, s, step) && After(s, step) == Next(s, Step(t, reply));
    RunConcat(env, origin, run, step);
    assert run + step + [] == run + step;
    assert TookBetween(env, origin, run, [], Next(s, Step(t, reply)), t, s.threads[t], reply);
  }

  // ----- What a listing and a batch leave out -----

  lemma NotListed(rows: map<JobId, Row>, now: int, due: seq<Due>, id: JobId)
    requires DueListing(rows, now, due) && id in rows && rows[id].status != Scheduled
    ensures !IsDue(due, id)
  {
    forall i | 0 <= i < |due| ensures due[i].id != id {
      assert Ids(due)[i] in DueKeys(rows, now);
    }
  }

  lemma NotInRest(due: seq<Due>, id: JobId)
    requires |due| > 0 && !IsDue(due, id)
    ensures !IsDue(due[1..], id) && due[0].id != id
  {
    forall i | 0 <= i < |due| - 1 ensures due[1..][i].id != id {
      assert due[i + 1].id != id;
    }
  }

  lemma FurtherOnTheWay(env: Env, origin: State, mid: State, s: State, s': State)
    requires OnTheWay(env, origin, mid, s) && Reach(env, s, s')
    ensures OnTheWay(env, origin, mid, s')
  {
    ReachTransitive(env, mid, s, s');
  }

  lemma TookStill(env: Env, origin: State, s: State, s': State, t: Tid, pc: Pc, reply: Reply)
    requires Took(env, origin, s, t, pc, reply) && Reach(env, s, s')
    ensures Took(env, origin, s', t, pc, reply)
  {
    var first, rest :| TookBetween(env, origin, first, rest, s, t, pc, reply);
    var run :| ValidRun(env, s, run) && After(s, run) == s';
    RunConcat(env, origin, first + [Step(t, reply)] + rest, run);
    assert first + [Step(t, reply)] + rest + run == first + [Step(t, reply)] + (rest + run);
    assert TookBetween(env, origin, first, rest + run, s', t, pc, reply);
  }

  lemma GotStill(env: Env, origin: State, s: State, s': State, t: Tid, call: Call, reply: Reply)
    requires Reach(env, s, s')
    ensures Got(env, origin, s, t, call, reply) ==> Got(env, origin, s', t, call, reply)
  {
    if Got(env, origin, s, t, call, reply) {
      var pc :| CallOf(pc) == call && Took(env, origin, s, t, pc, reply);
      TookStill(env, origin, s, s', t, pc, reply);
    }
  }

  lemma CalledStill(env: Env, origin: State, s: State, s': State, t: Tid, call: Call)
    requires Reach(env, s, s') && Called(env, origin, s, t, call)
    ensures Called(env, origin, s', t, call)
  {
    var reply :| Got(env, origin, s, t, call, reply);
    GotStill(env, origin, s, s', t, call, reply);
  }

  lemma {:induction false} RunSplit(env: Env, s: State, first: seq<Action>, second: seq<Action>)
    requires ValidRun(env, s, first + second)
    ensures ValidRun(env, s, first) && ValidRun(env, After(s, first), second)
    ensures After(s, first + second) == After(After(s, first), second)
    decreases |first|
  {
    if first == [] {
      assert first + second == second;
    } else {
      assert (first + second)[1..] == first[1..] + second;
      RunSplit(env, Next(s, first[0]), first[1..], second);
    }
  }

  /** The tables before and after the thread's step. */
  lemma StepOnTheWay(env: Env, origin: State, s: State, t: Tid, pc: Pc, reply: Reply)
    returns (before: State, after: State)
    requires Took(env, origin, s, t, pc, reply)
    ensures Reach(env, origin, before) && Possible(env, before.db, CallOf(pc), reply)
    ensures after.db == Apply(before.db, CallOf(pc), reply) && OnTheWay(env, origin, after, s)
  {
    var first, rest :| TookBetween(env, origin, first, rest, s, t, pc, reply);
    var step := [Step(t, reply)];
    RunSplit(env, origin, first + step, rest);
    RunSplit(env, origin, first, step);
    before := After(origin, first);
    after := Next(before, step[0]);
    assert step[1..] == [] && After(before, step) == after;
    assert ValidRun(env, origin, first + step) && After(origin, first + step) == after;
  }

  /** What a successful write leaves behind, whatever the other threads do after it. */
  lemma MadeShows(env: Env, origin: State, s: State, t: Tid, call: Call)
    requires Made(env, origin, s, t, call)
    ensures call.SetStatus? && call.id in origin.db.rows ==> Passed(env, origin, s, call.id, call.status)
    ensures call.CompleteWithOutbox? ==> call.outbox in s.db.outbox
    ensures call.CompleteWithOutbox? && call.id in origin.db.rows ==> Passed(env, origin, s, call.id, Completed)
    ensures call.Send? ==> SentSince(s.db.log, |origin.db.log|, call.message)
  {
    var pc :| CallOf(pc) == call && Took(env, origin, s, t, pc, Ok);
    var before, after := StepOnTheWay(env, origin, s, t, pc, Ok);
    ReachGrows(env, origin, before);
    ReachGrows(env, after, s);
    if call.Send? {
      assert s.db.log[|before.db.log|] == call.message;
    } else if call.CompleteWithOutbox? {
      assert after.db.outbox[|before.db.outbox|] == call.outbox;
    }
  }

  /** What a successful read says: at its moment it was so. */
  lemma GotShows(env: Env, origin: State, s: State, t: Tid, call: Call, reply: Reply)
    requires Got(env, origin, s, t, call, reply)
    ensures call.GetQueue? && reply.IsPaused? ==> PausedWas(env, origin, s, call.queue, reply.paused)
    ensures call.GetById? && reply.Found? ==> RowWas(env, origin, s, call.id, reply.row)
  {
    var pc :| CallOf(pc) == call && Took(env, origin, s, t, pc, reply);
    var before, after := StepOnTheWay(env, origin, s, t, pc, reply);
  }

  lemma TookLonger(env: Env, origin: State, run: seq<Action>, here: State, first: seq<Action>, rest: seq<Action>,
                   s: State, t: Tid, pc: Pc, reply: Reply)
    requires ValidRun(env, origin, run) && After(origin, run) == here
    requires TookBetween(env, here, first, rest, s, t, pc, reply)
    ensures TookBetween(env, origin, run + first, rest, s, t, pc, reply)
  {
    BeginsWith(env, here, first, [Step(t, reply)], rest);
    RunConcat(env, origin, run, first);
    RunConcat(env, origin, run, first + [Step(t, reply)] + rest);
    SameRun(run, first, [Step(t, reply)], rest);
  }

  lemma BeginsWith(env: Env, s: State, first: seq<Action>, step: seq<Action>, rest: seq<Action>)
    requires ValidRun(env, s, first + step + rest)
    ensures ValidRun(env, s, first)
  {
    assert first + step + rest == first + (step + rest);
    RunSplit(env, s, first, step + rest);
  }

  lemma SameRun(run: seq<Action>, first: seq<Action>, step: seq<Action>, rest: seq<Action>)
    ensures run + first + step + rest == run + (first + step + rest)
  {
  }

  lemma GotSooner(env: Env, origin: State, here: State, s: State, t: Tid, call: Call, reply: Reply)
    requires Reach(env, origin, here) && Got(env, here, s, t, call, reply)
    ensures Got(env, origin, s, t, call, reply)
  {
    var pc :| CallOf(pc) == call && Took(env, here, s, t, pc, reply);
    var first, rest :| TookBetween(env, here, first, rest, s, t, pc, reply);
    var run :| ValidRun(env, origin, run) && After(origin, run) == here;
    TookLonger(env, origin, run, here, first, rest, s, t, pc, reply);
    assert Took(env, origin, s, t, pc, reply);
  }

  /** A row that was there when the thread had its status set has passed that status. */
  lemma StatusPassed(env: Env, origin: State, here: State, s: State, t: Tid, id: JobId, status: Status, attempt: int32)
    requires Reach(env, origin, here) && id in here.db.rows && Made(env, here, s, t, SetStatus(id, status, attempt))
    ensures Passed(env, origin, s, id, status)
  {
    MadeShows(env, here, s, t, SetStatus(id, status, attempt));
    PassedSooner(env, origin, here, s, id, status);
  }

  lemma PassedSooner(env: Env, origin: State, s: State, s': State, id: JobId, status: Status)
    requires Reach(env, origin, s) && Passed(env, s, s', id, status)
    ensures Passed(env, origin, s', id, status)
  {
    var mid :| OnTheWay(env, s, mid, s') && id in mid.db.rows && mid.db.rows[id].status == status;
    ReachTransitive(env, origin, s, mid);
    assert OnTheWay(env, origin, mid, s');
  }

  lemma DueWasStill(env: Env, origin: State, s: State, s': State, due: seq<Due>)
    requires Reach(env, s, s')
    ensures DueWas(env, origin, s, due) ==> DueWas(env, origin, s', due)
  {
    if DueWas(env, origin, s, due) {
      var mid, now :| OnTheWay(env, origin, mid, s) && origin.db.clock <= now <= mid.db.clock
                      && DueListing(mid.db.rows, now, due);
      FurtherOnTheWay(env, origin, mid, s, s');
    }
  }

  /** One more action of a run that began at `origin`. */
  lemma Do(env: Env, origin: State, s: State, a: Action) returns (s': State)
    requires Reach(env, origin, s) && Enabled(env, s, a)
    ensures s' == Next(s, a) && Reach(env, origin, s')
  {
    s' := Next(s, a);
    ReachStep(env, s, a);
    ReachTransitive(env, origin, s, s');
  }

  lemma {:induction false} FreshTid(threads: map<Tid, Pc>) returns (t: Tid)
    ensures t !in threads && forall u :: u in threads ==> u < t
    decreases |threads.Keys|
  {
    if u :| u in threads {
      var rest := threads - {u};
      assert rest.Keys == threads.Keys - {u};
      t := FreshTid(rest);
      t := if u < t then t else u + 1;
      forall v | v in threads ensures v < t {
        assert v == u || v in rest;
      }
    } else {
      t := 0;
    }
  }
}
