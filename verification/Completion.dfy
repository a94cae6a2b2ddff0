/**
 What interleaving does to completions, in the fine-grained protocol. The worker passes over
 nothing but "cancelled", so a message that is delivered again takes any completion back. When each
 message is delivered at most once, a completion is final exactly if nothing of the job is left over.
 */
module Completion {
  import opened Jobs
  import opened Protocol
  import Agreement

  // ----- Whatever is worked on was sent -----

  ghost predicate HasMessage(log: seq<Message>, id: JobId) {
    exists k :: 0 <= k < |log| && log[k].id == id
  }

  /** The worker's statuses are only ever written for a job that was sent. */
  ghost predicate WorkedOnWasSent(s: State) {
    forall id :: WorkedOn(s.db.rows, id) ==> HasMessage(s.db.log, id)
  }

  predicate WorkedOn(rows: map<JobId, Row>, id: JobId) {
    id in rows && rows[id].status in {Processing, Completed, Failed, Archived}
  }

  /** Only a worker brings a row to these statuses. */
  lemma CallWorksOn(env: Env, db: Tables, pc: Pc, reply: Reply, id: JobId)
    requires Possible(env, db, CallOf(pc), reply) && WorkedOn(Apply(db, CallOf(pc), reply).rows, id)
    ensures WorkedOn(db.rows, id) || (pc.Working? && pc.msg.id == id)
  {
  }

  lemma StepKeepsSent(env: Env, s: State, a: Action)
    requires Agreement.Inv(s) && WorkedOnWasSent(s) && Enabled(env, s, a)
    ensures WorkedOnWasSent(Next(s, a))
  {
    var s' := Next(s, a);
    Agreement.StepGrows(env, s, a);
    forall id | WorkedOn(s'.db.rows, id) ensures HasMessage(s'.db.log, id) {
      if a.Step? {
        CallWorksOn(env, s.db, s.threads[a.tid], a.reply, id);
      }
      if WorkedOn(s.db.rows, id) {
        SentStays(s.db.log, s'.db.log, id);
      } else {
        SentOfWorker(s.db, s'.db.log, s.threads[a.tid]);
      }
    }
  }

  lemma SentStays(log: seq<Message>, log': seq<Message>, id: JobId)
    requires log <= log' && HasMessage(log, id)
    ensures HasMessage(log', id)
  {
    var k :| 0 <= k < |log| && log[k].id == id;
    assert log'[k] == log[k];
  }

  lemma SentOfWorker(db: Tables, log': seq<Message>, pc: Pc)
    requires pc.Working? && Agreement.Relies(db, pc) && db.log <= log'
    ensures HasMessage(log', pc.msg.id)
  {
    assert log'[pc.offset] == db.log[pc.offset];
  }

  lemma {:induction false} RunKeepsSent(env: Env, s: State, run: seq<Action>)
    requires Agreement.Inv(s) && WorkedOnWasSent(s) && ValidRun(env, s, run)
    ensures WorkedOnWasSent(After(s, run))
    decreases |run|
  {
    if run != [] {
      StepKeepsSent(env, s, run[0]);
      Agreement.StepKeepsInv(env, s, run[0]);
      RunKeepsSent(env, Next(s, run[0]), run[1..]);
    }
  }

  // ----- With each message delivered at most once -----

  /** A state, and the offsets that were delivered on the way to it. */
  datatype Once = Once(s: State, delivered: set<nat>)

  ghost predicate Allowed(env: Env, o: Once, a: Action) {
    Enabled(env, o.s, a) && (a.Deliver? ==> a.offset !in o.delivered)
  }

  function Moved(o: Once, a: Action): Once {
    Once(Next(o.s, a), if a.Deliver? then o.delivered + {a.offset} else o.delivered)
  }

  ghost predicate OnceRun(env: Env, o: Once, run: seq<Action>)
    decreases |run|
  {
    run == [] || (Allowed(env, o, run[0]) && OnceRun(env, Moved(o, run[0]), run[1..]))
  }

  function OnceAfter(o: Once, run: seq<Action>): Once
    decreases |run|
  {
    if run == [] then o else OnceAfter(Moved(o, run[0]), run[1..])
  }

  ghost predicate ReachOnce(env: Env, o: Once, o': Once) {
    exists run :: OnceRun(env, o, run) && OnceAfter(o, run) == o'
  }

  function Start(clock: int): Once {
    Once(Init(clock), {})
  }

  lemma ReachOnceSelf(env: Env, o: Once)
    ensures ReachOnce(env, o, o)
  {
    assert OnceRun(env, o, []) && OnceAfter(o, []) == o;
  }

  lemma {:induction false} OnceAppend(env: Env, o: Once, run: seq<Action>, a: Action)
    requires OnceRun(env, o, run) && Allowed(env, OnceAfter(o, run), a)
    ensures OnceRun(env, o, run + [a]) && OnceAfter(o, run + [a]) == Moved(OnceAfter(o, run), a)
    decreases |run|
  {
    if run == [] {
      assert run + [a] == [a] && [a][1..] == [];
    } else {
      assert (run + [a])[0] == run[0] && (run + [a])[1..] == run[1..] + [a];
      OnceAppend(env, Moved(o, run[0]), run[1..], a);
    }
  }

  lemma DoOnce(env: Env, origin: Once, o: Once, a: Action) returns (o': Once)
    requires ReachOnce(env, origin, o) && Allowed(env, o, a)
    ensures o' == Moved(o, a) && ReachOnce(env, origin, o')
  {
    o' := Moved(o, a);
    var run :| OnceRun(env, origin, run) && OnceAfter(origin, run) == o;
    OnceAppend(env, origin, run, a);
  }

  /** The thread takes this reply. */
  lemma TurnOnce(env: Env, origin: Once, o: Once, t: Tid, reply: Reply) returns (o': Once)
    requires ReachOnce(env, origin, o) && t in o.s.threads && Possible(env, o.s.db, CallOf(o.s.threads[t]), reply)
    ensures ReachOnce(env, origin, o') && o'.delivered == o.delivered
    ensures o'.s.db == Apply(o.s.db, CallOf(o.s.threads[t]), reply)
    ensures o'.s.threads == o.s.threads[t := Resume(o.s.threads[t], reply)]
  {
    o' := DoOnce(env, origin, o, Step(t, reply));
  }

  lemma {:induction false} OnceRunIsRun(env: Env, o: Once, run: seq<Action>)
    requires OnceRun(env, o, run)
    ensures ValidRun(env, o.s, run) && After(o.s, run) == OnceAfter(o, run).s
    decreases |run|
  {
    if run != [] {
      OnceRunIsRun(env, Moved(o, run[0]), run[1..]);
    }
  }

  /** What was delivered is in the log. */
  lemma {:induction false} DeliveredWithin(env: Env, o: Once, run: seq<Action>)
    requires OnceRun(env, o, run) && forall k :: k in o.delivered ==> k < |o.s.db.log|
    ensures forall k :: k in OnceAfter(o, run).delivered ==> k < |OnceAfter(o, run).s.db.log|
    decreases |run|
  {
    if run != [] {
      DeliveredWithin(env, Moved(o, run[0]), run[1..]);
    }
  }

  // ----- What may still touch a completed job -----

  /** The thread may yet send a message of the job. */
  predicate MaySend(pc: Pc, id: JobId) {
    match pc
    case Submitting(at, a) => at in {Decide, Publish} && a.newId == id
    case Launching(insert, l) => !insert && l.newId == id
    case Working(at, _, m) => at == Retry && m.id == id
    case _ => false
  }

  /** The thread may yet write another status than "completed"; past its check an e-mail that is valid cannot. */
  ghost predicate MayRewrite(env: Env, pc: Pc, id: JobId) {
    match pc
    case Working(at, _, m) =>
      m.id == id && at !in {Finish, FinishEmail, Retry} && (at == Run ==> m.typ != EMAIL || !env.validEmail(m.payload))
    case PromoteSend(due) => IsDue(due, id)
    case PromoteSet(due) => IsDue(due, id)
    case CancelWrite(cancel) => cancel == id
    case _ => false
  }

  predicate Undelivered(o: Once, k: nat, id: JobId) {
    k < |o.s.db.log| && k !in o.delivered && o.s.db.log[k].id == id
  }

  ghost predicate NothingLeft(env: Env, o: Once, id: JobId) {
    && (forall k: nat :: !Undelivered(o, k, id))
    && forall t :: t in o.s.threads ==> !MaySend(o.s.threads[t], id) && !MayRewrite(env, o.s.threads[t], id)
  }

  ghost predicate IsCompleted(o: Once, id: JobId) {
    id in o.s.db.rows && o.s.db.rows[id].status == Completed
  }

  // ----- Nothing left keeps it -----

  lemma ResumeLeavesNothing(env: Env, s: State, id: JobId, pc: Pc, reply: Reply)
    requires id in s.db.rows && s.db.rows[id].status == Completed
    requires !MaySend(pc, id) && !MayRewrite(env, pc, id) && Possible(env, s.db, CallOf(pc), reply)
    ensures !MaySend(Resume(pc, reply), id) && !MayRewrite(env, Resume(pc, reply), id)
  {
    if pc.PromoteList? && reply.Listed? {
      NotListed(s.db.rows, pc.now, reply.due, id);
    } else if (pc.PromoteSend? || pc.PromoteSet?) && |pc.due| > 1 {
      NotInRest(pc.due, id);
    }
  }

  /** Such a thread leaves the row "completed", and sends no message of the job. */
  lemma CallLeavesIt(env: Env, s: State, id: JobId, pc: Pc, reply: Reply)
    requires id in s.db.rows && s.db.rows[id].status == Completed
    requires !MaySend(pc, id) && !MayRewrite(env, pc, id) && Possible(env, s.db, CallOf(pc), reply)
    ensures var db' := Apply(s.db, CallOf(pc), reply);
            && id in db'.rows && db'.rows[id].status == Completed && s.db.log <= db'.log
            && forall k :: |s.db.log| <= k < |db'.log| ==> db'.log[k].id != id
  {
    if pc.PromoteSend? && pc.due != [] {
      assert pc.due[0].id != id;
    }
  }

  lemma StepKeepsCompleted(env: Env, o: Once, a: Action, id: JobId)
    requires IsCompleted(o, id) && NothingLeft(env, o, id) && Allowed(env, o, a)
    ensures IsCompleted(Moved(o, a), id) && NothingLeft(env, Moved(o, a), id)
  {
    var o' := Moved(o, a);
    if a.Step? {
      var pc := o.s.threads[a.tid];
      ResumeLeavesNothing(env, o.s, id, pc, a.reply);
      CallLeavesIt(env, o.s, id, pc, a.reply);
    } else if a.Deliver? {
      assert !Undelivered(o, a.offset, id);
    }
    forall k: nat ensures !Undelivered(o', k, id) {
      assert !Undelivered(o, k, id);
    }
    forall t | t in o'.s.threads ensures !MaySend(o'.s.threads[t], id) && !MayRewrite(env, o'.s.threads[t], id) {
      if t in o.s.threads {
        assert !MaySend(o.s.threads[t], id) && !MayRewrite(env, o.s.threads[t], id);
      }
    }
  }

  lemma {:induction false} RunKeepsCompleted(env: Env, o: Once, run: seq<Action>, id: JobId)
    requires IsCompleted(o, id) && NothingLeft(env, o, id) && OnceRun(env, o, run)
    ensures IsCompleted(OnceAfter(o, run), id)
    decreases |run|
  {
    if run != [] {
      StepKeepsCompleted(env, o, run[0], id);
      RunKeepsCompleted(env, Moved(o, run[0]), run[1..], id);
    }
  }

  // ----- Anything left takes it back -----

  /** From the pause check on, with the queue unpaused, a worker goes as far as "processing". */
  lemma WorkerMarks(env: Env, origin: Once, o: Once, t: Tid, k: nat, m: Message) returns (o': Once)
    requires ReachOnce(env, origin, o) && t in o.s.threads && o.s.threads[t] == Working(PauseCheck, k, m)
    requires m.id in o.s.db.rows && o.s.db.rows[m.id].status != Cancelled
    ensures ReachOnce(env, origin, o') && m.id in o'.s.db.rows && o'.s.db.rows[m.id].status == Processing
  {
    o' := DoOnce(env, origin, o, Pause(NormalQueue(m.queue), false));
    o' := TurnOnce(env, origin, o', t, IsPaused(false));
    assert o'.s.threads[t] == Working(Read, k, m);
    o' := TurnOnce(env, origin, o', t, Found(Some(o.s.db.rows[m.id])));
    assert o'.s.threads[t] == Working(Mark, k, m);
    o' := TurnOnce(env, origin, o', t, Ok);
  }

  lemma DeliveryTakesBack(env: Env, origin: Once, o: Once, k: nat, id: JobId) returns (o': Once)
    requires ReachOnce(env, origin, o) && Undelivered(o, k, id)
    requires id in o.s.db.rows && o.s.db.rows[id].status != Cancelled
    ensures ReachOnce(env, origin, o') && id in o'.s.db.rows && o'.s.db.rows[id].status == Processing
  {
    var t := FreshTid(o.s.threads);
    o' := DoOnce(env, origin, o, Deliver(t, k));
    assert o'.s.threads[t] == Working(PauseCheck, k, o.s.db.log[k]);
    o' := WorkerMarks(env, origin, o', t, k, o.s.db.log[k]);
  }

  ghost predicate CanBecome(env: Env, s: State, id: JobId, status: Status) {
    exists s' :: Reach(env, s, s') && id in s'.db.rows && s'.db.rows[id].status == status
  }

  /** Under redelivery no completion is final, and neither is an archiving: the job can always be processed again. */
  lemma NoCompletionIsFinal(env: Env, start: nat, run: seq<Action>, id: JobId)
    requires ValidRun(env, Init(start), run)
    requires var rows := After(Init(start), run).db.rows; id in rows && rows[id].status in {Completed, Archived}
    ensures CanBecome(env, After(Init(start), run), id, Processing)
  {
    var o := Once(After(Init(start), run), {});
    RunKeepsSent(env, Init(start), run);
    assert HasMessage(o.s.db.log, id);
    var k :| 0 <= k < |o.s.db.log| && o.s.db.log[k].id == id;
    ReachOnceSelf(env, o);
    var o' := DeliveryTakesBack(env, o, o, k, id);
    var later :| OnceRun(env, o, later) && OnceAfter(o, later) == o';
    OnceRunIsRun(env, o, later);
  }

  lemma SenderTakesBack(env: Env, o: Once, t: Tid, id: JobId) returns (o': Once)
    requires IsCompleted(o, id) && t in o.s.threads && MaySend(o.s.threads[t], id)
    requires forall k :: k in o.delivered ==> k < |o.s.db.log|
    ensures ReachOnce(env, o, o') && id in o'.s.db.rows && o'.s.db.rows[id].status == Processing
  {
    var pc := o.s.threads[t];
    ReachOnceSelf(env, o);
    o' := o;
    if pc.Submitting? && pc.at == Decide {
      o' := DecidesToSend(env, o, t, pc.args);
    }
    o' := SendTakesBack(env, o, o', t, id);
  }

  /** The submission waits until the job is due, and then it is to be sent. */
  lemma DecidesToSend(env: Env, o: Once, t: Tid, a: SubmitArgs) returns (o': Once)
    requires t in o.s.threads && o.s.threads[t] == Submitting(Decide, a)
    ensures ReachOnce(env, o, o') && o'.delivered == o.delivered
    ensures o'.s.threads == o.s.threads[t := Submitting(Publish, a)]
    ensures o'.s.db.rows == o.s.db.rows && o'.s.db.log == o.s.db.log
  {
    var later := if a.runAt > o.s.db.clock then a.runAt else o.s.db.clock;
    ReachOnceSelf(env, o);
    o' := DoOnce(env, o, o, Pass(later));
    assert o'.s.threads[t] == Submitting(Decide, a);
    o' := TurnOnce(env, o, o', t, Time(later));
  }

  lemma SendTakesBack(env: Env, origin: Once, o: Once, t: Tid, id: JobId) returns (o': Once)
    requires ReachOnce(env, origin, o) && IsCompleted(o, id) && t in o.s.threads && MaySend(o.s.threads[t], id)
    requires o.s.threads[t].Submitting? ==> o.s.threads[t].at == Publish
    requires forall k :: k in o.delivered ==> k < |o.s.db.log|
    ensures ReachOnce(env, origin, o') && id in o'.s.db.rows && o'.s.db.rows[id].status == Processing
  {
    o' := TurnOnce(env, origin, o, t, Ok);
    assert Undelivered(o', |o.s.db.log|, id);
    o' := DeliveryTakesBack(env, origin, o', |o.s.db.log|, id);
  }

  lemma WorkerTakesBack(env: Env, o: Once, t: Tid, id: JobId) returns (o': Once)
    requires IsCompleted(o, id) && t in o.s.threads && o.s.threads[t].Working? && MayRewrite(env, o.s.threads[t], id)
    ensures ReachOnce(env, o, o') && id in o'.s.db.rows && o'.s.db.rows[id].status != Completed
  {
    var pc := o.s.threads[t];
    var k, m := pc.offset, pc.msg;
    ReachOnceSelf(env, o);
    if pc.work == PauseCheck {
      o' := WorkerMarks(env, o, o, t, k, m);
    } else if pc.work == Read {
      o' := TurnOnce(env, o, o, t, Found(Some(o.s.db.rows[id])));
      assert o'.s.threads[t] == Working(Mark, k, m);
      o' := TurnOnce(env, o, o', t, Ok);
    } else if pc.work == Run {
      var outcome := if m.typ == EMAIL || m.typ in env.handlers then Fails else Unhandled;
      o' := TurnOnce(env, o, o, t, Outcome(outcome));
      assert o'.s.threads[t] == Working(if outcome == Fails then Fail else Reject, k, m);
      o' := TurnOnce(env, o, o', t, Ok);
    } else {
      o' := TurnOnce(env, o, o, t, Ok);
    }
  }

  lemma {:induction false} PromoterTakesBack(env: Env, origin: Once, o: Once, t: Tid, id: JobId) returns (o': Once)
    requires ReachOnce(env, origin, o) && IsCompleted(o, id)
    requires t in o.s.threads && (o.s.threads[t].PromoteSend? || o.s.threads[t].PromoteSet?)
    requires MayRewrite(env, o.s.threads[t], id)
    ensures ReachOnce(env, origin, o') && id in o'.s.db.rows && o'.s.db.rows[id].status != Completed
    decreases |o.s.threads[t].due|, o.s.threads[t].PromoteSend?
  {
    var pc := o.s.threads[t];
    var i :| 0 <= i < |pc.due| && pc.due[i].id == id;
    o' := TurnOnce(env, origin, o, t, Ok);
    if pc.PromoteSend? {
      assert o'.s.threads[t] == PromoteSet(pc.due);
      o' := PromoterTakesBack(env, origin, o', t, id);
    } else if pc.due[0].id != id {
      assert o'.s.threads[t] == PromoteSend(pc.due[1..]) && pc.due[1..][i - 1].id == id;
      o' := PromoterTakesBack(env, origin, o', t, id);
    }
  }

  lemma LeftOverTakesBack(env: Env, o: Once, id: JobId) returns (o': Once)
    requires IsCompleted(o, id) && !NothingLeft(env, o, id)
    requires forall k :: k in o.delivered ==> k < |o.s.db.log|
    ensures ReachOnce(env, o, o') && !IsCompleted(o', id)
  {
    ReachOnceSelf(env, o);
    if k: nat :| Undelivered(o, k, id) {
      o' := DeliveryTakesBack(env, o, o, k, id);
    } else {
      var t :| t in o.s.threads && (MaySend(o.s.threads[t], id) || MayRewrite(env, o.s.threads[t], id));
      var pc := o.s.threads[t];
      if MaySend(pc, id) {
        o' := SenderTakesBack(env, o, t, id);
      } else if pc.Working? {
        o' := WorkerTakesBack(env, o, t, id);
      } else if pc.CancelWrite? {
        o' := TurnOnce(env, o, o, t, Ok);
      } else {
        o' := PromoterTakesBack(env, o, o, t, id);
      }
    }
  }

  /**
   Over runs that deliver no message twice, a completed job stays completed in every future exactly
   if no message of it is undelivered and no thread may still send one or write another status.
   */
  lemma CompletionIsFinalExactlyWhen(env: Env, start: int, run: seq<Action>, id: JobId)
    requires OnceRun(env, Start(start), run) && IsCompleted(OnceAfter(Start(start), run), id)
    ensures var o := OnceAfter(Start(start), run);
            (forall o' :: ReachOnce(env, o, o') ==> IsCompleted(o', id)) <==> NothingLeft(env, o, id)
  {
    var o := OnceAfter(Start(start), run);
    DeliveredWithin(env, Start(start), run);
    if NothingLeft(env, o, id) {
      forall o' | ReachOnce(env, o, o') ensures IsCompleted(o', id) {
        var later :| OnceRun(env, o, later) && OnceAfter(o, later) == o';
        RunKeepsCompleted(env, o, later, id);
      }
    } else {
      var o' := LeftOverTakesBack(env, o, id);
    }
  }

  // ----- The promoter takes one back -----

  /** Thread 0 submits a job for time 5. */
  lemma SubmittedForLater(env: Env, args: SubmitArgs) returns (o: Once)
    requires Entry(Submitting(Insert, args)) && args.runAt == 5
    ensures ReachOnce(env, Start(0), o) && o.s.threads.Keys == {0} && o.delivered == {}
    ensures o.s.db == Tables(map[args.newId := NewRow(args)], [], [], {}, 5)
  {
    ReachOnceSelf(env, Start(0));
    o := DoOnce(env, Start(0), Start(0), Begin(0, Submitting(Insert, args)));
    assert o.s.threads[0] == Submitting(Insert, args);
    o := TurnOnce(env, Start(0), o, 0, Ok);
    assert o.s.threads[0] == Submitting(Decide, args);
    o := TurnOnce(env, Start(0), o, 0, Time(0));
    o := DoOnce(env, Start(0), o, Pass(5));
  }

  lemma PromoterLists(env: Env, args: SubmitArgs) returns (o: Once)
    requires Entry(Submitting(Insert, args)) && args.runAt == 5
    ensures ReachOnce(env, Start(0), o) && o.s.threads.Keys == {0, 1} && o.delivered == {}
    ensures o.s.db == Tables(map[args.newId := NewRow(args)], [], [], {}, 5) && o.s.threads[1] == PromoteList(5)
  {
    o := SubmittedForLater(env, args);
    o := DoOnce(env, Start(0), o, Begin(1, PromoteClock));
    assert o.s.threads[1] == PromoteClock;
    o := TurnOnce(env, Start(0), o, 1, Time(5));
  }

  lemma OnlyDue(id: JobId, row: Row, now: int)
    requires row.status == Scheduled && 0 < row.runAt <= now
    ensures DueListing(map[id := row], now, [Due(id, row)])
  {
    assert DueKeys(map[id := row], now) == map[id := row.runAt];
    assert Ids([Due(id, row)]) == [id];
  }

  /** At that time thread 1 has enqueued the job, but not yet written its row. */
  lemma PromotedHalfway(env: Env, args: SubmitArgs) returns (o: Once)
    requires Entry(Submitting(Insert, args)) && args.runAt == 5
    ensures ReachOnce(env, Start(0), o) && o.s.threads.Keys == {0, 1} && o.delivered == {}
    ensures o.s.db == Tables(map[args.newId := NewRow(args)], [PromoteMessage(args.newId, NewRow(args))], [], {}, 5)
    ensures o.s.threads[1] == PromoteSet([Due(args.newId, NewRow(args))])
  {
    var due := [Due(args.newId, NewRow(args))];
    o := PromoterLists(env, args);
    OnlyDue(args.newId, NewRow(args), 5);
    o := TurnOnce(env, Start(0), o, 1, Listed(due));
    assert o.s.threads[1] == PromoteSend(due);
    o := TurnOnce(env, Start(0), o, 1, Ok);
  }

  lemma WorkerStarts(env: Env, origin: Once, o: Once, t: Tid) returns (o': Once)
    requires ReachOnce(env, origin, o) && t !in o.s.threads && o.delivered == {} && |o.s.db.log| > 0
    requires var m := o.s.db.log[0];
             NormalQueue(m.queue) !in o.s.db.paused && m.id in o.s.db.rows && o.s.db.rows[m.id].status != Cancelled
    ensures ReachOnce(env, origin, o') && o'.s.threads == o.s.threads[t := Working(Mark, 0, o.s.db.log[0])]
    ensures o'.s.db == o.s.db
  {
    var m := o.s.db.log[0];
    o' := DoOnce(env, origin, o, Deliver(t, 0));
    assert o'.s.threads[t] == Working(PauseCheck, 0, m);
    o' := TurnOnce(env, origin, o', t, IsPaused(false));
    assert o'.s.threads[t] == Working(Read, 0, m);
    o' := TurnOnce(env, origin, o', t, Found(Some(o.s.db.rows[m.id])));
  }

  lemma WorkerEnds(env: Env, origin: Once, o: Once, t: Tid, m: Message) returns (o': Once)
    requires ReachOnce(env, origin, o) && t in o.s.threads && o.s.threads[t] == Working(Mark, 0, m)
    requires m.typ in env.handlers && m.typ != EMAIL && m.id in o.s.db.rows
    ensures ReachOnce(env, origin, o') && o'.s.threads == o.s.threads[t := Gone] && IsCompleted(o', m.id)
  {
    o' := TurnOnce(env, origin, o, t, Ok);
    assert o'.s.threads[t] == Working(Run, 0, m);
    o' := TurnOnce(env, origin, o', t, Outcome(Succeeds));
    assert o'.s.threads[t] == Working(Finish, 0, m);
    o' := TurnOnce(env, origin, o', t, Ok);
  }

  /**
   The promoter enqueues a due job before it writes "pending". If the worker is quicker, the job
   completes with the promoter's write left over, which takes the completion back: with every write
   successful and every message delivered once.
   */
  lemma CompletionUndone(env: Env) returns (done: Once, undone: Once)
    requires "hello" in env.handlers
    ensures ReachOnce(env, Start(0), done) && IsCompleted(done, "job")
    ensures 1 in done.s.threads && MayRewrite(env, done.s.threads[1], "job") && !NothingLeft(env, done, "job")
    ensures ReachOnce(env, done, undone) && "job" in undone.s.db.rows && undone.s.db.rows["job"].status == Pending
  {
    var args := SubmitArgs("job", "hello", "", "default", 0, 5, "", 0);
    var o := PromotedHalfway(env, args);
    var started := WorkerStarts(env, Start(0), o, 2);
    done := WorkerEnds(env, Start(0), started, 2, started.s.db.log[0]);
    var due := [Due("job", NewRow(args))];
    assert done.s.threads[1] == PromoteSet(due) && due[0].id == "job";
    ReachOnceSelf(env, done);
    undone := TurnOnce(env, done, done, 1, Ok);
  }
}
