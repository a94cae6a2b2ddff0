/**
 The lifecycle is made of the fine-grained steps: each of its events is a run of the protocol in
 which no other thread moves, so whatever holds of all protocol runs holds of it too.
 */
module LifecycleRefines {
  import opened Jobs
  import opened Protocol
  import opened Lifecycle
  import Agreement
  import Outcomes

  // ----- Runs without failures -----

  /** No call fails, but for insertions that the table refuses. */
  ghost predicate Smooth(s: State, a: Action) {
    a.Step? && a.tid in s.threads && a.reply.Failure? ==> Refused(s.db.rows, CallOf(s.threads[a.tid]))
  }

  predicate Refused(rows: map<JobId, Row>, call: Call) {
    call.Create? && !Insertable(rows, call.id, call.row)
  }

  ghost predicate SmoothRun(s: State, run: seq<Action>)
    decreases |run|
  {
    run == [] || (Smooth(s, run[0]) && SmoothRun(Next(s, run[0]), run[1..]))
  }

  /** Some run leads there; one without failures, if so wanted. */
  ghost predicate Goes(env: Env, s: State, s': State, smooth: bool) {
    exists run :: ValidRun(env, s, run) && After(s, run) == s' && (smooth ==> SmoothRun(s, run))
  }

  lemma {:induction false} SmoothConcat(env: Env, s: State, first: seq<Action>, second: seq<Action>)
    requires ValidRun(env, s, first) && SmoothRun(s, first) && SmoothRun(After(s, first), second)
    ensures SmoothRun(s, first + second)
    decreases |first|
  {
    if first == [] {
      assert first + second == second;
    } else {
      assert (first + second)[1..] == first[1..] + second;
      SmoothConcat(env, Next(s, first[0]), first[1..], second);
    }
  }

  lemma GoesReach(env: Env, s: State, s': State, smooth: bool)
    requires Goes(env, s, s', smooth)
    ensures Reach(env, s, s')
  {
  }

  lemma GoesNowhere(env: Env, s: State, smooth: bool)
    ensures Goes(env, s, s, smooth)
  {
    assert ValidRun(env, s, []) && After(s, []) == s && SmoothRun(s, []);
  }

  lemma GoesOn(env: Env, smooth: bool, s: State, a: Action)
    requires Enabled(env, s, a) && (smooth ==> Smooth(s, a))
    ensures Goes(env, s, Next(s, a), smooth)
  {
    var run := [a];
    assert run[1..] == [] && ValidRun(env, Next(s, a), run[1..]) && SmoothRun(Next(s, a), run[1..]);
    assert ValidRun(env, s, run) && After(s, run) == Next(s, a);
    assert smooth ==> SmoothRun(s, run);
  }

  lemma GoesThrough(env: Env, smooth: bool, s: State, s': State, s'': State)
    requires Goes(env, s, s', smooth) && Goes(env, s', s'', smooth)
    ensures Goes(env, s, s'', smooth)
  {
    var first :| ValidRun(env, s, first) && After(s, first) == s' && (smooth ==> SmoothRun(s, first));
    var second :| ValidRun(env, s', second) && After(s', second) == s'' && (smooth ==> SmoothRun(s', second));
    RunConcat(env, s, first, second);
    if smooth {
      SmoothConcat(env, s, first, second);
    }
  }

  lemma Does(env: Env, smooth: bool, origin: State, s: State, a: Action) returns (s': State)
    requires Goes(env, origin, s, smooth) && Enabled(env, s, a) && (smooth ==> Smooth(s, a))
    ensures s' == Next(s, a) && Goes(env, origin, s', smooth)
  {
    s' := Next(s, a);
    GoesOn(env, smooth, s, a);
    GoesThrough(env, smooth, origin, s, s');
  }

  lemma Turns(env: Env, smooth: bool, origin: State, s: State, t: Tid, reply: Reply) returns (s': State)
    requires Goes(env, origin, s, smooth) && t in s.threads && Possible(env, s.db, CallOf(s.threads[t]), reply)
    requires smooth && reply.Failure? ==> Refused(s.db.rows, CallOf(s.threads[t]))
    ensures Goes(env, origin, s', smooth)
    ensures s'.db == Apply(s.db, CallOf(s.threads[t]), reply)
    ensures s'.threads == s.threads[t := Resume(s.threads[t], reply)]
  {
    s' := Does(env, smooth, origin, s, Step(t, reply));
  }

  // ----- One event -----

  ghost predicate HasWorker(threads: map<Tid, Pc>, k: nat, m: Message) {
    exists t :: t in threads && threads[t] == Working(Run, k, m)
  }

  /** Same tables, and a worker thread inside the handler for each message in flight. */
  ghost predicate Simulates(s: World, f: State) {
    && s.db == f.db && |s.phase| == |s.db.log|
    && forall k :: 0 <= k < |s.phase| && s.phase[k] == InFlight ==> HasWorker(f.threads, k, s.db.log[k])
  }

  /** The event moved one thread, which had no message in flight, or no longer has. */
  lemma Settles(s: World, s': World, f: State, f': State, t: Tid, pc: Pc)
    requires Simulates(s, f)
    requires f'.db == s'.db && |s'.phase| == |s'.db.log| && s.db.log <= s'.db.log
    requires f'.threads == f.threads[t := pc]
    requires forall k :: 0 <= k < |s'.phase| && s'.phase[k] == InFlight ==>
               || (pc.Working? && pc == Working(Run, k, s'.db.log[k]))
               || (k < |s.phase| && s.phase[k] == InFlight
                   && (t in f.threads ==> f.threads[t] != Working(Run, k, s.db.log[k])))
    ensures Simulates(s', f')
  {
    forall k | 0 <= k < |s'.phase| && s'.phase[k] == InFlight ensures HasWorker(f'.threads, k, s'.db.log[k]) {
      if pc == Working(Run, k, s'.db.log[k]) {
        assert f'.threads[t] == pc;
      } else {
        var u :| u in f.threads && f.threads[u] == Working(Run, k, s.db.log[k]);
        assert f'.threads[u] == f.threads[u];
      }
    }
  }

  lemma Launches(env: Env, smooth: bool, origin: State, f: State, t: Tid, l: LaunchArgs, sent: bool, s: World)
    returns (f': State)
    requires smooth ==> sent
    requires Goes(env, origin, f, smooth) && t in f.threads && f.threads[t] == Launching(true, l) && f.db == s.db
    ensures Goes(env, origin, f', smooth) && f'.threads == f.threads[t := Gone] && f'.db == LaunchNext(s, l, sent).db
  {
    if Insertable(f.db.rows, l.newId, LaunchedRow(l)) {
      f' := Turns(env, smooth, origin, f, t, Ok);
      assert f'.threads[t] == Launching(false, l);
      f' := Turns(env, smooth, origin, f', t, if sent then Ok else Failure(false));
    } else {
      f' := Turns(env, smooth, origin, f, t, Failure(false));
    }
  }

  lemma Publishes(env: Env, smooth: bool, origin: State, f: State, t: Tid, a: SubmitArgs, sent: bool, s: World)
    returns (f': State, pc: Pc)
    requires smooth ==> sent
    requires Goes(env, origin, f, smooth) && t in f.threads && f.threads[t] == Submitting(Insert, a) && f.db == s.db
    ensures Goes(env, origin, f', smooth) && f'.threads == f.threads[t := pc] && pc.Submitted?
    ensures f'.db == SubmitNext(s, a, sent).db
  {
    if Insertable(f.db.rows, a.newId, NewRow(a)) {
      f' := Turns(env, smooth, origin, f, t, Ok);
      assert f'.threads[t] == Submitting(Decide, a);
      f' := Turns(env, smooth, origin, f', t, Time(f.db.clock));
      if !(a.runAt > 0 && a.runAt > f.db.clock) {
        assert f'.threads[t] == Submitting(Publish, a);
        f' := Turns(env, smooth, origin, f', t, if sent then Ok else Failure(false));
      }
    } else {
      f' := Turns(env, smooth, origin, f, t, Failure(false));
    }
    pc := f'.threads[t];
  }

  lemma Submits(env: Env, smooth: bool, f: State, t: Tid, a: SubmitArgs, sent: bool, s: World)
    returns (f': State, pc: Pc)
    requires smooth ==> sent
    requires t !in f.threads && f.db == s.db && a.newId != "" && a.typ != "" && a.queue != ""
    ensures Goes(env, f, f', smooth) && f'.threads == f.threads[t := pc] && pc.Submitted?
    ensures f'.db == SubmitNext(s, a, sent).db
  {
    GoesNowhere(env, f, smooth);
    if a.key == "" {
      f' := Does(env, smooth, f, f, Begin(t, Submitting(Insert, a)));
      f', pc := Publishes(env, smooth, f, f', t, a, sent, s);
    } else {
      f' := Does(env, smooth, f, f, Begin(t, Submitting(Find, a)));
      f', pc := Finds(env, smooth, f, f', t, a, sent, s);
    }
  }

  lemma Finds(env: Env, smooth: bool, origin: State, f: State, t: Tid, a: SubmitArgs, sent: bool, s: World)
    returns (f': State, pc: Pc)
    requires smooth ==> sent
    requires Goes(env, origin, f, smooth) && t in f.threads && f.threads[t] == Submitting(Find, a) && f.db == s.db
    ensures Goes(env, origin, f', smooth) && f'.threads == f.threads[t := pc] && pc.Submitted?
    ensures f'.db == SubmitNext(s, a, sent).db
  {
    if id :| id in f.db.rows && SameKey(f.db.rows[id], a.typ, a.queue, a.key) {
      f' := Turns(env, smooth, origin, f, t, FoundId(Some(id)));
      pc := f'.threads[t];
    } else {
      f' := Turns(env, smooth, origin, f, t, FoundId(None));
      f', pc := Publishes(env, smooth, origin, f', t, a, sent, s);
    }
  }

  lemma Cancels(env: Env, smooth: bool, f: State, t: Tid, id: JobId, s: World) returns (f': State)
    requires t !in f.threads && f.db == s.db && id != ""
    ensures Goes(env, f, f', smooth) && f'.threads == f.threads[t := Gone] && f'.db == CancelNext(s, id).db
  {
    GoesNowhere(env, f, smooth);
    f' := Does(env, smooth, f, f, Begin(t, CancelRead(id)));
    assert f'.threads[t] == CancelRead(id);
    f' := Turns(env, smooth, f, f', t, Found(Lookup(f.db.rows, id)));
    if id in f.db.rows && f.db.rows[id].status !in {Completed, Processing} {
      assert f'.threads[t] == CancelWrite(id);
      f' := Turns(env, smooth, f, f', t, Ok);
    } else {
      assert f'.threads[t] == Gone;
    }
  }

  lemma ReplaysIt(env: Env, smooth: bool, f: State, t: Tid, id: JobId, queue: string, newId: JobId, sent: bool,
                  s: World)
    returns (f': State)
    requires smooth ==> sent
    requires t !in f.threads && f.db == s.db && id != "" && queue != "" && newId != ""
    ensures Goes(env, f, f', smooth) && f'.threads == f.threads[t := Gone]
    ensures f'.db == ReplayNext(s, id, queue, newId, sent).db
  {
    GoesNowhere(env, f, smooth);
    f' := Does(env, smooth, f, f, Begin(t, Replaying(id, queue, newId)));
    f' := Turns(env, smooth, f, f', t, Found(Lookup(f.db.rows, id)));
    if id in f.db.rows && f.db.rows[id].status == Archived {
      f' := Launches(env, smooth, f, f', t, Replay(f.db.rows[id], queue, newId), sent, s);
    }
  }

  lemma PromotesFirst(env: Env, smooth: bool, origin: State, f: State, t: Tid, due: seq<Due>, sends: set<JobId>,
                      s: World)
    returns (f': State)
    requires smooth ==> |due| > 0 && due[0].id in sends
    requires Goes(env, origin, f, smooth) && t in f.threads && f.threads[t] == PromoteSend(due) && f.db == s.db
    requires |due| > 0
    ensures Goes(env, origin, f', smooth) && f'.threads == f.threads[t := PromoteNext(due)]
    ensures f'.db == (if due[0].id in sends then PromoteOne(s, due[0]) else s).db
  {
    if due[0].id in sends {
      f' := Turns(env, smooth, origin, f, t, Ok);
      assert f'.threads[t] == PromoteSet(due);
      f' := Turns(env, smooth, origin, f', t, Ok);
    } else {
      f' := Turns(env, smooth, origin, f, t, Failure(false));
    }
  }

  lemma {:induction false} PromotesBatch(env: Env, smooth: bool, origin: State, f: State, t: Tid, due: seq<Due>,
                                         sends: set<JobId>, s: World)
    returns (f': State)
    requires smooth ==> forall i :: 0 <= i < |due| ==> due[i].id in sends
    requires Goes(env, origin, f, smooth) && t in f.threads && f.threads[t] == PromoteSend(due) && f.db == s.db
    requires |due| > 0
    ensures Goes(env, origin, f', smooth) && f'.threads == f.threads[t := Gone]
    ensures f'.db == PromoteNextAll(s, due, sends).db
    decreases |due|
  {
    var s' := if due[0].id in sends then PromoteOne(s, due[0]) else s;
    f' := PromotesFirst(env, smooth, origin, f, t, due, sends, s);
    if |due| > 1 {
      f' := PromotesBatch(env, smooth, origin, f', t, due[1..], sends, s');
    } else {
      assert PromoteNextAll(s', due[1..], sends) == s';
    }
  }

  lemma Promotes(env: Env, smooth: bool, f: State, t: Tid, due: seq<Due>, sends: set<JobId>, s: World)
    returns (f': State)
    requires smooth ==> forall i :: 0 <= i < |due| ==> due[i].id in sends
    requires t !in f.threads && f.db == s.db && DueListing(f.db.rows, f.db.clock, due)
    ensures Goes(env, f, f', smooth) && f'.threads == f.threads[t := Gone] && f'.db == PromoteNextAll(s, due, sends).db
  {
    GoesNowhere(env, f, smooth);
    f' := Does(env, smooth, f, f, Begin(t, PromoteClock));
    f' := Turns(env, smooth, f, f', t, Time(f.db.clock));
    assert f'.threads[t] == PromoteList(f.db.clock);
    f' := PromotesListed(env, smooth, f, f', t, due, sends, s);
  }

  lemma PromotesListed(env: Env, smooth: bool, origin: State, f: State, t: Tid, due: seq<Due>, sends: set<JobId>,
                       s: World)
    returns (f': State)
    requires smooth ==> forall i :: 0 <= i < |due| ==> due[i].id in sends
    requires Goes(env, origin, f, smooth) && t in f.threads && f.threads[t] == PromoteList(f.db.clock)
    requires f.db == s.db && DueListing(f.db.rows, f.db.clock, due)
    ensures Goes(env, origin, f', smooth) && f'.threads == f.threads[t := Gone]
    ensures f'.db == PromoteNextAll(s, due, sends).db
  {
    f' := Turns(env, smooth, origin, f, t, Listed(due));
    if due != [] {
      f' := PromotesBatch(env, smooth, origin, f', t, due, sends, s);
    }
  }

  lemma Reads(env: Env, smooth: bool, origin: State, f: State, t: Tid, k: nat, s: World) returns (f': State, pc: Pc)
    requires f.db == s.db && k < |s.phase| == |s.db.log|
    requires Goes(env, origin, f, smooth) && t in f.threads && f.threads[t] == Working(Read, k, s.db.log[k])
    requires NormalQueue(s.db.log[k].queue) !in s.db.paused
    ensures Goes(env, origin, f', smooth) && f'.threads == f.threads[t := pc] && f'.db == StartNext(s, k, true).db
    ensures StartNext(s, k, true).phase == s.phase[k := Done] || pc == Working(Run, k, s.db.log[k])
  {
    var m := s.db.log[k];
    f' := Turns(env, smooth, origin, f, t, Found(Lookup(f.db.rows, m.id)));
    if !(m.id in f.db.rows && f.db.rows[m.id].status == Cancelled) {
      assert f'.threads[t] == Working(Mark, k, m);
      f' := Turns(env, smooth, origin, f', t, Ok);
    }
    pc := f'.threads[t];
  }

  lemma Starts(env: Env, smooth: bool, f: State, t: Tid, k: nat, read: bool, s: World) returns (f': State, pc: Pc)
    requires smooth ==> read
    requires t !in f.threads && f.db == s.db && k < |s.phase| == |s.db.log|
    ensures Goes(env, f, f', smooth) && f'.threads == f.threads[t := pc] && f'.db == StartNext(s, k, read).db
    ensures StartNext(s, k, read).phase == s.phase[k := Done] || pc == Working(Run, k, s.db.log[k])
  {
    GoesNowhere(env, f, smooth);
    f' := Does(env, smooth, f, f, Deliver(t, k));
    f', pc := Checks(env, smooth, f, f', t, k, read, s);
  }

  lemma Checks(env: Env, smooth: bool, origin: State, f: State, t: Tid, k: nat, read: bool, s: World)
    returns (f': State, pc: Pc)
    requires smooth ==> read
    requires f.db == s.db && k < |s.phase| == |s.db.log|
    requires Goes(env, origin, f, smooth) && t in f.threads && f.threads[t] == Working(PauseCheck, k, s.db.log[k])
    ensures Goes(env, origin, f', smooth) && f'.threads == f.threads[t := pc] && f'.db == StartNext(s, k, read).db
    ensures StartNext(s, k, read).phase == s.phase[k := Done] || pc == Working(Run, k, s.db.log[k])
  {
    var m := s.db.log[k];
    if !read {
      f' := Turns(env, smooth, origin, f, t, Failure(false));
      pc := Gone;
    } else {
      f' := Turns(env, smooth, origin, f, t, IsPaused(NormalQueue(m.queue) in f.db.paused));
      if NormalQueue(m.queue) in f.db.paused {
        pc := Gone;
      } else {
        assert f'.threads[t] == Working(Read, k, m);
        f', pc := Reads(env, smooth, origin, f', t, k, s);
      }
    }
  }

  /** The last write of a worker. */
  lemma WorkerWrites(env: Env, smooth: bool, origin: State, f: State, t: Tid, at: WorkAt, k: nat, m: Message,
                     status: Status,
                     attempt: int32)
    returns (f': State)
    requires Goes(env, origin, f, smooth) && t in f.threads && f.threads[t] == Working(at, k, m)
    requires WorkCall(at, m) == SetStatus(m.id, status, attempt)
    requires at in {Finish, Reject, Archive}
    ensures Goes(env, origin, f', smooth) && f'.threads == f.threads[t := Gone]
    ensures f'.db == f.db.(rows := WithStatus(f.db.rows, m.id, status, attempt))
  {
    f' := Turns(env, smooth, origin, f, t, Ok);
  }

  lemma FailDb(w: World, m: Message, sent: bool)
    ensures var failed := WithStatus(w.db.rows, m.id, Failed, Inc(m.attempt));
            var archived := WithStatus(w.db.rows, m.id, Archived, Inc(m.attempt));
            FailNext(w, m, sent).db == if !Retries(m, Inc(m.attempt)) then w.db.(rows := archived)
                                       else if sent then w.db.(rows := failed, log := w.db.log + [RetryMessage(m)])
                                       else w.db.(rows := failed)
  {
  }

  lemma OverwrittenStatus(rows: map<JobId, Row>, id: JobId, first: Status, second: Status, attempt: int32)
    ensures WithStatus(WithStatus(rows, id, first, attempt), id, second, attempt)
            == WithStatus(rows, id, second, attempt)
  {
  }

  lemma WritesFailed(env: Env, smooth: bool, origin: State, f: State, t: Tid, k: nat, m: Message) returns (f': State)
    requires Goes(env, origin, f, smooth) && t in f.threads && f.threads[t] == Working(Fail, k, m)
    ensures Goes(env, origin, f', smooth)
    ensures f'.threads == f.threads[t := Working(if Retries(m, Inc(m.attempt)) then Retry else Archive, k, m)]
    ensures f'.db == f.db.(rows := WithStatus(f.db.rows, m.id, Failed, Inc(m.attempt)))
  {
    f' := Turns(env, smooth, origin, f, t, Ok);
  }

  lemma FailTurns(env: Env, smooth: bool, origin: State, f: State, t: Tid, k: nat, m: Message, sent: bool, w: World)
    returns (f': State)
    requires smooth ==> sent
    requires f.db == w.db && Goes(env, origin, f, smooth) && t in f.threads && f.threads[t] == Working(Fail, k, m)
    ensures Goes(env, origin, f', smooth) && f'.threads == f.threads[t := Gone] && f'.db == FailNext(w, m, sent).db
  {
    FailDb(w, m, sent);
    f' := WritesFailed(env, smooth, origin, f, t, k, m);
    if Retries(m, Inc(m.attempt)) {
      f' := Resends(env, smooth, origin, f', t, k, m, sent);
    } else {
      OverwrittenStatus(f.db.rows, m.id, Failed, Archived, Inc(m.attempt));
      f' := WorkerWrites(env, smooth, origin, f', t, Archive, k, m, Archived, Inc(m.attempt));
    }
  }

  lemma Resends(env: Env, smooth: bool, origin: State, f: State, t: Tid, k: nat, m: Message, sent: bool)
    returns (f': State)
    requires smooth ==> sent
    requires Goes(env, origin, f, smooth) && t in f.threads && f.threads[t] == Working(Retry, k, m)
    ensures Goes(env, origin, f', smooth) && f'.threads == f.threads[t := Gone]
    ensures f'.db == if sent then f.db.(log := f.db.log + [RetryMessage(m)]) else f.db
  {
    f' := Turns(env, smooth, origin, f, t, if sent then Ok else Failure(false));
  }

  lemma FailsIt(env: Env, smooth: bool, origin: State, f: State, t: Tid, k: nat, sent: bool, s: World)
    returns (f': State)
    requires smooth ==> sent
    requires f.db == s.db && k < |s.phase| == |s.db.log|
    requires Goes(env, origin, f, smooth) && t in f.threads && f.threads[t] == Working(Fail, k, s.db.log[k])
    ensures Goes(env, origin, f', smooth) && f'.threads == f.threads[t := Gone]
    ensures f'.db == EndNext(s, k, Fails, sent).db
  {
    var m := s.db.log[k];
    f' := FailTurns(env, smooth, origin, f, t, k, m, sent, Tried(Consume(s, k), m.id, false));
  }

  lemma SucceedsIt(env: Env, smooth: bool, origin: State, f: State, t: Tid, k: nat, m: Message) returns (f': State)
    requires Goes(env, origin, f, smooth) && t in f.threads
    requires f.threads[t] == Working(if m.typ == EMAIL then FinishEmail else Finish, k, m)
    ensures Goes(env, origin, f', smooth) && f'.threads == f.threads[t := Gone]
    ensures var rows := WithStatus(f.db.rows, m.id, Completed, m.attempt);
            f'.db == if m.typ == EMAIL
                     then f.db.(rows := rows, outbox := f.db.outbox + [OutboxRow(m.id, EMAIL, m.payload)])
                     else f.db.(rows := rows)
  {
    if m.typ == EMAIL {
      f' := Turns(env, smooth, origin, f, t, Ok);
    } else {
      f' := WorkerWrites(env, smooth, origin, f, t, Finish, k, m, Completed, m.attempt);
    }
  }

  lemma FinishesIt(env: Env, smooth: bool, f: State, t: Tid, k: nat, outcome: Outcome, sent: bool, s: World)
    returns (f': State)
    requires smooth ==> sent
    requires f.db == s.db && k < |s.phase| == |s.db.log|
    requires t in f.threads && f.threads[t] == Working(Run, k, s.db.log[k])
    requires OutcomePossible(env, s.db.log[k], outcome)
    ensures Goes(env, f, f', smooth) && f'.threads == f.threads[t := Gone] && f'.db == EndNext(s, k, outcome, sent).db
  {
    var m := s.db.log[k];
    GoesNowhere(env, f, smooth);
    f' := Turns(env, smooth, f, f, t, Outcome(outcome));
    match outcome
    case Succeeds =>
      assert f'.threads[t] == Working(if m.typ == EMAIL then FinishEmail else Finish, k, m);
      f' := SucceedsIt(env, smooth, f, f', t, k, m);
    case Unhandled =>
      assert f'.threads[t] == Working(Reject, k, m);
      f' := WorkerWrites(env, smooth, f, f', t, Reject, k, m, Failed, m.attempt);
    case Fails =>
      f' := FailsIt(env, smooth, f, f', t, k, sent, s);
  }

  /** Which messages an event leaves in flight. */
  lemma InFlightAfter(env: Env, s: World, e: Event, k: nat)
    requires |s.phase| == |s.db.log| && Occurs(env, s, e)
    ensures var s' := Then(env, s, e);
            && |s'.phase| == |s'.db.log| && s.db.log <= s'.db.log
            && (k < |s'.phase| && s'.phase[k] == InFlight ==>
                  && k < |s.phase|
                  && (s.phase[k] == InFlight || (e.Start? && e.offset == k && s'.phase == s.phase[k := InFlight]))
                  && (e.End? ==> e.offset != k))
  {
    match e
    case Promote(due, sends) => PromoteShape(s, due, sends);
    case Start(j, read) => StartShape(s, j, read);
    case End(j, outcome, sent) => EndShape(s, j, outcome, sent);
    case _ =>
  }

  /** A call of the API, or a tick, as a thread of its own. */
  lemma CallIsARun(env: Env, smooth: bool, s: World, f: State, t: Tid, e: Event) returns (f': State, pc: Pc)
    requires smooth ==> Outcomes.Flawless(e)
    requires f.db == s.db && Occurs(env, s, e) && t !in f.threads
    requires e.Submit? || e.Cancel? || e.Replays? || e.Launch? || e.Promote?
    ensures Goes(env, f, f', smooth) && f'.db == Then(env, s, e).db && f'.threads == f.threads[t := pc] && !pc.Working?
  {
    pc := Gone;
    match e
    case Submit(a, sent) => f', pc := Submits(env, smooth, f, t, a, sent, s);
    case Cancel(id) => f' := Cancels(env, smooth, f, t, id, s);
    case Replays(id, queue, newId, sent) => f' := ReplaysIt(env, smooth, f, t, id, queue, newId, sent, s);
    case Launch(l, sent) =>
      GoesNowhere(env, f, smooth);
      f' := Does(env, smooth, f, f, Begin(t, Launching(true, l)));
      f' := Launches(env, smooth, f, f', t, l, sent, s);
    case Promote(due, sends) => f' := Promotes(env, smooth, f, t, due, sends, s);
  }

  lemma TimeIsARun(env: Env, smooth: bool, s: World, f: State, e: Event) returns (f': State)
    requires Simulates(s, f) && Occurs(env, s, e) && (e.Pass? || e.Pause?)
    ensures Goes(env, f, f', smooth) && Simulates(Then(env, s, e), f')
  {
    var a := if e.Pass? then Action.Pass(e.now) else Action.Pause(e.queue, e.on);
    f' := Next(f, a);
    GoesOn(env, smooth, f, a);
    assert f'.threads == f.threads && Then(env, s, e).phase == s.phase && Then(env, s, e).db.log == s.db.log;
  }

  /** Every event of the lifecycle is a run of the protocol; one without failures is a run without failures. */
  lemma EventIsARun(env: Env, smooth: bool, s: World, f: State, e: Event) returns (f': State)
    requires smooth ==> Outcomes.Flawless(e)
    requires Simulates(s, f) && Occurs(env, s, e)
    ensures Goes(env, f, f', smooth) && Simulates(Then(env, s, e), f')
  {
    if e.Pass? || e.Pause? {
      f' := TimeIsARun(env, smooth, s, f, e);
    } else {
      var t := FreshTid(f.threads);
      var pc := Gone;
      if e.Start? {
        f', pc := Starts(env, smooth, f, t, e.offset, e.read, s);
      } else if e.End? {
        t :| t in f.threads && f.threads[t] == Working(Run, e.offset, s.db.log[e.offset]);
        f' := FinishesIt(env, smooth, f, t, e.offset, e.outcome, e.sent, s);
      } else {
        f', pc := CallIsARun(env, smooth, s, f, t, e);
      }
      FlightSettles(env, s, f, f', e, t, pc);
    }
  }

  lemma FlightSettles(env: Env, s: World, f: State, f': State, e: Event, t: Tid, pc: Pc)
    requires Simulates(s, f) && Occurs(env, s, e) && f'.db == Then(env, s, e).db && f'.threads == f.threads[t := pc]
    requires e.Start? ==> StartNext(s, e.offset, e.read).phase == s.phase[e.offset := Done]
                          || pc == Working(Run, e.offset, s.db.log[e.offset])
    requires if e.End? then t in f.threads && f.threads[t] == Working(Run, e.offset, s.db.log[e.offset])
             else t !in f.threads
    ensures Simulates(Then(env, s, e), f')
  {
    var s' := Then(env, s, e);
    InFlightAfter(env, s, e, 0);
    forall k: nat
      ensures k < |s'.phase| && s'.phase[k] == InFlight && !(e.Start? && e.offset == k) ==>
                k < |s.phase| && s.phase[k] == InFlight && (e.End? ==> e.offset != k)
    {
      InFlightAfter(env, s, e, k);
    }
    Settles(s, s', f, f', t, pc);
  }

  /**
   Every lifecycle state is reached by some run of the protocol, without failures if the lifecycle had
   none: same tables, a worker for each message in flight.
   */
  lemma {:induction false} RunIsARun(env: Env, smooth: bool, s: World, f: State, run: seq<Event>) returns (f': State)
    requires smooth ==> forall e :: e in run ==> Outcomes.Flawless(e)
    requires Simulates(s, f) && Outcomes.Happens(env, s, run)
    ensures Goes(env, f, f', smooth) && Simulates(Outcomes.Later(env, s, run), f')
    decreases |run|
  {
    if run == [] {
      f' := f;
      GoesNowhere(env, f, smooth);
    } else {
      var mid := EventIsARun(env, smooth, s, f, run[0]);
      f' := RunIsARun(env, smooth, Then(env, s, run[0]), mid, run[1..]);
      GoesThrough(env, smooth, f, mid, f');
    }
  }

  /** So the lifecycle inherits what every protocol run keeps: each message matches its row, and is due. */
  lemma LifecycleInherits(env: Env, start: nat, run: seq<Event>)
    requires Outcomes.Happens(env, Empty(start), run)
    ensures var s := Outcomes.Later(env, Empty(start), run);
            && (exists f :: Reach(env, Init(start), f) && Simulates(s, f))
            && forall i :: 0 <= i < |s.db.log| ==> Agreement.Matches(s.db, s.db.log[i])
  {
    var f := RunIsARun(env, false, Empty(start), Init(start), run);
    GoesReach(env, Init(start), f, false);
    var actions :| ValidRun(env, Init(start), actions) && After(Init(start), actions) == f;
    Agreement.RunKeepsInv(env, Init(start), actions);
    assert Agreement.Inv(f);
  }
}
