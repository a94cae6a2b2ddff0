/**
 The order of promotions. With one promoter whose calls succeed, and with delayed jobs submitted
 before their time, the promoter enqueues over its whole life in order of run time, however its
 steps interleave with the API and the workers.
 */
module PromoterOrder {
  import opened Jobs
  import opened Protocol
  import Agreement

  predicate IsPromoter(pc: Pc) {
    pc.PromoteClock? || pc.PromoteList? || pc.PromoteSend? || pc.PromoteSet?
  }

  /** The assumptions on each action: one promoter, its calls succeed, no job is submitted late. */
  ghost predicate Orderly(s: State, a: Action) {
    && (a.Begin? && IsPromoter(a.entry) ==> forall t :: t in s.threads ==> !IsPromoter(s.threads[t]))
    && (a.Step? && a.tid in s.threads ==>
          var pc := s.threads[a.tid];
          && (IsPromoter(pc) ==> !a.reply.Failure?)
          && (pc.Submitting? && pc.at == Insert && pc.args.runAt > 0 ==> pc.args.runAt > s.db.clock))
  }

  ghost predicate OrderlyRun(env: Env, s: State, run: seq<Action>)
    decreases |run|
  {
    run == [] ||
    (Enabled(env, s, run[0]) && Orderly(s, run[0]) && OrderlyRun(env, Next(s, run[0]), run[1..]))
  }

  predicate Sorted(due: seq<Due>) {
    forall i, j :: 0 <= i < j < |due| ==> due[i].row.runAt <= due[j].row.runAt
  }

  /** Everything in `first` is due no later than time `at`. */
  predicate AllBy(first: seq<Due>, at: int) {
    forall i :: 0 <= i < |first| ==> first[i].row.runAt <= at
  }

  /** No job still waiting is due before what has been promoted. */
  ghost predicate WaitingAfter(rows: map<JobId, Row>, promoted: seq<Due>) {
    forall id :: id in rows && rows[id].status == Scheduled ==>
      rows[id].runAt > 0 && AllBy(promoted, rows[id].runAt)
  }

  /** The rest of the batch is in order, after what was promoted and before everything it does not hold. */
  ghost predicate BatchInOrder(rows: map<JobId, Row>, promoted: seq<Due>, due: seq<Due>) {
    && Sorted(due)
    && (forall i :: 0 <= i < |due| ==> AllBy(promoted, due[i].row.runAt))
    && (forall id :: id in rows && rows[id].status == Scheduled && !IsDue(due, id) ==> AllBy(due, rows[id].runAt))
  }

  ghost predicate PromoterInOrder(s: State, pc: Pc) {
    && (pc.PromoteSend? ==> BatchInOrder(s.db.rows, s.promoted, pc.due))
    && (pc.PromoteSet? ==>
          |pc.due| > 0 && AllBy(s.promoted, pc.due[0].row.runAt) && BatchInOrder(s.db.rows, s.promoted, pc.due))
  }

  ghost predicate OnePromoter(threads: map<Tid, Pc>) {
    forall t, u :: t in threads && u in threads && IsPromoter(threads[t]) && IsPromoter(threads[u]) ==> t == u
  }

  ghost predicate OrderInv(s: State) {
    && Agreement.Inv(s)
    && Sorted(s.promoted) && AllBy(s.promoted, s.db.clock)
    && WaitingAfter(s.db.rows, s.promoted)
    && OnePromoter(s.threads)
    && forall t :: t in s.threads ==> PromoterInOrder(s, s.threads[t])
  }

  lemma ListedInOrder(rows: map<JobId, Row>, promoted: seq<Due>, now: int, due: seq<Due>)
    requires DueListing(rows, now, due) && WaitingAfter(rows, promoted)
    ensures BatchInOrder(rows, promoted, due)
  {
    forall i | 0 <= i < |due| ensures due[i].id in DueKeys(rows, now) && Ids(due)[i] == due[i].id {
      assert Ids(due)[i] in DueKeys(rows, now);
    }
    forall i, j | 0 <= i < j < |due| ensures due[i].row.runAt <= due[j].row.runAt {
      assert DueKeys(rows, now)[Ids(due)[i]] <= DueKeys(rows, now)[Ids(due)[j]];
    }
    forall id | id in rows && rows[id].status == Scheduled && !IsDue(due, id)
      ensures AllBy(due, rows[id].runAt)
    {
      if id in DueKeys(rows, now) {
        assert id !in Ids(due);
        forall i | 0 <= i < |due| ensures due[i].row.runAt <= rows[id].runAt {
          assert DueKeys(rows, now)[Ids(due)[i]] <= DueKeys(rows, now)[id];
        }
      }
    }
  }

  lemma BatchAdvances(db: Tables, promoted: seq<Due>, due: seq<Due>)
    requires |due| > 0 && BatchInOrder(db.rows, promoted, due) && WaitingAfter(db.rows, promoted)
    requires Agreement.Relies(db, PromoteSend(due)) && Sorted(promoted)
    ensures Sorted(promoted + [due[0]])
    ensures WaitingAfter(db.rows, promoted + [due[0]])
    ensures BatchInOrder(db.rows, promoted + [due[0]], due)
  {
    forall id | id in db.rows && db.rows[id].status == Scheduled ensures due[0].row.runAt <= db.rows[id].runAt {
      if IsDue(due, id) {
        var i :| 0 <= i < |due| && due[i].id == id;
        assert Agreement.DueKnown(db, due[i]);
      }
    }
  }

  lemma BatchShrinks(rows: map<JobId, Row>, rows': map<JobId, Row>, promoted: seq<Due>, due: seq<Due>)
    requires |due| > 1 && BatchInOrder(rows, promoted, due)
    requires rows' == WithStatus(rows, due[0].id, Pending, due[0].row.attempt)
    ensures BatchInOrder(rows', promoted, due[1..])
  {
    forall id | id in rows' && rows'[id].status == Scheduled && !IsDue(due[1..], id)
      ensures AllBy(due[1..], rows'[id].runAt)
    {
      forall i | 0 <= i < |due| ensures due[i].id != id {
        if i > 0 {
          assert due[1..][i - 1].id != id;
        }
      }
    }
  }

  /** Rows only leave "scheduled", or are inserted with a time still to come. */
  ghost predicate Fewer(db: Tables, rows': map<JobId, Row>) {
    forall id :: id in rows' && rows'[id].status == Scheduled ==>
      if id in db.rows then rows'[id].runAt == db.rows[id].runAt && db.rows[id].status == Scheduled
      else rows'[id].runAt > 0 && rows'[id].runAt > db.clock
  }

  lemma StepFewer(env: Env, s: State, a: Action)
    requires Enabled(env, s, a) && Orderly(s, a)
    ensures Fewer(s.db, Next(s, a).db.rows)
  {
  }

  lemma WaitingSurvives(db: Tables, rows': map<JobId, Row>, promoted: seq<Due>)
    requires WaitingAfter(db.rows, promoted) && AllBy(promoted, db.clock) && Fewer(db, rows')
    ensures WaitingAfter(rows', promoted)
  {
  }

  lemma BatchSurvives(db: Tables, rows': map<JobId, Row>, promoted: seq<Due>, due: seq<Due>)
    requires BatchInOrder(db.rows, promoted, due) && AllBy(due, db.clock) && Fewer(db, rows')
    ensures BatchInOrder(rows', promoted, due)
  {
  }

  lemma KnownByClock(db: Tables, due: seq<Due>)
    requires Agreement.Relies(db, PromoteSend(due))
    ensures AllBy(due, db.clock)
  {
    forall i | 0 <= i < |due| ensures due[i].row.runAt <= db.clock {
      assert Agreement.DueKnown(db, due[i]);
    }
  }

  lemma PromoterStep(env: Env, s: State, t: Tid, reply: Reply)
    requires OrderInv(s) && t in s.threads && IsPromoter(s.threads[t])
    requires Possible(env, s.db, CallOf(s.threads[t]), reply) && !reply.Failure?
    ensures var s' := Next(s, Step(t, reply));
            && Sorted(s'.promoted) && AllBy(s'.promoted, s'.db.clock)
            && WaitingAfter(s'.db.rows, s'.promoted) && PromoterInOrder(s', s'.threads[t])
  {
    var pc := s.threads[t];
    var s' := Next(s, Step(t, reply));
    assert Agreement.Relies(s.db, pc);
    match pc
    case PromoteClock =>
    case PromoteList(now) => ListedInOrder(s.db.rows, s.promoted, now, reply.due);
    case PromoteSend(due) =>
      BatchAdvances(s.db, s.promoted, due);
      KnownByClock(s.db, due);
    case PromoteSet(due) => PromoterSets(env, s, t, reply, due);
  }

  lemma PromoterSets(env: Env, s: State, t: Tid, reply: Reply, due: seq<Due>)
    requires OrderInv(s) && t in s.threads && s.threads[t] == PromoteSet(due)
    requires Possible(env, s.db, CallOf(s.threads[t]), reply) && !reply.Failure?
    ensures var s' := Next(s, Step(t, reply));
            && s'.promoted == s.promoted && s'.db.clock == s.db.clock
            && WaitingAfter(s'.db.rows, s.promoted) && PromoterInOrder(s', s'.threads[t])
  {
    var s' := Next(s, Step(t, reply));
    assert PromoterInOrder(s, s.threads[t]);
    assert s'.db.rows == WithStatus(s.db.rows, due[0].id, Pending, due[0].row.attempt);
    WaitingSurvives(s.db, s'.db.rows, s.promoted);
    if |due| > 1 {
      BatchShrinks(s.db.rows, s'.db.rows, s.promoted, due);
    }
  }

  lemma OtherTables(env: Env, s: State, a: Action)
    requires OrderInv(s) && Enabled(env, s, a) && Orderly(s, a)
    requires a.Step? ==> !IsPromoter(s.threads[a.tid])
    ensures Next(s, a).promoted == s.promoted && Fewer(s.db, Next(s, a).db.rows)
    ensures WaitingAfter(Next(s, a).db.rows, s.promoted) && AllBy(s.promoted, Next(s, a).db.clock)
  {
    StepFewer(env, s, a);
    WaitingSurvives(s.db, Next(s, a).db.rows, s.promoted);
  }

  lemma OtherStep(env: Env, s: State, a: Action, t: Tid)
    requires OrderInv(s) && Enabled(env, s, a) && Orderly(s, a)
    requires a.Step? ==> !IsPromoter(s.threads[a.tid])
    requires t in Next(s, a).threads
    ensures PromoterInOrder(Next(s, a), Next(s, a).threads[t])
  {
    OtherTables(env, s, a);
    OtherThreads(env, s, a, t);
    var s' := Next(s, a);
    var pc' := s'.threads[t];
    if pc'.PromoteSend? || pc'.PromoteSet? {
      BatchKept(s, s', t);
    }
  }

  /** No other step puts a thread in the middle of a batch. */
  lemma OtherThreads(env: Env, s: State, a: Action, t: Tid)
    requires Enabled(env, s, a) && (a.Step? ==> !IsPromoter(s.threads[a.tid])) && t in Next(s, a).threads
    ensures var pc' := Next(s, a).threads[t];
            pc'.PromoteSend? || pc'.PromoteSet? ==> t in s.threads && s.threads[t] == pc'
  {
  }

  lemma BatchKept(s: State, s': State, t: Tid)
    requires OrderInv(s) && t in s.threads && (s.threads[t].PromoteSend? || s.threads[t].PromoteSet?)
    requires Fewer(s.db, s'.db.rows) && s'.promoted == s.promoted
    ensures PromoterInOrder(s', s.threads[t])
  {
    var pc := s.threads[t];
    assert Agreement.Relies(s.db, pc) && PromoterInOrder(s, pc);
    KnownByClock(s.db, pc.due);
    BatchSurvives(s.db, s'.db.rows, s.promoted, pc.due);
  }

  lemma StepKeepsOnePromoter(env: Env, s: State, a: Action)
    requires OnePromoter(s.threads) && Enabled(env, s, a) && Orderly(s, a)
    ensures OnePromoter(Next(s, a).threads)
  {
    forall t | t in Next(s, a).threads && IsPromoter(Next(s, a).threads[t])
      ensures (t in s.threads && IsPromoter(s.threads[t]))
              || (a.Begin? && a.tid == t && forall u :: u in s.threads ==> !IsPromoter(s.threads[u]))
    {
      PromoterBefore(env, s, a, t);
    }
  }

  /** A thread is a promoter from its beginning or not at all. */
  lemma PromoterBefore(env: Env, s: State, a: Action, t: Tid)
    requires Enabled(env, s, a) && t in Next(s, a).threads && IsPromoter(Next(s, a).threads[t])
    ensures (t in s.threads && IsPromoter(s.threads[t])) || (a.Begin? && a.tid == t && IsPromoter(a.entry))
  {
  }

  lemma ThreadsInOrder(env: Env, s: State, a: Action, t: Tid)
    requires OrderInv(s) && Enabled(env, s, a) && Orderly(s, a) && t in Next(s, a).threads
    ensures PromoterInOrder(Next(s, a), Next(s, a).threads[t])
  {
    if a.Step? && IsPromoter(s.threads[a.tid]) {
      PromoterStep(env, s, a.tid, a.reply);
    } else {
      OtherStep(env, s, a, t);
    }
  }

  lemma StepKeepsOrder(env: Env, s: State, a: Action)
    requires OrderInv(s) && Enabled(env, s, a) && Orderly(s, a)
    ensures OrderInv(Next(s, a))
  {
    var s' := Next(s, a);
    Agreement.StepKeepsInv(env, s, a);
    StepKeepsOnePromoter(env, s, a);
    if a.Step? && IsPromoter(s.threads[a.tid]) {
      PromoterStep(env, s, a.tid, a.reply);
    } else {
      OtherTables(env, s, a);
    }
    forall t | t in s'.threads ensures PromoterInOrder(s', s'.threads[t]) {
      ThreadsInOrder(env, s, a, t);
    }
  }

  lemma {:induction false} RunKeepsOrder(env: Env, s: State, run: seq<Action>)
    requires OrderInv(s) && OrderlyRun(env, s, run)
    ensures OrderInv(After(s, run))
    decreases |run|
  {
    if run != [] {
      StepKeepsOrder(env, s, run[0]);
      RunKeepsOrder(env, Next(s, run[0]), run[1..]);
    }
  }

  /** Over the whole run, what the promoter enqueued is sorted by run time. */
  lemma PromotionsAreSorted(env: Env, start: nat, run: seq<Action>)
    requires OrderlyRun(env, Init(start), run)
    ensures var promoted := After(Init(start), run).promoted;
            forall i, j :: 0 <= i < j < |promoted| ==> promoted[i].row.runAt <= promoted[j].row.runAt
  {
    RunKeepsOrder(env, Init(start), run);
  }
}
