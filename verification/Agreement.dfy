/**
 Message-row agreement and delayed jobs, in the fine-grained protocol: with failing writes, with
 any message delivered any number of times and with any number of threads of every kind.
 */
module Agreement {
  import opened Jobs
  import opened Protocol

  /** What no write ever changes of a row. */
  predicate SameJob(row: Row, row': Row) {
    row' == row.(status := row'.status, attempt := row'.attempt)
  }

  ghost predicate Extends(rows: map<JobId, Row>, rows': map<JobId, Row>) {
    forall id :: id in rows ==> id in rows' && SameJob(rows[id], rows'[id])
  }

  /** The message refers to a row of the same job, and that job is due. */
  ghost predicate Matches(db: Tables, m: Message) {
    && m.id in db.rows
    && Agrees(db.rows[m.id], m)
    && db.rows[m.id].runAt <= db.clock
  }

  ghost predicate DueKnown(db: Tables, d: Due) {
    && d.id in db.rows
    && SameJob(d.row, db.rows[d.id])
    && d.row.runAt <= db.clock
  }

  /** What each thread may rely on, whatever the others do. */
  ghost predicate Relies(db: Tables, pc: Pc) {
    match pc
    case Submitting(Decide, a) => a.newId in db.rows && SameJob(NewRow(a), db.rows[a.newId])
    case Submitting(Publish, a) => Matches(db, SubmitMessage(a))
    case Launching(insert, l) => !insert ==> Matches(db, LaunchMessage(l))
    case PromoteList(now) => now <= db.clock
    case PromoteSend(due) => forall i :: 0 <= i < |due| ==> DueKnown(db, due[i])
    case PromoteSet(due) => forall i :: 0 <= i < |due| ==> DueKnown(db, due[i])
    case Working(_, k, m) => k < |db.log| && db.log[k] == m
    case _ => true
  }

  ghost predicate Inv(s: State) {
    && 0 <= s.db.clock
    && (forall i :: 0 <= i < |s.db.log| ==> Matches(s.db, s.db.log[i]))
    && (forall t :: t in s.threads ==> Relies(s.db, s.threads[t]))
  }

  ghost predicate Grows(db: Tables, db': Tables) {
    Extends(db.rows, db'.rows) && db.log <= db'.log && db.clock <= db'.clock
  }

  lemma StepGrows(env: Env, s: State, a: Action)
    requires Enabled(env, s, a)
    ensures Grows(s.db, Next(s, a).db)
  {
  }

  lemma RelianceSurvives(db: Tables, db': Tables, pc: Pc)
    requires Grows(db, db') && Relies(db, pc)
    ensures Relies(db', pc)
  {
  }

  /** The message a thread is about to send matches its row. */
  lemma SentMatches(db: Tables, pc: Pc)
    requires Relies(db, pc) && CallOf(pc).Send?
    requires forall i :: 0 <= i < |db.log| ==> Matches(db, db.log[i])
    ensures Matches(db, CallOf(pc).message)
  {
    if pc.PromoteSend? {
      assert DueKnown(db, pc.due[0]);
    }
  }

  /** After its call, the thread may rely on what its next place says. */
  lemma ReplyEstablishes(env: Env, db: Tables, pc: Pc, reply: Reply)
    requires 0 <= db.clock && Relies(db, pc) && Possible(env, db, CallOf(pc), reply)
    ensures Relies(Apply(db, CallOf(pc), reply), Resume(pc, reply))
  {
    var db' := Apply(db, CallOf(pc), reply);
    if pc.PromoteList? && reply.Listed? {
      forall i | 0 <= i < |reply.due| ensures DueKnown(db', reply.due[i]) {
        assert Ids(reply.due)[i] == reply.due[i].id;
      }
    }
  }

  lemma StepKeepsInv(env: Env, s: State, a: Action)
    requires Inv(s) && Enabled(env, s, a)
    ensures Inv(Next(s, a))
  {
    var s' := Next(s, a);
    StepGrows(env, s, a);
    if a.Step? {
      var pc := s.threads[a.tid];
      ReplyEstablishes(env, s.db, pc, a.reply);
      if CallOf(pc).Send? {
        SentMatches(s.db, pc);
      }
    }
    forall t | t in s'.threads ensures Relies(s'.db, s'.threads[t]) {
      if t in s.threads {
        RelianceSurvives(s.db, s'.db, s.threads[t]);
      }
    }
    forall i | 0 <= i < |s'.db.log| ensures Matches(s'.db, s'.db.log[i]) {
      if i < |s.db.log| {
        assert Matches(s.db, s.db.log[i]);
      }
    }
  }

  lemma {:induction false} RunKeepsInv(env: Env, s: State, run: seq<Action>)
    requires Inv(s) && ValidRun(env, s, run)
    ensures Inv(After(s, run)) && Grows(s.db, After(s, run).db)
    decreases |run|
  {
    if run != [] {
      StepKeepsInv(env, s, run[0]);
      StepGrows(env, s, run[0]);
      RunKeepsInv(env, Next(s, run[0]), run[1..]);
    }
  }

  /**
   Every message that was ever written, first sends, promotions, replays and worker retries alike,
   refers to a row that still exists, has its type, payload, queue and priority, and was due.
   */
  lemma EveryMessageMatchesItsRow(env: Env, start: nat, run: seq<Action>)
    requires ValidRun(env, Init(start), run)
    ensures var db := After(Init(start), run).db;
            forall i :: 0 <= i < |db.log| ==> Matches(db, db.log[i])
  {
    RunKeepsInv(env, Init(start), run);
  }

  /** No handler, and no step of the worker at all, runs for a job before its time. */
  lemma NoEarlyStart(env: Env, start: nat, run: seq<Action>, t: Tid)
    requires ValidRun(env, Init(start), run)
    ensures var s := After(Init(start), run);
            t in s.threads && s.threads[t].Working? ==>
              var id := s.threads[t].msg.id;
              id in s.db.rows && s.db.rows[id].runAt <= s.db.clock
  {
    RunKeepsInv(env, Init(start), run);
    var s := After(Init(start), run);
    if t in s.threads && s.threads[t].Working? {
      assert Relies(s.db, s.threads[t]);
      assert Matches(s.db, s.db.log[s.threads[t].offset]);
    }
  }

  /** Rows are never deleted, and no run ever brings a row back to "scheduled". */
  lemma {:induction false} NeverScheduledAgain(env: Env, s: State, run: seq<Action>, id: JobId)
    requires ValidRun(env, s, run)
    requires id in s.db.rows && s.db.rows[id].status != Scheduled
    ensures id in After(s, run).db.rows && After(s, run).db.rows[id].status != Scheduled
    ensures SameJob(s.db.rows[id], After(s, run).db.rows[id])
    decreases |run|
  {
    if run != [] {
      StepGrows(env, s, run[0]);
      NeverScheduledAgain(env, Next(s, run[0]), run[1..], id);
    }
  }
}
