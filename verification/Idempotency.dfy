/**
 Idempotent submission under races: Submit's lookup, insert, clock read and enqueue interleave with
 any other steps, and any of them may fail.
 */
module Idempotency {
  import opened Jobs
  import opened Protocol
  import opened Agreement

  ghost predicate UniqueKeys(rows: map<JobId, Row>) {
    forall id, other :: id in rows && other in rows && id != other ==>
      !SameKey(rows[other], rows[id].typ, rows[id].queue, rows[id].key)
  }

  /** The row is one that this submission would create or find. */
  ghost predicate Belongs(rows: map<JobId, Row>, id: JobId, a: SubmitArgs) {
    id in rows && rows[id].typ == a.typ && rows[id].queue == a.queue && rows[id].key == a.key
  }

  ghost predicate Knows(rows: map<JobId, Row>, pc: Pc) {
    match pc
    case Submitting(at, a) => at in {Decide, Publish} ==> Belongs(rows, a.newId, a)
    case Submitted(a, result) => result.Some? ==> Belongs(rows, result.value, a)
    case _ => true
  }

  ghost predicate KeyInv(s: State) {
    && UniqueKeys(s.db.rows)
    && forall t :: t in s.threads ==> Knows(s.db.rows, s.threads[t])
  }

  lemma StepKeepsUniqueKeys(env: Env, s: State, a: Action)
    requires UniqueKeys(s.db.rows) && Enabled(env, s, a)
    ensures UniqueKeys(Next(s, a).db.rows)
  {
  }

  lemma StepKeepsKnowledge(env: Env, s: State, a: Action, t: Tid)
    requires KeyInv(s) && Enabled(env, s, a) && t in Next(s, a).threads
    ensures Knows(Next(s, a).db.rows, Next(s, a).threads[t])
  {
    StepGrows(env, s, a);
    if t in s.threads {
      assert Knows(s.db.rows, s.threads[t]);
      if a.Step? && a.tid == t {
        ReplyKnows(env, s.db, s.threads[t], a.reply);
      } else {
        assert Next(s, a).threads[t] == s.threads[t];
      }
    }
  }

  lemma ReplyKnows(env: Env, db: Tables, pc: Pc, reply: Reply)
    requires Knows(db.rows, pc) && Possible(env, db, CallOf(pc), reply)
    ensures Knows(Apply(db, CallOf(pc), reply).rows, Resume(pc, reply))
  {
  }

  lemma {:induction false} RunKeepsKeyInv(env: Env, s: State, run: seq<Action>)
    requires KeyInv(s) && ValidRun(env, s, run)
    ensures KeyInv(After(s, run))
    decreases |run|
  {
    if run != [] {
      var s' := Next(s, run[0]);
      StepKeepsUniqueKeys(env, s, run[0]);
      forall t | t in s'.threads ensures Knows(s'.db.rows, s'.threads[t]) {
        StepKeepsKnowledge(env, s, run[0], t);
      }
      RunKeepsKeyInv(env, s', run[1..]);
    }
  }

  /** At most one row per (type, queue, non-empty key). */
  lemma OneRowPerKey(env: Env, start: nat, run: seq<Action>, id: JobId, other: JobId)
    requires ValidRun(env, Init(start), run)
    requires var rows := After(Init(start), run).db.rows;
             && id in rows && other in rows && rows[id].key != ""
             && (rows[id].typ, rows[id].queue, rows[id].key) == (rows[other].typ, rows[other].queue, rows[other].key)
    ensures id == other
  {
    RunKeepsKeyInv(env, Init(start), run);
  }

  /** Any two successful submissions with the same type, queue and key return the same job id. */
  lemma SameKeySameJob(env: Env, start: nat, run: seq<Action>, t: Tid, u: Tid)
    requires ValidRun(env, Init(start), run)
    requires var threads := After(Init(start), run).threads;
             && t in threads && threads[t].Submitted? && threads[t].result.Some?
             && u in threads && threads[u].Submitted? && threads[u].result.Some?
             && threads[t].args.typ == threads[u].args.typ
             && threads[t].args.queue == threads[u].args.queue
             && threads[t].args.key == threads[u].args.key != ""
    ensures var threads := After(Init(start), run).threads; threads[t].result == threads[u].result
  {
    RunKeepsKeyInv(env, Init(start), run);
    var s := After(Init(start), run);
    assert Knows(s.db.rows, s.threads[t]) && Knows(s.db.rows, s.threads[u]);
  }
}
