/**
 What interleaving does to final statuses, in the fine-grained protocol. The worker, the promoter
 and CancelJob all read a status first and write unconditionally later, so a final status can be
 overwritten. Here is exactly when a cancellation is final; `Completion` has the same of completions.
 */
module Finality {
  import opened Jobs
  import opened Protocol

  /** The thread read the job's status before, and may still write another one. */
  ghost predicate Stale(pc: Pc, id: JobId) {
    match pc
    case Working(at, _, m) => m.id == id && at !in {PauseCheck, Read, Retry}
    case PromoteSend(due) => IsDue(due, id)
    case PromoteSet(due) => IsDue(due, id)
    case _ => false
  }

  ghost predicate FinallyCancelled(s: State, id: JobId) {
    && id in s.db.rows && s.db.rows[id].status == Cancelled
    && forall t :: t in s.threads ==> !Stale(s.threads[t], id)
  }

  lemma ResumeNotStale(env: Env, s: State, id: JobId, pc: Pc, reply: Reply)
    requires id in s.db.rows && s.db.rows[id].status == Cancelled
    requires !Stale(pc, id) && Possible(env, s.db, CallOf(pc), reply)
    ensures !Stale(Resume(pc, reply), id)
  {
    if pc.PromoteList? && reply.Listed? {
      NotListed(s.db.rows, pc.now, reply.due, id);
    } else if (pc.PromoteSend? || pc.PromoteSet?) && |pc.due| > 1 {
      NotInRest(pc.due, id);
    }
  }

  lemma StepKeepsCancelled(env: Env, s: State, a: Action, id: JobId)
    requires FinallyCancelled(s, id) && Enabled(env, s, a)
    ensures FinallyCancelled(Next(s, a), id)
  {
    var s' := Next(s, a);
    if a.Step? {
      var pc := s.threads[a.tid];
      ResumeNotStale(env, s, id, pc, a.reply);
      assert pc.PromoteSet? && pc.due != [] ==> pc.due[0].id != id;
    }
    forall t | t in s'.threads ensures !Stale(s'.threads[t], id) {
      if t in s.threads {
        assert !Stale(s.threads[t], id);
      }
    }
  }

  lemma {:induction false} RunKeepsCancelled(env: Env, s: State, run: seq<Action>, id: JobId)
    requires FinallyCancelled(s, id) && ValidRun(env, s, run)
    ensures FinallyCancelled(After(s, run), id)
    decreases |run|
  {
    if run != [] {
      StepKeepsCancelled(env, s, run[0], id);
      RunKeepsCancelled(env, Next(s, run[0]), run[1..], id);
    }
  }

  lemma WorkerOverwrites(env: Env, s: State, id: JobId, t: Tid) returns (s': State)
    requires id in s.db.rows && s.db.rows[id].status == Cancelled
    requires t in s.threads && s.threads[t].Working? && Stale(s.threads[t], id)
    ensures Reach(env, s, s') && id in s'.db.rows && s'.db.rows[id].status != Cancelled
  {
    var pc := s.threads[t];
    ReachSelf(env, s);
    if pc.work == Run {
      var outcome := if pc.msg.typ == EMAIL then (if env.validEmail(pc.msg.payload) then Succeeds else Fails)
                     else if pc.msg.typ in env.handlers then Fails else Unhandled;
      var mid := Do(env, s, s, Step(t, Outcome(outcome)));
      s' := Do(env, s, mid, Step(t, Ok));
    } else {
      s' := Do(env, s, s, Step(t, Ok));
    }
  }

  lemma {:induction false} PromoterOverwrites(env: Env, s: State, id: JobId, t: Tid) returns (s': State)
    requires id in s.db.rows && s.db.rows[id].status == Cancelled
    requires t in s.threads && (s.threads[t].PromoteSend? || s.threads[t].PromoteSet?) && Stale(s.threads[t], id)
    ensures Reach(env, s, s') && id in s'.db.rows && s'.db.rows[id].status != Cancelled
    decreases |s.threads[t].due|, s.threads[t].PromoteSend?
  {
    var pc := s.threads[t];
    var i :| 0 <= i < |pc.due| && pc.due[i].id == id;
    ReachSelf(env, s);
    var mid := Do(env, s, s, Step(t, Ok));
    if pc.PromoteSet? && pc.due[0].id == id {
      s' := mid;
    } else {
      if pc.PromoteSet? {
        assert pc.due[1..][i - 1].id == id;
      }
      s' := PromoterOverwrites(env, mid, id, t);
      ReachTransitive(env, s, mid, s');
    }
  }

  /** A cancelled job stays cancelled in every future exactly if no thread holds an older reading of it. */
  lemma CancellationIsFinalExactlyWhen(env: Env, s: State, id: JobId)
    requires id in s.db.rows && s.db.rows[id].status == Cancelled
    ensures (forall s' :: Reach(env, s, s') ==> id in s'.db.rows && s'.db.rows[id].status == Cancelled)
            <==> (forall t :: t in s.threads ==> !Stale(s.threads[t], id))
  {
    if t :| t in s.threads && Stale(s.threads[t], id) {
      if s.threads[t].Working? {
        var s' := WorkerOverwrites(env, s, id, t);
      } else {
        var s' := PromoterOverwrites(env, s, id, t);
      }
    } else {
      forall s' | Reach(env, s, s') ensures id in s'.db.rows && s'.db.rows[id].status == Cancelled {
        var run :| ValidRun(env, s, run) && After(s, run) == s';
        RunKeepsCancelled(env, s, run, id);
      }
    }
  }
}
