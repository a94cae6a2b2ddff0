/**
 The failure history behind every attempt, in the fine-grained protocol and under redelivery. It
 holds for every retry limit below the largest int32; at that limit the attempt number wraps.
 */
module Lineage {
  import opened Jobs
  import opened Protocol

  /** The message came from the failed processing of message j: the same job, one attempt before. */
  ghost predicate Follows(s: State, j: nat, m: Message) {
    && j < |s.db.log|
    && j in s.failures
    && var before := s.db.log[j];
       && (before.id, before.typ, before.payload) == (m.id, m.typ, m.payload)
       && Inc(before.attempt) == m.attempt
       && MaxRetryOf(before) == MaxRetryOf(m)
  }

  ghost predicate Descends(s: State, m: Message, before: nat) {
    && (MaxRetryOf(m) < MAX_INT32 ==> 0 <= m.attempt <= Max0(MaxRetryOf(m)))
    && (m.attempt != 0 ==> exists j: nat :: j < before && Follows(s, j, m))
  }

  /** A failed e-mail has a payload that does not pass the check. */
  ghost predicate FailuresExplained(env: Env, s: State) {
    forall k :: k in s.failures ==>
      k < |s.db.log| && (s.db.log[k].typ == EMAIL ==> !env.validEmail(s.db.log[k].payload))
  }

  ghost predicate Relies(s: State, pc: Pc) {
    pc.Working? ==>
      && pc.offset < |s.db.log| && s.db.log[pc.offset] == pc.msg
      && (pc.work in {Fail, Retry, Archive} ==> pc.offset in s.failures)
      && (pc.work == Retry ==> Retries(pc.msg, Inc(pc.msg.attempt)))
      && (pc.work == Archive ==> !Retries(pc.msg, Inc(pc.msg.attempt)))
  }

  ghost predicate Inv(env: Env, s: State) {
    && FailuresExplained(env, s)
    && (forall i :: 0 <= i < |s.db.log| ==> Descends(s, s.db.log[i], i))
    && (forall t :: t in s.threads ==> Relies(s, s.threads[t]))
  }

  /** A message that is about to be sent either starts at attempt 0 or continues a failed one. */
  lemma SentDescends(env: Env, s: State, pc: Pc)
    requires Inv(env, s) && Relies(s, pc) && CallOf(pc).Send?
    ensures Descends(s, CallOf(pc).message, |s.db.log|)
  {
    if pc.Working? {
      var m := CallOf(pc).message;
      assert Descends(s, pc.msg, pc.offset);
      assert MaxRetryOf(pc.msg) == MaxRetryOf(m);
      assert Follows(s, pc.offset, m);
    }
  }

  lemma DescentSurvives(s: State, s': State, m: Message, before: nat)
    requires Descends(s, m, before)
    requires s.db.log <= s'.db.log && s.failures <= s'.failures
    ensures Descends(s', m, before)
  {
    if m.attempt != 0 {
      var j: nat :| j < before && Follows(s, j, m);
      assert Follows(s', j, m);
    }
  }

  lemma StepMonotone(env: Env, s: State, a: Action)
    requires Enabled(env, s, a)
    ensures s.db.log <= Next(s, a).db.log && s.failures <= Next(s, a).failures
    ensures |Next(s, a).db.log| > |s.db.log| ==>
              && a.Step? && CallOf(s.threads[a.tid]).Send?
              && Next(s, a).db.log == s.db.log + [CallOf(s.threads[a.tid]).message]
  {
  }

  lemma StepKeepsReliance(env: Env, s: State, a: Action, t: Tid)
    requires Enabled(env, s, a) && t in Next(s, a).threads
    requires t in s.threads ==> Relies(s, s.threads[t])
    ensures Relies(Next(s, a), Next(s, a).threads[t])
  {
    StepMonotone(env, s, a);
  }

  lemma StepExplainsFailures(env: Env, s: State, a: Action)
    requires Inv(env, s) && Enabled(env, s, a)
    ensures FailuresExplained(env, Next(s, a))
  {
    StepMonotone(env, s, a);
    if a.Step? {
      assert Relies(s, s.threads[a.tid]);
    }
  }

  lemma StepKeepsInv(env: Env, s: State, a: Action)
    requires Inv(env, s) && Enabled(env, s, a)
    ensures Inv(env, Next(s, a))
  {
    var s' := Next(s, a);
    StepMonotone(env, s, a);
    StepExplainsFailures(env, s, a);
    forall i | 0 <= i < |s'.db.log| ensures Descends(s', s'.db.log[i], i) {
      if i < |s.db.log| {
        assert Descends(s, s.db.log[i], i);
      } else {
        SentDescends(env, s, s.threads[a.tid]);
      }
      DescentSurvives(s, s', s'.db.log[i], i);
    }
    forall t | t in s'.threads ensures Relies(s', s'.threads[t]) {
      StepKeepsReliance(env, s, a, t);
    }
  }

  lemma {:induction false} RunKeepsInv(env: Env, s: State, run: seq<Action>)
    requires Inv(env, s) && ValidRun(env, s, run)
    ensures Inv(env, After(s, run))
    decreases |run|
  {
    if run != [] {
      StepKeepsInv(env, s, run[0]);
      RunKeepsInv(env, Next(s, run[0]), run[1..]);
    }
  }

  /** One failed message of the job at each of the attempts 0, 1, ..., in log order, so all distinct. */
  ghost predicate FailureChain(s: State, id: JobId, chain: seq<nat>) {
    && (forall n :: 0 <= n < |chain| ==>
          && chain[n] < |s.db.log| && chain[n] in s.failures
          && s.db.log[chain[n]].id == id && s.db.log[chain[n]].attempt == n)
    && (forall n, n' :: 0 <= n < n' < |chain| ==> chain[n] < chain[n'])
  }

  lemma {:induction false} ChainTo(env: Env, s: State, i: nat) returns (chain: seq<nat>)
    requires Inv(env, s) && i < |s.db.log| && MaxRetryOf(s.db.log[i]) < MAX_INT32
    ensures FailureChain(s, s.db.log[i].id, chain) && |chain| == s.db.log[i].attempt
    ensures forall n :: 0 <= n < |chain| ==> chain[n] < i
    decreases i
  {
    var m := s.db.log[i];
    assert Descends(s, m, i);
    if m.attempt == 0 {
      chain := [];
    } else {
      var j: nat :| j < i && Follows(s, j, m);
      chain := ChainTo(env, s, j);
      chain := chain + [j];
    }
  }

  /** A message at attempt a has a failed message of its job behind it for each attempt below a, and a <= max(0, R). */
  lemma EveryAttemptWasEarned(env: Env, start: nat, run: seq<Action>, i: nat)
    requires ValidRun(env, Init(start), run)
    requires i < |After(Init(start), run).db.log|
    requires MaxRetryOf(After(Init(start), run).db.log[i]) < MAX_INT32
    ensures var s := After(Init(start), run);
            var m := s.db.log[i];
            && 0 <= m.attempt <= Max0(MaxRetryOf(m))
            && exists chain :: FailureChain(s, m.id, chain) && |chain| == m.attempt
  {
    RunKeepsInv(env, Init(start), run);
    var s := After(Init(start), run);
    assert Descends(s, s.db.log[i], i);
    var chain := ChainTo(env, s, i);
  }

  /**
   When the worker writes "archived", it writes attempt max(0, R) + 1, and that many messages of
   the job, one at each attempt from 0 to max(0, R), have been processed and failed.
   */
  lemma ArchivedOnlyAfterAllAttemptsFailed(env: Env, start: nat, run: seq<Action>, t: Tid)
    requires ValidRun(env, Init(start), run)
    requires var s := After(Init(start), run);
             && t in s.threads && s.threads[t].Working? && s.threads[t].work == Archive
             && MaxRetryOf(s.threads[t].msg) < MAX_INT32
    ensures var s := After(Init(start), run);
            var m := s.threads[t].msg;
            var tries := Max0(MaxRetryOf(m)) + 1;
            && CallOf(s.threads[t]) == SetStatus(m.id, Archived, tries)
            && exists chain :: FailureChain(s, m.id, chain) && |chain| == tries
  {
    RunKeepsInv(env, Init(start), run);
    var s := After(Init(start), run);
    assert Relies(s, s.threads[t]);
    var k, m := s.threads[t].offset, s.threads[t].msg;
    assert Descends(s, m, k);
    var chain := ChainTo(env, s, k);
    assert FailureChain(s, m.id, chain + [k]);
  }

  /** An e-mail message past its first attempt carries a payload that fails the check, so it never completes. */
  lemma RetriedEmailNeverCompletes(env: Env, start: nat, run: seq<Action>, i: nat, outcome: Outcome)
    requires ValidRun(env, Init(start), run)
    requires var log := After(Init(start), run).db.log;
             i < |log| && log[i].typ == EMAIL && log[i].attempt != 0 && OutcomePossible(env, log[i], outcome)
    ensures outcome == Fails && !env.validEmail(After(Init(start), run).db.log[i].payload)
  {
    RunKeepsInv(env, Init(start), run);
    var s := After(Init(start), run);
    assert Descends(s, s.db.log[i], i);
  }
}
