/** Whole promoter ticks: the retry limit they impose, and the one submission that they spoil. */
module PromoterTicks {
  import opened Jobs
  import opened Query
  import opened Protocol
  import opened Lifecycle
  import opened Outcomes

  /** The effect of a tick on one job: promoted if listed and sent, untouched otherwise. */
  lemma {:induction false} TickOnRow(s: World, due: seq<Due>, sends: set<JobId>, id: JobId)
    requires AllDue(s, due) && id in s.db.rows
    ensures var s' := PromoteNextAll(s, due, sends);
            && id in s'.db.rows
            && s'.db.rows[id] == (if id in Ids(due) && id in sends then s.db.rows[id].(status := Pending)
                                  else s.db.rows[id])
    decreases |due|
  {
    if due != [] {
      var s' := if due[0].id in sends then PromoteOne(s, due[0]) else s;
      TickOnRow(s', due[1..], sends, id);
      assert Ids(due) == [due[0].id] + Ids(due[1..]);
      if id == due[0].id {
        assert id !in Ids(due[1..]);
      }
    }
  }

  lemma {:induction false} TickSends(s: World, due: seq<Due>, sends: set<JobId>, i: nat) returns (k: nat)
    requires AllDue(s, due) && |s.phase| == |s.db.log| && i < |due| && due[i].id in sends
    ensures |s.db.log| <= k && Carries(PromoteNextAll(s, due, sends), k, due[i].id)
    decreases |due|
  {
    var s' := if due[0].id in sends then PromoteOne(s, due[0]) else s;
    if i == 0 {
      PromoteShape(s', due[1..], sends);
      k := |s.db.log|;
    } else {
      k := TickSends(s', due[1..], sends, i - 1);
    }
  }

  // ----- What a tick leaves -----

  lemma TickKeys(s: World, now: int, due: seq<Due>, sends: set<JobId>)
    requires AllDue(s, due) && forall i :: 0 <= i < |due| ==> due[i].id in sends
    ensures DueKeys(PromoteNextAll(s, due, sends).db.rows, now).Keys
            == DueKeys(s.db.rows, now).Keys - set id | id in Ids(due)
  {
    var s' := PromoteNextAll(s, due, sends);
    forall id ensures id in DueKeys(s'.db.rows, now) <==> id in DueKeys(s.db.rows, now) && id !in Ids(due) {
      if id in Ids(due) {
        var i :| 0 <= i < |Ids(due)| && Ids(due)[i] == id;
        assert due[i].id in sends;
      }
      if id in s.db.rows {
        TickOnRow(s, due, sends, id);
      } else {
        PromoteProceeds(s, due, sends, id);
      }
    }
  }

  // ----- The promoter's own retry limit -----

  lemma {:induction false} PromotedBudget(s: World, due: seq<Due>, sends: set<JobId>, i: nat)
    requires AllDue(s, due) && i < |due| && due[i].id in sends
    ensures var s', id := PromoteNextAll(s, due, sends), due[i].id;
            id in s'.db.rows && s'.db.rows[id].status == Pending && id in s'.budget && s'.budget[id] == 2
    decreases |due|
  {
    var s' := if due[0].id in sends then PromoteOne(s, due[0]) else s;
    if i == 0 {
      PromoteBudget(s', due[1..], sends, due[0].id);
      PromoteProceeds(s', due[1..], sends, due[0].id);
    } else {
      PromotedBudget(s', due[1..], sends, i - 1);
    }
  }

  /** A promoted job ends by the retry limit 2, whatever limit it was submitted with. */
  lemma PromotedJobEndsByTwo(env: Env, s: World, due: seq<Due>, sends: set<JobId>, i: nat, run: seq<Event>)
    requires Inv(env, s) && DueListing(s.db.rows, s.db.clock, due) && i < |due| && due[i].id in sends
    requires Happens(env, PromoteNextAll(s, due, sends), run)
    ensures var s', id := Later(env, PromoteNextAll(s, due, sends), run), due[i].id;
            && id in s'.db.rows && id in s'.tried
            && var row, results := s'.db.rows[id], s'.tried[id];
               && |results| <= 3
               && (row.status == Completed ==> FirstSuccess(results, row.attempt) && row.attempt <= 2)
               && (row.status == Archived ==> AllFailed(results) && |results| == row.attempt == 3)
  {
    var s1, id := PromoteNextAll(s, due, sends), due[i].id;
    ListedAllDue(s, s.db.clock, due);
    PromoteKeeps(env, s, due, sends);
    PromotedBudget(s, due, sends, i);
    RunKeepsInv(env, s1, run);
    BudgetStaysOverRun(env, s1, run, id);
    assert JobOk(env, Later(env, s1, run), id);
  }

  // ----- Which retry limit governs -----

  /** Over every run, the job's messages stand for this limit. */
  ghost predicate GovernedBy(env: Env, s: World, id: JobId, limit: int32) {
    forall run :: Happens(env, s, run) && id in Later(env, s, run).budget ==>
      Max0(Later(env, s, run).budget[id]) == Max0(limit)
  }

  lemma GovernedAfter(env: Env, s: World, e: Event, id: JobId, limit: int32)
    requires GovernedBy(env, s, id, limit) && Occurs(env, s, e) && InTime(s, e)
    ensures GovernedBy(env, Then(env, s, e), id, limit)
  {
    var s' := Then(env, s, e);
    forall run | Happens(env, s', run) && id in Later(env, s', run).budget
      ensures Max0(Later(env, s', run).budget[id]) == Max0(limit)
    {
      assert ([e] + run)[1..] == run;
      assert Happens(env, s, [e] + run) && Later(env, s, [e] + run) == Later(env, s', run);
    }
  }

  lemma GovernedNow(env: Env, s: World, id: JobId, limit: int32)
    requires GovernedBy(env, s, id, limit) && id in s.budget
    ensures Max0(s.budget[id]) == Max0(limit)
  {
    assert Happens(env, s, []) && Later(env, s, []) == s;
  }

  /** A job that is due is promoted sooner or later, and then limit 2 governs. */
  lemma {:induction false} DueMeansTwo(env: Env, s: World, id: JobId, limit: int32)
    requires GovernedBy(env, s, id, limit) && id in DueKeys(s.db.rows, s.db.clock)
    ensures Max0(limit) == 2
    decreases |DueKeys(s.db.rows, s.db.clock)|
  {
    var keys := DueKeys(s.db.rows, s.db.clock);
    var due := SomeListing(s);
    var s' := PromoteNextAll(s, due, keys.Keys);
    forall i | 0 <= i < |due| ensures due[i].id in keys {
      assert Ids(due)[i] in keys;
    }
    GovernedAfter(env, s, Promote(due, keys.Keys), id, limit);
    if id in Ids(due) {
      var i :| 0 <= i < |Ids(due)| && Ids(due)[i] == id;
      PromotedBudget(s, due, keys.Keys, i);
      GovernedNow(env, s', id, limit);
    } else {
      PromoteShape(s, due, keys.Keys);
      TickKeys(s, s.db.clock, due, keys.Keys);
      FewerDue(s, due, keys.Keys);
      DueMeansTwo(env, s', id, limit);
    }
  }

  /** A job that has no message has none after any event but a tick. */
  lemma NoBudgetYet(env: Env, s: World, e: Event, id: JobId)
    requires Inv(env, s) && Occurs(env, s, e) && !e.Promote? && id in s.db.rows && id !in s.budget
    ensures id !in Then(env, s, e).budget
  {
    if e.Start? || e.End? {
      var m := s.db.log[e.offset];
      assert JobOk(env, s, m.id) && Carries(s, e.offset, m.id) && MessageOk(env, s, e.offset);
    }
  }

  lemma {:induction false} TickBudget(s: World, due: seq<Due>, sends: set<JobId>, id: JobId)
    requires AllDue(s, due) && id in s.db.rows && id !in s.budget
    ensures var s' := PromoteNextAll(s, due, sends);
            id in s'.budget ==> s'.budget[id] == 2 && id in s'.db.rows && s'.db.rows[id].status != Scheduled
    decreases |due|
  {
    if due != [] {
      var s' := if due[0].id in sends then PromoteOne(s, due[0]) else s;
      if id == due[0].id && id in sends {
        PromoteBudget(s', due[1..], sends, id);
        PromoteProceeds(s', due[1..], sends, id);
      } else {
        TickBudget(s', due[1..], sends, id);
      }
    }
  }

  lemma {:induction false} DelayedGetsTwo(env: Env, s: World, run: seq<Event>, id: JobId)
    requires Inv(env, s) && Happens(env, s, run) && id in s.db.rows && id !in s.budget
    ensures id in Later(env, s, run).budget ==> Later(env, s, run).budget[id] == 2
    decreases |run|
  {
    if run != [] {
      var e, s' := run[0], Then(env, s, run[0]);
      EventKeepsInv(env, s, e);
      EventProceeds(env, s, e, id);
      if e.Promote? {
        ListedAllDue(s, s.db.clock, e.due);
        TickBudget(s, e.due, e.sends, id);
      } else {
        NoBudgetYet(env, s, e, id);
      }
      if id in s'.budget {
        BudgetStaysOverRun(env, s', run[1..], id);
      } else {
        DelayedGetsTwo(env, s', run[1..], id);
      }
    }
  }

  /** The submitted retry limit governs a job exactly if it is not delayed, or its limit is the promoter's own. */
  lemma SubmittedLimitGovernsExactlyWhen(env: Env, s: World, a: SubmitArgs)
    requires Inv(env, s) && Insertable(s.db.rows, a.newId, NewRow(a)) && (a.runAt <= 0 || a.runAt > s.db.clock)
    ensures GovernedBy(env, SubmitNext(s, a, true), a.newId, a.maxRetry) <==> a.runAt <= 0 || Max0(a.maxRetry) == 2
  {
    var s', id := SubmitNext(s, a, true), a.newId;
    SubmitKeeps(env, s, a, true);
    assert JobOk(env, s, id);
    if a.runAt <= 0 {
      forall run | Happens(env, s', run) ensures id in Later(env, s', run).budget
                                              && Max0(Later(env, s', run).budget[id]) == Max0(a.maxRetry) {
        BudgetStaysOverRun(env, s', run, id);
      }
    } else if Max0(a.maxRetry) == 2 {
      forall run | Happens(env, s', run) && id in Later(env, s', run).budget
        ensures Max0(Later(env, s', run).budget[id]) == Max0(a.maxRetry)
      {
        DelayedGetsTwo(env, s', run, id);
      }
    } else if GovernedBy(env, s', id, a.maxRetry) {
      GovernedAfter(env, s', Event.Pass(a.runAt), id, a.maxRetry);
      DueMeansTwo(env, Then(env, s', Event.Pass(a.runAt)), id, a.maxRetry);
    }
  }

  // ----- The late submission -----

  ghost predicate Doubles(env: Env, s: World) {
    exists run :: Happens(env, s, run) && !SingleFlight(Later(env, s, run))
  }

  lemma SomeListing(s: World) returns (due: seq<Due>)
    ensures DueListing(s.db.rows, s.db.clock, due) && AllDue(s, due)
    ensures DueKeys(s.db.rows, s.db.clock).Keys != {} ==> |due| > 0
  {
    var keys := DueKeys(s.db.rows, s.db.clock);
    var ids := ListingExists(keys, 50);
    ListingSize(keys, 50, ids);
    due := seq(|ids|, i requires 0 <= i < |ids| => Due(ids[i], s.db.rows[ids[i]]));
    assert Ids(due) == ids;
    assert |keys| == |keys.Keys|;
    ListedAllDue(s, s.db.clock, due);
  }

  /** The tick that lists the job sends its second message. */
  lemma SecondMessage(s: World, due: seq<Due>, sends: set<JobId>, id: JobId, k: nat)
    requires |s.phase| == |s.db.log| && Carries(s, k, id) && AllDue(s, due)
    requires id in Ids(due) && id in sends
    ensures !SingleFlight(PromoteNextAll(s, due, sends))
  {
    PromoteShape(s, due, sends);
    var i :| 0 <= i < |Ids(due)| && Ids(due)[i] == id;
    var k' := TickSends(s, due, sends, i);
    assert Carries(PromoteNextAll(s, due, sends), k, id);
  }

  lemma FewerDue(s: World, due: seq<Due>, sends: set<JobId>)
    requires AllDue(s, due) && |due| > 0 && due[0].id in DueKeys(s.db.rows, s.db.clock)
    requires forall i :: 0 <= i < |due| ==> due[i].id in sends
    ensures |DueKeys(PromoteNextAll(s, due, sends).db.rows, s.db.clock)| < |DueKeys(s.db.rows, s.db.clock)|
  {
    var keys, keys' := DueKeys(s.db.rows, s.db.clock), DueKeys(PromoteNextAll(s, due, sends).db.rows, s.db.clock);
    TickKeys(s, s.db.clock, due, sends);
    assert Ids(due)[0] == due[0].id;
    SubsetCount(keys'.Keys, keys.Keys - {due[0].id});
    assert |keys| == |keys.Keys| && |keys'| == |keys'.Keys|;
  }

  lemma DoublesAfter(env: Env, s: World, e: Event)
    requires Occurs(env, s, e) && InTime(s, e) && Doubles(env, Then(env, s, e))
    ensures Doubles(env, s)
  {
    var s' := Then(env, s, e);
    var run :| Happens(env, s', run) && !SingleFlight(Later(env, s', run));
    assert ([e] + run)[1..] == run;
    assert Happens(env, s, [e] + run) && Later(env, s, [e] + run) == Later(env, s', run);
  }

  /** A job that is still "scheduled" and due although its message is live gets a second message. */
  lemma {:induction false} PromotedTwice(env: Env, s: World, id: JobId, k: nat)
    requires |s.phase| == |s.db.log| && Carries(s, k, id)
    requires id in DueKeys(s.db.rows, s.db.clock)
    ensures Doubles(env, s)
    decreases |DueKeys(s.db.rows, s.db.clock)|
  {
    var keys := DueKeys(s.db.rows, s.db.clock);
    var due := SomeListing(s);
    var s' := PromoteNextAll(s, due, keys.Keys);
    forall i | 0 <= i < |due| ensures due[i].id in keys {
      assert Ids(due)[i] in keys;
    }
    if id in Ids(due) {
      SecondMessage(s, due, keys.Keys, id, k);
      assert Happens(env, s', []) && Later(env, s', []) == s';
    } else {
      PromoteShape(s, due, keys.Keys);
      TickKeys(s, s.db.clock, due, keys.Keys);
      FewerDue(s, due, keys.Keys);
      PromotedTwice(env, s', id, k);
    }
    DoublesAfter(env, s, Promote(due, keys.Keys));
  }

  /**
   A submission that is sent keeps every future at one live message per job exactly if its run time
   is unset or still to come. With 0 < runAt <= now the row is written "scheduled" and the message
   is sent as well, so that a promoter tick sends it again.
   */
  lemma SubmitIsSafeExactlyWhen(env: Env, s: World, a: SubmitArgs)
    requires Inv(env, s) && Insertable(s.db.rows, a.newId, NewRow(a))
    ensures !Doubles(env, SubmitNext(s, a, true)) <==> a.runAt <= 0 || a.runAt > s.db.clock
  {
    var s' := SubmitNext(s, a, true);
    if a.runAt <= 0 || a.runAt > s.db.clock {
      SubmitKeeps(env, s, a, true);
      forall run | Happens(env, s', run) ensures SingleFlight(Later(env, s', run)) {
        RunKeepsInv(env, s', run);
        var last := Later(env, s', run);
        forall j: nat, k: nat, id | Carries(last, j, id) && Carries(last, k, id) ensures j == k {
          assert JobOk(env, last, id);
        }
      }
    } else {
      assert Carries(s', |s.db.log|, a.newId);
      PromotedTwice(env, s', a.newId, |s.db.log|);
    }
  }
}
