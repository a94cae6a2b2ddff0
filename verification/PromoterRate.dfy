/**
 How fast the promoter clears what is due. Each of its ticks is a clock reading, a query and up to
 fifty sends and updates, all of them steps of their own, with submissions, cancellations and workers
 at any step in between.
 */
module PromoterRate {
  import opened Jobs
  import opened Query
  import opened Protocol
  import opened PromoterOrder

  predicate InBatch(pc: Pc) {
    pc.PromoteSend? || pc.PromoteSet?
  }

  /** Some promoter has the job in the rest of its batch. */
  ghost predicate Taken(threads: map<Tid, Pc>, id: JobId) {
    exists t :: t in threads && InBatch(threads[t]) && IsDue(threads[t].due, id)
  }

  ghost predicate NoBatch(threads: map<Tid, Pc>) {
    forall t :: t in threads ==> !InBatch(threads[t])
  }

  /** The jobs due by `now` that no batch holds yet. */
  ghost function Untaken(s: State, now: int): set<JobId> {
    set id | id in DueKeys(s.db.rows, now) && !Taken(s.threads, id)
  }

  /** The step is a listing for a time no earlier than `now`. */
  predicate Lists(s: State, a: Action, now: int) {
    a.Step? && a.tid in s.threads && s.threads[a.tid].PromoteList? && now <= s.threads[a.tid].now
  }

  function Listings(s: State, run: seq<Action>, now: int): nat
    decreases |run|
  {
    if run == [] then 0
    else (if Lists(s, run[0], now) then 1 else 0) + Listings(Next(s, run[0]), run[1..], now)
  }

  /** What a listing at a later time leaves of the jobs due by `now`. */
  lemma FirstFifty(rows: map<JobId, Row>, later: int, now: int, ids: seq<JobId>, left: set<JobId>)
    requires now <= later && Listing(DueKeys(rows, later), 50, ids)
    requires left == DueKeys(rows, now).Keys - set id | id in ids
    ensures |left| == Max0(|DueKeys(rows, now)| - 50)
  {
    var all, keys := DueKeys(rows, later), DueKeys(rows, now);
    ListingTakesFirst(all, 50, ids, now);
    assert (set id | id in all && all[id] <= now) == keys.Keys;
    assert |keys| == |keys.Keys|;
  }

  lemma IdsAreDue(due: seq<Due>, id: JobId)
    ensures id in Ids(due) <==> IsDue(due, id)
  {
    if IsDue(due, id) {
      var i :| 0 <= i < |due| && due[i].id == id;
      assert Ids(due)[i] == id;
    }
  }

  /** When a listing comes nothing is held, and then the listed jobs are. */
  lemma ListingTakes(env: Env, s: State, t: Tid, due: seq<Due>, now: int)
    requires OnePromoter(s.threads) && Enabled(env, s, Step(t, Listed(due))) && s.threads[t].PromoteList?
    ensures Untaken(s, now) == DueKeys(s.db.rows, now).Keys
    ensures Untaken(Next(s, Step(t, Listed(due))), now) == Untaken(s, now) - set id | id in Ids(due)
  {
    var s' := Next(s, Step(t, Listed(due)));
    assert s'.db.rows == s.db.rows;
    assert NoBatch(s.threads);
    forall id ensures Taken(s'.threads, id) <==> id in Ids(due) {
      IdsAreDue(due, id);
      if IsDue(due, id) {
        assert InBatch(s'.threads[t]) && s'.threads[t].due == due;
      }
    }
  }

  /** The send keeps the batch, and the update lets go of a job that is not "scheduled" any more. */
  lemma BatchTakes(env: Env, s: State, t: Tid, reply: Reply, now: int)
    requires Enabled(env, s, Step(t, reply)) && InBatch(s.threads[t]) && !reply.Failure?
    ensures Untaken(Next(s, Step(t, reply)), now) <= Untaken(s, now)
  {
    var s' := Next(s, Step(t, reply));
    forall id | id in DueKeys(s'.db.rows, now) && Taken(s.threads, id) ensures Taken(s'.threads, id) {
      var u :| u in s.threads && InBatch(s.threads[u]) && IsDue(s.threads[u].due, id);
      if u == t {
        StillInBatch(env, s, t, reply, id, now);
      }
      assert u in s'.threads && InBatch(s'.threads[u]) && IsDue(s'.threads[u].due, id);
    }
    assert forall id :: id in DueKeys(s'.db.rows, now) ==> id in DueKeys(s.db.rows, now);
  }

  /** Of the batch, only the job that was just set is let go. */
  lemma StillInBatch(env: Env, s: State, t: Tid, reply: Reply, id: JobId, now: int)
    requires Enabled(env, s, Step(t, reply)) && InBatch(s.threads[t]) && !reply.Failure?
    requires IsDue(s.threads[t].due, id) && id in DueKeys(Next(s, Step(t, reply)).db.rows, now)
    ensures InBatch(Resume(s.threads[t], reply)) && IsDue(Resume(s.threads[t], reply).due, id)
  {
    var due := s.threads[t].due;
    var i :| 0 <= i < |due| && due[i].id == id;
    if s.threads[t].PromoteSet? {
      assert due[1..][i - 1].id == id;
    }
  }

  /** Everyone else leaves the batches alone, and puts no job of that time into the table. */
  lemma OthersTake(env: Env, s: State, a: Action, now: int)
    requires Enabled(env, s, a) && Orderly(s, a) && now <= s.db.clock
    requires a.Step? ==> !InBatch(s.threads[a.tid]) && !s.threads[a.tid].PromoteList?
    ensures Untaken(Next(s, a), now) <= Untaken(s, now)
  {
    var s' := Next(s, a);
    StepFewer(env, s, a);
    forall id | Taken(s.threads, id) ensures Taken(s'.threads, id) {
      var u :| u in s.threads && InBatch(s.threads[u]) && IsDue(s.threads[u].due, id);
      assert u in s'.threads && s'.threads[u] == s.threads[u];
    }
    assert forall id :: id in DueKeys(s'.db.rows, now) ==> id in DueKeys(s.db.rows, now);
  }

  /** From time `now` on, what is due by `now` and in no batch only gets fewer, and by 50 at each listing. */
  lemma StepClears(env: Env, s: State, a: Action, now: int)
    requires OnePromoter(s.threads) && Enabled(env, s, a) && Orderly(s, a) && now <= s.db.clock
    ensures |Untaken(Next(s, a), now)| <= Max0(|Untaken(s, now)| - if Lists(s, a, now) then 50 else 0)
  {
    if a.Step? && s.threads[a.tid].PromoteList? {
      var due := a.reply.due;
      ListingTakes(env, s, a.tid, due, now);
      if Lists(s, a, now) {
        FirstFifty(s.db.rows, s.threads[a.tid].now, now, Ids(due), Untaken(Next(s, a), now));
        assert |DueKeys(s.db.rows, now)| == |DueKeys(s.db.rows, now).Keys|;
      }
    } else if a.Step? && InBatch(s.threads[a.tid]) {
      BatchTakes(env, s, a.tid, a.reply, now);
    } else {
      OthersTake(env, s, a, now);
    }
    SubsetCount(Untaken(Next(s, a), now), Untaken(s, now));
  }

  lemma {:induction false} RunClears(env: Env, s: State, run: seq<Action>, now: int)
    requires OnePromoter(s.threads) && OrderlyRun(env, s, run) && now <= s.db.clock
    ensures |Untaken(After(s, run), now)| <= Max0(|Untaken(s, now)| - 50 * Listings(s, run, now))
    decreases |run|
  {
    if run != [] {
      StepClears(env, s, run[0], now);
      StepKeepsOnePromoter(env, s, run[0]);
      RunClears(env, Next(s, run[0]), run[1..], now);
    }
  }

  lemma UntakenAreDue(s: State, now: int)
    ensures |Untaken(s, now)| <= |DueKeys(s.db.rows, now)|
  {
    SubsetCount(Untaken(s, now), DueKeys(s.db.rows, now).Keys);
    assert |DueKeys(s.db.rows, now)| == |DueKeys(s.db.rows, now).Keys|;
  }

  lemma NoBatchNoneTaken(s: State, now: int)
    requires NoBatch(s.threads)
    ensures Untaken(s, now) == DueKeys(s.db.rows, now).Keys
  {
  }

  lemma NoneLeft(s: State, now: int)
    requires WaitingAfter(s.db.rows, s.promoted) && NoBatch(s.threads) && |Untaken(s, now)| == 0
    ensures ClearedUpTo(s.db.rows, now)
  {
    forall id | id in s.db.rows && s.db.rows[id].status == Scheduled ensures s.db.rows[id].runAt > now {
      assert id !in Untaken(s, now);
      assert !Taken(s.threads, id);
    }
  }

  ghost predicate ClearedUpTo(rows: map<JobId, Row>, now: int) {
    forall id :: id in rows && rows[id].status == Scheduled ==> rows[id].runAt > now
  }

  /** After so many listings the n jobs are in a batch or out of "scheduled", and without a batch all are out. */
  ghost predicate ClearedIn(s: State, listings: nat, n: nat, now: int) {
    && |Untaken(s, now)| <= Max0(n - 50 * listings)
    && (NoBatch(s.threads) ==> Untaken(s, now) == DueKeys(s.db.rows, now).Keys)
    && (NoBatch(s.threads) && n <= 50 * listings ==> ClearedUpTo(s.db.rows, now))
  }

  lemma ClearedThen(s: State, listings: nat, n: nat, now: int)
    requires WaitingAfter(s.db.rows, s.promoted) && |Untaken(s, now)| <= Max0(n - 50 * listings)
    ensures ClearedIn(s, listings, n, now)
  {
    if NoBatch(s.threads) {
      NoBatchNoneTaken(s, now);
      if n <= 50 * listings {
        NoneLeft(s, now);
      }
    }
  }

  lemma DueClears(env: Env, s: State, run: seq<Action>, now: int)
    requires OnePromoter(s.threads) && OrderlyRun(env, s, run) && now <= s.db.clock
    ensures |Untaken(After(s, run), now)| <= Max0(|DueKeys(s.db.rows, now)| - 50 * Listings(s, run, now))
  {
    UntakenAreDue(s, now);
    RunClears(env, s, run, now);
  }

  lemma ClearedFrom(env: Env, s: State, run: seq<Action>, now: int)
    requires OnePromoter(s.threads) && OrderlyRun(env, s, run) && now <= s.db.clock
    requires WaitingAfter(After(s, run).db.rows, After(s, run).promoted)
    ensures ClearedIn(After(s, run), Listings(s, run, now), |DueKeys(s.db.rows, now)|, now)
  {
    DueClears(env, s, run, now);
    ClearedThen(After(s, run), Listings(s, run, now), |DueKeys(s.db.rows, now)|, now);
  }

  lemma WaitingLater(env: Env, s: State, run: seq<Action>)
    requires OrderInv(s) && OrderlyRun(env, s, run)
    ensures OnePromoter(s.threads) && WaitingAfter(After(s, run).db.rows, After(s, run).promoted)
  {
    RunKeepsOrder(env, s, run);
  }

  /**
   The n jobs due by `now` are in a batch or out of "scheduled" after ceil(n / 50) listings, and all
   out of it when that batch is through: from any state `first` leads to, over any run from then on,
   however the steps of the promoter, the API and the workers interleave.
   */
  lemma TicksClearTheDue(env: Env, start: nat, first: seq<Action>, run: seq<Action>, now: int)
    requires OrderlyRun(env, Init(start), first)
    requires now <= After(Init(start), first).db.clock && OrderlyRun(env, After(Init(start), first), run)
    ensures var s := After(Init(start), first);
            ClearedIn(After(s, run), Listings(s, run, now), |DueKeys(s.db.rows, now)|, now)
  {
    RunKeepsOrder(env, Init(start), first);
    WaitingLater(env, After(Init(start), first), run);
    ClearedFrom(env, After(Init(start), first), run, now);
  }
}
