/**
 The consumer of the job topic: the fetcher goroutine, the popper, one goroutine per message, drain,
 commits, and restarts from the committed offsets after a crash.
 */
module Consuming {
  import opened Jobs
  import opened PriorityHeap

  datatype Fetcher = Fetching | Committing(id: MsgId) | Stopped

  /** The popper waits on the condition variable until a signal; it ends drained, or because its context ended. */
  datatype Popper = Ready | Waiting | Drained | Aborted

  /**
   `base`, `position` and `committed` are offsets per partition: where this session began, what is
   fetched next, and what the broker would restart from. `dispatched` and `commits` are the
   history of the session. `done` (process returned, or undecodable) and `lost` span all sessions.
   */
  datatype State = State(
    base: map<nat, nat>, position: map<nat, nat>, committed: map<nat, nat>,
    heap: map<MsgId, Message>, inflight: set<MsgId>, finished: set<MsgId>, bad: set<MsgId>,
    fetcher: Fetcher, popper: Popper, drain: bool, cancelled: bool,
    dispatched: seq<MsgId>, commits: seq<MsgId>, done: set<MsgId>, lost: set<MsgId>)

  datatype Action =
    | Fetch(partition: nat, value: Option<Message>)
    | CommitBad(stored: bool)
    | Stop
    | Look(id: MsgId)
    | Finish(id: MsgId)
    | Commit(id: MsgId, stored: bool)
    | CancelContext
    | Crash

  function At(offsets: map<nat, nat>, partition: nat): nat {
    if partition in offsets then offsets[partition] else 0
  }

  function Memory(s: State): set<MsgId> {
    s.heap.Keys + s.inflight
  }

  /** Nothing in the heap has a higher priority. */
  ghost predicate Foremost(heap: map<MsgId, Message>, id: MsgId) {
    id in heap && forall other :: other in heap ==> PriorityOf(heap[other]) <= PriorityOf(heap[id])
  }

  /** Signal wakes the popper if it waits. */
  function Signalled(popper: Popper): Popper {
    if popper == Waiting then Ready else popper
  }

  ghost predicate Enabled(s: State, a: Action) {
    match a
    case Fetch(_, _) => s.fetcher == Fetching
    case CommitBad(_) => s.fetcher.Committing?
    case Stop => s.fetcher == Fetching
    case Look(id) => s.popper == Ready && (s.heap != map[] ==> Foremost(s.heap, id))
    case Finish(id) => id in s.inflight
    case Commit(id, _) => id in s.finished
    case CancelContext => true
    case Crash => true
  }

  function Committed(s: State, id: MsgId, stored: bool): State {
    s.(commits := s.commits + [id],
       committed := if stored then s.committed[id.partition := id.offset + 1] else s.committed)
  }

  function Fetched(s: State, p: nat, value: Option<Message>): State {
    var id := MsgId(p, At(s.position, p));
    var s' := s.(position := s.position[p := id.offset + 1]);
    match value
    case None => s'.(bad := s.bad + {id}, done := s.done + {id}, fetcher := Committing(id))
    case Some(m) => s'.(heap := s.heap[id := m], popper := Signalled(s.popper))
  }

  /** One pass of the popper through the critical section. */
  function Looked(s: State, id: MsgId): State {
    if s.heap != map[] then
      s.(heap := s.heap - {id}, inflight := s.inflight + {id}, dispatched := s.dispatched + [id])
    else s.(popper := if s.drain then Drained else if s.cancelled then Aborted else Waiting)
  }

  /** What a crash forgets for good: unprocessed messages below the committed offset. */
  function Forgotten(s: State): set<MsgId> {
    set id | id in Memory(s) && id !in s.done && id.offset < At(s.committed, id.partition)
  }

  function Restarted(s: State): State {
    State(s.committed, s.committed, s.committed, map[], {}, {}, {}, Fetching, Ready, false, false, [], [],
          s.done, s.lost + Forgotten(s))
  }

  function Next(s: State, a: Action): State {
    match a
    case Fetch(p, value) => Fetched(s, p, value)
    case CommitBad(stored) =>
      if s.fetcher.Committing? then Committed(s, s.fetcher.id, stored).(fetcher := Fetching) else s
    case Stop => s.(drain := true, fetcher := Stopped, popper := Signalled(s.popper))
    case Look(id) => Looked(s, id)
    case Finish(id) =>
      s.(inflight := s.inflight - {id}, finished := s.finished + {id}, done := s.done + {id})
    case Commit(id, stored) => Committed(s, id, stored)
    case CancelContext => s.(cancelled := true)
    case Crash => Restarted(s)
  }

  function Init(): State {
    State(map[], map[], map[], map[], {}, {}, {}, Fetching, Ready, false, false, [], [], {}, {})
  }

  ghost predicate ValidRun(s: State, run: seq<Action>)
    decreases |run|
  {
    run == [] || (Enabled(s, run[0]) && ValidRun(Next(s, run[0]), run[1..]))
  }

  function After(s: State, run: seq<Action>): State
    decreases |run|
  {
    if run == [] then s else After(Next(s, run[0]), run[1..])
  }

  // ----- Conservation, drain and wakeups -----

  predicate FetchedHere(s: State, id: MsgId) {
    At(s.base, id.partition) <= id.offset < At(s.position, id.partition)
  }

  /** Each fetched message is in exactly one place, and only fetched ones are in any. */
  ghost predicate Conserved(s: State) {
    && (forall id :: FetchedHere(s, id) <==> id in Memory(s) + s.finished + s.bad)
    && s.heap.Keys !! s.inflight !! s.finished !! s.bad
  }

  predicate Distinct(ids: seq<MsgId>) {
    forall i, j :: 0 <= i < j < |ids| ==> ids[i] != ids[j]
  }

  ghost predicate DispatchedOnce(s: State) {
    && Distinct(s.dispatched)
    && forall id :: id in s.dispatched <==> id in s.inflight + s.finished
  }

  ghost predicate CommitsFollow(s: State) {
    && (forall id :: id in s.commits ==> id in s.finished + s.bad)
    && (s.fetcher.Committing? ==> s.fetcher.id in s.bad)
  }

  ghost predicate WakeupsKept(s: State) {
    && (s.drain <==> s.fetcher == Stopped)
    && (s.popper == Waiting ==> s.heap == map[] && !s.drain)
    && (s.popper == Drained ==> s.heap == map[] && s.drain)
  }

  /** Offsets only run from where a session began to what it fetched. */
  ghost predicate Bounded(s: State) {
    forall p :: At(s.base, p) <= At(s.committed, p) <= At(s.position, p)
  }

  /** Below the committed offset, a message is processed, still held, or lost: nothing else, and lost only once. */
  ghost predicate Accounted(s: State) {
    && s.finished + s.bad <= s.done
    && (forall id :: id in s.lost ==> id.offset < At(s.base, id.partition) && id !in s.done)
    && (forall id: MsgId :: id.offset < At(s.committed, id.partition) ==>
          id in s.done || id in Memory(s) || id in s.lost)
  }

  ghost predicate Inv(s: State) {
    Conserved(s) && DispatchedOnce(s) && CommitsFollow(s) && WakeupsKept(s) && Bounded(s) && Accounted(s)
  }

  lemma FetchedOneMore(s: State, p: nat, value: Option<Message>)
    requires Inv(s) && s.fetcher == Fetching
    ensures var s', id := Fetched(s, p, value), MsgId(p, At(s.position, p));
            && !FetchedHere(s, id)
            && forall other :: FetchedHere(s', other) <==> other == id || FetchedHere(s, other)
  {
  }

  lemma FetchConserves(s: State, p: nat, value: Option<Message>)
    requires Inv(s) && s.fetcher == Fetching
    ensures Conserved(Fetched(s, p, value))
  {
    var s', id := Fetched(s, p, value), MsgId(p, At(s.position, p));
    FetchedOneMore(s, p, value);
    if value.Some? {
      assert s'.heap.Keys == s.heap.Keys + {id};
    } else {
      assert s'.bad == s.bad + {id};
    }
  }

  lemma FetchKeeps(s: State, p: nat, value: Option<Message>)
    requires Inv(s) && s.fetcher == Fetching
    ensures Inv(Fetched(s, p, value))
  {
    var s', id := Fetched(s, p, value), MsgId(p, At(s.position, p));
    FetchConserves(s, p, value);
    assert !FetchedHere(s, id);
    assert value.Some? ==> s'.heap.Keys == s.heap.Keys + {id};
    assert Bounded(s') && Accounted(s');
  }

  lemma LookTakes(s: State, id: MsgId)
    requires Inv(s) && s.popper == Ready && s.heap != map[] && id in s.heap
    ensures Inv(Looked(s, id))
  {
    var s' := Looked(s, id);
    assert forall other: MsgId :: FetchedHere(s', other) <==> FetchedHere(s, other);
    assert s'.heap.Keys == s.heap.Keys - {id} && Memory(s') == Memory(s);
    assert id in s.heap.Keys && id !in s.dispatched;
    assert Conserved(s') && DispatchedOnce(s');
  }

  lemma LookKeeps(s: State, id: MsgId)
    requires Inv(s) && Enabled(s, Look(id))
    ensures Inv(Looked(s, id))
  {
    if s.heap != map[] {
      LookTakes(s, id);
    } else {
      SameMessages(s, Looked(s, id));
    }
  }

  lemma FinishKeeps(s: State, id: MsgId)
    requires Inv(s) && id in s.inflight
    ensures Inv(Next(s, Finish(id)))
  {
    var s' := Next(s, Finish(id));
    assert forall other: MsgId :: FetchedHere(s', other) <==> FetchedHere(s, other);
    assert FetchedHere(s, id);
  }

  lemma CommitKeeps(s: State, id: MsgId, stored: bool)
    requires Inv(s) && id in s.finished + s.bad
    ensures Inv(Committed(s, id, stored))
  {
    var s' := Committed(s, id, stored);
    assert forall other: MsgId :: FetchedHere(s', other) <==> FetchedHere(s, other);
    assert FetchedHere(s, id);
    forall other: MsgId | other.offset < At(s'.committed, other.partition)
      ensures other in s'.done || other in Memory(s') || other in s'.lost
    {
      if other.offset >= At(s.committed, other.partition) {
        assert FetchedHere(s, other);
      }
    }
  }

  lemma CrashKeeps(s: State)
    requires Inv(s)
    ensures Inv(Restarted(s))
  {
    var s' := Restarted(s);
    assert forall id: MsgId :: !FetchedHere(s', id);
  }

  lemma StepKeepsInv(s: State, a: Action)
    requires Inv(s) && Enabled(s, a)
    ensures Inv(Next(s, a))
  {
    match a
    case Fetch(p, value) => FetchKeeps(s, p, value);
    case CommitBad(stored) =>
      CommitKeeps(s, s.fetcher.id, stored);
      SameMessages(Committed(s, s.fetcher.id, stored), Next(s, a));
    case Stop => SameMessages(s, Next(s, a));
    case Look(id) => LookKeeps(s, id);
    case Finish(id) => FinishKeeps(s, id);
    case Commit(id, stored) => CommitKeeps(s, id, stored);
    case CancelContext => SameMessages(s, Next(s, a));
    case Crash => CrashKeeps(s);
  }

  lemma SameMessages(s: State, s': State)
    requires Inv(s) && WakeupsKept(s') && (s'.fetcher.Committing? ==> s'.fetcher == s.fetcher)
    requires s' == s.(fetcher := s'.fetcher, popper := s'.popper, drain := s'.drain, cancelled := s'.cancelled)
    ensures Inv(s')
  {
    assert forall id: MsgId :: FetchedHere(s', id) <==> FetchedHere(s, id);
  }

  lemma {:induction false} RunKeepsInv(s: State, run: seq<Action>)
    requires Inv(s) && ValidRun(s, run)
    ensures Inv(After(s, run))
    decreases |run|
  {
    if run != [] {
      StepKeepsInv(s, run[0]);
      RunKeepsInv(Next(s, run[0]), run[1..]);
    }
  }

  /**
   Each message fetched in this session is in exactly one place: undecodable, in the heap, in flight
   or finished. A commit was attempted only for a message whose process returned or that did not decode.
   */
  lemma EveryMessageIsInOnePlace(run: seq<Action>, id: MsgId)
    requires ValidRun(Init(), run)
    ensures var s := After(Init(), run);
            var places := (if id in s.bad then 1 else 0) + (if id in s.heap then 1 else 0)
                          + (if id in s.inflight then 1 else 0) + (if id in s.finished then 1 else 0);
            && places == (if FetchedHere(s, id) then 1 else 0)
            && (id in s.commits ==> id in s.finished || id in s.bad)
  {
    RunKeepsInv(Init(), run);
  }

  /**
   When the popper has ended with the drain flag set, the heap is empty, the fetcher has stopped and
   every message that decoded was dispatched exactly once.
   */
  lemma DrainedMeansAllDispatched(run: seq<Action>, id: MsgId)
    requires ValidRun(Init(), run) && After(Init(), run).popper == Drained
    ensures var s := After(Init(), run);
            && s.heap == map[] && s.fetcher == Stopped && s.drain
            && (FetchedHere(s, id) && id !in s.bad <==> id in s.dispatched)
            && forall i, j :: 0 <= i < j < |s.dispatched| ==> s.dispatched[i] != s.dispatched[j]
  {
    RunKeepsInv(Init(), run);
  }

  /** No wakeup is lost: a popper that still waits has nothing to take and no drain to notice. */
  lemma WaitingMeansNothingToDo(run: seq<Action>)
    requires ValidRun(Init(), run) && After(Init(), run).popper == Waiting
    ensures After(Init(), run).heap == map[] && !After(Init(), run).drain
  {
    RunKeepsInv(Init(), run);
  }

  ghost predicate BadCommitted(s: State) {
    forall id :: id in s.bad ==> id in s.commits || s.fetcher == Committing(id)
  }

  lemma StepCommitsBad(s: State, a: Action)
    requires BadCommitted(s) && Enabled(s, a)
    ensures BadCommitted(Next(s, a))
  {
    var s' := Next(s, a);
    forall id | id in s'.bad ensures id in s'.commits || s'.fetcher == Committing(id) {
      if id in s.bad && id in s.commits && !a.Crash? {
        assert s.commits <= s'.commits;
        var i :| 0 <= i < |s.commits| && s.commits[i] == id;
        assert s'.commits[i] == id;
      } else if a.CommitBad? {
        assert s'.commits[|s.commits|] == s.fetcher.id;
      }
    }
  }

  /** The fetcher goes on after a message that does not decode only when it has tried to commit it. */
  lemma {:induction false} UndecodableIsCommitted(s: State, run: seq<Action>)
    requires BadCommitted(s) && ValidRun(s, run)
    ensures BadCommitted(After(s, run))
    decreases |run|
  {
    if run != [] {
      StepCommitsBad(s, run[0]);
      UndecodableIsCommitted(Next(s, run[0]), run[1..]);
    }
  }

  // ----- Crashes -----

  /**
   After any crashes and restarts, a message below the committed offset that was neither processed
   nor undecodable is one still held, or one lost at a crash; and what a crash loses is exactly
   what it then held, unprocessed, below the committed offset.
   */
  lemma LostExactlyWhatWasHeld(run: seq<Action>, id: MsgId)
    requires ValidRun(Init(), run)
    ensures var s := After(Init(), run);
            && (id in s.lost <==> id.offset < At(s.committed, id.partition) && id !in s.done && id !in Memory(s))
            && (id in Next(s, Crash).lost && id !in s.lost <==>
                  id.offset < At(s.committed, id.partition) && id !in s.done && id in Memory(s))
  {
    RunKeepsInv(Init(), run);
    var s := After(Init(), run);
    assert id in Memory(s) ==> FetchedHere(s, id);
  }

  /** The action stores a commit of the partition. */
  predicate Stores(s: State, a: Action, p: nat) {
    || (a.Commit? && a.stored && a.id.partition == p)
    || (a.CommitBad? && a.stored && s.fetcher.Committing? && s.fetcher.id.partition == p)
  }

  function CommitOf(s: State, a: Action): MsgId
    requires a.Commit? || (a.CommitBad? && s.fetcher.Committing?)
  {
    if a.Commit? then a.id else s.fetcher.id
  }

  ghost predicate NothingStored(s: State, run: seq<Action>, p: nat)
    decreases |run|
  {
    run == [] || (!Stores(s, run[0], p) && NothingStored(Next(s, run[0]), run[1..], p))
  }

  lemma StepKeepsCommitted(s: State, a: Action, p: nat)
    requires Enabled(s, a) && !Stores(s, a, p)
    ensures At(Next(s, a).committed, p) == At(s.committed, p)
  {
  }

  lemma {:induction false} CommittedStays(s: State, run: seq<Action>, p: nat)
    requires ValidRun(s, run) && NothingStored(s, run, p)
    ensures At(After(s, run).committed, p) == At(s.committed, p)
    decreases |run|
  {
    if run != [] {
      StepKeepsCommitted(s, run[0], p);
      CommittedStays(Next(s, run[0]), run[1..], p);
    }
  }

  /** One session: until the next crash. */
  predicate NoCrash(run: seq<Action>) {
    run == [] || (!run[0].Crash? && NoCrash(run[1..]))
  }

  lemma {:induction false} BaseStays(s: State, run: seq<Action>)
    requires ValidRun(s, run) && NoCrash(run)
    ensures After(s, run).base == s.base
    decreases |run|
  {
    if run != [] {
      BaseStays(Next(s, run[0]), run[1..]);
    }
  }

  /**
   After a stored commit with none stored later in its partition, the next session begins with the
   very next message there: it fetches the committed one not again, and leaves none after it out.
   */
  lemma SessionBeginsAfterCommit(s: State, a: Action, rest: seq<Action>, session: seq<Action>, p: nat)
    requires Enabled(s, a) && Stores(s, a, p) && ValidRun(Next(s, a), rest) && NothingStored(Next(s, a), rest, p)
    requires ValidRun(Next(After(Next(s, a), rest), Crash), session) && NoCrash(session)
    ensures var id, s' := CommitOf(s, a), After(Next(After(Next(s, a), rest), Crash), session);
            && !FetchedHere(s', id)
            && forall other: MsgId :: other.partition == p && id.offset < other.offset ==>
                 (FetchedHere(s', other) <==> other.offset < At(s'.position, p))
  {
    CommittedStays(Next(s, a), rest, p);
    BaseStays(Next(After(Next(s, a), rest), Crash), session);
  }

  /** A stored commit comes after everything lower of its partition has left the heap and its goroutine. */
  ghost predicate Clean(s: State, a: Action) {
    (a.Commit? && a.stored) || (a.CommitBad? && a.stored && s.fetcher.Committing?) ==>
      var id := if a.Commit? then a.id else s.fetcher.id;
      forall other :: other in Memory(s) && other.partition == id.partition ==> other.offset > id.offset
  }

  ghost predicate CleanRun(s: State, run: seq<Action>)
    decreases |run|
  {
    run == [] || (Enabled(s, run[0]) && Clean(s, run[0]) && CleanRun(Next(s, run[0]), run[1..]))
  }

  ghost predicate CleanInv(s: State) {
    Inv(s) && s.lost == {} && forall id :: id in Memory(s) ==> id.offset >= At(s.committed, id.partition)
  }

  lemma StaysAbove(s: State, a: Action, id: MsgId)
    requires CleanInv(s) && Enabled(s, a) && Clean(s, a) && id in Memory(Next(s, a))
    ensures id.offset >= At(Next(s, a).committed, id.partition)
  {
    if a.Fetch? {
      assert At(s.committed, a.partition) <= At(s.position, a.partition);
    }
  }

  lemma CleanStep(s: State, a: Action)
    requires CleanInv(s) && Enabled(s, a) && Clean(s, a)
    ensures CleanInv(Next(s, a))
  {
    StepKeepsInv(s, a);
    forall id | id in Memory(Next(s, a)) ensures id.offset >= At(Next(s, a).committed, id.partition) {
      StaysAbove(s, a, id);
    }
  }

  lemma {:induction false} CleanRunKeeps(s: State, run: seq<Action>)
    requires CleanInv(s) && CleanRun(s, run)
    ensures CleanInv(After(s, run))
    decreases |run|
  {
    if run != [] {
      CleanStep(s, run[0]);
      CleanRunKeeps(Next(s, run[0]), run[1..]);
    }
  }

  /** Under that condition every message below the committed offset was processed or undecodable, whatever crashes. */
  lemma CleanCommitsLoseNothing(run: seq<Action>, id: MsgId)
    requires CleanRun(Init(), run)
    requires id.offset < At(After(Init(), run).committed, id.partition)
    ensures id in After(Init(), run).done
  {
    CleanRunKeeps(Init(), run);
  }

  lemma Prepend(s: State, a: Action, run: seq<Action>)
    requires Enabled(s, a) && ValidRun(Next(s, a), run)
    ensures ValidRun(s, [a] + run) && After(s, [a] + run) == After(Next(s, a), run)
  {
    assert ([a] + run)[1..] == run;
  }

  lemma LoseFirst(s3: State, s4: State, s5: State, s6: State, first: MsgId, second: MsgId)
    requires Enabled(s3, Look(second)) && s4 == Next(s3, Look(second))
    requires Enabled(s4, Finish(second)) && s5 == Next(s4, Finish(second))
    requires Enabled(s5, Commit(second, true)) && s6 == Next(s5, Commit(second, true)) && first in Forgotten(s6)
    ensures var rest := [Look(second), Finish(second), Commit(second, true), Crash];
            ValidRun(s3, rest) && first in After(s3, rest).lost
  {
    Prepend(s6, Crash, []);
    Prepend(s5, Commit(second, true), [Crash]);
    Prepend(s4, Finish(second), [Commit(second, true), Crash]);
    Prepend(s3, Look(second), [Finish(second), Commit(second, true), Crash]);
  }

  /** Without it a message can be lost: two are taken, the second is committed first, and the worker dies. */
  lemma LaterCommitLosesEarlier(m: Message)
    ensures var run := [Fetch(0, Some(m)), Fetch(0, Some(m)), Look(MsgId(0, 0)), Look(MsgId(0, 1)),
                        Finish(MsgId(0, 1)), Commit(MsgId(0, 1), true), Crash];
            ValidRun(Init(), run) && MsgId(0, 0) in After(Init(), run).lost
  {
    var first, second := MsgId(0, 0), MsgId(0, 1);
    var s1 := Next(Init(), Fetch(0, Some(m)));
    var s2 := Next(s1, Fetch(0, Some(m)));
    assert s2.heap == map[first := m, second := m];
    var s3 := Next(s2, Look(first));
    assert s3.heap == map[second := m] && second in s3.heap && s3.inflight == {first};
    var s4 := Next(s3, Look(second));
    assert s4.inflight == {first, second};
    var s5 := Next(s4, Finish(second));
    var s6 := Next(s5, Commit(second, true));
    assert first in Forgotten(s6);
    LoseFirst(s3, s4, s5, s6, first, second);
    Prepend(s2, Look(first), [Look(second), Finish(second), Commit(second, true), Crash]);
    Prepend(s1, Fetch(0, Some(m)), [Look(first), Look(second), Finish(second), Commit(second, true), Crash]);
    Prepend(Init(), Fetch(0, Some(m)),
            [Fetch(0, Some(m)), Look(first), Look(second), Finish(second), Commit(second, true), Crash]);
  }

  // ----- The consumer as an object -----

  ghost function ItemsOf(heap: map<MsgId, Message>): set<Item> {
    set id | id in heap :: Item(id, heap[id])
  }

  lemma ItemsAdd(heap: map<MsgId, Message>, item: Item)
    requires item.id !in heap
    ensures multiset(ItemsOf(heap[item.id := item.req])) == multiset(ItemsOf(heap)) + multiset{item}
  {
    var heap' := heap[item.id := item.req];
    assert ItemsOf(heap') == ItemsOf(heap) + {item} by {
      forall other ensures other in ItemsOf(heap') <==> other in ItemsOf(heap) + {item} {
        if other in ItemsOf(heap) { assert other.id in heap && heap'[other.id] == heap[other.id]; }
        if other == item { assert item.id in heap' && heap'[item.id] == item.req; }
      }
    }
    assert item !in ItemsOf(heap);
  }

  lemma ItemsRemove(heap: map<MsgId, Message>, item: Item)
    requires item in ItemsOf(heap)
    ensures item.id in heap && multiset(ItemsOf(heap - {item.id})) == multiset(ItemsOf(heap)) - multiset{item}
  {
    var heap' := heap - {item.id};
    assert ItemsOf(heap') == ItemsOf(heap) - {item} by {
      forall other ensures other in ItemsOf(heap') <==> other in ItemsOf(heap) - {item} {
        if other in ItemsOf(heap) && other != item {
          assert other.id in heap && heap[other.id] == other.req && other.id != item.id;
          assert other.id in heap' && heap'[other.id] == other.req;
        }
        if other in ItemsOf(heap') { assert other.id in heap' && heap[other.id] == other.req; }
      }
    }
  }

  /** RunConsumer's shared objects; each method is one critical section of one of its goroutines. */
  class Consumer {
    const pq: PriorityQueue
    var position: map<nat, nat>
    var committed: map<nat, nat>
    var cancelled: bool
    ghost var state: State

    ghost predicate Valid()
      reads this, pq
    {
      && pq.Valid() && Inv(state)
      && state.position == position && state.committed == committed
      && state.drain == pq.drain && state.cancelled == cancelled
      && multiset(pq.items) == multiset(ItemsOf(state.heap))
    }

    constructor ()
      ensures Valid() && fresh(pq) && state == Init()
    {
      pq := new PriorityQueue();
      position, committed, cancelled, state := map[], map[], false, Init();
    }

    /** FetchMessage, and decoding: into the heap, or on to the commit of a message that does not decode. */
    method FetchOne(p: nat, value: Option<Message>)
      requires Valid() && state.fetcher == Fetching
      modifies this, pq
      ensures Valid() && state == Next(old(state), Fetch(p, value))
    {
      var id := MsgId(p, At(position, p));
      FetchKeeps(state, p, value);
      assert !FetchedHere(state, id) && id !in state.heap.Keys;
      if value.Some? {
        ItemsAdd(state.heap, Item(id, value.value));
        pq.Push(Item(id, value.value));
      }
      position := position[p := id.offset + 1];
      state := Fetched(state, p, value);
    }

    method StopFetching()
      requires Valid() && state.fetcher == Fetching
      modifies this, pq
      ensures Valid() && state == Next(old(state), Stop)
    {
      StepKeepsInv(state, Stop);
      pq.SetDrain();
      state := Next(state, Stop);
    }

    lemma HeldAgree()
      requires Valid()
      ensures pq.items == [] <==> state.heap == map[]
      ensures forall item :: item in multiset(pq.items) <==> item.id in state.heap && state.heap[item.id] == item.req
    {
      forall item ensures item in multiset(pq.items) <==> item.id in state.heap && state.heap[item.id] == item.req {
        assert item in multiset(pq.items) <==> item in ItemsOf(state.heap);
        if item in ItemsOf(state.heap) {
          var id :| id in state.heap && item == Item(id, state.heap[id]);
        } else if item.id in state.heap {
          assert Item(item.id, state.heap[item.id]) in ItemsOf(state.heap);
        }
      }
      forall id | id in state.heap ensures pq.items != [] {
        assert Item(id, state.heap[id]) in multiset(pq.items);
      }
      if pq.items != [] {
        assert pq.items[0] in multiset(pq.items);
      }
    }

    /** The commit of a message that does not decode; it failing or not, the fetcher goes on. */
    method CommitUndecodable(id: MsgId) returns (ok: bool)
      requires Valid() && state.fetcher == Committing(id)
      modifies this
      ensures Valid() && state == Next(old(state), CommitBad(ok))
    {
      ok := *;
      if ok {
        committed := committed[id.partition := id.offset + 1];
      }
      StepKeepsInv(state, CommitBad(ok));
      state := Next(state, CommitBad(ok));
    }

    /** One pass of the popper; what it takes goes to a goroutine of its own. */
    method PopOne() returns (r: Popped, ghost id: MsgId)
      requires Valid() && state.popper == Ready
      modifies this, pq
      ensures Valid()
      ensures Enabled(old(state), Look(id)) && state == Next(old(state), Look(id))
      ensures r.Taken? <==> old(state).heap != map[]
      ensures r.Taken? ==> r.item == Item(id, old(state).heap[id])
    {
      HeldAgree();
      ghost var heap := state.heap;
      ghost var held := multiset(pq.items);
      r := pq.Pop(cancelled);
      id := if r.Taken? then r.item.id else MsgId(0, 0);
      if r.Taken? {
        assert r.item in held;
        forall other | other in heap ensures PriorityOf(heap[other]) <= PriorityOf(heap[id]) {
          assert Item(other, heap[other]) in held;
        }
        ItemsRemove(heap, r.item);
      }
      StepKeepsInv(state, Look(id));
      state := Next(state, Look(id));
    }

    /** The goroutine of a message, when process has returned, with or without an error. */
    ghost method Returned(id: MsgId)
      requires Valid() && id in state.inflight
      modifies this`state
      ensures Valid() && state == Next(old(state), Finish(id))
    {
      StepKeepsInv(state, Finish(id));
      state := Next(state, Finish(id));
    }

    /** The end of a message's goroutine, when process has returned: its offset is committed, or the commit fails. */
    method FinishMessage(id: MsgId) returns (ok: bool)
      requires Valid() && id in state.inflight
      modifies this
      ensures Valid() && state == Next(Next(old(state), Finish(id)), Commit(id, ok))
    {
      Returned(id);
      ok := CommitMessage(id);
    }

    /** CommitMessages, for a message that was processed. */
    method CommitMessage(id: MsgId) returns (ok: bool)
      requires Valid() && id in state.finished
      modifies this
      ensures Valid() && state == Next(old(state), Commit(id, ok))
    {
      ok := *;
      if ok {
        committed := committed[id.partition := id.offset + 1];
      }
      StepKeepsInv(state, Commit(id, ok));
      state := Next(state, Commit(id, ok));
    }
  }
}
