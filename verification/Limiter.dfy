/**
 The worker's limit on concurrent jobs per type: a map from types to semaphores, made of buffered
 channels and guarded by a mutex. The goroutines of any number of jobs interleave at every step.
 */
module Limiting {
  type Tid = nat
  type Channel = nat

  /** Where a goroutine is inside getCh: before the mutex, before the lookup, before the insertion. */
  datatype Section = Lock | Read | Make

  datatype At =
    | Getting(section: Section, releasing: bool)
    | Sending(ch: Channel)
    | Inside
    | Receiving(ch: Channel)
    | Gone

  datatype Worker = Worker(typ: string, at: At)

  /** `held` is how many tokens each channel holds. */
  datatype State = State(chs: map<string, Channel>, nextCh: Channel, held: map<Channel, nat>,
                         mutex: set<Tid>, workers: map<Tid, Worker>)

  datatype Action =
    | Enter(tid: Tid, typ: string)
    | TakeLock(tid: Tid)
    | LookUp(tid: Tid)
    | MakeChannel(tid: Tid)
    | Send(tid: Tid)
    | Finish(tid: Tid)
    | Receive(tid: Tid)

  predicate Enabled(limit: nat, s: State, a: Action) {
    if a.Enter? then a.tid !in s.workers else
    a.tid in s.workers &&
    match s.workers[a.tid].at
    case Getting(Lock, _) => a.TakeLock? && s.mutex == {}
    case Getting(Read, _) => a.LookUp?
    case Getting(Make, _) => a.MakeChannel?
    case Sending(ch) => a.Send? && ch in s.held && s.held[ch] < limit
    case Inside => a.Finish?
    case Receiving(ch) => a.Receive? && ch in s.held && s.held[ch] > 0
    case Gone => false
  }

  function Move(s: State, t: Tid, w: Worker): State {
    s.(workers := s.workers[t := w])
  }

  /** What getCh returned is used, and the mutex released. */
  function Got(s: State, t: Tid, w: Worker, releasing: bool, ch: Channel): State {
    Move(s, t, w.(at := if releasing then Receiving(ch) else Sending(ch))).(mutex := s.mutex - {t})
  }

  function Next(s: State, a: Action): State
    requires a.Enter? || a.tid in s.workers
  {
    if a.Enter? then Move(s, a.tid, Worker(a.typ, Getting(Lock, false))) else
    var w := s.workers[a.tid];
    match w.at
    case Getting(Lock, releasing) => Move(s, a.tid, w.(at := Getting(Read, releasing))).(mutex := s.mutex + {a.tid})
    case Getting(Read, releasing) =>
      if w.typ in s.chs then Got(s, a.tid, w, releasing, s.chs[w.typ])
      else Move(s, a.tid, w.(at := Getting(Make, releasing)))
    case Getting(Make, releasing) =>
      Got(s, a.tid, w, releasing, s.nextCh)
        .(chs := s.chs[w.typ := s.nextCh], held := s.held[s.nextCh := 0], nextCh := s.nextCh + 1)
    case Sending(ch) =>
      if ch in s.held then Move(s, a.tid, w.(at := Inside)).(held := s.held[ch := s.held[ch] + 1]) else s
    case Inside => Move(s, a.tid, w.(at := Getting(Lock, true)))
    case Receiving(ch) =>
      if ch in s.held && s.held[ch] > 0
      then Move(s, a.tid, w.(at := Gone)).(held := s.held[ch := s.held[ch] - 1]) else s
    case Gone => s
  }

  const INIT: State := State(map[], 0, map[], {}, map[])

  predicate ValidRun(limit: nat, s: State, run: seq<Action>)
    decreases |run|
  {
    run == [] || (Enabled(limit, s, run[0]) && ValidRun(limit, Next(s, run[0]), run[1..]))
  }

  function After(limit: nat, s: State, run: seq<Action>): State
    requires ValidRun(limit, s, run)
    decreases |run|
  {
    if run == [] then s else After(limit, Next(s, run[0]), run[1..])
  }

  // ----- Occupancy -----

  /** Between the end of Acquire and the end of Release. */
  predicate HasPermit(w: Worker) {
    w.at.Inside? || w.at.Receiving? || (w.at.Getting? && w.at.releasing)
  }

  predicate HoldsFor(w: Worker, typ: string) {
    w.typ == typ && HasPermit(w)
  }

  function Holders(s: State, typ: string): set<Tid> {
    set t | t in s.workers && HoldsFor(s.workers[t], typ)
  }

  predicate WorkerOk(s: State, t: Tid, w: Worker) {
    match w.at
    case Getting(section, releasing) =>
      && (section != Lock <==> t in s.mutex)
      && (section == Make ==> w.typ !in s.chs)
      && (releasing ==> w.typ in s.chs)
    case Sending(ch) => t !in s.mutex && w.typ in s.chs && s.chs[w.typ] == ch
    case Inside => t !in s.mutex && w.typ in s.chs
    case Receiving(ch) => t !in s.mutex && w.typ in s.chs && s.chs[w.typ] == ch
    case Gone => t !in s.mutex
  }

  /** One channel to a type, holding a token for each holder of the type's permits. */
  predicate Counted(limit: nat, s: State) {
    && (forall typ :: typ in s.chs ==>
          && s.chs[typ] < s.nextCh && s.chs[typ] in s.held
          && s.held[s.chs[typ]] == |Holders(s, typ)| <= limit)
    && (forall typ, other :: typ in s.chs && other in s.chs && s.chs[typ] == s.chs[other] ==> typ == other)
  }

  predicate Inv(limit: nat, s: State) {
    && (forall t, u :: t in s.mutex && u in s.mutex ==> t == u)
    && (forall t :: t in s.mutex ==> t in s.workers)
    && (forall t :: t in s.workers ==> WorkerOk(s, t, s.workers[t]))
    && Counted(limit, s)
  }

  lemma OneApart(a: set<Tid>, b: set<Tid>, t: Tid)
    requires forall u :: u != t ==> (u in a <==> u in b)
    ensures |b| == |a| + (if t in b then 1 else 0) - (if t in a then 1 else 0)
  {
    assert a - {t} == b - {t};
    assert |a| == |a - {t}| + if t in a then 1 else 0;
    assert |b| == |b - {t}| + if t in b then 1 else 0;
  }

  lemma SameHolders(s: State, s': State, t: Tid, typ: string)
    requires t in s.workers && t in s'.workers && s'.workers == s.workers[t := s'.workers[t]]
    requires HoldsFor(s.workers[t], typ) <==> HoldsFor(s'.workers[t], typ)
    ensures Holders(s', typ) == Holders(s, typ)
  {
    assert forall u :: u != t && u in s.workers ==> s'.workers[u] == s.workers[u];
  }

  /** A step changes whether its own goroutine holds a permit, and nobody else's. */
  lemma HoldersAfter(limit: nat, s: State, a: Action, typ: string)
    requires Enabled(limit, s, a)
    ensures var mine := a.Send? && s.workers[a.tid].typ == typ;
            var ended := a.Receive? && s.workers[a.tid].typ == typ;
            |Holders(Next(s, a), typ)| == |Holders(s, typ)| + (if mine then 1 else 0) - (if ended then 1 else 0)
  {
    var s' := Next(s, a);
    OwnHolding(limit, s, a, typ);
    forall u | u != a.tid ensures u in Holders(s', typ) <==> u in Holders(s, typ) {
      OtherHolding(limit, s, a, typ, u);
    }
    OneApart(Holders(s, typ), Holders(s', typ), a.tid);
  }

  lemma OtherHolding(limit: nat, s: State, a: Action, typ: string, u: Tid)
    requires Enabled(limit, s, a) && u != a.tid
    ensures u in Holders(Next(s, a), typ) <==> u in Holders(s, typ)
  {
    var s' := Next(s, a);
    assert (u in s'.workers <==> u in s.workers) && (u in s.workers ==> s'.workers[u] == s.workers[u]);
  }

  lemma OwnHolding(limit: nat, s: State, a: Action, typ: string)
    requires Enabled(limit, s, a)
    ensures a.tid in Holders(Next(s, a), typ) <==>
              (a.Send? && s.workers[a.tid].typ == typ) || (a.tid in Holders(s, typ) && !a.Receive?)
    ensures a.Send? ==> a.tid !in Holders(s, typ)
    ensures a.Receive? ==> (a.tid in Holders(s, typ) <==> s.workers[a.tid].typ == typ)
  {
  }

  lemma NobodyHoldsUnmade(limit: nat, s: State, typ: string)
    requires Inv(limit, s) && typ !in s.chs
    ensures Holders(s, typ) == {}
  {
    forall t | t in s.workers && s.workers[t].typ == typ ensures !HasPermit(s.workers[t]) {
      assert WorkerOk(s, t, s.workers[t]);
    }
  }

  lemma StepKeepsCounts(limit: nat, s: State, a: Action)
    requires Inv(limit, s) && Enabled(limit, s, a)
    ensures Counted(limit, Next(s, a))
  {
    var s' := Next(s, a);
    assert !a.Enter? ==> WorkerOk(s, a.tid, s.workers[a.tid]);
    forall typ | typ in s'.chs
      ensures s'.chs[typ] < s'.nextCh && s'.chs[typ] in s'.held && s'.held[s'.chs[typ]] == |Holders(s', typ)| <= limit
    {
      HoldersAfter(limit, s, a, typ);
      if typ !in s.chs {
        NobodyHoldsUnmade(limit, s, typ);
      }
    }
  }

  lemma StepKeepsInv(limit: nat, s: State, a: Action)
    requires Inv(limit, s) && Enabled(limit, s, a)
    ensures Inv(limit, Next(s, a))
  {
    var s' := Next(s, a);
    StepKeepsCounts(limit, s, a);
    assert !a.Enter? ==> WorkerOk(s, a.tid, s.workers[a.tid]);
    forall t | t in s'.workers ensures WorkerOk(s', t, s'.workers[t]) {
      assert t in s.workers ==> WorkerOk(s, t, s.workers[t]);
    }
  }

  lemma {:induction false} RunKeepsInv(limit: nat, s: State, run: seq<Action>)
    requires Inv(limit, s) && ValidRun(limit, s, run)
    ensures Inv(limit, After(limit, s, run))
    ensures forall typ :: typ in s.chs ==>
              typ in After(limit, s, run).chs && After(limit, s, run).chs[typ] == s.chs[typ]
    decreases |run|
  {
    if run != [] {
      StepKeepsInv(limit, s, run[0]);
      assert !run[0].Enter? ==> WorkerOk(s, run[0].tid, s.workers[run[0].tid]);
      RunKeepsInv(limit, Next(s, run[0]), run[1..]);
    }
  }

  /** At any time a type's semaphore holds one token for each goroutine between its Acquire and its Release. */
  lemma OccupancyIsHolders(limit: nat, run: seq<Action>, typ: string)
    requires ValidRun(limit, INIT, run)
    ensures var s := After(limit, INIT, run);
            && |Holders(s, typ)| <= limit
            && (if typ in s.chs then s.chs[typ] in s.held && s.held[s.chs[typ]] == |Holders(s, typ)|
                else Holders(s, typ) == {})
  {
    RunKeepsInv(limit, INIT, run);
    var s := After(limit, INIT, run);
    if typ !in s.chs {
      NobodyHoldsUnmade(limit, s, typ);
    }
  }

  /** A type keeps its semaphore for ever, and no other type has the same. */
  lemma OneSemaphorePerType(limit: nat, run: seq<Action>, later: seq<Action>, typ: string, other: string)
    requires ValidRun(limit, INIT, run) && ValidRun(limit, After(limit, INIT, run), later)
    requires typ in After(limit, INIT, run).chs
    ensures var s, s' := After(limit, INIT, run), After(limit, After(limit, INIT, run), later);
            && typ in s'.chs && s'.chs[typ] == s.chs[typ]
            && (other in s'.chs && other != typ ==> s'.chs[other] != s.chs[typ])
  {
    RunKeepsInv(limit, INIT, run);
    RunKeepsInv(limit, After(limit, INIT, run), later);
  }

  /** A Release that has its channel never blocks; an Acquire does exactly while `limit` others hold permits. */
  lemma OnlyFullAcquiresBlock(limit: nat, run: seq<Action>, t: Tid)
    requires ValidRun(limit, INIT, run) && t in After(limit, INIT, run).workers
    ensures var s := After(limit, INIT, run);
            var w := s.workers[t];
            && (w.at.Receiving? ==> Enabled(limit, s, Receive(t)))
            && (w.at.Sending? ==>
                  (Enabled(limit, s, Send(t)) <==> |Holders(s, w.typ)| < limit) && t !in Holders(s, w.typ))
  {
    RunKeepsInv(limit, INIT, run);
    var s := After(limit, INIT, run);
    assert WorkerOk(s, t, s.workers[t]);
    if s.workers[t].at.Receiving? {
      assert t in Holders(s, s.workers[t].typ);
    }
  }

  // ----- Nobody waits for ever -----

  /** How many steps a goroutine has left. */
  function Rank(w: Worker): nat {
    match w.at
    case Getting(Lock, releasing) => if releasing then 4 else 9
    case Getting(Read, releasing) => if releasing then 3 else 8
    case Getting(Make, releasing) => if releasing then 2 else 7
    case Sending(_) => 6
    case Inside => 5
    case Receiving(_) => 1
    case Gone => 0
  }

  function Work(workers: map<Tid, Worker>, n: nat): nat {
    if n == 0 then 0 else Work(workers, n - 1) + (if n - 1 in workers then Rank(workers[n - 1]) else 0)
  }

  lemma {:induction false} WorkAfterMove(workers: map<Tid, Worker>, t: Tid, w: Worker, n: nat)
    requires t in workers
    ensures Work(workers[t := w], n) == Work(workers, n) + (if t < n then Rank(w) - Rank(workers[t]) else 0)
  {
    if n > 0 {
      WorkAfterMove(workers, t, w, n - 1);
    }
  }

  function IdsBelow(workers: map<Tid, Worker>, n: nat): set<Tid> {
    set t | t in workers && t < n
  }

  lemma {:induction false} WorkBound(workers: map<Tid, Worker>, n: nat)
    ensures Work(workers, n) <= 9 * |IdsBelow(workers, n)|
  {
    if n > 0 {
      WorkBound(workers, n - 1);
      if n - 1 in workers {
        assert IdsBelow(workers, n) == IdsBelow(workers, n - 1) + {n - 1};
      } else {
        assert IdsBelow(workers, n) == IdsBelow(workers, n - 1);
      }
    }
  }

  predicate NoneEnters(run: seq<Action>) {
    forall a :: a in run ==> !a.Enter?
  }

  predicate Below(workers: map<Tid, Worker>, n: nat) {
    forall t :: t in workers ==> t < n
  }

  lemma {:induction false} StepsUseUpWork(limit: nat, s: State, run: seq<Action>, n: nat)
    requires ValidRun(limit, s, run) && NoneEnters(run) && Below(s.workers, n)
    ensures |run| + Work(After(limit, s, run).workers, n) <= Work(s.workers, n)
    decreases |run|
  {
    if run != [] {
      var a, s' := run[0], Next(s, run[0]);
      assert a in run && s'.workers == s.workers[a.tid := s'.workers[a.tid]];
      WorkAfterMove(s.workers, a.tid, s'.workers[a.tid], n);
      assert Rank(s'.workers[a.tid]) < Rank(s.workers[a.tid]);
      StepsUseUpWork(limit, s', run[1..], n);
    }
  }

  /** The step that a goroutine would take next. */
  function NextOf(t: Tid, w: Worker): Action {
    match w.at
    case Getting(Lock, _) => TakeLock(t)
    case Getting(Read, _) => LookUp(t)
    case Getting(Make, _) => MakeChannel(t)
    case Sending(_) => Send(t)
    case Inside => Finish(t)
    case _ => Receive(t)
  }

  lemma SomeoneMoves(limit: nat, s: State, t: Tid) returns (a: Action, mover: Tid)
    requires limit > 0 && Inv(limit, s) && t in s.workers && s.workers[t].at != Gone
    ensures mover in s.workers && a == NextOf(mover, s.workers[mover]) && Enabled(limit, s, a) && !a.Enter?
  {
    assert WorkerOk(s, t, s.workers[t]);
    mover := t;
    if m :| m in s.mutex {
      assert WorkerOk(s, m, s.workers[m]);
      mover := m;
    } else if s.workers[t].at.Receiving? {
      assert t in Holders(s, s.workers[t].typ);
    } else if s.workers[t].at.Sending? && !Enabled(limit, s, NextOf(t, s.workers[t])) {
      var typ := s.workers[t].typ;
      var h :| h in Holders(s, typ);
      assert WorkerOk(s, h, s.workers[h]);
      mover := h;
    }
    a := NextOf(mover, s.workers[mover]);
  }

  ghost predicate CanMove(limit: nat, s: State) {
    exists a: Action :: !a.Enter? && Enabled(limit, s, a)
  }

  predicate AllGone(s: State) {
    forall t :: t in s.workers ==> s.workers[t].at == Gone
  }

  lemma GoneOrMoving(limit: nat, s: State)
    requires limit > 0 && Inv(limit, s)
    ensures AllGone(s) || CanMove(limit, s)
  {
    if t :| t in s.workers && s.workers[t].at != Gone {
      var a, mover := SomeoneMoves(limit, s, t);
    }
  }

  lemma WorkLeft(limit: nat, s: State, rest: seq<Action>)
    requires ValidRun(limit, s, rest) && NoneEnters(rest)
    ensures |rest| <= 9 * |s.workers|
  {
    var n := IdBound(s.workers);
    StepsUseUpWork(limit, s, rest, n);
    WorkBound(s.workers, n);
    assert IdsBelow(s.workers, n) == s.workers.Keys;
    assert |s.workers.Keys| == |s.workers|;
  }

  /**
   The limiter never deadlocks: if no more jobs come, the goroutines there are take at most nine
   steps each, and at any time before all are through one of them can move.
   */
  lemma EveryoneGetsThrough(limit: nat, run: seq<Action>, rest: seq<Action>)
    requires limit > 0 && ValidRun(limit, INIT, run)
    requires ValidRun(limit, After(limit, INIT, run), rest) && NoneEnters(rest)
    ensures |rest| <= 9 * |After(limit, INIT, run).workers|
    ensures var s := After(limit, After(limit, INIT, run), rest); AllGone(s) || CanMove(limit, s)
  {
    var s := After(limit, INIT, run);
    WorkLeft(limit, s, rest);
    RunKeepsInv(limit, INIT, run);
    RunKeepsInv(limit, s, rest);
    GoneOrMoving(limit, After(limit, s, rest));
  }

  lemma {:induction false} IdBound(workers: map<Tid, Worker>) returns (n: nat)
    ensures Below(workers, n)
    decreases |workers.Keys|
  {
    n := 0;
    if t :| t in workers {
      var rest := workers - {t};
      assert rest.Keys == workers.Keys - {t};
      n := IdBound(rest);
      n := if t < n then n else t + 1;
      forall u | u in workers ensures u < n {
        assert u == t || u in rest;
      }
    }
  }

  // ----- The code -----

  lemma {:induction false} RunAppend(limit: nat, s: State, run: seq<Action>, a: Action)
    requires ValidRun(limit, s, run) && Enabled(limit, After(limit, s, run), a)
    ensures ValidRun(limit, s, run + [a]) && After(limit, s, run + [a]) == Next(After(limit, s, run), a)
    decreases |run|
  {
    if run == [] {
      assert run + [a] == [a] && [a][1..] == [];
    } else {
      assert (run + [a])[0] == run[0] && (run + [a])[1..] == run[1..] + [a];
      RunAppend(limit, Next(s, run[0]), run[1..], a);
    }
  }

  lemma {:induction false} RunConcat(limit: nat, s: State, first: seq<Action>, second: seq<Action>)
    requires ValidRun(limit, s, first) && ValidRun(limit, After(limit, s, first), second)
    ensures ValidRun(limit, s, first + second)
    ensures After(limit, s, first + second) == After(limit, After(limit, s, first), second)
    decreases |first|
  {
    if first == [] {
      assert first + second == second;
    } else {
      assert (first + second)[1..] == first[1..] + second;
      RunConcat(limit, Next(s, first[0]), first[1..], second);
    }
  }

  lemma OthersLeaveIt(limit: nat, s: State, a: Action, t: Tid)
    requires Enabled(limit, s, a) && !a.Enter? && t in s.workers && a.tid != t
    ensures Next(s, a).workers.Keys == s.workers.Keys && Next(s, a).workers[t] == s.workers[t]
  {
  }

  lemma MovesOn(limit: nat, s: State, t: Tid, m: Tid)
    requires Inv(limit, s) && t in s.workers && !Enabled(limit, s, NextOf(t, s.workers[t]))
    requires m in s.workers && Enabled(limit, s, NextOf(m, s.workers[m]))
    ensures var a := NextOf(m, s.workers[m]);
            && !a.Enter? && a.tid == m != t && Inv(limit, Next(s, a))
            && Next(s, a).workers.Keys == s.workers.Keys && Next(s, a).workers[t] == s.workers[t]
  {
    var a := NextOf(m, s.workers[m]);
    StepKeepsInv(limit, s, a);
    OthersLeaveIt(limit, s, a, t);
  }

  lemma OneStepUsesWork(limit: nat, s: State, a: Action, n: nat)
    requires Enabled(limit, s, a) && !a.Enter? && Below(s.workers, n)
    ensures Below(Next(s, a).workers, n) && Work(Next(s, a).workers, n) < Work(s.workers, n)
  {
    assert [a][1..] == [] && ValidRun(limit, Next(s, a), []);
    StepsUseUpWork(limit, s, [a], n);
  }

  /** A goroutine that waits to send can go on exactly if the type has room. */
  lemma RoomIsEnabled(limit: nat, s: State, t: Tid, typ: string, ch: Channel)
    requires Inv(limit, s) && t in s.workers && s.workers[t] == Worker(typ, Sending(ch))
    ensures Enabled(limit, s, Send(t)) <==> |Holders(s, typ)| < limit
  {
    assert WorkerOk(s, t, s.workers[t]);
  }

  /** The steps of getCh, when nobody else is in it, and where they lead. */
  lemma GetChSteps(limit: nat, s: State, t: Tid, typ: string, releasing: bool, s': State) returns (run: seq<Action>)
    requires Inv(limit, s) && t in s.workers && s.workers[t] == Worker(typ, Getting(Lock, releasing)) && s.mutex == {}
    requires var ch := if typ in s.chs then s.chs[typ] else s.nextCh;
             var moved := s.(workers := s.workers[t := Worker(typ, if releasing then Receiving(ch) else Sending(ch))]);
             s' == if typ in s.chs then moved
                   else moved.(chs := s.chs[typ := ch], nextCh := ch + 1, held := s.held[ch := 0])
    ensures ValidRun(limit, s, run) && After(limit, s, run) == s'
  {
    var s1 := Next(s, TakeLock(t));
    var s2 := Next(s1, LookUp(t));
    assert s1.mutex == {t} && {t} - {t} == {};
    RunAppend(limit, s, [], TakeLock(t));
    run := [] + [TakeLock(t)];
    RunAppend(limit, s, run, LookUp(t));
    run := run + [LookUp(t)];
    if typ in s.chs {
      assert s2.workers == s'.workers;
    } else {
      RunAppend(limit, s, run, MakeChannel(t));
      run := run + [MakeChannel(t)];
      assert Next(s2, MakeChannel(t)).workers == s'.workers;
    }
  }

  /** Some goroutine, other than a blocked one, takes its next step. */
  method SomeStep(limit: nat, s: State, ghost t: Tid) returns (s': State, ghost a: Action)
    requires limit > 0 && Inv(limit, s) && t in s.workers && s.workers[t].at != Gone
    requires !Enabled(limit, s, NextOf(t, s.workers[t]))
    ensures Enabled(limit, s, a) && !a.Enter? && a.tid != t && s' == Next(s, a) && Inv(limit, s')
    ensures s'.workers.Keys == s.workers.Keys && s'.workers[t] == s.workers[t]
  {
    ghost var _, mover := SomeoneMoves(limit, s, t);
    var m :| m in s.workers && Enabled(limit, s, NextOf(m, s.workers[m]));
    a := NextOf(m, s.workers[m]);
    MovesOn(limit, s, t, m);
    s' := Next(s, NextOf(m, s.workers[m]));
  }

  class ConcurrencyLimiter {
    const limit: nat
    var chs: map<string, Channel>
    var nextCh: Channel
    var held: map<Channel, nat>
    var mutex: set<Tid>
    var workers: map<Tid, Worker>

    ghost function View(): State
      reads this
    {
      State(chs, nextCh, held, mutex, workers)
    }

    constructor (limit: nat)
      ensures this.limit == limit && View() == INIT
    {
      this.limit := limit;
      chs, nextCh, held := map[], 0, map[];
      mutex, workers := {}, map[];
    }

    ghost predicate At(t: Tid, typ: string, at: At)
      reads this
    {
      t in workers && workers[t] == Worker(typ, at)
    }

    ghost predicate Ran(before: State, run: seq<Action>)
      reads this
    {
      ValidRun(limit, before, run) && After(limit, before, run) == View()
    }

    /** While this goroutine waits, some other one takes its next step. */
    method Yield(ghost t: Tid) returns (ghost a: Action)
      requires limit > 0 && Inv(limit, View()) && t in workers && workers[t].at != Gone
      requires !Enabled(limit, View(), NextOf(t, workers[t]))
      modifies this
      ensures Enabled(limit, old(View()), a) && !a.Enter? && a.tid != t
      ensures View() == Next(old(View()), a) && Inv(limit, View())
      ensures workers.Keys == old(workers).Keys && workers[t] == old(workers)[t]
    {
      var s: State;
      s, a := SomeStep(limit, State(chs, nextCh, held, mutex, workers), t);
      chs, nextCh, held, mutex, workers := s.chs, s.nextCh, s.held, s.mutex, s.workers;
    }

    /** The other goroutines move until this one can. */
    method Wait(t: Tid) returns (ghost run: seq<Action>)
      requires limit > 0 && Inv(limit, View()) && t in workers && workers[t].at != Gone
      modifies this
      ensures Ran(old(View()), run) && NoneEnters(run) && Inv(limit, View())
      ensures t in workers && workers[t] == old(workers)[t] && Enabled(limit, View(), NextOf(t, workers[t]))
      ensures Enabled(limit, old(View()), NextOf(t, old(workers)[t])) ==> View() == old(View())
    {
      ghost var before := View();
      ghost var n := IdBound(workers);
      run := [];
      while !Enabled(limit, State(chs, nextCh, held, mutex, workers), NextOf(t, workers[t]))
        invariant Ran(before, run) && NoneEnters(run) && Inv(limit, View()) && Below(workers, n)
        invariant t in workers && workers[t] == old(workers)[t]
        invariant Enabled(limit, before, NextOf(t, before.workers[t])) ==> View() == before
        decreases Work(workers, n)
      {
        ghost var here := View();
        ghost var a := Yield(t);
        RunAppend(limit, before, run, a);
        run := run + [a];
        OneStepUsesWork(limit, here, a, n);
      }
    }

    /** The critical section of getCh, from a free mutex to a free mutex. */
    method FindCh(t: Tid, typ: string, releasing: bool) returns (ch: Channel, ghost run: seq<Action>)
      requires Inv(limit, View()) && At(t, typ, Getting(Lock, releasing)) && mutex == {}
      modifies this
      ensures Ran(old(View()), run) && Inv(limit, View()) && mutex == {}
      ensures At(t, typ, if releasing then Receiving(ch) else Sending(ch))
      ensures typ in chs && chs[typ] == ch && ch in held
      ensures Holders(View(), typ) == Holders(old(View()), typ)
    {
      ghost var before := View();
      if typ in chs {
        ch := chs[typ];
      } else {
        ch := nextCh;
        nextCh := nextCh + 1;
        held := held[ch := 0];
        chs := chs[typ := ch];
      }
      workers := workers[t := Worker(typ, if releasing then Receiving(ch) else Sending(ch))];
      run := GetChSteps(limit, before, t, typ, releasing, View());
      RunKeepsInv(limit, before, run);
      assert WorkerOk(View(), t, workers[t]);
      assert HoldsFor(before.workers[t], typ) <==> HoldsFor(workers[t], typ);
      SameHolders(before, View(), t, typ);
    }

    /** Waits for the mutex; then the type's channel, which is made if there is none. */
    method GetCh(t: Tid, typ: string, releasing: bool) returns (ch: Channel, ghost run: seq<Action>)
      requires limit > 0 && Inv(limit, View()) && At(t, typ, Getting(Lock, releasing))
      modifies this
      ensures Ran(old(View()), run) && Inv(limit, View()) && mutex == {}
      ensures At(t, typ, if releasing then Receiving(ch) else Sending(ch))
      ensures typ in chs && chs[typ] == ch && ch in held
      ensures old(mutex) == {} ==> Holders(View(), typ) == Holders(old(View()), typ)
    {
      ghost var before := View();
      run := Wait(t);
      ghost var rest: seq<Action>;
      ch, rest := FindCh(t, typ, releasing);
      RunConcat(limit, before, run, rest);
      run := run + rest;
    }

    /** The send on the type's channel: it waits while the channel is full. */
    method SendTo(t: Tid, typ: string, ch: Channel) returns (ghost run: seq<Action>)
      requires limit > 0 && Inv(limit, View()) && At(t, typ, Sending(ch))
      modifies this
      ensures Ran(old(View()), run) && Inv(limit, View()) && At(t, typ, Inside)
      ensures typ in chs && chs[typ] in held && 0 < held[chs[typ]] == |Holders(View(), typ)| <= limit
      ensures |Holders(old(View()), typ)| < limit ==> held[chs[typ]] == |Holders(old(View()), typ)| + 1
    {
      ghost var before := View();
      RoomIsEnabled(limit, before, t, typ, ch);
      run := Wait(t);
      ghost var s := View();
      assert WorkerOk(s, t, s.workers[t]);
      RunAppend(limit, before, run, Send(t));
      StepKeepsInv(limit, s, Send(t));
      HoldersAfter(limit, s, Send(t), typ);
      run := run + [Send(t)];
      held := held[ch := held[ch] + 1];
      workers := workers[t := Worker(typ, Inside)];
    }

    /** Waits for the mutex, and then while the type's semaphore is full. */
    method Acquire(t: Tid, typ: string) returns (ghost run: seq<Action>)
      requires limit > 0 && Inv(limit, View()) && At(t, typ, Getting(Lock, false))
      modifies this
      ensures Ran(old(View()), run) && Inv(limit, View()) && At(t, typ, Inside)
      ensures typ in chs && chs[typ] in held && 0 < held[chs[typ]] == |Holders(View(), typ)| <= limit
      ensures old(mutex) == {} && |Holders(old(View()), typ)| < limit ==>
                held[chs[typ]] == |Holders(old(View()), typ)| + 1
    {
      ghost var before := View();
      var ch: Channel;
      ch, run := GetCh(t, typ, false);
      ghost var rest := SendTo(t, typ, ch);
      RunConcat(limit, before, run, rest);
      run := run + rest;
    }

    /** Waits for the mutex and nothing else, as the receive never does. */
    method Release(t: Tid, typ: string) returns (ghost run: seq<Action>)
      requires limit > 0 && Inv(limit, View()) && At(t, typ, Getting(Lock, true))
      modifies this
      ensures Ran(old(View()), run) && Inv(limit, View()) && At(t, typ, Gone)
      ensures typ in chs && chs[typ] in held && held[chs[typ]] == |Holders(View(), typ)|
      ensures old(mutex) == {} ==> held[chs[typ]] == |Holders(old(View()), typ)| - 1
    {
      ghost var before := View();
      var ch: Channel;
      ch, run := GetCh(t, typ, true);
      ReceiveFrom(t, typ, ch);
      RunAppend(limit, before, run, Receive(t));
      run := run + [Receive(t)];
    }

    /** The receive from the type's channel. */
    method ReceiveFrom(t: Tid, typ: string, ch: Channel)
      requires Inv(limit, View()) && At(t, typ, Receiving(ch))
      modifies this
      ensures Enabled(limit, old(View()), Receive(t)) && View() == Next(old(View()), Receive(t)) && Inv(limit, View())
      ensures At(t, typ, Gone) && typ in chs && chs[typ] in held
      ensures held[chs[typ]] == |Holders(View(), typ)| == |Holders(old(View()), typ)| - 1
    {
      ghost var s := View();
      assert WorkerOk(s, t, s.workers[t]) && t in Holders(s, typ);
      StepKeepsInv(limit, s, Receive(t));
      HoldersAfter(limit, s, Receive(t), typ);
      held := held[ch := held[ch] - 1];
      workers := workers[t := Worker(typ, Gone)];
    }
  }
}
