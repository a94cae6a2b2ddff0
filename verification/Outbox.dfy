/**
 The outbox processor: batches of at most ten pending rows, oldest first, each handled and then
 marked "sent" or "failed". Workers insert rows at any time; there is one processor.
 */
module OutboxProcessing {
  import opened Jobs
  import opened Query

  datatype MailStatus = Waiting | Sent | Undelivered

  datatype Mail = Mail(row: OutboxRow, created: int, status: MailStatus)

  /** One handling of a row: what the handler returned, and whether the status update took effect. */
  datatype Handling = Handling(mail: nat, ok: bool, stored: bool)

  /** `todo` is the rest of the batch being worked on; `handled` is history. A row's id is its index. */
  datatype State = State(mails: seq<Mail>, todo: seq<nat>, handled: seq<Handling>)

  datatype Action =
    | Insert(row: OutboxRow, created: int)
    | List(ids: seq<nat>)
    | Handle(ok: bool, stored: bool)

  function PendingKeys(mails: seq<Mail>): map<nat, int> {
    map i: nat | 0 <= i < |mails| && mails[i].status == Waiting :: mails[i].created
  }

  /** Only e-mail rows are sent; the handler rejects an invalid payload and otherwise answers as it likes. */
  predicate HandlerMay(env: Env, row: OutboxRow, ok: bool) {
    (row.typ != EMAIL ==> ok) && (row.typ == EMAIL && !env.validEmail(row.payload) ==> !ok)
  }

  ghost predicate Enabled(env: Env, s: State, a: Action) {
    match a
    case Insert(_, _) => true
    case List(ids) => s.todo == [] && Listing(PendingKeys(s.mails), 10, ids)
    case Handle(ok, _) => |s.todo| > 0 && s.todo[0] < |s.mails| && HandlerMay(env, s.mails[s.todo[0]].row, ok)
  }

  function Marked(mails: seq<Mail>, h: Handling): seq<Mail> {
    if h.stored && h.mail < |mails|
    then mails[h.mail := mails[h.mail].(status := if h.ok then Sent else Undelivered)] else mails
  }

  function Next(s: State, a: Action): State {
    match a
    case Insert(row, created) => s.(mails := s.mails + [Mail(row, created, Waiting)])
    case List(ids) => s.(todo := ids)
    case Handle(ok, stored) =>
      if |s.todo| == 0 then s else
      var h := Handling(s.todo[0], ok, stored);
      State(Marked(s.mails, h), s.todo[1..], s.handled + [h])
  }

  ghost predicate ValidRun(env: Env, s: State, run: seq<Action>)
    decreases |run|
  {
    run == [] || (Enabled(env, s, run[0]) && ValidRun(env, Next(s, run[0]), run[1..]))
  }

  function After(s: State, run: seq<Action>): State
    decreases |run|
  {
    if run == [] then s else After(Next(s, run[0]), run[1..])
  }

  const EMPTY: State := State([], [], [])

  // ----- Exactly once -----

  function Handlings(handled: seq<Handling>, mail: nat): nat {
    if handled == [] then 0
    else Handlings(handled[..|handled| - 1], mail) + (if handled[|handled| - 1].mail == mail then 1 else 0)
  }

  function Unstored(handled: seq<Handling>, mail: nat): nat {
    if handled == [] then 0
    else Unstored(handled[..|handled| - 1], mail)
         + (if handled[|handled| - 1].mail == mail && !handled[|handled| - 1].stored then 1 else 0)
  }

  /** The handling whose update was stored decides the row's status. */
  ghost predicate Decided(s: State, i: nat)
    requires i < |s.mails|
  {
    && (s.mails[i].status == Waiting <==> forall h :: h in s.handled && h.mail == i ==> !h.stored)
    && (forall h :: h in s.handled && h.mail == i && h.stored ==> (s.mails[i].status == Sent <==> h.ok))
    && Handlings(s.handled, i) == Unstored(s.handled, i) + (if s.mails[i].status == Waiting then 0 else 1)
  }

  ghost predicate Inv(s: State) {
    && (forall i :: 0 <= i < |s.mails| ==> Decided(s, i))
    && (forall i :: 0 <= i < |s.todo| ==> s.todo[i] < |s.mails| && s.mails[s.todo[i]].status == Waiting)
    && (forall i, j :: 0 <= i < j < |s.todo| ==> s.todo[i] != s.todo[j])
    && (forall h :: h in s.handled ==> h.mail < |s.mails|)
  }

  lemma {:induction false} Unhandled(handled: seq<Handling>, mail: nat)
    requires forall h :: h in handled ==> h.mail != mail
    ensures Handlings(handled, mail) == 0 && Unstored(handled, mail) == 0
  {
    if handled != [] {
      assert handled[|handled| - 1] in handled;
      Unhandled(handled[..|handled| - 1], mail);
    }
  }

  lemma HandleKeeps(env: Env, s: State, ok: bool, stored: bool)
    requires Inv(s) && Enabled(env, s, Handle(ok, stored))
    ensures Inv(Next(s, Handle(ok, stored)))
  {
    var s', h := Next(s, Handle(ok, stored)), Handling(s.todo[0], ok, stored);
    assert s'.handled[..|s.handled|] == s.handled;
    forall i | 0 <= i < |s'.mails| ensures Decided(s', i) {
      assert Decided(s, i);
      assert h in s'.handled;
    }
  }

  lemma StepKeepsInv(env: Env, s: State, a: Action)
    requires Inv(s) && Enabled(env, s, a)
    ensures Inv(Next(s, a))
  {
    var s' := Next(s, a);
    match a
    case Insert(_, _) =>
      Unhandled(s.handled, |s.mails|);
      forall i | 0 <= i < |s'.mails| ensures Decided(s', i) {
        assert i < |s.mails| ==> Decided(s, i);
      }
    case List(ids) =>
      forall i | 0 <= i < |s'.mails| ensures Decided(s', i) {
        assert Decided(s, i);
      }
    case Handle(ok, stored) => HandleKeeps(env, s, ok, stored);
  }

  lemma {:induction false} RunKeepsInv(env: Env, s: State, run: seq<Action>)
    requires Inv(s) && ValidRun(env, s, run)
    ensures Inv(After(s, run))
    decreases |run|
  {
    if run != [] {
      StepKeepsInv(env, s, run[0]);
      RunKeepsInv(env, Next(s, run[0]), run[1..]);
    }
  }

  /**
   Over any run, a row is handled once for each status update that failed, and once more if it has
   left "pending": exactly once when updates succeed. It is "sent" exactly if that handling's
   handler returned no error.
   */
  lemma HandledOncePlusFailedUpdates(env: Env, run: seq<Action>, i: nat)
    requires ValidRun(env, EMPTY, run) && i < |After(EMPTY, run).mails|
    ensures var s := After(EMPTY, run);
            && Handlings(s.handled, i) == Unstored(s.handled, i) + (if s.mails[i].status == Waiting then 0 else 1)
            && (s.mails[i].status == Sent ==> exists h :: h in s.handled && h.mail == i && h.stored && h.ok)
            && (s.mails[i].status == Undelivered ==> exists h :: h in s.handled && h.mail == i && h.stored && !h.ok)
  {
    RunKeepsInv(env, EMPTY, run);
    assert Decided(After(EMPTY, run), i);
  }

  /** A row is not "sent" with an invalid e-mail payload, and not "failed" unless it is for an e-mail. */
  predicate OutcomeFits(env: Env, m: Mail) {
    && (m.status == Sent && m.row.typ == EMAIL ==> env.validEmail(m.row.payload))
    && (m.status == Undelivered ==> m.row.typ == EMAIL)
  }

  lemma {:induction false} OutcomesFit(env: Env, s: State, run: seq<Action>)
    requires ValidRun(env, s, run) && forall i :: 0 <= i < |s.mails| ==> OutcomeFits(env, s.mails[i])
    ensures forall i :: 0 <= i < |After(s, run).mails| ==> OutcomeFits(env, After(s, run).mails[i])
    decreases |run|
  {
    if run != [] {
      OutcomesFit(env, Next(s, run[0]), run[1..]);
    }
  }

  // ----- Batches and order -----

  /** The rows after a batch was handled. */
  function Applied(mails: seq<Mail>, batch: seq<Handling>): seq<Mail>
    decreases |batch|
  {
    if batch == [] then mails else Applied(Marked(mails, batch[0]), batch[1..])
  }

  function MailsOf(batch: seq<Handling>): seq<nat> {
    seq(|batch|, i requires 0 <= i < |batch| => batch[i].mail)
  }

  lemma {:induction false} AppliedAppend(mails: seq<Mail>, batch: seq<Handling>, h: Handling)
    ensures Applied(mails, batch + [h]) == Marked(Applied(mails, batch), h)
    decreases |batch|
  {
    if batch == [] {
      assert [h][1..] == [];
    } else {
      assert (batch + [h])[1..] == batch[1..] + [h];
      AppliedAppend(Marked(mails, batch[0]), batch[1..], h);
    }
  }

  /** A stored batch decides exactly its rows. */
  lemma {:induction false} AppliedAt(mails: seq<Mail>, batch: seq<Handling>, i: nat)
    requires i < |mails| && (forall h :: h in batch ==> h.stored)
    ensures |Applied(mails, batch)| == |mails| && Applied(mails, batch)[i].created == mails[i].created
    ensures Applied(mails, batch)[i].status == Waiting <==> mails[i].status == Waiting && i !in MailsOf(batch)
    decreases |batch|
  {
    if batch != [] {
      assert batch[0] in batch;
      AppliedAt(Marked(mails, batch[0]), batch[1..], i);
      assert MailsOf(batch) == [batch[0].mail] + MailsOf(batch[1..]);
    }
  }

  /** The rows created up to some time that still wait. */
  ghost function WaitingBy(mails: seq<Mail>, bound: int): set<nat> {
    set i | i in PendingKeys(mails) && PendingKeys(mails)[i] <= bound
  }

  lemma AppliedDecides(mails: seq<Mail>, batch: seq<Handling>, bound: int, i: nat)
    requires forall h :: h in batch ==> h.stored
    ensures i in WaitingBy(Applied(mails, batch), bound) <==> i in WaitingBy(mails, bound) && i !in MailsOf(batch)
  {
    AppliedLength(mails, batch);
    if i < |mails| {
      AppliedAt(mails, batch, i);
    }
  }

  /** Of the rows that wait, a listing takes the ten oldest, or all. */
  lemma ListedOldest(mails: seq<Mail>, ids: seq<nat>, bound: int, rest: set<nat>)
    requires Listing(PendingKeys(mails), 10, ids)
    requires forall i :: i in rest <==> i in WaitingBy(mails, bound) && i !in ids
    ensures |rest| == Max0(|WaitingBy(mails, bound)| - 10)
  {
    var keys := PendingKeys(mails);
    var within, listed := set id | id in keys && keys[id] <= bound, set id | id in ids;
    ListingTakesFirst(keys, 10, ids, bound);
    assert within == WaitingBy(mails, bound) && rest == within - listed;
  }

  /** Of the rows created up to some time, a batch with stored updates decides ten, or all that wait. */
  lemma BatchTakesOldest(mails: seq<Mail>, batch: seq<Handling>, bound: int)
    requires Listing(PendingKeys(mails), 10, MailsOf(batch)) && (forall h :: h in batch ==> h.stored)
    ensures |WaitingBy(Applied(mails, batch), bound)| == Max0(|WaitingBy(mails, bound)| - 10)
  {
    forall i: nat
      ensures i in WaitingBy(Applied(mails, batch), bound) <==> i in WaitingBy(mails, bound) && i !in MailsOf(batch)
    {
      AppliedDecides(mails, batch, bound, i);
    }
    ListedOldest(mails, MailsOf(batch), bound, WaitingBy(Applied(mails, batch), bound));
  }

  /** Of those, the ones that are not in the batch under way either. */
  ghost function Untaken(s: State, bound: int): set<nat> {
    set i | i in WaitingBy(s.mails, bound) && i !in s.todo
  }

  /** Updates succeed, and rows are inserted for later than `bound`. */
  predicate Later(a: Action, bound: int) {
    (a.Handle? ==> a.stored) && (a.Insert? ==> a.created > bound)
  }

  function Batches(run: seq<Action>): nat {
    if run == [] then 0 else (if run[0].List? then 1 else 0) + Batches(run[1..])
  }

  lemma ListTakesTen(env: Env, s: State, ids: seq<nat>, bound: int)
    requires Enabled(env, s, List(ids))
    ensures |Untaken(Next(s, List(ids)), bound)| == Max0(|Untaken(s, bound)| - 10)
  {
    assert Untaken(s, bound) == WaitingBy(s.mails, bound);
    ListedOldest(s.mails, ids, bound, Untaken(Next(s, List(ids)), bound));
  }

  lemma OthersTakeNothing(env: Env, s: State, a: Action, bound: int)
    requires Inv(s) && Enabled(env, s, a) && Later(a, bound) && !a.List?
    ensures Untaken(Next(s, a), bound) == Untaken(s, bound)
  {
    var s' := Next(s, a);
    forall i: nat ensures i in Untaken(s', bound) <==> i in Untaken(s, bound) {
      if a.Handle? {
        assert i in s.todo <==> i == s.todo[0] || i in s.todo[1..];
      }
    }
  }

  /**
   No row starves: the n rows that wait, created up to `bound`, are all decided or in the batch under
   way once ceil(n / 10) batches were listed, over any run in which later rows are inserted at any step.
   */
  lemma {:induction false} BatchesClear(env: Env, s: State, run: seq<Action>, bound: int)
    requires Inv(s) && ValidRun(env, s, run) && forall a :: a in run ==> Later(a, bound)
    ensures |Untaken(After(s, run), bound)| <= Max0(|Untaken(s, bound)| - 10 * Batches(run))
    ensures After(s, run).todo == [] ==> WaitingBy(After(s, run).mails, bound) == Untaken(After(s, run), bound)
    decreases |run|
  {
    if run != [] {
      var a := run[0];
      if a.List? {
        ListTakesTen(env, s, a.ids, bound);
      } else {
        OthersTakeNothing(env, s, a, bound);
      }
      StepKeepsInv(env, s, a);
      BatchesClear(env, Next(s, a), run[1..], bound);
    }
  }

  /** Updates succeed, and rows are inserted in order of their creation time. */
  ghost predicate Orderly(s: State, a: Action) {
    && (a.Handle? ==> a.stored)
    && (a.Insert? ==> forall m :: m in s.mails ==> m.created <= a.created)
  }

  ghost predicate OrderlyRun(env: Env, s: State, run: seq<Action>)
    decreases |run|
  {
    run == [] || (Enabled(env, s, run[0]) && Orderly(s, run[0]) && OrderlyRun(env, Next(s, run[0]), run[1..]))
  }

  /** What was handled, and then the rest of the batch. */
  function Order(s: State): seq<nat> {
    MailsOf(s.handled) + s.todo
  }

  /** It is oldest first, and everything else that waits is no older. */
  ghost predicate InOrder(s: State) {
    var order := Order(s);
    && (forall i :: 0 <= i < |order| ==> order[i] < |s.mails|)
    && (forall i, j :: 0 <= i < j < |order| ==> s.mails[order[i]].created <= s.mails[order[j]].created)
    && (forall i, k :: 0 <= i < |order| && 0 <= k < |s.mails| && s.mails[k].status == Waiting && k !in s.todo ==>
          s.mails[order[i]].created <= s.mails[k].created)
  }

  lemma HandleInOrder(env: Env, s: State, ok: bool)
    requires InOrder(s) && Enabled(env, s, Handle(ok, true))
    ensures InOrder(Next(s, Handle(ok, true)))
  {
    var s' := Next(s, Handle(ok, true));
    assert s.todo == [s.todo[0]] + s'.todo;
    assert MailsOf(s'.handled) == MailsOf(s.handled) + [s.todo[0]];
    assert Order(s') == Order(s);
    assert forall k :: 0 <= k < |s.mails| ==> s'.mails[k].created == s.mails[k].created;
    assert forall k :: 0 <= k < |s.mails| && s'.mails[k].status == Waiting && k !in s'.todo ==>
        s.mails[k].status == Waiting && k !in s.todo;
  }

  lemma ListInOrder(env: Env, s: State, ids: seq<nat>)
    requires InOrder(s) && Enabled(env, s, List(ids))
    ensures InOrder(Next(s, List(ids)))
  {
    var keys, done, s' := PendingKeys(s.mails), MailsOf(s.handled), Next(s, List(ids));
    var n, order := |done|, Order(s');
    assert Order(s) == done && order == done + ids;
    forall i | 0 <= i < |ids| ensures ids[i] in keys && keys[ids[i]] == s.mails[ids[i]].created {
    }
    forall i, j | 0 <= i < j < |order| ensures s.mails[order[i]].created <= s.mails[order[j]].created {
      assert order[i] == if i < n then done[i] else ids[i - n];
      assert order[j] == if j < n then done[j] else ids[j - n];
      if n <= i {
        assert keys[ids[i - n]] <= keys[ids[j - n]];
      } else if n <= j {
        assert order[j] in keys;
      }
    }
    forall i, k | 0 <= i < |order| && 0 <= k < |s.mails| && s.mails[k].status == Waiting && k !in ids
      ensures s.mails[order[i]].created <= s.mails[k].created
    {
      assert k in keys;
      if i < n {
        assert order[i] == done[i];
      } else {
        assert keys[ids[i - n]] <= keys[k];
      }
    }
  }

  lemma StepInOrder(env: Env, s: State, a: Action)
    requires InOrder(s) && Enabled(env, s, a) && Orderly(s, a)
    ensures InOrder(Next(s, a))
  {
    match a
    case Insert(row, created) => assert Order(Next(s, a)) == Order(s);
    case List(ids) => ListInOrder(env, s, ids);
    case Handle(ok, _) => HandleInOrder(env, s, ok);
  }

  ghost predicate HandledSorted(s: State) {
    && (forall h :: h in s.handled ==> h.mail < |s.mails|)
    && forall i, j :: 0 <= i < j < |s.handled| ==>
         s.mails[s.handled[i].mail].created <= s.mails[s.handled[j].mail].created
  }

  lemma InOrderSorts(s: State)
    requires InOrder(s)
    ensures HandledSorted(s)
  {
    forall i | 0 <= i < |s.handled| ensures Order(s)[i] == s.handled[i].mail < |s.mails| {
    }
  }

  lemma {:induction false} RunInOrder(env: Env, s: State, run: seq<Action>)
    requires InOrder(s) && OrderlyRun(env, s, run)
    ensures InOrder(After(s, run))
    decreases |run|
  {
    if run != [] {
      StepInOrder(env, s, run[0]);
      RunInOrder(env, Next(s, run[0]), run[1..]);
    }
  }

  /** Over the whole run the processor handles rows in order of creation. */
  lemma HandledOldestFirst(env: Env, run: seq<Action>)
    requires OrderlyRun(env, EMPTY, run)
    ensures HandledSorted(After(EMPTY, run))
  {
    RunInOrder(env, EMPTY, run);
    InOrderSorts(After(EMPTY, run));
  }

  lemma {:induction false} AppliedLength(mails: seq<Mail>, batch: seq<Handling>)
    ensures |Applied(mails, batch)| == |mails|
    ensures forall i :: 0 <= i < |mails| ==> Applied(mails, batch)[i].row == mails[i].row
    decreases |batch|
  {
    if batch != [] {
      AppliedLength(Marked(mails, batch[0]), batch[1..]);
    }
  }

  /** Rows were added, which wait; none was changed. */
  ghost predicate Grew(mails: seq<Mail>, mails': seq<Mail>) {
    mails <= mails' && forall i :: |mails| <= i < |mails'| ==> mails'[i].status == Waiting
  }

  lemma GrewThenMarked(mails: seq<Mail>, mails': seq<Mail>, h: Handling, mails'': seq<Mail>)
    requires Grew(mails, mails') && h.mail < |mails| && Grew(Marked(mails', h), mails'')
    ensures Grew(Marked(mails, h), mails'')
  {
  }

  lemma {:induction false} RunAppend(env: Env, s: State, run: seq<Action>, a: Action)
    requires ValidRun(env, s, run) && Enabled(env, After(s, run), a)
    ensures ValidRun(env, s, run + [a]) && After(s, run + [a]) == Next(After(s, run), a)
    decreases |run|
  {
    if run == [] {
      assert run + [a] == [a] && [a][1..] == [];
    } else {
      assert (run + [a])[0] == run[0] && (run + [a])[1..] == run[1..] + [a];
      RunAppend(env, Next(s, run[0]), run[1..], a);
    }
  }

  /** The outbox table and its processor. Workers insert rows between any two of the processor's calls. */
  class Outbox {
    const env: Env
    var mails: seq<Mail>
    ghost var todo: seq<nat>
    ghost var handled: seq<Handling>

    /** How many of the store's calls have returned an error. */
    ghost var faults: nat

    ghost function View(): State
      reads this
    {
      State(mails, todo, handled)
    }

    /** The run led from `before` to where the outbox is now. */
    ghost predicate Ran(before: State, run: seq<Action>)
      reads this
    {
      ValidRun(env, before, run) && After(before, run) == View()
    }

    constructor (env: Env)
      ensures this.env == env && View() == EMPTY && faults == 0
    {
      this.env := env;
      mails, todo, handled, faults := [], [], [], 0;
    }

    /** Any number of insertions by the workers. */
    method OthersInsert(ghost before: State, ghost run: seq<Action>) returns (ghost ran: seq<Action>)
      requires Ran(before, run)
      modifies this`mails
      ensures Ran(before, ran) && Grew(old(mails), mails)
    {
      ran := run;
      var more: seq<(OutboxRow, int)> := *;
      for i := 0 to |more|
        invariant Ran(before, ran) && Grew(old(mails), mails)
      {
        RunAppend(env, before, ran, Insert(more[i].0, more[i].1));
        mails := mails + [Mail(more[i].0, more[i].1, Waiting)];
        ran := ran + [Insert(more[i].0, more[i].1)];
      }
    }

    /** The email handler, if there is one; rows of another type are passed over as sent. */
    method Deliver(mail: Mail) returns (ok: bool)
      ensures HandlerMay(env, mail.row, ok)
    {
      if mail.row.typ == EMAIL {
        ok := *;
        ok := ok && env.validEmail(mail.row.payload);
      } else {
        ok := true;
      }
    }

    /** UPDATE outbox SET status. One that fails may have taken effect. */
    method UpdateOutboxStatus(ghost before: State, ghost run: seq<Action>, id: nat, ok: bool)
      returns (ghost h: Handling, ghost ran: seq<Action>)
      requires Ran(before, run) && |todo| > 0 && todo[0] == id < |mails| && HandlerMay(env, mails[id].row, ok)
      modifies this
      ensures Ran(before, ran) && h.mail == id && h.ok == ok
      ensures mails == Marked(old(mails), h) && handled == old(handled) + [h] && todo == old(todo)[1..]
      ensures faults >= old(faults) && (!h.stored ==> faults > old(faults))
    {
      var stored: bool, confirmed: bool := *, *;
      RunAppend(env, before, run, Handle(ok, stored));
      ran := run + [Handle(ok, stored)];
      h := Handling(id, ok, stored);
      if stored {
        mails := mails[id := mails[id].(status := if ok then Sent else Undelivered)];
      }
      todo, handled := todo[1..], handled + [h];
      faults := faults + if stored && confirmed then 0 else 1;
    }

    method HandleOne(ghost before: State, ghost run: seq<Action>, id: nat)
      returns (ghost h: Handling, ghost ran: seq<Action>)
      requires Ran(before, run) && |todo| > 0 && todo[0] == id < |mails|
      modifies this
      ensures Ran(before, ran) && h.mail == id && HandlerMay(env, old(mails)[id].row, h.ok)
      ensures Grew(Marked(old(mails), h), mails) && handled == old(handled) + [h] && todo == old(todo)[1..]
      ensures faults >= old(faults) && (!h.stored ==> faults > old(faults))
    {
      var ok := Deliver(mails[id]);
      ran := OthersInsert(before, run);
      ghost var here := mails;
      h, ran := UpdateOutboxStatus(before, ran, id, ok);
      GrewThenMarked(old(mails), here, h, mails);
    }

    /** The listed rows in their order, whatever becomes of the ones before. */
    method HandleAll(ghost before: State, ghost run: seq<Action>, pending: seq<nat>)
      returns (ghost batch: seq<Handling>, ghost ran: seq<Action>)
      requires Ran(before, run) && todo == pending && forall k :: 0 <= k < |pending| ==> pending[k] < |mails|
      modifies this
      ensures Ran(before, ran) && todo == []
      ensures MailsOf(batch) == pending && handled == old(handled) + batch
      ensures BatchSoFar(env, old(mails), mails, batch)
      ensures faults >= old(faults) && (faults > old(faults) || forall h :: h in batch ==> h.stored)
    {
      batch, ran := [], run;
      for i := 0 to |pending|
        invariant Ran(before, ran) && todo == pending[i..]
        invariant MailsOf(batch) == pending[..i] && handled == old(handled) + batch
        invariant BatchSoFar(env, old(mails), mails, batch)
        invariant faults >= old(faults) && (faults > old(faults) || forall h :: h in batch ==> h.stored)
      {
        AppliedLength(old(mails), batch);
        ghost var here, h := mails, *;
        h, ran := HandleOne(before, ran, pending[i]);
        BatchGrows(env, old(mails), here, mails, batch, h);
        assert pending[..i + 1] == pending[..i] + [h.mail];
        batch := batch + [h];
      }
      assert pending[..|pending|] == pending;
    }

    /**
     One batch. It is a run of the outbox, with insertions at any step: the oldest pending rows of
     the table as it is when listed, in order, each handled once, and all marked unless a call
     returned an error. What is inserted meanwhile waits for the next one.
     */
    method RunOutboxBatch()
      returns (ghost run: seq<Action>, ghost listed: seq<Mail>, ghost batch: seq<Handling>)
      requires todo == []
      modifies this
      ensures Ran(old(View()), run) && todo == [] && handled == old(handled) + batch
      ensures Grew(old(mails), listed) && BatchSoFar(env, listed, mails, batch)
      ensures batch == [] || Listing(PendingKeys(listed), 10, MailsOf(batch))
      ensures faults > old(faults) ||
              (Listing(PendingKeys(listed), 10, MailsOf(batch)) && forall h :: h in batch ==> h.stored)
    {
      ghost var before := View();
      run := OthersInsert(before, []);
      listed, batch := mails, [];
      var ok: bool := *;
      if !ok {
        faults := faults + 1;
        return;
      }
      var pending := Select(PendingKeys(mails), 10);
      assert forall k :: 0 <= k < |pending| ==> pending[k] in PendingKeys(mails);
      RunAppend(env, before, run, List(pending));
      run, todo := run + [List(pending)], pending;
      batch, run := HandleAll(before, run, pending);
    }
  }

  /** The batch was applied to the rows of `before`, and others were added. */
  ghost predicate BatchSoFar(env: Env, before: seq<Mail>, mails: seq<Mail>, batch: seq<Handling>) {
    && Grew(Applied(before, batch), mails)
    && forall h :: h in batch ==> h.mail < |before| && HandlerMay(env, before[h.mail].row, h.ok)
  }

  lemma BatchGrows(env: Env, before: seq<Mail>, mails: seq<Mail>, mails': seq<Mail>, batch: seq<Handling>, h: Handling)
    requires BatchSoFar(env, before, mails, batch) && Grew(Marked(mails, h), mails')
    requires h.mail < |before| && HandlerMay(env, before[h.mail].row, h.ok)
    ensures BatchSoFar(env, before, mails', batch + [h])
    ensures MailsOf(batch + [h]) == MailsOf(batch) + [h.mail]
  {
    AppliedLength(before, batch);
    AppliedAppend(before, batch, h);
    GrewThenMarked(Applied(before, batch), mails, h, mails');
    assert MailsOf(batch + [h]) == MailsOf(batch) + [h.mail];
  }
}
