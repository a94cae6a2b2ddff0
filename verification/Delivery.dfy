/**
 E-mail from end to end: the outbox rows that the lifecycle inserts are those that the outbox
 processor handles.
 */
module Delivery {
  import opened Jobs
  import Outcomes
  import L = Lifecycle
  import O = OutboxProcessing

  /** The processor was handed the lifecycle's outbox, row by row. */
  ghost predicate SameOutbox(outbox: seq<OutboxRow>, mails: seq<O.Mail>) {
    |mails| == |outbox| && forall i :: 0 <= i < |mails| ==> mails[i].row == outbox[i]
  }

  /** How often a row of this job was handled. */
  function HandledFor(mails: seq<O.Mail>, handled: seq<O.Handling>, id: JobId): nat {
    if handled == [] then 0 else
    var n := |handled| - 1;
    HandledFor(mails, handled[..n], id)
    + (if handled[n].mail < |mails| && mails[handled[n].mail].row.jobId == id then 1 else 0)
  }

  lemma {:induction false} HandledForOnly(mails: seq<O.Mail>, handled: seq<O.Handling>, id: JobId, i: nat)
    requires i < |mails| && forall j :: 0 <= j < |mails| ==> (mails[j].row.jobId == id <==> j == i)
    ensures HandledFor(mails, handled, id) == O.Handlings(handled, i)
  {
    if handled != [] {
      HandledForOnly(mails, handled[..|handled| - 1], id, i);
    }
  }

  lemma {:induction false} HandledForNone(mails: seq<O.Mail>, handled: seq<O.Handling>, id: JobId)
    requires forall j :: 0 <= j < |mails| ==> mails[j].row.jobId != id
    ensures HandledFor(mails, handled, id) == 0
  {
    if handled != [] {
      HandledForNone(mails, handled[..|handled| - 1], id);
    }
  }

  predicate AllStored(handled: seq<O.Handling>) {
    forall h :: h in handled ==> h.stored
  }

  lemma {:induction false} StoredRun(env: Env, s: O.State, run: seq<O.Action>)
    requires O.ValidRun(env, s, run) && AllStored(s.handled)
    requires forall a :: a in run && a.Handle? ==> a.stored
    ensures AllStored(O.After(s, run).handled)
    decreases |run|
  {
    if run != [] {
      assert run[0] in run;
      StoredRun(env, O.Next(s, run[0]), run[1..]);
    }
  }

  lemma {:induction false} NoneUnstored(handled: seq<O.Handling>, i: nat)
    requires AllStored(handled)
    ensures O.Unstored(handled, i) == 0
  {
    if handled != [] {
      assert handled[|handled| - 1] in handled;
      NoneUnstored(handled[..|handled| - 1], i);
    }
  }

  /** The row is the job's one outbox row, it is valid, and it was handled once if at all. */
  ghost predicate HandledOnceAt(env: Env, s: O.State, id: JobId, payload: Bytes, i: nat) {
    && i < |s.mails| && s.mails[i].row == OutboxRow(id, EMAIL, payload) && env.validEmail(payload)
    && HandledFor(s.mails, s.handled, id) == if s.mails[i].status == O.Waiting then 0 else 1
  }

  /**
   When status updates succeed, a completed e-mail job is handled exactly once as soon as its outbox
   row has left "pending", with the job's own payload, which is valid; and no other job is handled at all.
   */
  lemma CompletedMailIsHandledOnce(env: Env, start: int, run: seq<L.Event>, batches: seq<O.Action>, id: JobId)
    requires Outcomes.Happens(env, L.Empty(start), run) && O.ValidRun(env, O.EMPTY, batches)
    requires forall a :: a in batches && a.Handle? ==> a.stored
    requires SameOutbox(Outcomes.Later(env, L.Empty(start), run).db.outbox, O.After(O.EMPTY, batches).mails)
    requires id in Outcomes.Later(env, L.Empty(start), run).db.rows
    ensures var row, s := Outcomes.Later(env, L.Empty(start), run).db.rows[id], O.After(O.EMPTY, batches);
            if row.typ == EMAIL && row.status == Completed
            then exists i: nat :: HandledOnceAt(env, s, id, row.payload, i)
            else HandledFor(s.mails, s.handled, id) == 0
  {
    var w, s := Outcomes.Later(env, L.Empty(start), run), O.After(O.EMPTY, batches);
    var row := w.db.rows[id];
    Outcomes.EmptyInv(env, start);
    Outcomes.RunKeepsInv(env, L.Empty(start), run);
    assert L.JobOk(env, w, id);
    if row.typ == EMAIL && row.status == Completed {
      var i: nat :| L.Mails(w, i, id);
      forall j | 0 <= j < |s.mails| ensures s.mails[j].row.jobId == id <==> j == i {
        assert L.Mails(w, j, id) <==> s.mails[j].row.jobId == id;
      }
      assert L.MailOk(env, w, i);
      HandledForOnly(s.mails, s.handled, id, i);
      StoredRun(env, O.EMPTY, batches);
      NoneUnstored(s.handled, i);
      O.HandledOncePlusFailedUpdates(env, batches, i);
      assert HandledOnceAt(env, s, id, row.payload, i);
    } else {
      forall j | 0 <= j < |s.mails| ensures s.mails[j].row.jobId != id {
        assert L.Mails(w, j, id) ==> L.MailOk(env, w, j);
      }
      HandledForNone(s.mails, s.handled, id);
    }
  }
}
