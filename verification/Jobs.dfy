/** The records that the API, the scheduler, the worker and the store pass around. */
module Jobs {

  type JobId = string

  /** A payload; each character stands for one byte. */
  type Bytes = string

  const MAX_INT32: int := 0x7fff_ffff
  const MIN_INT32: int := -0x8000_0000
  type int32 = x: int | MIN_INT32 <= x <= MAX_INT32

  const EMAIL: string := "email"

  datatype Option<+T> = None | Some(value: T)

  datatype Status = Pending | Scheduled | Processing | Completed | Failed | Archived | Cancelled

  /** One row of the jobs table. An empty `key` is the NULL idempotency key. */
  datatype Row = Row(typ: string, payload: Bytes, queue: string, status: Status,
                     attempt: int32, runAt: int, key: string, priority: int32)

  datatype Options = Options(maxRetry: int32, runAt: int, priority: int32)

  /** The value of one message of the job.requests topic. */
  datatype Message = Message(id: JobId, typ: string, payload: Bytes, queue: string,
                             attempt: int32, options: Option<Options>)

  datatype OutboxRow = OutboxRow(jobId: JobId, typ: string, payload: Bytes)

  /** What the worker is configured with: the deterministic e-mail check and the registered types. */
  datatype Env = Env(validEmail: Bytes -> bool, handlers: set<string>)

  function NormalQueue(queue: string): (q: string)
    ensures q != "" && (queue != "" ==> q == queue) && (queue == "" ==> q == "default")
  {
    if queue == "" then "default" else queue
  }

  /** Increment of an int32, which wraps. */
  function Inc(attempt: int32): (next: int32)
    ensures next <= attempt <==> attempt == MAX_INT32
  {
    if attempt == MAX_INT32 then MIN_INT32 else attempt + 1
  }

  function Max0(r: int): (m: int)
    ensures m >= 0 && m >= r && (m == 0 || m == r)
  {
    if r > 0 then r else 0
  }

  function MaxRetryOf(m: Message): int32 {
    if m.options.None? then 0 else m.options.value.maxRetry
  }

  function PriorityOf(m: Message): int32 {
    if m.options.None? then 0 else m.options.value.priority
  }

  /** The worker's decision, after a failure, whether to send the job round again. */
  predicate Retries(m: Message, next: int32) {
    next <= MaxRetryOf(m)
  }

  /**
   The message that Enqueue writes. The options are left out when they are all unset; the reader
   of the message still sees the priority, and takes the same retry decision at every attempt.
   */
  function NewMessage(id: JobId, typ: string, payload: Bytes, queue: string,
                      maxRetry: int32, runAt: int, attempt: int32, priority: int32): (m: Message)
    ensures PriorityOf(m) == priority
    ensures forall next: int32 :: 1 <= next ==> (Retries(m, next) <==> next <= maxRetry)
    ensures Max0(MaxRetryOf(m)) == Max0(maxRetry)
    ensures m.id == id && m.typ == typ && m.payload == payload && m.queue == queue && m.attempt == attempt
  {
    var options := if maxRetry > 0 || runAt > 0 || priority != 0
                   then Some(Options(maxRetry, runAt, priority)) else None;
    Message(id, typ, payload, queue, attempt, options)
  }

  /** The message with which the worker asks for the next attempt. */
  function RetryMessage(m: Message): (next: Message)
    ensures Inc(m.attempt) >= 1 && Retries(m, Inc(m.attempt)) ==> MaxRetryOf(next) == MaxRetryOf(m)
  {
    NewMessage(m.id, m.typ, m.payload, m.queue, MaxRetryOf(m), 0, Inc(m.attempt), PriorityOf(m))
  }

  /** What a message asks for, as its reader sees it. Limits up to zero all mean no retry. */
  predicate Asks(m: Message, id: JobId, typ: string, payload: Bytes, queue: string, maxRetry: int, attempt: int,
                 priority: int) {
    && m.id == id && m.typ == typ && m.payload == payload && m.queue == queue
    && m.attempt == attempt && PriorityOf(m) == priority && Max0(MaxRetryOf(m)) == Max0(maxRetry)
  }

  /** Such a message is in the log, from offset n on. */
  ghost predicate Asked(log: seq<Message>, n: nat, id: JobId, typ: string, payload: Bytes, queue: string, maxRetry: int,
                        attempt: int, priority: int) {
    exists k :: n <= k < |log| && Asks(log[k], id, typ, payload, queue, maxRetry, attempt, priority)
  }

  lemma AskedEarlier(log: seq<Message>, n: nat, n': nat, id: JobId, typ: string, payload: Bytes, queue: string,
                     maxRetry: int, attempt: int, priority: int)
    requires n <= n' && Asked(log, n', id, typ, payload, queue, maxRetry, attempt, priority)
    ensures Asked(log, n, id, typ, payload, queue, maxRetry, attempt, priority)
  {
  }

  /** The row and the message agree on everything that neither ever changes. */
  predicate Agrees(row: Row, m: Message) {
    && row.typ == m.typ
    && row.payload == m.payload
    && row.queue == m.queue
    && row.priority == PriorityOf(m)
  }

  function Lookup(rows: map<JobId, Row>, id: JobId): Option<Row> {
    if id in rows then Some(rows[id]) else None
  }

  /** UPDATE jobs SET status, attempt WHERE id: no effect when there is no such row. */
  function WithStatus(rows: map<JobId, Row>, id: JobId, status: Status, attempt: int32): map<JobId, Row> {
    if id in rows then rows[id := rows[id].(status := status, attempt := attempt)] else rows
  }

  /** The unique index over (type, queue, idempotency_key), for non-NULL keys. */
  predicate SameKey(row: Row, typ: string, queue: string, key: string) {
    key != "" && row.typ == typ && row.queue == queue && row.key == key
  }

  predicate Insertable(rows: map<JobId, Row>, id: JobId, row: Row) {
    && id !in rows
    && forall other :: other in rows ==> !SameKey(rows[other], row.typ, row.queue, row.key)
  }
}

/** Ordered, limited queries. */
module Query {

  /** `ids` is a possible answer of SELECT ... ORDER BY key ASC LIMIT limit over the candidates. */
  ghost predicate Listing<K>(keys: map<K, int>, limit: nat, ids: seq<K>) {
    && |ids| <= limit
    && (forall i :: 0 <= i < |ids| ==> ids[i] in keys)
    && (forall i, j :: 0 <= i < j < |ids| ==> ids[i] != ids[j] && keys[ids[i]] <= keys[ids[j]])
    && (forall id :: id in keys && id !in ids ==>
          |ids| == limit && forall i :: 0 <= i < |ids| ==> keys[ids[i]] <= keys[id])
  }

  /** Selects the first `limit` candidates, lowest key first; ties are broken arbitrarily. */
  method Select<K(==)>(keys: map<K, int>, limit: nat) returns (ids: seq<K>)
    ensures Listing(keys, limit, ids)
  {
    ids := [];
    var left := keys.Keys;
    while |ids| < limit && left != {}
      invariant |ids| <= limit && left <= keys.Keys
      invariant forall id :: id in keys ==> (id in left <==> id !in ids)
      invariant forall i :: 0 <= i < |ids| ==> ids[i] in keys
      invariant forall i, j :: 0 <= i < j < |ids| ==> ids[i] != ids[j] && keys[ids[i]] <= keys[ids[j]]
      invariant forall i, id :: 0 <= i < |ids| && id in left ==> keys[ids[i]] <= keys[id]
      decreases left
    {
      var least := Least(keys, left);
      ids := ids + [least];
      left := left - {least};
    }
  }

  method Least<K(==)>(keys: map<K, int>, among: set<K>) returns (least: K)
    requires among != {} && among <= keys.Keys
    ensures least in among && forall id :: id in among ==> keys[least] <= keys[id]
  {
    least :| least in among;
    var left := among - {least};
    while left != {}
      invariant least in among && left <= among
      invariant forall id :: id in among && id !in left ==> keys[least] <= keys[id]
      decreases left
    {
      var id :| id in left;
      if keys[id] < keys[least] {
        least := id;
      }
      left := left - {id};
    }
  }

  /** A listing shorter than its limit holds every candidate; otherwise exactly `limit` of them. */
  lemma ListingSize<K>(keys: map<K, int>, limit: nat, ids: seq<K>)
    requires Listing(keys, limit, ids)
    ensures |ids| == if |keys| <= limit then |keys| else limit
  {
    var listed := set id | id in ids;
    DistinctCount(ids);
    assert listed <= keys.Keys;
    if listed == keys.Keys {
      assert |keys| == |keys.Keys| == |ids|;
    } else {
      var id :| id in keys && id !in ids;
      assert listed + {id} <= keys.Keys;
      SubsetCount(listed + {id}, keys.Keys);
    }
  }

  /** Of the candidates up to a bound, a listing takes `limit`, or all there are. */
  lemma ListingTakesFirst<K>(keys: map<K, int>, limit: nat, ids: seq<K>, bound: int)
    requires Listing(keys, limit, ids)
    ensures var within := set id | id in keys && keys[id] <= bound;
            |within - set id | id in ids| == if |within| <= limit then 0 else |within| - limit
  {
    var within := set id | id in keys && keys[id] <= bound;
    var listed := set id | id in ids;
    DistinctCount(ids);
    if within <= listed {
      SubsetCount(within, listed);
      assert within - listed == {};
    } else {
      var rest :| rest in within && rest !in ids;
      forall id | id in ids ensures id in within {
        var i :| 0 <= i < |ids| && ids[i] == id;
        assert keys[ids[i]] <= keys[rest];
      }
      assert listed <= within;
      assert |within - listed| == |within| - |listed|;
    }
  }

  lemma {:induction false} LeastExists<K>(keys: map<K, int>, among: set<K>) returns (least: K)
    requires among != {} && among <= keys.Keys
    ensures least in among && forall id :: id in among ==> keys[least] <= keys[id]
    decreases |among|
  {
    least :| least in among;
    if among - {least} != {} {
      var other := LeastExists(keys, among - {least});
      least := if keys[other] < keys[least] then other else least;
    }
  }

  lemma {:induction false} ListingExists<K>(keys: map<K, int>, limit: nat) returns (ids: seq<K>)
    ensures Listing(keys, limit, ids)
    decreases limit
  {
    if limit == 0 {
      ids := [];
    } else {
      ids := ListingExists(keys, limit - 1);
      var left := set id | id in keys && id !in ids;
      if left != {} {
        var least := LeastExists(keys, left);
        ids := ids + [least];
      } else {
        forall id | id in keys ensures id in ids {
          assert id !in left;
        }
      }
    }
  }

  lemma SubsetCount<K>(a: set<K>, b: set<K>)
    requires a <= b
    ensures |a| <= |b|
  {
    assert b == a + (b - a);
  }

  lemma {:induction false} DistinctCount<K>(ids: seq<K>)
    requires forall i, j :: 0 <= i < j < |ids| ==> ids[i] != ids[j]
    ensures |set id | id in ids| == |ids|
  {
    if |ids| > 0 {
      var n := |ids| - 1;
      DistinctCount(ids[..n]);
      assert (set id | id in ids) == (set id | id in ids[..n]) + {ids[n]};
    }
  }
}
