/** The worker's in-memory priority queue: container/heap over a slice, behind a mutex. */
module PriorityHeap {
  import opened Jobs

  datatype MsgId = MsgId(partition: nat, offset: nat)
  datatype Item = Item(id: MsgId, req: Message)

  /** What one pass through the critical section of Pop yields. */
  datatype Popped = Taken(item: Item) | Closed | MustWait

  function Rank(item: Item): int {
    PriorityOf(item.req)
  }

  function Parent(j: int): int
    requires j > 0
  {
    (j - 1) / 2
  }

  predicate HeapExcept(s: seq<Item>, n: nat, hole: int)
    requires n <= |s|
  {
    && (forall j :: 0 < j < n && j != hole ==> Rank(s[Parent(j)]) >= Rank(s[j]))
    && (forall j :: 0 < j < n && Parent(j) == hole && hole > 0 ==> Rank(s[Parent(hole)]) >= Rank(s[j]))
  }

  /** Each item ranks at most as high as its parent. */
  predicate IsHeap(s: seq<Item>) {
    forall j :: 0 < j < |s| ==> Rank(s[Parent(j)]) >= Rank(s[j])
  }

  /** As IsHeap on the first n items, but for the children of the hole. */
  predicate HeapBelow(s: seq<Item>, n: nat, hole: nat)
    requires n <= |s|
  {
    && (forall j :: 0 < j < n && Parent(j) != hole ==> Rank(s[Parent(j)]) >= Rank(s[j]))
    && (forall j :: 0 < j < n && Parent(j) == hole && hole > 0 ==> Rank(s[Parent(hole)]) >= Rank(s[j]))
  }

  function Swapped(s: seq<Item>, i: nat, j: nat): seq<Item>
    requires i < |s| && j < |s|
  {
    s[i := s[j]][j := s[i]]
  }

  lemma SwapKeepsContents(s: seq<Item>, i: nat, j: nat)
    requires i < |s| && j < |s|
    ensures multiset(Swapped(s, i, j)) == multiset(s)
  {
  }

  /** The root of a heap ranks highest. */
  lemma {:induction false} RootIsHighest(s: seq<Item>, j: nat)
    requires IsHeap(s) && j < |s|
    ensures Rank(s[0]) >= Rank(s[j])
  {
    if j > 0 {
      RootIsHighest(s, Parent(j));
    }
  }

  /** The greater child of i, among the first n items. */
  ghost predicate GreaterChild(s: seq<Item>, n: nat, i: nat, j: nat)
    requires n <= |s|
  {
    0 < j < n && Parent(j) == i && forall c :: 0 < c < n && Parent(c) == i ==> Rank(s[c]) <= Rank(s[j])
  }

  lemma SiftStep(s: seq<Item>, n: nat, i: nat, j: nat)
    requires n <= |s| && HeapBelow(s, n, i) && GreaterChild(s, n, i, j) && Rank(s[j]) > Rank(s[i])
    ensures HeapBelow(Swapped(s, i, j), n, j)
    ensures Swapped(s, i, j)[n..] == s[n..] && multiset(Swapped(s, i, j)) == multiset(s)
  {
    SwapKeepsContents(s, i, j);
  }

  lemma SiftUpStep(s: seq<Item>, j: nat)
    requires 0 < j < |s| && HeapExcept(s, |s|, j) && Rank(s[j]) > Rank(s[Parent(j)])
    ensures HeapExcept(Swapped(s, Parent(j), j), |s|, Parent(j))
    ensures multiset(Swapped(s, Parent(j), j)) == multiset(s)
  {
    var i := Parent(j);
    var s' := Swapped(s, i, j);
    SwapKeepsContents(s, i, j);
    forall k | 0 < k < |s| && k != i ensures Rank(s'[Parent(k)]) >= Rank(s'[k]) {
      assert k != j ==> s'[k] == s[k];
      assert i > 0 ==> Rank(s[Parent(i)]) >= Rank(s[i]);
    }
    forall k | 0 < k < |s| && Parent(k) == i && i > 0 ensures Rank(s'[Parent(i)]) >= Rank(s'[k]) {
      assert s'[Parent(i)] == s[Parent(i)] && Rank(s[Parent(i)]) >= Rank(s[i]);
      assert k != j ==> Rank(s[i]) >= Rank(s[k]);
    }
  }

  lemma SiftedDown(s: seq<Item>, n: nat, i: nat)
    requires n <= |s| && HeapBelow(s, n, i)
    requires forall c :: 0 < c < n && Parent(c) == i ==> Rank(s[c]) <= Rank(s[i])
    ensures IsHeap(s[..n])
  {
    forall j | 0 < j < n ensures Rank(s[..n][Parent(j)]) >= Rank(s[..n][j]) {
      assert s[..n][j] == s[j] && s[..n][Parent(j)] == s[Parent(j)];
    }
  }

  /** An item that none of the contents outranks. */
  ghost predicate Highest(contents: multiset<Item>, item: Item) {
    item in contents && forall other :: other in contents ==> Rank(other) <= Rank(item)
  }

  lemma RootIsForemost(s: seq<Item>)
    requires IsHeap(s) && |s| > 0
    ensures Highest(multiset(s), s[0])
  {
    forall item | item in multiset(s) ensures Rank(item) <= Rank(s[0]) {
      var j :| 0 <= j < |s| && s[j] == item;
      RootIsHighest(s, j);
    }
  }

  lemma SwappedForPop(s: seq<Item>)
    requires IsHeap(s) && |s| > 0
    ensures var n := |s| - 1;
            && HeapBelow(Swapped(s, 0, n), n, 0) && Swapped(s, 0, n)[n..] == [s[0]]
            && multiset(Swapped(s, 0, n)) == multiset(s)
  {
    SwapKeepsContents(s, 0, |s| - 1);
  }

  lemma LastOff(s: seq<Item>, n: nat)
    requires |s| == n + 1
    ensures multiset(s[..n]) == multiset(s) - multiset{s[n]}
  {
    assert s == s[..n] + [s[n]];
  }

  class PriorityQueue {
    var items: seq<Item>
    var drain: bool

    ghost predicate Valid()
      reads this
    {
      IsHeap(items)
    }

    constructor ()
      ensures Valid() && items == [] && !drain
    {
      items, drain := [], false;
    }

    method Up(at: nat)
      requires at < |items| && HeapExcept(items, |items|, at)
      modifies this`items
      ensures Valid() && multiset(items) == old(multiset(items)) && |items| == old(|items|)
    {
      var j: nat := at;
      while j > 0 && Rank(items[j]) > Rank(items[Parent(j)])
        invariant j < |items| == old(|items|)
        invariant HeapExcept(items, |items|, j)
        invariant multiset(items) == old(multiset(items))
        decreases j
      {
        SiftUpStep(items, j);
        items := Swapped(items, Parent(j), j);
        j := Parent(j);
      }
    }

    method PickChild(n: nat, i: nat) returns (j: nat)
      requires 2 * i + 1 < n <= |items|
      ensures GreaterChild(items, n, i, j)
    {
      j := 2 * i + 1;
      if j + 1 < n && Rank(items[j + 1]) > Rank(items[j]) {
        j := j + 1;
      }
    }

    method Down(n: nat)
      requires n <= |items| && HeapBelow(items, n, 0)
      modifies this`items
      ensures |items| == old(|items|) && items[n..] == old(items[n..])
      ensures multiset(items) == old(multiset(items))
      ensures IsHeap(items[..n])
    {
      var i: nat := 0;
      while 2 * i + 1 < n
        invariant |items| == old(|items|) && items[n..] == old(items[n..])
        invariant multiset(items) == old(multiset(items))
        invariant HeapBelow(items, n, i)
        decreases n - i
      {
        var j := PickChild(n, i);
        if Rank(items[j]) <= Rank(items[i]) {
          break;
        }
        SiftStep(items, n, i, j);
        items := Swapped(items, i, j);
        i := j;
      }
      SiftedDown(items, n, i);
    }

    method Push(item: Item)
      requires Valid()
      modifies this`items
      ensures Valid() && multiset(items) == old(multiset(items)) + multiset{item}
    {
      items := items + [item];
      Up(|items| - 1);
    }

    method SetDrain()
      requires Valid()
      modifies this`drain
      ensures Valid() && drain
    {
      drain := true;
    }

    /** heap.Pop: the root is swapped with the last item, which sinks to its place, and is taken off the end. */
    method HeapPop() returns (root: Item)
      requires Valid() && |items| > 0
      modifies this`items
      ensures Valid() && Highest(old(multiset(items)), root)
      ensures multiset(items) == old(multiset(items)) - multiset{root}
    {
      ghost var before := items;
      var n := |items| - 1;
      RootIsForemost(items);
      SwappedForPop(items);
      items := Swapped(items, 0, n);
      Down(n);
      root := items[n];
      assert items[n..][0] == before[0];
      LastOff(items, n);
      items := items[..n];
    }

    /** Pop takes an item that nothing held outranks, and only if it holds none does it close or wait. */
    method Pop(cancelled: bool) returns (r: Popped)
      requires Valid()
      modifies this`items
      ensures Valid()
      ensures r.Taken? <==> old(items) != []
      ensures r.Taken? ==>
                && Highest(old(multiset(items)), r.item)
                && multiset(items) == old(multiset(items)) - multiset{r.item}
      ensures !r.Taken? ==> items == [] && (r == Closed <==> drain || cancelled)
    {
      if |items| == 0 {
        return if drain || cancelled then Closed else MustWait;
      }
      var root := HeapPop();
      return Taken(root);
    }
  }

  // ----- Draining -----

  /** `out` is what successive pops may yield from these contents, with nothing pushed in between. */
  ghost predicate PopsFrom(contents: multiset<Item>, out: seq<Item>)
    decreases |out|
  {
    out == [] || (Highest(contents, out[0]) && PopsFrom(contents - multiset{out[0]}, out[1..]))
  }

  lemma FirstIsHighest(contents: multiset<Item>, out: seq<Item>)
    requires |out| > 0 && Highest(contents, out[0]) && multiset(out[1..]) <= contents
    ensures forall j :: 0 < j < |out| ==> Rank(out[0]) >= Rank(out[j])
  {
    forall j | 0 < j < |out| ensures Rank(out[0]) >= Rank(out[j]) {
      assert out[j] == out[1..][j - 1] && out[j] in multiset(out[1..]);
      assert out[j] in contents;
    }
  }

  predicate Descending(out: seq<Item>) {
    forall i, j :: 0 <= i < j < |out| ==> Rank(out[i]) >= Rank(out[j])
  }

  lemma FirstThenRest(out: seq<Item>)
    requires |out| > 0 && Descending(out[1..]) && forall j :: 0 < j < |out| ==> Rank(out[0]) >= Rank(out[j])
    ensures Descending(out)
  {
    forall i, j | 0 <= i < j < |out| ensures Rank(out[i]) >= Rank(out[j]) {
      if i > 0 {
        assert out[i] == out[1..][i - 1] && out[j] == out[1..][j - 1];
      }
    }
  }

  lemma FirstAndRest(contents: multiset<Item>, out: seq<Item>)
    requires |out| > 0 && out[0] in contents && multiset(out[1..]) <= contents - multiset{out[0]}
    ensures multiset(out) <= contents && multiset(out[1..]) <= contents
  {
    assert out == [out[0]] + out[1..];
  }

  /** After the last push, items come out in order of priority. */
  lemma {:induction false} PopsDescend(contents: multiset<Item>, out: seq<Item>)
    requires PopsFrom(contents, out)
    ensures Descending(out) && multiset(out) <= contents
    decreases |out|
  {
    if out != [] {
      PopsDescend(contents - multiset{out[0]}, out[1..]);
      FirstAndRest(contents, out);
      FirstIsHighest(contents, out);
      FirstThenRest(out);
    }
  }

  lemma MinusBoth(contents: multiset<Item>, first: multiset<Item>, rest: multiset<Item>)
    requires first + rest <= contents
    ensures contents - first - rest == contents - (first + rest) && rest <= contents - first
  {
  }

  lemma {:induction false} PopsFromAppend(contents: multiset<Item>, out: seq<Item>, item: Item)
    requires PopsFrom(contents, out) && multiset(out) <= contents && Highest(contents - multiset(out), item)
    ensures PopsFrom(contents, out + [item])
    decreases |out|
  {
    if out == [] {
      assert [item][1..] == [] && contents - multiset(out) == contents;
    } else {
      assert out == [out[0]] + out[1..];
      assert (out + [item])[1..] == out[1..] + [item];
      MinusBoth(contents, multiset{out[0]}, multiset(out[1..]));
      PopsFromAppend(contents - multiset{out[0]}, out[1..], item);
    }
  }

  lemma PopOneMore(contents: multiset<Item>, left: multiset<Item>, out: seq<Item>, item: Item)
    requires contents == left + multiset(out) && PopsFrom(contents, out) && Highest(left, item)
    ensures PopsFrom(contents, out + [item]) && contents == left - multiset{item} + multiset(out + [item])
  {
    LeftOver(contents, left, multiset(out));
    PopsFromAppend(contents, out, item);
    OneMoved(contents, left, multiset(out), item);
    assert multiset(out + [item]) == multiset(out) + multiset{item};
  }

  lemma LeftOver(contents: multiset<Item>, left: multiset<Item>, taken: multiset<Item>)
    requires contents == left + taken
    ensures contents - taken == left && taken <= contents
  {
  }

  lemma OneMoved(contents: multiset<Item>, left: multiset<Item>, taken: multiset<Item>, item: Item)
    requires contents == left + taken && item in left
    ensures contents == left - multiset{item} + (taken + multiset{item})
  {
  }

  /** The popper after the fetcher has stopped: it takes everything, highest priority first. */
  method PopAll(q: PriorityQueue) returns (out: seq<Item>)
    requires q.Valid() && q.drain
    modifies q
    ensures q.Valid() && q.items == []
    ensures multiset(out) == old(multiset(q.items))
    ensures forall i, j :: 0 <= i < j < |out| ==> Rank(out[i]) >= Rank(out[j])
  {
    out := [];
    ghost var contents, left := multiset(q.items), multiset(q.items);
    var r := q.Pop(false);
    while r.Taken?
      invariant q.Valid() && q.drain
      invariant PopsFrom(contents, out) && contents == left + multiset(out)
      invariant r.Taken? ==> Highest(left, r.item) && multiset(q.items) == left - multiset{r.item}
      invariant !r.Taken? ==> q.items == [] && left == multiset{}
      decreases |q.items|, r.Taken?
    {
      PopOneMore(contents, left, out, r.item);
      out := out + [r.item];
      left := left - multiset{r.item};
      var before := q.items;
      r := q.Pop(false);
      if r.Taken? {
        assert |multiset(q.items)| == |multiset(before)| - 1;
      }
    }
    PopsDescend(contents, out);
  }
}
