/**
 * The open list of A*: a min-priority queue of (f, tie, pos) entries, as heapq keeps it. Only
 * its contents and its smallest element matter here, so it is a sequence in insertion order;
 * the binary-heap layout is not modelled.
 */
module HeapQueue {
  import opened Grids

  /** One heap entry: estimated total cost f, insertion counter tie, and the cell. */
  datatype Entry = Entry(f: int, tie: int, pos: Pos)

  /**
   * heapq compares entries as tuples. The tie counter is unique per entry, so f and then tie
   * decide and the cell is never compared.
   */
  predicate Precedes(a: Entry, b: Entry) {
    a.f < b.f || (a.f == b.f && a.tie < b.tie)
  }

  /** An entry that no entry of heap precedes. */
  ghost predicate Least(heap: seq<Entry>, e: Entry) {
    forall i :: 0 <= i < |heap| ==> !Precedes(heap[i], e)
  }

  /** heappush: the new entry joins the queue. */
  function Push(heap: seq<Entry>, e: Entry): (r: seq<Entry>)
    ensures |r| == |heap| + 1 && r[|heap|] == e
    ensures forall i :: 0 <= i < |heap| ==> r[i] == heap[i]
    ensures multiset(r) == multiset(heap) + multiset{e}
  {
    heap + [e]
  }

  /** The queue without its k-th entry. */
  function RemoveAt(heap: seq<Entry>, k: nat): (r: seq<Entry>)
    requires k < |heap|
    ensures |r| == |heap| - 1
    ensures forall i :: 0 <= i < |r| ==> r[i] == (if i < k then heap[i] else heap[i + 1])
    ensures multiset(r) + multiset{heap[k]} == multiset(heap)
  {
    assert heap == heap[..k] + [heap[k]] + heap[k + 1..];
    heap[..k] + heap[k + 1..]
  }

  /** Removing one entry keeps every other entry in the queue. */
  lemma RemoveAtKeeps(heap: seq<Entry>, k: nat, x: Entry)
    requires k < |heap| && x in heap && x != heap[k]
    ensures x in RemoveAt(heap, k)
  {
    var j :| 0 <= j < |heap| && heap[j] == x;
    var r := RemoveAt(heap, k);
    if j < k {
      assert r[j] == x;
    } else {
      assert r[j - 1] == x;
    }
  }

  /**
   * The index heappop takes its entry from: the first least entry by (f, tie). Every entry
   * before it comes strictly later in the order.
   */
  function ArgMin(heap: seq<Entry>): (k: nat)
    requires heap != []
    ensures k < |heap| && Least(heap, heap[k])
    ensures forall i :: 0 <= i < k ==> Precedes(heap[k], heap[i])
  {
    if |heap| == 1 then 0
    else
      var m := ArgMin(heap[..|heap| - 1]);
      assert forall i :: 0 <= i < |heap| - 1 ==> heap[..|heap| - 1][i] == heap[i];
      if Precedes(heap[|heap| - 1], heap[m]) then |heap| - 1 else m
  }

  /**
   * heappop: the least entry by (f, tie), and the queue without it. Among entries of equal f
   * the one pushed first (smallest tie) comes out first.
   */
  method PopMin(heap: seq<Entry>) returns (e: Entry, rest: seq<Entry>, ghost k: nat)
    requires heap != []
    ensures k == ArgMin(heap) && e == heap[k] && rest == RemoveAt(heap, k)
    ensures Least(heap, e)
    ensures forall i :: 0 <= i < |heap| && heap[i].f == e.f ==> e.tie <= heap[i].tie
  {
    var m := 0;
    assert heap[..1] == [heap[0]];
    for i := 1 to |heap|
      invariant m == ArgMin(heap[..i])
    {
      assert heap[..i + 1][..i] == heap[..i];
      if Precedes(heap[i], heap[m]) {
        m := i;
      }
    }
    assert heap[..|heap|] == heap;
    e, k := heap[m], m;
    rest := RemoveAt(heap, m);
  }
}
