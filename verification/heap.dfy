/**
  The binary heap that Python's `heapq` keeps in a plain list, specialised to
  the engine's `PriorityRecipe` entries.  The three category queues of the
  knowledge graph are such lists; the methods below take the list's value and
  return its new value, the way `heappush`, `heappop` and `heapify` rewrite
  the list in place.  The sifting procedures follow heapq's own algorithms and
  names: `_siftdown` moves an item TOWARD THE ROOT, `_siftup` first moves the
  hole at `pos` down to a leaf along the preferred children and then lets the
  displaced item climb back.
*/
module Heap {

  /** `PriorityRecipe`: a recipe name with its preference score. */
  datatype Entry = Entry(name: string, score: real)

  /** `PriorityRecipe.__lt__`: reversed on purpose, so that heapq's min-heap
      keeps the HIGHEST preference score at index 0. */
  predicate Less(a: Entry, b: Entry)
  {
    a.score > b.score
  }

  /** `c` is a child of `p` in heapq's layout (`2p + 1` and `2p + 2`). */
  ghost predicate Child(p: nat, c: nat)
  {
    c == 2 * p + 1 || c == 2 * p + 2
  }

  /** heapq's invariant `not heap[c] < heap[p]` for every child `c` of every
      index `p` from `start` on. */
  ghost predicate HeapFrom(h: seq<Entry>, start: nat)
  {
    forall p: nat, c: nat :: start <= p && Child(p, c) && c < |h| ==> !Less(h[c], h[p])
  }

  ghost predicate IsHeap(h: seq<Entry>)
  {
    HeapFrom(h, 0)
  }

  /** Index `c` lies in the subtree rooted at index `s`. */
  ghost predicate Below(c: nat, s: nat)
    decreases c
  {
    c == s || (c > s && Below((c - 1) / 2, s))
  }

  lemma {:induction false} BelowRoot(c: nat)
    ensures Below(c, 0)
    decreases c
  {
    if c > 0 {
      BelowRoot((c - 1) / 2);
    }
  }

  /** The root of a heap holds the largest score: under the reversed `__lt__`,
      heapq's "smallest item first" means "highest preference first". */
  lemma {:induction false} HeapRootIsMax(h: seq<Entry>, i: nat)
    requires IsHeap(h) && i < |h|
    ensures h[i].score <= h[0].score
    decreases i
  {
    if i > 0 {
      var p := (i - 1) / 2;
      assert Child(p, i);
      HeapRootIsMax(h, p);
    }
  }

  /** Exchange of two list positions, the move both sifting loops make. */
  function Swap(s: seq<Entry>, i: nat, j: nat): (t: seq<Entry>)
    requires i < |s| && j < |s|
    ensures |t| == |s| && t[i] == s[j] && t[j] == s[i]
    ensures forall m :: 0 <= m < |s| && m != i && m != j ==> t[m] == s[m]
    ensures multiset(t) == multiset(s)
  {
    s[i := s[j]][j := s[i]]
  }

  /** Every edge from `start` on is in order, except the one into `k`. */
  ghost predicate OrderedExceptInto(h: seq<Entry>, start: nat, k: nat)
  {
    forall p: nat, c: nat :: start <= p && Child(p, c) && c < |h| && c != k ==> !Less(h[c], h[p])
  }

  /** Every edge from `start` on is in order, except those into and out of `k`. */
  ghost predicate OrderedExceptAround(h: seq<Entry>, start: nat, k: nat)
  {
    forall p: nat, c: nat :: start <= p && Child(p, c) && c < |h| && c != k && p != k ==> !Less(h[c], h[p])
  }

  /** The parent of `k` (when it is from `start` on) is in order with `k`'s children. */
  ghost predicate ParentCoversChildren(h: seq<Entry>, start: nat, k: nat)
  {
    forall p: nat, c: nat :: start <= p && Child(p, k) && Child(k, c) && c < |h| ==> !Less(h[c], h[p])
  }

  /** One step of `_siftdown`: swapping `k` with its larger parent moves the
      broken edge one level up. */
  lemma ClimbStep(r: seq<Entry>, start: nat, k: nat, p: nat)
    requires k < |r| && start <= p && Child(p, k) && Less(r[k], r[p])
    requires OrderedExceptInto(r, start, k) && ParentCoversChildren(r, start, k)
    ensures OrderedExceptInto(Swap(r, p, k), start, p)
    ensures ParentCoversChildren(Swap(r, p, k), start, p)
  {
    var s := Swap(r, p, k);
    forall q: nat, c: nat | start <= q && Child(q, c) && c < |s| && c != p
      ensures !Less(s[c], s[q])
    {
      if q == p {
        if c != k {
          assert !Less(r[c], r[p]);
        }
      } else if q == k {
        assert !Less(r[c], r[p]);
      } else {
        assert c != k;
        assert !Less(r[c], r[q]);
      }
    }
    forall q: nat, c: nat | start <= q && Child(q, p) && Child(p, c) && c < |s|
      ensures !Less(s[c], s[q])
    {
      assert !Less(r[p], r[q]);
      if c != k {
        assert !Less(r[c], r[p]);
      }
    }
  }

  /** One step of the first phase of `_siftup`: swapping `k` with its preferred
      child `m` moves the unordered spot one level down. */
  lemma SinkStep(r: seq<Entry>, start: nat, k: nat, m: nat)
    requires start <= k && Child(k, m) && m < |r|
    requires forall o: nat :: Child(k, o) && o < |r| ==> !Less(r[o], r[m])
    requires OrderedExceptAround(r, start, k) && ParentCoversChildren(r, start, k)
    ensures OrderedExceptAround(Swap(r, k, m), start, m)
    ensures ParentCoversChildren(Swap(r, k, m), start, m)
  {
    var s := Swap(r, k, m);
    forall q: nat, c: nat | start <= q && Child(q, c) && c < |s| && c != m && q != m
      ensures !Less(s[c], s[q])
    {
      if q == k {
        assert !Less(r[c], r[m]);
      } else if c == k {
        assert !Less(r[m], r[q]);
      } else {
        assert !Less(r[c], r[q]);
      }
    }
    forall q: nat, c: nat | start <= q && Child(q, m) && Child(m, c) && c < |s|
      ensures !Less(s[c], s[q])
    {
      assert q == k;
      assert !Less(r[c], r[m]);
    }
  }

  /** heapq `_siftdown(heap, start, pos)`: the item at `pos`, the one place where
      the heap order may be broken (from above), climbs toward `start` while it
      is `<` its parent. */
  method SiftDown(h: seq<Entry>, start: nat, pos: nat) returns (r: seq<Entry>)
    requires pos < |h| && Below(pos, start)
    requires OrderedExceptInto(h, start, pos) && ParentCoversChildren(h, start, pos)
    ensures |r| == |h| && multiset(r) == multiset(h)
    ensures HeapFrom(r, start)
  {
    r := h;
    var k: nat := pos;
    while k > start
      invariant k < |r| && Below(k, start)
      invariant |r| == |h| && multiset(r) == multiset(h)
      invariant OrderedExceptInto(r, start, k) && ParentCoversChildren(r, start, k)
    {
      var p := (k - 1) / 2;
      assert Child(p, k) && Below(p, start);
      if Less(r[k], r[p]) {
        ClimbStep(r, start, k, p);
        r := Swap(r, p, k);
        k := p;
      } else {
        break;
      }
    }
  }

  /** heapq `_siftup(heap, pos)`: every edge below `pos` is in order; the item at
      `pos` is replaced by its preferred child (the right one unless the left is
      strictly `<` it) until a leaf is reached, and then climbs back with
      `_siftdown(heap, pos, leaf)`. */
  method SiftUp(h: seq<Entry>, pos: nat) returns (r: seq<Entry>)
    requires pos < |h|
    requires HeapFrom(h, pos + 1)
    ensures |r| == |h| && multiset(r) == multiset(h)
    ensures HeapFrom(r, pos)
  {
    r := h;
    var k: nat := pos;
    var child := 2 * k + 1;
    while child < |r|
      invariant k < |r| && Below(k, pos) && pos <= k && child == 2 * k + 1
      invariant |r| == |h| && multiset(r) == multiset(h)
      invariant OrderedExceptAround(r, pos, k) && ParentCoversChildren(r, pos, k)
      decreases |r| - k
    {
      if child + 1 < |r| && !Less(r[child], r[child + 1]) {
        child := child + 1;
      }
      assert Child(k, child) && Below(child, pos);
      SinkStep(r, pos, k, child);
      r := Swap(r, k, child);
      k := child;
      child := 2 * k + 1;
    }
    r := SiftDown(r, pos, k);
  }

  /** `heapq.heappush`: append, then let the new item climb. */
  method HeapPush(h: seq<Entry>, x: Entry) returns (r: seq<Entry>)
    requires IsHeap(h)
    ensures IsHeap(r)
    ensures |r| == |h| + 1 && multiset(r) == multiset(h) + multiset{x}
  {
    BelowRoot(|h|);
    r := SiftDown(h + [x], 0, |h|);
  }

  /** `heapq.heappop`: remove and return the root, an entry of highest score. */
  method HeapPop(h: seq<Entry>) returns (top: Entry, r: seq<Entry>)
    requires IsHeap(h) && |h| > 0
    ensures IsHeap(r)
    ensures |r| == |h| - 1 && multiset(h) == multiset(r) + multiset{top}
    ensures forall i :: 0 <= i < |h| ==> h[i].score <= top.score
    ensures forall e :: e in r ==> !Less(e, top)
  {
    var last := h[|h| - 1];
    assert h == h[..|h| - 1] + [last];
    r := h[..|h| - 1];
    if |r| == 0 {
      top := last;
    } else {
      top := r[0];
      r := r[0 := last];
      r := SiftUp(r, 0);
    }
    forall i | 0 <= i < |h|
      ensures h[i].score <= top.score
    {
      HeapRootIsMax(h, i);
    }
    forall e | e in r
      ensures !Less(e, top)
    {
      assert e in multiset(r);
      assert e in multiset(h);
      var i :| 0 <= i < |h| && h[i] == e;
      HeapRootIsMax(h, i);
    }
  }

  /** `heapq.heapify`: `_siftup` every inner index, last one first. */
  method Heapify(h: seq<Entry>) returns (r: seq<Entry>)
    ensures IsHeap(r)
    ensures |r| == |h| && multiset(r) == multiset(h)
  {
    r := h;
    var i: nat := |r| / 2;
    while i > 0
      invariant i <= |r| / 2
      invariant |r| == |h| && multiset(r) == multiset(h)
      invariant HeapFrom(r, i)
    {
      i := i - 1;
      r := SiftUp(r, i);
    }
  }

  /** The recipe names of a queue, in list order. */
  function Names(s: seq<Entry>): seq<string>
  {
    if s == [] then [] else [s[0].name] + Names(s[1..])
  }

  lemma {:induction false} NamesIndex(s: seq<Entry>)
    ensures |Names(s)| == |s| && forall i :: 0 <= i < |s| ==> Names(s)[i] == s[i].name
    decreases |s|
  {
    if s != [] {
      NamesIndex(s[1..]);
    }
  }

  lemma {:induction false} NamesAppend(a: seq<Entry>, b: seq<Entry>)
    ensures Names(a + b) == Names(a) + Names(b)
    decreases |a|
  {
    if a == [] {
      assert a + b == b;
    } else {
      assert (a + b)[0] == a[0];
      assert (a + b)[1..] == a[1..] + b;
      NamesAppend(a[1..], b);
    }
  }

  lemma NamesSingle(x: Entry)
    ensures Names([x]) == [x.name]
  {
    assert [x][1..] == [];
  }

  lemma SplitAt(b: seq<Entry>, j: nat)
    requires j < |b|
    ensures b == b[..j] + [b[j]] + b[j + 1..]
  {
  }

  lemma Uncons(a: seq<Entry>)
    requires a != []
    ensures a == [a[0]] + a[1..] && multiset(a[1..]) == multiset(a) - multiset{a[0]}
  {
  }

  /** Taking one entry out of a list takes it out of the list's multiset. */
  lemma RemoveOne(b: seq<Entry>, j: nat)
    requires j < |b|
    ensures multiset(b[..j] + b[j + 1..]) == multiset(b) - multiset{b[j]}
  {
    SplitAt(b, j);
  }

  /** Taking one entry out of a list takes its name out of the names. */
  lemma RemoveOneName(b: seq<Entry>, j: nat)
    requires j < |b|
    ensures multiset(Names(b)) == multiset{b[j].name} + multiset(Names(b[..j] + b[j + 1..]))
  {
    SplitAt(b, j);
    var front, back := b[..j], b[j + 1..];
    NamesAppend(front + [b[j]], back);
    NamesAppend(front, [b[j]]);
    NamesSingle(b[j]);
    NamesAppend(front, back);
    assert multiset(Names(b)) == multiset(Names(front)) + multiset{b[j].name} + multiset(Names(back));
  }

  /** Two lists holding the same entries hold the same names. */
  lemma {:induction false} NamesOfPermutation(a: seq<Entry>, b: seq<Entry>)
    requires multiset(a) == multiset(b)
    ensures multiset(Names(a)) == multiset(Names(b))
    decreases |a|
  {
    if a == [] {
      assert |multiset(b)| == 0;
      assert b == [];
      assert Names(a) == Names(b);
    } else {
      var x := a[0];
      assert x in multiset(b);
      var j :| 0 <= j < |b| && b[j] == x;
      var rest := b[..j] + b[j + 1..];
      RemoveOne(b, j);
      RemoveOneName(b, j);
      Uncons(a);
      assert multiset(a[1..]) == multiset(rest);
      NamesOfPermutation(a[1..], rest);
      assert Names(a) == [x.name] + Names(a[1..]);
      assert multiset(Names(a)) == multiset{x.name} + multiset(Names(a[1..]));
      assert multiset(Names(b)) == multiset{x.name} + multiset(Names(rest));
    }
  }
}
