/** The heap operations behind a C++ `priority_queue`: a sequence laid out as a
    binary tree, the children of slot i being slots 2i+1 and 2i+2, and a
    comparator `after(a, b)` saying that `a` has to leave after `b`.

    The comparator need not be a sound order. What the operations keep is the heap
    property of EVERY order the comparator refines, so one call speaks both for
    the comparator itself, where that is an order, and for a coarser order where
    it is not. */
module BinaryHeap {
  import opened Seqs

  /** `gt` is a strict weak order on `dom`. */
  ghost predicate StrictWeakOrder<T(!new)>(gt: (T, T) -> bool, dom: iset<T>) {
    && (forall a, b | a in dom && b in dom :: !(gt(a, b) && gt(b, a)))
    && (forall a, b, c | a in dom && b in dom && c in dom :: !gt(a, b) && !gt(b, c) ==> !gt(a, c))
  }

  /** `after` puts `a` behind `b` whenever `gt` does, and never against `gt`. */
  ghost predicate Refines<T(!new)>(after: (T, T) -> bool, gt: (T, T) -> bool, dom: iset<T>) {
    && StrictWeakOrder(gt, dom)
    && (forall a, b | a in dom && b in dom :: gt(a, b) ==> after(a, b))
    && (forall a, b | a in dom && b in dom :: after(a, b) ==> !gt(b, a))
  }

  function Parent(i: int): int
    requires i > 0
  {
    (i - 1) / 2
  }

  ghost predicate IsHeap<T(!new)>(s: seq<T>, gt: (T, T) -> bool) {
    forall i {:trigger Parent(i)} :: 0 < i < |s| ==> !gt(s[Parent(i)], s[i])
  }

  ghost predicate Within<T(!new)>(s: seq<T>, dom: iset<T>) {
    forall i :: 0 <= i < |s| ==> s[i] in dom
  }

  /** A heap except that slot `hole` may be too small for its parent. */
  ghost predicate RisingAt<T(!new)>(s: seq<T>, gt: (T, T) -> bool, hole: int) {
    && (forall i {:trigger Parent(i)} :: 0 < i < |s| && i != hole ==> !gt(s[Parent(i)], s[i]))
    && (forall i {:trigger Parent(i)} :: 0 < i < |s| && Parent(i) == hole && hole > 0 ==> !gt(s[Parent(hole)], s[i]))
  }

  /** A heap except that slot `hole` may be too big for its children. */
  ghost predicate SinkingAt<T(!new)>(s: seq<T>, gt: (T, T) -> bool, hole: int) {
    && (forall i {:trigger Parent(i)} :: 0 < i < |s| && Parent(i) != hole ==> !gt(s[Parent(i)], s[i]))
    && (forall i {:trigger Parent(i)} :: 0 < i < |s| && Parent(i) == hole && hole > 0 ==> !gt(s[Parent(hole)], s[i]))
  }

  /** Slot `child` is a child of slot `i` that leaves no later than any other child. */
  ghost predicate LeastChild<T(!new)>(s: seq<T>, gt: (T, T) -> bool, i: nat, child: nat) {
    && i < child < |s| && Parent(child) == i
    && forall k {:trigger Parent(k)} :: 0 < k < |s| && Parent(k) == i ==> !gt(s[child], s[k])
  }

  function Swap<T>(s: seq<T>, i: nat, j: nat): (r: seq<T>)
    requires i < |s| && j < |s|
  {
    s[i := s[j]][j := s[i]]
  }

  /** No element of a heap leaves before its top. */
  lemma {:induction false} TopLeavesFirst<T(!new)>(s: seq<T>, gt: (T, T) -> bool, dom: iset<T>, i: nat)
    requires StrictWeakOrder(gt, dom) && Within(s, dom) && IsHeap(s, gt) && i < |s|
    ensures !gt(s[0], s[i])
  {
    if i == 0 {
      assert s[0] in dom;
    } else {
      TopLeavesFirst(s, gt, dom, Parent(i));
      assert s[0] in dom && s[Parent(i)] in dom && s[i] in dom;
    }
  }

  lemma SwapKeeps<T(!new)>(s: seq<T>, i: nat, j: nat, dom: iset<T>)
    requires i < |s| && j < |s| && Within(s, dom)
    ensures |Swap(s, i, j)| == |s| && multiset(Swap(s, i, j)) == multiset(s) && Within(Swap(s, i, j), dom)
  {
  }

  lemma RiseStep<T(!new)>(s: seq<T>, after: (T, T) -> bool, gt: (T, T) -> bool, dom: iset<T>, hole: nat)
    requires Refines(after, gt, dom) && Within(s, dom) && RisingAt(s, gt, hole)
    requires 0 < hole < |s| && after(s[Parent(hole)], s[hole])
    ensures RisingAt(Swap(s, Parent(hole), hole), gt, Parent(hole))
  {
    var p := Parent(hole);
    var r := Swap(s, p, hole);
    assert s[p] in dom && s[hole] in dom;
    forall i | 0 < i < |r| && i != p
      ensures !gt(r[Parent(i)], r[i])
    {
      assert s[i] in dom;
    }
    forall i | 0 < i < |r| && Parent(i) == p && p > 0
      ensures !gt(r[Parent(p)], r[i])
    {
      assert s[i] in dom && s[Parent(p)] in dom;
    }
  }

  lemma SinkStep<T(!new)>(s: seq<T>, after: (T, T) -> bool, gt: (T, T) -> bool, dom: iset<T>, hole: nat, child: nat)
    requires Refines(after, gt, dom) && Within(s, dom) && SinkingAt(s, gt, hole)
    requires LeastChild(s, gt, hole, child) && after(s[hole], s[child])
    ensures SinkingAt(Swap(s, hole, child), gt, child)
  {
    var r := Swap(s, hole, child);
    assert s[hole] in dom && s[child] in dom;
    forall i | 0 < i < |r| && Parent(i) != child
      ensures !gt(r[Parent(i)], r[i])
    {
      assert s[i] in dom;
    }
  }

  lemma SinkDone<T(!new)>(s: seq<T>, gt: (T, T) -> bool, dom: iset<T>, hole: nat, child: nat)
    requires StrictWeakOrder(gt, dom) && Within(s, dom) && SinkingAt(s, gt, hole)
    requires LeastChild(s, gt, hole, child) && !gt(s[hole], s[child])
    ensures IsHeap(s, gt)
  {
    forall i | 0 < i < |s|
      ensures !gt(s[Parent(i)], s[i])
    {
      assert s[hole] in dom && s[child] in dom && s[i] in dom;
    }
  }

  method PushHeap<T(==, !new)>(s: seq<T>, x: T, after: (T, T) -> bool, ghost dom: iset<T>) returns (r: seq<T>)
    requires Within(s, dom) && x in dom
    ensures multiset(r) == multiset(s) + multiset{x} && |r| == |s| + 1
    ensures Within(r, dom)
    ensures forall gt :: Refines(after, gt, dom) && IsHeap(s, gt) ==> IsHeap(r, gt)
  {
    r := s + [x];
    var i := |s|;
    while i > 0 && after(r[Parent(i)], r[i])
      invariant 0 <= i < |r| == |s| + 1
      invariant multiset(r) == multiset(s) + multiset{x}
      invariant Within(r, dom)
      invariant forall gt :: Refines(after, gt, dom) && IsHeap(s, gt) ==> RisingAt(r, gt, i)
    {
      assert Parent(i) < i;
      SwapKeeps(r, Parent(i), i, dom);
      forall gt | Refines(after, gt, dom) && IsHeap(s, gt)
        ensures RisingAt(Swap(r, Parent(i), i), gt, Parent(i))
      {
        RiseStep(r, after, gt, dom, i);
      }
      hide Refines, RisingAt, IsHeap, Swap, Within;
      r, i := Swap(r, Parent(i), i), Parent(i);
    }
  }

  /** Moving the last element to the top leaves a heap that can only sink there. */
  lemma RefillTop<T(!new)>(s: seq<T>, r: seq<T>, gt: (T, T) -> bool)
    requires |s| > 1 && r == [Last(s)] + s[1..|s| - 1]
    requires IsHeap(s, gt)
    ensures SinkingAt(r, gt, 0)
  {
    forall i | 0 < i < |r| && Parent(i) != 0
      ensures !gt(r[Parent(i)], r[i])
    {
      assert r[i] == s[i] && r[Parent(i)] == s[Parent(i)];
    }
  }

  method FirstChild<T(!new)>(s: seq<T>, i: nat, after: (T, T) -> bool, ghost dom: iset<T>) returns (child: nat)
    requires 2 * i + 1 < |s| && Within(s, dom)
    ensures i < child < |s| && Parent(child) == i
    ensures forall gt :: Refines(after, gt, dom) ==> LeastChild(s, gt, i, child)
  {
    child := 2 * i + 1;
    if child + 1 < |s| && after(s[child], s[child + 1]) {
      child := child + 1;
    }
    forall gt | Refines(after, gt, dom)
      ensures LeastChild(s, gt, i, child)
    {
      forall k | 0 < k < |s| && Parent(k) == i
        ensures !gt(s[child], s[k])
      {
        assert s[child] in dom && s[k] in dom;
        assert k == 2 * i + 1 || k == 2 * i + 2;
      }
    }
  }

  method SinkTop<T(==, !new)>(s: seq<T>, after: (T, T) -> bool, ghost dom: iset<T>) returns (r: seq<T>)
    requires s != [] && Within(s, dom)
    ensures multiset(r) == multiset(s) && |r| == |s|
    ensures Within(r, dom)
    ensures forall gt :: Refines(after, gt, dom) && SinkingAt(s, gt, 0) ==> IsHeap(r, gt)
  {
    r := s;
    var i := 0;
    while 2 * i + 1 < |r|
      invariant 0 <= i < |r| == |s|
      invariant multiset(r) == multiset(s)
      invariant Within(r, dom)
      invariant forall gt :: Refines(after, gt, dom) && SinkingAt(s, gt, 0) ==> SinkingAt(r, gt, i)
      decreases |s| - i
    {
      var child := FirstChild(r, i, after, dom);
      if !after(r[i], r[child]) {
        forall gt | Refines(after, gt, dom) && SinkingAt(s, gt, 0)
          ensures IsHeap(r, gt)
        {
          assert r[i] in dom && r[child] in dom;
          SinkDone(r, gt, dom, i, child);
        }
        return;
      }
      forall gt | Refines(after, gt, dom) && SinkingAt(s, gt, 0)
        ensures SinkingAt(Swap(r, i, child), gt, child)
      {
        SinkStep(r, after, gt, dom, i, child);
      }
      r, i := Swap(r, i, child), child;
    }
  }

  method PopHeap<T(==, !new)>(s: seq<T>, after: (T, T) -> bool, ghost dom: iset<T>) returns (top: T, r: seq<T>)
    requires s != [] && Within(s, dom)
    ensures top == s[0]
    ensures multiset(s) == multiset(r) + multiset{top} && |r| == |s| - 1
    ensures Within(r, dom)
    ensures forall gt :: Refines(after, gt, dom) && IsHeap(s, gt) ==> IsHeap(r, gt)
  {
    top := s[0];
    if |s| == 1 {
      r := [];
      assert s == [top];
      return;
    }
    var refilled := [Last(s)] + s[1..|s| - 1];
    assert s == [top] + s[1..|s| - 1] + [Last(s)];
    assert Within(refilled, dom);
    forall gt | IsHeap(s, gt)
      ensures SinkingAt(refilled, gt, 0)
    {
      RefillTop(s, refilled, gt);
    }
    r := SinkTop(refilled, after, dom);
  }
}
