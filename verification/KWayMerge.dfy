/** The k-way merge of the Python trace files: a heap of source numbers whose keys
    are read through the sources themselves. */
module KWayMerge {
  import opened Seqs
  import opened Events
  import opened BinaryHeap

  /** `a` leaves after `b`: by time, then, if both depths are known, by depth and
      thread, then the longer span first. */
  predicate VizAfter(a: VizEvent, b: VizEvent) {
    if a.tsUs != b.tsUs then a.tsUs > b.tsUs
    else if a.depth >= 0 && b.depth >= 0 && a.depth != b.depth then a.depth > b.depth
    else if a.depth >= 0 && b.depth >= 0 && a.tid != b.tid then a.tid > b.tid
    else a.durUs < b.durUs
  }

  /** The two orders of interest: time alone, and the full key of the comparator. */
  datatype Order = ByTime | ByFullKey

  ghost predicate Gt(o: Order, a: VizEvent, b: VizEvent) {
    match o
    case ByTime => a.tsUs > b.tsUs
    case ByFullKey => VizAfter(a, b)
  }

  ghost predicate SortedBy(o: Order, s: seq<VizEvent>) {
    forall i, j :: 0 <= i < j < |s| ==> !Gt(o, s[i], s[j])
  }

  /** At one time: by duration `u`, of unknown depth, may leave no later than `y` and no
      earlier than `x`, two events of known depth that the key has leave the other way. */
  predicate Clash(x: VizEvent, y: VizEvent, u: VizEvent) {
    && x.tsUs == y.tsUs == u.tsUs
    && u.depth < 0 <= x.depth && 0 <= y.depth
    && (x.depth > y.depth || (x.depth == y.depth && x.tid > y.tid))
    && x.durUs >= u.durUs >= y.durUs
  }

  ghost predicate NoClash(events: iset<VizEvent>) {
    forall x, y, u | x in events && y in events && u in events :: !Clash(x, y, u)
  }

  /** The comparator is a strict weak order exactly if no three events clash. */
  lemma FullKeyIsAnOrder(events: iset<VizEvent>)
    ensures StrictWeakOrder(VizAfter, events) <==> NoClash(events)
  {
    if !NoClash(events) {
      var x, y, u :| x in events && y in events && u in events && Clash(x, y, u);
      assert !VizAfter(x, u) && !VizAfter(u, y) && VizAfter(x, y);
    } else {
      forall a, b, c | a in events && b in events && c in events && !VizAfter(a, b) && !VizAfter(b, c)
        ensures !VizAfter(a, c)
      {
        if VizAfter(a, c) {
          OneOfThreeClashes(a, b, c);
          assert false;
        }
      }
    }
  }

  /** Three events on which the comparator is not transitive clash. */
  lemma OneOfThreeClashes(a: VizEvent, b: VizEvent, c: VizEvent)
    requires !VizAfter(a, b) && !VizAfter(b, c) && VizAfter(a, c)
    ensures Clash(a, c, b) || Clash(b, a, c) || Clash(c, b, a)
  {
  }

  ghost function EventsIn(files: seq<seq<VizEvent>>): iset<VizEvent> {
    iset i, e | 0 <= i < |files| && e in files[i] :: e
  }

  lemma EventIsIn(files: seq<seq<VizEvent>>, i: nat, p: nat)
    requires i < |files| && p < |files[i]|
    ensures files[i][p] in EventsIn(files)
  {
    assert files[i][p] in files[i];
  }

  /** The files can be merged by `o`: each is sorted by it and, for the full key, no
      three of their events clash. */
  ghost predicate Mergeable(o: Order, files: seq<seq<VizEvent>>) {
    && (forall i :: 0 <= i < |files| ==> SortedBy(o, files[i]))
    && (o.ByFullKey? ==> NoClash(EventsIn(files)))
  }

  lemma MergeOrder(o: Order, files: seq<seq<VizEvent>>, a: VizEvent, b: VizEvent, c: VizEvent)
    requires Mergeable(o, files) && a in EventsIn(files) && b in EventsIn(files) && c in EventsIn(files)
    requires !Gt(o, a, b) && !Gt(o, b, c)
    ensures !Gt(o, a, c)
  {
    FullKeyIsAnOrder(EventsIn(files));
  }

  /** Unknown and known depths may meet at one time without harm. */
  lemma MixedDepthsCanBeOrdered(a: VizEvent, b: VizEvent)
    ensures StrictWeakOrder(VizAfter, iset{a, b})
  {
    FullKeyIsAnOrder(iset{a, b});
  }

  /** But three events may clash. */
  lemma MixedDepthsAreNotOrdered() returns (a: VizEvent, b: VizEvent, c: VizEvent)
    ensures a.tsUs == b.tsUs == c.tsUs && b.depth < 0 <= a.depth && 0 <= c.depth
    ensures !VizAfter(a, b) && !VizAfter(b, c) && VizAfter(a, c)
  {
    a := VizEvent(0.0, 1.0, 0, 0, 'X', 1, "", "", "");
    b := a.(depth := -1);
    c := a.(depth := 0);
  }

  // ---- the merge seen from outside: files, cursors, heap, output ----

  predicate IsLive(files: seq<seq<VizEvent>>, pos: seq<nat>, i: nat) {
    i < |files| && i < |pos| && pos[i] < |files[i]|
  }

  ghost function Live(files: seq<seq<VizEvent>>, pos: seq<nat>): iset<nat> {
    iset i: nat | IsLive(files, pos, i)
  }

  /** The comparator on source numbers. */
  function HeadAfter(files: seq<seq<VizEvent>>, pos: seq<nat>): (nat, nat) -> bool {
    (i: nat, j: nat) =>
      IsLive(files, pos, i) && IsLive(files, pos, j) && VizAfter(files[i][pos[i]], files[j][pos[j]])
  }

  ghost function HeadGt(o: Order, files: seq<seq<VizEvent>>, pos: seq<nat>): (nat, nat) -> bool {
    (i: nat, j: nat) =>
      IsLive(files, pos, i) && IsLive(files, pos, j) && Gt(o, files[i][pos[i]], files[j][pos[j]])
  }

  lemma HeadsAreOrdered(o: Order, files: seq<seq<VizEvent>>, pos: seq<nat>)
    requires Mergeable(o, files)
    ensures Refines(HeadAfter(files, pos), HeadGt(o, files, pos), Live(files, pos))
  {
    var gt, dom := HeadGt(o, files, pos), Live(files, pos);
    hide Mergeable;
    forall a, b, c | a in dom && b in dom && c in dom && !gt(a, b) && !gt(b, c)
      ensures !gt(a, c)
    {
      EventIsIn(files, a, pos[a]);
      EventIsIn(files, b, pos[b]);
      EventIsIn(files, c, pos[c]);
      MergeOrder(o, files, files[a][pos[a]], files[b][pos[b]], files[c][pos[c]]);
    }
  }

  /** The elements of `s` that came from source `i`. */
  function From(origins: seq<nat>, s: seq<VizEvent>, i: nat): seq<VizEvent>
    requires |origins| == |s|
  {
    if s == [] then []
    else From(Init(origins), Init(s), i) + if Last(origins) == i then [Last(s)] else []
  }

  /** The output so far interleaves the consumed parts of the files. */
  ghost predicate Interleaves(files: seq<seq<VizEvent>>, pos: seq<nat>, out: seq<VizEvent>, origins: seq<nat>) {
    && |pos| == |files| && |origins| == |out|
    && (forall i :: 0 <= i < |origins| ==> origins[i] < |files|)
    && forall i :: 0 <= i < |files| ==> pos[i] <= |files[i]| && From(origins, out, i) == files[i][..pos[i]]
  }

  /** The heap holds each source that still has an event, once, and no other. */
  ghost predicate HoldsLive(files: seq<seq<VizEvent>>, pos: seq<nat>, heap: seq<nat>) {
    forall i: nat :: multiset(heap)[i] == if IsLive(files, pos, i) then 1 else 0
  }

  /** The heap is one by every order by which the files can be merged. */
  ghost predicate HeapOfHeads(files: seq<seq<VizEvent>>, pos: seq<nat>, heap: seq<nat>) {
    forall o :: Mergeable(o, files) ==> IsHeap(heap, HeadGt(o, files, pos))
  }

  /** Nothing left in the files belongs before `e`. */
  ghost predicate BeforeRest(o: Order, files: seq<seq<VizEvent>>, pos: seq<nat>, e: VizEvent) {
    forall i, p :: 0 <= i < |files| && i < |pos| && pos[i] <= p < |files[i]| ==> !Gt(o, e, files[i][p])
  }

  ghost predicate InOrder(o: Order, files: seq<seq<VizEvent>>, pos: seq<nat>, out: seq<VizEvent>) {
    && SortedBy(o, out)
    && forall e | e in out :: BeforeRest(o, files, pos, e)
  }

  ghost predicate Merging(files: seq<seq<VizEvent>>, pos: seq<nat>, heap: seq<nat>,
                          out: seq<VizEvent>, origins: seq<nat>) {
    && HoldsLive(files, pos, heap)
    && Interleaves(files, pos, out, origins)
    && HeapOfHeads(files, pos, heap)
    && forall o :: Mergeable(o, files) ==> InOrder(o, files, pos, out)
  }

  lemma HeadGtFrozen(o: Order, files: seq<seq<VizEvent>>, pos: seq<nat>, pos': seq<nat>, a: nat, b: nat)
    requires |pos| == |pos'|
    requires (a < |pos| ==> pos'[a] == pos[a]) && (b < |pos| ==> pos'[b] == pos[b])
    ensures HeadGt(o, files, pos')(a, b) ==> HeadGt(o, files, pos)(a, b)
  {
    if HeadGt(o, files, pos')(a, b) {
      assert IsLive(files, pos', a) && IsLive(files, pos', b);
      assert Gt(o, files[a][pos[a]], files[b][pos[b]]);
    }
  }

  /** Moving the cursor of a source that is not in the heap changes no key in it. */
  lemma KeysFrozen(files: seq<seq<VizEvent>>, pos: seq<nat>, pos': seq<nat>, heap: seq<nat>)
    requires HeapOfHeads(files, pos, heap)
    requires |pos| == |pos'| && forall i :: i in heap && i < |pos| ==> pos'[i] == pos[i]
    ensures HeapOfHeads(files, pos', heap)
  {
    forall o | Mergeable(o, files)
      ensures IsHeap(heap, HeadGt(o, files, pos'))
    {
      assert IsHeap(heap, HeadGt(o, files, pos));
      forall i {:trigger Parent(i)} | 0 < i < |heap|
        ensures !HeadGt(o, files, pos')(heap[Parent(i)], heap[i])
      {
        var a, b := heap[Parent(i)], heap[i];
        assert a in heap && b in heap;
        HeadGtFrozen(o, files, pos, pos', a, b);
      }
    }
  }

  /** The event at the head of the top source belongs before all others that are left. */
  lemma TopIsFirst(o: Order, files: seq<seq<VizEvent>>, pos: seq<nat>, heap: seq<nat>)
    requires Mergeable(o, files) && |pos| == |files| && HoldsLive(files, pos, heap)
    requires IsHeap(heap, HeadGt(o, files, pos)) && heap != [] && IsLive(files, pos, heap[0])
    ensures BeforeRest(o, files, pos, files[heap[0]][pos[heap[0]]])
  {
    var e := files[heap[0]][pos[heap[0]]];
    forall i, p | 0 <= i < |files| && pos[i] <= p < |files[i]|
      ensures !Gt(o, e, files[i][p])
    {
      assert IsLive(files, pos, i);
      assert i in multiset(heap);
      var k :| 0 <= k < |heap| && heap[k] == i;
      HeadsAreOrdered(o, files, pos);
      HeapIsLive(files, pos, heap);
      TopLeavesFirst(heap, HeadGt(o, files, pos), Live(files, pos), k);
      assert !HeadGt(o, files, pos)(heap[0], i);
      assert SortedBy(o, files[i]);
      EventIsIn(files, heap[0], pos[heap[0]]);
      EventIsIn(files, i, pos[i]);
      EventIsIn(files, i, p);
      if pos[i] < p {
        MergeOrder(o, files, e, files[i][pos[i]], files[i][p]);
      }
    }
  }

  lemma HeapIsLive(files: seq<seq<VizEvent>>, pos: seq<nat>, heap: seq<nat>)
    requires HoldsLive(files, pos, heap)
    ensures Within(heap, Live(files, pos))
    ensures forall i :: i in heap <==> IsLive(files, pos, i)
  {
    forall i
      ensures i in heap <==> IsLive(files, pos, i)
    {
      assert i in heap <==> i in multiset(heap);
    }
    forall j | 0 <= j < |heap|
      ensures heap[j] in Live(files, pos)
    {
      assert heap[j] in heap;
    }
  }

  /** Taking that event keeps the output in order. */
  lemma OrderAfterTaking(o: Order, files: seq<seq<VizEvent>>, pos: seq<nat>, pos': seq<nat>,
                         out: seq<VizEvent>, top: nat)
    requires IsLive(files, pos, top) && |pos| == |files| && pos' == pos[top := pos[top] + 1]
    requires InOrder(o, files, pos, out)
    requires BeforeRest(o, files, pos, files[top][pos[top]])
    ensures InOrder(o, files, pos', out + [files[top][pos[top]]])
  {
    var head := files[top][pos[top]];
    forall i, j | 0 <= i < j < |out + [head]|
      ensures !Gt(o, (out + [head])[i], (out + [head])[j])
    {
      assert out[i] in out;
    }
    forall e | e in out + [head]
      ensures BeforeRest(o, files, pos', e)
    {
      assert BeforeRest(o, files, pos, e);
    }
  }

  lemma InterleavesSnoc(files: seq<seq<VizEvent>>, pos: seq<nat>, out: seq<VizEvent>, origins: seq<nat>, top: nat)
    requires Interleaves(files, pos, out, origins) && IsLive(files, pos, top)
    ensures Interleaves(files, pos[top := pos[top] + 1], out + [files[top][pos[top]]], origins + [top])
  {
    var e, pos' := files[top][pos[top]], pos[top := pos[top] + 1];
    InitLast(out, e);
    InitLast(origins, top);
    assert files[top][..pos[top] + 1] == files[top][..pos[top]] + [e];
  }

  /** The number of events not yet merged. */
  ghost function Left(files: seq<seq<VizEvent>>, pos: seq<nat>): nat {
    if files == [] || pos == [] then 0
    else Left(Init(files), Init(pos)) + if Last(pos) <= |Last(files)| then |Last(files)| - Last(pos) else 0
  }

  lemma {:induction false} LeftAfterStep(files: seq<seq<VizEvent>>, pos: seq<nat>, i: nat)
    requires |pos| == |files| && IsLive(files, pos, i)
    ensures Left(files, pos[i := pos[i] + 1]) + 1 == Left(files, pos)
  {
    if i < |files| - 1 {
      LeftAfterStep(Init(files), Init(pos), i);
      assert Init(pos[i := pos[i] + 1]) == Init(pos)[i := pos[i] + 1];
    } else {
      assert Init(pos[i := pos[i] + 1]) == Init(pos);
    }
  }

  // ---- the heap operations on source numbers ----

  lemma AllHeadsOrdered(files: seq<seq<VizEvent>>, pos: seq<nat>)
    ensures forall o :: Mergeable(o, files) ==> Refines(HeadAfter(files, pos), HeadGt(o, files, pos), Live(files, pos))
  {
    forall o | Mergeable(o, files)
      ensures Refines(HeadAfter(files, pos), HeadGt(o, files, pos), Live(files, pos))
    {
      HeadsAreOrdered(o, files, pos);
    }
  }

  method PushSource(files: seq<seq<VizEvent>>, pos: seq<nat>, heap: seq<nat>, i: nat) returns (more: seq<nat>)
    requires HeapOfHeads(files, pos, heap) && Within(heap, Live(files, pos)) && IsLive(files, pos, i)
    ensures multiset(more) == multiset(heap) + multiset{i}
    ensures HeapOfHeads(files, pos, more)
  {
    AllHeadsOrdered(files, pos);
    hide Refines, IsHeap;
    more := PushHeap(heap, i, HeadAfter(files, pos), Live(files, pos));
  }

  method PopSource(files: seq<seq<VizEvent>>, pos: seq<nat>, heap: seq<nat>) returns (top: nat, rest: seq<nat>)
    requires HeapOfHeads(files, pos, heap) && Within(heap, Live(files, pos)) && heap != []
    ensures top == heap[0]
    ensures multiset(heap) == multiset(rest) + multiset{top}
    ensures HeapOfHeads(files, pos, rest)
  {
    AllHeadsOrdered(files, pos);
    hide Refines, IsHeap;
    top, rest := PopHeap(heap, HeadAfter(files, pos), Live(files, pos));
  }

  lemma MergingHeap(files: seq<seq<VizEvent>>, pos: seq<nat>, heap: seq<nat>, out: seq<VizEvent>, origins: seq<nat>)
    requires Merging(files, pos, heap, out, origins)
    ensures HeapOfHeads(files, pos, heap) && Within(heap, Live(files, pos))
    ensures heap != [] ==> IsLive(files, pos, heap[0])
  {
    HeapIsLive(files, pos, heap);
    if heap != [] {
      assert heap[0] in heap;
    }
  }

  /** With the top source popped, its cursor may move. */
  lemma TopMayMove(files: seq<seq<VizEvent>>, pos: seq<nat>, heap: seq<nat>, top: nat, rest: seq<nat>, pos': seq<nat>)
    requires HoldsLive(files, pos, heap) && multiset(heap) == multiset(rest) + multiset{top}
    requires HeapOfHeads(files, pos, rest)
    requires top < |pos| && pos' == pos[top := pos[top] + 1]
    ensures HeapOfHeads(files, pos', rest) && Within(rest, Live(files, pos'))
  {
    forall j | 0 <= j < |rest|
      ensures rest[j] != top && IsLive(files, pos, rest[j])
    {
      assert rest[j] in multiset(rest);
      assert multiset(heap)[rest[j]] >= 1;
    }
    KeysFrozen(files, pos, pos', rest);
  }

  /** Popping the top source, moving its cursor and pushing it back if it has more. */
  lemma MergingStep(files: seq<seq<VizEvent>>, pos: seq<nat>, heap: seq<nat>, out: seq<VizEvent>, origins: seq<nat>,
                    top: nat, popped: seq<nat>, pos': seq<nat>, heap': seq<nat>)
    requires Merging(files, pos, heap, out, origins) && heap != [] && top == heap[0]
    requires IsLive(files, pos, top) && pos' == pos[top := pos[top] + 1]
    requires HeapOfHeads(files, pos', heap')
    requires multiset(heap) == multiset(popped) + multiset{top}
    requires multiset(heap') == multiset(popped) +
             if IsLive(files, pos', top) then multiset{top} else multiset{}
    ensures Merging(files, pos', heap', out + [files[top][pos[top]]], origins + [top])
  {
    assert HoldsLive(files, pos', heap') by {
      assert multiset(popped) == multiset(heap) - multiset{top};
      assert forall i: nat :: i != top ==> multiset(heap')[i] == multiset(heap)[i];
    }
    InterleavesSnoc(files, pos, out, origins, top);
    forall o | Mergeable(o, files)
      ensures InOrder(o, files, pos', out + [files[top][pos[top]]])
    {
      TopIsFirst(o, files, pos, heap);
      OrderAfterTaking(o, files, pos, pos', out, top);
    }
  }

  /** The heap holds those of the first `n` sources that have an event at all. */
  ghost predicate Seeded(files: seq<seq<VizEvent>>, start: seq<nat>, heap: seq<nat>, n: nat) {
    && |start| == |files|
    && (forall j :: 0 <= j < |start| ==> start[j] == 0)
    && HeapOfHeads(files, start, heap)
    && forall k: nat :: multiset(heap)[k] == if k < n && IsLive(files, start, k) then 1 else 0
  }

  lemma NothingSeeded(files: seq<seq<VizEvent>>, start: seq<nat>)
    requires |start| == |files| && forall j :: 0 <= j < |start| ==> start[j] == 0
    ensures Seeded(files, start, [], 0)
  {
  }

  /** While the heap is seeded, the sources in it stand at their start. */
  lemma SeededHeap(files: seq<seq<VizEvent>>, start: seq<nat>, pos: seq<nat>, heap: seq<nat>, i: nat)
    requires Seeded(files, start, heap, i)
    requires |pos| == |files| && i < |pos| && forall j :: 0 <= j <= i ==> pos[j] == 0
    ensures HeapOfHeads(files, pos, heap) && Within(heap, Live(files, pos))
  {
    forall j | 0 <= j < |heap|
      ensures heap[j] < i && heap[j] in Live(files, pos)
    {
      assert heap[j] in multiset(heap);
    }
    KeysFrozen(files, start, pos, heap);
  }

  lemma SeedOne(files: seq<seq<VizEvent>>, start: seq<nat>, pos: seq<nat>, heap: seq<nat>, i: nat, more: seq<nat>)
    requires Seeded(files, start, heap, i)
    requires |pos| == |files| && i < |pos| && forall j :: 0 <= j <= i ==> pos[j] == 0
    requires IsLive(files, pos, i) && HeapOfHeads(files, pos, more)
    requires multiset(more) == multiset(heap) + multiset{i}
    ensures Seeded(files, start, more, i + 1)
  {
    forall k | k in more
      ensures k <= i
    {
      assert k in multiset(more);
    }
    KeysFrozen(files, pos, start, more);
  }

  lemma SeedNone(files: seq<seq<VizEvent>>, start: seq<nat>, heap: seq<nat>, i: nat)
    requires Seeded(files, start, heap, i) && !IsLive(files, start, i)
    ensures Seeded(files, start, heap, i + 1)
  {
  }

  lemma SeedingDone(files: seq<seq<VizEvent>>, start: seq<nat>, heap: seq<nat>)
    requires Seeded(files, start, heap, |files|)
    ensures Merging(files, start, heap, [], [])
  {
  }

  /** A cursor over one trace file. */
  class FtrcReader {
    const events: seq<VizEvent>
    var pos: nat

    constructor (events: seq<VizEvent>)
      ensures this.events == events && pos == 0
    {
      this.events, pos := events, 0;
    }

    predicate HasNext()
      reads this
    {
      pos < |events|
    }

    function Peek(): VizEvent
      requires HasNext()
      reads this
    {
      events[pos]
    }

    method BeginIteration()
      modifies this
      ensures pos == 0
    {
      pos := 0;
    }

    method Advance()
      requires HasNext()
      modifies this
      ensures pos == old(pos) + 1
    {
      pos := pos + 1;
    }
  }

  function EventsOf(sources: seq<FtrcReader>): (files: seq<seq<VizEvent>>)
    ensures |files| == |sources| && forall i :: 0 <= i < |files| ==> files[i] == sources[i].events
  {
    seq(|sources|, i requires 0 <= i < |sources| => sources[i].events)
  }

  function PosOf(sources: seq<FtrcReader>): (pos: seq<nat>)
    reads sources
    ensures |pos| == |sources| && forall i :: 0 <= i < |pos| ==> pos[i] == sources[i].pos
  {
    seq(|sources|, i requires 0 <= i < |sources| reads sources => sources[i].pos)
  }

  ghost predicate AllDifferent(sources: seq<FtrcReader>) {
    forall i, j :: 0 <= i < j < |sources| ==> sources[i] != sources[j]
  }

  /** Rewind source `i` and no other. */
  method BeginAt(sources: seq<FtrcReader>, i: nat)
    requires i < |sources| && AllDifferent(sources)
    modifies sources[i]
    ensures PosOf(sources) == old(PosOf(sources))[i := 0]
  {
    sources[i].BeginIteration();
    assert forall j :: 0 <= j < |sources| && j != i ==> sources[j] != sources[i];
  }

  /** Step source `i` and no other. */
  method AdvanceAt(sources: seq<FtrcReader>, i: nat)
    requires i < |sources| && AllDifferent(sources) && sources[i].HasNext()
    modifies sources[i]
    ensures PosOf(sources) == old(PosOf(sources)[i := PosOf(sources)[i] + 1])
  {
    sources[i].Advance();
    assert forall j :: 0 <= j < |sources| && j != i ==> sources[j] != sources[i];
  }

  class KWayVizMerge {
    var sources: seq<FtrcReader>
    var heap: seq<nat>
    var current: VizEvent
    var hasCurrent: bool
    ghost var out: seq<VizEvent>      // events already passed over
    ghost var origins: seq<nat>       // the source of each of them

    ghost predicate Valid()
      reads this, sources
    {
      && AllDifferent(sources)
      && Merging(EventsOf(sources), PosOf(sources), heap, out, origins)
      && (hasCurrent <==> heap != [])
      && (hasCurrent ==>
            IsLive(EventsOf(sources), PosOf(sources), heap[0]) &&
            current == EventsOf(sources)[heap[0]][PosOf(sources)[heap[0]]])
    }

    constructor ()
      ensures sources == [] && heap == [] && !hasCurrent
    {
      sources, heap, hasCurrent := [], [], false;
      current := VizEvent(0.0, 0.0, 0, 0, 'X', -1, "", "", "");
      out, origins := [], [];
    }

    method AddSource(reader: FtrcReader)
      modifies this`sources
      ensures sources == old(sources) + [reader]
    {
      sources := sources + [reader];
    }

    /** Rewind every source and put those that have an event into the heap. */
    method Initialize()
      requires AllDifferent(sources) && heap == [] && !hasCurrent
      modifies this`heap, this`current, this`hasCurrent, this`out, this`origins, sources
      ensures Valid() && out == []
      ensures sources == old(sources)
    {
      out, origins := [], [];
      ghost var files := EventsOf(sources);
      ghost var start: seq<nat> := seq(|sources|, _ => 0);
      NothingSeeded(files, start);
      hide HeapOfHeads, Seeded, Merging;
      for i := 0 to |sources|
        invariant forall j :: 0 <= j < i ==> PosOf(sources)[j] == 0
        invariant Seeded(files, start, heap, i) && out == [] && origins == []
      {
        SeedSource(i, start);
      }
      assert PosOf(sources) == start;
      SeedingDone(files, start, heap);
      RefreshCurrent(start);
    }

    /** Rewind source `i`; if it has an event, it goes into the heap. */
    method SeedSource(i: nat, ghost start: seq<nat>)
      requires AllDifferent(sources) && i < |sources| && start == seq(|sources|, _ => 0)
      requires forall j :: 0 <= j < i ==> PosOf(sources)[j] == 0
      requires Seeded(EventsOf(sources), start, heap, i)
      modifies this`heap, sources
      ensures forall j :: 0 <= j <= i ==> PosOf(sources)[j] == 0
      ensures Seeded(EventsOf(sources), start, heap, i + 1)
    {
      hide HeapOfHeads, Seeded;
      ghost var files := EventsOf(sources);
      BeginAt(sources, i);
      if sources[i].HasNext() {
        ghost var held := heap;
        SeededHeap(files, start, PosOf(sources), held, i);
        heap := PushSource(EventsOf(sources), PosOf(sources), heap, i);
        SeedOne(files, start, PosOf(sources), held, i, heap);
      } else {
        SeedNone(files, start, heap, i);
      }
    }

    method RefreshCurrent(ghost pos: seq<nat>)
      requires AllDifferent(sources) && pos == PosOf(sources)
      requires Merging(EventsOf(sources), pos, heap, out, origins)
      modifies this`current, this`hasCurrent
      ensures Valid() && pos == PosOf(sources)
    {
      MergingHeap(EventsOf(sources), pos, heap, out, origins);
      hide Merging, HeapOfHeads;
      if heap != [] {
        current := sources[heap[0]].Peek();
        hasCurrent := true;
      } else {
        hasCurrent := false;
      }
    }

    /** Step the popped source, and push it back if it has more. */
    method MoveTop(top: nat, popped: seq<nat>) returns (rest: seq<nat>)
      requires AllDifferent(sources) && IsLive(EventsOf(sources), PosOf(sources), top)
      requires HoldsLive(EventsOf(sources), PosOf(sources), heap) && multiset(heap) == multiset(popped) + multiset{top}
      requires HeapOfHeads(EventsOf(sources), PosOf(sources), popped)
      modifies sources
      ensures PosOf(sources) == old(PosOf(sources)[top := PosOf(sources)[top] + 1])
      ensures HeapOfHeads(EventsOf(sources), PosOf(sources), rest)
      ensures multiset(rest) == multiset(popped) +
                if IsLive(EventsOf(sources), PosOf(sources), top) then multiset{top} else multiset{}
    {
      ghost var files, start := EventsOf(sources), PosOf(sources);
      hide HeapOfHeads, HoldsLive;
      AdvanceAt(sources, top);
      TopMayMove(files, start, heap, top, popped, PosOf(sources));
      rest := popped;
      if sources[top].HasNext() {
        rest := PushSource(EventsOf(sources), PosOf(sources), rest, top);
      }
    }

    /** Pop the top source BEFORE its cursor moves, and push it back if it has more. */
    method StepTop() returns (rest: seq<nat>, ghost pos: seq<nat>, ghost top: nat)
      requires Valid() && heap != []
      modifies sources
      ensures pos == PosOf(sources)
      ensures Merging(EventsOf(sources), pos, rest, out + [current], origins + [top])
      ensures Left(EventsOf(sources), pos) + 1 == Left(EventsOf(sources), old(PosOf(sources)))
    {
      ghost var files, start := EventsOf(sources), PosOf(sources);
      assert HoldsLive(files, start, heap);
      hide Merging, HeapOfHeads, HoldsLive, Interleaves;
      MergingHeap(files, start, heap, out, origins);
      var first, popped := PopSource(EventsOf(sources), PosOf(sources), heap);
      rest := MoveTop(first, popped);
      top, pos := first, PosOf(sources);
      MergingStep(files, start, heap, out, origins, top, popped, pos, rest);
      LeftAfterStep(files, start, top);
    }

    /** Step past the current event. */
    method Advance()
      requires Valid()
      modifies this`heap, this`current, this`hasCurrent, this`out, this`origins, sources
      ensures Valid()
      ensures old(hasCurrent) ==> out == old(out) + [old(current)]
      ensures !old(hasCurrent) ==> out == old(out) && !hasCurrent
      ensures old(hasCurrent) ==>
                Left(EventsOf(sources), PosOf(sources)) + 1 == Left(EventsOf(sources), old(PosOf(sources)))
    {
      hide Merging, Left;
      if heap == [] {
        hasCurrent := false;
        return;
      }
      ghost var pos, top;
      var rest;
      rest, pos, top := StepTop();
      heap, out, origins := rest, out + [current], origins + [top];
      RefreshCurrent(pos);
    }
  }

  // ---- whole runs ----

  function Ends(files: seq<seq<VizEvent>>): seq<nat> {
    seq(|files|, i requires 0 <= i < |files| => |files[i]|)
  }

  /** `out` holds every event of every file once, each file in its own order. */
  ghost predicate IsInterleaving(files: seq<seq<VizEvent>>, out: seq<VizEvent>) {
    exists origins :: Interleaves(files, Ends(files), out, origins)
  }

  lemma NothingLeft(files: seq<seq<VizEvent>>, pos: seq<nat>, out: seq<VizEvent>, origins: seq<nat>)
    requires Merging(files, pos, [], out, origins)
    ensures IsInterleaving(files, out)
    ensures forall o :: Mergeable(o, files) ==> SortedBy(o, out)
  {
    forall i: nat | i < |files|
      ensures pos[i] == |files[i]|
    {
      assert multiset([])[i] == 0;
      assert !IsLive(files, pos, i);
    }
    assert pos == Ends(files);
    forall o | Mergeable(o, files)
      ensures SortedBy(o, out)
    {
      assert InOrder(o, files, pos, out);
    }
  }

  /** Merging any files interleaves them. If every file is sorted by time, so is the
      result, however depths are mixed; if every file is sorted by the full key and no
      three events clash, so is the result. */
  method MergeAll(files: seq<seq<VizEvent>>) returns (out: seq<VizEvent>)
    ensures IsInterleaving(files, out)
    ensures forall o :: Mergeable(o, files) ==> SortedBy(o, out)
  {
    var merge := new KWayVizMerge();
    for i := 0 to |files|
      invariant fresh(merge) && fresh(merge.sources)
      invariant AllDifferent(merge.sources) && EventsOf(merge.sources) == files[..i]
      invariant merge.heap == [] && !merge.hasCurrent
    {
      var reader := new FtrcReader(files[i]);
      merge.AddSource(reader);
    }
    merge.Initialize();
    assert EventsOf(merge.sources) == files;
    out := [];
    while merge.hasCurrent
      invariant fresh(merge) && fresh(merge.sources)
      invariant merge.Valid() && EventsOf(merge.sources) == files
      invariant merge.out == out
      decreases merge.hasCurrent, Left(files, PosOf(merge.sources))
    {
      out := out + [merge.current];
      merge.Advance();
    }
    NothingLeft(files, PosOf(merge.sources), out, merge.origins);
  }

  // ---- that some files cannot be merged by the full key at all ----

  lemma {:induction false} FromIsIn(origins: seq<nat>, s: seq<VizEvent>, i: nat, e: VizEvent)
    requires |origins| == |s| && e in From(origins, s, i)
    ensures e in s
  {
    if e in From(Init(origins), Init(s), i) {
      FromIsIn(Init(origins), Init(s), i, e);
    }
  }

  lemma InterleavingHas(files: seq<seq<VizEvent>>, out: seq<VizEvent>, e: VizEvent)
    requires IsInterleaving(files, out) && e in EventsIn(files)
    ensures e in out
  {
    var i :| 0 <= i < |files| && e in files[i];
    var origins :| Interleaves(files, Ends(files), out, origins);
    assert files[i][..|files[i]|] == files[i];
    FromIsIn(origins, out, i, e);
  }

  /** Where the durations of a clash differ, nothing that holds all three is sorted:
      each of the three belongs before another one. */
  lemma ClashCannotBeSorted(s: seq<VizEvent>, x: VizEvent, y: VizEvent, u: VizEvent)
    requires Clash(x, y, u) && x.durUs > u.durUs > y.durUs
    requires x in s && y in s && u in s
    ensures !SortedBy(ByFullKey, s)
  {
    var i :| 0 <= i < |s| && s[i] == x;
    var j :| 0 <= j < |s| && s[j] == y;
    var k :| 0 <= k < |s| && s[k] == u;
    assert Gt(ByFullKey, x, y) && Gt(ByFullKey, u, x) && Gt(ByFullKey, y, u);
    assert i < j ==> Gt(ByFullKey, s[i], s[j]);
    assert k < i ==> Gt(ByFullKey, s[k], s[i]);
    assert j < k ==> Gt(ByFullKey, s[j], s[k]);
  }

  /** So no interleaving of files with such a clash is sorted. */
  lemma ClashCannotBeMerged(files: seq<seq<VizEvent>>, out: seq<VizEvent>, x: VizEvent, y: VizEvent, u: VizEvent)
    requires IsInterleaving(files, out)
    requires x in EventsIn(files) && y in EventsIn(files) && u in EventsIn(files)
    requires Clash(x, y, u) && x.durUs > u.durUs > y.durUs
    ensures !SortedBy(ByFullKey, out)
  {
    hide IsInterleaving, EventsIn, SortedBy, Clash;
    InterleavingHas(files, out, x);
    InterleavingHas(files, out, y);
    InterleavingHas(files, out, u);
    ClashCannotBeSorted(out, x, y, u);
  }

  function MixedFiles(): seq<seq<VizEvent>> {
    var e := VizEvent(0.0, 1.0, 0, 0, 'X', 0, "", "", "");
    [[e, e.(depth := 1, durUs := 3.0)], [e.(depth := -1, durUs := 2.0)]]
  }

  /** Two files, each sorted by the full key, to which that happens. */
  lemma MixedDepthsCannotBeMerged(out: seq<VizEvent>)
    requires IsInterleaving(MixedFiles(), out)
    ensures forall i :: 0 <= i < 2 ==> SortedBy(ByFullKey, MixedFiles()[i])
    ensures !SortedBy(ByFullKey, out)
  {
    var y, x, u := MixedFiles()[0][0], MixedFiles()[0][1], MixedFiles()[1][0];
    assert y in MixedFiles()[0] && x in MixedFiles()[0] && u in MixedFiles()[1];
    ClashCannotBeMerged(MixedFiles(), out, x, y, u);
  }
}
