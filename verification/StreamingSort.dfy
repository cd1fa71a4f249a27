/** The bounded reorder buffer that sorts a perf stream with a heap of `capacity`
    events, against the in-memory sort it stands in for. */
module StreamingSort {
  import opened Seqs
  import opened Events
  import opened BinaryHeap

  function Priority(k: PerfKind): int {
    if k.SchedSwitch? then 1 else 0
  }

  /** `a` is emitted after `b`: later in time, or a switch at the same time as a non-switch. */
  predicate After(a: PerfEvent, b: PerfEvent) {
    if a.timestampNs != b.timestampNs then a.timestampNs > b.timestampNs
    else Priority(a.kind) > Priority(b.kind)
  }

  function Key(e: PerfEvent): (u64, int) {
    (e.timestampNs, Priority(e.kind))
  }

  /** The comparator as a function value. */
  function ByAfter(): (PerfEvent, PerfEvent) -> bool {
    (a, b) => After(a, b)
  }

  ghost const AnyEvent: iset<PerfEvent> := iset e: PerfEvent | true

  lemma AfterIsAnOrder()
    ensures Refines(ByAfter(), ByAfter(), AnyEvent)
  {
  }

  ghost predicate Sorted(s: seq<PerfEvent>) {
    forall i, j :: 0 <= i < j < |s| ==> !After(s[i], s[j])
  }

  /** How many elements of `s` have to leave strictly after `e`. */
  function Overtaken(s: seq<PerfEvent>, e: PerfEvent): (n: nat)
    ensures n <= |s|
  {
    if s == [] then 0
    else Overtaken(Init(s), e) + if After(Last(s), e) then 1 else 0
  }

  /** Every event overtakes at most `c` of the events read before it. */
  ghost predicate Bounded(s: seq<PerfEvent>, c: nat) {
    forall i :: 0 <= i < |s| ==> Overtaken(s[..i], s[i]) <= c
  }

  function MinTs(s: seq<PerfEvent>): u64 {
    if s == [] then U64_MAX
    else
      var m := MinTs(Init(s));
      if Last(s).timestampNs < m then Last(s).timestampNs else m
  }

  function MaxTs(s: seq<PerfEvent>): u64 {
    if s == [] then 0
    else
      var m := MaxTs(Init(s));
      if Last(s).timestampNs > m then Last(s).timestampNs else m
  }

  /** What construction reads: the window and one event more, or all there is. */
  function ReadAhead(s: seq<PerfEvent>, c: nat): seq<PerfEvent> {
    if c + 1 <= |s| then s[..c + 1] else s
  }

  function IsFork(): PerfEvent -> bool {
    (e: PerfEvent) => e.kind.SchedFork?
  }

  // ---- the order in plain terms ----

  /** By time, and among events at one time the switches last. */
  ghost predicate InTimeOrder(s: seq<PerfEvent>) {
    forall i, j :: 0 <= i < j < |s| ==>
      && s[i].timestampNs <= s[j].timestampNs
      && (s[i].timestampNs == s[j].timestampNs && s[i].kind.SchedSwitch? ==> s[j].kind.SchedSwitch?)
  }

  lemma SortedMeans(s: seq<PerfEvent>)
    ensures Sorted(s) <==> InTimeOrder(s)
  {
    if InTimeOrder(s) {
      forall i, j | 0 <= i < j < |s|
        ensures !After(s[i], s[j])
      {
      }
    }
    if Sorted(s) {
      forall i, j | 0 <= i < j < |s|
        ensures s[i].timestampNs <= s[j].timestampNs
        ensures s[i].timestampNs == s[j].timestampNs && s[i].kind.SchedSwitch? ==> s[j].kind.SchedSwitch?
      {
        assert !After(s[i], s[j]);
      }
    }
  }

  /** The events that have to leave after `e`: later ones, and if `e` is no switch, the
      switches at its time. */
  function LaterThan(e: PerfEvent): PerfEvent -> bool {
    (x: PerfEvent) =>
      x.timestampNs > e.timestampNs ||
      (x.timestampNs == e.timestampNs && x.kind.SchedSwitch? && !e.kind.SchedSwitch?)
  }

  lemma {:induction false} OvertakenMeans(s: seq<PerfEvent>, e: PerfEvent)
    ensures Overtaken(s, e) == |Filter(LaterThan(e), s)|
  {
    if s != [] {
      OvertakenMeans(Init(s), e);
      assert After(Last(s), e) <==> LaterThan(e)(Last(s));
    }
  }

  /** No event comes after more than `c` that have to leave after it. */
  ghost predicate NoneTooLate(s: seq<PerfEvent>, c: nat) {
    forall i :: 0 <= i < |s| ==> |Filter(LaterThan(s[i]), s[..i])| <= c
  }

  lemma BoundedMeans(s: seq<PerfEvent>, c: nat)
    ensures Bounded(s, c) <==> NoneTooLate(s, c)
  {
    hide Overtaken, LaterThan;
    forall i | 0 <= i < |s|
      ensures Overtaken(s[..i], s[i]) <= c <==> |Filter(LaterThan(s[i]), s[..i])| <= c
    {
      OvertakenMeans(s[..i], s[i]);
    }
  }

  /** The least and the greatest time are times of the stream, and bounds of it. */
  lemma {:induction false} TimesMean(s: seq<PerfEvent>)
    requires s != []
    ensures exists i :: 0 <= i < |s| && s[i].timestampNs == MinTs(s)
    ensures exists i :: 0 <= i < |s| && s[i].timestampNs == MaxTs(s)
    ensures forall i :: 0 <= i < |s| ==> MinTs(s) <= s[i].timestampNs <= MaxTs(s)
  {
    var front, e := Init(s), Last(s);
    assert s[|s| - 1] == e;
    if front == [] {
      assert MinTs(front) == U64_MAX && MaxTs(front) == 0;
    } else {
      TimesMean(front);
      var i :| 0 <= i < |front| && front[i].timestampNs == MinTs(front);
      var j :| 0 <= j < |front| && front[j].timestampNs == MaxTs(front);
      assert s[i] == front[i] && s[j] == front[j];
      assert forall k :: 0 <= k < |front| ==> s[k] == front[k];
    }
  }

  // ---- counting ----

  lemma OvertakenSnoc(s: seq<PerfEvent>, x: PerfEvent, e: PerfEvent)
    ensures Overtaken(s + [x], e) == Overtaken(s, e) + if After(x, e) then 1 else 0
  {
    InitLast(s, x);
  }

  lemma {:induction false} OvertakenAppend(a: seq<PerfEvent>, b: seq<PerfEvent>, e: PerfEvent)
    ensures Overtaken(a + b, e) == Overtaken(a, e) + Overtaken(b, e)
  {
    if b == [] {
      assert a + b == a;
    } else {
      OvertakenAppend(a, Init(b), e);
      assert a + b == (a + Init(b)) + [Last(b)];
      OvertakenSnoc(a + Init(b), Last(b), e);
    }
  }

  /** The count depends on which events were read, not on their order. */
  lemma {:induction false} OvertakenPermutation(a: seq<PerfEvent>, b: seq<PerfEvent>, e: PerfEvent)
    requires multiset(a) == multiset(b)
    ensures Overtaken(a, e) == Overtaken(b, e)
  {
    if a == [] {
      assert |multiset(b)| == 0;
    } else {
      var x := Last(a);
      MultisetInit(a);
      var left, right := TakeOut(b, x, multiset(Init(a)));
      OvertakenPermutation(Init(a), left + right, e);
      OvertakenAppend(left, right, e);
      OvertakenSnoc(left, x, e);
      OvertakenAppend(left + [x], right, e);
    }
  }

  lemma {:induction false} OvertakenAll(s: seq<PerfEvent>, e: PerfEvent)
    requires forall i :: 0 <= i < |s| ==> After(s[i], e)
    ensures Overtaken(s, e) == |s|
  {
    if s != [] {
      OvertakenAll(Init(s), e);
    }
  }

  lemma {:induction false} OvertakenNone(s: seq<PerfEvent>, e: PerfEvent)
    requires forall i :: 0 <= i < |s| ==> !After(s[i], e)
    ensures Overtaken(s, e) == 0
  {
    if s != [] {
      OvertakenNone(Init(s), e);
    }
  }

  lemma BoundedSnoc(s: seq<PerfEvent>, x: PerfEvent, c: nat)
    ensures Bounded(s + [x], c) <==> Bounded(s, c) && Overtaken(s, x) <= c
  {
    var r := s + [x];
    assert forall i :: 0 <= i < |s| ==> r[..i] == s[..i] && r[i] == s[i];
    assert r[..|s|] == s && r[|s|] == x;
  }

  lemma SortedSnoc(s: seq<PerfEvent>, x: PerfEvent)
    ensures Sorted(s + [x]) <==> Sorted(s) && (s != [] ==> !After(Last(s), x))
  {
    var r := s + [x];
    assert forall i :: 0 <= i < |s| ==> r[i] == s[i];
    if Sorted(r) && s != [] {
      assert r[|s| - 1] == Last(s) && r[|s|] == x;
    }
  }

  // ---- one step of the buffer ----

  /** The events read that `x` overtakes are those emitted plus those held. */
  lemma OvertakenSplits(read: seq<PerfEvent>, emitted: seq<PerfEvent>, heap: seq<PerfEvent>, x: PerfEvent)
    requires multiset(read) == multiset(emitted) + multiset(heap)
    ensures Overtaken(read, x) == Overtaken(emitted, x) + Overtaken(heap, x)
  {
    assert multiset(emitted + heap) == multiset(read);
    OvertakenPermutation(read, emitted + heap, x);
    OvertakenAppend(emitted, heap, x);
  }

  lemma OvertakesOutput(emitted: seq<PerfEvent>, heap: seq<PerfEvent>, x: PerfEvent)
    requires emitted != [] && After(Last(emitted), x)
    requires forall i :: 0 <= i < |heap| ==> !After(Last(emitted), heap[i])
    ensures Overtaken(emitted, x) > 0 && Overtaken(heap, x) == |heap|
  {
    OvertakenAll(heap, x);
  }

  lemma FollowsOutput(emitted: seq<PerfEvent>, x: PerfEvent)
    requires emitted != [] && Sorted(emitted) && !After(Last(emitted), x)
    ensures Overtaken(emitted, x) == 0
  {
    forall i | 0 <= i < |emitted|
      ensures !After(emitted[i], x)
    {
      assert i < |emitted| - 1 ==> !After(emitted[i], Last(emitted));
    }
    OvertakenNone(emitted, x);
  }

  /** With a full heap, reading `x` breaks the order of the output exactly when `x`
      overtakes more events than the heap can hold. */
  lemma ReadingBreaksOrderIffTooLate(read: seq<PerfEvent>, emitted: seq<PerfEvent>, heap: seq<PerfEvent>,
                                     x: PerfEvent)
    requires multiset(read) == multiset(emitted) + multiset(heap)
    requires emitted != [] && Sorted(emitted)
    requires forall i :: 0 <= i < |heap| ==> !After(Last(emitted), heap[i])
    ensures After(Last(emitted), x) <==> Overtaken(read, x) > |heap|
  {
    OvertakenSplits(read, emitted, heap, x);
    if After(Last(emitted), x) {
      OvertakesOutput(emitted, heap, x);
    } else {
      FollowsOutput(emitted, x);
    }
  }

  /** The buffer between two pops: what was read is split between output and heap,
      nothing held belongs before the output, and the output is in order exactly if
      nothing read so far came too late. */
  ghost predicate Window(read: seq<PerfEvent>, emitted: seq<PerfEvent>, heap: seq<PerfEvent>, c: nat) {
    && multiset(read) == multiset(emitted) + multiset(heap)
    && IsHeap(heap, ByAfter())
    && (emitted != [] ==> forall i :: 0 <= i < |heap| ==> !After(Last(emitted), heap[i]))
    && (Sorted(emitted) <==> Bounded(read, c))
  }

  ghost predicate Leaves(full: seq<PerfEvent>, top: PerfEvent, rest: seq<PerfEvent>) {
    && multiset(full) == multiset(rest) + multiset{top}
    && IsHeap(rest, ByAfter())
    && forall i :: 0 <= i < |full| ==> !After(top, full[i])
  }

  lemma LeavesMembers(full: seq<PerfEvent>, top: PerfEvent, rest: seq<PerfEvent>)
    requires Leaves(full, top, rest)
    ensures top in full
    ensures forall i :: 0 <= i < |rest| ==> rest[i] in full && !After(top, rest[i])
  {
    assert top in multiset(full);
    forall i | 0 <= i < |rest|
      ensures rest[i] in full && !After(top, rest[i])
    {
      assert rest[i] in multiset(full);
    }
  }

  lemma NothingTracked()
    ensures MinTs([]) == U64_MAX && MaxTs([]) == 0 && Filter(IsFork(), []) == []
  {
  }

  lemma EmptyWindow(c: nat)
    ensures Window([], [], [], c)
  {
  }

  lemma WindowFill(read: seq<PerfEvent>, heap: seq<PerfEvent>, x: PerfEvent, full: seq<PerfEvent>, c: nat)
    requires Window(read, [], heap, c) && |heap| < c && |read| == |heap|
    requires multiset(full) == multiset(heap) + multiset{x} && IsHeap(full, ByAfter())
    ensures Window(read + [x], [], full, c)
  {
    BoundedSnoc(read, x, c);
  }

  /** Pop without a read: the stream has ended. */
  lemma WindowPop(read: seq<PerfEvent>, emitted: seq<PerfEvent>, heap: seq<PerfEvent>,
                  top: PerfEvent, rest: seq<PerfEvent>, c: nat)
    requires Window(read, emitted, heap, c) && Leaves(heap, top, rest)
    ensures Window(read, emitted + [top], rest, c)
  {
    LeavesMembers(heap, top, rest);
    SortedSnoc(emitted, top);
  }

  /** Read one event into a full heap, then pop. */
  lemma WindowReadPop(read: seq<PerfEvent>, emitted: seq<PerfEvent>, heap: seq<PerfEvent>, x: PerfEvent,
                      full: seq<PerfEvent>, top: PerfEvent, rest: seq<PerfEvent>, c: nat)
    requires Window(read, emitted, heap, c) && |heap| == c
    requires multiset(full) == multiset(heap) + multiset{x} && Leaves(full, top, rest)
    ensures Window(read + [x], emitted + [top], rest, c)
  {
    LeavesMembers(full, top, rest);
    SortedSnoc(emitted, top);
    BoundedSnoc(read, x, c);
    assert multiset(read + [x]) == multiset(emitted) + multiset(full);
    assert multiset(emitted + [top]) == multiset(emitted) + multiset{top};
    if emitted == [] {
      assert |multiset(read)| == |multiset(heap)|;
    } else if Sorted(emitted) {
      ReadingBreaksOrderIffTooLate(read, emitted, heap, x);
      assert x in multiset(full);
      assert !After(top, x);
      assert top in multiset(heap) + multiset{x};
      assert top in heap || top == x;
    }
  }

  lemma MinMaxSnoc(s: seq<PerfEvent>, e: PerfEvent)
    ensures MinTs(s + [e]) == if e.timestampNs < MinTs(s) then e.timestampNs else MinTs(s)
    ensures MaxTs(s + [e]) == if e.timestampNs > MaxTs(s) then e.timestampNs else MaxTs(s)
  {
    InitLast(s, e);
  }

  lemma {:induction false} MinTsBelow(s: seq<PerfEvent>, i: nat)
    requires i < |s|
    ensures MinTs(s) <= s[i].timestampNs
  {
    if i < |s| - 1 {
      MinTsBelow(Init(s), i);
    }
  }

  /** If no event comes too late, the first `c + 1` events already hold the minimum. */
  lemma {:induction false} EarlyMinimum(s: seq<PerfEvent>, c: nat, k: nat)
    requires Bounded(s, c) && k <= |s| && (k == |s| || k > c)
    ensures MinTs(s[..k]) == MinTs(s)
    decreases |s| - k
  {
    if k == |s| {
      assert s[..k] == s;
    } else {
      var early, e := s[..k], s[k];
      assert s[..k + 1] == early + [e];
      MinMaxSnoc(early, e);
      if e.timestampNs < MinTs(early) {
        forall i | 0 <= i < |early|
          ensures After(early[i], e)
        {
          MinTsBelow(early, i);
        }
        OvertakenAll(early, e);
      }
      EarlyMinimum(s, c, k + 1);
    }
  }

  /** The stream behind the buffer. */
  class PerfDataReader {
    const events: seq<PerfEvent>
    var pos: nat

    constructor (events: seq<PerfEvent>)
      ensures this.events == events && pos == 0
    {
      this.events, pos := events, 0;
    }

    method BeginIteration()
      modifies this
      ensures pos == 0
    {
      pos := 0;
    }

    method NextEvent() returns (next: Option<PerfEvent>)
      requires pos <= |events|
      modifies this
      ensures pos <= |events|
      ensures next == if old(pos) < |events| then Some(events[old(pos)]) else None
      ensures pos == if old(pos) < |events| then old(pos) + 1 else old(pos)
    {
      if pos < |events| {
        next := Some(events[pos]);
        pos := pos + 1;
      } else {
        next := None;
      }
    }
  }

  class ReorderBufferIterator {
    const reader: PerfDataReader
    const capacity: nat
    var readerExhausted: bool
    var hasOutput: bool
    var current: PerfEvent
    var heap: seq<PerfEvent>
    var minTs: u64
    var maxTs: u64
    var totalCount: nat
    var forkEvents: seq<PerfEvent>
    ghost var read: seq<PerfEvent>     // everything read so far
    ghost var emitted: seq<PerfEvent>  // everything popped so far, `current` last

    /** The collected metadata describes what has been read. */
    ghost predicate Tracked()
      reads this, reader
    {
      && reader.pos <= |reader.events| && read == reader.events[..reader.pos]
      && minTs == MinTs(read) && maxTs == MaxTs(read)
      && totalCount == |read|
      && forkEvents == Filter(IsFork(), read)
    }

    ghost predicate Valid()
      reads this, reader
    {
      && Tracked()
      && Window(read, emitted, heap, capacity)
      && (readerExhausted ==> reader.pos == |reader.events|)
      && (!readerExhausted ==> |heap| == capacity && hasOutput)
      && (hasOutput ==> emitted != [] && current == Last(emitted))
      && (!hasOutput ==> heap == [] && readerExhausted)
    }

    constructor (reader: PerfDataReader, capacity: nat)
      modifies reader
      ensures Valid()
      ensures this.reader == reader && this.capacity == capacity
      ensures reader.pos == if capacity + 1 <= |reader.events| then capacity + 1 else |reader.events|
      ensures emitted == if hasOutput then [current] else []
    {
      this.reader, this.capacity := reader, capacity;
      readerExhausted, hasOutput := false, false;
      current := PerfEvent(0, 0, 0, 0, Other);
      heap := [];
      minTs, maxTs, totalCount, forkEvents := U64_MAX, 0, 0, [];
      read, emitted := [], [];
      new;
      hide Window, Bounded, MinTs, MaxTs, Filter, IsHeap;
      EmptyWindow(capacity);
      NothingTracked();
      reader.BeginIteration();
      FillHeap();
      PopNext();
    }

    method TrackMetadata(e: PerfEvent)
      modifies this`minTs, this`maxTs, this`totalCount, this`forkEvents
      ensures minTs == if e.timestampNs < old(minTs) then e.timestampNs else old(minTs)
      ensures maxTs == if e.timestampNs > old(maxTs) then e.timestampNs else old(maxTs)
      ensures totalCount == old(totalCount) + 1
      ensures forkEvents == old(forkEvents) + if e.kind.SchedFork? then [e] else []
    {
      if e.timestampNs < minTs { minTs := e.timestampNs; }
      if e.timestampNs > maxTs { maxTs := e.timestampNs; }
      totalCount := totalCount + 1;
      if e.kind.SchedFork? { forkEvents := forkEvents + [e]; }
    }

    /** Read one event if there is one: the step that filling and popping share. */
    method ReadOne() returns (next: Option<PerfEvent>)
      requires Tracked() && IsHeap(heap, ByAfter()) && !readerExhausted
      modifies this`readerExhausted, this`heap, this`minTs, this`maxTs, this`totalCount, this`forkEvents,
               this`read, reader
      ensures Tracked() && IsHeap(heap, ByAfter())
      ensures readerExhausted <==> next.None?
      ensures next.None? ==> reader.pos == |reader.events| == old(reader.pos) && heap == old(heap)
      ensures next.Some? ==> reader.pos == old(reader.pos) + 1 && read == old(read) + [next.value]
      ensures next.Some? ==> multiset(heap) == multiset(old(heap)) + multiset{next.value} && |heap| == |old(heap)| + 1
    {
      hide MinTs, MaxTs, Filter, IsHeap, Refines;
      next := reader.NextEvent();
      if next.Some? {
        MinMaxSnoc(read, next.value);
        FilterSnoc(IsFork(), read, next.value);
        read := read + [next.value];
        TrackMetadata(next.value);
        AfterIsAnOrder();
        heap := PushHeap(heap, next.value, ByAfter(), AnyEvent);
      } else {
        readerExhausted := true;
      }
    }

    method FillHeap()
      requires Tracked() && Window(read, [], heap, capacity)
      requires emitted == [] && heap == [] && reader.pos == 0 && !readerExhausted && !hasOutput
      modifies this, reader
      ensures Tracked() && Window(read, [], heap, capacity)
      ensures emitted == [] && |heap| == reader.pos && !hasOutput
      ensures readerExhausted ==> reader.pos == |reader.events|
      ensures !readerExhausted ==> |heap| == capacity
      ensures reader.pos == if capacity <= |reader.events| then capacity else |reader.events|
    {
      while |heap| < capacity && !readerExhausted
        invariant Tracked() && Window(read, [], heap, capacity)
        invariant emitted == [] && |heap| == reader.pos <= capacity && !hasOutput
        invariant readerExhausted ==> reader.pos == |reader.events|
        decreases |reader.events| - reader.pos, !readerExhausted
      {
        ghost var before, held := read, heap;
        var next := ReadOne();
        if next.Some? {
          WindowFill(before, held, next.value, heap, capacity);
        }
      }
    }

    /** What reading `next` has made of a full window. */
    ghost predicate Overfull(next: Option<PerfEvent>, before: seq<PerfEvent>, held: seq<PerfEvent>)
      reads this, reader
    {
      match next
      case None => Window(read, emitted, heap, capacity)
      case Some(x) =>
        && Window(before, emitted, held, capacity) && |held| == capacity
        && read == before + [x] && multiset(heap) == multiset(held) + multiset{x}
    }

    /** Move the top of the heap to `current`. */
    method TakeTop(ghost next: Option<PerfEvent>, ghost before: seq<PerfEvent>, ghost held: seq<PerfEvent>)
      requires heap != [] && IsHeap(heap, ByAfter())
      requires Overfull(next, before, held)
      modifies this`current, this`heap, this`emitted
      ensures emitted == old(emitted) + [current] && |heap| == |old(heap)| - 1
      ensures Window(read, emitted, heap, capacity)
    {
      ghost var full := heap;
      AfterIsAnOrder();
      current, heap := PopHeap(heap, ByAfter(), AnyEvent);
      forall i | 0 <= i < |full|
        ensures !After(current, full[i])
      {
        TopLeavesFirst(full, ByAfter(), AnyEvent, i);
      }
      if next.Some? {
        WindowReadPop(before, emitted, held, next.value, full, current, heap, capacity);
      } else {
        WindowPop(read, emitted, full, current, heap, capacity);
      }
      emitted := emitted + [current];
    }

    /** Keep the window full: read one event while the stream lasts. */
    method Refill() returns (ghost next: Option<PerfEvent>)
      requires Tracked() && Window(read, emitted, heap, capacity)
      requires readerExhausted ==> reader.pos == |reader.events|
      requires !readerExhausted ==> |heap| == capacity
      modifies this`readerExhausted, this`heap, this`minTs, this`maxTs, this`totalCount, this`forkEvents,
               this`read, reader
      ensures Tracked() && IsHeap(heap, ByAfter())
      ensures Overfull(next, old(read), old(heap))
      ensures next.None? ==> Window(read, emitted, heap, capacity)
      ensures next.None? ==> heap == old(heap) && reader.pos == old(reader.pos) == |reader.events| && readerExhausted
      ensures next.Some? ==> |heap| == capacity + 1 && reader.pos == old(reader.pos) + 1
      ensures next.Some? ==> !readerExhausted && !old(readerExhausted)
    {
      next := None;
      if !readerExhausted {
        next := ReadOne();
      }
    }

    /** Make the top of the heap current, or report that nothing is left. */
    method Deliver(ghost next: Option<PerfEvent>, ghost before: seq<PerfEvent>, ghost held: seq<PerfEvent>)
      requires Tracked() && IsHeap(heap, ByAfter()) && Overfull(next, before, held)
      requires readerExhausted ==> reader.pos == |reader.events|
      requires !readerExhausted ==> |heap| == capacity + 1
      requires heap == [] ==> Window(read, emitted, heap, capacity)
      modifies this`current, this`heap, this`emitted, this`hasOutput
      ensures Valid()
      ensures emitted == if hasOutput then old(emitted) + [current] else old(emitted)
    {
      hide Window, Overfull, IsHeap, MinTs, MaxTs, Filter;
      if heap == [] {
        hasOutput := false;
        return;
      }
      TakeTop(next, before, held);
      hasOutput := true;
    }

    method PopNext()
      requires Tracked() && Window(read, emitted, heap, capacity)
      requires readerExhausted ==> reader.pos == |reader.events|
      requires !readerExhausted ==> |heap| == capacity
      modifies this, reader
      ensures Valid()
      ensures reader.pos == if old(reader.pos) < |reader.events| && !old(readerExhausted)
                            then old(reader.pos) + 1 else old(reader.pos)
      ensures emitted == if hasOutput then old(emitted) + [current] else old(emitted)
    {
      hide Window, Overfull, IsHeap, MinTs, MaxTs, Filter;
      ghost var before, held := read, heap;
      ghost var next := Refill();
      Deliver(next, before, held);
    }

    lemma OutputFits()
      requires Valid()
      ensures |emitted| + |heap| == reader.pos <= |reader.events|
    {
      assert |multiset(read)| == |multiset(emitted)| + |multiset(heap)|;
    }

    /** Right after construction the metadata covers what was read ahead. */
    lemma MetadataIsReadAhead()
      requires Tracked()
      requires reader.pos == if capacity + 1 <= |reader.events| then capacity + 1 else |reader.events|
      ensures minTs == MinTs(ReadAhead(reader.events, capacity))
      ensures maxTs == MaxTs(ReadAhead(reader.events, capacity))
    {
      assert read == ReadAhead(reader.events, capacity);
    }

    lemma Finished()
      requires Valid() && !hasOutput
      ensures multiset(emitted) == multiset(reader.events)
      ensures Sorted(emitted) <==> Bounded(reader.events, capacity)
    {
      assert read == reader.events;
    }

    /** From construction on, the minimum seen so far is that of the whole stream. */
    lemma MinimumIsFinal()
      requires Valid() && Bounded(reader.events, capacity)
      ensures minTs == MinTs(reader.events)
    {
      OutputFits();
      EarlyMinimum(reader.events, capacity, reader.pos);
    }

    method Advance()
      requires Valid() && hasOutput
      modifies this, reader
      ensures Valid()
      ensures emitted == if hasOutput then old(emitted) + [current] else old(emitted)
    {
      PopNext();
    }
  }

  // ---- whole runs ----

  /** Reading a stream to its end through the buffer yields a permutation of it, in
      order exactly if no event overtakes more than `capacity` earlier ones. The first
      and last times are those taken right after construction: under that bound the
      first is the stream's, but the last covers only what was read ahead. */
  method Drain(events: seq<PerfEvent>, capacity: nat)
    returns (out: seq<PerfEvent>, firstTs: u64, lastTs: u64)
    ensures multiset(out) == multiset(events)
    ensures Sorted(out) <==> Bounded(events, capacity)
    ensures InTimeOrder(out) <==> NoneTooLate(events, capacity)
    ensures Bounded(events, capacity) ==> firstTs == MinTs(events)
    ensures lastTs == MaxTs(ReadAhead(events, capacity))
  {
    hide Window, Sorted, Bounded, MinTs, MaxTs, Filter, InTimeOrder, NoneTooLate;
    var reader := new PerfDataReader(events);
    var buffer := new ReorderBufferIterator(reader, capacity);
    buffer.MetadataIsReadAhead();
    firstTs, lastTs := buffer.minTs, buffer.maxTs;
    if Bounded(events, capacity) {
      buffer.MinimumIsFinal();
    }
    out := [];
    while buffer.hasOutput
      invariant buffer.reader == reader && fresh(buffer) && fresh(reader) && buffer.capacity == capacity
      invariant buffer.Valid()
      invariant buffer.emitted == if buffer.hasOutput then out + [buffer.current] else out
      decreases buffer.hasOutput, |events| - |out|
    {
      buffer.OutputFits();
      out := out + [buffer.current];
      buffer.Advance();
    }
    buffer.Finished();
    SortedMeans(out);
    BoundedMeans(events, capacity);
  }

  // ---- what the bound means for a caller ----

  /** The keys of a sorted sequence are fixed by its elements: whatever sorted
      permutation the in-memory path and the buffer produce, they agree on them. */
  lemma {:induction false} SortedKeysAgree(a: seq<PerfEvent>, b: seq<PerfEvent>)
    requires multiset(a) == multiset(b) && Sorted(a) && Sorted(b)
    ensures Map(Key, a) == Map(Key, b)
  {
    assert |multiset(a)| == |a| == |multiset(b)| == |b|;
    if a != [] {
      var x, y := Last(a), Last(b);
      LastIsGreatest(a, b);
      LastIsGreatest(b, a);
      assert Key(x) == Key(y);
      MultisetInit(a);
      var left, right := TakeOut(b, x, multiset(Init(a)));
      var front := TradeLast(b, left, x, right);
      SortedKeysAgree(Init(a), front);
      forall k | 0 <= k < |a|
        ensures Key(a[k]) == Key(b[k])
      {
        assert k < |a| - 1 ==> Map(Key, Init(a))[k] == Map(Key, front)[k];
      }
    }
  }

  /** Whatever order two paths leave equal events in, the times are the same one by
      one, and so is which of them are switches. */
  lemma OrdersAgree(a: seq<PerfEvent>, b: seq<PerfEvent>)
    requires multiset(a) == multiset(b) && InTimeOrder(a) && InTimeOrder(b)
    ensures |a| == |b|
    ensures forall i :: 0 <= i < |a| ==>
              a[i].timestampNs == b[i].timestampNs && a[i].kind.SchedSwitch? == b[i].kind.SchedSwitch?
  {
    SortedMeans(a);
    SortedMeans(b);
    hide Sorted, InTimeOrder;
    SortedKeysAgree(a, b);
    assert |multiset(a)| == |a| == |multiset(b)| == |b|;
    forall i | 0 <= i < |a|
      ensures a[i].timestampNs == b[i].timestampNs && a[i].kind.SchedSwitch? == b[i].kind.SchedSwitch?
    {
      assert Map(Key, a)[i] == Map(Key, b)[i];
    }
  }

  lemma LastIsGreatest(a: seq<PerfEvent>, b: seq<PerfEvent>)
    requires multiset(a) == multiset(b) && a != [] && b != [] && Sorted(a)
    ensures !After(Last(b), Last(a))
  {
    assert Last(b) in multiset(a);
  }

  /** Drop from `b` an element with the key of its last, moving the last into its place. */
  lemma TradeLast(b: seq<PerfEvent>, left: seq<PerfEvent>, x: PerfEvent, right: seq<PerfEvent>)
    returns (front: seq<PerfEvent>)
    requires b == left + [x] + right && Sorted(b) && Key(x) == Key(Last(b))
    ensures multiset(front) == multiset(left + right) && Sorted(front) && |front| == |b| - 1
    ensures forall k :: 0 <= k < |front| ==> Key(front[k]) == Key(b[k])
  {
    if right == [] {
      front := left;
      assert left + right == left;
    } else {
      front := left + [Last(right)] + Init(right);
      MultisetInit(right);
    }
    forall j, k | 0 <= j < k < |front|
      ensures !After(front[j], front[k])
    {
      assert !After(b[j], b[k]);
    }
  }

  /** It is enough that no event overtakes one read more than `c` places before it. */
  lemma {:induction false} ShortInversionsSuffice(s: seq<PerfEvent>, c: nat)
    requires forall i, j :: 0 <= i < j < |s| && After(s[i], s[j]) ==> j - i <= c
    ensures Bounded(s, c)
  {
    forall j | 0 <= j < |s|
      ensures Overtaken(s[..j], s[j]) <= c
    {
      if j > c {
        var early, late := s[..j - c], s[j - c..j];
        assert s[..j] == early + late;
        OvertakenAppend(early, late, s[j]);
        OvertakenNone(early, s[j]);
      }
    }
  }

  /** One place more is too far: for every capacity there is a stream whose only
      inversions span at most `c + 1` places and which comes out unsorted. */
  lemma LongerInversionFails(c: nat) returns (s: seq<PerfEvent>)
    ensures forall i, j :: 0 <= i < j < |s| && After(s[i], s[j]) ==> j - i <= c + 1
    ensures !Bounded(s, c)
  {
    var late, early := PerfEvent(1, 0, 0, 0, Other), PerfEvent(0, 0, 0, 0, Other);
    var head := seq(c + 1, i => late);
    s := head + [early];
    OvertakenAll(head, early);
    assert s[..c + 1] == head && s[c + 1] == early;
  }

  /** The maximum taken right after construction is not that of the stream: a stream
      already in order, one event longer than what construction reads, shows it. */
  lemma MaximumTakenEarlyIsStale(c: nat) returns (s: seq<PerfEvent>)
    ensures |s| == c + 2 && Bounded(s, 0)
    ensures MaxTs(s[..c + 1]) < MaxTs(s)
  {
    var head := seq(c + 1, i => PerfEvent(0, 0, 0, 0, Other));
    var last := PerfEvent(1, 0, 0, 0, Other);
    s := head + [last];
    assert s[..c + 1] == head;
    MinMaxSnoc(head, last);
    ZeroMaximum(head);
    SortedNeedsNoBuffer(s);
  }

  lemma {:induction false} MaxTsAbove(s: seq<PerfEvent>, i: nat)
    requires i < |s|
    ensures s[i].timestampNs <= MaxTs(s)
  {
    if i < |s| - 1 {
      MaxTsAbove(Init(s), i);
    }
  }

  lemma {:induction false} MaxTsAtMost(s: seq<PerfEvent>, m: u64)
    requires forall e :: e in s ==> e.timestampNs <= m
    ensures MaxTs(s) <= m
  {
    if s != [] {
      MaxTsAtMost(Init(s), m);
    }
  }

  lemma SortedNeedsNoBuffer(s: seq<PerfEvent>)
    requires Sorted(s)
    ensures Bounded(s, 0)
  {
    forall j | 0 <= j < |s|
      ensures Overtaken(s[..j], s[j]) <= 0
    {
      OvertakenNone(s[..j], s[j]);
    }
  }

  lemma {:induction false} MaxTsOfPrefix(s: seq<PerfEvent>, k: nat)
    requires k <= |s|
    ensures MaxTs(s[..k]) <= MaxTs(s)
  {
    if k == |s| {
      assert s[..k] == s;
    } else {
      MaxTsOfPrefix(Init(s), k);
      assert Init(s)[..k] == s[..k];
    }
  }

  lemma MaxTsReadAhead(s: seq<PerfEvent>, c: nat)
    ensures MaxTs(ReadAhead(s, c)) <= MaxTs(s)
  {
    if c + 1 <= |s| {
      MaxTsOfPrefix(s, c + 1);
    }
  }

  lemma {:induction false} ZeroMaximum(s: seq<PerfEvent>)
    requires forall i :: 0 <= i < |s| ==> s[i].timestampNs == 0
    ensures MaxTs(s) == 0
  {
    if s != [] {
      ZeroMaximum(Init(s));
    }
  }
}
