/** The scheduler tracks of whole runs, from the reorder buffer to the flush: time is
    conserved, and spans alternate, under exact conditions. */
module RunTimeline {
  import opened Seqs
  import opened Events
  import opened Output
  import opened ThreadMachines
  import opened MergeEngine
  import opened SchedTimeline
  import opened WholeRuns
  import StreamingSort

  // ---- time ----

  /** The scheduler spans of a run are those of the thread's timeline. */
  lemma RunSpans(cfg: Config, ps: seq<PerfEvent>, order: seq<int>, t: int)
    requires Lists(order, ActsOf(cfg, ps))
    ensures Filter(IsSpanOf(t), RunCalls(cfg, ps, order)) ==
            FinalSpans(ActsOf(cfg, ps), t, cfg.TgidFor(t), cfg.lastPerfTs)
  {
    var h := ActsOf(cfg, ps);
    hide ActsOf, CallsOf, FlushCalls, StateAfter, Filter, ClosingSpan;
    ActsAreSound(cfg, ps);
    FilterAppend(IsSpanOf(t), CallsOf(h), FlushCalls(cfg, h, order));
    FlushOfThread(cfg, h, order, t, IsSpanOf(t));
    if StateAfter(h, t).sched.Some? {
      StateMeansPassed(cfg, h, t);
    }
  }

  /** Scheduler time is conserved by whole runs: on a stream sorted by time and
      flushed no earlier than its last event, a thread's spans are ordered and, with
      the dropped time, add up to its life; they tile it if and only if nothing was
      dropped. */
  lemma RunConservesTime(cfg: Config, ps: seq<PerfEvent>, order: seq<int>, t: int)
    requires SortedEvents(ps) && (forall e | e in ps :: e.timestampNs <= cfg.lastPerfTs)
    requires Lists(order, ActsOf(cfg, ps)) && t in order
    ensures FirstSeen(ActsOf(cfg, ps), t).Some?
    ensures var h := ActsOf(cfg, ps);
            var spans := Filter(IsSpanOf(t), RunCalls(cfg, ps, order));
            var from, to := Us(FirstSeen(h, t).value), Us(cfg.lastPerfTs);
            && TotalDur(spans) + Dropped(h, t) == to - from
            && Ordered(spans) && Inside(spans, from, to)
            && (Tiles(spans, from, to) <==> Dropped(h, t) == 0.0)
  {
    var h := ActsOf(cfg, ps);
    SortedHistory(cfg, ps);
    ActsAreSound(cfg, ps);
    var k := StampIsAnAct(h, t);
    RunSpans(cfg, ps, order, t);
    TimeIsConserved(h, t, cfg.TgidFor(t), cfg.lastPerfTs);
  }

  /** Whenever the flush comes: a thread's spans are positive, ordered and disjoint, and
      with the dropped time add up to its life until the flush or its last change,
      whichever is later; so time is conserved up to the flush exactly if the flush is
      not before the last change. */
  lemma RunAccountsUntil(cfg: Config, ps: seq<PerfEvent>, order: seq<int>, t: int)
    requires SortedEvents(ps) && Lists(order, ActsOf(cfg, ps)) && t in order
    ensures var h := ActsOf(cfg, ps);
            StateAfter(h, t).sched.Some? && FirstSeen(h, t).Some?
    ensures Ordered(Filter(IsSpanOf(t), RunCalls(cfg, ps, order)))
    ensures var h := ActsOf(cfg, ps);
            var last, from := StateAfter(h, t).sched.value.last, Us(FirstSeen(h, t).value);
            var total := TotalDur(Filter(IsSpanOf(t), RunCalls(cfg, ps, order))) + Dropped(h, t);
            && total == Us(if last <= cfg.lastPerfTs then cfg.lastPerfTs else last) - from
            && (total == Us(cfg.lastPerfTs) - from <==> last <= cfg.lastPerfTs)
  {
    var h := ActsOf(cfg, ps);
    SortedHistory(cfg, ps);
    RunSpans(cfg, ps, order, t);
    hide ActsOf, StateAfter, FirstSeen, Dropped, TotalDur, FinalSpans, Filter, RunCalls, SortedActs,
         SortedEvents, Ordered;
    AccountedUntil(h, t, cfg.TgidFor(t), cfg.lastPerfTs);
    ConservedIffFlushedLate(h, t, cfg.TgidFor(t), cfg.lastPerfTs);
  }

  lemma SortedByTime(ps: seq<PerfEvent>)
    requires StreamingSort.Sorted(ps)
    ensures SortedEvents(ps)
  {
    forall i, j | 0 <= i < j < |ps|
      ensures ps[i].timestampNs <= ps[j].timestampNs
    {
      assert !StreamingSort.After(ps[i], ps[j]);
    }
  }

  /** A thread's last change is at the time of some event. */
  lemma LastChangeIsAnEvent(cfg: Config, ps: seq<PerfEvent>, t: int) returns (e: PerfEvent)
    requires StateAfter(ActsOf(cfg, ps), t).sched.Some?
    ensures e in ps && e.timestampNs == StateAfter(ActsOf(cfg, ps), t).sched.value.last
  {
    hide ActsOf, StateAfter;
    ActsAreSound(cfg, ps);
    var k := StampIsAnAct(ActsOf(cfg, ps), t);
    e :| e in ps && e.timestampNs == ActsOf(cfg, ps)[k].ts;
  }

  /** A stream sorted by the bounded buffer and flushed at the last time known right
      after the buffer was built. Time is conserved up to that flush exactly if the
      thread's last change is not after it; and the whole of the thread's life, to the
      end of the stream, is accounted for exactly if the flush or the last change is
      at that end. */
  lemma ReorderedRunConservesTime(cfg: Config, input: seq<PerfEvent>, c: nat, ps: seq<PerfEvent>,
                                  order: seq<int>, t: int)
    requires multiset(ps) == multiset(input) && StreamingSort.Sorted(ps)
    requires cfg.lastPerfTs == StreamingSort.MaxTs(StreamingSort.ReadAhead(input, c))
    requires Lists(order, ActsOf(cfg, ps)) && t in order
    ensures var h := ActsOf(cfg, ps);
            StateAfter(h, t).sched.Some? && FirstSeen(h, t).Some?
    ensures Ordered(Filter(IsSpanOf(t), RunCalls(cfg, ps, order)))
    ensures var h := ActsOf(cfg, ps);
            var last, from, end := StateAfter(h, t).sched.value.last, Us(FirstSeen(h, t).value),
                                   StreamingSort.MaxTs(input);
            var total := TotalDur(Filter(IsSpanOf(t), RunCalls(cfg, ps, order))) + Dropped(h, t);
            && (total == Us(cfg.lastPerfTs) - from <==> last <= cfg.lastPerfTs)
            && (total == Us(end) - from <==> cfg.lastPerfTs == end || last == end)
  {
    hide ActsOf, StateAfter, FirstSeen, Dropped, TotalDur, Filter, RunCalls, SortedEvents, Lists, Ordered,
         StreamingSort.MaxTs, StreamingSort.Sorted, StreamingSort.ReadAhead;
    SortedByTime(ps);
    RunAccountsUntil(cfg, ps, order, t);
    var e := LastChangeIsAnEvent(cfg, ps, t);
    TimeInInput(ps, input, e);
    StreamingSort.MaxTsReadAhead(input, c);
  }

  lemma TimeInInput(ps: seq<PerfEvent>, input: seq<PerfEvent>, e: PerfEvent)
    requires multiset(ps) == multiset(input) && e in ps
    ensures e.timestampNs <= StreamingSort.MaxTs(input)
  {
    assert e in multiset(ps);
    assert e in multiset(input);
    var i :| 0 <= i < |input| && input[i] == e;
    StreamingSort.MaxTsAbove(input, i);
  }

  /** A run as the streaming path makes it: the buffer is built, its last time is taken
      for the flush, and the engine consumes what the buffer yields. */
  method RunStreamed(options: Config, input: seq<PerfEvent>, capacity: nat)
    returns (calls: seq<Call>, cfg: Config, ps: seq<PerfEvent>, ghost order: seq<int>)
    ensures cfg == options.(lastPerfTs := StreamingSort.MaxTs(StreamingSort.ReadAhead(input, capacity)))
    ensures multiset(ps) == multiset(input) && (StreamingSort.Sorted(ps) <==> StreamingSort.Bounded(input, capacity))
    ensures Lists(order, ActsOf(cfg, ps)) && calls == cfg.metadata + RunCalls(cfg, ps, order)
  {
    hide StreamingSort.Sorted, StreamingSort.Bounded, StreamingSort.MaxTs, ActsOf, Lists, CallsAfter,
         CallsOf, FlushCalls;
    var events, firstTs, lastTs := StreamingSort.Drain(input, capacity);
    var source := new Cursor(events);
    var engine := new MergeEngine(options.(lastPerfTs := lastTs), source);
    order := engine.WritePerfOnly();
    calls, cfg, ps := engine.log, engine.cfg, events;
    FromStart(ActsOf(cfg, ps));
    assert events[0..] == events;
    Nil(cfg.metadata);
    Nil(ActsOf(cfg, ps));
    Associate(cfg.metadata, CallsOf(ActsOf(cfg, ps)), FlushCalls(cfg, ActsOf(cfg, ps), order));
  }

  // ---- time lost to the early flush ----

  function Idler(c: nat): seq<PerfEvent> {
    seq(c, i => PerfEvent(2, 0, 0, 0, Other))
  }

  /** Thread 7 is switched out, then back in after `c` other events, and runs to the
      end of the stream. */
  function SwitchedStream(c: nat): seq<PerfEvent> {
    [PerfEvent(1, 7, 7, 0, SchedSwitch(7, 8, 1))] + Idler(c) +
    [PerfEvent(5, 7, 7, 0, SchedSwitch(8, 7, 0)), PerfEvent(9, 0, 0, 0, Other)]
  }

  function SwitchedOptions(flushTs: u64): Config {
    Config(true, false, false, -1, (tid: int) => tid == 7, map[7 := 7], -1.0, -1.0, false, 0.0, 0.0, flushTs, [])
  }

  lemma {:induction false} IdlerActs(cfg: Config, c: nat)
    ensures ActsOf(cfg, Idler(c)) == []
  {
    if c != 0 {
      IdlerActs(cfg, c - 1);
      assert Init(Idler(c)) == Idler(c - 1);
    }
  }

  lemma SwitchedEvents(flushTs: u64)
    ensures ActionsOf(SwitchedOptions(flushTs), PerfEvent(1, 7, 7, 0, SchedSwitch(7, 8, 1))) ==
            [Act(7, 7, 1, SwitchOut(1, 0))]
    ensures ActionsOf(SwitchedOptions(flushTs), PerfEvent(5, 7, 7, 0, SchedSwitch(8, 7, 0))) ==
            [Act(7, 7, 5, SwitchIn(0))]
    ensures ActionsOf(SwitchedOptions(flushTs), PerfEvent(9, 0, 0, 0, Other)) == []
  {
  }

  lemma SwitchedActs(c: nat, flushTs: u64)
    ensures ActsOf(SwitchedOptions(flushTs), SwitchedStream(c)) ==
            [Act(7, 7, 1, SwitchOut(1, 0)), Act(7, 7, 5, SwitchIn(0))]
  {
    var cfg := SwitchedOptions(flushTs);
    var out, back := PerfEvent(1, 7, 7, 0, SchedSwitch(7, 8, 1)), PerfEvent(5, 7, 7, 0, SchedSwitch(8, 7, 0));
    var end := PerfEvent(9, 0, 0, 0, Other);
    assert SwitchedStream(c) == [out] + Idler(c) + [back] + [end];
    IdlerActs(cfg, c);
    SwitchedEvents(flushTs);
    hide ActionsOf, SwitchedOptions, SwitchedStream, Idler, CallsAfter;
    NothingDone(cfg, []);
    assert [] + [out] == [out];
    OneMoreEvent(cfg, [], [], out);
    ActsAppend(cfg, [out], Idler(c));
    OneMoreEvent(cfg, [], [out] + Idler(c), back);
    OneMoreEvent(cfg, [], [out] + Idler(c) + [back], end);
    hide ActsOf;
  }

  lemma SwitchedState(h: seq<Act>)
    requires h == [Act(7, 7, 1, SwitchOut(1, 0)), Act(7, 7, 5, SwitchIn(0))]
    ensures StateAfter(h, 7).sched == Some(SchedState(5, true, 0, 0))
    ensures FirstSeen(h, 7) == Some(1) && Dropped(h, 7) == 0.0
    ensures forall t :: t != 7 ==> StateAfter(h, t).sched.None?
  {
    var h1 := h[..1];
    assert h1 == [] + [h[0]] && h == h1 + [h[1]];
    assert Init(h) == h1 && Init(h1) == [];
    assert FirstSeen([], 7) == None && FirstSeen(h1, 7) == Some(1);
    assert StateAfter([], 7) == IDLE && Dropped([], 7) == 0.0;
    Snoc([], h[0], 7);
    assert Dropped(h1, 7) == 0.0;
    forall t
      ensures StateAfter(h, t) == if t == 7 then IDLE.(sched := Some(SchedState(5, true, 0, 0))) else IDLE
    {
      assert StateAfter([], t) == IDLE;
      Snoc([], h[0], t);
      Snoc(h1, h[1], t);
    }
  }

  lemma SwitchedKeys(c: nat, i: nat, j: nat)
    requires i < |SwitchedStream(c)| && j < |SwitchedStream(c)|
    ensures var s := SwitchedStream(c);
            (StreamingSort.Key(s[i]) == StreamingSort.Key(s[j]) ==> s[i] == s[j]) &&
            (i < j ==> !StreamingSort.After(s[i], s[j]))
  {
  }

  /** Events of this stream with equal keys are equal, so it is its only sorted order. */
  lemma SwitchedIsSorted(c: nat)
    ensures StreamingSort.Sorted(SwitchedStream(c))
    ensures forall ps :: multiset(ps) == multiset(SwitchedStream(c)) && StreamingSort.Sorted(ps) ==>
              ps == SwitchedStream(c)
  {
    var s := SwitchedStream(c);
    hide SwitchedStream, StreamingSort.After;
    forall i, j | 0 <= i < j < |s|
      ensures !StreamingSort.After(s[i], s[j])
    {
      SwitchedKeys(c, i, j);
    }
    forall ps | multiset(ps) == multiset(s) && StreamingSort.Sorted(ps)
      ensures ps == s
    {
      assert |multiset(ps)| == |ps| && |multiset(s)| == |s|;
      StreamingSort.SortedKeysAgree(ps, s);
      forall i | 0 <= i < |s|
        ensures ps[i] == s[i]
      {
        assert Map(StreamingSort.Key, ps)[i] == Map(StreamingSort.Key, s)[i];
        assert ps[i] in multiset(s);
        var j :| 0 <= j < |s| && s[j] == ps[i];
        SwitchedKeys(c, j, i);
      }
    }
  }

  lemma SwitchedTimes(c: nat)
    ensures StreamingSort.MaxTs(SwitchedStream(c)) == 9
    ensures StreamingSort.MaxTs(StreamingSort.ReadAhead(SwitchedStream(c), c)) <= 2
  {
    var s := SwitchedStream(c);
    var early := StreamingSort.ReadAhead(s, c);
    assert s[|s| - 1].timestampNs == 9 && forall e :: e in early ==> e.timestampNs <= 2;
    hide SwitchedStream, StreamingSort.MaxTs, StreamingSort.ReadAhead;
    StreamingSort.MaxTsAbove(s, |s| - 1);
    SwitchedBelow(c);
    StreamingSort.MaxTsAtMost(s, 9);
    StreamingSort.MaxTsAtMost(early, 2);
  }

  lemma SwitchedBelow(c: nat)
    ensures forall e :: e in SwitchedStream(c) ==> e.timestampNs <= 9
  {
  }

  lemma SwitchedTotal(c: nat, flushTs: u64)
    requires flushTs <= 9
    ensures var cfg, s := SwitchedOptions(flushTs), SwitchedStream(c);
            && Lists([7], ActsOf(cfg, s))
            && TotalDur(Filter(IsSpanOf(7), RunCalls(cfg, s, [7]))) == Us(if flushTs <= 5 then 4 else flushTs - 1)
  {
    var cfg, s := SwitchedOptions(flushTs), SwitchedStream(c);
    var h := [Act(7, 7, 1, SwitchOut(1, 0)), Act(7, 7, 5, SwitchIn(0))];
    SwitchedActs(c, flushTs);
    SwitchedState(h);
    SwitchedIsSorted(c);
    hide SwitchedStream, StateAfter, ActsOf, RunCalls, Filter, TotalDur, FirstSeen, Dropped, StreamingSort.Sorted;
    SortedByTime(s);
    hide SortedEvents;
    assert Lists([7], h);
    hide Lists;
    RunAccountsUntil(cfg, s, [7], 7);
  }

  /** For every capacity: a stream in order, of which the buffer can only make itself,
      and whose early flush time leaves out the thread's last four nanoseconds that a
      flush at the end of the stream draws. */
  lemma EarlyFlushLosesTime(c: nat)
    ensures var s := SwitchedStream(c);
            var early, end := StreamingSort.MaxTs(StreamingSort.ReadAhead(s, c)), StreamingSort.MaxTs(s);
            && StreamingSort.Bounded(s, 0)
            && (forall ps :: multiset(ps) == multiset(s) && StreamingSort.Sorted(ps) ==> ps == s)
            && Lists([7], ActsOf(SwitchedOptions(early), s)) && Lists([7], ActsOf(SwitchedOptions(end), s))
            && TotalDur(Filter(IsSpanOf(7), RunCalls(SwitchedOptions(early), s, [7]))) == Us(4)
            && TotalDur(Filter(IsSpanOf(7), RunCalls(SwitchedOptions(end), s, [7]))) == Us(8)
  {
    var s := SwitchedStream(c);
    hide SwitchedStream, SwitchedOptions, ActsOf, RunCalls, Filter, TotalDur, Lists, StreamingSort.Sorted,
         StreamingSort.Bounded, StreamingSort.MaxTs, StreamingSort.ReadAhead;
    SwitchedIsSorted(c);
    StreamingSort.SortedNeedsNoBuffer(s);
    SwitchedTimes(c);
    SwitchedTotal(c, StreamingSort.MaxTs(StreamingSort.ReadAhead(s, c)));
    SwitchedTotal(c, StreamingSort.MaxTs(s));
  }

  // ---- alternation ----

  /** The event reads or sets the scheduler state of thread `t`. */
  predicate Schedules(e: PerfEvent, t: int) {
    match e.kind
    case SchedSwitch(prev, next, _) => prev == t || next == t
    case SchedWakeup(target) => target == t
    case ContextSwitch => e.tid == t
    case SchedStatRuntime => e.tid == t
    case _ => false
  }

  /** The times of the events that do so strictly rise, and no switch is from `t` to
      itself. */
  ghost predicate SchedulesApart(ps: seq<PerfEvent>, t: int) {
    && (forall i, j :: 0 <= i < j < |ps| && Schedules(ps[i], t) && Schedules(ps[j], t) ==>
          ps[i].timestampNs < ps[j].timestampNs)
    && forall i :: 0 <= i < |ps| && ps[i].kind.SchedSwitch? ==> !(ps[i].kind.prevTid == t && ps[i].kind.nextTid == t)
  }

  lemma SchedulingActs(cfg: Config, e: PerfEvent, t: int, i: nat)
    requires i < |ActionsOf(cfg, e)| && ActionsOf(cfg, e)[i].tid == t && SetsState(ActionsOf(cfg, e)[i].op)
    ensures Schedules(e, t) && ActionsOf(cfg, e)[i].ts == e.timestampNs
    ensures !(e.kind.SchedSwitch? && e.kind.prevTid == t && e.kind.nextTid == t) ==>
              forall j :: 0 <= j < |ActionsOf(cfg, e)| && j != i ==> ActionsOf(cfg, e)[j].tid != t
  {
  }

  /** Scheduler acts on `t` come from events that schedule `t`. */
  lemma {:induction false} SchedulingActHasEvent(cfg: Config, ps: seq<PerfEvent>, t: int, i: nat) returns (k: nat)
    requires i < |ActsOf(cfg, ps)| && ActsOf(cfg, ps)[i].tid == t && SetsState(ActsOf(cfg, ps)[i].op)
    ensures k < |ps| && Schedules(ps[k], t) && ps[k].timestampNs == ActsOf(cfg, ps)[i].ts
  {
    hide ActionsOf, Schedules;
    var front, e := Init(ps), Last(ps);
    if i < |ActsOf(cfg, front)| {
      k := SchedulingActHasEvent(cfg, front, t, i);
    } else {
      k := |ps| - 1;
      SchedulingActs(cfg, e, t, i - |ActsOf(cfg, front)|);
    }
  }

  lemma {:induction false} StrictFromEvents(cfg: Config, ps: seq<PerfEvent>, t: int)
    requires SchedulesApart(ps, t)
    ensures StrictOn(ActsOf(cfg, ps), t)
  {
    hide ActionsOf, Schedules, SetsState;
    if ps != [] {
      var front, e := Init(ps), Last(ps);
      StrictFromEvents(cfg, front, t);
      var h, n := ActsOf(cfg, ps), |ActsOf(cfg, front)|;
      assert h == ActsOf(cfg, front) + ActionsOf(cfg, e);
      hide ActsOf;
      forall i, j | 0 <= i < j < |h| && h[i].tid == t && h[j].tid == t && SetsState(h[i].op) && SetsState(h[j].op)
        ensures h[i].ts < h[j].ts
      {
        if j >= n {
          SchedulingActs(cfg, e, t, j - n);
          assert ps[|ps| - 1] == e;
          if i < n {
            var k := SchedulingActHasEvent(cfg, front, t, i);
            assert ps[k] == front[k];
          }
        }
      }
    }
  }

  /** A run's scheduler track alternates exactly as its acts say. */
  lemma RunAlternatesIffNoneRepeats(cfg: Config, ps: seq<PerfEvent>, order: seq<int>, t: int)
    requires Lists(order, ActsOf(cfg, ps))
    ensures var h := ActsOf(cfg, ps);
            var s := StateAfter(h, t).sched;
            var flushed := if s.Some? then FlushSpan(s.value, t, cfg.TgidFor(t), cfg.lastPerfTs) else [];
            Alternates(Filter(IsSpanOf(t), RunCalls(cfg, ps, order))) <==>
            !SomeRepeatsKind(h, t) && !RepeatsKind(h, t, flushed)
  {
    hide ActsOf, StateAfter, Alternates, RunCalls, Filter, SomeRepeatsKind, RepeatsKind, FlushSpan, FinalSpans, Lists;
    RunSpans(cfg, ps, order, t);
    AlternatesIffNoneRepeats(ActsOf(cfg, ps), t, cfg.TgidFor(t), cfg.lastPerfTs);
  }

  /** If the times of the events that schedule `t` strictly rise and no switch is from
      `t` to itself, its on-cpu and off-cpu spans strictly alternate in any run. */
  lemma RunAlternates(cfg: Config, ps: seq<PerfEvent>, order: seq<int>, t: int)
    requires SchedulesApart(ps, t) && Lists(order, ActsOf(cfg, ps))
    ensures Alternates(Filter(IsSpanOf(t), RunCalls(cfg, ps, order)))
  {
    hide ActsOf, Alternates, RunCalls, Filter, FinalSpans, SchedulesApart, StrictOn, Lists;
    StrictFromEvents(cfg, ps, t);
    RunSpans(cfg, ps, order, t);
    SpansAlternate(ActsOf(cfg, ps), t, cfg.TgidFor(t), cfg.lastPerfTs);
  }
}
