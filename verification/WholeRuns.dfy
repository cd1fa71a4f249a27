/** Properties of whole engine runs: the two sources do not disturb each other, the
    threads do not disturb each other, and begin and end tracks keep their brackets. */
module WholeRuns {
  import opened Seqs
  import opened Events
  import opened Output
  import opened ThreadMachines
  import opened MergeEngine
  import BracketTracks

  // ---- the two sources ----

  function FromViz(): Call -> bool {
    (c: Call) => c.Viz?
  }

  function FromPerf(): Call -> bool {
    (c: Call) => !c.Viz?
  }

  lemma PerfCallsAreNotViz(s: ThreadState, a: Act)
    ensures forall i :: 0 <= i < |ActCalls(s, a)| ==> !ActCalls(s, a)[i].Viz?
  {
  }

  lemma {:induction false} CallsAfterAreNotViz(h: seq<Act>, more: seq<Act>)
    ensures Filter(FromViz(), CallsAfter(h, more)) == []
    ensures Filter(FromPerf(), CallsAfter(h, more)) == CallsAfter(h, more)
  {
    hide ActCalls;
    if more != [] {
      var front, a := Init(more), Last(more);
      var calls := ActCalls(StateAfter(h + front, a.tid), a);
      CallsAfterAreNotViz(h, front);
      PerfCallsAreNotViz(StateAfter(h + front, a.tid), a);
      FilterAppend(FromViz(), CallsAfter(h, front), calls);
      FilterAppend(FromPerf(), CallsAfter(h, front), calls);
      FilterNone(FromViz(), calls);
      FilterAll(FromPerf(), calls);
    }
  }

  lemma VizCallsAreViz(cfg: Config, v: VizEvent)
    ensures Filter(FromViz(), VizCalls(cfg, v)) == VizCalls(cfg, v)
    ensures Filter(FromPerf(), VizCalls(cfg, v)) == []
  {
    FilterAll(FromViz(), VizCalls(cfg, v));
    FilterNone(FromPerf(), VizCalls(cfg, v));
  }

  lemma {:induction false} AllVizCons(cfg: Config, v: VizEvent, vs: seq<VizEvent>)
    ensures AllVizCalls(cfg, [v] + vs) == VizCalls(cfg, v) + AllVizCalls(cfg, vs)
  {
    hide VizCalls;
    if vs == [] {
      assert [v] + vs == [] + [v];
      OneMoreViz(cfg, [], v);
    } else {
      AllVizCons(cfg, v, Init(vs));
      assert [v] + vs == ([v] + Init(vs)) + [Last(vs)];
      OneMoreViz(cfg, [v] + Init(vs), Last(vs));
      Associate(VizCalls(cfg, v), AllVizCalls(cfg, Init(vs)), VizCalls(cfg, Last(vs)));
    }
  }

  /** Merging changes neither source's output: of the merged calls, those of perf
      origin are what the perf events make alone, and those of Python origin what the
      Python events make alone. */
  lemma {:induction false} MergeDoesNotInterfere(cfg: Config, h: seq<Act>, ps: seq<PerfEvent>, vs: seq<VizEvent>)
    ensures Filter(FromPerf(), ItemCalls(cfg, h, Merged(cfg, ps, vs))) == CallsAfter(h, ActsOf(cfg, ps))
    ensures Filter(FromViz(), ItemCalls(cfg, h, Merged(cfg, ps, vs))) == AllVizCalls(cfg, vs)
    decreases |ps| + |vs|
  {
    hide ActionsOf, VizCalls, CallsAfter, ItemCalls, Merged, Filter;
    if ps == [] && vs == [] {
      NothingMerged(cfg, h);
      NothingDone(cfg, h);
      NoVizYet(cfg);
      FilterAll(FromPerf(), []);
      FilterAll(FromViz(), []);
    } else if ps != [] && (vs == [] || Us(ps[0].timestampNs) <= cfg.AlignViz(vs[0].tsUs)) {
      var more := ActionsOf(cfg, ps[0]);
      var calls, rest := CallsAfter(h, more), ItemCalls(cfg, h + more, Merged(cfg, ps[1..], vs));
      TakePerf(cfg, h, ps, vs);
      MergeDoesNotInterfere(cfg, h + more, ps[1..], vs);
      CallsAfterAreNotViz(h, more);
      FilterAppend(FromPerf(), calls, rest);
      FilterAppend(FromViz(), calls, rest);
      CallsAfterAppend(h, more, ActsOf(cfg, ps[1..]));
    } else {
      var calls, rest := VizCalls(cfg, vs[0]), ItemCalls(cfg, h, Merged(cfg, ps, vs[1..]));
      TakeViz(cfg, h, ps, vs);
      MergeDoesNotInterfere(cfg, h, ps, vs[1..]);
      VizCallsAreViz(cfg, vs[0]);
      FilterAppend(FromPerf(), calls, rest);
      FilterAppend(FromViz(), calls, rest);
      assert vs == [vs[0]] + vs[1..];
      AllVizCons(cfg, vs[0], vs[1..]);
    }
  }

  // ---- the merge order ----

  function TimeOf(cfg: Config, i: Item): real {
    match i
    case P(e) => Us(e.timestampNs)
    case V(v) => cfg.AlignViz(v.tsUs)
  }

  ghost predicate SortedEvents(ps: seq<PerfEvent>) {
    forall i, j :: 0 <= i < j < |ps| ==> ps[i].timestampNs <= ps[j].timestampNs
  }

  ghost predicate SortedViz(vs: seq<VizEvent>) {
    forall i, j :: 0 <= i < j < |vs| ==> vs[i].tsUs <= vs[j].tsUs
  }

  /** By time, and perf before Python where times are equal. */
  ghost predicate InMergeOrder(cfg: Config, items: seq<Item>) {
    forall i, j :: 0 <= i < j < |items| ==>
      TimeOf(cfg, items[i]) <= TimeOf(cfg, items[j]) &&
      (items[i].V? && items[j].P? ==> TimeOf(cfg, items[i]) < TimeOf(cfg, items[j]))
  }

  ghost predicate AllFrom(items: seq<Item>, ps: seq<PerfEvent>, vs: seq<VizEvent>) {
    forall i :: 0 <= i < |items| ==> if items[i].P? then items[i].perf in ps else items[i].viz in vs
  }

  lemma InMergeOrderCons(cfg: Config, x: Item, items: seq<Item>)
    requires InMergeOrder(cfg, items)
    requires forall i :: 0 <= i < |items| ==>
               TimeOf(cfg, x) <= TimeOf(cfg, items[i]) &&
               (x.V? && items[i].P? ==> TimeOf(cfg, x) < TimeOf(cfg, items[i]))
    ensures InMergeOrder(cfg, [x] + items)
  {
    var r := [x] + items;
    assert forall i :: 0 < i < |r| ==> r[i] == items[i - 1];
  }

  /** If both sources are sorted, they are consumed in time order, perf first. */
  lemma {:induction false} MergeIsSorted(cfg: Config, ps: seq<PerfEvent>, vs: seq<VizEvent>)
    requires SortedEvents(ps) && SortedViz(vs)
    ensures InMergeOrder(cfg, Merged(cfg, ps, vs))
    ensures AllFrom(Merged(cfg, ps, vs), ps, vs)
    decreases |ps| + |vs|
  {
    if ps != [] && (vs == [] || Us(ps[0].timestampNs) <= cfg.AlignViz(vs[0].tsUs)) {
      var rest := Merged(cfg, ps[1..], vs);
      MergeIsSorted(cfg, ps[1..], vs);
      forall i | 0 <= i < |rest|
        ensures TimeOf(cfg, P(ps[0])) <= TimeOf(cfg, rest[i])
        ensures if rest[i].P? then rest[i].perf in ps else rest[i].viz in vs
      {
        assert rest[i].P? ==> rest[i].perf in ps[1..];
      }
      InMergeOrderCons(cfg, P(ps[0]), rest);
    } else if vs != [] {
      var rest := Merged(cfg, ps, vs[1..]);
      MergeIsSorted(cfg, ps, vs[1..]);
      forall i | 0 <= i < |rest|
        ensures TimeOf(cfg, V(vs[0])) <= TimeOf(cfg, rest[i])
        ensures rest[i].P? ==> TimeOf(cfg, V(vs[0])) < TimeOf(cfg, rest[i])
        ensures if rest[i].P? then rest[i].perf in ps else rest[i].viz in vs
      {
        assert rest[i].V? ==> rest[i].viz in vs[1..];
      }
      InMergeOrderCons(cfg, V(vs[0]), rest);
    }
  }

  // ---- what the filters guarantee ----

  ghost predicate RealEvent(e: PerfEvent) {
    && RealTid(e.tid)
    && (e.kind.SchedSwitch? ==> RealTid(e.kind.prevTid) && RealTid(e.kind.nextTid))
    && (e.kind.SchedWakeup? ==> RealTid(e.kind.targetTid))
  }

  predicate SchedOp(op: Op) {
    !BracketTracks.GilOp(op) && !BracketTracks.GpuOp(op)
  }

  lemma ActionsAreSound(cfg: Config, e: PerfEvent)
    ensures forall i :: 0 <= i < |ActionsOf(cfg, e)| ==>
              && ActionsOf(cfg, e)[i].ts == e.timestampNs
              && (SchedOp(ActionsOf(cfg, e)[i].op) ==> cfg.includeSched && cfg.PassesThread(ActionsOf(cfg, e)[i].tid))
    ensures RealEvent(e) ==> RealTids(ActionsOf(cfg, e))
  {
  }

  lemma {:induction false} ActsAreSound(cfg: Config, ps: seq<PerfEvent>)
    ensures forall i :: 0 <= i < |ActsOf(cfg, ps)| ==>
              && (exists e :: e in ps && e.timestampNs == ActsOf(cfg, ps)[i].ts)
              && (SchedOp(ActsOf(cfg, ps)[i].op) ==> cfg.includeSched && cfg.PassesThread(ActsOf(cfg, ps)[i].tid))
    ensures (forall e | e in ps :: RealEvent(e)) ==> RealTids(ActsOf(cfg, ps))
  {
    hide ActionsOf;
    if ps != [] {
      var front, e := Init(ps), Last(ps);
      assert ps == front + [e];
      ActsAreSound(cfg, front);
      ActionsAreSound(cfg, e);
      forall i | 0 <= i < |ActsOf(cfg, ps)|
        ensures exists e' :: e' in ps && e'.timestampNs == ActsOf(cfg, ps)[i].ts
      {
        if i < |ActsOf(cfg, front)| {
          var e' :| e' in front && e'.timestampNs == ActsOf(cfg, front)[i].ts;
          assert e' in ps;
        } else {
          assert e in ps;
        }
      }
    }
  }

  /** A sorted event stream gives a sorted history. */
  lemma {:induction false} SortedHistory(cfg: Config, ps: seq<PerfEvent>)
    requires SortedEvents(ps)
    ensures SortedActs(ActsOf(cfg, ps))
  {
    hide ActionsOf;
    if ps != [] {
      var front, e := Init(ps), Last(ps);
      SortedHistory(cfg, front);
      ActsAreSound(cfg, front);
      ActionsAreSound(cfg, e);
      forall i, j | 0 <= i < j < |ActsOf(cfg, ps)|
        ensures ActsOf(cfg, ps)[i].ts <= ActsOf(cfg, ps)[j].ts
      {
        if i < |ActsOf(cfg, front)| <= j {
          var e' :| e' in front && e'.timestampNs == ActsOf(cfg, front)[i].ts;
        }
      }
    }
  }

  /** Only threads that pass the filters ever have a scheduler state. */
  lemma {:induction false} StateMeansPassed(cfg: Config, h: seq<Act>, t: int)
    requires forall i :: 0 <= i < |h| && SchedOp(h[i].op) ==> cfg.includeSched && cfg.PassesThread(h[i].tid)
    requires StateAfter(h, t).sched.Some?
    ensures cfg.includeSched && cfg.PassesThread(t)
  {
    var front, a := Init(h), Last(h);
    if StateAfter(front, t).sched.Some? {
      StateMeansPassed(cfg, front, t);
    } else {
      MachineSched(StateAfter(front, t), a);
    }
  }

  // ---- threads, and the flush ----

  /** The perf-origin calls of a run from the start, flush included. */
  function RunCalls(cfg: Config, ps: seq<PerfEvent>, order: seq<int>): seq<Call> {
    CallsOf(ActsOf(cfg, ps)) + FlushCalls(cfg, ActsOf(cfg, ps), order)
  }

  /** The calls of a merged run from the start, after the naming calls. */
  function MergedRunCalls(cfg: Config, ps: seq<PerfEvent>, vs: seq<VizEvent>, order: seq<int>): seq<Call> {
    ItemCalls(cfg, [], Merged(cfg, ps, vs)) + FlushCalls(cfg, ActsOf(cfg, ps), order)
  }

  lemma FlushIsNotViz(cfg: Config, h: seq<Act>, order: seq<int>)
    ensures Filter(FromViz(), FlushCalls(cfg, h, order)) == []
    ensures Filter(FromPerf(), FlushCalls(cfg, h, order)) == FlushCalls(cfg, h, order)
  {
    if order != [] {
      var front, x := Init(order), Last(order);
      FlushIsNotViz(cfg, h, front);
      FlushThreadTrack(cfg, h, x);
      hide FlushThread;
      FilterNone(FromViz(), FlushThread(cfg, h, x));
      FilterAll(FromPerf(), FlushThread(cfg, h, x));
      FilterAppend(FromViz(), FlushCalls(cfg, h, front), FlushThread(cfg, h, x));
      FilterAppend(FromPerf(), FlushCalls(cfg, h, front), FlushThread(cfg, h, x));
    }
  }

  /** Of a merged run's calls, flush included, those of perf origin are the calls of a
      run on the perf events alone, and those of Python origin are the calls of a run on
      the Python events alone. */
  lemma SourcesDoNotInterfere(cfg: Config, ps: seq<PerfEvent>, vs: seq<VizEvent>, order: seq<int>)
    ensures Filter(FromPerf(), MergedRunCalls(cfg, ps, vs, order)) == RunCalls(cfg, ps, order)
    ensures Filter(FromViz(), MergedRunCalls(cfg, ps, vs, order)) == AllVizCalls(cfg, vs)
  {
    var items, flushed := ItemCalls(cfg, [], Merged(cfg, ps, vs)), FlushCalls(cfg, ActsOf(cfg, ps), order);
    hide ItemCalls, Merged, FlushCalls, ActsOf, CallsAfter, CallsOf, AllVizCalls, Filter;
    MergeDoesNotInterfere(cfg, [], ps, vs);
    FlushIsNotViz(cfg, ActsOf(cfg, ps), order);
    FilterAppend(FromPerf(), items, flushed);
    FilterAppend(FromViz(), items, flushed);
    FromStart(ActsOf(cfg, ps));
    Nil(AllVizCalls(cfg, vs));
  }

  lemma FlushThreadTrack(cfg: Config, h: seq<Act>, x: int)
    ensures forall i :: 0 <= i < |FlushThread(cfg, h, x)| ==>
              FlushThread(cfg, h, x)[i].Complete? && FlushThread(cfg, h, x)[i].tid == x + SCHED_TID_OFFSET
  {
  }

  /** Among the flushed spans of the listed threads, `keep` picks those of `t`. */
  ghost predicate Picks(keep: Call -> bool, order: seq<int>, t: int) {
    forall c: Call, x: int :: c.Complete? && c.tid == x + SCHED_TID_OFFSET && x in order ==> (keep(c) <==> x == t)
  }

  lemma PicksFewer(keep: Call -> bool, order: seq<int>, t: int)
    requires order != [] && Picks(keep, order, t)
    ensures Picks(keep, Init(order), t)
  {
    assert forall x :: x in Init(order) ==> x in order;
  }

  lemma PickedFlush(cfg: Config, h: seq<Act>, order: seq<int>, x: int, t: int, keep: Call -> bool)
    requires Picks(keep, order, t) && x in order
    ensures Filter(keep, FlushThread(cfg, h, x)) == if x == t then FlushThread(cfg, h, t) else []
  {
    FlushThreadTrack(cfg, h, x);
    hide FlushThread;
    if x == t {
      FilterAll(keep, FlushThread(cfg, h, x));
    } else {
      FilterNone(keep, FlushThread(cfg, h, x));
    }
  }

  /** Whatever order the flush takes, it gives each listed thread its span once. */
  lemma {:induction false} FlushOfThread(cfg: Config, h: seq<Act>, order: seq<int>, t: int, keep: Call -> bool)
    requires forall i, j :: 0 <= i < j < |order| ==> order[i] != order[j]
    requires Picks(keep, order, t)
    ensures Filter(keep, FlushCalls(cfg, h, order)) == if t in order then FlushThread(cfg, h, t) else []
  {
    hide FlushThread, Picks;
    if order != [] {
      var front, x := Init(order), Last(order);
      assert order == front + [x];
      PicksFewer(keep, order, t);
      FlushOfThread(cfg, h, front, t, keep);
      FilterAppend(keep, FlushCalls(cfg, h, front), FlushThread(cfg, h, x));
      PickedFlush(cfg, h, order, x, t, keep);
    }
  }

  lemma {:induction false} StatesAreReal(h: seq<Act>, t: int)
    requires RealTids(h) && StateAfter(h, t).sched.Some?
    ensures RealTid(t)
  {
    if Last(h).tid != t {
      StatesAreReal(Init(h), t);
    }
  }

  lemma TracksPick(order: seq<int>, t: int)
    requires RealTid(t) && forall x :: x in order ==> RealTid(x)
    ensures Picks(OnTracksOf(t), order, t)
  {
  }

  lemma ProjectedRun(cfg: Config, ps: seq<PerfEvent>, order: seq<int>, t: int)
    requires (forall e | e in ps :: RealEvent(e)) && RealTid(t)
    requires Lists(order, ActsOf(cfg, ps))
    ensures var mine := Filter(On(t), ActsOf(cfg, ps));
            Filter(OnTracksOf(t), RunCalls(cfg, ps, order)) == CallsOf(mine) + FlushThread(cfg, mine, t)
  {
    var h := ActsOf(cfg, ps);
    ActsAreSound(cfg, ps);
    ThreadProjection(h, t);
    FilterAppend(OnTracksOf(t), CallsOf(h), FlushCalls(cfg, h, order));
    forall x | x in order
      ensures RealTid(x)
    {
      StatesAreReal(h, x);
    }
    TracksPick(order, t);
    FlushOfThread(cfg, h, order, t, OnTracksOf(t));
    hide Picks, ActsOf, CallsOf, FlushCalls, StateAfter, Filter, RealEvent;
  }

  /** The events that can act on thread `t`. */
  function Naming(t: int): PerfEvent -> bool {
    (e: PerfEvent) =>
      match e.kind
      case SchedSwitch(prev, next, _) => prev == t || next == t
      case SchedWakeup(target) => target == t
      case _ => e.tid == t
  }

  lemma OthersDoNotAct(cfg: Config, e: PerfEvent, t: int)
    ensures !Naming(t)(e) ==> Filter(On(t), ActionsOf(cfg, e)) == []
  {
    if !Naming(t)(e) {
      FilterNone(On(t), ActionsOf(cfg, e));
    }
  }

  /** A thread's acts are those of the events that name it. */
  lemma {:induction false} ActsOfNaming(cfg: Config, ps: seq<PerfEvent>, t: int)
    ensures Filter(On(t), ActsOf(cfg, ps)) == Filter(On(t), ActsOf(cfg, Filter(Naming(t), ps)))
  {
    if ps != [] {
      var front, e := Init(ps), Last(ps);
      var mine := Filter(Naming(t), front);
      assert ps == front + [e];
      ActsOfNaming(cfg, front, t);
      FilterSnoc(Naming(t), front, e);
      hide ActionsOf, Naming, Filter, CallsAfter;
      OneMoreEvent(cfg, [], front, e);
      FilterAppend(On(t), ActsOf(cfg, front), ActionsOf(cfg, e));
      if Naming(t)(e) {
        OneMoreEvent(cfg, [], mine, e);
        FilterAppend(On(t), ActsOf(cfg, mine), ActionsOf(cfg, e));
      } else {
        OthersDoNotAct(cfg, e, t);
        Nil(mine);
        Nil(Filter(On(t), ActsOf(cfg, front)));
      }
    }
  }

  /** Whatever the other threads do and whatever order the flush takes, the calls on
      a thread's tracks are those of the run on the events that name the thread. */
  lemma RunProjection(cfg: Config, ps: seq<PerfEvent>, order: seq<int>, alone: seq<int>, t: int)
    requires (forall e | e in ps :: RealEvent(e)) && RealTid(t)
    requires Lists(order, ActsOf(cfg, ps)) && Lists(alone, ActsOf(cfg, Filter(Naming(t), ps)))
    ensures Filter(OnTracksOf(t), RunCalls(cfg, ps, order)) ==
            Filter(OnTracksOf(t), RunCalls(cfg, Filter(Naming(t), ps), alone))
  {
    FilterMembers(Naming(t), ps);
    hide RealEvent, RunCalls, Lists, ActsOf, Filter, CallsOf, FlushThread, Naming;
    ProjectedRun(cfg, ps, order, t);
    ProjectedRun(cfg, Filter(Naming(t), ps), alone, t);
    ActsOfNaming(cfg, ps, t);
  }

  // ---- begin and end tracks of whole runs ----

  lemma FlushMissesTrack(cfg: Config, h: seq<Act>, order: seq<int>, tid: int)
    requires forall x :: x in order ==> x + SCHED_TID_OFFSET != tid
    ensures Filter(BracketTracks.OnTrack(tid), FlushCalls(cfg, h, order)) == []
  {
    if order != [] {
      var front, x := Init(order), Last(order);
      assert order == front + [x];
      assert forall y :: y in front ==> y in order;
      assert x in order;
      FlushMissesTrack(cfg, h, front, tid);
      FlushThreadTrack(cfg, h, x);
      hide FlushThread;
      FilterNone(BracketTracks.OnTrack(tid), FlushThread(cfg, h, x));
      FilterAppend(BracketTracks.OnTrack(tid), FlushCalls(cfg, h, front), FlushThread(cfg, h, x));
    }
  }

  /** The flush draws nothing on GIL and GPU tracks: a run's are those of its acts. */
  lemma RunBracketTracks(cfg: Config, ps: seq<PerfEvent>, order: seq<int>, t: int)
    requires (forall e | e in ps :: RealEvent(e)) && RealTid(t) && Lists(order, ActsOf(cfg, ps))
    ensures Filter(BracketTracks.OnTrack(t + GIL_TID_OFFSET), RunCalls(cfg, ps, order)) ==
            BracketTracks.GilTrack(ActsOf(cfg, ps), t)
    ensures Filter(BracketTracks.OnTrack(t + GPU_TID_OFFSET), RunCalls(cfg, ps, order)) ==
            BracketTracks.GpuTrack(ActsOf(cfg, ps), t)
    ensures RealTids(ActsOf(cfg, ps))
  {
    var h := ActsOf(cfg, ps);
    ActsAreSound(cfg, ps);
    forall x | x in order
      ensures RealTid(x)
    {
      StatesAreReal(h, x);
    }
    hide RealEvent, ActsOf, CallsOf, FlushCalls, StateAfter, Filter;
    FlushMissesTrack(cfg, h, order, t + GIL_TID_OFFSET);
    FlushMissesTrack(cfg, h, order, t + GPU_TID_OFFSET);
    FilterAppend(BracketTracks.OnTrack(t + GIL_TID_OFFSET), CallsOf(h), FlushCalls(cfg, h, order));
    FilterAppend(BracketTracks.OnTrack(t + GPU_TID_OFFSET), CallsOf(h), FlushCalls(cfg, h, order));
    Nil(BracketTracks.GilTrack(h, t));
    Nil(BracketTracks.GpuTrack(h, t));
  }

  /** Bracketing in whole runs: ends never outnumber begins on a thread's GIL and GPU
      tracks, "GIL acquire" and each API name toggle, and the tracks can be read as
      nested spans, or one at a time, exactly as their acts allow. */
  lemma RunBrackets(cfg: Config, ps: seq<PerfEvent>, order: seq<int>, t: int, api: Api)
    requires (forall e | e in ps :: RealEvent(e)) && RealTid(t) && Lists(order, ActsOf(cfg, ps))
    ensures var h, calls := ActsOf(cfg, ps), RunCalls(cfg, ps, order);
            var gil := Filter(BracketTracks.OnTrack(t + GIL_TID_OFFSET), calls);
            var gpu := Filter(BracketTracks.OnTrack(t + GPU_TID_OFFSET), calls);
            && BracketTracks.EndsFollowBegins(gil) && BracketTracks.EndsFollowBegins(gpu)
            && BracketTracks.Toggles(Filter(BracketTracks.Named(GilAcquire), gil), StateAfter(h, t).gilStart.Some?)
            && BracketTracks.Toggles(Filter(BracketTracks.Named(ApiSpan(api)), gpu), api in StateAfter(h, t).gpuOpen)
            && (BracketTracks.ReadAll(gil).Some? <==> !BracketTracks.DropsWhileTaking(h, t))
            && (BracketTracks.OneAtATime(h, t) <==> !BracketTracks.TakesWhileHeld(h, t))
            && (BracketTracks.ReadAll(gpu).Some? <==> BracketTracks.Nesting(h, t).Some?)
  {
    var h := ActsOf(cfg, ps);
    RunBracketTracks(cfg, ps, order, t);
    hide BracketTracks.EndsFollowBegins, BracketTracks.Toggles, BracketTracks.ReadAll, BracketTracks.OneAtATime,
         BracketTracks.DropsWhileTaking, BracketTracks.TakesWhileHeld, BracketTracks.Nesting, BracketTracks.GilStack,
         BracketTracks.GilTrack, BracketTracks.GpuTrack, BracketTracks.SameStack, BracketTracks.Balance,
         StateAfter, RealTids, RealEvent, RunCalls, ActsOf, Filter;
    BracketTracks.GilEndsFollowBegins(h, t);
    BracketTracks.GpuBalance(h, t);
    BracketTracks.AcquireToggles(h, t);
    BracketTracks.ApiToggles(h, t, api);
    BracketTracks.GilTrackIsLifo(h, t);
    BracketTracks.OneGilSpanAtATime(h, t);
    BracketTracks.GpuTrackIsLifo(h, t);
  }
}
