/** From an engine run to its trace file: the ids of a run's calls lie in the ranges that
    the uuids are laid out for, so its tracks form one described hierarchy. */
module EngineFiles {
  import opened Seqs
  import opened Events
  import opened Output
  import opened ThreadMachines
  import opened MergeEngine
  import opened WholeRuns
  import opened RawEvents
  import opened Chunks
  import opened TracePackets
  import opened PerfettoWriter
  import opened ProtoEncoder
  import opened PacketWire

  // ---- the ids of a run's calls ----

  ghost predicate BoundedCalls(calls: seq<Call>) {
    forall c :: c in calls ==> IdBounds(c.pid, c.tid)
  }

  ghost predicate BoundedActs(h: seq<Act>) {
    forall a :: a in h ==> RealTid(a.tid) && Bounded(Process(a.pid))
  }

  /** Thread and process ids are in range, in the perf events and in the thread map. */
  ghost predicate BoundedEvents(cfg: Config, ps: seq<PerfEvent>) {
    && (forall e | e in ps :: RealEvent(e) && Bounded(Process(e.pid)))
    && forall t :: t in cfg.tidToTgid ==> Bounded(Process(cfg.tidToTgid[t]))
  }

  ghost predicate BoundedViz(vs: seq<VizEvent>) {
    forall v | v in vs :: IdBounds(v.pid, v.tid)
  }

  lemma ActIds(s: ThreadState, a: Act)
    requires RealTid(a.tid) && Bounded(Process(a.pid))
    ensures BoundedCalls(ActCalls(s, a))
  {
    OffsetsAreInverted(a.tid);
  }

  lemma ActionIds(cfg: Config, ps: seq<PerfEvent>, e: PerfEvent)
    requires BoundedEvents(cfg, ps) && e in ps
    ensures BoundedActs(ActionsOf(cfg, e))
  {
    ActionsAreSound(cfg, e);
  }

  lemma {:induction false} ActsIds(cfg: Config, ps: seq<PerfEvent>)
    requires BoundedEvents(cfg, ps)
    ensures BoundedActs(ActsOf(cfg, ps))
  {
    hide ActionsOf, RealEvent, Bounded;
    if ps != [] {
      assert forall e :: e in Init(ps) ==> e in ps;
      ActsIds(cfg, Init(ps));
      ActionIds(cfg, ps, Last(ps));
    }
  }

  lemma {:induction false} CallIds(h: seq<Act>)
    requires BoundedActs(h)
    ensures BoundedCalls(CallsOf(h))
  {
    hide ActCalls, StateAfter, IdBounds, Bounded;
    if h != [] {
      assert forall a :: a in Init(h) ==> a in h;
      CallIds(Init(h));
      ActIds(StateAfter(Init(h), Last(h).tid), Last(h));
    }
  }

  lemma FlushedIds(cfg: Config, h: seq<Act>, t: int)
    requires RealTid(t) && Bounded(Process(cfg.TgidFor(t)))
    ensures BoundedCalls(FlushThread(cfg, h, t))
  {
    OffsetsAreInverted(t);
  }

  lemma {:induction false} FlushIds(cfg: Config, h: seq<Act>, order: seq<int>)
    requires forall t | t in order :: RealTid(t) && Bounded(Process(cfg.TgidFor(t)))
    ensures BoundedCalls(FlushCalls(cfg, h, order))
  {
    hide FlushThread, IdBounds, Bounded, Config.TgidFor;
    if order != [] {
      assert forall t :: t in Init(order) ==> t in order;
      FlushIds(cfg, h, Init(order));
      FlushedIds(cfg, h, Last(order));
    }
  }

  /** Perf events with ids in range make calls with ids in range, flush included. */
  lemma RunIds(cfg: Config, ps: seq<PerfEvent>, order: seq<int>)
    requires BoundedEvents(cfg, ps) && Lists(order, ActsOf(cfg, ps))
    ensures BoundedCalls(RunCalls(cfg, ps, order))
  {
    var h := ActsOf(cfg, ps);
    ActsIds(cfg, ps);
    ActsAreSound(cfg, ps);
    forall t | t in order
      ensures RealTid(t) && Bounded(Process(cfg.TgidFor(t)))
    {
      StatesAreReal(h, t);
    }
    hide ActsOf, CallsOf, FlushCalls, BoundedActs, IdBounds, StateAfter, Bounded, BoundedEvents;
    CallIds(h);
    FlushIds(cfg, h, order);
  }

  lemma {:induction false} VizIds(cfg: Config, vs: seq<VizEvent>)
    requires BoundedViz(vs)
    ensures BoundedCalls(AllVizCalls(cfg, vs))
  {
    hide IdBounds;
    if vs != [] {
      assert forall v :: v in Init(vs) ==> v in vs;
      VizIds(cfg, Init(vs));
    }
  }

  /** So do the calls of a merged run, each of which is of one origin or the other. */
  lemma MergedRunIds(cfg: Config, ps: seq<PerfEvent>, vs: seq<VizEvent>, order: seq<int>)
    requires BoundedEvents(cfg, ps) && BoundedViz(vs) && Lists(order, ActsOf(cfg, ps))
    ensures BoundedCalls(MergedRunCalls(cfg, ps, vs, order))
  {
    hide BoundedEvents, BoundedViz, Lists, RunCalls, AllVizCalls, MergedRunCalls, ActsOf, IdBounds, Filter;
    RunIds(cfg, ps, order);
    VizIds(cfg, vs);
    SourcesDoNotInterfere(cfg, ps, vs, order);
    var calls := MergedRunCalls(cfg, ps, vs, order);
    FilterMembers(FromPerf(), calls);
    FilterMembers(FromViz(), calls);
    forall c | c in calls
      ensures IdBounds(c.pid, c.tid)
    {
      if c.Viz? {
        assert c in Filter(FromViz(), calls);
      } else {
        assert c in Filter(FromPerf(), calls);
      }
    }
  }

  // ---- the file of a run ----

  /** An unchunked log: every call is there because it was made. */
  function AsMade(): Call -> Entry {
    (c: Call) => Live(c)
  }

  lemma LogIsBounded(calls: seq<Call>)
    requires BoundedCalls(calls)
    ensures AllBounded(Map(AsMade(), calls))
  {
    var log := Map(AsMade(), calls);
    forall e | e in log
      ensures IdsBounded(e) && !e.Counter?
    {
      var i :| 0 <= i < |log| && log[i] == e;
      assert calls[i] in calls;
    }
    assert MetricNames(log) == {};
  }

  // ---- perf events recovered from the file ----

  /** A reader sees the call, whose last or only time is `n` nanoseconds. */
  ghost predicate IsSeen(r: Rendering, c: Call, n: u64, seen: seq<Seen>) {
    var track := Uuid(TrackOf(c.tid));
    && (c.Begin? ==> Begun(track, n, r.text(c.name), c.cat) in seen)
    && (c.End? ==> Ended(track, n) in seen)
    && (c.Instant? ==> Marked(track, n, r.text(c.name), c.cat) in seen)
    && (c.Complete? ==>
          && Ended(track, n) in seen
          && exists m: u64 :: c.tsUs == Us(m) && Begun(track, m, r.text(c.name), c.cat) in seen)
  }

  /** Everything that each perf event draws is seen, at the event's own time. */
  ghost predicate PerfIsSeen(cfg: Config, ps: seq<PerfEvent>, r: Rendering, seen: seq<Seen>) {
    forall i, c :: 0 <= i < |ps| && c in Marks(cfg, ps[..i], ps[i]) ==> IsSeen(r, c, ps[i].timestampNs, seen)
  }

  /** The spans that an event ends, end at its time; its marks are at its time. */
  predicate EndsAt(c: Call, n: u64) {
    && !c.Metadata? && !c.Viz?
    && (!c.Complete? ==> c.tsUs == Us(n))
    && (c.Complete? ==> c.tsUs + c.durUs == Us(n))
  }

  lemma SpanIsTimed(cfg: Config, x: PerfEvent, t: int, now: u64, c: Call)
    requires c in SpanSince(cfg, x, t, now)
    ensures c.Complete? && c.tsUs == Us(x.timestampNs) && EndsAt(c, now)
  {
  }

  lemma MarksAreTimed(cfg: Config, es: seq<PerfEvent>, e: PerfEvent, c: Call)
    requires c in Marks(cfg, es, e)
    ensures EndsAt(c, e.timestampNs)
    ensures c.Complete? ==> exists m: u64 :: c.tsUs == Us(m)
  {
    hide SpanSince, LastChange, Acquiring, Holding, Calling, GilShown, ApiShown, SchedShown;
    if c.Complete? {
      var t: int;
      if e.kind.SchedSwitch? {
        var prev, next := e.kind.prevTid, e.kind.nextTid;
        t := if c in SpanAwake(cfg, LastChange(cfg, es, prev), prev, e.timestampNs) then prev else next;
      } else {
        t := Subject(e);
      }
      SpanIsTimed(cfg, LastChange(cfg, es, t).value, t, e.timestampNs, c);
    } else {
      forall x: PerfEvent, t: int, d: Call | d in SpanSince(cfg, x, t, e.timestampNs)
        ensures d.Complete?
      {
        SpanIsTimed(cfg, x, t, e.timestampNs, d);
      }
    }
  }

  lemma {:induction false} MarksAreDrawn(cfg: Config, ps: seq<PerfEvent>, i: nat, c: Call)
    requires i < |ps| && c in Marks(cfg, ps[..i], ps[i])
    ensures c in Drawn(cfg, ps)
  {
    hide Marks;
    if i < |ps| - 1 {
      assert Init(ps)[..i] == ps[..i];
      MarksAreDrawn(cfg, Init(ps), i, c);
    } else {
      assert ps[..i] == Init(ps);
    }
  }

  lemma {:induction false} RecoveredHas(r: Rendering, log: seq<Entry>, i: nat, s: Seen)
    requires i < |log| && s in EntryEvents(r, log[i])
    ensures s in Recovered(r, log)
  {
    hide EntryEvents;
    if i < |log| - 1 {
      RecoveredHas(r, Init(log), i, s);
    }
  }

  lemma CallIsSeen(r: Rendering, c: Call, n: u64, seen: seq<Seen>)
    requires EndsAt(c, n) && (c.Complete? ==> exists m: u64 :: c.tsUs == Us(m))
    requires forall s :: s in EventsOf(r, c) ==> s in seen
    ensures IsSeen(r, c, n, seen)
  {
    hide EventsOf;
    if c.Complete? {
      var m: u64 :| c.tsUs == Us(m);
      CallsMean(r, c, m);
      assert EventsOf(r, c) == [Begun(Uuid(TrackOf(c.tid)), m, r.text(c.name), c.cat), Ended(Uuid(TrackOf(c.tid)), n)];
    } else {
      CallsMean(r, c, n);
    }
  }

  /** A run whose perf-origin calls are what the stream draws shows all of it. */
  lemma RunShowsPerf(cfg: Config, ps: seq<PerfEvent>, r: Rendering, calls: seq<Call>, rest: seq<Call>, run: seq<Call>)
    requires Filter(FromPerf(), run) == Drawn(cfg, ps) + rest
    requires forall c :: c in run ==> c in calls
    ensures PerfIsSeen(cfg, ps, r, Recovered(r, Map(AsMade(), calls)))
  {
    var log := Map(AsMade(), calls);
    FilterMembers(FromPerf(), run);
    hide Marks, Drawn, EventsOf, Recovered, IsSeen, Filter;
    forall i, c | 0 <= i < |ps| && c in Marks(cfg, ps[..i], ps[i])
      ensures IsSeen(r, c, ps[i].timestampNs, Recovered(r, log))
    {
      MarksAreTimed(cfg, ps[..i], ps[i], c);
      MarksAreDrawn(cfg, ps, i, c);
      assert c in Drawn(cfg, ps) + rest;
      var k :| 0 <= k < |calls| && calls[k] == c;
      assert log[k] == Live(c);
      forall s | s in EventsOf(r, c)
        ensures s in Recovered(r, log)
      {
        RecoveredHas(r, log, k, s);
      }
      CallIsSeen(r, c, ps[i].timestampNs, Recovered(r, log));
    }
  }

  /** In the file of a run, a thread's take, its return and the drop are the ends of
      "GIL acquire" and "GIL held" on the thread's GIL track, to the nanosecond. */
  lemma GilIsSeen(cfg: Config, ps: seq<PerfEvent>, r: Rendering, seen: seq<Seen>, t: int, i: nat, j: nat, k: nat)
    requires PerfIsSeen(cfg, ps, r, seen) && 0 <= t < 10_000_000
    requires i < j < k < |ps| && ps[i].tid == ps[j].tid == ps[k].tid == t
    requires GilShown(cfg, ps[i]) && GilShown(cfg, ps[j]) && GilShown(cfg, ps[k])
    requires ps[i].kind.TakeGil? && !Acquiring(cfg, ps[..i], t)
    requires ps[j].kind.TakeGilReturn? && NoneBetween(GilOn(cfg, TakeGilReturn, t), ps, i, j)
    requires ps[k].kind.DropGil? && NoneBetween(GilOn(cfg, DropGil, t), ps, j, k)
    ensures Begun(300_000_000 + t, ps[i].timestampNs, r.text(GilAcquire), "gil") in seen
    ensures Ended(300_000_000 + t, ps[j].timestampNs) in seen
    ensures Begun(300_000_000 + t, ps[j].timestampNs, r.text(GilHeld), "gil") in seen
    ensures Ended(300_000_000 + t, ps[k].timestampNs) in seen
  {
    GilIsDrawn(cfg, ps, t, i, j, k);
    OffsetsAreInverted(t);
    assert Uuid(Track.Gil(t)) == 300_000_000 + t;
    hide Marks, GilShown, Acquiring, NoneBetween, TrackOf, Uuid;
    var a := Begin(GilAcquire, "gil", Us(ps[i].timestampNs), ps[i].pid, t + GIL_TID_OFFSET);
    var b := End(GilAcquire, "gil", Us(ps[j].timestampNs), ps[j].pid, t + GIL_TID_OFFSET);
    var c := Begin(GilHeld, "gil", Us(ps[j].timestampNs), ps[j].pid, t + GIL_TID_OFFSET);
    var d := End(GilHeld, "gil", Us(ps[k].timestampNs), ps[k].pid, t + GIL_TID_OFFSET);
    assert a in Marks(cfg, ps[..i], ps[i]) && b in Marks(cfg, ps[..j], ps[j]);
    assert c in Marks(cfg, ps[..j], ps[j]) && d in Marks(cfg, ps[..k], ps[k]);
    hide Us;
  }

  /** A merged run, from its two sources to the bytes of its file. Its calls are the
      naming calls, then those of either origin that the events themselves call for. The
      file is that of these calls; if it can be spelled, a reader of it sees everything
      that the perf events draw; and if all ids are in range, each of its tracks is
      described once, before its events and below described parents. */
  method WriteMergedRun(cfg: Config, ps: seq<PerfEvent>, vs: seq<VizEvent>, r: Rendering)
    returns (calls: seq<Call>, packets: seq<Packet>, file: seq<byte>, ghost order: seq<int>)
    ensures Lists(order, ActsOf(cfg, ps))
    ensures calls == cfg.metadata + MergedRunCalls(cfg, ps, vs, order)
    ensures IsTraceOf(r, Map(AsMade(), calls), packets, file)
    ensures ListsKnown(cfg, order, ps) && cfg.metadata <= calls
    ensures var run := calls[|cfg.metadata|..];
            && Filter(FromPerf(), run) == Drawn(cfg, ps) + Flushed(cfg, ps, order)
            && Filter(FromViz(), run) == PassedOn(cfg, vs)
    ensures CanBeSpelled(r, Map(AsMade(), calls)) ==>
              ReadEvents(file).Some? && PerfIsSeen(cfg, ps, r, ReadEvents(file).value)
    ensures BoundedEvents(cfg, ps) && BoundedViz(vs) && BoundedCalls(cfg.metadata) ==> Closed(packets)
  {
    hide ItemCalls, Merged, ActsOf, FlushCalls, Lists, BoundedEvents, BoundedViz, IdBounds, AllBounded, Closed,
         Presented, ClearsOnce, CanBeSpelled, EncodeFile, ReadFile, ReadEvents, RunCalls, Recovered,
         PerfIsSeen, Drawn, Flushed, PassedOn, AllVizCalls, ListsKnown, Filter;
    var perf := new Cursor(ps);
    var viz := new Cursor(vs);
    var engine := new MergeEngine(cfg, perf);
    order := engine.MergeVizStream(viz);
    calls := engine.log;
    packets, file := WriteTraceFile(r, Map(AsMade(), calls));
    assert ps[0..] == ps && vs[0..] == vs;
    assert engine.acts == ActsOf(cfg, ps) by {
      Nil(ActsOf(cfg, ps));
    }
    Nil(cfg.metadata);
    Associate(cfg.metadata, ItemCalls(cfg, [], Merged(cfg, ps, vs)), FlushCalls(cfg, ActsOf(cfg, ps), order));
    ghost var run := MergedRunCalls(cfg, ps, vs, order);
    SourcesDoNotInterfere(cfg, ps, vs, order);
    RunDraws(cfg, ps, order);
    VizDraws(cfg, vs);
    assert calls[|cfg.metadata|..] == run;
    RunShowsPerf(cfg, ps, r, calls, Flushed(cfg, ps, order), run);
    if BoundedEvents(cfg, ps) && BoundedViz(vs) && BoundedCalls(cfg.metadata) {
      MergedRunIds(cfg, ps, vs, order);
      LogIsBounded(calls);
    }
  }
}
