/** The merge engine: perf events drive the per-thread machines, Python events pass
    through, and the two sources are merged by time with perf first. */
module MergeEngine {
  import opened Seqs
  import opened Events
  import opened Output
  import opened ThreadMachines

  /** Everything that is fixed before a run starts: options, the thread-to-process
      map, the name filter's verdict per thread, the time bounds, the clock offset,
      the flush time and the naming calls. */
  datatype Config = Config(
    includeSched: bool, includeGil: bool, includeGpu: bool,
    filterPid: int, nameOk: int -> bool, tidToTgid: map<int, int>,
    timeStartUs: real, timeEndUs: real, timeEndExclusive: bool,
    minDurationUs: real, vizOffsetUs: real,
    lastPerfTs: u64, metadata: seq<Call>)
  {
    function TgidFor(tid: int): int {
      if tid in tidToTgid then tidToTgid[tid] else tid
    }

    predicate PassesFilter(pid: int) {
      filterPid < 0 || pid == filterPid
    }

    predicate PassesTime(tsUs: real) {
      && !(timeStartUs >= 0.0 && tsUs < timeStartUs)
      && !(timeEndUs >= 0.0 && if timeEndExclusive then tsUs >= timeEndUs else tsUs > timeEndUs)
    }

    /** The filter for everything filed under a thread's process. */
    predicate PassesThread(tid: int) {
      PassesFilter(TgidFor(tid)) && nameOk(tid)
    }

    function AlignViz(tsUs: real): real {
      tsUs + vizOffsetUs
    }
  }

  function ToInt32(x: int): int {
    var low := x % 0x1_0000_0000;
    if low < 0x8000_0000 then low else low - 0x1_0000_0000
  }

  // ---- what an event asks of the machines ----

  function If(b: bool, a: Act): seq<Act> {
    if b then [a] else []
  }

  function ActionsOf(cfg: Config, e: PerfEvent): seq<Act> {
    var ts, tid, tgid := e.timestampNs, e.tid, cfg.TgidFor(e.tid);
    if !cfg.PassesTime(Us(ts)) then []
    else
      match e.kind
      case SchedSwitch(prev, next, prevState) =>
        If(cfg.includeSched && cfg.PassesThread(prev), Act(prev, cfg.TgidFor(prev), ts, SwitchOut(prevState, e.cpu))) +
        If(cfg.includeSched && cfg.PassesThread(next) && next in cfg.tidToTgid,
           Act(next, cfg.TgidFor(next), ts, SwitchIn(e.cpu)))
      case SchedWakeup(target) =>
        If(cfg.includeSched && target != 0 && cfg.PassesThread(target),
           Act(target, cfg.TgidFor(target), ts, Wakeup(e.cpu)))
      case SchedFork(childPid, childTid) =>
        If(cfg.includeSched && cfg.PassesThread(tid), Act(tid, tgid, ts, Fork(childPid, childTid)))
      case ContextSwitch => If(cfg.includeSched && cfg.PassesThread(tid), Act(tid, tgid, ts, Tick(e.cpu)))
      case SchedStatRuntime => If(cfg.includeSched && cfg.PassesThread(tid), Act(tid, tgid, ts, Tick(e.cpu)))
      case TakeGil => If(cfg.includeGil && cfg.PassesFilter(e.pid) && cfg.nameOk(tid), Act(tid, e.pid, ts, Take))
      case TakeGilReturn =>
        If(cfg.includeGil && cfg.PassesFilter(e.pid) && cfg.nameOk(tid), Act(tid, e.pid, ts, TakeReturn))
      case DropGil => If(cfg.includeGil && cfg.PassesFilter(e.pid) && cfg.nameOk(tid), Act(tid, e.pid, ts, Drop))
      case ApiEntry(api) => If(cfg.includeGpu && cfg.PassesThread(tid), Act(tid, tgid, ts, Enter(api)))
      case ApiReturn(api) => If(cfg.includeGpu && cfg.PassesThread(tid), Act(tid, tgid, ts, Leave(api)))
      case Comm => []
      case Other => []
  }

  function ActsOf(cfg: Config, es: seq<PerfEvent>): seq<Act> {
    if es == [] then [] else ActsOf(cfg, Init(es)) + ActionsOf(cfg, Last(es))
  }

  lemma {:induction false} ActsAppend(cfg: Config, a: seq<PerfEvent>, b: seq<PerfEvent>)
    ensures ActsOf(cfg, a + b) == ActsOf(cfg, a) + ActsOf(cfg, b)
  {
    hide ActionsOf;
    if b == [] {
      assert a + b == a;
    } else {
      ActsAppend(cfg, a, Init(b));
      assert a + b == (a + Init(b)) + [Last(b)];
      InitLast(a + Init(b), Last(b));
    }
  }

  /** A Python event as it is passed on. */
  function VizCalls(cfg: Config, v: VizEvent): seq<Call> {
    var ts := cfg.AlignViz(v.tsUs);
    if cfg.PassesFilter(ToInt32(v.pid)) && cfg.nameOk(ToInt32(v.tid)) && cfg.PassesTime(ts) &&
       (v.ph != 'X' || v.durUs >= cfg.minDurationUs)
    then [Viz(v.ph, Text(v.name), if v.cat == "" then "python" else v.cat, ts, v.durUs, v.pid, v.tid,
              Json(if v.args == "" then "{}" else v.args))]
    else []
  }

  function AllVizCalls(cfg: Config, vs: seq<VizEvent>): seq<Call> {
    if vs == [] then [] else AllVizCalls(cfg, Init(vs)) + VizCalls(cfg, Last(vs))
  }

  lemma NoVizYet(cfg: Config)
    ensures AllVizCalls(cfg, []) == []
  {
  }

  lemma OneMoreViz(cfg: Config, done: seq<VizEvent>, v: VizEvent)
    ensures AllVizCalls(cfg, done + [v]) == AllVizCalls(cfg, done) + VizCalls(cfg, v)
  {
    InitLast(done, v);
  }

  // ---- the merge order ----

  datatype Item = P(perf: PerfEvent) | V(viz: VizEvent)

  /** Two-pointer merge; on equal times the perf event goes first. */
  function Merged(cfg: Config, ps: seq<PerfEvent>, vs: seq<VizEvent>): seq<Item> {
    if ps == [] && vs == [] then []
    else if ps != [] && (vs == [] || Us(ps[0].timestampNs) <= cfg.AlignViz(vs[0].tsUs))
    then [P(ps[0])] + Merged(cfg, ps[1..], vs)
    else [V(vs[0])] + Merged(cfg, ps, vs[1..])
  }

  /** The calls the merged items make when the machines have seen `h`. */
  function ItemCalls(cfg: Config, h: seq<Act>, items: seq<Item>): seq<Call>
    decreases |items|
  {
    if items == [] then []
    else
      match items[0]
      case P(e) => CallsAfter(h, ActionsOf(cfg, e)) + ItemCalls(cfg, h + ActionsOf(cfg, e), items[1..])
      case V(v) => VizCalls(cfg, v) + ItemCalls(cfg, h, items[1..])
  }

  lemma TakePerf(cfg: Config, h: seq<Act>, ps: seq<PerfEvent>, vs: seq<VizEvent>)
    requires ps != [] && (vs == [] || Us(ps[0].timestampNs) <= cfg.AlignViz(vs[0].tsUs))
    ensures ItemCalls(cfg, h, Merged(cfg, ps, vs)) ==
            CallsAfter(h, ActionsOf(cfg, ps[0])) +
            ItemCalls(cfg, h + ActionsOf(cfg, ps[0]), Merged(cfg, ps[1..], vs))
    ensures ActsOf(cfg, ps) == ActionsOf(cfg, ps[0]) + ActsOf(cfg, ps[1..])
  {
    hide ActionsOf, CallsAfter;
    var rest := Merged(cfg, ps[1..], vs);
    assert ([P(ps[0])] + rest)[1..] == rest;
    assert ps == [ps[0]] + ps[1..];
    ActsAppend(cfg, [ps[0]], ps[1..]);
    assert Init([ps[0]]) == [] && ActsOf(cfg, [ps[0]]) == ActionsOf(cfg, ps[0]);
  }

  lemma TakeViz(cfg: Config, h: seq<Act>, ps: seq<PerfEvent>, vs: seq<VizEvent>)
    requires vs != [] && (ps == [] || Us(ps[0].timestampNs) > cfg.AlignViz(vs[0].tsUs))
    ensures ItemCalls(cfg, h, Merged(cfg, ps, vs)) ==
            VizCalls(cfg, vs[0]) + ItemCalls(cfg, h, Merged(cfg, ps, vs[1..]))
  {
    hide ActionsOf, CallsAfter, VizCalls;
    var rest := Merged(cfg, ps, vs[1..]);
    assert ([V(vs[0])] + rest)[1..] == rest;
  }

  /** Taking the next event moves its calls from what is to be made to what is made. */
  lemma MadeByPerf(cfg: Config, h: seq<Act>, ps: seq<PerfEvent>, vs: seq<VizEvent>, made: seq<Call>)
    requires ps != [] && (vs == [] || Us(ps[0].timestampNs) <= cfg.AlignViz(vs[0].tsUs))
    ensures var more := ActionsOf(cfg, ps[0]);
            && (made + CallsAfter(h, more)) + ItemCalls(cfg, h + more, Merged(cfg, ps[1..], vs)) ==
               made + ItemCalls(cfg, h, Merged(cfg, ps, vs))
            && (h + more) + ActsOf(cfg, ps[1..]) == h + ActsOf(cfg, ps)
  {
    var more := ActionsOf(cfg, ps[0]);
    hide ItemCalls, Merged, ActsOf, ActionsOf, CallsAfter;
    TakePerf(cfg, h, ps, vs);
    Associate(made, CallsAfter(h, more), ItemCalls(cfg, h + more, Merged(cfg, ps[1..], vs)));
    Associate(h, more, ActsOf(cfg, ps[1..]));
  }

  lemma MadeByViz(cfg: Config, h: seq<Act>, ps: seq<PerfEvent>, vs: seq<VizEvent>, made: seq<Call>)
    requires vs != [] && (ps == [] || Us(ps[0].timestampNs) > cfg.AlignViz(vs[0].tsUs))
    ensures (made + VizCalls(cfg, vs[0])) + ItemCalls(cfg, h, Merged(cfg, ps, vs[1..])) ==
            made + ItemCalls(cfg, h, Merged(cfg, ps, vs))
  {
    hide ItemCalls, Merged, VizCalls;
    TakeViz(cfg, h, ps, vs);
    Associate(made, VizCalls(cfg, vs[0]), ItemCalls(cfg, h, Merged(cfg, ps, vs[1..])));
  }

  lemma NothingMerged(cfg: Config, h: seq<Act>)
    ensures ItemCalls(cfg, h, Merged(cfg, [], [])) == [] && ActsOf(cfg, []) == []
  {
  }

  lemma NothingDone(cfg: Config, h: seq<Act>)
    ensures ActsOf(cfg, []) == [] && CallsAfter(h, []) == []
  {
  }

  lemma OneMoreEvent(cfg: Config, h: seq<Act>, done: seq<PerfEvent>, e: PerfEvent)
    ensures ActsOf(cfg, done + [e]) == ActsOf(cfg, done) + ActionsOf(cfg, e)
    ensures CallsAfter(h, ActsOf(cfg, done + [e])) ==
            CallsAfter(h, ActsOf(cfg, done)) + CallsAfter(h + ActsOf(cfg, done), ActionsOf(cfg, e))
  {
    InitLast(done, e);
    CallsAfterAppend(h, ActsOf(cfg, done), ActionsOf(cfg, e));
  }

  // ---- the flush ----

  function FlushThread(cfg: Config, h: seq<Act>, t: int): seq<Call> {
    var s := StateAfter(h, t).sched;
    if cfg.includeSched && cfg.lastPerfTs != 0 && s.Some? && cfg.PassesThread(t)
    then ClosingSpan(s.value, t, cfg.TgidFor(t), cfg.lastPerfTs)
    else []
  }

  function FlushCalls(cfg: Config, h: seq<Act>, order: seq<int>): seq<Call> {
    if order == [] then [] else FlushCalls(cfg, h, Init(order)) + FlushThread(cfg, h, Last(order))
  }

  /** `order` names the threads with a scheduler state, each once. */
  ghost predicate Lists(order: seq<int>, h: seq<Act>) {
    && (forall i, j :: 0 <= i < j < |order| ==> order[i] != order[j])
    && forall t :: t in order <==> StateAfter(h, t).sched.Some?
  }

  lemma FlushNone(cfg: Config, h: seq<Act>)
    ensures FlushCalls(cfg, h, []) == []
  {
  }

  lemma FlushSnoc(cfg: Config, h: seq<Act>, order: seq<int>, t: int)
    ensures FlushCalls(cfg, h, order + [t]) == FlushCalls(cfg, h, order) + FlushThread(cfg, h, t)
  {
    InitLast(order, t);
  }

  /** Some order in which to name the threads of `keys`. */
  lemma SomeOrder(keys: set<int>) returns (order: seq<int>)
    ensures forall i, j :: 0 <= i < j < |order| ==> order[i] != order[j]
    ensures forall t :: t in order <==> t in keys
  {
    if keys == {} {
      order := [];
    } else {
      NotEmpty(keys);
      var t :| t in keys;
      order := SomeOrder(keys - {t});
      order := order + [t];
    }
  }

  lemma {:induction false} NothingToFlush(cfg: Config, h: seq<Act>, order: seq<int>)
    requires !cfg.includeSched || cfg.lastPerfTs == 0
    ensures FlushCalls(cfg, h, order) == []
  {
    if order != [] {
      NothingToFlush(cfg, h, Init(order));
    }
  }

  // ---- cursors ----

  /** An event source read one event at a time. */
  class Cursor<T> {
    const events: seq<T>
    var pos: nat

    constructor (events: seq<T>)
      ensures this.events == events && pos == 0
    {
      this.events, pos := events, 0;
    }

    ghost function Rest(): seq<T>
      reads this
    {
      if pos <= |events| then events[pos..] else []
    }

    predicate HasNext()
      reads this
      ensures HasNext() <==> Rest() != []
    {
      pos < |events|
    }

    function Peek(): T
      requires HasNext()
      reads this
      ensures Peek() == Rest()[0]
    {
      events[pos]
    }

    method Advance()
      requires HasNext()
      modifies this
      ensures Rest() == old(Rest())[1..]
    {
      pos := pos + 1;
    }
  }

  lemma EnterMeans(s: ThreadState, a: Act)
    requires a.op.Enter?
    ensures a.op.api in s.gpuOpen ==> NextState(s, a) == s && ActCalls(s, a) == []
    ensures a.op.api !in s.gpuOpen ==>
              && NextState(s, a) == s.(gpuOpen := s.gpuOpen + {a.op.api})
              && ActCalls(s, a) == [Begin(ApiSpan(a.op.api), ApiCategory(a.op.api), Us(a.ts), a.pid,
                                          a.tid + GPU_TID_OFFSET)]
  {
    if a.op.api in s.gpuOpen {
      assert s.gpuOpen + {a.op.api} == s.gpuOpen;
    }
  }

  class MergeEngine {
    const cfg: Config
    const perfIter: Cursor?<PerfEvent>
    var schedState: map<int, SchedState>
    var gilStart: map<int, u64>
    var gilHeld: map<int, u64>
    var gpuOpen: map<int, set<Api>>
    var perfWritten: nat
    var vizWritten: nat
    var log: seq<Call>
    ghost var acts: seq<Act>  // every act performed so far

    ghost function Thread(t: int): ThreadState
      reads this
    {
      ThreadState(
        if t in schedState then Some(schedState[t]) else None,
        if t in gilStart then Some(gilStart[t]) else None,
        if t in gilHeld then Some(gilHeld[t]) else None,
        if t in gpuOpen then gpuOpen[t] else {})
    }

    /** The state maps hold what the history makes of every thread. */
    ghost predicate Valid()
      reads this
    {
      forall t :: Thread(t) == StateAfter(acts, t)
    }

    constructor (cfg: Config, perfIter: Cursor?<PerfEvent>)
      ensures Valid() && acts == [] && log == []
      ensures this.cfg == cfg && this.perfIter == perfIter
    {
      this.cfg, this.perfIter := cfg, perfIter;
      schedState, gilStart, gilHeld, gpuOpen := map[], map[], map[], map[];
      perfWritten, vizWritten, log, acts := 0, 0, [], [];
    }

    /** One act has been performed: its thread has moved, the others have not, and its
        calls have been written. */
    twostate predicate Performed(a: Act)
      reads this
    {
      && acts == old(acts) + [a]
      && (forall t :: Thread(t) == if t == a.tid then NextState(old(Thread(t)), a) else old(Thread(t)))
      && log == old(log) + ActCalls(old(Thread(a.tid)), a)
      && perfWritten == old(perfWritten) + |ActCalls(old(Thread(a.tid)), a)|
      && vizWritten == old(vizWritten)
    }

    method Write(c: Call)
      modifies this`log, this`perfWritten
      ensures log == old(log) + [c] && perfWritten == old(perfWritten) + 1
    {
      log, perfWritten := log + [c], perfWritten + 1;
    }

    /** Write the span that ends at `now`, if it has a length. */
    method CloseSpan(s: SchedState, tid: int, pid: int, now: u64)
      modifies this`log, this`perfWritten
      ensures log == old(log) + ClosingSpan(s, tid, pid, now)
      ensures perfWritten == old(perfWritten) + |ClosingSpan(s, tid, pid, now)|
    {
      var startUs := Us(s.last);
      var durUs := Us(now) - startUs;
      if durUs > 0.0 {
        if s.onCpu {
          Write(Complete(OnCpu, "sched", startUs, durUs, pid, tid + SCHED_TID_OFFSET, CpuArg(s.cpu)));
        } else {
          Write(Complete(OffCpu(PrevStateName(s.reason)), "sched.off-cpu", startUs, durUs, pid,
                         tid + SCHED_TID_OFFSET, ReasonArg(PrevStateName(s.reason))));
        }
      }
    }

    method SwitchOutThread(tid: int, pid: int, ts: u64, prevState: int, cpu: int)
      modifies this`schedState, this`log, this`perfWritten, this`acts
      ensures Performed(Act(tid, pid, ts, SwitchOut(prevState, cpu)))
    {
      acts := acts + [Act(tid, pid, ts, SwitchOut(prevState, cpu))];
      if tid in schedState && schedState[tid].onCpu {
        CloseSpan(schedState[tid], tid, pid, ts);
      }
      schedState := schedState[tid := SchedState(ts, false, prevState, cpu)];
    }

    method SwitchInThread(tid: int, pid: int, ts: u64, cpu: int)
      modifies this`schedState, this`log, this`perfWritten, this`acts
      ensures Performed(Act(tid, pid, ts, SwitchIn(cpu)))
    {
      acts := acts + [Act(tid, pid, ts, SwitchIn(cpu))];
      if tid in schedState && !schedState[tid].onCpu {
        CloseSpan(schedState[tid], tid, pid, ts);
      }
      schedState := schedState[tid := SchedState(ts, true, 0, cpu)];
    }

    method WakeThread(tid: int, pid: int, ts: u64, cpu: int)
      modifies this`schedState, this`log, this`perfWritten, this`acts
      ensures Performed(Act(tid, pid, ts, Wakeup(cpu)))
    {
      acts := acts + [Act(tid, pid, ts, Wakeup(cpu))];
      if tid in schedState && !schedState[tid].onCpu {
        CloseSpan(schedState[tid], tid, pid, ts);
        schedState := schedState[tid := SchedState(ts, true, 0, cpu)];
      }
      Write(Instant(WakeupMark, "sched", Us(ts), pid, tid + SCHED_TID_OFFSET, TargetArg(tid)));
    }

    method TickThread(tid: int, pid: int, ts: u64, cpu: int)
      modifies this`schedState, this`log, this`perfWritten, this`acts
      ensures Performed(Act(tid, pid, ts, Tick(cpu)))
    {
      acts := acts + [Act(tid, pid, ts, Tick(cpu))];
      if tid !in schedState {
        schedState := schedState[tid := SchedState(ts, true, 0, cpu)];
      } else if !schedState[tid].onCpu {
        var gapNs := SubU64(ts, schedState[tid].last);
        if gapNs > ECHO_GAP_NS {
          CloseSpan(schedState[tid], tid, pid, ts);
          schedState := schedState[tid := SchedState(ts, true, 0, cpu)];
        }
      }
    }

    method ForkThread(tid: int, pid: int, ts: u64, childPid: int, childTid: int)
      modifies this`log, this`perfWritten, this`acts
      ensures Performed(Act(tid, pid, ts, Fork(childPid, childTid)))
    {
      acts := acts + [Act(tid, pid, ts, Fork(childPid, childTid))];
      Write(Instant(ForkMark, "sched", Us(ts), pid, tid + SCHED_TID_OFFSET, ForkArg(childPid, childTid)));
    }

    method TakeGilOn(tid: int, pid: int, ts: u64)
      modifies this`gilStart, this`log, this`perfWritten, this`acts
      ensures Performed(Act(tid, pid, ts, Take))
    {
      acts := acts + [Act(tid, pid, ts, Take)];
      if tid in gilStart {
        return;
      }
      gilStart := gilStart[tid := ts];
      Write(Begin(GilAcquire, "gil", Us(ts), pid, tid + GIL_TID_OFFSET));
    }

    method ReturnGilOn(tid: int, pid: int, ts: u64)
      modifies this`gilStart, this`gilHeld, this`log, this`perfWritten, this`acts
      ensures Performed(Act(tid, pid, ts, TakeReturn))
    {
      acts := acts + [Act(tid, pid, ts, TakeReturn)];
      if tid !in gilStart {
        return;
      }
      Write(End(GilAcquire, "gil", Us(ts), pid, tid + GIL_TID_OFFSET));
      gilStart := gilStart - {tid};
      gilHeld := gilHeld[tid := ts];
      Write(Begin(GilHeld, "gil", Us(ts), pid, tid + GIL_TID_OFFSET));
    }

    method DropGilOn(tid: int, pid: int, ts: u64)
      modifies this`gilHeld, this`log, this`perfWritten, this`acts
      ensures Performed(Act(tid, pid, ts, Drop))
    {
      acts := acts + [Act(tid, pid, ts, Drop)];
      if tid in gilHeld {
        Write(End(GilHeld, "gil", Us(ts), pid, tid + GIL_TID_OFFSET));
        gilHeld := gilHeld - {tid};
      }
    }

    method EnterApiOn(tid: int, pid: int, ts: u64, api: Api)
      modifies this`gpuOpen, this`log, this`perfWritten, this`acts
      ensures Performed(Act(tid, pid, ts, Enter(api)))
    {
      EnterMeans(Thread(tid), Act(tid, pid, ts, Enter(api)));
      hide ActCalls, NextState, ApiCategory;
      acts := acts + [Act(tid, pid, ts, Enter(api))];
      if tid !in gpuOpen {
        gpuOpen := gpuOpen[tid := {}];
      }
      if api in gpuOpen[tid] {
        return;
      }
      gpuOpen := gpuOpen[tid := gpuOpen[tid] + {api}];
      Write(Begin(ApiSpan(api), ApiCategory(api), Us(ts), pid, tid + GPU_TID_OFFSET));
    }

    method LeaveApiOn(tid: int, pid: int, ts: u64, api: Api)
      modifies this`gpuOpen, this`log, this`perfWritten, this`acts
      ensures Performed(Act(tid, pid, ts, Leave(api)))
    {
      acts := acts + [Act(tid, pid, ts, Leave(api))];
      if tid !in gpuOpen || api !in gpuOpen[tid] {
        assert Thread(tid).gpuOpen - {api} == Thread(tid).gpuOpen;
        return;
      }
      gpuOpen := gpuOpen[tid := gpuOpen[tid] - {api}];
      Write(End(ApiSpan(api), ApiCategory(api), Us(ts), pid, tid + GPU_TID_OFFSET));
    }

    /** What performing a list of acts does to a valid engine. */
    twostate predicate PerformedAll(more: seq<Act>)
      reads this
    {
      && acts == old(acts) + more
      && log == old(log) + CallsAfter(old(acts), more)
      && perfWritten == old(perfWritten) + |CallsAfter(old(acts), more)|
      && vizWritten == old(vizWritten)
    }

    twostate lemma OneAct(a: Act)
      requires old(Valid()) && Performed(a)
      ensures Valid() && PerformedAll([a])
    {
      forall t
        ensures Thread(t) == StateAfter(acts, t)
      {
        Snoc(old(acts), a, t);
      }
      assert Init([a]) == [] && old(acts) + [] == old(acts);
    }

    method EmitPerfEvent(e: PerfEvent)
      requires Valid()
      modifies this
      ensures Valid() && PerformedAll(ActionsOf(cfg, e))
    {
      NothingDone(cfg, acts);
      hide ActCalls, NextState, StateAfter, CallsAfter;
      var ts := e.timestampNs;
      if !cfg.PassesTime(Us(ts)) {
        return;
      }
      match e.kind
      case SchedSwitch(prev, next, prevState) =>
        EmitSwitch(e);
      case SchedWakeup(target) =>
        if cfg.includeSched && target != 0 && cfg.PassesThread(target) {
          WakeThread(target, cfg.TgidFor(target), ts, e.cpu);
          OneAct(Act(target, cfg.TgidFor(target), ts, Wakeup(e.cpu)));
        }
      case SchedFork(childPid, childTid) =>
        if cfg.includeSched && cfg.PassesThread(e.tid) {
          ForkThread(e.tid, cfg.TgidFor(e.tid), ts, childPid, childTid);
          OneAct(Act(e.tid, cfg.TgidFor(e.tid), ts, Fork(childPid, childTid)));
        }
      case TakeGil =>
        if cfg.includeGil && cfg.PassesFilter(e.pid) && cfg.nameOk(e.tid) {
          TakeGilOn(e.tid, e.pid, ts);
          OneAct(Act(e.tid, e.pid, ts, Take));
        }
      case TakeGilReturn =>
        if cfg.includeGil && cfg.PassesFilter(e.pid) && cfg.nameOk(e.tid) {
          ReturnGilOn(e.tid, e.pid, ts);
          OneAct(Act(e.tid, e.pid, ts, TakeReturn));
        }
      case DropGil =>
        if cfg.includeGil && cfg.PassesFilter(e.pid) && cfg.nameOk(e.tid) {
          DropGilOn(e.tid, e.pid, ts);
          OneAct(Act(e.tid, e.pid, ts, Drop));
        }
      case ApiEntry(api) =>
        if cfg.includeGpu && cfg.PassesThread(e.tid) {
          EnterApiOn(e.tid, cfg.TgidFor(e.tid), ts, api);
          OneAct(Act(e.tid, cfg.TgidFor(e.tid), ts, Enter(api)));
        }
      case ApiReturn(api) =>
        if cfg.includeGpu && cfg.PassesThread(e.tid) {
          LeaveApiOn(e.tid, cfg.TgidFor(e.tid), ts, api);
          OneAct(Act(e.tid, cfg.TgidFor(e.tid), ts, Leave(api)));
        }
      case ContextSwitch =>
        if cfg.includeSched && cfg.PassesThread(e.tid) {
          TickThread(e.tid, cfg.TgidFor(e.tid), ts, e.cpu);
          OneAct(Act(e.tid, cfg.TgidFor(e.tid), ts, Tick(e.cpu)));
        }
      case SchedStatRuntime =>
        if cfg.includeSched && cfg.PassesThread(e.tid) {
          TickThread(e.tid, cfg.TgidFor(e.tid), ts, e.cpu);
          OneAct(Act(e.tid, cfg.TgidFor(e.tid), ts, Tick(e.cpu)));
        }
      case Comm =>
      case Other =>
    }

    /** The context-switch arm: the thread going out first, then the one coming in. */
    method EmitSwitch(e: PerfEvent)
      requires Valid() && e.kind.SchedSwitch? && cfg.PassesTime(Us(e.timestampNs))
      modifies this
      ensures Valid() && PerformedAll(ActionsOf(cfg, e))
    {
      var prev, next := e.kind.prevTid, e.kind.nextTid;
      if !cfg.includeSched {
        return;
      }
      ghost var h, first := acts, [];
      if cfg.PassesThread(prev) {
        SwitchOutThread(prev, cfg.TgidFor(prev), e.timestampNs, e.kind.prevState, e.cpu);
        OneAct(Act(prev, cfg.TgidFor(prev), e.timestampNs, SwitchOut(e.kind.prevState, e.cpu)));
        first := [Act(prev, cfg.TgidFor(prev), e.timestampNs, SwitchOut(e.kind.prevState, e.cpu))];
      }
      label Second:
      if cfg.PassesThread(next) && next in cfg.tidToTgid {
        SwitchInThread(next, cfg.TgidFor(next), e.timestampNs, e.cpu);
        ghost var a := Act(next, cfg.TgidFor(next), e.timestampNs, SwitchIn(e.cpu));
        OneAct@Second(a);
        assert Init(first + [a]) == first && Last(first + [a]) == a;
        assert CallsAfter(h, first + [a]) == CallsAfter(h, first) + ActCalls(StateAfter(h + first, a.tid), a);
      }
    }

    /** Close the open scheduler spans, in whatever order the table yields them. */
    method FlushSchedState() returns (ghost order: seq<int>)
      requires Valid()
      modifies this`log, this`perfWritten
      ensures Valid() && Lists(order, acts)
      ensures log == old(log) + FlushCalls(cfg, acts, order)
    {
      FlushNone(cfg, acts);
      hide FlushCalls, ClosingSpan;
      assert forall t :: t in schedState.Keys <==> Thread(t).sched.Some?;
      if !cfg.includeSched || cfg.lastPerfTs == 0 {
        order := SomeOrder(schedState.Keys);
        NothingToFlush(cfg, acts, order);
        return;
      }
      order := [];
      var todo := schedState.Keys;
      while todo != {}
        invariant todo <= schedState.Keys && Valid()
        invariant forall i, j :: 0 <= i < j < |order| ==> order[i] != order[j]
        invariant forall t :: t in order <==> t in schedState.Keys && t !in todo
        invariant log == old(log) + FlushCalls(cfg, acts, order)
        decreases todo
      {
        NotEmpty(todo);
        var t :| t in todo;
        assert Thread(t) == StateAfter(acts, t);
        FlushSnoc(cfg, acts, order, t);
        if cfg.PassesThread(t) {
          CloseSpan(schedState[t], t, cfg.TgidFor(t), cfg.lastPerfTs);
        }
        order := order + [t];
        todo := todo - {t};
      }
    }

    method EmitVizEvent(v: VizEvent)
      modifies this`log, this`vizWritten
      ensures log == old(log) + VizCalls(cfg, v)
      ensures vizWritten == old(vizWritten) + |VizCalls(cfg, v)|
      ensures old(Valid()) ==> Valid()
    {
      var ts := cfg.AlignViz(v.tsUs);
      if cfg.PassesFilter(ToInt32(v.pid)) && cfg.nameOk(ToInt32(v.tid)) && cfg.PassesTime(ts) &&
         (v.ph != 'X' || v.durUs >= cfg.minDurationUs) {
        var args := if v.args == "" then "{}" else v.args;
        var cat := if v.cat == "" then "python" else v.cat;
        log := log + [Viz(v.ph, Text(v.name), cat, ts, v.durUs, v.pid, v.tid, Json(args))];
        vizWritten := vizWritten + 1;
      }
    }

    method WriteMetadata()
      modifies this`log
      ensures log == old(log) + cfg.metadata
      ensures old(Valid()) ==> Valid()
    {
      log := log + cfg.metadata;
    }

    function PerfSource(): set<object> {
      if perfIter == null then {} else {perfIter}
    }

    ghost function PerfRest(): seq<PerfEvent>
      reads PerfSource()
    {
      if perfIter == null then [] else perfIter.Rest()
    }

    /** Emit the next perf event and move past it. */
    method TakePerfEvent()
      requires Valid() && perfIter != null && perfIter.HasNext()
      modifies this, PerfSource()
      ensures Valid() && PerfRest() == old(PerfRest())[1..]
      ensures acts == old(acts) + ActionsOf(cfg, old(PerfRest())[0])
      ensures log == old(log) + CallsAfter(old(acts), ActionsOf(cfg, old(PerfRest())[0]))
    {
      hide ActionsOf, CallsAfter, Valid;
      EmitPerfEvent(perfIter.Peek());
      perfIter.Advance();
    }

    /** Merge with a Python stream that is pulled event by event. */
    method MergeVizStream(viz: Cursor<VizEvent>) returns (ghost order: seq<int>)
      requires Valid()
      modifies this, viz, PerfSource()
      ensures Valid() && acts == old(acts) + ActsOf(cfg, old(PerfRest()))
      ensures Lists(order, acts)
      ensures log == old(log) + cfg.metadata +
                     ItemCalls(cfg, old(acts), Merged(cfg, old(PerfRest()), old(viz.Rest()))) +
                     FlushCalls(cfg, acts, order)
    {
      hide ItemCalls, Merged, ActsOf, ActionsOf, CallsAfter, VizCalls, FlushCalls, Lists, Valid;
      ghost var h, ps, vs, made := acts, PerfRest(), viz.Rest(), [];
      ghost var allActs, allCalls := h + ActsOf(cfg, ps), ItemCalls(cfg, h, Merged(cfg, ps, vs));
      WriteMetadata();
      ghost var start := log;
      while (perfIter != null && perfIter.HasNext()) || viz.HasNext()
        invariant Valid() && h == acts && ps == PerfRest() && vs == viz.Rest()
        invariant log == start + made
        invariant h + ActsOf(cfg, ps) == allActs
        invariant made + ItemCalls(cfg, h, Merged(cfg, ps, vs)) == allCalls
        decreases |ps| + |vs|
      {
        var emitPerf;
        if perfIter == null || !perfIter.HasNext() {
          emitPerf := false;
        } else if !viz.HasNext() {
          emitPerf := true;
        } else {
          emitPerf := Us(perfIter.Peek().timestampNs) <= cfg.AlignViz(viz.Peek().tsUs);
        }
        if emitPerf {
          MadeByPerf(cfg, h, ps, vs, made);
          ghost var more := ActionsOf(cfg, ps[0]);
          made := made + CallsAfter(h, more);
          TakePerfEvent();
          h, ps := h + more, ps[1..];
        } else {
          MadeByViz(cfg, h, ps, vs, made);
          made := made + VizCalls(cfg, vs[0]);
          EmitVizEvent(viz.Peek());
          viz.Advance();
          vs := vs[1..];
        }
      }
      NothingMerged(cfg, h);
      order := FlushSchedState();
    }

    /** Merge with Python events that are all in memory. */
    method MergeVizVector(vizEvents: seq<VizEvent>) returns (ghost order: seq<int>)
      requires Valid()
      modifies this, PerfSource()
      ensures Valid() && acts == old(acts) + ActsOf(cfg, old(PerfRest()))
      ensures Lists(order, acts)
      ensures log == old(log) + cfg.metadata +
                     ItemCalls(cfg, old(acts), Merged(cfg, old(PerfRest()), vizEvents)) +
                     FlushCalls(cfg, acts, order)
    {
      hide ItemCalls, Merged, ActsOf, ActionsOf, CallsAfter, VizCalls, FlushCalls, Lists, Valid;
      ghost var h, ps, vs, made := acts, PerfRest(), vizEvents, [];
      ghost var allActs, allCalls := h + ActsOf(cfg, ps), ItemCalls(cfg, h, Merged(cfg, ps, vs));
      WriteMetadata();
      ghost var start := log;
      var vi := 0;
      while (perfIter != null && perfIter.HasNext()) || vi < |vizEvents|
        invariant Valid() && h == acts && ps == PerfRest() && vi <= |vizEvents| && vs == vizEvents[vi..]
        invariant log == start + made
        invariant h + ActsOf(cfg, ps) == allActs
        invariant made + ItemCalls(cfg, h, Merged(cfg, ps, vs)) == allCalls
        decreases |ps| + |vs|
      {
        var emitPerf;
        if perfIter == null || !perfIter.HasNext() {
          emitPerf := false;
        } else if vi >= |vizEvents| {
          emitPerf := true;
        } else {
          emitPerf := Us(perfIter.Peek().timestampNs) <= cfg.AlignViz(vizEvents[vi].tsUs);
        }
        if emitPerf {
          MadeByPerf(cfg, h, ps, vs, made);
          ghost var more := ActionsOf(cfg, ps[0]);
          made := made + CallsAfter(h, more);
          TakePerfEvent();
          h, ps := h + more, ps[1..];
        } else {
          assert vs[0] == vizEvents[vi] && vs[1..] == vizEvents[vi + 1..];
          MadeByViz(cfg, h, ps, vs, made);
          made := made + VizCalls(cfg, vs[0]);
          EmitVizEvent(vizEvents[vi]);
          vi := vi + 1;
          vs := vizEvents[vi..];
        }
      }
      NothingMerged(cfg, h);
      order := FlushSchedState();
    }

    method WritePerfOnly() returns (ghost order: seq<int>)
      requires Valid()
      modifies this, PerfSource()
      ensures Valid() && acts == old(acts) + ActsOf(cfg, old(PerfRest()))
      ensures Lists(order, acts)
      ensures log == old(log) + cfg.metadata + CallsAfter(old(acts), ActsOf(cfg, old(PerfRest()))) +
                     FlushCalls(cfg, acts, order)
    {
      hide ActsOf, ActionsOf, CallsAfter, FlushCalls, Lists;
      ghost var h, all, ps, done: seq<PerfEvent> := acts, PerfRest(), PerfRest(), [];
      WriteMetadata();
      ghost var start := log;
      NothingDone(cfg, h);
      if perfIter != null {
        while perfIter.HasNext()
          invariant Valid() && ps == PerfRest() && done + ps == all
          invariant acts == h + ActsOf(cfg, done)
          invariant log == start + CallsAfter(h, ActsOf(cfg, done))
          decreases |ps|
        {
          ghost var e := ps[0];
          OneMoreEvent(cfg, h, done, e);
          Associate(start, CallsAfter(h, ActsOf(cfg, done)), CallsAfter(h + ActsOf(cfg, done), ActionsOf(cfg, e)));
          Associate(h, ActsOf(cfg, done), ActionsOf(cfg, e));
          Shift(done, ps);
          TakePerfEvent();
          done, ps := done + [e], ps[1..];
        }
      }
      assert ps == [] && done == all;
      order := FlushSchedState();
    }

    method WriteVizOnlyStream(viz: Cursor<VizEvent>)
      modifies this`log, this`vizWritten, viz
      ensures log == old(log) + cfg.metadata + AllVizCalls(cfg, old(viz.Rest()))
    {
      NoVizYet(cfg);
      hide AllVizCalls, VizCalls;
      WriteMetadata();
      ghost var start, all, vs, done: seq<VizEvent> := log, viz.Rest(), viz.Rest(), [];
      while viz.HasNext()
        invariant vs == viz.Rest() && done + vs == all
        invariant log == start + AllVizCalls(cfg, done)
        decreases |vs|
      {
        OneMoreViz(cfg, done, vs[0]);
        Associate(start, AllVizCalls(cfg, done), VizCalls(cfg, vs[0]));
        Shift(done, vs);
        EmitVizEvent(viz.Peek());
        viz.Advance();
        done, vs := done + [vs[0]], vs[1..];
      }
      assert vs == [] && done == all;
    }

    /** The in-memory variant does not name tracks. */
    method WriteVizOnlyVector(vizEvents: seq<VizEvent>)
      modifies this`log, this`vizWritten
      ensures log == old(log) + AllVizCalls(cfg, vizEvents)
    {
      for i := 0 to |vizEvents|
        invariant log == old(log) + AllVizCalls(cfg, vizEvents[..i])
      {
        assert vizEvents[..i + 1] == vizEvents[..i] + [vizEvents[i]];
        OneMoreViz(cfg, vizEvents[..i], vizEvents[i]);
        EmitVizEvent(vizEvents[i]);
      }
      assert vizEvents[..|vizEvents|] == vizEvents;
    }
  }
}
