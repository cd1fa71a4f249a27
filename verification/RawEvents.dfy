/** What a stream of perf events draws, said of the events themselves: when each kind
    opens, closes or marks something on the tracks of the thread it names. */
module RawEvents {
  import opened Seqs
  import opened Events
  import opened Output
  import opened ThreadMachines
  import opened MergeEngine
  import BracketTracks
  import WholeRuns

  // ---- which events get through ----

  predicate InBounds(cfg: Config, ns: u64) {
    && (cfg.timeStartUs >= 0.0 ==> cfg.timeStartUs <= Us(ns))
    && (cfg.timeEndUs >= 0.0 ==> if cfg.timeEndExclusive then Us(ns) < cfg.timeEndUs else Us(ns) <= cfg.timeEndUs)
  }

  function ProcessOf(cfg: Config, tid: int): int {
    if tid in cfg.tidToTgid then cfg.tidToTgid[tid] else tid
  }

  predicate Wanted(cfg: Config, pid: int, tid: int) {
    (cfg.filterPid >= 0 ==> pid == cfg.filterPid) && cfg.nameOk(tid)
  }

  /** A GIL event is filtered by its own process, all others by the thread's. */
  predicate GilShown(cfg: Config, e: PerfEvent) {
    cfg.includeGil && InBounds(cfg, e.timestampNs) && Wanted(cfg, e.pid, e.tid)
  }

  predicate ApiShown(cfg: Config, e: PerfEvent) {
    cfg.includeGpu && InBounds(cfg, e.timestampNs) && Wanted(cfg, ProcessOf(cfg, e.tid), e.tid)
  }

  predicate SchedShown(cfg: Config, e: PerfEvent, t: int) {
    cfg.includeSched && InBounds(cfg, e.timestampNs) && Wanted(cfg, ProcessOf(cfg, t), t)
  }

  // ---- what is open after a stream ----

  /** The events of one kind that get through on thread `t`. */
  function GilOn(cfg: Config, kind: PerfKind, t: int): PerfEvent -> bool {
    (e: PerfEvent) => e.kind == kind && e.tid == t && GilShown(cfg, e)
  }

  function CallOn(cfg: Config, kind: PerfKind, t: int): PerfEvent -> bool {
    (e: PerfEvent) => e.kind == kind && e.tid == t && ApiShown(cfg, e)
  }

  /** Something has opened, and nothing closed since. */
  ghost predicate OpenSince(opens: PerfEvent -> bool, closes: PerfEvent -> bool, es: seq<PerfEvent>) {
    exists j :: 0 <= j < |es| && opens(es[j]) && forall k :: j < k < |es| ==> !closes(es[k])
  }

  /** A take has got through on thread `t`, and no return of a take since. */
  ghost predicate Acquiring(cfg: Config, es: seq<PerfEvent>, t: int) {
    OpenSince(GilOn(cfg, TakeGil, t), GilOn(cfg, TakeGilReturn, t), es)
  }

  /** A take has returned on thread `t`, and no drop has got through since. */
  ghost predicate Holding(cfg: Config, es: seq<PerfEvent>, t: int) {
    exists j ::
      && 0 <= j < |es| && GilOn(cfg, TakeGilReturn, t)(es[j]) && Acquiring(cfg, es[..j], t)
      && forall k :: j < k < |es| ==> !GilOn(cfg, DropGil, t)(es[k])
  }

  /** Thread `t` has entered the function, and not returned from it since. */
  ghost predicate Calling(cfg: Config, es: seq<PerfEvent>, t: int, api: Api) {
    OpenSince(CallOn(cfg, ApiEntry(api), t), CallOn(cfg, ApiReturn(api), t), es)
  }

  /** After this event thread `t` is off: it was switched out, and not for itself. */
  predicate LeavesOff(cfg: Config, x: PerfEvent, t: int) {
    x.kind.SchedSwitch? && x.kind.prevTid == t && !(x.kind.nextTid == t && t in cfg.tidToTgid)
  }

  /** The time from `a` to `b` as the unsigned number that the source makes of it. */
  function Gap(a: u64, b: u64): int {
    if a <= b then b - a else b - a + 0x1_0000_0000_0000_0000
  }

  /** The event changes whether thread `t` runs, or since when: a switch always does; a
      wakeup wakes a thread that is off; a sample shows that a thread is on of which
      nothing was known, or that has been off for more than 10 microseconds. */
  predicate Changes(cfg: Config, last: Option<PerfEvent>, e: PerfEvent, t: int) {
    SchedShown(cfg, e, t) &&
    match e.kind
    case SchedSwitch(prev, next, _) => prev == t || (next == t && t in cfg.tidToTgid)
    case SchedWakeup(target) => target == t != 0 && last.Some? && LeavesOff(cfg, last.value, t)
    case ContextSwitch => e.tid == t && ShowsRunning(cfg, last, e, t)
    case SchedStatRuntime => e.tid == t && ShowsRunning(cfg, last, e, t)
    case _ => false
  }

  predicate ShowsRunning(cfg: Config, last: Option<PerfEvent>, e: PerfEvent, t: int) {
    last.Some? ==> LeavesOff(cfg, last.value, t) && Gap(last.value.timestampNs, e.timestampNs) > 10_000
  }

  /** The event that changed it last. */
  function LastChange(cfg: Config, es: seq<PerfEvent>, t: int): Option<PerfEvent> {
    if es == [] then None
    else if Changes(cfg, LastChange(cfg, Init(es), t), Last(es), t) then Some(Last(es))
    else LastChange(cfg, Init(es), t)
  }

  // ---- what an event draws ----

  /** The span of thread `t` from its last change, at `x`, to `now`, if it lasts. */
  function SpanSince(cfg: Config, x: PerfEvent, t: int, now: u64): seq<Call> {
    if now <= x.timestampNs then []
    else if LeavesOff(cfg, x, t) then
      [Complete(OffCpu(PrevStateName(x.kind.prevState)), "sched.off-cpu", Us(x.timestampNs),
                Us(now) - Us(x.timestampNs), ProcessOf(cfg, t), t + SCHED_TID_OFFSET,
                ReasonArg(PrevStateName(x.kind.prevState)))]
    else
      [Complete(OnCpu, "sched", Us(x.timestampNs), Us(now) - Us(x.timestampNs), ProcessOf(cfg, t),
                t + SCHED_TID_OFFSET, CpuArg(x.cpu))]
  }

  /** The off-cpu span that ends when thread `t` is seen to run. */
  function SpanAsleep(cfg: Config, last: Option<PerfEvent>, t: int, now: u64): seq<Call> {
    if last.Some? && LeavesOff(cfg, last.value, t) then SpanSince(cfg, last.value, t, now) else []
  }

  /** The on-cpu span that ends when it is switched out. */
  function SpanAwake(cfg: Config, last: Option<PerfEvent>, t: int, now: u64): seq<Call> {
    if last.Some? && !LeavesOff(cfg, last.value, t) then SpanSince(cfg, last.value, t, now) else []
  }

  /** What event `e` draws after the stream `es`. */
  ghost function Marks(cfg: Config, es: seq<PerfEvent>, e: PerfEvent): seq<Call> {
    var ns, now, process := e.timestampNs, Us(e.timestampNs), ProcessOf(cfg, e.tid);
    match e.kind
    case TakeGil =>
      if GilShown(cfg, e) && !Acquiring(cfg, es, e.tid)
      then [Begin(GilAcquire, "gil", now, e.pid, e.tid + GIL_TID_OFFSET)] else []
    case TakeGilReturn =>
      if GilShown(cfg, e) && Acquiring(cfg, es, e.tid)
      then [End(GilAcquire, "gil", now, e.pid, e.tid + GIL_TID_OFFSET),
            Begin(GilHeld, "gil", now, e.pid, e.tid + GIL_TID_OFFSET)] else []
    case DropGil =>
      if GilShown(cfg, e) && Holding(cfg, es, e.tid)
      then [End(GilHeld, "gil", now, e.pid, e.tid + GIL_TID_OFFSET)] else []
    case ApiEntry(api) =>
      if ApiShown(cfg, e) && !Calling(cfg, es, e.tid, api)
      then [Begin(ApiSpan(api), ApiCategory(api), now, process, e.tid + GPU_TID_OFFSET)] else []
    case ApiReturn(api) =>
      if ApiShown(cfg, e) && Calling(cfg, es, e.tid, api)
      then [End(ApiSpan(api), ApiCategory(api), now, process, e.tid + GPU_TID_OFFSET)] else []
    case SchedSwitch(prev, next, _) =>
      (if SchedShown(cfg, e, prev) then SpanAwake(cfg, LastChange(cfg, es, prev), prev, ns) else []) +
      (if SchedShown(cfg, e, next) && next != prev && next in cfg.tidToTgid
       then SpanAsleep(cfg, LastChange(cfg, es, next), next, ns) else [])
    case SchedWakeup(target) =>
      if SchedShown(cfg, e, target) && target != 0
      then SpanAsleep(cfg, LastChange(cfg, es, target), target, ns) +
           [Instant(WakeupMark, "sched", now, ProcessOf(cfg, target), target + SCHED_TID_OFFSET, TargetArg(target))]
      else []
    case SchedFork(childPid, childTid) =>
      if SchedShown(cfg, e, e.tid)
      then [Instant(ForkMark, "sched", now, process, e.tid + SCHED_TID_OFFSET, ForkArg(childPid, childTid))] else []
    case ContextSwitch => SampleMarks(cfg, es, e)
    case SchedStatRuntime => SampleMarks(cfg, es, e)
    case Comm => []
    case Other => []
  }

  function SampleMarks(cfg: Config, es: seq<PerfEvent>, e: PerfEvent): seq<Call> {
    var last := LastChange(cfg, es, e.tid);
    if SchedShown(cfg, e, e.tid) && ShowsRunning(cfg, last, e, e.tid)
    then SpanAsleep(cfg, last, e.tid, e.timestampNs) else []
  }

  /** What the stream draws, before the flush. */
  ghost function Drawn(cfg: Config, es: seq<PerfEvent>): seq<Call> {
    if es == [] then [] else Drawn(cfg, Init(es)) + Marks(cfg, Init(es), Last(es))
  }

  /** What the flush draws for one thread: its span up to the stream's last time. */
  function FlushMark(cfg: Config, es: seq<PerfEvent>, t: int): seq<Call> {
    var last := LastChange(cfg, es, t);
    if cfg.lastPerfTs != 0 && last.Some? then SpanSince(cfg, last.value, t, cfg.lastPerfTs) else []
  }

  function Flushed(cfg: Config, es: seq<PerfEvent>, order: seq<int>): seq<Call> {
    if order == [] then [] else Flushed(cfg, es, Init(order)) + FlushMark(cfg, es, Last(order))
  }

  /** `order` names the threads of which it is known whether they run, each once. */
  ghost predicate ListsKnown(cfg: Config, order: seq<int>, es: seq<PerfEvent>) {
    && (forall i, j :: 0 <= i < j < |order| ==> order[i] != order[j])
    && forall t :: t in order <==> LastChange(cfg, es, t).Some?
  }

  // ---- the machines know what the stream says ----

  /** Thread `t`'s state after performing `more`. */
  function After(s: ThreadState, more: seq<Act>, t: int): ThreadState {
    if more == [] then s
    else
      var before := After(s, Init(more), t);
      if Last(more).tid == t then NextState(before, Last(more)) else before
  }

  lemma {:induction false} StateAfterMore(h: seq<Act>, more: seq<Act>, t: int)
    ensures StateAfter(h + more, t) == After(StateAfter(h, t), more, t)
  {
    hide NextState, ActCalls, CallsOf;
    if more == [] {
      Nil(h);
    } else {
      StateAfterMore(h, Init(more), t);
      assert h + more == (h + Init(more)) + [Last(more)];
      Snoc(h + Init(more), Last(more), t);
    }
  }

  function Recorded(cfg: Config, last: Option<PerfEvent>, t: int): Option<SchedState> {
    if last.None? then None
    else
      var x := last.value;
      if LeavesOff(cfg, x, t) then Some(SchedState(x.timestampNs, false, x.kind.prevState, x.cpu))
      else Some(SchedState(x.timestampNs, true, 0, x.cpu))
  }

  lemma FiltersAgree(cfg: Config, e: PerfEvent, t: int)
    ensures cfg.PassesTime(Us(e.timestampNs)) <==> InBounds(cfg, e.timestampNs)
    ensures cfg.TgidFor(t) == ProcessOf(cfg, t)
    ensures cfg.PassesThread(t) <==> Wanted(cfg, ProcessOf(cfg, t), t)
    ensures cfg.PassesFilter(e.pid) && cfg.nameOk(e.tid) <==> Wanted(cfg, e.pid, e.tid)
  {
  }

  lemma GapAgrees(a: u64, b: u64)
    ensures SubU64(b, a) == Gap(a, b)
  {
  }

  lemma AfterOne(s: ThreadState, a: Act, t: int)
    ensures After(s, [a], t) == if a.tid == t then NextState(s, a) else s
  {
    hide NextState;
    assert Init([a]) == [];
    assert After(s, [], t) == s;
  }

  lemma AfterTwo(s: ThreadState, a: Act, b: Act, t: int)
    ensures After(s, [a] + [b], t) ==
            var s1 := if a.tid == t then NextState(s, a) else s;
            if b.tid == t then NextState(s1, b) else s1
  {
    hide NextState;
    InitLast([a], b);
    AfterOne(s, a, t);
  }

  lemma AfterNone(s: ThreadState, t: int)
    ensures After(s, [], t) == s
  {
  }

  /** A thread's state after one event, said by the one or two acts it performs. */
  lemma AfterEvent(cfg: Config, s: ThreadState, e: PerfEvent, t: int)
    ensures var more := ActionsOf(cfg, e);
            && |more| <= 2
            && (|more| == 0 ==> After(s, more, t) == s)
            && (|more| == 1 ==> After(s, more, t) == if more[0].tid == t then NextState(s, more[0]) else s)
            && (|more| == 2 ==>
                  After(s, more, t) ==
                  var s1 := if more[0].tid == t then NextState(s, more[0]) else s;
                  if more[1].tid == t then NextState(s1, more[1]) else s1)
  {
    var more := ActionsOf(cfg, e);
    hide NextState, After, ActionsOf;
    EventActsFew(cfg, e);
    if |more| == 0 {
      AfterNone(s, t);
    } else if |more| == 1 {
      assert more == [more[0]];
      AfterOne(s, more[0], t);
    } else {
      assert more == [more[0]] + [more[1]];
      AfterTwo(s, more[0], more[1], t);
    }
  }

  lemma EventActsFew(cfg: Config, e: PerfEvent)
    ensures |ActionsOf(cfg, e)| <= 2
    ensures !e.kind.SchedSwitch? ==> |ActionsOf(cfg, e)| <= 1
  {
  }

  lemma SwitchStep(cfg: Config, s: ThreadState, last: Option<PerfEvent>, e: PerfEvent, t: int)
    requires s.sched == Recorded(cfg, last, t) && e.kind.SchedSwitch?
    ensures After(s, ActionsOf(cfg, e), t).sched ==
            Recorded(cfg, if Changes(cfg, last, e, t) then Some(e) else last, t)
  {
    var prev, next := e.kind.prevTid, e.kind.nextTid;
    var out := Act(prev, cfg.TgidFor(prev), e.timestampNs, SwitchOut(e.kind.prevState, e.cpu));
    var in_ := Act(next, cfg.TgidFor(next), e.timestampNs, SwitchIn(e.cpu));
    var a, b := SchedShown(cfg, e, prev), SchedShown(cfg, e, next) && next in cfg.tidToTgid;
    SwitchActs(cfg, e);
    hide ActionsOf, After, SchedShown, Config.TgidFor, NextState;
    AfterNone(s, t);
    AfterOne(s, out, t);
    AfterOne(s, in_, t);
    AfterTwo(s, out, in_, t);
    Nil([out]);
    Nil([in_]);
    MachineSched(s, out);
    MachineSched(s, in_);
    MachineSched(NextState(s, out), in_);
    assert ActionsOf(cfg, e) == if a && b then [out] + [in_] else if a then [out] else if b then [in_] else [];
  }

  lemma SwitchActs(cfg: Config, e: PerfEvent)
    requires e.kind.SchedSwitch?
    ensures var prev, next, ns := e.kind.prevTid, e.kind.nextTid, e.timestampNs;
            ActionsOf(cfg, e) ==
            If(SchedShown(cfg, e, prev), Act(prev, cfg.TgidFor(prev), ns, SwitchOut(e.kind.prevState, e.cpu))) +
            If(SchedShown(cfg, e, next) && next in cfg.tidToTgid, Act(next, cfg.TgidFor(next), ns, SwitchIn(e.cpu)))
  {
    FiltersAgree(cfg, e, e.kind.prevTid);
    FiltersAgree(cfg, e, e.kind.nextTid);
    hide Config.PassesTime, Config.PassesThread, Config.TgidFor, InBounds, Wanted, ProcessOf;
  }

  lemma SchedStep(cfg: Config, s: ThreadState, last: Option<PerfEvent>, e: PerfEvent, t: int)
    requires s.sched == Recorded(cfg, last, t)
    ensures After(s, ActionsOf(cfg, e), t).sched ==
            Recorded(cfg, if Changes(cfg, last, e, t) then Some(e) else last, t)
  {
    if e.kind.SchedSwitch? {
      SwitchStep(cfg, s, last, e, t);
    } else {
      AfterEvent(cfg, s, e, t);
      EventActsFew(cfg, e);
      FiltersAgree(cfg, e, t);
      if last.Some? {
        GapAgrees(last.value.timestampNs, e.timestampNs);
      }
      hide After, Config.PassesTime, Config.PassesThread, Config.TgidFor, InBounds, Wanted, ProcessOf, SubU64, Gap;
    }
  }

  lemma GilStep(cfg: Config, s: ThreadState, e: PerfEvent, t: int)
    ensures var s' := After(s, ActionsOf(cfg, e), t);
            var shown := e.tid == t && GilShown(cfg, e);
            && (s'.gilStart.Some? <==>
                  if shown && e.kind.TakeGil? then true else if shown && e.kind.TakeGilReturn? then false
                  else s.gilStart.Some?)
            && (s'.gilHeld.Some? <==>
                  if shown && e.kind.TakeGilReturn? && s.gilStart.Some? then true
                  else if shown && e.kind.DropGil? then false
                  else s.gilHeld.Some?)
  {
    AfterEvent(cfg, s, e, t);
    FiltersAgree(cfg, e, t);
    hide After, Config.PassesTime, Config.PassesThread, Config.TgidFor, InBounds, Wanted, ProcessOf, NextSched;
  }

  lemma ApiStep(cfg: Config, s: ThreadState, e: PerfEvent, t: int, api: Api)
    ensures var s' := After(s, ActionsOf(cfg, e), t);
            var shown := e.tid == t && ApiShown(cfg, e);
            api in s'.gpuOpen <==>
              if shown && e.kind == ApiEntry(api) then true else if shown && e.kind == ApiReturn(api) then false
              else api in s.gpuOpen
  {
    AfterEvent(cfg, s, e, t);
    FiltersAgree(cfg, e, t);
    hide After, Config.PassesTime, Config.PassesThread, Config.TgidFor, InBounds, Wanted, ProcessOf, NextSched;
  }

  // ---- what is open, one event later ----

  lemma OpenSinceSnoc(opens: PerfEvent -> bool, closes: PerfEvent -> bool, es: seq<PerfEvent>, e: PerfEvent)
    ensures OpenSince(opens, closes, es + [e]) <==> opens(e) || (OpenSince(opens, closes, es) && !closes(e))
  {
    var all := es + [e];
    assert all[|es|] == e && forall i :: 0 <= i < |es| ==> all[i] == es[i];
    if OpenSince(opens, closes, all) && !opens(e) {
      var j :| 0 <= j < |all| && opens(all[j]) && forall k :: j < k < |all| ==> !closes(all[k]);
      assert opens(es[j]) && forall k :: j < k < |es| ==> !closes(all[k]);
      assert !closes(all[|es|]);
    }
    if OpenSince(opens, closes, es) && !closes(e) {
      var j :| 0 <= j < |es| && opens(es[j]) && forall k :: j < k < |es| ==> !closes(es[k]);
      assert opens(all[j]);
    }
  }

  lemma AcquiringSnoc(cfg: Config, es: seq<PerfEvent>, e: PerfEvent, t: int)
    ensures var shown := e.tid == t && GilShown(cfg, e);
            Acquiring(cfg, es + [e], t) <==>
              if shown && e.kind.TakeGil? then true else if shown && e.kind.TakeGilReturn? then false
              else Acquiring(cfg, es, t)
  {
    hide GilShown, OpenSince;
    OpenSinceSnoc(GilOn(cfg, TakeGil, t), GilOn(cfg, TakeGilReturn, t), es, e);
  }

  lemma HoldingSnoc(cfg: Config, es: seq<PerfEvent>, e: PerfEvent, t: int)
    ensures var shown := e.tid == t && GilShown(cfg, e);
            Holding(cfg, es + [e], t) <==>
              if shown && e.kind.TakeGilReturn? && Acquiring(cfg, es, t) then true
              else if shown && e.kind.DropGil? then false
              else Holding(cfg, es, t)
  {
    var all, back, drops := es + [e], GilOn(cfg, TakeGilReturn, t), GilOn(cfg, DropGil, t);
    assert back(e) <==> e.tid == t && GilShown(cfg, e) && e.kind.TakeGilReturn?;
    assert drops(e) <==> e.tid == t && GilShown(cfg, e) && e.kind.DropGil?;
    assert !(back(e) && drops(e));
    hide GilShown, Acquiring, GilOn;
    if Holding(cfg, es, t) && !drops(e) {
      var j :| 0 <= j < |es| && back(es[j]) && Acquiring(cfg, es[..j], t) && forall k :: j < k < |es| ==> !drops(es[k]);
      StillHolding(cfg, es, e, t, j);
    }
    if back(e) && Acquiring(cfg, es, t) {
      assert all[|es|] == e && all[..|es|] == es;
    }
    if Holding(cfg, all, t) && !(back(e) && Acquiring(cfg, es, t)) {
      var j :| 0 <= j < |all| && back(all[j]) && Acquiring(cfg, all[..j], t) &&
               forall k :: j < k < |all| ==> !drops(all[k]);
      HeldBefore(cfg, es, e, t, j);
    }
  }

  lemma StillHolding(cfg: Config, es: seq<PerfEvent>, e: PerfEvent, t: int, j: nat)
    requires j < |es| && GilOn(cfg, TakeGilReturn, t)(es[j]) && Acquiring(cfg, es[..j], t)
    requires !GilOn(cfg, DropGil, t)(e) && forall k :: j < k < |es| ==> !GilOn(cfg, DropGil, t)(es[k])
    ensures Holding(cfg, es + [e], t)
  {
    hide Acquiring, GilOn;
    var all := es + [e];
    assert all[j] == es[j] && all[..j] == es[..j];
  }

  lemma HeldBefore(cfg: Config, es: seq<PerfEvent>, e: PerfEvent, t: int, j: nat)
    requires var all := es + [e];
             j < |all| && GilOn(cfg, TakeGilReturn, t)(all[j]) && Acquiring(cfg, all[..j], t) &&
             forall k :: j < k < |all| ==> !GilOn(cfg, DropGil, t)(all[k])
    requires !(GilOn(cfg, TakeGilReturn, t)(e) && Acquiring(cfg, es, t))
    ensures Holding(cfg, es, t) && !GilOn(cfg, DropGil, t)(e)
  {
    hide Acquiring, GilOn;
    var all := es + [e];
    assert all[|es|] == e && all[..|es|] == es;
    assert j < |es|;
    assert all[j] == es[j] && all[..j] == es[..j];
    assert forall k :: j < k < |es| ==> es[k] == all[k];
  }

  lemma CallingSnoc(cfg: Config, es: seq<PerfEvent>, e: PerfEvent, t: int, api: Api)
    ensures var shown := e.tid == t && ApiShown(cfg, e);
            Calling(cfg, es + [e], t, api) <==>
              if shown && e.kind == ApiEntry(api) then true else if shown && e.kind == ApiReturn(api) then false
              else Calling(cfg, es, t, api)
  {
    hide ApiShown, OpenSince;
    OpenSinceSnoc(CallOn(cfg, ApiEntry(api), t), CallOn(cfg, ApiReturn(api), t), es, e);
  }

  lemma LastChangeSnoc(cfg: Config, es: seq<PerfEvent>, e: PerfEvent, t: int)
    ensures LastChange(cfg, es + [e], t) ==
            if Changes(cfg, LastChange(cfg, es, t), e, t) then Some(e) else LastChange(cfg, es, t)
  {
    hide Changes;
    InitLast(es, e);
  }

  /** The machines of thread `t` record what the stream says of it. */
  ghost predicate Known(cfg: Config, es: seq<PerfEvent>, t: int, s: ThreadState) {
    && s.sched == Recorded(cfg, LastChange(cfg, es, t), t)
    && (s.gilStart.Some? <==> Acquiring(cfg, es, t))
    && (s.gilHeld.Some? <==> Holding(cfg, es, t))
    && forall api :: api in s.gpuOpen <==> Calling(cfg, es, t, api)
  }

  lemma NothingKnown(cfg: Config, t: int)
    ensures Known(cfg, [], t, StateAfter(ActsOf(cfg, []), t))
  {
  }

  lemma KnownStep(cfg: Config, es: seq<PerfEvent>, e: PerfEvent, t: int, s: ThreadState)
    requires Known(cfg, es, t, s)
    ensures Known(cfg, es + [e], t, After(s, ActionsOf(cfg, e), t))
  {
    hide Acquiring, Holding, Calling, GilShown, ApiShown, Changes, Recorded, LastChange, ActionsOf, After;
    SchedStep(cfg, s, LastChange(cfg, es, t), e, t);
    LastChangeSnoc(cfg, es, e, t);
    GilStep(cfg, s, e, t);
    AcquiringSnoc(cfg, es, e, t);
    HoldingSnoc(cfg, es, e, t);
    forall api
      ensures api in After(s, ActionsOf(cfg, e), t).gpuOpen <==> Calling(cfg, es + [e], t, api)
    {
      ApiStep(cfg, s, e, t, api);
      CallingSnoc(cfg, es, e, t, api);
    }
  }

  lemma {:induction false} MachinesKnow(cfg: Config, es: seq<PerfEvent>, t: int)
    ensures Known(cfg, es, t, StateAfter(ActsOf(cfg, es), t))
  {
    hide Known, ActsOf, ActionsOf, StateAfter, After, CallsAfter;
    if es == [] {
      NothingKnown(cfg, t);
    } else {
      var front, e := Init(es), Last(es);
      assert es == front + [e];
      MachinesKnow(cfg, front, t);
      OneMoreEvent(cfg, [], front, e);
      StateAfterMore(ActsOf(cfg, front), ActionsOf(cfg, e), t);
      KnownStep(cfg, front, e, t, StateAfter(ActsOf(cfg, front), t));
    }
  }

  // ---- and draw what it says ----

  lemma ClosingAgrees(cfg: Config, x: PerfEvent, t: int, now: u64)
    ensures ClosingSpan(Recorded(cfg, Some(x), t).value, t, cfg.TgidFor(t), now) == SpanSince(cfg, x, t, now)
  {
    assert Us(now) - Us(x.timestampNs) <= 0.0 <==> now <= x.timestampNs;
    hide PrevStateName;
  }

  /** An event that is no switch performs at most one act, and that draws these marks. */
  ghost predicate OneAct(more: seq<Act>, t: int, s: ThreadState, marks: seq<Call>) {
    && |more| <= 1
    && (more == [] ==> marks == [])
    && (more != [] ==> more[0].tid == t && ActCalls(s, more[0]) == marks)
  }

  lemma GilMarks(cfg: Config, es: seq<PerfEvent>, e: PerfEvent, s: ThreadState)
    requires GilKind(e.kind) && Known(cfg, es, e.tid, s)
    ensures OneAct(ActionsOf(cfg, e), e.tid, s, Marks(cfg, es, e))
  {
    FiltersAgree(cfg, e, e.tid);
    hide Config.PassesTime, Config.PassesThread, Config.TgidFor, InBounds, Wanted, ProcessOf, LastChange, Acquiring,
         Holding, Calling, Recorded;
  }

  lemma ApiMarks(cfg: Config, es: seq<PerfEvent>, e: PerfEvent, s: ThreadState)
    requires (e.kind.ApiEntry? || e.kind.ApiReturn?) && Known(cfg, es, e.tid, s)
    ensures OneAct(ActionsOf(cfg, e), e.tid, s, Marks(cfg, es, e))
  {
    FiltersAgree(cfg, e, e.tid);
    hide Config.PassesTime, Config.PassesThread, Config.TgidFor, InBounds, Wanted, ProcessOf, LastChange, Acquiring,
         Holding, Calling, Recorded, ApiCategory;
  }

  lemma WakeupMarks(cfg: Config, es: seq<PerfEvent>, e: PerfEvent, s: ThreadState)
    requires e.kind.SchedWakeup?
    requires s.sched == Recorded(cfg, LastChange(cfg, es, e.kind.targetTid), e.kind.targetTid)
    ensures OneAct(ActionsOf(cfg, e), e.kind.targetTid, s, Marks(cfg, es, e))
  {
    var t := e.kind.targetTid;
    FiltersAgree(cfg, e, t);
    var last := LastChange(cfg, es, t);
    if last.Some? {
      ClosingAgrees(cfg, last.value, t, e.timestampNs);
    }
    hide Config.PassesTime, Config.PassesThread, Config.TgidFor, InBounds, Wanted, ProcessOf, ClosingSpan, SpanSince,
         LastChange;
  }

  lemma SampleMarksAgree(cfg: Config, es: seq<PerfEvent>, e: PerfEvent, s: ThreadState)
    requires e.kind.ContextSwitch? || e.kind.SchedStatRuntime?
    requires s.sched == Recorded(cfg, LastChange(cfg, es, e.tid), e.tid)
    ensures OneAct(ActionsOf(cfg, e), e.tid, s, Marks(cfg, es, e))
  {
    FiltersAgree(cfg, e, e.tid);
    var last := LastChange(cfg, es, e.tid);
    if last.Some? {
      ClosingAgrees(cfg, last.value, e.tid, e.timestampNs);
      GapAgrees(last.value.timestampNs, e.timestampNs);
    }
    hide Config.PassesTime, Config.PassesThread, Config.TgidFor, InBounds, Wanted, ProcessOf, SubU64, Gap, ClosingSpan,
         SpanSince, LastChange;
  }

  lemma OtherMarks(cfg: Config, es: seq<PerfEvent>, e: PerfEvent, s: ThreadState)
    requires e.kind.SchedFork? || e.kind.Comm? || e.kind.Other?
    ensures OneAct(ActionsOf(cfg, e), e.tid, s, Marks(cfg, es, e))
  {
    FiltersAgree(cfg, e, e.tid);
    hide Config.PassesTime, Config.PassesThread, Config.TgidFor, InBounds, Wanted, ProcessOf;
  }

  /** The thread an event that is no switch is about. */
  function Subject(e: PerfEvent): int {
    if e.kind.SchedWakeup? then e.kind.targetTid else e.tid
  }

  lemma OneActMarks(cfg: Config, es: seq<PerfEvent>, e: PerfEvent, s: ThreadState)
    requires !e.kind.SchedSwitch? && Known(cfg, es, Subject(e), s)
    ensures OneAct(ActionsOf(cfg, e), Subject(e), s, Marks(cfg, es, e))
  {
    hide ActionsOf, Marks, OneAct, Acquiring, Holding, Calling, Recorded, LastChange;
    match e.kind
    case TakeGil => GilMarks(cfg, es, e, s);
    case TakeGilReturn => GilMarks(cfg, es, e, s);
    case DropGil => GilMarks(cfg, es, e, s);
    case ApiEntry(_) => ApiMarks(cfg, es, e, s);
    case ApiReturn(_) => ApiMarks(cfg, es, e, s);
    case SchedWakeup(_) => WakeupMarks(cfg, es, e, s);
    case ContextSwitch => SampleMarksAgree(cfg, es, e, s);
    case SchedStatRuntime => SampleMarksAgree(cfg, es, e, s);
    case _ => OtherMarks(cfg, es, e, s);
  }

  /** The two halves of a switch. */
  lemma SwitchMarks(cfg: Config, es: seq<PerfEvent>, e: PerfEvent, s1: ThreadState, s2: ThreadState)
    requires e.kind.SchedSwitch?
    requires s1.sched == Recorded(cfg, LastChange(cfg, es, e.kind.prevTid), e.kind.prevTid)
    requires s2.sched == Recorded(cfg, LastChange(cfg, es, e.kind.nextTid), e.kind.nextTid)
    ensures var prev, next, ns := e.kind.prevTid, e.kind.nextTid, e.timestampNs;
            var out := Act(prev, cfg.TgidFor(prev), ns, SwitchOut(e.kind.prevState, e.cpu));
            var in_ := Act(next, cfg.TgidFor(next), ns, SwitchIn(e.cpu));
            && ActionsOf(cfg, e) == If(SchedShown(cfg, e, prev), out) +
                                    If(SchedShown(cfg, e, next) && next in cfg.tidToTgid, in_)
            && ActCalls(s1, out) == SpanAwake(cfg, LastChange(cfg, es, prev), prev, ns)
            && ActCalls(s2, in_) == SpanAsleep(cfg, LastChange(cfg, es, next), next, ns)
            && ActCalls(NextState(s1, out), in_) == []
  {
    var prev, next := e.kind.prevTid, e.kind.nextTid;
    FiltersAgree(cfg, e, prev);
    FiltersAgree(cfg, e, next);
    var x, y := LastChange(cfg, es, prev), LastChange(cfg, es, next);
    if x.Some? {
      ClosingAgrees(cfg, x.value, prev, e.timestampNs);
    }
    if y.Some? {
      ClosingAgrees(cfg, y.value, next, e.timestampNs);
    }
    NothingToClose(prev, e.timestampNs);
    hide Config.PassesTime, Config.PassesThread, Config.TgidFor, InBounds, Wanted, ProcessOf, ClosingSpan, SpanSince,
         LastChange;
  }

  lemma NothingToClose(t: int, ns: u64)
    ensures forall on, why, cpu, tid, pid :: ClosingSpan(SchedState(ns, on, why, cpu), tid, pid, ns) == []
  {
  }

  lemma TwoActCalls(h: seq<Act>, a: Act, b: Act)
    ensures CallsAfter(h, [a] + [b]) ==
            ActCalls(StateAfter(h, a.tid), a) +
            ActCalls(if a.tid == b.tid then NextState(StateAfter(h, a.tid), a) else StateAfter(h, b.tid), b)
  {
    hide ActCalls, StateAfter, NextState, CallsAfter;
    OneActCalls(h, a);
    CallsAfterSnoc(h, [a], b);
    Snoc(h, a, b.tid);
  }

  lemma SwitchDraws(cfg: Config, es: seq<PerfEvent>, e: PerfEvent)
    requires e.kind.SchedSwitch?
    ensures CallsAfter(ActsOf(cfg, es), ActionsOf(cfg, e)) == Marks(cfg, es, e)
  {
    var h, prev, next := ActsOf(cfg, es), e.kind.prevTid, e.kind.nextTid;
    var out := Act(prev, cfg.TgidFor(prev), e.timestampNs, SwitchOut(e.kind.prevState, e.cpu));
    var in_ := Act(next, cfg.TgidFor(next), e.timestampNs, SwitchIn(e.cpu));
    hide ActionsOf, ActsOf, ActCalls, StateAfter, NextState, CallsAfter, Acquiring, Holding, Calling, Recorded,
         LastChange, SpanAwake, SpanAsleep, SchedShown, Config.TgidFor;
    MachinesKnow(cfg, es, prev);
    MachinesKnow(cfg, es, next);
    SwitchMarks(cfg, es, e, StateAfter(h, prev), StateAfter(h, next));
    NoMoreCalls(h);
    OneActCalls(h, out);
    OneActCalls(h, in_);
    TwoActCalls(h, out, in_);
    Nil([out]);
    Nil([in_]);
  }

  /** What an event adds to the calls is what the stream before it says. */
  lemma EventDraws(cfg: Config, es: seq<PerfEvent>, e: PerfEvent)
    ensures CallsAfter(ActsOf(cfg, es), ActionsOf(cfg, e)) == Marks(cfg, es, e)
  {
    if e.kind.SchedSwitch? {
      SwitchDraws(cfg, es, e);
    } else {
      var h, more := ActsOf(cfg, es), ActionsOf(cfg, e);
      hide ActionsOf, ActsOf, ActCalls, StateAfter, CallsAfter, Known, Marks;
      MachinesKnow(cfg, es, Subject(e));
      OneActMarks(cfg, es, e, StateAfter(h, Subject(e)));
      if more == [] {
        NoMoreCalls(h);
      } else {
        assert more == [more[0]];
        OneActCalls(h, more[0]);
      }
    }
  }

  lemma {:induction false} DrawnFromActs(cfg: Config, es: seq<PerfEvent>)
    ensures CallsOf(ActsOf(cfg, es)) == Drawn(cfg, es)
  {
    hide ActionsOf, CallsAfter, Marks, CallsOf;
    FromStart(ActsOf(cfg, es));
    if es == [] {
      NothingDone(cfg, []);
    } else {
      var front, e := Init(es), Last(es);
      assert es == front + [e];
      DrawnFromActs(cfg, front);
      FromStart(ActsOf(cfg, front));
      OneMoreEvent(cfg, [], front, e);
      EventDraws(cfg, front, e);
      Nil(ActsOf(cfg, front));
    }
  }

  lemma FlushDraws(cfg: Config, es: seq<PerfEvent>, t: int)
    ensures FlushThread(cfg, ActsOf(cfg, es), t) == FlushMark(cfg, es, t)
  {
    var h, last := ActsOf(cfg, es), LastChange(cfg, es, t);
    MachinesKnow(cfg, es, t);
    WholeRuns.ActsAreSound(cfg, es);
    hide ActsOf, StateAfter, Acquiring, Holding, Calling, LastChange, ClosingSpan, SpanSince, LeavesOff,
         Config.PassesThread;
    if last.Some? {
      WholeRuns.StateMeansPassed(cfg, h, t);
      ClosingAgrees(cfg, last.value, t, cfg.lastPerfTs);
    }
  }

  lemma {:induction false} FlushedFromActs(cfg: Config, es: seq<PerfEvent>, order: seq<int>)
    ensures FlushCalls(cfg, ActsOf(cfg, es), order) == Flushed(cfg, es, order)
  {
    hide FlushThread, FlushMark, ActsOf;
    if order != [] {
      FlushedFromActs(cfg, es, Init(order));
      FlushDraws(cfg, es, Last(order));
    }
  }

  lemma ListsAgree(cfg: Config, order: seq<int>, es: seq<PerfEvent>)
    ensures Lists(order, ActsOf(cfg, es)) <==> ListsKnown(cfg, order, es)
  {
    hide ActsOf, StateAfter, LastChange, Acquiring, Holding, Calling, LeavesOff;
    forall t
      ensures StateAfter(ActsOf(cfg, es), t).sched.Some? <==> LastChange(cfg, es, t).Some?
    {
      MachinesKnow(cfg, es, t);
    }
  }

  /** A run draws, event by event, what the stream says, and in the flush what is left. */
  lemma RunDraws(cfg: Config, es: seq<PerfEvent>, order: seq<int>)
    ensures WholeRuns.RunCalls(cfg, es, order) == Drawn(cfg, es) + Flushed(cfg, es, order)
    ensures Lists(order, ActsOf(cfg, es)) <==> ListsKnown(cfg, order, es)
  {
    hide ActsOf, CallsOf, FlushCalls, Lists, ListsKnown, Drawn, Flushed;
    DrawnFromActs(cfg, es);
    FlushedFromActs(cfg, es, order);
    ListsAgree(cfg, order, es);
  }

  // ---- a run of the engine, in these terms ----

  /** The engine on perf events alone: the naming calls, what each event draws in turn,
      and the spans still open at the end. */
  method RunPerf(cfg: Config, ps: seq<PerfEvent>) returns (calls: seq<Call>, ghost order: seq<int>)
    ensures ListsKnown(cfg, order, ps)
    ensures calls == cfg.metadata + Drawn(cfg, ps) + Flushed(cfg, ps, order)
  {
    hide ActsOf, CallsOf, CallsAfter, FlushCalls, Lists, ListsKnown, Drawn, Flushed;
    var source := new Cursor(ps);
    var engine := new MergeEngine(cfg, source);
    order := engine.WritePerfOnly();
    calls := engine.log;
    assert ps[0..] == ps;
    FromStart(ActsOf(cfg, ps));
    Nil(cfg.metadata);
    Nil(ActsOf(cfg, ps));
    DrawnFromActs(cfg, ps);
    FlushedFromActs(cfg, ps, order);
    ListsAgree(cfg, order, ps);
  }

  // ---- what that comes to on a thread's tracks ----

  ghost predicate NoneBetween(keep: PerfEvent -> bool, es: seq<PerfEvent>, from: int, to: int) {
    forall k :: from < k < to && 0 <= k < |es| ==> !keep(es[k])
  }

  lemma OpenedAt(opens: PerfEvent -> bool, closes: PerfEvent -> bool, es: seq<PerfEvent>, i: nat, j: nat)
    requires i < j <= |es| && opens(es[i]) && NoneBetween(closes, es, i, j)
    ensures OpenSince(opens, closes, es[..j])
  {
    var before := es[..j];
    assert opens(before[i]) && forall k :: i < k < |before| ==> before[k] == es[k] && !closes(es[k]);
  }

  /** "GIL acquire" lasts from the take to its return, and "GIL held" from there to the
      drop, each beginning and ending at its event's time. */
  lemma GilIsDrawn(cfg: Config, es: seq<PerfEvent>, t: int, i: nat, j: nat, k: nat)
    requires i < j < k < |es| && es[i].tid == es[j].tid == es[k].tid == t
    requires GilShown(cfg, es[i]) && GilShown(cfg, es[j]) && GilShown(cfg, es[k])
    requires es[i].kind.TakeGil? && !Acquiring(cfg, es[..i], t)
    requires es[j].kind.TakeGilReturn? && NoneBetween(GilOn(cfg, TakeGilReturn, t), es, i, j)
    requires es[k].kind.DropGil? && NoneBetween(GilOn(cfg, DropGil, t), es, j, k)
    ensures Marks(cfg, es[..i], es[i]) ==
            [Begin(GilAcquire, "gil", Us(es[i].timestampNs), es[i].pid, t + GIL_TID_OFFSET)]
    ensures Marks(cfg, es[..j], es[j]) ==
            [End(GilAcquire, "gil", Us(es[j].timestampNs), es[j].pid, t + GIL_TID_OFFSET),
             Begin(GilHeld, "gil", Us(es[j].timestampNs), es[j].pid, t + GIL_TID_OFFSET)]
    ensures Marks(cfg, es[..k], es[k]) ==
            [End(GilHeld, "gil", Us(es[k].timestampNs), es[k].pid, t + GIL_TID_OFFSET)]
  {
    hide GilShown, OpenSince;
    OpenedAt(GilOn(cfg, TakeGil, t), GilOn(cfg, TakeGilReturn, t), es, i, j);
    var before := es[..k];
    assert before[j] == es[j] && before[..j] == es[..j];
    assert forall m :: j < m < |before| ==> before[m] == es[m];
    assert Holding(cfg, before, t);
  }

  /** While a take is under way another one draws nothing, and a drop that finds nothing
      held draws nothing either. */
  lemma RepeatsDrawNothing(cfg: Config, es: seq<PerfEvent>, e: PerfEvent)
    ensures e.kind.TakeGil? && Acquiring(cfg, es, e.tid) ==> Marks(cfg, es, e) == []
    ensures e.kind.TakeGilReturn? && !Acquiring(cfg, es, e.tid) ==> Marks(cfg, es, e) == []
    ensures e.kind.DropGil? && !Holding(cfg, es, e.tid) ==> Marks(cfg, es, e) == []
    ensures GilKind(e.kind) && !GilShown(cfg, e) ==> Marks(cfg, es, e) == []
  {
    hide Acquiring, Holding, GilShown;
  }

  /** A call's span lasts from its entry to its return. */
  lemma CallIsDrawn(cfg: Config, es: seq<PerfEvent>, t: int, api: Api, i: nat, j: nat)
    requires i < j < |es| && es[i].tid == es[j].tid == t && ApiShown(cfg, es[i]) && ApiShown(cfg, es[j])
    requires es[i].kind == ApiEntry(api) && !Calling(cfg, es[..i], t, api)
    requires es[j].kind == ApiReturn(api) && NoneBetween(CallOn(cfg, ApiReturn(api), t), es, i, j)
    ensures Marks(cfg, es[..i], es[i]) ==
            [Begin(ApiSpan(api), ApiCategory(api), Us(es[i].timestampNs), ProcessOf(cfg, t), t + GPU_TID_OFFSET)]
    ensures Marks(cfg, es[..j], es[j]) ==
            [End(ApiSpan(api), ApiCategory(api), Us(es[j].timestampNs), ProcessOf(cfg, t), t + GPU_TID_OFFSET)]
  {
    hide ApiShown, OpenSince, ApiCategory;
    OpenedAt(CallOn(cfg, ApiEntry(api), t), CallOn(cfg, ApiReturn(api), t), es, i, j);
  }

  /** The event says something of whether thread `t` runs. */
  predicate Concerns(cfg: Config, e: PerfEvent, t: int) {
    SchedShown(cfg, e, t) &&
    match e.kind
    case SchedSwitch(prev, next, _) => prev == t || next == t
    case SchedWakeup(target) => target == t
    case ContextSwitch => e.tid == t
    case SchedStatRuntime => e.tid == t
    case _ => false
  }

  lemma {:induction false} NothingChanges(cfg: Config, es: seq<PerfEvent>, mid: seq<PerfEvent>, t: int)
    requires forall i :: 0 <= i < |mid| ==> !Concerns(cfg, mid[i], t)
    ensures LastChange(cfg, es + mid, t) == LastChange(cfg, es, t)
  {
    if mid == [] {
      Nil(es);
    } else {
      NothingChanges(cfg, es, Init(mid), t);
      assert es + mid == (es + Init(mid)) + [Last(mid)];
      LastChangeSnoc(cfg, es + Init(mid), Last(mid), t);
    }
  }

  /** Thread `t` is switched out at `x`, and nothing concerns it until `e`. Until then
      it is asleep: `e` draws the span, with the reason, if `e` switches it in, wakes it
      or, more than 10 microseconds later, samples it; an earlier sample draws nothing. */
  lemma SleepIsDrawn(cfg: Config, es: seq<PerfEvent>, x: PerfEvent, mid: seq<PerfEvent>, e: PerfEvent, t: int)
    requires x.kind.SchedSwitch? && x.kind.prevTid == t && x.kind.nextTid != t && SchedShown(cfg, x, t)
    requires forall i :: 0 <= i < |mid| ==> !Concerns(cfg, mid[i], t)
    requires SchedShown(cfg, e, t) && x.timestampNs < e.timestampNs
    ensures var why := PrevStateName(x.kind.prevState);
            var asleep := Complete(OffCpu(why), "sched.off-cpu", Us(x.timestampNs),
                                   Us(e.timestampNs) - Us(x.timestampNs), ProcessOf(cfg, t),
                                   t + SCHED_TID_OFFSET, ReasonArg(why));
            var marks := Marks(cfg, es + [x] + mid, e);
            && (e.kind.SchedSwitch? && e.kind.prevTid != t && e.kind.nextTid == t && t in cfg.tidToTgid ==>
                  marks != [] && Last(marks) == asleep)
            && (e.kind.SchedWakeup? && e.kind.targetTid == t && t != 0 ==>
                  marks == [asleep, Instant(WakeupMark, "sched", Us(e.timestampNs), ProcessOf(cfg, t),
                                            t + SCHED_TID_OFFSET, TargetArg(t))])
            && ((e.kind.ContextSwitch? || e.kind.SchedStatRuntime?) && e.tid == t ==>
                  marks == if e.timestampNs - x.timestampNs > 10_000 then [asleep] else [])
  {
    LastChangeSnoc(cfg, es, x, t);
    NothingChanges(cfg, es + [x], mid, t);
    hide LastChange, SchedShown, ProcessOf, PrevStateName, Acquiring, Holding, Calling;
  }

  /** Thread `t` is seen to run at `x`, by being switched in, woken, or sampled. Switched
      out at `e`, with nothing that concerns it in between, it has run since `x`. */
  lemma RunIsDrawn(cfg: Config, es: seq<PerfEvent>, x: PerfEvent, mid: seq<PerfEvent>, e: PerfEvent, t: int)
    requires SchedShown(cfg, x, t) && Changes(cfg, LastChange(cfg, es, t), x, t)
    requires x.kind.SchedSwitch? ==> x.kind.nextTid == t && t in cfg.tidToTgid
    requires forall i :: 0 <= i < |mid| ==> !Concerns(cfg, mid[i], t)
    requires SchedShown(cfg, e, t) && x.timestampNs < e.timestampNs
    requires e.kind.SchedSwitch? && e.kind.prevTid == t
    ensures var marks := Marks(cfg, es + [x] + mid, e);
            marks != [] &&
            marks[0] == Complete(OnCpu, "sched", Us(x.timestampNs), Us(e.timestampNs) - Us(x.timestampNs),
                                 ProcessOf(cfg, t), t + SCHED_TID_OFFSET, CpuArg(x.cpu))
  {
    LastChangeSnoc(cfg, es, x, t);
    NothingChanges(cfg, es + [x], mid, t);
    hide LastChange, SchedShown, ProcessOf, PrevStateName, Acquiring, Holding, Calling;
  }

  /** A thread of which nothing is known yet is seen to run by being switched in or by
      the first sample of it; one that was switched out, also by a wakeup, or by a sample
      more than 10 microseconds later. */
  lemma SeenToRun(cfg: Config, es: seq<PerfEvent>, x: PerfEvent, t: int)
    requires SchedShown(cfg, x, t)
    ensures x.kind.SchedSwitch? && x.kind.nextTid == t && t in cfg.tidToTgid ==>
              Changes(cfg, LastChange(cfg, es, t), x, t)
    ensures (x.kind.ContextSwitch? || x.kind.SchedStatRuntime?) && x.tid == t && LastChange(cfg, es, t).None? ==>
              Changes(cfg, LastChange(cfg, es, t), x, t)
    ensures forall out: PerfEvent ::
              out.kind.SchedSwitch? && out.kind.prevTid == t && out.kind.nextTid != t && SchedShown(cfg, out, t) ==>
              && (x.kind.SchedWakeup? && x.kind.targetTid == t && t != 0 ==>
                    Changes(cfg, LastChange(cfg, es + [out], t), x, t))
              && ((x.kind.ContextSwitch? || x.kind.SchedStatRuntime?) && x.tid == t &&
                  x.timestampNs > out.timestampNs + 10_000 ==>
                    Changes(cfg, LastChange(cfg, es + [out], t), x, t))
  {
    forall out: PerfEvent | out.kind.SchedSwitch? && out.kind.prevTid == t && out.kind.nextTid != t &&
                            SchedShown(cfg, out, t)
      ensures LastChange(cfg, es + [out], t) == Some(out)
    {
      LastChangeSnoc(cfg, es, out, t);
    }
    hide LastChange, SchedShown;
  }

  /** The reasons for sleep, by the low four bits of the state. */
  lemma SleepReasons(state: int)
    ensures PrevStateName(state) == Preempted <==> state % 16 == 0
    ensures PrevStateName(state) == Interruptible <==> state % 16 == 1
    ensures PrevStateName(state) == Uninterruptible <==> state % 16 == 2
    ensures PrevStateName(state) == Stopped <==> state % 16 == 4
    ensures PrevStateName(state) == Traced <==> state % 16 == 8
  {
  }

  /** The categories of the instrumented functions. */
  lemma Categories(api: Api)
    ensures ApiCategory(api) == "gpu" <==> api == NvidiaLaunch
    ensures ApiCategory(api) == "gpu.sync" <==> api in {NvidiaStreamSync, NvidiaDeviceSync, NvidiaEventSync}
    ensures ApiCategory(api) == "gpu.alloc" <==> api in {NvidiaMalloc, NvidiaFree}
    ensures ApiCategory(api) == "nccl" <==> api in {NcclAllReduce, NcclBroadcast, NcclReduceScatter}
    ensures ApiCategory(api) == "gpu.memcpy" <==>
            api in {NvidiaMemcpyHtoD, NvidiaMemcpyDtoH, NvidiaMemcpyDtoD, NvidiaMemcpyAsync, NvidiaMemcpyPeer}
  {
    assert "nccl"[0] == 'n' && "gpu.memcpy"[4] == 'm' && "gpu.alloc"[4] == 'a' && "gpu.sync"[4] == 's';
  }

  // ---- Python events ----

  predicate VizShown(cfg: Config, v: VizEvent) {
    var now := v.tsUs + cfg.vizOffsetUs;
    && (cfg.timeStartUs >= 0.0 ==> cfg.timeStartUs <= now)
    && (cfg.timeEndUs >= 0.0 ==> if cfg.timeEndExclusive then now < cfg.timeEndUs else now <= cfg.timeEndUs)
    && (v.ph == 'X' ==> v.durUs >= cfg.minDurationUs)
    && Wanted(cfg, ToInt32(v.pid), ToInt32(v.tid))
  }

  /** The numbers that 32 bits hold stay as they are; others keep their low 32 bits. */
  lemma Int32Means(x: int)
    ensures -0x8000_0000 <= ToInt32(x) < 0x8000_0000 && (x - ToInt32(x)) % 0x1_0000_0000 == 0
    ensures -0x8000_0000 <= x < 0x8000_0000 ==> ToInt32(x) == x
  {
  }

  /** The Python events that get through, shifted by the clock offset. */
  function PassedOn(cfg: Config, vs: seq<VizEvent>): seq<Call> {
    if vs == [] then []
    else
      var v := Last(vs);
      PassedOn(cfg, Init(vs)) +
      if VizShown(cfg, v) then
        [Viz(v.ph, Text(v.name), if v.cat == "" then "python" else v.cat, v.tsUs + cfg.vizOffsetUs, v.durUs,
             v.pid, v.tid, Json(if v.args == "" then "{}" else v.args))]
      else []
  }

  lemma {:induction false} VizDraws(cfg: Config, vs: seq<VizEvent>)
    ensures AllVizCalls(cfg, vs) == PassedOn(cfg, vs)
  {
    if vs != [] {
      VizDraws(cfg, Init(vs));
    }
  }
}
