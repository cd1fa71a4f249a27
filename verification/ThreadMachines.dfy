/** The scheduler, GIL and GPU state machines of ONE thread, and what a history of
    firings on all threads makes of them. A firing ("act") is a perf event after
    filtering, addressed to one thread; a context switch is up to two acts. */
module ThreadMachines {
  import opened Seqs
  import opened Events
  import opened Output

  datatype Op =
    | SwitchOut(prevState: int, cpu: int)
    | SwitchIn(cpu: int)
    | Wakeup(cpu: int)
    | Tick(cpu: int)  // a context-switches or sched_stat_runtime sample
    | Fork(childPid: int, childTid: int)
    | Take
    | TakeReturn
    | Drop
    | Enter(api: Api)
    | Leave(api: Api)

  /** `pid` is the process the thread's output is filed under. */
  datatype Act = Act(tid: int, pid: int, ts: u64, op: Op)

  datatype SchedState = SchedState(last: u64, onCpu: bool, reason: int, cpu: int)

  datatype ThreadState = ThreadState(sched: Option<SchedState>, gilStart: Option<u64>, gilHeld: Option<u64>,
                                     gpuOpen: set<Api>)

  const IDLE := ThreadState(None, None, None, {})

  const ECHO_GAP_NS := 10_000

  /** Unsigned 64-bit subtraction. */
  function SubU64(a: u64, b: u64): u64 {
    (a - b) % 0x1_0000_0000_0000_0000
  }

  /** The span from the last state change to `now`, if it is not empty. */
  function ClosingSpan(s: SchedState, tid: int, pid: int, now: u64): seq<Call> {
    var start, dur := Us(s.last), Us(now) - Us(s.last);
    if dur <= 0.0 then []
    else if s.onCpu then
      [Complete(OnCpu, "sched", start, dur, pid, tid + SCHED_TID_OFFSET, CpuArg(s.cpu))]
    else
      var why := PrevStateName(s.reason);
      [Complete(OffCpu(why), "sched.off-cpu", start, dur, pid, tid + SCHED_TID_OFFSET, ReasonArg(why))]
  }

  /** Does this act end the period recorded in `s`? */
  predicate Closes(s: SchedState, a: Act) {
    match a.op
    case SwitchOut(_, _) => s.onCpu
    case SwitchIn(_) => !s.onCpu
    case Wakeup(_) => !s.onCpu
    case Tick(_) => !s.onCpu && SubU64(a.ts, s.last) > ECHO_GAP_NS
    case _ => false
  }

  function NextSched(s: Option<SchedState>, a: Act): Option<SchedState> {
    match a.op
    case SwitchOut(prevState, cpu) => Some(SchedState(a.ts, false, prevState, cpu))
    case SwitchIn(cpu) => Some(SchedState(a.ts, true, 0, cpu))
    case Wakeup(cpu) => if s.Some? && Closes(s.value, a) then Some(SchedState(a.ts, true, 0, cpu)) else s
    case Tick(cpu) => if s.None? || Closes(s.value, a) then Some(SchedState(a.ts, true, 0, cpu)) else s
    case _ => s
  }

  function NextState(s: ThreadState, a: Act): ThreadState {
    match a.op
    case Take => if s.gilStart.Some? then s else s.(gilStart := Some(a.ts))
    case TakeReturn => if s.gilStart.Some? then s.(gilStart := None, gilHeld := Some(a.ts)) else s
    case Drop => s.(gilHeld := None)
    case Enter(api) => s.(gpuOpen := s.gpuOpen + {api})
    case Leave(api) => s.(gpuOpen := s.gpuOpen - {api})
    case _ => s.(sched := NextSched(s.sched, a))
  }

  function SpanCalls(s: Option<SchedState>, a: Act): seq<Call> {
    if s.Some? && Closes(s.value, a) then ClosingSpan(s.value, a.tid, a.pid, a.ts) else []
  }

  /** The calls of one act other than scheduler spans. */
  function MarkCalls(s: ThreadState, a: Act): seq<Call> {
    var now, gil, gpu := Us(a.ts), a.tid + GIL_TID_OFFSET, a.tid + GPU_TID_OFFSET;
    match a.op
    case Wakeup(_) => [Instant(WakeupMark, "sched", now, a.pid, a.tid + SCHED_TID_OFFSET, TargetArg(a.tid))]
    case Fork(p, t) => [Instant(ForkMark, "sched", now, a.pid, a.tid + SCHED_TID_OFFSET, ForkArg(p, t))]
    case Take => if s.gilStart.Some? then [] else [Begin(GilAcquire, "gil", now, a.pid, gil)]
    case TakeReturn =>
      if s.gilStart.Some? then [End(GilAcquire, "gil", now, a.pid, gil), Begin(GilHeld, "gil", now, a.pid, gil)]
      else []
    case Drop => if s.gilHeld.Some? then [End(GilHeld, "gil", now, a.pid, gil)] else []
    case Enter(api) =>
      if api in s.gpuOpen then [] else [Begin(ApiSpan(api), ApiCategory(api), now, a.pid, gpu)]
    case Leave(api) =>
      if api in s.gpuOpen then [End(ApiSpan(api), ApiCategory(api), now, a.pid, gpu)] else []
    case _ => []
  }

  function ActCalls(s: ThreadState, a: Act): seq<Call> {
    SpanCalls(s.sched, a) + MarkCalls(s, a)
  }

  /** Only scheduler acts touch the scheduler state. */
  lemma MachineSched(s: ThreadState, a: Act)
    ensures NextState(s, a).sched == NextSched(s.sched, a)
  {
  }

  // ---- histories ----

  /** The state of thread `t` after the acts of `h`. */
  function StateAfter(h: seq<Act>, t: int): ThreadState {
    if h == [] then IDLE
    else
      var s := StateAfter(Init(h), t);
      if Last(h).tid == t then NextState(s, Last(h)) else s
  }

  /** All calls made by the acts of `h`, in order. */
  function CallsOf(h: seq<Act>): seq<Call> {
    if h == [] then []
    else CallsOf(Init(h)) + ActCalls(StateAfter(Init(h), Last(h).tid), Last(h))
  }

  lemma Snoc(h: seq<Act>, a: Act, t: int)
    ensures StateAfter(h + [a], t) == if a.tid == t then NextState(StateAfter(h, t), a) else StateAfter(h, t)
    ensures CallsOf(h + [a]) == CallsOf(h) + ActCalls(StateAfter(h, a.tid), a)
  {
    InitLast(h, a);
  }

  /** The calls that `more` adds to the history `h`. */
  function CallsAfter(h: seq<Act>, more: seq<Act>): seq<Call> {
    if more == [] then []
    else CallsAfter(h, Init(more)) + ActCalls(StateAfter(h + Init(more), Last(more).tid), Last(more))
  }

  lemma CallsAfterSnoc(h: seq<Act>, more: seq<Act>, a: Act)
    ensures CallsAfter(h, more + [a]) == CallsAfter(h, more) + ActCalls(StateAfter(h + more, a.tid), a)
  {
    hide ActCalls, StateAfter;
    InitLast(more, a);
  }

  lemma NoMoreCalls(h: seq<Act>)
    ensures CallsAfter(h, []) == []
  {
  }

  lemma OneActCalls(h: seq<Act>, a: Act)
    ensures CallsAfter(h, [a]) == ActCalls(StateAfter(h, a.tid), a)
  {
    hide ActCalls, StateAfter;
    assert [] + [a] == [a];
    Nil(h);
    CallsAfterSnoc(h, [], a);
    NoMoreCalls(h);
  }

  lemma {:induction false} CallsAppend(h: seq<Act>, more: seq<Act>)
    ensures CallsOf(h + more) == CallsOf(h) + CallsAfter(h, more)
  {
    hide ActCalls, NextState;
    if more == [] {
      assert h + more == h;
    } else {
      var front, a := Init(more), Last(more);
      CallsAppend(h, front);
      Snoc(h + front, a, a.tid);
      assert h + more == (h + front) + [a];
      Associate(CallsOf(h), CallsAfter(h, front), ActCalls(StateAfter(h + front, a.tid), a));
    }
  }

  lemma FromStart(h: seq<Act>)
    ensures CallsAfter([], h) == CallsOf(h)
  {
    hide CallsAfter;
    CallsAppend([], h);
    Nil(h);
    assert CallsOf([]) == [];
    Nil(CallsAfter([], h));
  }

  lemma {:induction false} CallsAfterAppend(h: seq<Act>, a: seq<Act>, b: seq<Act>)
    ensures CallsAfter(h, a + b) == CallsAfter(h, a) + CallsAfter(h + a, b)
  {
    hide ActCalls, NextState;
    if b == [] {
      assert a + b == a;
    } else {
      CallsAfterAppend(h, a, Init(b));
      assert a + b == (a + Init(b)) + [Last(b)];
      InitLast(a + Init(b), Last(b));
      Associate(h, a, Init(b));
    }
  }

  ghost predicate SortedActs(h: seq<Act>) {
    forall i, j :: 0 <= i < j < |h| ==> h[i].ts <= h[j].ts
  }

  predicate RealTid(t: int) {
    0 <= t < MAX_REAL_TID
  }

  ghost predicate RealTids(h: seq<Act>) {
    forall i :: 0 <= i < |h| ==> RealTid(h[i].tid)
  }

  // ---- one thread at a time ----

  function On(t: int): Act -> bool {
    (a: Act) => a.tid == t
  }

  /** The call belongs to one of the three synthetic tracks of thread `t`. */
  function OnTracksOf(t: int): Call -> bool {
    (c: Call) => c.tid == t + GIL_TID_OFFSET || c.tid == t + SCHED_TID_OFFSET || c.tid == t + GPU_TID_OFFSET
  }

  lemma ActTracks(s: ThreadState, a: Act, t: int)
    requires RealTid(a.tid) && RealTid(t)
    ensures Filter(OnTracksOf(t), ActCalls(s, a)) == if a.tid == t then ActCalls(s, a) else []
  {
    if a.tid == t {
      FilterAll(OnTracksOf(t), ActCalls(s, a));
    } else {
      FilterNone(OnTracksOf(t), ActCalls(s, a));
    }
  }

  /** A thread's state and the calls on its tracks are those of a run on its own acts
      alone, wherever other threads' acts fall in between. */
  lemma {:induction false} ThreadProjection(h: seq<Act>, t: int)
    requires RealTids(h) && RealTid(t)
    ensures StateAfter(h, t) == StateAfter(Filter(On(t), h), t)
    ensures Filter(OnTracksOf(t), CallsOf(h)) == CallsOf(Filter(On(t), h))
  {
    if h == [] {
      assert CallsOf(h) == [] && Filter(OnTracksOf(t), []) == [];
    } else {
      hide ActCalls, NextState, StateAfter, CallsOf, Filter;
      var front, a := Init(h), Last(h);
      var mine := Filter(On(t), front);
      ThreadProjection(front, t);
      assert h == front + [a];
      FilterSnoc(On(t), front, a);
      Snoc(front, a, t);
      FilterAppend(OnTracksOf(t), CallsOf(front), ActCalls(StateAfter(front, a.tid), a));
      ActTracks(StateAfter(front, a.tid), a, t);
      if a.tid == t {
        Snoc(mine, a, t);
      } else {
        Nil(mine);
        Nil(CallsOf(mine));
      }
    }
  }
}
