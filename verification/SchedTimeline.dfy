/** What the scheduler machine draws on one thread's track: spans in time order that
    account for the thread's whole lifetime. */
module SchedTimeline {
  import opened Seqs
  import opened Events
  import opened Output
  import opened ThreadMachines

  function IsSpanOf(t: int): Call -> bool {
    (c: Call) => c.Complete? && c.tid == t + SCHED_TID_OFFSET
  }

  /** The spans on the scheduler track of thread `t`. */
  function Spans(h: seq<Act>, t: int): seq<Call> {
    Filter(IsSpanOf(t), CallsOf(h))
  }

  function EndOf(c: Call): real
    requires c.Complete?
  {
    c.tsUs + c.durUs
  }

  function TotalDur(spans: seq<Call>): real {
    if spans == [] then 0.0
    else TotalDur(Init(spans)) + if Last(spans).Complete? then Last(spans).durUs else 0.0
  }

  /** Every span lasts, and ends before the next one starts. */
  ghost predicate Ordered(spans: seq<Call>) {
    && (forall i :: 0 <= i < |spans| ==> spans[i].Complete? && spans[i].durUs > 0.0)
    && forall i, j :: 0 <= i < j < |spans| ==> EndOf(spans[i]) <= spans[j].tsUs
  }

  ghost predicate Inside(spans: seq<Call>, from: real, to: real) {
    forall i :: 0 <= i < |spans| ==> spans[i].Complete? && from <= spans[i].tsUs && EndOf(spans[i]) <= to
  }

  /** The spans cover `from` to `to` without a gap. */
  predicate Tiles(spans: seq<Call>, from: real, to: real) {
    if spans == [] then from == to
    else
      var last := Last(spans);
      last.Complete? && EndOf(last) == to && Tiles(Init(spans), from, last.tsUs)
  }

  /** Neighbouring spans are never both on-cpu or both off-cpu. */
  ghost predicate Alternates(spans: seq<Call>) {
    forall i, j :: 0 <= i < j < |spans| && j == i + 1 ==> IsOnCpu(spans[i]) != IsOnCpu(spans[j])
  }

  predicate IsOnCpu(c: Call) {
    c.Complete? && c.name.OnCpu?
  }

  /** The first time at which thread `t` is given a state. */
  function FirstSeen(h: seq<Act>, t: int): Option<u64> {
    if h == [] then None
    else
      var a, before := Last(h), FirstSeen(Init(h), t);
      if before.None? && a.tid == t && (a.op.SwitchOut? || a.op.SwitchIn? || a.op.Tick?) then Some(a.ts)
      else before
  }

  /** The time lost when a switch says again what the state already is: the clock is
      restarted without a span. */
  function DroppedBy(s: Option<SchedState>, a: Act): real {
    if s.Some? && ((a.op.SwitchOut? && !s.value.onCpu) || (a.op.SwitchIn? && s.value.onCpu))
    then Us(a.ts) - Us(s.value.last)
    else 0.0
  }

  function Dropped(h: seq<Act>, t: int): real {
    if h == [] then 0.0
    else Dropped(Init(h), t) + if Last(h).tid == t then DroppedBy(StateAfter(Init(h), t).sched, Last(h)) else 0.0
  }

  // ---- one act ----

  lemma MarksAreNotSpans(s: ThreadState, a: Act)
    ensures forall i :: 0 <= i < |MarkCalls(s, a)| ==> !MarkCalls(s, a)[i].Complete?
  {
  }

  lemma ActSpans(s: ThreadState, a: Act, t: int)
    ensures Filter(IsSpanOf(t), ActCalls(s, a)) == if a.tid == t then SpanCalls(s.sched, a) else []
  {
    var spans, marks := SpanCalls(s.sched, a), MarkCalls(s, a);
    FilterAppend(IsSpanOf(t), spans, marks);
    MarksAreNotSpans(s, a);
    hide MarkCalls;
    FilterNone(IsSpanOf(t), marks);
    if a.tid == t {
      FilterAll(IsSpanOf(t), spans);
    } else {
      FilterNone(IsSpanOf(t), spans);
    }
  }

  lemma SpansSnoc(h: seq<Act>, a: Act, t: int)
    ensures Spans(h + [a], t) == Spans(h, t) + if a.tid == t then SpanCalls(StateAfter(h, t).sched, a) else []
  {
    hide ActCalls, NextState, SpanCalls;
    Snoc(h, a, t);
    FilterAppend(IsSpanOf(t), CallsOf(h), ActCalls(StateAfter(h, a.tid), a));
    ActSpans(StateAfter(h, a.tid), a, t);
  }

  /** The recorded instant is that of one of the thread's own acts. */
  lemma {:induction false} StampIsAnAct(h: seq<Act>, t: int) returns (k: nat)
    requires StateAfter(h, t).sched.Some?
    ensures k < |h| && h[k].tid == t && h[k].ts == StateAfter(h, t).sched.value.last
  {
    var front, a := Init(h), Last(h);
    if a.tid == t && StateAfter(h, t).sched != StateAfter(front, t).sched {
      k := |h| - 1;
    } else {
      k := StampIsAnAct(front, t);
    }
  }

  /** In a run sorted by time no act of a thread precedes its recorded instant, so the
      unsigned subtraction behind the echo filter never wraps. */
  lemma GapNeverWraps(h: seq<Act>, a: Act)
    requires SortedActs(h + [a]) && StateAfter(h, a.tid).sched.Some?
    ensures StateAfter(h, a.tid).sched.value.last <= a.ts
    ensures SubU64(a.ts, StateAfter(h, a.tid).sched.value.last) == a.ts - StateAfter(h, a.tid).sched.value.last
  {
    var k := StampIsAnAct(h, a.tid);
    assert (h + [a])[k] == h[k] && (h + [a])[|h|] == a;
  }

  lemma SortedInit(h: seq<Act>)
    requires h != [] && SortedActs(h)
    ensures SortedActs(Init(h))
    ensures h == Init(h) + [Last(h)]
  {
  }

  // ---- the timeline ----

  /** The spans drawn so far, with the dropped time, account for the thread's life. */
  ghost predicate Accounted(spans: seq<Call>, dropped: real, from: real, to: real) {
    && from <= to
    && TotalDur(spans) + dropped == to - from
    && dropped >= 0.0
    && Ordered(spans) && Inside(spans, from, to)
    && (dropped == 0.0 ==> Tiles(spans, from, to))
  }

  lemma OrderedSnoc(spans: seq<Call>, from: real, to: real, c: Call)
    requires Ordered(spans) && Inside(spans, from, to)
    requires c.Complete? && c.durUs > 0.0 && from <= to == c.tsUs
    ensures Ordered(spans + [c]) && Inside(spans + [c], from, EndOf(c))
  {
    var r := spans + [c];
    assert forall i :: 0 <= i < |spans| ==> r[i] == spans[i];
  }

  /** Drawing the span that closes a period, or none if it is empty. */
  lemma CloseAccounted(spans: seq<Call>, dropped: real, from: real, s: SchedState, tid: int, pid: int, now: u64)
    requires Accounted(spans, dropped, from, Us(s.last)) && s.last <= now
    ensures Accounted(spans + ClosingSpan(s, tid, pid, now), dropped, from, Us(now))
  {
    if s.last == now {
      assert spans + [] == spans;
    } else {
      var c := ClosingSpan(s, tid, pid, now)[0];
      hide ClosingSpan;
      assert c.Complete? && c.tsUs == Us(s.last) && EndOf(c) == Us(now);
      assert ClosingSpan(s, tid, pid, now) == [c];
      OrderedSnoc(spans, from, Us(s.last), c);
      InitLast(spans, c);
    }
  }

  /** Restarting the clock without a span. */
  lemma DropAccounted(spans: seq<Call>, dropped: real, from: real, to: real, now: real)
    requires Accounted(spans, dropped, from, to) && to <= now
    ensures Accounted(spans, dropped + (now - to), from, now)
  {
  }

  lemma {:induction false} TilesTotal(spans: seq<Call>, from: real, to: real)
    requires Tiles(spans, from, to)
    ensures TotalDur(spans) == to - from
  {
    if spans != [] {
      TilesTotal(Init(spans), from, Last(spans).tsUs);
    }
  }

  /** The record of a thread: nothing before its first state, then a full account. */
  ghost predicate Traced(s: Option<SchedState>, first: Option<u64>, spans: seq<Call>, dropped: real) {
    match (s, first)
    case (None, None) => spans == [] && dropped == 0.0
    case (Some(now), Some(from)) => Accounted(spans, dropped, Us(from), Us(now.last))
    case _ => false
  }

  lemma StartTraced(a: Act)
    ensures Accounted([], 0.0, Us(a.ts), Us(a.ts))
  {
  }

  lemma TracedStep(s: Option<SchedState>, first: Option<u64>, spans: seq<Call>, dropped: real, a: Act)
    requires Traced(s, first, spans, dropped)
    requires s.Some? ==> s.value.last <= a.ts
    ensures var starts := first.None? && (a.op.SwitchOut? || a.op.SwitchIn? || a.op.Tick?);
            Traced(NextSched(s, a), if starts then Some(a.ts) else first, spans + SpanCalls(s, a),
                   dropped + DroppedBy(s, a))
  {
    hide Accounted;
    if s.None? {
      StartTraced(a);
    } else {
      var from := Us(first.value);
      if Closes(s.value, a) {
        CloseAccounted(spans, dropped, from, s.value, a.tid, a.pid, a.ts);
      } else {
        assert spans + SpanCalls(s, a) == spans;
        DropAccounted(spans, dropped, from, Us(s.value.last), Us(a.ts));
      }
    }
  }

  /** At every point of a run sorted by time. */
  lemma {:induction false} Timeline(h: seq<Act>, t: int)
    requires SortedActs(h)
    ensures Traced(StateAfter(h, t).sched, FirstSeen(h, t), Spans(h, t), Dropped(h, t))
  {
    if h != [] {
      hide Traced, NextSched, SpanCalls, DroppedBy;
      var front, a := Init(h), Last(h);
      SortedInit(h);
      Timeline(front, t);
      Snoc(front, a, t);
      SpansSnoc(front, a, t);
      if a.tid == t {
        var s := StateAfter(front, t).sched;
        if s.Some? {
          GapNeverWraps(front, a);
        }
        TracedStep(s, FirstSeen(front, t), Spans(front, t), Dropped(front, t), a);
        MachineSched(StateAfter(front, t), a);
      } else {
        assert Spans(front, t) + [] == Spans(front, t);
      }
    }
  }

  // ---- the end of the run ----

  /** What the final flush draws for a thread. */
  function FlushSpan(s: SchedState, tid: int, pid: int, lastTs: u64): seq<Call> {
    if lastTs == 0 then [] else ClosingSpan(s, tid, pid, lastTs)
  }

  /** The whole track of thread `t`, flush included. */
  function FinalSpans(h: seq<Act>, t: int, pid: int, lastTs: u64): seq<Call> {
    var s := StateAfter(h, t).sched;
    Spans(h, t) + if s.Some? then FlushSpan(s.value, t, pid, lastTs) else []
  }

  lemma NoNegativeDrop(spans: seq<Call>, dropped: real, from: real, to: real)
    requires Accounted(spans, dropped, from, to)
    ensures Tiles(spans, from, to) <==> dropped == 0.0
  {
    if Tiles(spans, from, to) {
      TilesTotal(spans, from, to);
    }
  }

  /** Time is conserved: for a run sorted by time and flushed no earlier than the
      thread's last change, the spans and the dropped time add up to the thread's
      life, the spans are ordered, and they tile that life exactly if nothing was
      dropped. */
  lemma TimeIsConserved(h: seq<Act>, t: int, pid: int, lastTs: u64)
    requires SortedActs(h) && StateAfter(h, t).sched.Some? && StateAfter(h, t).sched.value.last <= lastTs
    ensures FirstSeen(h, t).Some?
    ensures var spans, from, to := FinalSpans(h, t, pid, lastTs), Us(FirstSeen(h, t).value), Us(lastTs);
            && TotalDur(spans) + Dropped(h, t) == to - from
            && Ordered(spans) && Inside(spans, from, to)
            && (Tiles(spans, from, to) <==> Dropped(h, t) == 0.0)
  {
    Timeline(h, t);
    var s := StateAfter(h, t).sched.value;
    var spans, from := Spans(h, t), Us(FirstSeen(h, t).value);
    CloseAccounted(spans, Dropped(h, t), from, s, t, pid, lastTs);
    if lastTs == 0 {
      assert spans + [] == spans;
    }
    NoNegativeDrop(FinalSpans(h, t, pid, lastTs), Dropped(h, t), from, Us(lastTs));
  }

  /** Whenever the flush comes, the spans are positive, ordered and disjoint, and with
      the dropped time they add up to the thread's life up to the flush or, if that is
      later, up to its last change. */
  lemma AccountedUntil(h: seq<Act>, t: int, pid: int, lastTs: u64)
    requires SortedActs(h) && StateAfter(h, t).sched.Some?
    ensures FirstSeen(h, t).Some?
    ensures var last := StateAfter(h, t).sched.value.last;
            TotalDur(FinalSpans(h, t, pid, lastTs)) + Dropped(h, t) ==
            Us(if last <= lastTs then lastTs else last) - Us(FirstSeen(h, t).value)
    ensures Ordered(FinalSpans(h, t, pid, lastTs))
  {
    Timeline(h, t);
    if StateAfter(h, t).sched.value.last <= lastTs {
      TimeIsConserved(h, t, pid, lastTs);
    } else {
      assert FinalSpans(h, t, pid, lastTs) == Spans(h, t);
    }
  }

  /** A flush time that is too early loses time: conservation holds exactly if the
      flush is no earlier than the thread's last change. */
  lemma ConservedIffFlushedLate(h: seq<Act>, t: int, pid: int, lastTs: u64)
    requires SortedActs(h) && StateAfter(h, t).sched.Some?
    ensures FirstSeen(h, t).Some?
    ensures StateAfter(h, t).sched.value.last <= lastTs <==>
            TotalDur(FinalSpans(h, t, pid, lastTs)) + Dropped(h, t) == Us(lastTs) - Us(FirstSeen(h, t).value)
  {
    AccountedUntil(h, t, pid, lastTs);
  }

  /** A switch in of a thread that is on already: the time before it is dropped, and
      the spans do not tile the thread's life. */
  lemma ReassertedStateLeavesGap(h: seq<Act>)
    requires h == [Act(7, 7, 0, SwitchIn(0)), Act(7, 7, 5, SwitchIn(0))]
    ensures Dropped(h, 7) == Us(5) && FirstSeen(h, 7) == Some(0)
    ensures !Tiles(FinalSpans(h, 7, 7, 9), Us(0), Us(9))
  {
    SwitchedInTwice(h);
    assert SortedActs(h);
    hide StateAfter, FirstSeen, Dropped, FinalSpans, Tiles, TotalDur, Ordered, Inside, SortedActs;
    TimeIsConserved(h, 7, 7, 9);
  }

  lemma SwitchedInTwice(h: seq<Act>)
    requires h == [Act(7, 7, 0, SwitchIn(0)), Act(7, 7, 5, SwitchIn(0))]
    ensures FirstSeen(h, 7) == Some(0) && Dropped(h, 7) == Us(5)
    ensures StateAfter(h, 7).sched == Some(SchedState(5, true, 0, 0))
  {
    var h1 := [h[0]];
    assert h == h1 + [h[1]] && h1 == [] + [h[0]];
    SwitchedInOnce(h1);
    hide StateAfter, CallsOf, ActCalls, FirstSeen, Dropped;
    Snoc(h1, h[1], 7);
    TracedSnoc(h1, h[1], 7);
  }

  lemma SwitchedInOnce(h: seq<Act>)
    requires h == [Act(7, 7, 0, SwitchIn(0))]
    ensures FirstSeen(h, 7) == Some(0) && Dropped(h, 7) == 0.0
    ensures StateAfter(h, 7).sched == Some(SchedState(0, true, 0, 0))
  {
    assert h == [] + [h[0]];
    assert StateAfter([], 7) == IDLE && Dropped([], 7) == 0.0 && FirstSeen([], 7) == None;
    hide StateAfter, CallsOf, ActCalls, FirstSeen, Dropped;
    Snoc([], h[0], 7);
    TracedSnoc([], h[0], 7);
  }

  lemma TracedSnoc(h: seq<Act>, a: Act, t: int)
    ensures FirstSeen(h + [a], t) ==
            if FirstSeen(h, t).None? && a.tid == t && (a.op.SwitchOut? || a.op.SwitchIn? || a.op.Tick?) then Some(a.ts)
            else FirstSeen(h, t)
    ensures Dropped(h + [a], t) == Dropped(h, t) + if a.tid == t then DroppedBy(StateAfter(h, t).sched, a) else 0.0
  {
    hide StateAfter, DroppedBy;
    InitLast(h, a);
  }

  // ---- alternation ----

  /** The spans drawn last and next are of one kind: since the last one an odd number
      of periods have ended empty, each of which turns the state without a span. */
  predicate Turned(h: seq<Act>, t: int) {
    h != [] &&
    var a, s, before := Last(h), StateAfter(Init(h), t).sched, Turned(Init(h), t);
    if a.tid == t && s.Some? && Closes(s.value, a) then SpanCalls(s, a) == [] && !before else before
  }

  /** The act draws a span of the same kind as the one before it. */
  predicate RepeatsKind(h: seq<Act>, t: int, drawn: seq<Call>) {
    drawn != [] && Spans(h, t) != [] && Turned(h, t)
  }

  /** Some act of the history does so. */
  predicate SomeRepeatsKind(h: seq<Act>, t: int) {
    h != [] &&
    (SomeRepeatsKind(Init(h), t) ||
     (Last(h).tid == t && RepeatsKind(Init(h), t, SpanCalls(StateAfter(Init(h), t).sched, Last(h)))))
  }

  /** The state has turned since the last span, or not, as recorded. */
  ghost predicate KindKnown(s: Option<SchedState>, spans: seq<Call>, turned: bool) {
    spans != [] ==> s.Some? && (IsOnCpu(Last(spans)) == s.value.onCpu <==> turned)
  }

  lemma AlternatesSnoc(spans: seq<Call>, c: Call)
    ensures Alternates(spans + [c]) <==> Alternates(spans) && (spans != [] ==> IsOnCpu(Last(spans)) != IsOnCpu(c))
  {
    var r := spans + [c];
    assert forall i :: 0 <= i < |spans| ==> r[i] == spans[i];
    if Alternates(r) && spans != [] {
      assert IsOnCpu(r[|spans| - 1]) != IsOnCpu(r[|spans|]);
    }
  }

  lemma OneSpan(s: SchedState, tid: int, pid: int, now: u64)
    ensures var drawn := ClosingSpan(s, tid, pid, now);
            drawn == [] || (|drawn| == 1 && IsOnCpu(drawn[0]) == s.onCpu)
    ensures s.last < now ==> ClosingSpan(s, tid, pid, now) != []
  {
  }

  /** Drawing what closes a period keeps alternation exactly if the state has not
      turned since the last span. */
  lemma DrawnAlternates(s: SchedState, spans: seq<Call>, turned: bool, tid: int, pid: int, now: u64)
    requires KindKnown(Some(s), spans, turned)
    ensures var drawn := ClosingSpan(s, tid, pid, now);
            && (Alternates(spans + drawn) <==> Alternates(spans) && !(drawn != [] && spans != [] && turned))
            && (spans + drawn != [] ==>
                  (IsOnCpu(Last(spans + drawn)) == s.onCpu <==> if drawn == [] then turned else true))
  {
    var drawn := ClosingSpan(s, tid, pid, now);
    OneSpan(s, tid, pid, now);
    hide ClosingSpan, Alternates, IsOnCpu;
    if drawn == [] {
      Nil(spans);
    } else {
      assert drawn == [drawn[0]];
      AlternatesSnoc(spans, drawn[0]);
      InitLast(spans, drawn[0]);
    }
  }

  lemma KindStep(s: Option<SchedState>, spans: seq<Call>, turned: bool, a: Act)
    requires KindKnown(s, spans, turned)
    ensures var drawn := SpanCalls(s, a);
            && (Alternates(spans + drawn) <==> Alternates(spans) && !(drawn != [] && spans != [] && turned))
            && KindKnown(NextSched(s, a), spans + drawn,
                         if s.Some? && Closes(s.value, a) then drawn == [] && !turned else turned)
  {
    if s.Some? && Closes(s.value, a) {
      DrawnAlternates(s.value, spans, turned, a.tid, a.pid, a.ts);
      hide ClosingSpan, Alternates, IsOnCpu;
    } else {
      Nil(spans);
    }
  }

  lemma {:induction false} AlternationTracked(h: seq<Act>, t: int)
    ensures KindKnown(StateAfter(h, t).sched, Spans(h, t), Turned(h, t))
    ensures Alternates(Spans(h, t)) <==> !SomeRepeatsKind(h, t)
  {
    if h == [] {
      assert Spans(h, t) == [];
    } else {
      var front, a := Init(h), Last(h);
      assert h == front + [a];
      AlternationTracked(front, t);
      Snoc(front, a, t);
      SpansSnoc(front, a, t);
      Nil(Spans(front, t));
      MachineSched(StateAfter(front, t), a);
      hide KindKnown, NextSched, NextState, SpanCalls, Alternates, Spans, CallsOf;
      if a.tid == t {
        KindStep(StateAfter(front, t).sched, Spans(front, t), Turned(front, t), a);
      }
    }
  }

  /** On-cpu and off-cpu spans alternate along the whole track exactly if no span,
      that of the flush included, is drawn after an odd number of periods that have
      ended empty since the span before it. */
  lemma AlternatesIffNoneRepeats(h: seq<Act>, t: int, pid: int, lastTs: u64)
    ensures var s := StateAfter(h, t).sched;
            var flushed := if s.Some? then FlushSpan(s.value, t, pid, lastTs) else [];
            Alternates(FinalSpans(h, t, pid, lastTs)) <==> !SomeRepeatsKind(h, t) && !RepeatsKind(h, t, flushed)
  {
    AlternationTracked(h, t);
    hide Alternates, Spans, StateAfter, SomeRepeatsKind, Turned;
    Nil(Spans(h, t));
    var s := StateAfter(h, t).sched;
    if s.Some? {
      DrawnAlternates(s.value, Spans(h, t), Turned(h, t), t, pid, lastTs);
    }
  }

  /** The acts that read or set a thread's scheduler state. */
  predicate SetsState(op: Op) {
    op.SwitchOut? || op.SwitchIn? || op.Wakeup? || op.Tick?
  }

  /** Scheduler acts on thread `t` come at strictly rising times. */
  ghost predicate StrictOn(h: seq<Act>, t: int) {
    forall i, j :: 0 <= i < j < |h| && h[i].tid == t && h[j].tid == t && SetsState(h[i].op) && SetsState(h[j].op) ==>
      h[i].ts < h[j].ts
  }

  lemma {:induction false} StampIsScheduling(h: seq<Act>, t: int) returns (k: nat)
    requires StateAfter(h, t).sched.Some?
    ensures k < |h| && h[k].tid == t && SetsState(h[k].op) && h[k].ts == StateAfter(h, t).sched.value.last
  {
    var front, a := Init(h), Last(h);
    if a.tid == t && StateAfter(h, t).sched != StateAfter(front, t).sched {
      k := |h| - 1;
    } else {
      k := StampIsScheduling(front, t);
    }
  }

  lemma {:induction false} NeverTurned(h: seq<Act>, t: int)
    requires StrictOn(h, t)
    ensures !Turned(h, t) && !SomeRepeatsKind(h, t)
  {
    if h != [] {
      var front, a := Init(h), Last(h);
      NeverTurned(front, t);
      var s := StateAfter(front, t).sched;
      hide StateAfter, ClosingSpan;
      if a.tid == t && s.Some? && Closes(s.value, a) {
        var k := StampIsScheduling(front, t);
        assert h[k] == front[k] && h[|h| - 1] == a;
        OneSpan(s.value, a.tid, a.pid, a.ts);
      }
    }
  }

  /** If no two scheduler acts on the thread share a time, on-cpu and off-cpu spans
      alternate along the whole track. */
  lemma SpansAlternate(h: seq<Act>, t: int, pid: int, lastTs: u64)
    requires StrictOn(h, t)
    ensures Alternates(FinalSpans(h, t, pid, lastTs))
  {
    NeverTurned(h, t);
    AlternatesIffNoneRepeats(h, t, pid, lastTs);
  }

  lemma SwitchedInAndOut(h: seq<Act>)
    requires h == [Act(7, 7, 0, SwitchIn(0)), Act(7, 7, 5, SwitchOut(1, 0))]
    ensures StateAfter(h, 7).sched == Some(SchedState(5, false, 1, 0))
    ensures |Spans(h, 7)| == 1 && IsOnCpu(Spans(h, 7)[0])
  {
    assert StateAfter([], 7) == IDLE && Spans([], 7) == [];
    hide StateAfter, CallsOf, Spans, ActCalls;
    var h1 := h[..1];
    assert h1 == [] + [h[0]] && h == h1 + [h[1]];
    Snoc([], h[0], 7); Snoc(h1, h[1], 7);
    SpansSnoc([], h[0], 7); SpansSnoc(h1, h[1], 7);
  }

  /** With a shared time they need not: switched out and back in at one instant, the
      thread gets two on-cpu spans in a row. */
  lemma SharedTimeBreaksAlternation(h: seq<Act>)
    requires h == [Act(7, 7, 0, SwitchIn(0)), Act(7, 7, 5, SwitchOut(1, 0)), Act(7, 7, 5, SwitchIn(0))]
    ensures SortedActs(h) && !Alternates(FinalSpans(h, 7, 7, 9))
  {
    var h2 := h[..2];
    SwitchedInAndOut(h2);
    hide StateAfter, CallsOf, Spans, ActCalls;
    assert h == h2 + [h[2]];
    Snoc(h2, h[2], 7);
    SpansSnoc(h2, h[2], 7);
    var spans := FinalSpans(h, 7, 7, 9);
    assert |spans| == 2 && IsOnCpu(spans[0]) && IsOnCpu(spans[1]);
  }
}
