/** What the GIL and GPU machines draw: begin and end marks on two tracks per
    thread, read back by a viewer that keeps a stack of open spans. */
module BracketTracks {
  import opened Seqs
  import opened Events
  import opened Output
  import opened ThreadMachines

  function OnTrack(tid: int): Call -> bool {
    (c: Call) => c.tid == tid
  }

  function GilTrack(h: seq<Act>, t: int): seq<Call> {
    Filter(OnTrack(t + GIL_TID_OFFSET), CallsOf(h))
  }

  function GpuTrack(h: seq<Act>, t: int): seq<Call> {
    Filter(OnTrack(t + GPU_TID_OFFSET), CallsOf(h))
  }

  predicate GilOp(op: Op) {
    op.Take? || op.TakeReturn? || op.Drop?
  }

  predicate GpuOp(op: Op) {
    op.Enter? || op.Leave?
  }

  // ---- the viewer ----

  /** The stack of open spans after one more mark; None once an end does not match
      the innermost open span. */
  function Read(open: Option<seq<Label>>, c: Call): Option<seq<Label>> {
    if open.None? then None
    else if c.Begin? then Some(open.value + [c.name])
    else if c.End? then
      if open.value != [] && Last(open.value) == c.name then Some(Init(open.value)) else None
    else open
  }

  function ReadAll(track: seq<Call>): Option<seq<Label>> {
    if track == [] then Some([]) else Read(ReadAll(Init(track)), Last(track))
  }

  /** Begins minus ends. */
  function Balance(track: seq<Call>): int {
    if track == [] then 0
    else Balance(Init(track)) + if Last(track).Begin? then 1 else if Last(track).End? then -1 else 0
  }

  /** In no prefix do ends outnumber begins. */
  predicate EndsFollowBegins(track: seq<Call>) {
    track == [] || (EndsFollowBegins(Init(track)) && Balance(track) >= 0)
  }

  function Named(name: Label): Call -> bool {
    (c: Call) => (c.Begin? || c.End?) && c.name == name
  }

  /** Begin and end alternate, starting with a begin; `open` says which came last. */
  predicate Toggles(track: seq<Call>, open: bool) {
    if track == [] then !open
    else if Last(track).Begin? then open && Toggles(Init(track), false)
    else Last(track).End? && !open && Toggles(Init(track), true)
  }

  lemma TrackSnoc(track: seq<Call>, c: Call)
    ensures ReadAll(track + [c]) == Read(ReadAll(track), c)
    ensures Balance(track + [c]) == Balance(track) + if c.Begin? then 1 else if c.End? then -1 else 0
    ensures EndsFollowBegins(track + [c]) <==> EndsFollowBegins(track) && Balance(track + [c]) >= 0
  {
    InitLast(track, c);
  }

  lemma TogglesSnoc(track: seq<Call>, c: Call, open: bool)
    ensures Toggles(track + [c], open) <==>
            if c.Begin? then open && Toggles(track, false) else c.End? && !open && Toggles(track, true)
  {
    InitLast(track, c);
  }

  // ---- one act ----

  /** The track of an act's marks. */
  function MarkTid(a: Act): int {
    a.tid + if GilOp(a.op) then GIL_TID_OFFSET else if GpuOp(a.op) then GPU_TID_OFFSET else SCHED_TID_OFFSET
  }

  lemma SpanTrack(s: Option<SchedState>, a: Act)
    ensures forall i :: 0 <= i < |SpanCalls(s, a)| ==> SpanCalls(s, a)[i].tid == a.tid + SCHED_TID_OFFSET
  {
  }

  lemma MarkTrack(s: ThreadState, a: Act)
    ensures forall i :: 0 <= i < |MarkCalls(s, a)| ==> MarkCalls(s, a)[i].tid == MarkTid(a)
  {
  }

  /** Away from its scheduler track, an act only draws its marks. */
  lemma ActOnTrack(s: ThreadState, a: Act, tid: int)
    requires tid != a.tid + SCHED_TID_OFFSET
    ensures Filter(OnTrack(tid), ActCalls(s, a)) == if tid == MarkTid(a) then MarkCalls(s, a) else []
  {
    var spans, marks := SpanCalls(s.sched, a), MarkCalls(s, a);
    SpanTrack(s.sched, a);
    MarkTrack(s, a);
    hide SpanCalls, MarkCalls, MarkTid;
    FilterAppend(OnTrack(tid), spans, marks);
    FilterNone(OnTrack(tid), spans);
    if tid == MarkTid(a) {
      FilterAll(OnTrack(tid), marks);
    } else {
      FilterNone(OnTrack(tid), marks);
    }
  }

  lemma OnTrackSnoc(h: seq<Act>, a: Act, tid: int)
    requires tid != a.tid + SCHED_TID_OFFSET
    ensures Filter(OnTrack(tid), CallsOf(h + [a])) ==
            Filter(OnTrack(tid), CallsOf(h)) + if tid == MarkTid(a) then MarkCalls(StateAfter(h, a.tid), a) else []
  {
    hide ActCalls, MarkCalls, MarkTid, NextState;
    Snoc(h, a, a.tid);
    FilterAppend(OnTrack(tid), CallsOf(h), ActCalls(StateAfter(h, a.tid), a));
    ActOnTrack(StateAfter(h, a.tid), a, tid);
  }

  lemma GilSnoc(h: seq<Act>, a: Act, t: int)
    requires RealTid(a.tid) && RealTid(t)
    ensures GilTrack(h + [a], t) ==
            GilTrack(h, t) + if a.tid == t && GilOp(a.op) then MarkCalls(StateAfter(h, t), a) else []
  {
    hide MarkCalls, CallsOf, StateAfter, Filter;
    OnTrackSnoc(h, a, t + GIL_TID_OFFSET);
  }

  lemma GpuSnoc(h: seq<Act>, a: Act, t: int)
    requires RealTid(a.tid) && RealTid(t)
    ensures GpuTrack(h + [a], t) ==
            GpuTrack(h, t) + if a.tid == t && GpuOp(a.op) then MarkCalls(StateAfter(h, t), a) else []
  {
    hide MarkCalls, CallsOf, StateAfter, Filter;
    OnTrackSnoc(h, a, t + GPU_TID_OFFSET);
  }

  // ---- the GIL track ----

  /** A drop arrives while the thread holds the GIL and is already taking it again. */
  predicate DropsWhileTaking(h: seq<Act>, t: int) {
    h != [] &&
    (DropsWhileTaking(Init(h), t) ||
     (var s := StateAfter(Init(h), t); Last(h).tid == t && Last(h).op.Drop? && s.gilStart.Some? && s.gilHeld.Some?))
  }

  /** A take arrives while the thread holds the GIL. */
  predicate TakesWhileHeld(h: seq<Act>, t: int) {
    h != [] &&
    (TakesWhileHeld(Init(h), t) ||
     (var s := StateAfter(Init(h), t); Last(h).tid == t && Last(h).op.Take? && s.gilStart.None? && s.gilHeld.Some?))
  }

  ghost predicate OnlyHeld(open: seq<Label>, held: bool) {
    && (forall i :: 0 <= i < |open| ==> open[i] == GilHeld)
    && (held ==> open != [])
  }

  /** The open spans of a GIL track that has stayed readable. */
  ghost predicate GilStack(open: seq<Label>, s: ThreadState) {
    if s.gilStart.Some? then open != [] && Last(open) == GilAcquire && OnlyHeld(Init(open), s.gilHeld.Some?)
    else OnlyHeld(open, s.gilHeld.Some?)
  }

  function ReadOn(open: Option<seq<Label>>, calls: seq<Call>): Option<seq<Label>> {
    if calls == [] then open else Read(ReadOn(open, Init(calls)), Last(calls))
  }

  lemma {:induction false} ReadAppend(track: seq<Call>, calls: seq<Call>)
    ensures ReadAll(track + calls) == ReadOn(ReadAll(track), calls)
  {
    if calls == [] {
      assert track + calls == track;
    } else {
      ReadAppend(track, Init(calls));
      assert track + calls == (track + Init(calls)) + [Last(calls)];
      TrackSnoc(track + Init(calls), Last(calls));
    }
  }

  lemma ReadMarks(open: Option<seq<Label>>, marks: seq<Call>)
    ensures |marks| == 0 ==> ReadOn(open, marks) == open
    ensures |marks| == 1 ==> ReadOn(open, marks) == Read(open, marks[0])
    ensures |marks| == 2 ==> ReadOn(open, marks) == Read(Read(open, marks[0]), marks[1])
  {
    if |marks| == 1 {
      assert Init(marks) == [];
    } else if |marks| == 2 {
      assert Init(marks) == [marks[0]] && Init([marks[0]]) == [];
    }
  }

  lemma TakeStep(open: seq<Label>, s: ThreadState, a: Act)
    requires GilStack(open, s) && a.op.Take?
    ensures var r := ReadOn(Some(open), MarkCalls(s, a)); r.Some? && GilStack(r.value, NextState(s, a))
  {
    ReadMarks(Some(open), MarkCalls(s, a));
    hide ReadOn;
    if s.gilStart.None? {
      assert Init(open + [GilAcquire]) == open;
    }
  }

  lemma ReturnStep(open: seq<Label>, s: ThreadState, a: Act)
    requires GilStack(open, s) && a.op.TakeReturn?
    ensures var r := ReadOn(Some(open), MarkCalls(s, a)); r.Some? && GilStack(r.value, NextState(s, a))
  {
    ReadMarks(Some(open), MarkCalls(s, a));
    hide ReadOn;
    if s.gilStart.Some? {
      OnlyHeldMore(Init(open), s.gilHeld.Some?);
    }
  }

  lemma DropStep(open: seq<Label>, s: ThreadState, a: Act)
    requires GilStack(open, s) && a.op.Drop?
    ensures var r := ReadOn(Some(open), MarkCalls(s, a));
            if s.gilStart.Some? && s.gilHeld.Some? then r.None?
            else r.Some? && GilStack(r.value, NextState(s, a))
  {
    ReadMarks(Some(open), MarkCalls(s, a));
    hide ReadOn;
    if s.gilStart.None? && s.gilHeld.Some? {
      assert Last(open) == GilHeld;
    }
  }

  lemma GilStackStep(open: seq<Label>, s: ThreadState, a: Act)
    requires GilStack(open, s) && GilOp(a.op)
    ensures var r := ReadOn(Some(open), MarkCalls(s, a));
            if a.op.Drop? && s.gilStart.Some? && s.gilHeld.Some? then r.None?
            else r.Some? && GilStack(r.value, NextState(s, a))
  {
    hide ReadOn, GilStack, MarkCalls, NextState;
    if a.op.Take? {
      TakeStep(open, s, a);
    } else if a.op.TakeReturn? {
      ReturnStep(open, s, a);
    } else {
      DropStep(open, s, a);
    }
  }

  lemma OnlyHeldMore(open: seq<Label>, held: bool)
    requires OnlyHeld(open, held)
    ensures OnlyHeld(open + [GilHeld], true)
  {
  }

  lemma ReadOnNone(calls: seq<Call>)
    ensures ReadOn(None, calls).None?
  {
  }

  /** A viewer can read the GIL track exactly if no drop arrives in the middle of a
      repeated take; what is open then is held spans, with the take on top. */
  lemma {:induction false} GilTrackIsLifo(h: seq<Act>, t: int)
    requires RealTids(h) && RealTid(t)
    ensures ReadAll(GilTrack(h, t)).Some? <==> !DropsWhileTaking(h, t)
    ensures ReadAll(GilTrack(h, t)).Some? ==> GilStack(ReadAll(GilTrack(h, t)).value, StateAfter(h, t))
  {
    if h != [] {
      var front, a := Init(h), Last(h);
      var s := StateAfter(front, t);
      assert h == front + [a];
      GilTrackIsLifo(front, t);
      GilSnoc(front, a, t);
      Snoc(front, a, t);
      hide MarkCalls, GilStack, CallsOf;
      if a.tid == t && GilOp(a.op) {
        ReadAppend(GilTrack(front, t), MarkCalls(s, a));
        if ReadAll(GilTrack(front, t)).Some? {
          GilStackStep(ReadAll(GilTrack(front, t)).value, s, a);
        } else {
          ReadOnNone(MarkCalls(s, a));
        }
      } else {
        assert GilTrack(front, t) + [] == GilTrack(front, t);
        if a.tid == t {
          OtherOpsKeepGil(s, a);
        }
      }
    }
  }

  lemma OtherOpsKeepGil(s: ThreadState, a: Act)
    requires !GilOp(a.op)
    ensures NextState(s, a).gilStart == s.gilStart && NextState(s, a).gilHeld == s.gilHeld
    ensures forall open :: GilStack(open, NextState(s, a)) <==> GilStack(open, s)
  {
  }

  /** At every point of the run the track is readable with at most one span open. */
  ghost predicate OneAtATime(h: seq<Act>, t: int) {
    forall k :: 0 <= k <= |h| ==> AtMostOne(ReadAll(GilTrack(h[..k], t)))
  }

  predicate AtMostOne(open: Option<seq<Label>>) {
    open.Some? && |open.value| <= 1
  }

  lemma OneAtATimeSnoc(h: seq<Act>, a: Act, t: int)
    ensures OneAtATime(h + [a], t) <==> OneAtATime(h, t) && AtMostOne(ReadAll(GilTrack(h + [a], t)))
  {
    hide GilTrack, AtMostOne;
    var r := h + [a];
    assert forall k :: 0 <= k <= |h| ==> r[..k] == h[..k];
    assert r[..|r|] == r;
  }

  /** The GIL track never has two spans open exactly if no take arrives while the
      thread holds the GIL; then what is open is what the machine says. */
  lemma {:induction false} OneGilSpanAtATime(h: seq<Act>, t: int)
    requires RealTids(h) && RealTid(t)
    ensures OneAtATime(h, t) <==> !TakesWhileHeld(h, t)
    ensures OneAtATime(h, t) ==>
              var s := StateAfter(h, t);
              ReadAll(GilTrack(h, t)) ==
              Some(if s.gilStart.Some? then [GilAcquire] else if s.gilHeld.Some? then [GilHeld] else [])
              && !(s.gilStart.Some? && s.gilHeld.Some?)
  {
    if h != [] {
      var front, a := Init(h), Last(h);
      var s := StateAfter(front, t);
      assert h == front + [a];
      OneGilSpanAtATime(front, t);
      OneAtATimeSnoc(front, a, t);
      GilSnoc(front, a, t);
      Snoc(front, a, t);
      hide CallsOf, GilTrack, OneAtATime, MarkCalls;
      if a.tid == t && GilOp(a.op) {
        ReadAppend(GilTrack(front, t), MarkCalls(s, a));
        if OneAtATime(front, t) {
          OneSpanStep(ReadAll(GilTrack(front, t)).value, s, a);
        }
      } else {
        assert GilTrack(front, t) + [] == GilTrack(front, t);
        if a.tid == t {
          OtherOpsKeepGil(s, a);
        }
      }
    }
  }

  lemma OneSpanStep(open: seq<Label>, s: ThreadState, a: Act)
    requires open == if s.gilStart.Some? then [GilAcquire] else if s.gilHeld.Some? then [GilHeld] else []
    requires !(s.gilStart.Some? && s.gilHeld.Some?) && GilOp(a.op)
    ensures var r, s' := ReadOn(Some(open), MarkCalls(s, a)), NextState(s, a);
            if a.op.Take? && s.gilStart.None? && s.gilHeld.Some? then r.Some? && |r.value| == 2
            else
              && r == Some(if s'.gilStart.Some? then [GilAcquire] else if s'.gilHeld.Some? then [GilHeld] else [])
              && !(s'.gilStart.Some? && s'.gilHeld.Some?)
  {
    var marks := MarkCalls(s, a);
    if open == [] {
      assert open + [GilAcquire] == [GilAcquire];
    } else {
      assert Init(open) == [] && Init(open) + [GilHeld] == [GilHeld];
    }
    ReadMarks(Some(open), marks);
  }

  // ---- bracketing ----

  lemma OneMark(track: seq<Call>, c: Call, name: Label, open: bool)
    requires (c.Begin? || c.End?) && Toggles(Filter(Named(name), track), open)
    requires c.name == name ==> c.Begin? == !open
    ensures Toggles(Filter(Named(name), track + [c]), if c.name == name then !open else open)
  {
    FilterSnoc(Named(name), track, c);
    assert Named(name)(c) <==> c.name == name;
    TogglesSnoc(Filter(Named(name), track), c, !open);
    assert Filter(Named(name), track) + [] == Filter(Named(name), track);
  }

  lemma AcquireStep(track: seq<Call>, s: ThreadState, a: Act)
    requires Toggles(Filter(Named(GilAcquire), track), s.gilStart.Some?) && GilOp(a.op)
    ensures Toggles(Filter(Named(GilAcquire), track + MarkCalls(s, a)), NextState(s, a).gilStart.Some?)
  {
    hide Toggles, Filter;
    var marks := MarkCalls(s, a);
    if |marks| == 2 {
      OneMark(track, marks[0], GilAcquire, true);
      OneMark(track + [marks[0]], marks[1], GilAcquire, false);
      assert track + marks == track + [marks[0]] + [marks[1]];
    } else if |marks| == 1 {
      OneMark(track, marks[0], GilAcquire, s.gilStart.Some?);
    } else {
      assert track + marks == track;
    }
  }

  /** "GIL acquire" begins and ends strictly alternate, open exactly when recorded. */
  lemma {:induction false} AcquireToggles(h: seq<Act>, t: int)
    requires RealTids(h) && RealTid(t)
    ensures Toggles(Filter(Named(GilAcquire), GilTrack(h, t)), StateAfter(h, t).gilStart.Some?)
  {
    if h != [] {
      var front, a := Init(h), Last(h);
      assert h == front + [a];
      AcquireToggles(front, t);
      hide MarkCalls, NextState, Toggles, GilTrack;
      GilSnoc(front, a, t);
      Snoc(front, a, t);
      if a.tid == t && GilOp(a.op) {
        AcquireStep(GilTrack(front, t), StateAfter(front, t), a);
      } else {
        assert GilTrack(front, t) + [] == GilTrack(front, t);
        if a.tid == t {
          OtherOpsKeepGil(StateAfter(front, t), a);
        }
      }
    }
  }

  lemma ApiStep(track: seq<Call>, s: ThreadState, a: Act, api: Api)
    requires Toggles(Filter(Named(ApiSpan(api)), track), api in s.gpuOpen) && GpuOp(a.op)
    ensures Toggles(Filter(Named(ApiSpan(api)), track + MarkCalls(s, a)), api in NextState(s, a).gpuOpen)
  {
    hide Toggles, Filter;
    var marks := MarkCalls(s, a);
    if |marks| == 1 {
      OneMark(track, marks[0], ApiSpan(api), api in s.gpuOpen);
    } else {
      assert track + marks == track;
    }
  }

  lemma OtherOpsKeepGpu(s: ThreadState, a: Act)
    requires !GpuOp(a.op)
    ensures NextState(s, a).gpuOpen == s.gpuOpen
  {
  }

  /** Begins and ends of each API name strictly alternate, open exactly when recorded. */
  lemma {:induction false} ApiToggles(h: seq<Act>, t: int, api: Api)
    requires RealTids(h) && RealTid(t)
    ensures Toggles(Filter(Named(ApiSpan(api)), GpuTrack(h, t)), api in StateAfter(h, t).gpuOpen)
  {
    if h != [] {
      var front, a := Init(h), Last(h);
      assert h == front + [a];
      ApiToggles(front, t, api);
      hide MarkCalls, NextState, Toggles, GpuTrack;
      GpuSnoc(front, a, t);
      Snoc(front, a, t);
      if a.tid == t && GpuOp(a.op) {
        ApiStep(GpuTrack(front, t), StateAfter(front, t), a, api);
      } else {
        assert GpuTrack(front, t) + [] == GpuTrack(front, t);
        if a.tid == t {
          OtherOpsKeepGpu(StateAfter(front, t), a);
        }
      }
    }
  }

  /** A recorded acquire or hold is a begin without its end. */
  function InHand(s: ThreadState): int {
    (if s.gilStart.Some? then 1 else 0) + (if s.gilHeld.Some? then 1 else 0)
  }

  lemma GilBalanceStep(track: seq<Call>, s: ThreadState, a: Act)
    requires EndsFollowBegins(track) && Balance(track) >= InHand(s) && GilOp(a.op)
    ensures EndsFollowBegins(track + MarkCalls(s, a)) && Balance(track + MarkCalls(s, a)) >= InHand(NextState(s, a))
  {
    hide EndsFollowBegins, Balance;
    var marks := MarkCalls(s, a);
    if |marks| == 2 {
      TrackSnoc(track, marks[0]);
      TrackSnoc(track + [marks[0]], marks[1]);
      assert track + marks == track + [marks[0]] + [marks[1]];
    } else if |marks| == 1 {
      TrackSnoc(track, marks[0]);
    } else {
      assert track + marks == track;
    }
  }

  /** In no prefix of a GIL track do ends outnumber begins. */
  lemma {:induction false} GilEndsFollowBegins(h: seq<Act>, t: int)
    requires RealTids(h) && RealTid(t)
    ensures EndsFollowBegins(GilTrack(h, t))
    ensures Balance(GilTrack(h, t)) >= InHand(StateAfter(h, t))
  {
    if h != [] {
      var front, a := Init(h), Last(h);
      assert h == front + [a];
      GilEndsFollowBegins(front, t);
      hide MarkCalls, NextState, EndsFollowBegins, Balance, GilTrack;
      GilSnoc(front, a, t);
      Snoc(front, a, t);
      if a.tid == t && GilOp(a.op) {
        GilBalanceStep(GilTrack(front, t), StateAfter(front, t), a);
      } else {
        assert GilTrack(front, t) + [] == GilTrack(front, t);
        if a.tid == t {
          OtherOpsKeepGil(StateAfter(front, t), a);
        }
      }
    }
  }

  lemma GpuBalanceStep(track: seq<Call>, s: ThreadState, a: Act)
    requires EndsFollowBegins(track) && Balance(track) == |s.gpuOpen| && GpuOp(a.op)
    ensures EndsFollowBegins(track + MarkCalls(s, a))
    ensures Balance(track + MarkCalls(s, a)) == |NextState(s, a).gpuOpen|
  {
    hide EndsFollowBegins, Balance;
    var marks := MarkCalls(s, a);
    if |marks| == 1 {
      TrackSnoc(track, marks[0]);
    } else {
      assert track + marks == track;
      assert NextState(s, a).gpuOpen == s.gpuOpen;
    }
  }

  /** The begins of a GPU track outnumber its ends by the number of open names. */
  lemma {:induction false} GpuBalance(h: seq<Act>, t: int)
    requires RealTids(h) && RealTid(t)
    ensures EndsFollowBegins(GpuTrack(h, t))
    ensures Balance(GpuTrack(h, t)) == |StateAfter(h, t).gpuOpen|
  {
    if h != [] {
      var front, a := Init(h), Last(h);
      assert h == front + [a];
      GpuBalance(front, t);
      hide MarkCalls, NextState, EndsFollowBegins, Balance, GpuTrack;
      GpuSnoc(front, a, t);
      Snoc(front, a, t);
      if a.tid == t && GpuOp(a.op) {
        GpuBalanceStep(GpuTrack(front, t), StateAfter(front, t), a);
      } else {
        assert GpuTrack(front, t) + [] == GpuTrack(front, t);
        if a.tid == t {
          OtherOpsKeepGpu(StateAfter(front, t), a);
        }
      }
    }
  }

  // ---- nesting of GPU calls ----

  /** The calls as a caller makes them: entering pushes, leaving the innermost call
      pops; entering a call that is open or leaving one that is not is a repeat and
      changes nothing; leaving an outer call first is improper. */
  function Nesting(h: seq<Act>, t: int): Option<seq<Api>> {
    if h == [] then Some([])
    else
      var before, a := Nesting(Init(h), t), Last(h);
      if before.None? || a.tid != t then before
      else
        match a.op
        case Enter(api) => if api in before.value then before else Some(before.value + [api])
        case Leave(api) =>
          if api !in before.value then before
          else if Last(before.value) == api then Some(Init(before.value))
          else None
        case _ => before
  }

  function AsSpan(api: Api): Label {
    ApiSpan(api)
  }

  ghost predicate SameStack(names: seq<Label>, apis: seq<Api>, open: set<Api>) {
    && names == Map(AsSpan, apis)
    && (forall api :: api in open <==> api in apis)
    && forall i, j :: 0 <= i < j < |apis| ==> apis[i] != apis[j]
  }

  lemma NestStep(names: seq<Label>, apis: seq<Api>, s: ThreadState, a: Act)
    requires SameStack(names, apis, s.gpuOpen) && GpuOp(a.op)
    ensures var r := ReadOn(Some(names), MarkCalls(s, a));
            match a.op
            case Enter(api) => r.Some? &&
              SameStack(r.value, if api in apis then apis else apis + [api], NextState(s, a).gpuOpen)
            case Leave(api) =>
              if api !in apis then r.Some? && SameStack(r.value, apis, NextState(s, a).gpuOpen)
              else if Last(apis) == api then r.Some? && SameStack(r.value, Init(apis), NextState(s, a).gpuOpen)
              else r.None?
  {
    var marks := MarkCalls(s, a);
    ReadMarks(Some(names), marks);
    if |marks| == 1 {
      if a.op.Leave? && Last(apis) == a.op.api {
        assert Map(AsSpan, Init(apis)) == Init(names);
        assert apis == Init(apis) + [a.op.api];
      }
    }
  }

  /** A viewer can read the GPU track exactly if the calls nest, up to repeats; and
      then its open spans are the caller's open calls, in order. */
  lemma {:induction false} GpuTrackIsLifo(h: seq<Act>, t: int)
    requires RealTids(h) && RealTid(t)
    ensures ReadAll(GpuTrack(h, t)).Some? <==> Nesting(h, t).Some?
    ensures Nesting(h, t).Some? ==>
              SameStack(ReadAll(GpuTrack(h, t)).value, Nesting(h, t).value, StateAfter(h, t).gpuOpen)
  {
    if h != [] {
      var front, a := Init(h), Last(h);
      var s := StateAfter(front, t);
      assert h == front + [a];
      GpuTrackIsLifo(front, t);
      GpuSnoc(front, a, t);
      Snoc(front, a, t);
      hide MarkCalls, NextState, GpuTrack, SameStack, ReadAll;
      if a.tid == t && GpuOp(a.op) {
        ReadAppend(GpuTrack(front, t), MarkCalls(s, a));
        if ReadAll(GpuTrack(front, t)).Some? {
          NestStep(ReadAll(GpuTrack(front, t)).value, Nesting(front, t).value, s, a);
        } else {
          ReadOnNone(MarkCalls(s, a));
        }
      } else {
        assert GpuTrack(front, t) + [] == GpuTrack(front, t);
        if a.tid == t {
          OtherOpsKeepGpu(s, a);
        }
      }
    } else {
      assert GpuTrack(h, t) == [] && Map(AsSpan, []) == [];
    }
  }

  // ---- that the conditions can fail ----

  /** Taken, held, taken again, dropped: the end of "GIL held" meets "GIL acquire". */
  lemma RepeatedTakeBreaksGilTrack(h: seq<Act>)
    requires h == [Act(7, 7, 1, Take), Act(7, 7, 2, TakeReturn), Act(7, 7, 3, Take), Act(7, 7, 4, Drop)]
    ensures ReadAll(GilTrack(h, 7)).None?
  {
    assert RealTids(h);
    DroppedWhileTaking(h);
    hide DropsWhileTaking, RealTids, ReadAll, GilTrack, GilStack, StateAfter;
    GilTrackIsLifo(h, 7);
  }

  lemma DroppedWhileTaking(h: seq<Act>)
    requires h == [Act(7, 7, 1, Take), Act(7, 7, 2, TakeReturn), Act(7, 7, 3, Take), Act(7, 7, 4, Drop)]
    ensures DropsWhileTaking(h, 7)
  {
    hide ActCalls, CallsOf;
    var h1, h2, h3 := h[..1], h[..2], h[..3];
    assert h1 == [] + [h[0]] && h2 == h1 + [h[1]] && h3 == h2 + [h[2]] && h == h3 + [h[3]];
    Snoc([], h[0], 7); Snoc(h1, h[1], 7); Snoc(h2, h[2], 7);
    InitLast(h3, h[3]);
  }

  /** Two overlapping calls that do not nest. */
  lemma OverlapBreaksGpuTrack(h: seq<Act>)
    requires h == [Act(7, 7, 1, Enter(NvidiaLaunch)), Act(7, 7, 2, Enter(NvidiaMalloc)),
                   Act(7, 7, 3, Leave(NvidiaLaunch))]
    ensures ReadAll(GpuTrack(h, 7)).None?
  {
    assert RealTids(h);
    OverlapDoesNotNest(h);
    hide Nesting, RealTids, ReadAll, GpuTrack, SameStack, StateAfter;
    GpuTrackIsLifo(h, 7);
  }

  lemma OverlapDoesNotNest(h: seq<Act>)
    requires h == [Act(7, 7, 1, Enter(NvidiaLaunch)), Act(7, 7, 2, Enter(NvidiaMalloc)),
                   Act(7, 7, 3, Leave(NvidiaLaunch))]
    ensures Nesting(h, 7).None?
  {
    var h1, h2 := h[..1], h[..2];
    assert Init(h) == h2 && Init(h2) == h1 && Init(h1) == [];
    assert Nesting(h1, 7) == Some([NvidiaLaunch]) by {
      assert Nesting([], 7) == Some([]) && [] + [NvidiaLaunch] == [NvidiaLaunch];
    }
    assert Nesting(h2, 7) == Some([NvidiaLaunch, NvidiaMalloc]) by {
      assert [NvidiaLaunch] + [NvidiaMalloc] == [NvidiaLaunch, NvidiaMalloc];
    }
  }
}
