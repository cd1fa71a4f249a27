/** Probes that fire twice, seen at the event stream: when the repeats can be deleted
    without a trace, whatever the filters and time bounds. */
module RepeatedFirings {
  import opened Seqs
  import opened Events
  import opened Output
  import opened ThreadMachines
  import opened MergeEngine
  import BracketTracks
  import opened DuplicateProbes
  import WholeRuns

  // ---- events and their probes ----

  /** The two events are GIL firings on one thread, or firings of one API on one thread. */
  predicate SameProbe(x: PerfEvent, e: PerfEvent) {
    x.tid == e.tid &&
    ((GilKind(x.kind) && GilKind(e.kind)) || (ApiKind(x.kind) && ApiKind(e.kind) && x.kind.api == e.kind.api))
  }

  predicate SameFiring(x: PerfKind, k: PerfKind) {
    match x
    case TakeGil => k.TakeGil?
    case TakeGilReturn => k.TakeGilReturn?
    case DropGil => k.DropGil?
    case ApiEntry(_) => k.ApiEntry?
    case ApiReturn(_) => k.ApiReturn?
    case _ => false
  }

  function LastFiring(es: seq<PerfEvent>, e: PerfEvent): Option<PerfEvent> {
    if es == [] then None
    else if SameProbe(Last(es), e) then Some(Last(es))
    else LastFiring(Init(es), e)
  }

  predicate FiresAgain(es: seq<PerfEvent>, e: PerfEvent) {
    LastFiring(es, e).Some? && SameFiring(LastFiring(es, e).value.kind, e.kind)
  }

  /** The stream without the firings that repeat the one before them. */
  function EraseEvents(es: seq<PerfEvent>): seq<PerfEvent> {
    if es == [] then []
    else EraseEvents(Init(es)) + if FiresAgain(Init(es), Last(es)) then [] else [Last(es)]
  }

  /** What event `i` of the stream draws, after the history `start` and the events
      before it. */
  function DrawnBy(cfg: Config, start: seq<Act>, es: seq<PerfEvent>, i: nat): seq<Call>
    requires i < |es|
  {
    CallsAfter(start + ActsOf(cfg, es[..i]), ActionsOf(cfg, es[i]))
  }

  /** No repeated firing draws anything. */
  ghost predicate SilentRepeats(cfg: Config, start: seq<Act>, es: seq<PerfEvent>) {
    forall i :: 0 <= i < |es| && FiresAgain(es[..i], es[i]) ==> DrawnBy(cfg, start, es, i) == []
  }

  /** No two firings of one probe share a time. */
  ghost predicate FiringsApart(es: seq<PerfEvent>) {
    forall i, j :: 0 <= i < j < |es| && SameProbe(es[i], es[j]) ==> es[i].timestampNs != es[j].timestampNs
  }

  // ---- silent repeats can be erased ----

  /** A GIL or API act that draws nothing changes nothing. */
  lemma SilentActKeepsState(s: ThreadState, a: Act)
    requires BracketTracks.GilOp(a.op) || BracketTracks.GpuOp(a.op)
    requires ActCalls(s, a) == []
    ensures NextState(s, a) == s
  {
  }

  /** A firing is at most one act, of a GIL or API kind. */
  lemma FiringIsOneAct(cfg: Config, e: PerfEvent)
    requires GilKind(e.kind) || ApiKind(e.kind)
    ensures |ActionsOf(cfg, e)| <= 1
    ensures ActionsOf(cfg, e) != [] ==>
              BracketTracks.GilOp(ActionsOf(cfg, e)[0].op) || BracketTracks.GpuOp(ActionsOf(cfg, e)[0].op)
  {
  }

  lemma {:induction false} LastFiringIsIn(es: seq<PerfEvent>, e: PerfEvent) returns (k: nat)
    requires LastFiring(es, e).Some?
    ensures k < |es| && es[k] == LastFiring(es, e).value && SameProbe(es[k], e)
    ensures forall m :: k < m < |es| ==> !SameProbe(es[m], e)
  {
    hide SameProbe;
    if SameProbe(Last(es), e) {
      k := |es| - 1;
    } else {
      k := LastFiringIsIn(Init(es), e);
    }
  }

  lemma ProbeKinds(x: PerfEvent, e: PerfEvent)
    requires SameProbe(x, e)
    ensures x.tid == e.tid && GilKind(x.kind) == GilKind(e.kind) && (GilKind(e.kind) || ApiKind(e.kind))
  {
  }

  /** Histories that agree on every thread's state go on alike. */
  lemma {:induction false} SameStatesGoOn(h1: seq<Act>, h2: seq<Act>, more: seq<Act>)
    requires forall t :: StateAfter(h1, t) == StateAfter(h2, t)
    ensures forall t :: StateAfter(h1 + more, t) == StateAfter(h2 + more, t)
    ensures CallsAfter(h1, more) == CallsAfter(h2, more)
  {
    hide NextState, ActCalls, StateAfter, CallsAfter;
    if more == [] {
      Nil(h1);
      Nil(h2);
      NoMoreCalls(h1);
      NoMoreCalls(h2);
    } else {
      var front, a := Init(more), Last(more);
      assert more == front + [a];
      SameStatesGoOn(h1, h2, front);
      CallsAfterSnoc(h1, front, a);
      CallsAfterSnoc(h2, front, a);
      forall t
        ensures StateAfter(h1 + more, t) == StateAfter(h2 + more, t)
      {
        Associate(h1, front, [a]);
        Associate(h2, front, [a]);
        Snoc(h1 + front, a, t);
        Snoc(h2 + front, a, t);
      }
    }
  }

  /** A firing that draws nothing can be left out. */
  lemma SilentFiring(cfg: Config, h: seq<Act>, e: PerfEvent)
    requires GilKind(e.kind) || ApiKind(e.kind)
    requires CallsAfter(h, ActionsOf(cfg, e)) == []
    ensures forall t :: StateAfter(h + ActionsOf(cfg, e), t) == StateAfter(h, t)
  {
    FiringIsOneAct(cfg, e);
    hide NextState, ActCalls, StateAfter, ActionsOf;
    var more := ActionsOf(cfg, e);
    if more == [] {
      Nil(h);
    } else {
      var a := more[0];
      assert more == [] + [a];
      Nil(h);
      CallsAfterSnoc(h, [], a);
      NoMoreCalls(h);
      SilentActKeepsState(StateAfter(h, a.tid), a);
      forall t
        ensures StateAfter(h + more, t) == StateAfter(h, t)
      {
        Snoc(h, a, t);
      }
    }
  }

  lemma SilentPrefix(cfg: Config, start: seq<Act>, es: seq<PerfEvent>)
    requires es != [] && SilentRepeats(cfg, start, es)
    ensures SilentRepeats(cfg, start, Init(es))
    ensures FiresAgain(Init(es), Last(es)) ==>
              CallsAfter(start + ActsOf(cfg, Init(es)), ActionsOf(cfg, Last(es))) == []
  {
    hide CallsAfter, ActionsOf, FiresAgain;
    var front := Init(es);
    forall i | 0 <= i < |front| && FiresAgain(front[..i], front[i])
      ensures DrawnBy(cfg, start, front, i) == []
    {
      assert front[..i] == es[..i];
      assert DrawnBy(cfg, start, es, i) == [];
    }
    assert es[..|es| - 1] == front;
    if FiresAgain(front, Last(es)) {
      assert DrawnBy(cfg, start, es, |es| - 1) == [];
    }
  }

  lemma EraseEventsSnoc(es: seq<PerfEvent>, e: PerfEvent)
    ensures EraseEvents(es + [e]) == EraseEvents(es) + if FiresAgain(es, e) then [] else [e]
  {
    InitLast(es, e);
  }

  lemma FiresAgainKinds(es: seq<PerfEvent>, e: PerfEvent)
    requires FiresAgain(es, e)
    ensures GilKind(e.kind) || ApiKind(e.kind)
  {
    var k := LastFiringIsIn(es, e);
    ProbeKinds(es[k], e);
  }

  /** The two histories, continued from `start`, cannot be told apart. */
  ghost predicate Alike(start: seq<Act>, kept: seq<Act>, h: seq<Act>) {
    && CallsAfter(start, kept) == CallsAfter(start, h)
    && forall t :: StateAfter(start + kept, t) == StateAfter(start + h, t)
  }

  lemma KeepActs(start: seq<Act>, kept: seq<Act>, h: seq<Act>, more: seq<Act>)
    requires Alike(start, kept, h)
    ensures Alike(start, kept + more, h + more)
  {
    hide CallsAfter, StateAfter;
    SameStatesGoOn(start + kept, start + h, more);
    Associate(start, h, more);
    Associate(start, kept, more);
    CallsAfterAppend(start, h, more);
    CallsAfterAppend(start, kept, more);
  }

  lemma DropActs(start: seq<Act>, kept: seq<Act>, h: seq<Act>, more: seq<Act>)
    requires Alike(start, kept, h) && CallsAfter(start + h, more) == []
    requires forall t :: StateAfter(start + h + more, t) == StateAfter(start + h, t)
    ensures Alike(start, kept, h + more)
  {
    hide CallsAfter, StateAfter;
    Associate(start, h, more);
    CallsAfterAppend(start, h, more);
    Nil(CallsAfter(start, h));
  }

  lemma NothingToErase(cfg: Config, start: seq<Act>)
    ensures Alike(start, ActsOf(cfg, EraseEvents([])), ActsOf(cfg, []))
  {
  }

  /** If no repeat draws anything, erasing the repeats changes neither the calls nor
      any state, whatever the filters, the bounds and what came before. */
  lemma {:induction false} SilentRepeatsLeaveNoTrace(cfg: Config, start: seq<Act>, es: seq<PerfEvent>)
    requires SilentRepeats(cfg, start, es)
    ensures Alike(start, ActsOf(cfg, EraseEvents(es)), ActsOf(cfg, es))
  {
    hide CallsAfter, StateAfter, ActionsOf, FiresAgain, SilentRepeats, EraseEvents, ActsOf, Alike;
    if es == [] {
      NothingToErase(cfg, start);
    } else {
      var front, e := Init(es), Last(es);
      SilentPrefix(cfg, start, es);
      SilentRepeatsLeaveNoTrace(cfg, start, front);
      assert es == front + [e];
      EraseEventsSnoc(front, e);
      OneMoreEvent(cfg, start, front, e);
      if FiresAgain(front, e) {
        FiresAgainKinds(front, e);
        SilentFiring(cfg, start + ActsOf(cfg, front), e);
        Nil(EraseEvents(front));
        DropActs(start, ActsOf(cfg, EraseEvents(front)), ActsOf(cfg, front), ActionsOf(cfg, e));
      } else {
        OneMoreEvent(cfg, start, EraseEvents(front), e);
        KeepActs(start, ActsOf(cfg, EraseEvents(front)), ActsOf(cfg, front), ActionsOf(cfg, e));
      }
    }
  }

  // ---- a repeat that draws is missed ----

  /** The call is a begin or end that a firing of `e`'s probe at `e`'s time draws. */
  predicate DrawsFor(c: Call, e: PerfEvent) {
    && (c.Begin? || c.End?) && c.tsUs == Us(e.timestampNs)
    && if GilKind(e.kind) then (c.name.GilAcquire? || c.name.GilHeld?) && c.tid == e.tid + GIL_TID_OFFSET
       else ApiKind(e.kind) && c.name == ApiSpan(e.kind.api) && c.tid == e.tid + GPU_TID_OFFSET
  }

  lemma DrawnAtOneTime(c: Call, x: PerfEvent, e: PerfEvent)
    requires DrawsFor(c, x) && DrawsFor(c, e)
    ensures SameProbe(x, e) && x.timestampNs == e.timestampNs
  {
    assert x.timestampNs as real / 1000.0 == e.timestampNs as real / 1000.0;
  }

  /** An act's begins and ends carry its time and its probe. */
  predicate MarkOf(c: Call, a: Act) {
    (c.Begin? || c.End?) ==>
      && c.tsUs == Us(a.ts)
      && if BracketTracks.GilOp(a.op) then (c.name.GilAcquire? || c.name.GilHeld?) && c.tid == a.tid + GIL_TID_OFFSET
         else BracketTracks.GpuOp(a.op) && c.name == ApiSpan(a.op.api) && c.tid == a.tid + GPU_TID_OFFSET
  }

  lemma ActMarks(s: ThreadState, a: Act, c: Call)
    requires c in ActCalls(s, a)
    ensures MarkOf(c, a)
    ensures (BracketTracks.GilOp(a.op) || BracketTracks.GpuOp(a.op)) ==> c.Begin? || c.End?
  {
  }

  lemma EventActs(cfg: Config, e: PerfEvent, i: nat, c: Call)
    requires i < |ActionsOf(cfg, e)| && MarkOf(c, ActionsOf(cfg, e)[i]) && (c.Begin? || c.End?)
    ensures DrawsFor(c, e)
  {
  }

  lemma {:induction false} CallHasAct(h: seq<Act>, more: seq<Act>, c: Call) returns (i: nat)
    requires c in CallsAfter(h, more)
    ensures i < |more| && c in ActCalls(StateAfter(h + more[..i], more[i].tid), more[i])
  {
    hide ActCalls, StateAfter;
    var front, a := Init(more), Last(more);
    if c in CallsAfter(h, front) {
      i := CallHasAct(h, front, c);
      assert front[..i] == more[..i];
    } else {
      i := |more| - 1;
      assert more[..i] == front;
    }
  }

  lemma EventMarks(cfg: Config, h: seq<Act>, e: PerfEvent, c: Call)
    requires c in CallsAfter(h, ActionsOf(cfg, e)) && (c.Begin? || c.End?)
    ensures DrawsFor(c, e)
  {
    var more := ActionsOf(cfg, e);
    var i := CallHasAct(h, more, c);
    hide ActCalls, StateAfter, CallsAfter, ActionsOf, MarkOf, DrawsFor;
    ActMarks(StateAfter(h + more[..i], more[i].tid), more[i], c);
    EventActs(cfg, e, i, c);
  }

  lemma FiringDrawsMarks(cfg: Config, h: seq<Act>, e: PerfEvent, c: Call)
    requires (GilKind(e.kind) || ApiKind(e.kind)) && c in CallsAfter(h, ActionsOf(cfg, e))
    ensures c.Begin? || c.End?
  {
    var more := ActionsOf(cfg, e);
    FiringIsOneAct(cfg, e);
    var i := CallHasAct(h, more, c);
    hide ActCalls, StateAfter, CallsAfter, ActionsOf, MarkOf;
    ActMarks(StateAfter(h + more[..i], more[i].tid), more[i], c);
  }

  /** Every call of a run was drawn by one of its events. */
  lemma {:induction false} CallHasEvent(cfg: Config, start: seq<Act>, es: seq<PerfEvent>, c: Call) returns (k: nat)
    requires c in CallsAfter(start, ActsOf(cfg, es))
    ensures k < |es| && c in DrawnBy(cfg, start, es, k)
  {
    hide CallsAfter, ActionsOf;
    if es == [] {
      NoMoreCalls(start);
      assert false;
    } else {
      var front, e := Init(es), Last(es);
      assert es == front + [e];
      OneMoreEvent(cfg, start, front, e);
      CallsAfterAppend(start, ActsOf(cfg, front), ActionsOf(cfg, e));
      if c in CallsAfter(start, ActsOf(cfg, front)) {
        k := CallHasEvent(cfg, start, front, c);
        assert front[..k] == es[..k];
      } else {
        k := |es| - 1;
        assert es[..k] == front;
      }
    }
  }

  /** And every event's calls are among those of the run. */
  lemma {:induction false} EventsCallsAreDrawn(cfg: Config, start: seq<Act>, es: seq<PerfEvent>, k: nat, c: Call)
    requires k < |es| && c in DrawnBy(cfg, start, es, k)
    ensures c in CallsAfter(start, ActsOf(cfg, es))
  {
    hide CallsAfter, ActionsOf;
    var front, e := Init(es), Last(es);
    assert es == front + [e];
    OneMoreEvent(cfg, start, front, e);
    if k < |front| {
      assert front[..k] == es[..k];
      EventsCallsAreDrawn(cfg, start, front, k, c);
    } else {
      assert es[..k] == front;
    }
  }

  lemma {:induction false} ErasedIsFrom(es: seq<PerfEvent>, k: nat) returns (j: nat)
    requires k < |EraseEvents(es)|
    ensures j < |es| && es[j] == EraseEvents(es)[k] && !FiresAgain(es[..j], es[j])
  {
    hide FiresAgain;
    var front := Init(es);
    if k < |EraseEvents(front)| {
      j := ErasedIsFrom(front, k);
      assert front[..j] == es[..j];
    } else {
      j := |es| - 1;
      assert es[..j] == front;
    }
  }

  lemma LoudRepeatIsMissed(cfg: Config, start: seq<Act>, es: seq<PerfEvent>, i: nat)
    requires FiringsApart(es) && i < |es| && FiresAgain(es[..i], es[i]) && DrawnBy(cfg, start, es, i) != []
    ensures CallsAfter(start, ActsOf(cfg, EraseEvents(es))) != CallsAfter(start, ActsOf(cfg, es))
  {
    var c := DrawnBy(cfg, start, es, i)[0];
    FiresAgainKinds(es[..i], es[i]);
    hide FiresAgain, ActionsOf, CallsAfter, DrawsFor, SameProbe, EraseEvents, ActsOf;
    FiringDrawsMarks(cfg, start + ActsOf(cfg, es[..i]), es[i], c);
    EventMarks(cfg, start + ActsOf(cfg, es[..i]), es[i], c);
    EventsCallsAreDrawn(cfg, start, es, i, c);
    if c in CallsAfter(start, ActsOf(cfg, EraseEvents(es))) {
      var kept := EraseEvents(es);
      var k := CallHasEvent(cfg, start, kept, c);
      EventMarks(cfg, start + ActsOf(cfg, kept[..k]), kept[k], c);
      DrawnAtOneTime(c, kept[k], es[i]);
      DrawnAtOneTime(c, es[i], kept[k]);
      var j := ErasedIsFrom(es, k);
      assert false;
    }
  }

  /** Erasing repeated firings leaves the calls as they were exactly if no repeat draws
      anything; and then it leaves every thread's state as well. The times of one
      probe's firings must differ, so that no other firing can stand in for an
      erased one. */
  lemma RepeatedFiringsLeaveNoTrace(cfg: Config, start: seq<Act>, es: seq<PerfEvent>)
    requires FiringsApart(es)
    ensures CallsAfter(start, ActsOf(cfg, EraseEvents(es))) == CallsAfter(start, ActsOf(cfg, es))
            <==> SilentRepeats(cfg, start, es)
    ensures SilentRepeats(cfg, start, es) ==> Alike(start, ActsOf(cfg, EraseEvents(es)), ActsOf(cfg, es))
  {
    if SilentRepeats(cfg, start, es) {
      hide SilentRepeats;
      SilentRepeatsLeaveNoTrace(cfg, start, es);
    } else {
      var i :| 0 <= i < |es| && FiresAgain(es[..i], es[i]) && DrawnBy(cfg, start, es, i) != [];
      hide FiresAgain, DrawnBy;
      LoudRepeatIsMissed(cfg, start, es, i);
    }
  }

  // ---- when repeats are silent ----

  /** The filter for a thread's GIL events gives them all one verdict. */
  ghost predicate OneVerdict(cfg: Config, es: seq<PerfEvent>) {
    forall x, y :: x in es && y in es && GilKind(x.kind) && GilKind(y.kind) && x.tid == y.tid ==>
      cfg.PassesFilter(x.pid) == cfg.PassesFilter(y.pid)
  }

  /** Two firings of one probe that both get through act alike. */
  lemma FiringActs(cfg: Config, x: PerfEvent, e: PerfEvent)
    requires SameProbe(x, e) && ActionsOf(cfg, x) != [] && ActionsOf(cfg, e) != []
    ensures |ActionsOf(cfg, x)| == |ActionsOf(cfg, e)| == 1
    ensures SameSlot(ActionsOf(cfg, x)[0], ActionsOf(cfg, e)[0])
    ensures SameType(ActionsOf(cfg, x)[0].op, ActionsOf(cfg, e)[0].op) == SameFiring(x.kind, e.kind)
  {
  }

  lemma OtherActs(cfg: Config, x: PerfEvent, e: PerfEvent, i: nat, j: nat)
    requires !SameProbe(x, e) && i < |ActionsOf(cfg, x)| && j < |ActionsOf(cfg, e)|
    ensures !SameSlot(ActionsOf(cfg, x)[i], ActionsOf(cfg, e)[j])
  {
  }

  /** Only the time can let one firing of a probe through and not the other. */
  lemma OnlyTimeTells(cfg: Config, x: PerfEvent, e: PerfEvent)
    requires SameProbe(x, e) && ActionsOf(cfg, e) != []
    requires GilKind(e.kind) ==> cfg.PassesFilter(x.pid) == cfg.PassesFilter(e.pid)
    ensures ActionsOf(cfg, x) == [] <==> !cfg.PassesTime(Us(x.timestampNs))
    ensures cfg.PassesTime(Us(e.timestampNs))
  {
  }

  lemma {:induction false} PassOver(h: seq<Act>, more: seq<Act>, a: Act)
    requires forall i :: 0 <= i < |more| ==> !SameSlot(more[i], a)
    ensures LastInSlot(h + more, a) == LastInSlot(h, a)
  {
    hide SameSlot;
    if more == [] {
      Nil(h);
    } else {
      PassOver(h, Init(more), a);
      assert h + more == (h + Init(more)) + [Last(more)];
      InitLast(h + Init(more), Last(more));
    }
  }

  lemma OtherEvent(cfg: Config, h: seq<Act>, x: PerfEvent, e: PerfEvent, j: nat)
    requires j < |ActionsOf(cfg, e)| && (SameProbe(x, e) ==> ActionsOf(cfg, x) == [])
    ensures LastInSlot(h + ActionsOf(cfg, x), ActionsOf(cfg, e)[j]) == LastInSlot(h, ActionsOf(cfg, e)[j])
  {
    hide ActionsOf, SameProbe, SameSlot, LastInSlot;
    var a, more := ActionsOf(cfg, e)[j], ActionsOf(cfg, x);
    forall i | 0 <= i < |more|
      ensures !SameSlot(more[i], a)
    {
      OtherActs(cfg, x, e, i, j);
    }
    PassOver(h, more, a);
  }

  /** If the last firing of `e`'s probe got through, its act is the last in the slot. */
  lemma {:induction false} LastFiringActs(cfg: Config, es: seq<PerfEvent>, e: PerfEvent, j: nat)
    requires j < |ActionsOf(cfg, e)| && LastFiring(es, e).Some? && ActionsOf(cfg, LastFiring(es, e).value) != []
    ensures var x := LastFiring(es, e).value;
            j == 0 && |ActionsOf(cfg, x)| == 1 &&
            LastInSlot(ActsOf(cfg, es), ActionsOf(cfg, e)[j]) == Some(ActionsOf(cfg, x)[0])
  {
    hide ActionsOf, SameProbe, SameSlot;
    var front, x := Init(es), Last(es);
    if SameProbe(x, e) {
      FiringActs(cfg, x, e);
      assert ActionsOf(cfg, x) == [ActionsOf(cfg, x)[0]];
      InitLast(ActsOf(cfg, front), ActionsOf(cfg, x)[0]);
    } else {
      LastFiringActs(cfg, front, e, j);
      OtherEvent(cfg, ActsOf(cfg, front), x, e, j);
    }
  }

  /** If no firing of `e`'s probe got through, the slot is untouched. */
  lemma {:induction false} NoFiringActs(cfg: Config, es: seq<PerfEvent>, e: PerfEvent, j: nat)
    requires j < |ActionsOf(cfg, e)|
    requires forall m :: 0 <= m < |es| && SameProbe(es[m], e) ==> ActionsOf(cfg, es[m]) == []
    ensures LastInSlot(ActsOf(cfg, es), ActionsOf(cfg, e)[j]).None?
  {
    hide ActionsOf, SameProbe, SameSlot;
    if es != [] {
      var front, x := Init(es), Last(es);
      assert es[|es| - 1] == x;
      NoFiringActs(cfg, front, e, j);
      OtherEvent(cfg, ActsOf(cfg, front), x, e, j);
    }
  }

  lemma {:induction false} NoLastFiring(es: seq<PerfEvent>, e: PerfEvent)
    requires LastFiring(es, e).None?
    ensures forall m :: 0 <= m < |es| ==> !SameProbe(es[m], e)
  {
    if es != [] {
      hide SameProbe;
      NoLastFiring(Init(es), e);
    }
  }

  /** An act repeats in the history exactly when its event does in the stream, unless
      the last firing of the probe did not get through. */
  lemma RepeatsAlike(cfg: Config, es: seq<PerfEvent>, e: PerfEvent, j: nat)
    requires j < |ActionsOf(cfg, e)|
    requires LastFiring(es, e).Some? ==> ActionsOf(cfg, LastFiring(es, e).value) != []
    ensures Repeats(ActsOf(cfg, es), ActionsOf(cfg, e)[j]) <==> FiresAgain(es, e)
  {
    hide ActionsOf, SameSlot, LastInSlot, SameType, SameFiring;
    if LastFiring(es, e).None? {
      NoLastFiring(es, e);
      NoFiringActs(cfg, es, e, j);
    } else {
      var k := LastFiringIsIn(es, e);
      hide SameProbe, LastFiring;
      LastFiringActs(cfg, es, e, j);
      FiringActs(cfg, es[k], e);
    }
  }

  /** A repeat of a firing that got through draws nothing. */
  lemma RepeatOfHeardIsSilent(cfg: Config, start: seq<Act>, es: seq<PerfEvent>, e: PerfEvent)
    requires FiresAgain(es, e) && ActionsOf(cfg, LastFiring(es, e).value) != []
    ensures CallsAfter(start + ActsOf(cfg, es), ActionsOf(cfg, e)) == []
  {
    FiresAgainKinds(es, e);
    FiringIsOneAct(cfg, e);
    if ActionsOf(cfg, e) != [] {
      var a, h := ActionsOf(cfg, e)[0], ActsOf(cfg, es);
      RepeatsAlike(cfg, es, e, 0);
      hide ActionsOf, ActCalls, StateAfter, SameSlot, SameType, LastInSlot, LastFiring, SlotShows, CallsAfter;
      SlotState(start, h, a);
      RepeatIsSilent(StateAfter(start + h, a.tid), LastInSlot(h, a).value, a);
      assert ActionsOf(cfg, e) == [a];
      OneActCalls(start + h, a);
    }
  }

  predicate Unbounded(cfg: Config) {
    cfg.timeStartUs < 0.0 && cfg.timeEndUs < 0.0
  }

  /** Without time bounds, and with one verdict per thread, every repeat is silent. */
  lemma UnboundedRepeatsAreSilent(cfg: Config, start: seq<Act>, es: seq<PerfEvent>)
    requires Unbounded(cfg) && OneVerdict(cfg, es)
    ensures SilentRepeats(cfg, start, es)
  {
    forall i | 0 <= i < |es| && FiresAgain(es[..i], es[i])
      ensures DrawnBy(cfg, start, es, i) == []
    {
      var e := es[i];
      var k := LastFiringIsIn(es[..i], e);
      assert es[k] in es && e in es;
      ProbeKinds(es[k], e);
      hide ActionsOf, CallsAfter, FiresAgain, OneVerdict;
      if ActionsOf(cfg, e) == [] {
        NoMoreCalls(start + ActsOf(cfg, es[..i]));
      } else {
        OnlyTimeTells(cfg, es[k], e);
        RepeatOfHeardIsSilent(cfg, start, es[..i], e);
      }
    }
  }

  // ---- with time bounds, from the start of a run ----

  /** Event `i` repeats a firing that did not get through, but does so itself. */
  predicate FirstHeard(cfg: Config, es: seq<PerfEvent>, i: nat)
    requires i < |es|
  {
    FiresAgain(es[..i], es[i]) && ActionsOf(cfg, es[i]) != [] && ActionsOf(cfg, LastFiring(es[..i], es[i]).value) == []
  }

  predicate Opens(k: PerfKind) {
    k.TakeGil? || k.ApiEntry?
  }

  predicate SlotIdle(op: Op, s: ThreadState) {
    if BracketTracks.GilOp(op) then s.gilStart.None? && s.gilHeld.None?
    else BracketTracks.GpuOp(op) && op.api !in s.gpuOpen
  }

  lemma IdleThroughOthers(s: ThreadState, x: Act, a: Act)
    requires SlotIdle(a.op, s) && x.tid == a.tid && !SameSlot(x, a)
    ensures SlotIdle(a.op, NextState(s, x))
  {
  }

  lemma {:induction false} UntouchedSlotIsIdle(h: seq<Act>, a: Act)
    requires LastInSlot(h, a).None? && (BracketTracks.GilOp(a.op) || BracketTracks.GpuOp(a.op))
    ensures SlotIdle(a.op, StateAfter(h, a.tid))
  {
    if h != [] {
      hide NextState, SlotIdle, SameSlot;
      var front, x := Init(h), Last(h);
      assert h == front + [x];
      UntouchedSlotIsIdle(front, a);
      Snoc(front, x, a.tid);
      if x.tid == a.tid {
        IdleThroughOthers(StateAfter(front, a.tid), x, a);
      }
    }
  }

  /** In an idle slot only an opening act draws. */
  lemma IdleSlotDraws(s: ThreadState, a: Act)
    requires SlotIdle(a.op, s)
    ensures ActCalls(s, a) == [] <==> !(a.op.Take? || a.op.Enter?)
  {
  }

  lemma FiringOpens(cfg: Config, e: PerfEvent)
    requires (GilKind(e.kind) || ApiKind(e.kind)) && ActionsOf(cfg, e) != []
    ensures var a := ActionsOf(cfg, e)[0];
            ActionsOf(cfg, e) == [a] && (a.op.Take? || a.op.Enter? <==> Opens(e.kind))
  {
  }

  lemma EarlierIsOutToo(cfg: Config, y: PerfEvent, x: PerfEvent, e: PerfEvent)
    requires y.timestampNs <= x.timestampNs <= e.timestampNs
    requires !cfg.PassesTime(Us(x.timestampNs)) && cfg.PassesTime(Us(e.timestampNs))
    ensures !cfg.PassesTime(Us(y.timestampNs))
  {
  }

  /** In a sorted stream nothing of the probe has got through before such an event. */
  lemma NothingHeardBefore(cfg: Config, es: seq<PerfEvent>, i: nat, m: nat)
    requires WholeRuns.SortedEvents(es) && OneVerdict(cfg, es)
    requires m < i < |es| && FirstHeard(cfg, es, i) && SameProbe(es[m], es[i])
    ensures ActionsOf(cfg, es[m]) == []
  {
    var e := es[i];
    var k := LastFiringIsIn(es[..i], e);
    hide ActionsOf, FiresAgain, LastFiring;
    ProbeKinds(es[k], e);
    ProbeKinds(es[m], e);
    hide SameProbe, GilKind;
    assert es[k] in es && e in es && es[m] in es;
    OnlyTimeTells(cfg, es[k], e);
    OnlyTimeTells(cfg, es[m], e);
    assert m <= k;
    assert es[m].timestampNs <= es[k].timestampNs <= e.timestampNs;
    EarlierIsOutToo(cfg, es[m], es[k], e);
  }

  /** What the first firing to get through draws depends on its kind alone. */
  lemma FirstHeardDraws(cfg: Config, es: seq<PerfEvent>, i: nat)
    requires WholeRuns.SortedEvents(es) && OneVerdict(cfg, es) && i < |es| && FirstHeard(cfg, es, i)
    ensures DrawnBy(cfg, [], es, i) == [] <==> !Opens(es[i].kind)
  {
    var e, h := es[i], ActsOf(cfg, es[..i]);
    var a := ActionsOf(cfg, e)[0];
    FiresAgainKinds(es[..i], e);
    FiringOpens(cfg, e);
    FiringIsOneAct(cfg, e);
    forall m | 0 <= m < |es[..i]| && SameProbe(es[..i][m], e)
      ensures ActionsOf(cfg, es[..i][m]) == []
    {
      NothingHeardBefore(cfg, es, i, m);
    }
    NoFiringActs(cfg, es[..i], e, 0);
    hide ActionsOf, SameProbe, LastInSlot, FiresAgain, StateAfter, ActCalls, SlotIdle, Opens, CallsAfter;
    UntouchedSlotIsIdle(h, a);
    IdleSlotDraws(StateAfter(h, a.tid), a);
    OneActCalls(h, a);
    Nil(h);
  }

  /** From the start of a sorted run with one verdict per thread, all repeats are
      silent exactly if none of them is a take or an entry that is the first firing
      of its probe to get through: one that repeats a firing before the bound. */
  lemma SilentFromStart(cfg: Config, es: seq<PerfEvent>)
    requires WholeRuns.SortedEvents(es) && OneVerdict(cfg, es)
    ensures SilentRepeats(cfg, [], es) <==>
            forall i :: 0 <= i < |es| && FirstHeard(cfg, es, i) ==> !Opens(es[i].kind)
  {
    hide DrawnBy, FiresAgain, ActionsOf, WholeRuns.SortedEvents, OneVerdict, Opens;
    forall i | 0 <= i < |es| && FiresAgain(es[..i], es[i])
      ensures DrawnBy(cfg, [], es, i) == [] <==> !(FirstHeard(cfg, es, i) && Opens(es[i].kind))
    {
      if FirstHeard(cfg, es, i) {
        FirstHeardDraws(cfg, es, i);
      } else {
        NotFirstHeardIsSilent(cfg, es, i);
      }
    }
  }

  lemma NotFirstHeardIsSilent(cfg: Config, es: seq<PerfEvent>, i: nat)
    requires i < |es| && FiresAgain(es[..i], es[i]) && !FirstHeard(cfg, es, i)
    ensures DrawnBy(cfg, [], es, i) == []
  {
    hide ActionsOf, CallsAfter;
    if ActionsOf(cfg, es[i]) == [] {
      NoMoreCalls([] + ActsOf(cfg, es[..i]));
    } else {
      RepeatOfHeardIsSilent(cfg, [], es[..i], es[i]);
    }
  }

  /** The whole condition for a run from the start, in terms of the stream alone. */
  lemma CallsFromStart(cfg: Config, es: seq<PerfEvent>)
    requires WholeRuns.SortedEvents(es) && OneVerdict(cfg, es) && FiringsApart(es)
    ensures CallsOf(ActsOf(cfg, EraseEvents(es))) == CallsOf(ActsOf(cfg, es)) <==>
            forall i :: 0 <= i < |es| && FirstHeard(cfg, es, i) ==> !Opens(es[i].kind)
  {
    hide FirstHeard, SilentRepeats, CallsAfter, CallsOf, ActsOf, EraseEvents, Alike, FiringsApart, OneVerdict;
    SilentFromStart(cfg, es);
    RepeatedFiringsLeaveNoTrace(cfg, [], es);
    FromStart(ActsOf(cfg, es));
    FromStart(ActsOf(cfg, EraseEvents(es)));
  }

  // ---- and the flush ----

  /** The histories agree on every thread's scheduler state. */
  ghost predicate SameSched(h1: seq<Act>, h2: seq<Act>) {
    forall t :: StateAfter(h1, t).sched == StateAfter(h2, t).sched
  }

  lemma {:induction false} SchedGoesOn(h1: seq<Act>, h2: seq<Act>, more: seq<Act>)
    requires SameSched(h1, h2)
    ensures SameSched(h1 + more, h2 + more)
  {
    if more == [] {
      Nil(h1);
      Nil(h2);
    } else {
      var front, a := Init(more), Last(more);
      SchedGoesOn(h1, h2, front);
      assert h1 + more == (h1 + front) + [a] && h2 + more == (h2 + front) + [a];
      hide NextState, NextSched, StateAfter;
      forall t
        ensures StateAfter(h1 + more, t).sched == StateAfter(h2 + more, t).sched
      {
        Snoc(h1 + front, a, t);
        Snoc(h2 + front, a, t);
        MachineSched(StateAfter(h1 + front, t), a);
        MachineSched(StateAfter(h2 + front, t), a);
      }
    }
  }

  lemma ProbesKeepSched(s: ThreadState, a: Act)
    requires BracketTracks.GilOp(a.op) || BracketTracks.GpuOp(a.op)
    ensures NextState(s, a).sched == s.sched
  {
  }

  lemma FiringsKeepSched(cfg: Config, h: seq<Act>, e: PerfEvent)
    requires GilKind(e.kind) || ApiKind(e.kind)
    ensures SameSched(h + ActionsOf(cfg, e), h)
  {
    FiringIsOneAct(cfg, e);
    hide ActionsOf, NextState, ActCalls, StateAfter, GilKind, ApiKind;
    var more := ActionsOf(cfg, e);
    if more == [] {
      Nil(h);
    } else {
      var a := more[0];
      assert more == [a];
      forall t
        ensures StateAfter(h + more, t).sched == StateAfter(h, t).sched
      {
        Snoc(h, a, t);
        ProbesKeepSched(StateAfter(h, t), a);
      }
    }
  }

  lemma NothingToTell(cfg: Config)
    ensures SameSched(ActsOf(cfg, EraseEvents([])), ActsOf(cfg, []))
  {
  }

  lemma SameSchedThrough(a: seq<Act>, b: seq<Act>, c: seq<Act>)
    requires SameSched(a, b) && SameSched(c, b)
    ensures SameSched(a, c)
  {
  }

  /** The erasure, silent or not, leaves every scheduler state as it was. */
  lemma {:induction false} ErasureKeepsSched(cfg: Config, es: seq<PerfEvent>)
    ensures SameSched(ActsOf(cfg, EraseEvents(es)), ActsOf(cfg, es))
  {
    hide SameSched, ActionsOf, ActsOf, EraseEvents, FiresAgain, CallsAfter;
    if es == [] {
      NothingToTell(cfg);
    } else {
      var front, e := Init(es), Last(es);
      assert es == front + [e];
      ErasureKeepsSched(cfg, front);
      EraseEventsSnoc(front, e);
      OneMoreEvent(cfg, [], front, e);
      if FiresAgain(front, e) {
        FiresAgainKinds(front, e);
        FiringsKeepSched(cfg, ActsOf(cfg, front), e);
        Nil(EraseEvents(front));
        SameSchedThrough(ActsOf(cfg, EraseEvents(front)), ActsOf(cfg, front), ActsOf(cfg, es));
      } else {
        OneMoreEvent(cfg, [], EraseEvents(front), e);
        SchedGoesOn(ActsOf(cfg, EraseEvents(front)), ActsOf(cfg, front), ActionsOf(cfg, e));
      }
    }
  }

  /** The flush sees nothing else. */
  lemma {:induction false} SameFlush(cfg: Config, h1: seq<Act>, h2: seq<Act>, order: seq<int>)
    requires SameSched(h1, h2)
    ensures FlushCalls(cfg, h1, order) == FlushCalls(cfg, h2, order)
    ensures Lists(order, h1) <==> Lists(order, h2)
  {
    if order != [] {
      SameFlush(cfg, h1, h2, Init(order));
    }
  }

  /** The same condition for the whole run, flush included. */
  lemma ErasureFromStart(cfg: Config, es: seq<PerfEvent>, order: seq<int>)
    requires WholeRuns.SortedEvents(es) && OneVerdict(cfg, es) && FiringsApart(es)
    requires Lists(order, ActsOf(cfg, es))
    ensures Lists(order, ActsOf(cfg, EraseEvents(es)))
    ensures WholeRuns.RunCalls(cfg, EraseEvents(es), order) == WholeRuns.RunCalls(cfg, es, order) <==>
            forall i :: 0 <= i < |es| && FirstHeard(cfg, es, i) ==> !Opens(es[i].kind)
  {
    hide FirstHeard, CallsOf, ActsOf, EraseEvents, FiringsApart, OneVerdict, FlushCalls, Lists, SameSched,
         WholeRuns.SortedEvents, Opens;
    CallsFromStart(cfg, es);
    ErasureKeepsSched(cfg, es);
    SameFlush(cfg, ActsOf(cfg, EraseEvents(es)), ActsOf(cfg, es), order);
    SameEnd(CallsOf(ActsOf(cfg, EraseEvents(es))), CallsOf(ActsOf(cfg, es)), FlushCalls(cfg, ActsOf(cfg, es), order));
  }

  lemma SameEnd(a: seq<Call>, b: seq<Call>, end: seq<Call>)
    ensures a + end == b + end <==> a == b
  {
    if a + end == b + end {
      assert |a| == |b|;
      assert a == (a + end)[..|a|] && b == (b + end)[..|b|];
    }
  }

  // ---- that the conditions can fail ----

  lemma SecondTakeIsHeard(cfg: Config, first: PerfEvent, second: PerfEvent)
    requires first.kind.TakeGil? && second.kind.TakeGil? && first.tid == second.tid
    requires ActionsOf(cfg, first) == [] && ActionsOf(cfg, second) != []
    ensures FiresAgain([first], second)
    ensures CallsOf(ActsOf(cfg, EraseEvents([first, second]))) != CallsOf(ActsOf(cfg, [first, second]))
  {
    assert Init([first, second]) == [first] && Init([first]) == [];
    assert EraseEvents([first]) == [first];
    assert EraseEvents([first, second]) == [first];
    var a := Act(second.tid, second.pid, second.timestampNs, Take);
    assert ActionsOf(cfg, second) == [a];
    assert ActsOf(cfg, [first]) == [];
    assert ActsOf(cfg, [first, second]) == [a];
    assert CallsOf([]) == [];
    Snoc([], a, a.tid);
    assert [] + [a] == [a];
    assert |ActCalls(IDLE, a)| == 1;
  }

  /** A time bound between two takes: the second one draws, and must not be erased. */
  lemma TimeBoundsHideTheFirst(cfg: Config, first: PerfEvent, second: PerfEvent)
    requires cfg.includeGil && cfg.timeEndUs < 0.0 && cfg.PassesFilter(second.pid) && cfg.nameOk(second.tid)
    requires first.kind.TakeGil? && second.kind.TakeGil? && first.tid == second.tid
    requires Us(first.timestampNs) < cfg.timeStartUs <= Us(second.timestampNs)
    ensures FiresAgain([first], second)
    ensures CallsOf(ActsOf(cfg, EraseEvents([first, second]))) != CallsOf(ActsOf(cfg, [first, second]))
  {
    SecondTakeIsHeard(cfg, first, second);
  }

  /** The same without time bounds, when the process filter rejects the first take and
      accepts the second one on the same thread. */
  lemma TwoProcessesHideTheFirst(cfg: Config, first: PerfEvent, second: PerfEvent)
    requires cfg.includeGil && Unbounded(cfg) && cfg.nameOk(second.tid)
    requires cfg.filterPid >= 0 && first.pid != cfg.filterPid && second.pid == cfg.filterPid
    requires first.kind.TakeGil? && second.kind.TakeGil? && first.tid == second.tid
    ensures FiresAgain([first], second)
    ensures CallsOf(ActsOf(cfg, EraseEvents([first, second]))) != CallsOf(ActsOf(cfg, [first, second]))
  {
    SecondTakeIsHeard(cfg, first, second);
  }

  /** But with drops in place of the takes nothing is lost. */
  lemma HiddenDropIsNoLoss(cfg: Config, first: PerfEvent, second: PerfEvent)
    requires cfg.timeEndUs < 0.0 && Us(first.timestampNs) < cfg.timeStartUs <= Us(second.timestampNs)
    requires first.kind.DropGil? && second.kind.DropGil? && first.tid == second.tid && first.pid == second.pid
    ensures FiresAgain([first], second)
    ensures CallsOf(ActsOf(cfg, EraseEvents([first, second]))) == CallsOf(ActsOf(cfg, [first, second]))
  {
    var es := [first, second];
    assert WholeRuns.SortedEvents(es) && FiringsApart(es) && OneVerdict(cfg, es);
    CallsFromStart(cfg, es);
  }
}
