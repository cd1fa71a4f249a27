/** Probes that are installed twice fire twice. Deleting each repeated GIL or API
    firing changes neither what is drawn nor any state. */
module DuplicateProbes {
  import opened Seqs
  import opened Events
  import opened Output
  import opened ThreadMachines
  import opened BracketTracks

  /** The two firings drive the same part of the same thread's machine. */
  predicate SameSlot(a: Act, b: Act) {
    a.tid == b.tid &&
    ((GilOp(a.op) && GilOp(b.op)) || (GpuOp(a.op) && GpuOp(b.op) && a.op.api == b.op.api))
  }

  predicate SameType(a: Op, b: Op) {
    match a
    case Take => b.Take?
    case TakeReturn => b.TakeReturn?
    case Drop => b.Drop?
    case Enter(_) => b.Enter?
    case Leave(_) => b.Leave?
    case _ => false
  }

  function LastInSlot(h: seq<Act>, a: Act): Option<Act> {
    if h == [] then None
    else if SameSlot(Last(h), a) then Some(Last(h))
    else LastInSlot(Init(h), a)
  }

  /** `a` fires what fired last in its slot. */
  predicate Repeats(h: seq<Act>, a: Act) {
    LastInSlot(h, a).Some? && SameType(LastInSlot(h, a).value.op, a.op)
  }

  /** `h` without the firings that repeat the one before them. */
  function Erase(h: seq<Act>): seq<Act> {
    if h == [] then []
    else Erase(Init(h)) + if Repeats(Init(h), Last(h)) then [] else [Last(h)]
  }

  /** What the last firing in a slot says about the state. */
  predicate SlotShows(op: Op, s: ThreadState) {
    match op
    case Take => s.gilStart.Some?
    case TakeReturn => s.gilStart.None?
    case Drop => s.gilHeld.None?
    case Enter(api) => api in s.gpuOpen
    case Leave(api) => api !in s.gpuOpen
    case _ => true
  }

  lemma ShowsAfterFiring(s: ThreadState, a: Act)
    ensures SlotShows(a.op, NextState(s, a))
  {
  }

  lemma ShowsThroughOthers(s: ThreadState, a: Act, b: Act)
    requires a.tid == b.tid && !SameSlot(a, b) && SlotShows(b.op, s)
    ensures SlotShows(b.op, NextState(s, a))
  {
  }

  lemma {:induction false} SlotState(start: seq<Act>, h: seq<Act>, a: Act)
    requires LastInSlot(h, a).Some?
    ensures SameSlot(LastInSlot(h, a).value, a)
    ensures SlotShows(LastInSlot(h, a).value.op, StateAfter(start + h, a.tid))
  {
    hide NextState, SlotShows;
    var front, x := Init(h), Last(h);
    assert start + h == (start + front) + [x];
    Snoc(start + front, x, a.tid);
    if SameSlot(x, a) {
      ShowsAfterFiring(StateAfter(start + front, a.tid), x);
    } else {
      SlotState(start, front, a);
      if x.tid == a.tid {
        ShowsThroughOthers(StateAfter(start + front, a.tid), x, LastInSlot(front, a).value);
      }
    }
  }

  /** A repeated firing draws nothing and changes nothing. */
  lemma RepeatIsSilent(s: ThreadState, b: Act, a: Act)
    requires SameSlot(b, a) && SameType(b.op, a.op) && SlotShows(b.op, s)
    ensures NextState(s, a) == s && ActCalls(s, a) == []
  {
  }

  lemma EraseSnoc(h: seq<Act>, a: Act)
    ensures Erase(h + [a]) == Erase(h) + if Repeats(h, a) then [] else [a]
  {
    InitLast(h, a);
  }

  /** Where the kept firings have led to the same states, they still do after `a`. */
  lemma SameStatesSnoc(start: seq<Act>, h: seq<Act>, kept: seq<Act>, a: Act)
    requires forall t :: StateAfter(start + kept, t) == StateAfter(start + h, t)
    ensures forall t :: StateAfter(start + (kept + [a]), t) == StateAfter(start + (h + [a]), t)
  {
    hide NextState, ActCalls;
    forall t
      ensures StateAfter(start + (kept + [a]), t) == StateAfter(start + (h + [a]), t)
    {
      Associate(start, kept, [a]);
      Associate(start, h, [a]);
      Snoc(start + h, a, t);
      Snoc(start + kept, a, t);
    }
  }

  lemma SilentSnoc(start: seq<Act>, h: seq<Act>, a: Act)
    requires Repeats(h, a)
    ensures forall t :: StateAfter(start + (h + [a]), t) == StateAfter(start + h, t)
    ensures CallsAfter(start, h + [a]) == CallsAfter(start, h)
  {
    hide NextState, ActCalls, SlotShows;
    SlotState(start, h, a);
    RepeatIsSilent(StateAfter(start + h, a.tid), LastInSlot(h, a).value, a);
    CallsAfterSnoc(start, h, a);
    forall t
      ensures StateAfter(start + (h + [a]), t) == StateAfter(start + h, t)
    {
      Associate(start, h, [a]);
      Snoc(start + h, a, t);
    }
  }

  /** From any reachable state, erasing the repeats of a run leaves its calls and the
      state of every thread as they were. */
  lemma {:induction false} EraseIsInvisible(start: seq<Act>, h: seq<Act>)
    ensures CallsAfter(start, Erase(h)) == CallsAfter(start, h)
    ensures forall t :: StateAfter(start + Erase(h), t) == StateAfter(start + h, t)
  {
    if h != [] {
      hide StateAfter, CallsAfter, ActCalls, Repeats;
      var front, a := Init(h), Last(h);
      assert h == front + [a];
      EraseIsInvisible(start, front);
      EraseSnoc(front, a);
      if Repeats(front, a) {
        SilentSnoc(start, front, a);
        assert Erase(h) == Erase(front);
      } else {
        SameStatesSnoc(start, front, Erase(front), a);
        CallsAfterSnoc(start, front, a);
        CallsAfterSnoc(start, Erase(front), a);
      }
    }
  }
}
