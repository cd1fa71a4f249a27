/** The chunking writer: it keeps per-thread stacks of spans that may still be open
    and prunes them on every event, yet opens each chunk with exactly the spans that
    a writer which never forgets a span would copy. */
module ChunkingWriter {
  import opened Seqs
  import opened Output
  import opened Chunks
  import opened CarriedSpans

  // ---- pruning ----

  /** For every chunk still to come, `kept` and `all` agree on the spans that reach it. */
  ghost predicate Agree(p: Params, current: int, kept: seq<OpenSpan>, all: seq<OpenSpan>) {
    forall k :: current < k < p.numChunks ==>
      Filter(EndsAfter(p.Start(k)), kept) == Filter(EndsAfter(p.Start(k)), all)
  }

  /** Dropping what has ended by `now` cannot be seen from a later cut. */
  lemma {:induction false} ExpireThenFilter(s: seq<OpenSpan>, now: real, cut: real)
    requires now <= cut
    ensures Filter(EndsAfter(cut), Filter(EndsAfter(now), s)) == Filter(EndsAfter(cut), s)
  {
    if s != [] {
      ExpireThenFilter(Init(s), now, cut);
      if EndsAfter(now)(Last(s)) {
        FilterSnoc(EndsAfter(cut), Filter(EndsAfter(now), Init(s)), Last(s));
      } else {
        assert !EndsAfter(cut)(Last(s));
        assert Filter(EndsAfter(now), s) == Filter(EndsAfter(now), Init(s));
      }
    }
  }

  lemma ExpireKeeps(p: Params, current: int, kept: seq<OpenSpan>, all: seq<OpenSpan>, now: real)
    requires Agree(p, current, kept, all)
    requires forall k :: current < k < p.numChunks ==> now <= p.Start(k)
    ensures Agree(p, current, Filter(EndsAfter(now), kept), all)
  {
    forall k | current < k < p.numChunks
      ensures Filter(EndsAfter(p.Start(k)), Filter(EndsAfter(now), kept)) == Filter(EndsAfter(p.Start(k)), all)
    {
      ExpireThenFilter(kept, now, p.Start(k));
    }
  }

  lemma PushKeeps(p: Params, current: int, kept: seq<OpenSpan>, all: seq<OpenSpan>, s: OpenSpan)
    requires Agree(p, current, kept, all)
    ensures Agree(p, current, kept + [s], all + [s])
  {
    forall k | current < k < p.numChunks
      ensures Filter(EndsAfter(p.Start(k)), kept + [s]) == Filter(EndsAfter(p.Start(k)), all + [s])
    {
      FilterSnoc(EndsAfter(p.Start(k)), kept, s);
      FilterSnoc(EndsAfter(p.Start(k)), all, s);
    }
  }

  function StackOf(stacks: map<int, seq<OpenSpan>>, t: int): seq<OpenSpan> {
    if t in stacks then stacks[t] else []
  }

  ghost predicate StackOk(p: Params, current: int, stacks: map<int, seq<OpenSpan>>, h: seq<Input>, t: int) {
    && (forall s | s in StackOf(stacks, t) :: s.tid == t)
    && Agree(p, current, StackOf(stacks, t), SpansOn(h, t))
  }

  ghost predicate StacksOk(p: Params, current: int, stacks: map<int, seq<OpenSpan>>, h: seq<Input>) {
    forall t :: StackOk(p, current, stacks, h, t)
  }

  /** An event's own time never reaches a chunk that is still to come. */
  lemma ExpireStackOk(p: Params, current: int, stacks: map<int, seq<OpenSpan>>, h: seq<Input>, tid: int, now: real)
    requires p.Valid() && StacksOk(p, current, stacks, h) && p.ChunkForTs(now) <= current
    ensures tid in stacks ==> StacksOk(p, current, stacks[tid := Filter(EndsAfter(now), stacks[tid])], h)
  {
    if tid in stacks {
      var pruned := stacks[tid := Filter(EndsAfter(now), stacks[tid])];
      forall k | current < k < p.numChunks
        ensures now <= p.Start(k)
      {
        LaterChunksStartLater(p, now, k);
      }
      FilterMembers(EndsAfter(now), stacks[tid]);
      assert StackOk(p, current, stacks, h, tid);
      ExpireKeeps(p, current, stacks[tid], SpansOn(h, tid), now);
      forall t
        ensures StackOk(p, current, pruned, h, t)
      {
        assert StackOk(p, current, stacks, h, t);
      }
    }
  }

  function Pushed(stacks: map<int, seq<OpenSpan>>, x: Input): map<int, seq<OpenSpan>> {
    if x.Event? && SpanOf(x.call).Some? then
      var s := SpanOf(x.call).value;
      stacks[s.tid := StackOf(stacks, s.tid) + [s]]
    else stacks
  }

  lemma PushStack(p: Params, current: int, stacks: map<int, seq<OpenSpan>>, h: seq<Input>, x: Input, t: int)
    requires p.Valid() && StackOk(p, current, stacks, h, t)
    ensures StackOk(p, current, Pushed(stacks, x), h + [x], t)
  {
    var kept, all := StackOf(stacks, t), SpansOn(h, t);
    HistorySnoc(p, h, x, t);
    Nil(all);
    hide Agree, Reached, Plain, Names, LatestSamples, SpansOn;
    if x.Event? && SpanOf(x.call).Some? && SpanOf(x.call).value.tid == t {
      PushKeeps(p, current, kept, all, SpanOf(x.call).value);
    }
  }

  /** One more call: its span, if any, goes on its thread's stack. */
  lemma RecordStacks(p: Params, current: int, stacks: map<int, seq<OpenSpan>>, h: seq<Input>, x: Input)
    requires p.Valid() && StacksOk(p, current, stacks, h)
    ensures StacksOk(p, current, Pushed(stacks, x), h + [x])
  {
    hide StackOk, Pushed;
    forall t
      ensures StackOk(p, current, Pushed(stacks, x), h + [x], t)
    {
      PushStack(p, current, stacks, h, x, t);
    }
  }

  // ---- files ----

  /** What an input adds to file `idx`. */
  function Written(p: Params, idx: int, x: Input): seq<Entry> {
    match x
    case Event(c) => [Live(Normal(c))]
    case Samples(s) => Map(AsCounterEntry, ChunkSamples(p, idx, s))
  }

  /** Write an input into the file that is open. */
  lemma WriteOk(p: Params, files: seq<ChunkFile>, parts: seq<seq<Input>>, x: Input, more: seq<Entry>)
    requires p.Valid() && files != [] && FilesOk(p, files, parts)
    requires Reached(p, Flatten(parts) + [x]) == Last(files).idx
    requires more == Written(p, Last(files).idx, x)
    ensures parts != []
    ensures var f := Last(files);
            var files', parts' := Init(files) + [f.(log := f.log + more)], Init(parts) + [Last(parts) + [x]];
            FilesOk(p, files', parts') && Flatten(parts') == Flatten(parts) + [x]
  {
    var f, before, during := Last(files), Flatten(Init(parts)), Last(parts);
    var f' := f.(log := f.log + more);
    InitLast(Init(files), f');
    InitLast(Init(parts), during + [x]);
    Associate(before, during, [x]);
    FileWriteOk(p, f, before, during, x, more);
    hide FileOk, Reached, Written;
  }

  function AsCounterEntry(m: MetricSample): Entry {
    Counter(m)
  }

  lemma CounterEntries(samples: seq<MetricSample>, t: int)
    ensures var log := Map(AsCounterEntry, samples);
            && Collect(AsLive(), log) == [] && Collect(AsNaming(), log) == []
            && Collect(AsCounter(), log) == samples && Filter(ContextOn(t), log) == []
  {
    var log := Map(AsCounterEntry, samples);
    CollectNone(AsLive(), log);
    CollectNone(AsNaming(), log);
    CollectAll(AsCounter(), log, samples);
    FilterNone(ContextOn(t), log);
  }

  lemma LiveEntries(c: Call, t: int)
    ensures Collect(AsLive(), [Live(c)]) == [c]
    ensures Collect(AsNaming(), [Live(c)]) == if c.Metadata? then [c] else []
    ensures Collect(AsCounter(), [Live(c)]) == [] && Filter(ContextOn(t), [Live(c)]) == []
  {
    assert Init([Live(c)]) == [];
    assert [] + [c] == [c];
  }

  /** Neither a call nor samples copy a span. */
  lemma WrittenCopiesNothing(p: Params, idx: int, x: Input, log: seq<Entry>)
    ensures forall before :: CopiesDue(p, idx, log, before) ==> CopiesDue(p, idx, log + Written(p, idx, x), before)
  {
    hide ContextDue;
    forall t
      ensures Filter(ContextOn(t), log + Written(p, idx, x)) == Filter(ContextOn(t), log)
    {
      FilterAppend(ContextOn(t), log, Written(p, idx, x));
      match x
      case Event(c) => LiveEntries(Normal(c), t);
      case Samples(s) => CounterEntries(ChunkSamples(p, idx, s), t);
    }
  }

  lemma ReachedThroughout(p: Params, idx: int, before: seq<Input>, during: seq<Input>, x: Input)
    requires p.Valid() && Reached(p, before + (during + [x])) == idx
    requires Timely(p, idx, before, during)
    ensures Timely(p, idx, before, during + [x])
  {
    hide Reached;
    forall i | 0 < i <= |during + [x]|
      ensures Reached(p, before + (during + [x])[..i]) == idx
    {
      if i <= |during| {
        assert (during + [x])[..i] == during[..i];
      } else {
        assert (during + [x])[..i] == during + [x];
      }
    }
  }

  lemma SetDuringSnoc(p: Params, k: int, during: seq<Input>, x: Input)
    ensures SetDuring(p, k, during + [x]) == SetDuring(p, k, during) +
            if x.Samples? then ChunkSamples(p, k, x.samples) else []
  {
    InitLast(during, x);
  }

  lemma WrittenAfterHead(p: Params, idx: int, log: seq<Entry>, x: Input)
    requires HeadFirst(log)
    ensures HeadFirst(log + Written(p, idx, x))
  {
  }

  lemma FileWriteOk(p: Params, f: ChunkFile, before: seq<Input>, during: seq<Input>, x: Input, more: seq<Entry>)
    requires p.Valid() && FileOk(p, f, before, during)
    requires Reached(p, before + (during + [x])) == f.idx
    requires more == Written(p, f.idx, x)
    ensures FileOk(p, f.(log := f.log + more), before, during + [x])
  {
    ReachedThroughout(p, f.idx, before, during, x);
    WrittenCopiesNothing(p, f.idx, x, f.log);
    WrittenAfterHead(p, f.idx, f.log, x);
    Associate(before, during, [x]);
    HistorySnoc(p, during, x, 0);
    HistorySnoc(p, before + during, x, 0);
    FileLogGrows(f.log, more);
    hide Timely, CopiesDue, HeadFirst, Plain, Names, Collect, SetDuring, LatestSamples, ChunkSamples;
    SetDuringSnoc(p, f.idx, during, x);
    WrittenEntries(p, f.idx, x);
    var live, naming, counters := Collect(AsLive(), f.log), Collect(AsNaming(), f.log), Collect(AsCounter(), f.log);
    Nil(live);
    Nil(naming);
    Nil(counters);
    Nil(SetDuring(p, f.idx, during));
    Associate(ChunkSamples(p, f.idx, LatestSamples(before)), SetDuring(p, f.idx, during), Collect(AsCounter(), more));
    hide Written;
  }

  lemma WrittenEntries(p: Params, idx: int, x: Input)
    ensures Collect(AsLive(), Written(p, idx, x)) == if x.Event? then [Normal(x.call)] else []
    ensures Collect(AsNaming(), Written(p, idx, x)) == if x.Event? && IsNaming(x.call) then [Normal(x.call)] else []
    ensures Collect(AsCounter(), Written(p, idx, x)) == if x.Samples? then ChunkSamples(p, idx, x.samples) else []
  {
    match x
    case Event(c) => LiveEntries(Normal(c), 0);
    case Samples(s) => CounterEntries(ChunkSamples(p, idx, s), 0);
  }

  lemma FileLogGrows(log: seq<Entry>, more: seq<Entry>)
    ensures Collect(AsLive(), log + more) == Collect(AsLive(), log) + Collect(AsLive(), more)
    ensures Collect(AsNaming(), log + more) == Collect(AsNaming(), log) + Collect(AsNaming(), more)
    ensures Collect(AsCounter(), log + more) == Collect(AsCounter(), log) + Collect(AsCounter(), more)
  {
    CollectAppend(AsLive(), log, more);
    CollectAppend(AsNaming(), log, more);
    CollectAppend(AsCounter(), log, more);
  }

  // ---- a new file's head: names, samples, copied spans ----

  function AsReplayed(c: Call): Entry {
    Replayed(c)
  }

  lemma ReplayedEntries(names: seq<Call>, t: int)
    requires forall c | c in names :: c.Metadata?
    ensures var log := Map(AsReplayed, names);
            && Collect(AsLive(), log) == [] && Collect(AsNaming(), log) == names
            && Collect(AsCounter(), log) == [] && Filter(ContextOn(t), log) == []
  {
    var log := Map(AsReplayed, names);
    CollectNone(AsLive(), log);
    CollectAll(AsNaming(), log, names);
    CollectNone(AsCounter(), log);
    FilterNone(ContextOn(t), log);
  }

  lemma ContextEntries(log: seq<Entry>)
    requires forall i :: 0 <= i < |log| ==> log[i].Context?
    ensures Collect(AsLive(), log) == [] && Collect(AsNaming(), log) == [] && Collect(AsCounter(), log) == []
  {
    CollectNone(AsLive(), log);
    CollectNone(AsNaming(), log);
    CollectNone(AsCounter(), log);
  }

  /** The head of chunk `k`, opened after the calls `h`. */
  ghost predicate HeadOk(p: Params, k: int, h: seq<Input>, copies: seq<Entry>) {
    && (forall i :: 0 <= i < |copies| ==> copies[i].Context?)
    && CopiesDue(p, k, copies, h)
  }

  lemma HeadCopiesOnly(p: Params, k: int, h: seq<Input>, names: seq<Call>, samples: seq<MetricSample>,
                       copies: seq<Entry>)
    requires forall c | c in names :: c.Metadata?
    requires CopiesDue(p, k, copies, h)
    ensures CopiesDue(p, k, Map(AsReplayed, names) + Map(AsCounterEntry, samples) + copies, h)
  {
    hide ContextDue;
    var a, b := Map(AsReplayed, names), Map(AsCounterEntry, samples);
    forall t
      ensures Filter(ContextOn(t), a + b + copies) == Filter(ContextOn(t), copies)
    {
      FilterAppend(ContextOn(t), a, b);
      FilterAppend(ContextOn(t), a + b, copies);
      ReplayedEntries(names, t);
      CounterEntries(samples, t);
    }
  }

  lemma NamesAreNaming(h: seq<Input>)
    ensures forall c | c in Names(h) :: c.Metadata?
  {
    FilterMembers(NamingCall(), Plain(h));
  }

  lemma HeadIsFirst(names: seq<Call>, samples: seq<MetricSample>, copies: seq<Entry>)
    requires forall i :: 0 <= i < |copies| ==> copies[i].Context?
    ensures HeadFirst(Map(AsReplayed, names) + Map(AsCounterEntry, samples) + copies)
  {
    var log := Map(AsReplayed, names) + Map(AsCounterEntry, samples) + copies;
    forall i | 0 <= i < |log|
      ensures !log[i].Live?
    {
    }
  }

  lemma NewFileOk(p: Params, k: int, h: seq<Input>, copies: seq<Entry>)
    requires p.Valid() && 0 <= k < p.numChunks && HeadOk(p, k, h, copies)
    ensures var log := Map(AsReplayed, Names(h)) + Map(AsCounterEntry, ChunkSamples(p, k, LatestSamples(h))) + copies;
            FileOk(p, ChunkFile(k, log), h, [])
  {
    assert Plain([]) == [] && SetDuring(p, k, []) == [] && h + [] == h;
    hide Plain, Names, Collect, SetDuring, LatestSamples, ChunkSamples, CopiesDue, HeadFirst;
    var samples := ChunkSamples(p, k, LatestSamples(h));
    HeadIsFirst(Names(h), samples, copies);
    var names, counters := Map(AsReplayed, Names(h)), Map(AsCounterEntry, samples);
    NamesAreNaming(h);
    HeadCopiesOnly(p, k, h, Names(h), samples, copies);
    ContextEntries(copies);
    ReplayedEntries(Names(h), 0);
    CounterEntries(samples, 0);
    FileLogGrows(names, counters);
    FileLogGrows(names + counters, copies);
    Nil(Names(h));
    Nil(samples);
    Nil<Call>([]);
    Nil<MetricSample>([]);
  }

  /** A file more. */
  lemma OpenOk(p: Params, files: seq<ChunkFile>, parts: seq<seq<Input>>, f: ChunkFile)
    requires p.Valid() && FilesOk(p, files, parts) && FileOk(p, f, Flatten(parts), [])
    requires if files == [] then f.idx == 0
             else Last(files).idx < f.idx && Reached(p, Flatten(parts)) < f.idx
    ensures FilesOk(p, files + [f], parts + [[]]) && Flatten(parts + [[]]) == Flatten(parts)
  {
    InitLast(files, f);
    InitLast(parts, []);
  }

  lemma BusyOpen(parts: seq<seq<Input>>)
    requires Busy(parts)
    ensures Busy(Init(parts + [[]]))
  {
    InitLast(parts, []);
  }

  lemma BusyWrite(parts: seq<seq<Input>>, x: Input)
    requires parts != [] && Busy(Init(parts))
    ensures var written := Init(parts) + [Last(parts) + [x]];
            Busy(written) && Busy(Init(written))
  {
    InitLast(Init(parts), Last(parts) + [x]);
    assert forall i :: 0 < i < |Init(parts)| ==> parts[i] == Init(parts)[i];
  }

  lemma FirstFileOk(p: Params)
    requires p.Valid()
    ensures FilesOk(p, [ChunkFile(0, [])], [[]]) && Flatten([[]]) == []
    ensures StacksOk(p, 0, map[], [])
    ensures Reached(p, []) == 0 && Names([]) == [] && LatestSamples([]) == []
  {
    assert Init([ChunkFile(0, [])]) == [] && Init<seq<Input>>([[]]) == [];
    assert FileOk(p, ChunkFile(0, []), [], []) by {
      assert Collect(AsLive(), []) == [] && Collect(AsNaming(), []) == [] && Collect(AsCounter(), []) == [];
      assert ChunkSamples(p, 0, []) == [];
    }
  }

  /** Copies emitted for the threads outside `todo`. */
  ghost predicate CopiedSoFar(p: Params, k: int, h: seq<Input>, stacks: map<int, seq<OpenSpan>>,
                              todo: set<int>, copies: seq<Entry>) {
    && (forall i :: 0 <= i < |copies| ==> copies[i].Context?)
    && forall t :: Filter(ContextOn(t), copies) ==
                   if t in stacks && t !in todo then ContextDue(p, k, h, t) else []
  }

  /** Emitting what survives of one stack is emitting that thread's due copies. */
  lemma CopyStack(p: Params, current: int, k: int, h: seq<Input>, stacks: map<int, seq<OpenSpan>>,
                  todo: set<int>, copies: seq<Entry>, tid: int, now: seq<OpenSpan>)
    requires p.Valid() && current < k < p.numChunks && StackOk(p, current, stacks, h, tid)
    requires tid in todo && tid in stacks && now == Filter(EndsAfter(p.Start(k)), stacks[tid])
    requires CopiedSoFar(p, k, h, stacks, todo, copies)
    ensures CopiedSoFar(p, k, h, stacks, todo - {tid}, copies + Map(AsContext(p, k), now))
  {
    var more := Map(AsContext(p, k), now);
    FilterMembers(EndsAfter(p.Start(k)), stacks[tid]);
    forall i | 0 <= i < |more|
      ensures more[i].Context? && more[i].call.tid == tid
    {
      assert now[i] in now;
    }
    assert more == ContextDue(p, k, h, tid);
    forall t
      ensures Filter(ContextOn(t), copies + more) ==
              if t in stacks && t !in todo - {tid} then ContextDue(p, k, h, t) else []
    {
      FilterAppend(ContextOn(t), copies, more);
      if t == tid {
        FilterAll(ContextOn(t), more);
      } else {
        FilterNone(ContextOn(t), more);
      }
    }
  }

  lemma StackOfThread(p: Params, current: int, stacks: map<int, seq<OpenSpan>>, h: seq<Input>, t: int)
    requires StacksOk(p, current, stacks, h)
    ensures StackOk(p, current, stacks, h, t)
  {
  }

  lemma NothingCopied(p: Params, k: int, h: seq<Input>, stacks: map<int, seq<OpenSpan>>)
    ensures CopiedSoFar(p, k, h, stacks, stacks.Keys, [])
  {
  }

  lemma AllCopied(p: Params, current: int, k: int, h: seq<Input>, stacks: map<int, seq<OpenSpan>>, copies: seq<Entry>)
    requires p.Valid() && 0 <= current < k < p.numChunks && StacksOk(p, current, stacks, h)
    requires CopiedSoFar(p, k, h, stacks, {}, copies)
    ensures HeadOk(p, k, h, copies)
  {
    forall t
      ensures Filter(ContextOn(t), copies) == ContextDue(p, k, h, t)
    {
      if t !in stacks {
        assert StackOk(p, current, stacks, h, t);
        assert Filter(EndsAfter(p.Start(k)), []) == [];
      }
    }
  }

  /** Pruning at the start of a chunk suits that chunk and all later ones. */
  lemma ExpireAtStart(p: Params, k: int, stacks: map<int, seq<OpenSpan>>, h: seq<Input>, tid: int)
    requires p.Valid() && StacksOk(p, k, stacks, h) && tid in stacks
    ensures StacksOk(p, k, stacks[tid := Filter(EndsAfter(p.Start(k)), stacks[tid])], h)
  {
    var pruned := stacks[tid := Filter(EndsAfter(p.Start(k)), stacks[tid])];
    forall j | k < j < p.numChunks
      ensures p.Start(k) <= p.Start(j)
    {
      StartMonotone(p, k, j);
    }
    FilterMembers(EndsAfter(p.Start(k)), stacks[tid]);
    assert StackOk(p, k, stacks, h, tid);
    ExpireKeeps(p, k, stacks[tid], SpansOn(h, tid), p.Start(k));
    hide Agree;
    forall t
      ensures StackOk(p, k, pruned, h, t)
    {
      assert StackOk(p, k, stacks, h, t);
    }
  }

  lemma LaterChunkNeedsLess(p: Params, current: int, k: int, stacks: map<int, seq<OpenSpan>>, h: seq<Input>)
    requires StacksOk(p, current, stacks, h) && current <= k
    ensures StacksOk(p, k, stacks, h)
  {
    forall t
      ensures StackOk(p, k, stacks, h, t)
    {
      assert StackOk(p, current, stacks, h, t);
    }
  }

  /** The surviving spans of one stack, clamped to chunk `k`. */
  method EmitStack(p: Params, k: int, stack: seq<OpenSpan>) returns (copies: seq<Entry>)
    requires forall s | s in stack :: s.End() > p.Start(k)
    ensures copies == Map(AsContext(p, k), stack)
  {
    var chunkStart, chunkEnd := p.Start(k), p.Start(k + 1);
    copies := [];
    for i := 0 to |stack|
      invariant copies == Map(AsContext(p, k), stack[..i])
    {
      var span := stack[i];
      assert span in stack;
      var clampedDur := span.End() - chunkStart;
      if clampedDur <= 0.0 {
        assert false;
      } else {
        if k < p.numChunks - 1 && span.End() > chunkEnd {
          clampedDur := chunkEnd - chunkStart;
        }
        copies := copies + [Context(Complete(span.name, span.cat, chunkStart, clampedDur, span.pid, span.tid, NoArgs))];
      }
    }
    assert stack[..|stack|] == stack;
  }

  /** The samples of a window, assuming nothing about their order. */
  method EmitSamples(samples: seq<MetricSample>, from: real, to: real) returns (picked: seq<MetricSample>)
    ensures picked == PickSamples(samples, from, to)
  {
    picked := [];
    for i := 0 to |samples|
      invariant picked + PickSamples(samples[i..], from, to) == PickSamples(samples, from, to)
    {
      ghost var rest := samples[i..];
      assert rest[0] == samples[i] && rest[1..] == samples[i + 1..];
      if samples[i].tsUs >= from {
        if samples[i].tsUs >= to {
          return;
        }
        picked := picked + [samples[i]];
      }
    }
  }

  // ---- the writer ----

  /** All stacks without the spans that have ended by `at`. */
  function Pruned(stacks: map<int, seq<OpenSpan>>, at: real): map<int, seq<OpenSpan>> {
    map t | t in stacks :: Filter(EndsAfter(at), stacks[t])
  }

  /** The stacks, of which those in `todo` have yet to be pruned. */
  function PrunedBut(stacks: map<int, seq<OpenSpan>>, todo: set<int>, at: real): map<int, seq<OpenSpan>> {
    map t | t in stacks :: if t in todo then stacks[t] else Filter(EndsAfter(at), stacks[t])
  }

  lemma PruneNext(stacks: map<int, seq<OpenSpan>>, todo: set<int>, at: real, tid: int)
    requires tid in todo && tid in stacks
    ensures PrunedBut(stacks, todo, at)[tid := Filter(EndsAfter(at), stacks[tid])] ==
            PrunedBut(stacks, todo - {tid}, at)
  {
  }

  lemma PruneBounds(stacks: map<int, seq<OpenSpan>>, at: real)
    ensures PrunedBut(stacks, stacks.Keys, at) == stacks && PrunedBut(stacks, {}, at) == Pruned(stacks, at)
  {
  }

  lemma YetToPrune(stacks: map<int, seq<OpenSpan>>, todo: set<int>, at: real, tid: int)
    requires tid in todo && todo <= stacks.Keys
    ensures tid in PrunedBut(stacks, todo, at) && PrunedBut(stacks, todo, at)[tid] == stacks[tid]
  {
  }

  class ChunkingWriter {
    const p: Params
    var currentChunk: int
    var files: seq<ChunkFile>            // the last one is open
    var cachedMetadata: seq<Call>
    var metricSamples: seq<MetricSample>
    var totalEvents: nat
    var openStacks: map<int, seq<OpenSpan>>
    ghost var parts: seq<seq<Input>>     // what each file has been asked to hold

    ghost function History(): seq<Input>
      reads this
    {
      Flatten(parts)
    }

    /** What holds throughout; in the middle of a call the chunk may already have been
        advanced for it. */
    ghost predicate Consistent()
      reads this
    {
      && p.Valid()
      && files != [] && FilesOk(p, files, parts) && Busy(Init(parts))
      && currentChunk == Last(files).idx && 0 <= currentChunk < p.numChunks
      && Reached(p, History()) <= currentChunk
      && cachedMetadata == Names(History())
      && metricSamples == LatestSamples(History())
      && StacksOk(p, currentChunk, openStacks, History())
    }

    ghost predicate Valid()
      reads this
    {
      Consistent() && Reached(p, History()) == currentChunk && Busy(parts)
    }

    constructor (p: Params)
      requires p.Valid()
      ensures Valid() && this.p == p && History() == [] && totalEvents == 0
    {
      this.p := p;
      currentChunk := 0;
      cachedMetadata, metricSamples, totalEvents, openStacks := [], [], 0, map[];
      files, parts := [ChunkFile(0, [])], [[]];
      new;
      FirstFileOk(p);
    }

    /** Forget the spans of thread `tid` that have ended by `nowUs`. */
    method ExpireSpans(tid: int, nowUs: real)
      requires Consistent() && p.ChunkForTs(nowUs) <= currentChunk
      modifies this`openStacks
      ensures Consistent()
      ensures openStacks == if tid in old(openStacks)
                            then old(openStacks)[tid := Filter(EndsAfter(nowUs), old(openStacks)[tid])]
                            else old(openStacks)
    {
      ExpireStackOk(p, currentChunk, openStacks, History(), tid, nowUs);
      hide FilesOk, Busy, Reached, Names, LatestSamples, StacksOk;
      if tid in openStacks {
        openStacks := openStacks[tid := Filter(EndsAfter(nowUs), openStacks[tid])];
      }
    }

    /** One thread's turn: forget what has ended by the start of chunk `k`, copy the rest. */
    method EmitThread(k: int, tid: int) returns (more: seq<Entry>)
      requires tid in openStacks
      modifies this`openStacks
      ensures openStacks == old(openStacks)[tid := Filter(EndsAfter(p.Start(k)), old(openStacks)[tid])]
      ensures more == Map(AsContext(p, k), openStacks[tid])
    {
      FilterMembers(EndsAfter(p.Start(k)), openStacks[tid]);
      hide Filter, AsContext;
      openStacks := openStacks[tid := Filter(EndsAfter(p.Start(k)), openStacks[tid])];
      more := EmitStack(p, k, openStacks[tid]);
    }

    /** The copies due at the top of chunk `k`, thread by thread in table order. */
    method EmitCopies(k: int, ghost h: seq<Input>) returns (copies: seq<Entry>)
      requires p.Valid() && 0 <= currentChunk < k < p.numChunks
      requires StacksOk(p, currentChunk, openStacks, h)
      modifies this`openStacks
      ensures HeadOk(p, k, h, copies) && StacksOk(p, k, openStacks, h)
      ensures openStacks == Pruned(old(openStacks), p.Start(k))
    {
      ghost var stacks := openStacks;
      LaterChunkNeedsLess(p, currentChunk, k, stacks, h);
      var todo := openStacks.Keys;
      copies := [];
      PruneBounds(stacks, p.Start(k));
      NothingCopied(p, k, h, stacks);
      hide HeadOk, StacksOk, StackOk, CopiedSoFar, Filter, AsContext, EndsAfter, Pruned, PrunedBut;
      while todo != {}
        invariant todo <= stacks.Keys && openStacks == PrunedBut(stacks, todo, p.Start(k))
        invariant StacksOk(p, k, openStacks, h)
        invariant CopiedSoFar(p, k, h, stacks, todo, copies)
        decreases todo
      {
        NotEmpty(todo);
        var tid :| tid in todo;
        YetToPrune(stacks, todo, p.Start(k), tid);
        PruneNext(stacks, todo, p.Start(k), tid);
        ExpireAtStart(p, k, openStacks, h, tid);
        StackOfThread(p, currentChunk, stacks, h, tid);
        CopyStack(p, currentChunk, k, h, stacks, todo, copies, tid, Filter(EndsAfter(p.Start(k)), stacks[tid]));
        var more := EmitThread(k, tid);
        copies := copies + more;
        todo := todo - {tid};
      }
      AllCopied(p, currentChunk, k, h, stacks, copies);
    }

    method OpenChunk(k: int)
      requires Valid() && currentChunk < k < p.numChunks
      modifies this
      ensures Consistent() && currentChunk == k == Last(files).idx
      ensures Init(files) == old(files) && parts == old(parts) + [[]]
      ensures openStacks == Pruned(old(openStacks), p.Start(k))
      ensures History() == old(History()) && totalEvents == old(totalEvents)
    {
      hide FilesOk, Busy, HeadOk, StacksOk, Names, LatestSamples, Flatten, Reached, Pruned;
      ghost var h := History();
      var log := [];
      for i := 0 to |cachedMetadata|
        invariant log == Map(AsReplayed, cachedMetadata[..i])
        invariant Consistent() && currentChunk < k && History() == h && totalEvents == old(totalEvents)
        invariant openStacks == old(openStacks)
      {
        log := log + [Replayed(cachedMetadata[i])];
      }
      assert cachedMetadata[..|cachedMetadata|] == cachedMetadata;
      var picked := EmitSamples(metricSamples, p.Start(k), p.Start(k + 1));
      log := log + Map(AsCounterEntry, picked);
      var copies := EmitCopies(k, h);
      log := log + copies;
      NewFileOk(p, k, h, copies);
      OpenOk(p, files, parts, ChunkFile(k, log));
      BusyOpen(parts);
      InitLast(files, ChunkFile(k, log));
      currentChunk := k;
      files, parts := files + [ChunkFile(k, log)], parts + [[]];
    }

    /** Move to the chunk of `tsUs` if it is a later one. */
    method MaybeAdvanceChunk(tsUs: real)
      requires Valid()
      modifies this
      ensures Consistent() && History() == old(History()) && totalEvents == old(totalEvents)
      ensures currentChunk == if p.ChunkForTs(tsUs) > Reached(p, History()) then p.ChunkForTs(tsUs)
                              else Reached(p, History())
      ensures if p.ChunkForTs(tsUs) > old(currentChunk) then
                && Init(files) == old(files) && Last(files).idx == p.ChunkForTs(tsUs) && parts == old(parts) + [[]]
                && openStacks == Pruned(old(openStacks), p.Start(currentChunk))
              else
                files == old(files) && parts == old(parts) && openStacks == old(openStacks)
    {
      hide FilesOk, Busy, StacksOk, Names, LatestSamples, Flatten, Reached, Pruned;
      ChunkInRange(p, tsUs);
      var target := p.ChunkForTs(tsUs);
      if target > currentChunk && target < p.numChunks {
        OpenChunk(target);
      }
    }

    /** Only the open file has yet to be told of input `x`. */
    ghost predicate Awaits(x: Input)
      reads this
    {
      && p.Valid()
      && files != [] && FilesOk(p, files, parts) && Busy(Init(parts))
      && currentChunk == Last(files).idx && 0 <= currentChunk < p.numChunks
      && Reached(p, History() + [x]) == currentChunk
      && cachedMetadata == Names(History() + [x])
      && metricSamples == LatestSamples(History() + [x])
      && StacksOk(p, currentChunk, openStacks, History() + [x])
    }

    /** Write into the open file. */
    method Append(ghost x: Input, more: seq<Entry>)
      requires Awaits(x) && more == Written(p, currentChunk, x)
      modifies this`files, this`parts
      ensures Valid() && History() == old(History()) + [x]
    {
      hide FilesOk, Busy, StacksOk, Names, LatestSamples, Flatten, Reached, Written;
      WriteOk(p, files, parts, x, more);
      BusyWrite(parts, x);
      var f := Last(files);
      InitLast(Init(files), f.(log := f.log + more));
      files, parts := Init(files) + [f.(log := f.log + more)], Init(parts) + [Last(parts) + [x]];
    }

    /** Once the chunk has been advanced and the span pushed, a timed call is awaited. */
    lemma AwaitsTimed(c: Call, stacks: map<int, seq<OpenSpan>>)
      requires p.Valid() && files != [] && FilesOk(p, files, parts) && Busy(Init(parts))
      requires currentChunk == Last(files).idx && 0 <= currentChunk < p.numChunks
      requires !IsNaming(c)
      requires currentChunk == if p.ChunkForTs(TimeOf(c)) > Reached(p, History()) then p.ChunkForTs(TimeOf(c))
                               else Reached(p, History())
      requires cachedMetadata == Names(History()) && metricSamples == LatestSamples(History())
      requires StacksOk(p, currentChunk, stacks, History()) && openStacks == Pushed(stacks, Event(c))
      ensures Awaits(Event(c))
    {
      HistorySnoc(p, History(), Event(c), 0);
      RecordStacks(p, currentChunk, stacks, History(), Event(c));
      hide FilesOk, Busy, StacksOk, Plain, Flatten, Reached, LatestSamples;
      Nil(Names(History()));
    }

    lemma AwaitsSamples(samples: seq<MetricSample>)
      requires p.Valid() && files != [] && FilesOk(p, files, parts) && Busy(Init(parts))
      requires currentChunk == Last(files).idx && 0 <= currentChunk < p.numChunks
      requires Reached(p, History()) == currentChunk
      requires cachedMetadata == Names(History()) && metricSamples == samples
      requires StacksOk(p, currentChunk, openStacks, History())
      ensures Awaits(Samples(samples))
    {
      hide FilesOk, Busy, StacksOk, Flatten, Reached, Names;
      HistorySnoc(p, History(), Samples(samples), 0);
      RecordStacks(p, currentChunk, openStacks, History(), Samples(samples));
      Nil(Names(History()));
    }

    lemma AwaitsNaming(c: Call, x: Input)
      requires p.Valid() && files != [] && FilesOk(p, files, parts) && Busy(Init(parts))
      requires currentChunk == Last(files).idx && 0 <= currentChunk < p.numChunks
      requires x.Event? && IsNaming(x.call) && Normal(x.call) == c
      requires Reached(p, History()) == currentChunk
      requires cachedMetadata == Names(History()) + [c] && metricSamples == LatestSamples(History())
      requires StacksOk(p, currentChunk, openStacks, History())
      ensures Awaits(x)
    {
      hide FilesOk, Busy, StacksOk, Flatten, Reached, Names, LatestSamples;
      HistorySnoc(p, History(), x, 0);
      RecordStacks(p, currentChunk, openStacks, History(), x);
    }

    method WriteMetadata(c: Call)
      requires Valid() && c.Metadata?
      modifies this
      ensures Valid() && History() == old(History()) + [Event(c)]
      ensures totalEvents == old(totalEvents)
    {
      GiveName(c, Event(c));
    }

    /** Cache a name for the chunks to come and write it to this one. */
    method GiveName(c: Call, ghost x: Input)
      requires Valid() && c.Metadata? && x.Event? && IsNaming(x.call) && Normal(x.call) == c
      modifies this
      ensures Valid() && History() == old(History()) + [x]
      ensures totalEvents == old(totalEvents)
    {
      hide FilesOk, Busy, StacksOk, Names, LatestSamples, Flatten, Reached, Pruned;
      cachedMetadata := cachedMetadata + [c];
      AwaitsNaming(c, x);
      Append(x, [Live(c)]);
    }

    /** A begin, end or instant. */
    method WriteMark(c: Call)
      requires Valid() && (c.Begin? || c.End? || c.Instant?)
      modifies this
      ensures Valid() && History() == old(History()) + [Event(c)]
      ensures totalEvents == old(totalEvents) + 1
    {
      hide FilesOk, Busy, StacksOk, Names, LatestSamples, Flatten, Reached, Pruned;
      MaybeAdvanceChunk(c.tsUs);
      AwaitsTimed(c, openStacks);
      Append(Event(c), [Live(c)]);
      totalEvents := totalEvents + 1;
    }

    method WriteComplete(c: Call)
      requires Valid() && c.Complete?
      modifies this
      ensures Valid() && History() == old(History()) + [Event(c)]
      ensures totalEvents == old(totalEvents) + 1
    {
      hide FilesOk, Busy, StacksOk, Names, LatestSamples, Flatten, Reached, Pruned;
      MaybeAdvanceChunk(c.tsUs);
      ExpireSpans(c.tid, c.tsUs);
      ghost var stacks := openStacks;
      openStacks := openStacks[c.tid := StackOf(openStacks, c.tid) +
                               [OpenSpan(c.name, c.cat, c.tsUs, c.durUs, c.pid, c.tid)]];
      AwaitsTimed(c, stacks);
      Append(Event(c), [Live(c)]);
      totalEvents := totalEvents + 1;
    }

    method WriteVizEvent(c: Call)
      requires Valid() && c.Viz?
      modifies this
      ensures Valid() && History() == old(History()) + [Event(c)]
      ensures totalEvents == old(totalEvents) + 1
    {
      hide FilesOk, Busy, StacksOk, Names, LatestSamples, Flatten, Reached, Pruned;
      if c.ph == 'M' {
        GiveName(Metadata(c.name, c.pid, c.tid, c.args), Event(c));
      } else {
        MaybeAdvanceChunk(c.tsUs);
        ExpireSpans(c.tid, c.tsUs);
        ghost var stacks := openStacks;
        if c.ph == 'X' && c.durUs > 0.0 {
          var cat := if c.cat == "" then "python" else c.cat;
          openStacks := openStacks[c.tid := StackOf(openStacks, c.tid) +
                                   [OpenSpan(c.name, cat, c.tsUs, c.durUs, c.pid, c.tid)]];
        }
        AwaitsTimed(c, stacks);
        Append(Event(c), [Live(c)]);
      }
      totalEvents := totalEvents + 1;
    }

    /** Hand over the samples; those of the open chunk are written at once. */
    method SetMetricSamples(samples: seq<MetricSample>)
      requires Valid()
      modifies this
      ensures Valid() && History() == old(History()) + [Samples(samples)]
      ensures totalEvents == old(totalEvents)
    {
      hide FilesOk, Busy, StacksOk, Names, LatestSamples, Flatten, Reached, Pruned;
      metricSamples := samples;
      AwaitsSamples(samples);
      var picked := EmitSamples(metricSamples, p.Start(currentChunk), p.Start(currentChunk + 1));
      Append(Samples(samples), Map(AsCounterEntry, picked));
    }
  }

  // ---- whole runs ----

  /** Inputs that reach the writer through each of its entry points. */
  method Perform(w: ChunkingWriter, x: Input)
    requires w.Valid()
    modifies w
    ensures w.Valid() && w.History() == old(w.History()) + [x]
  {
    match x
    case Samples(s) => w.SetMetricSamples(s);
    case Event(c) =>
      match c
      case Complete(_, _, _, _, _, _, _) => w.WriteComplete(c);
      case Viz(_, _, _, _, _, _, _, _) => w.WriteVizEvent(c);
      case Metadata(_, _, _, _) => w.WriteMetadata(c);
      case _ => w.WriteMark(c);
  }

  /** For any calls, with times in any order, the files written are a chunking of
      them: the pruned stacks have the effect of stacks that are never pruned, and each
      file carries over exactly the calls that last into its chunk. */
  method WriteChunks(p: Params, inputs: seq<Input>) returns (files: seq<ChunkFile>)
    requires p.Valid()
    ensures IsChunking(p, files, inputs)
    ensures forall i :: 0 <= i < |files| ==> CarriesOver(p, files, i)
  {
    hide FilesOk, Busy, StacksOk, Names, LatestSamples, Flatten, Reached, Pruned, CarriesOver;
    var w := new ChunkingWriter(p);
    for i := 0 to |inputs|
      invariant fresh(w) && w.Valid() && w.p == p && w.History() == inputs[..i]
    {
      Perform(w, inputs[i]);
      assert inputs[..i + 1] == inputs[..i] + [inputs[i]];
    }
    assert inputs[..|inputs|] == inputs;
    files := w.files;
    ChunksCarryOver(p, files, inputs);
  }

  /** At every point the open file's names are all names given so far. */
  lemma NamesAreReplayed(w: ChunkingWriter)
    requires w.Valid()
    ensures Collect(AsNaming(), Last(w.files).log) == Names(w.History())
  {
  }
}
