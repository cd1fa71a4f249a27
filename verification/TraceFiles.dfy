/** Chunking and encoding together: each chunk of a run becomes a file of its own,
    which can be read without the others. */
module TraceFiles {
  import opened Seqs
  import opened Output
  import opened Chunks
  import opened ChunkingWriter
  import opened TracePackets
  import opened PerfettoWriter
  import opened PacketWire
  import opened ProtoEncoder

  /** The display names after a list of naming calls. */
  function NamesFrom(r: Rendering, calls: seq<Call>): map<nat, string> {
    if calls == [] then map[]
    else if Last(calls).Metadata? then Renamed(r, NamesFrom(r, Init(calls)), Last(calls))
    else NamesFrom(r, Init(calls))
  }

  /** Naming entries are naming calls, and the others name nothing. */
  predicate Regular(e: Entry) {
    match e
    case Counter(_) => true
    case Live(c) => Normal(c) == c
    case Replayed(c) => c.Metadata?
    case Context(c) => c.Complete?
  }

  lemma {:induction false} NamesOfLog(r: Rendering, log: seq<Entry>)
    requires forall i :: 0 <= i < |log| ==> Regular(log[i])
    ensures NamesGiven(r, log) == NamesFrom(r, Collect(AsNaming(), log))
  {
    if log != [] {
      NamesOfLog(r, Init(log));
      var e := Last(log);
      assert Regular(e);
      if AsNaming()(e).Some? {
        InitLast(Collect(AsNaming(), Init(log)), e.call);
      } else {
        Nil(Collect(AsNaming(), Init(log)));
      }
    }
  }

  lemma {:induction false} CollectMember<A, B>(f: A -> Option<B>, s: seq<A>, i: nat)
    requires i < |s| && f(s[i]).Some?
    ensures f(s[i]).value in Collect(f, s)
  {
    if i < |s| - 1 {
      CollectMember(f, Init(s), i);
    }
  }

  lemma {:induction false} PlainIsNormal(h: seq<Input>)
    ensures forall c :: c in Plain(h) ==> Normal(c) == c
  {
    if h != [] {
      PlainIsNormal(Init(h));
    }
  }

  lemma EntriesAreRegular(p: Params, f: ChunkFile, before: seq<Input>, during: seq<Input>, i: nat)
    requires p.Valid() && FileOk(p, f, before, during) && i < |f.log|
    ensures Regular(f.log[i])
  {
    hide Plain, Names, SetDuring, LatestSamples, Filter;
    var e := f.log[i];
    match e
    case Counter(_) =>
    case Live(c) =>
      CollectMember(AsLive(), f.log, i);
      PlainIsNormal(during);
    case Replayed(c) =>
      CollectMember(AsNaming(), f.log, i);
      NamesAreNaming(before + during);
    case Context(c) =>
      FilterMembers(ContextOn(c.tid), f.log);
      assert e in Filter(ContextOn(c.tid), f.log);
      if f.idx != 0 {
        assert e in ContextDue(p, f.idx, before, c.tid);
      }
  }

  /** Each chunk shows its tracks under the latest names of the whole run so far,
      wherever in the run they were given. */
  lemma ChunksShowLatestNames(p: Params, r: Rendering, f: ChunkFile, before: seq<Input>, during: seq<Input>)
    requires p.Valid() && FileOk(p, f, before, during)
    ensures NamesGiven(r, f.log) == NamesFrom(r, Names(before + during))
  {
    forall i | 0 <= i < |f.log|
      ensures Regular(f.log[i])
    {
      EntriesAreRegular(p, f, before, during, i);
    }
    NamesOfLog(r, f.log);
  }

  // ---- every chunk can be read, as soon as the run's strings can be written ----

  /** The strings an input brings up, titles included; a Python span without a category
      gets one. */
  function InputWords(r: Rendering, x: Input): set<string> {
    match x
    case Event(c) => WordsOf(r, c) + {"python"}
    case Samples(s) => set m, w | m in s && w in SampleWords(r, m.name, 0) :: w
  }

  function RunWords(r: Rendering, h: seq<Input>): set<string> {
    set x, w | x in h && w in InputWords(r, x) :: w
  }

  lemma RunWordsAppend(r: Rendering, a: seq<Input>, b: seq<Input>)
    ensures RunWords(r, a + b) == RunWords(r, a) + RunWords(r, b)
  {
    hide InputWords;
    forall w
      ensures w in RunWords(r, a + b) <==> w in RunWords(r, a) || w in RunWords(r, b)
    {
      assert forall x :: x in a + b <==> x in a || x in b;
    }
  }

  lemma {:induction false} WordsFrom(r: Rendering, log: seq<Entry>, words: set<string>)
    requires forall i :: 0 <= i < |log| ==> EntryWords(r, log[i]) <= words
    ensures WordsIn(r, log) <= words
  {
    if log != [] {
      WordsFrom(r, Init(log), words);
    }
  }

  lemma {:induction false} PlainWords(r: Rendering, h: seq<Input>, c: Call)
    requires c in Plain(h)
    ensures WordsOf(r, c) <= RunWords(r, h)
  {
    var x := Last(h);
    if c in Plain(Init(h)) {
      PlainWords(r, Init(h), c);
    } else {
      assert x in h && WordsOf(r, Normal(x.call)) == WordsOf(r, x.call) <= InputWords(r, x);
    }
  }

  lemma {:induction false} SpanWords(r: Rendering, h: seq<Input>, t: int, s: OpenSpan)
    requires s in SpansOn(h, t)
    ensures {r.text(s.name), s.cat} + TrackTitles(r, s.pid, s.tid) <= RunWords(r, h)
  {
    hide TrackTitles;
    var x := Last(h);
    if s in SpansOn(Init(h), t) {
      SpanWords(r, Init(h), t, s);
    } else {
      assert x in h && {r.text(s.name), s.cat} + TrackTitles(r, s.pid, s.tid) <= InputWords(r, x);
    }
  }

  lemma {:induction false} PickedIsSample(samples: seq<MetricSample>, from: real, to: real, m: MetricSample)
    requires m in PickSamples(samples, from, to)
    ensures m in samples
  {
    if m in PickSamples(samples[1..], from, to) {
      PickedIsSample(samples[1..], from, to, m);
    }
  }

  lemma {:induction false} LatestWords(r: Rendering, h: seq<Input>, m: MetricSample)
    requires m in LatestSamples(h)
    ensures SampleWords(r, m.name, 0) <= RunWords(r, h)
  {
    if Last(h).Samples? {
      assert Last(h) in h && SampleWords(r, m.name, 0) <= InputWords(r, Last(h));
    } else {
      LatestWords(r, Init(h), m);
    }
  }

  lemma {:induction false} SetWords(p: Params, r: Rendering, k: int, h: seq<Input>, m: MetricSample)
    requires m in SetDuring(p, k, h)
    ensures SampleWords(r, m.name, 0) <= RunWords(r, h)
  {
    var x := Last(h);
    if m in SetDuring(p, k, Init(h)) {
      SetWords(p, r, k, Init(h), m);
    } else {
      PickedIsSample(x.samples, p.Start(k), p.Start(k + 1), m);
      assert x in h && SampleWords(r, m.name, 0) <= InputWords(r, x);
    }
  }

  /** Whatever a chunk file spells, copies and replays included, the run was given. */
  lemma ChunkWords(p: Params, r: Rendering, f: ChunkFile, before: seq<Input>, during: seq<Input>, i: nat)
    requires p.Valid() && FileOk(p, f, before, during) && i < |f.log|
    ensures EntryWords(r, f.log[i]) <= RunWords(r, before) + RunWords(r, during)
  {
    hide Plain, SetDuring, LatestSamples, SpansOn, Filter, RunWords, PickSamples, TrackTitles,
         NamingTitles, SampleWords;
    var e := f.log[i];
    match e
    case Counter(m) =>
      CollectMember(AsCounter(), f.log, i);
      if m in SetDuring(p, f.idx, during) {
        SetWords(p, r, f.idx, during, m);
      } else {
        PickedIsSample(LatestSamples(before), p.Start(f.idx), p.Start(f.idx + 1), m);
        LatestWords(r, before, m);
      }
    case Live(c) =>
      CollectMember(AsLive(), f.log, i);
      PlainWords(r, during, c);
    case Replayed(c) =>
      CollectMember(AsNaming(), f.log, i);
      FilterMembers(NamingCall(), Plain(before + during));
      PlainWords(r, before + during, c);
      RunWordsAppend(r, before, during);
    case Context(c) =>
      FilterMembers(ContextOn(c.tid), f.log);
      assert e in Filter(ContextOn(c.tid), f.log);
      if f.idx != 0 {
        var due := Filter(EndsAfter(p.Start(f.idx)), SpansOn(before, c.tid));
        assert e in ContextDue(p, f.idx, before, c.tid);
        var j :| 0 <= j < |due| && AsContext(p, f.idx)(due[j]) == e;
        FilterMembers(EndsAfter(p.Start(f.idx)), SpansOn(before, c.tid));
        SpanWords(r, before, c.tid, due[j]);
      }
  }

  /** What a caller has to see to before a run: the strings it brings up, titles
      included, are short strings of bytes, and not astronomically many. */
  predicate RunCanBeSpelled(r: Rendering, h: seq<Input>) {
    && (forall s :: s in RunWords(r, h) ==> Short(s))
    && |RunWords(r, h)| < 0x2000_0000_0000_0000
  }

  lemma ChunkCanBeSpelled(p: Params, r: Rendering, f: ChunkFile, before: seq<Input>, during: seq<Input>, h: seq<Input>)
    requires p.Valid() && FileOk(p, f, before, during) && RunCanBeSpelled(r, h)
    requires forall x :: x in before + during ==> x in h
    ensures CanBeSpelled(r, f.log)
  {
    hide FileOk, EntryWords, WordsIn, InputWords, Short;
    assert RunWords(r, before) <= RunWords(r, h) && RunWords(r, during) <= RunWords(r, h) by {
      assert forall x :: x in before || x in during ==> x in before + during;
    }
    hide RunWords;
    forall i | 0 <= i < |f.log|
      ensures EntryWords(r, f.log[i]) <= RunWords(r, h)
    {
      ChunkWords(p, r, f, before, during, i);
    }
    WordsFrom(r, f.log, RunWords(r, h));
    FewerIn(WordsIn(r, f.log), RunWords(r, h));
  }

  /** If the strings a run is given can be written, every one of its chunks can. */
  lemma ChunksCanBeSpelled(p: Params, r: Rendering, chunks: seq<ChunkFile>, h: seq<Input>)
    requires p.Valid() && IsChunking(p, chunks, h) && RunCanBeSpelled(r, h)
    ensures forall i :: 0 <= i < |chunks| ==> CanBeSpelled(r, chunks[i].log)
  {
    var parts :| Flatten(parts) == h && FilesOk(p, chunks, parts) && Busy(parts);
    hide FileOk, CanBeSpelled, RunCanBeSpelled;
    forall i | 0 <= i < |chunks|
      ensures CanBeSpelled(r, chunks[i].log)
    {
      FileAt(p, chunks, parts, i);
      FlattenSplit(parts, i);
      ChunkCanBeSpelled(p, r, chunks[i], Flatten(parts[..i]), parts[i], h);
    }
  }

  /** A run split into chunk files: a chunking of its calls, each chunk readable from
      its own file alone. */
  method WriteChunkedTrace(p: Params, r: Rendering, inputs: seq<Input>)
    returns (chunks: seq<ChunkFile>, traces: seq<seq<Packet>>, files: seq<seq<byte>>)
    requires p.Valid()
    ensures IsChunking(p, chunks, inputs)
    ensures |traces| == |files| == |chunks|
    ensures forall i :: 0 <= i < |chunks| ==> IsTraceOf(r, chunks[i].log, traces[i], files[i])
    ensures RunCanBeSpelled(r, inputs) ==>
              forall i :: 0 <= i < |chunks| ==> ReadEvents(files[i]) == Some(Recovered(r, chunks[i].log))
  {
    hide IsTraceOf, IsChunking, RunCanBeSpelled, ReadEvents, Recovered;
    chunks := WriteChunks(p, inputs);
    traces, files := [], [];
    for i := 0 to |chunks|
      invariant |traces| == |files| == i
      invariant forall j :: 0 <= j < i ==> IsTraceOf(r, chunks[j].log, traces[j], files[j])
    {
      var packets, file := WriteTraceFile(r, chunks[i].log);
      traces, files := traces + [packets], files + [file];
    }
    if RunCanBeSpelled(r, inputs) {
      ChunksCanBeSpelled(p, r, chunks, inputs);
      forall i | 0 <= i < |chunks|
        ensures ReadEvents(files[i]) == Some(Recovered(r, chunks[i].log))
      {
        SpelledIsRead(r, chunks[i].log, traces[i], files[i]);
      }
    }
  }

  lemma SpelledIsRead(r: Rendering, log: seq<Entry>, packets: seq<Packet>, file: seq<byte>)
    requires IsTraceOf(r, log, packets, file) && CanBeSpelled(r, log)
    ensures ReadEvents(file) == Some(Recovered(r, log))
  {
  }
}
