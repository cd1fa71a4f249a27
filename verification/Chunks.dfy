/** What the chunk files of a run must hold, said from the history of calls alone:
    every call once, in the chunk its time has reached; and at the top of each file
    the names, the samples and the spans that carry over. */
module Chunks {
  import opened Seqs
  import opened Output

  datatype MetricSample = MetricSample(name: string, tsUs: real, value: real)

  /** What a chunking writer is asked to do. */
  datatype Input = Event(call: Call) | Samples(samples: seq<MetricSample>)

  /** One thing written to a chunk file, and why it is there. */
  datatype Entry = Live(call: Call) | Replayed(call: Call) | Counter(sample: MetricSample) | Context(call: Call)

  datatype ChunkFile = ChunkFile(idx: int, log: seq<Entry>)

  datatype OpenSpan = OpenSpan(name: Label, cat: string, tsUs: real, durUs: real, pid: int, tid: int) {
    function End(): real {
      tsUs + durUs
    }
  }

  datatype Params = Params(durUs: real, minUs: real, numChunks: int) {
    ghost predicate Valid() {
      durUs > 0.0 && numChunks >= 1
    }

    function Start(k: int): real {
      minUs + k as real * durUs
    }

    function ChunkForTs(tsUs: real): int
      requires Valid()
    {
      var offset := tsUs - minUs;
      if offset < 0.0 then 0
      else
        var c := (offset / durUs).Floor;
        if c >= numChunks then numChunks - 1 else c
    }
  }

  // ---- chunk arithmetic ----

  lemma FloorAbove(x: real, d: real)
    requires d > 0.0
    ensures x < ((x / d).Floor + 1) as real * d
  {
    var q := x / d;
    assert q * d == x;
    var n := q.Floor + 1;
    assert q < n as real;
    StrictlyMonotone(q, n as real, d);
    assert q * d < n as real * d;
  }

  lemma FloorDivides(x: real, d: real)
    requires d > 0.0 && x >= 0.0
    ensures (x / d).Floor >= 0
    ensures (x / d).Floor as real * d <= x < ((x / d).Floor + 1) as real * d
  {
    var q := x / d;
    assert q * d == x;
    assert q >= 0.0;
    Monotone(q.Floor as real, q, d);
    FloorAbove(x, d);
  }

  lemma StrictlyMonotone(a: real, b: real, d: real)
    requires a < b && d > 0.0
    ensures a * d < b * d
  {
    assert b * d - a * d == (b - a) * d > 0.0;
  }

  lemma Monotone(a: real, b: real, d: real)
    requires a <= b && d >= 0.0
    ensures a * d <= b * d
  {
    assert b * d - a * d == (b - a) * d;
  }

  lemma StartMonotone(p: Params, i: int, j: int)
    requires p.Valid() && i <= j
    ensures p.Start(i) <= p.Start(j)
    ensures i < j ==> p.Start(i) < p.Start(j)
  {
    Monotone(i as real, j as real, p.durUs);
    if i < j {
      assert j as real * p.durUs - i as real * p.durUs == (j - i) as real * p.durUs;
      Monotone(1.0, (j - i) as real, p.durUs);
    }
  }

  /** A time in the covered range lies in exactly the window its chunk number names. */
  lemma WindowIsChunk(p: Params, tsUs: real, i: int)
    requires p.Valid() && 0 <= i < p.numChunks && p.Start(0) <= tsUs < p.Start(p.numChunks)
    ensures p.Start(i) <= tsUs < p.Start(i + 1) <==> p.ChunkForTs(tsUs) == i
  {
    var offset := tsUs - p.minUs;
    FloorDivides(offset, p.durUs);
    var c := (offset / p.durUs).Floor;
    assert p.Start(c) <= tsUs < p.Start(c + 1);
    if c >= p.numChunks {
      StartMonotone(p, p.numChunks, c);
    }
    if i < c {
      StartMonotone(p, i + 1, c);
    } else if c < i {
      StartMonotone(p, c + 1, i);
    }
  }

  /** Chunks beyond the one a time belongs to start after it. */
  lemma LaterChunksStartLater(p: Params, tsUs: real, k: int)
    requires p.Valid() && p.ChunkForTs(tsUs) < k < p.numChunks
    ensures tsUs < p.Start(k)
    ensures 0 <= p.ChunkForTs(tsUs)
  {
    var offset := tsUs - p.minUs;
    if offset < 0.0 {
      StartMonotone(p, 0, k);
    } else {
      FloorDivides(offset, p.durUs);
      StartMonotone(p, (offset / p.durUs).Floor + 1, k);
    }
  }

  lemma ChunkInRange(p: Params, tsUs: real)
    requires p.Valid()
    ensures 0 <= p.ChunkForTs(tsUs) < p.numChunks
  {
    var offset := tsUs - p.minUs;
    if offset >= 0.0 {
      FloorDivides(offset, p.durUs);
    }
  }

  // ---- histories ----

  predicate IsNaming(c: Call) {
    c.Metadata? || (c.Viz? && c.ph == 'M')
  }

  /** A Python naming event reaches the file as the naming call it stands for. */
  function Normal(c: Call): Call {
    if c.Viz? && c.ph == 'M' then Metadata(c.name, c.pid, c.tid, c.args) else c
  }

  function TimeOf(c: Call): real
    requires !IsNaming(c)
  {
    c.tsUs
  }

  /** The chunk the run has reached. */
  function Reached(p: Params, h: seq<Input>): int
    requires p.Valid()
  {
    if h == [] then 0
    else
      var before := Reached(p, Init(h));
      match Last(h)
      case Samples(_) => before
      case Event(c) =>
        if IsNaming(c) then before
        else if p.ChunkForTs(TimeOf(c)) > before then p.ChunkForTs(TimeOf(c)) else before
  }

  /** The calls an unchunked writer would have received. */
  function Plain(h: seq<Input>): seq<Call> {
    if h == [] then []
    else Plain(Init(h)) + if Last(h).Event? then [Normal(Last(h).call)] else []
  }

  function NamingCall(): Call -> bool {
    (c: Call) => c.Metadata?
  }

  /** Every name given so far. */
  function Names(h: seq<Input>): seq<Call> {
    Filter(NamingCall(), Plain(h))
  }

  function LatestSamples(h: seq<Input>): seq<MetricSample> {
    if h == [] then []
    else if Last(h).Samples? then Last(h).samples
    else LatestSamples(Init(h))
  }

  /** The complete span a call starts, if it is to be carried over. */
  function SpanOf(c: Call): Option<OpenSpan> {
    if c.Complete? then Some(OpenSpan(c.name, c.cat, c.tsUs, c.durUs, c.pid, c.tid))
    else if c.Viz? && c.ph == 'X' && c.durUs > 0.0 then
      Some(OpenSpan(c.name, if c.cat == "" then "python" else c.cat, c.tsUs, c.durUs, c.pid, c.tid))
    else None
  }

  /** Every complete span of thread `t` written so far, none forgotten. */
  function SpansOn(h: seq<Input>, t: int): seq<OpenSpan> {
    if h == [] then []
    else
      var x := Last(h);
      SpansOn(Init(h), t) +
      if x.Event? && SpanOf(x.call).Some? && SpanOf(x.call).value.tid == t then [SpanOf(x.call).value] else []
  }

  lemma HistorySnoc(p: Params, h: seq<Input>, x: Input, t: int)
    requires p.Valid()
    ensures Plain(h + [x]) == Plain(h) + if x.Event? then [Normal(x.call)] else []
    ensures Names(h + [x]) == Names(h) + if x.Event? && IsNaming(x.call) then [Normal(x.call)] else []
    ensures LatestSamples(h + [x]) == if x.Samples? then x.samples else LatestSamples(h)
    ensures SpansOn(h + [x], t) == SpansOn(h, t) +
            if x.Event? && SpanOf(x.call).Some? && SpanOf(x.call).value.tid == t then [SpanOf(x.call).value] else []
    ensures Reached(p, h + [x]) ==
            if x.Samples? || IsNaming(x.call) then Reached(p, h)
            else if p.ChunkForTs(TimeOf(x.call)) > Reached(p, h) then p.ChunkForTs(TimeOf(x.call)) else Reached(p, h)
  {
    InitLast(h, x);
    if x.Event? {
      FilterSnoc(NamingCall(), Plain(h), Normal(x.call));
      assert NamingCall()(Normal(x.call)) <==> IsNaming(x.call);
    } else {
      assert Plain(h) + [] == Plain(h);
    }
  }

  // ---- what carries over ----

  function EndsAfter(tsUs: real): OpenSpan -> bool {
    (s: OpenSpan) => s.End() > tsUs
  }

  /** A span's copy at the top of chunk `k`. */
  function ContextCall(p: Params, k: int, s: OpenSpan): Call {
    var dur := if k < p.numChunks - 1 && s.End() > p.Start(k + 1) then p.Start(k + 1) - p.Start(k)
               else s.End() - p.Start(k);
    Complete(s.name, s.cat, p.Start(k), dur, s.pid, s.tid, NoArgs)
  }

  function AsContext(p: Params, k: int): OpenSpan -> Entry {
    (s: OpenSpan) => Context(ContextCall(p, k, s))
  }

  /** The copies due to thread `t` when chunk `k` opens after the calls `h`. */
  function ContextDue(p: Params, k: int, h: seq<Input>, t: int): seq<Entry> {
    Map(AsContext(p, k), Filter(EndsAfter(p.Start(k)), SpansOn(h, t)))
  }

  /** The samples a chunk's emission loop picks: it stops at the first one past the
      window. */
  function PickSamples(samples: seq<MetricSample>, from: real, to: real): seq<MetricSample> {
    if samples == [] then []
    else if samples[0].tsUs < from then PickSamples(samples[1..], from, to)
    else if samples[0].tsUs >= to then []
    else [samples[0]] + PickSamples(samples[1..], from, to)
  }

  function ChunkSamples(p: Params, k: int, samples: seq<MetricSample>): seq<MetricSample> {
    PickSamples(samples, p.Start(k), p.Start(k + 1))
  }

  /** The samples set while chunk `k` is open. */
  function SetDuring(p: Params, k: int, during: seq<Input>): seq<MetricSample> {
    if during == [] then []
    else SetDuring(p, k, Init(during)) +
         if Last(during).Samples? then ChunkSamples(p, k, Last(during).samples) else []
  }

  // ---- files ----

  function ContextOn(t: int): Entry -> bool {
    (e: Entry) => e.Context? && e.call.tid == t
  }

  function AsLive(): Entry -> Option<Call> {
    (e: Entry) => if e.Live? then Some(e.call) else None
  }

  function AsNaming(): Entry -> Option<Call> {
    (e: Entry) => if e.Replayed? || (e.Live? && e.call.Metadata?) then Some(e.call) else None
  }

  function AsCounter(): Entry -> Option<MetricSample> {
    (e: Entry) => if e.Counter? then Some(e.sample) else None
  }

  /** Each call made while file `idx` is open belongs to its chunk. */
  ghost predicate Timely(p: Params, idx: int, before: seq<Input>, during: seq<Input>)
    requires p.Valid()
  {
    forall i :: 0 < i <= |during| ==> Reached(p, before + during[..i]) == idx
  }

  /** The copies in a file's log are those due when it was opened. */
  ghost predicate CopiesDue(p: Params, idx: int, log: seq<Entry>, before: seq<Input>) {
    forall t :: Filter(ContextOn(t), log) == if idx == 0 then [] else ContextDue(p, idx, before, t)
  }

  /** What carries over comes before what the chunk itself was asked to write. */
  ghost predicate HeadFirst(log: seq<Entry>) {
    forall i, j :: 0 <= i < j < |log| && log[i].Live? ==> !log[j].Context? && !log[j].Replayed?
  }

  /** File `f`, opened after the calls `before` and written through the calls `during`,
      holds exactly the latter, every name given so far, the samples of its window,
      and a copy of each span that reaches into it from an earlier chunk. */
  ghost predicate FileOk(p: Params, f: ChunkFile, before: seq<Input>, during: seq<Input>)
    requires p.Valid()
  {
    && 0 <= f.idx < p.numChunks
    && Timely(p, f.idx, before, during)
    && Collect(AsLive(), f.log) == Plain(during)
    && Collect(AsNaming(), f.log) == Names(before + during)
    && Collect(AsCounter(), f.log) == ChunkSamples(p, f.idx, LatestSamples(before)) + SetDuring(p, f.idx, during)
    && CopiesDue(p, f.idx, f.log, before)
    && HeadFirst(f.log)
  }

  function Flatten(parts: seq<seq<Input>>): seq<Input> {
    if parts == [] then [] else Flatten(Init(parts)) + Last(parts)
  }

  /** The files of a run whose calls fall into the given parts, one per file. */
  ghost predicate FilesOk(p: Params, files: seq<ChunkFile>, parts: seq<seq<Input>>)
    requires p.Valid()
  {
    && |files| == |parts|
    && (files != [] ==>
          && FilesOk(p, Init(files), Init(parts))
          && FileOk(p, Last(files), Flatten(Init(parts)), Last(parts))
          && if |files| == 1 then Last(files).idx == 0
             else files[|files| - 2].idx < Last(files).idx && Reached(p, Flatten(Init(parts))) < Last(files).idx)
  }

  /** No file but the first was opened for nothing. */
  ghost predicate Busy(parts: seq<seq<Input>>) {
    forall i :: 0 < i < |parts| ==> parts[i] != []
  }

  ghost predicate IsChunking(p: Params, files: seq<ChunkFile>, h: seq<Input>)
    requires p.Valid()
  {
    files != [] && exists parts :: Flatten(parts) == h && FilesOk(p, files, parts) && Busy(parts)
  }

  // ---- what it means for the files ----

  lemma {:induction false} ReachedInRange(p: Params, h: seq<Input>)
    requires p.Valid()
    ensures 0 <= Reached(p, h) < p.numChunks
  {
    if h != [] {
      ReachedInRange(p, Init(h));
      if Last(h).Event? && !IsNaming(Last(h).call) {
        ChunkInRange(p, TimeOf(Last(h).call));
      }
    }
  }

  lemma {:induction false} FileAt(p: Params, files: seq<ChunkFile>, parts: seq<seq<Input>>, i: nat)
    requires p.Valid() && FilesOk(p, files, parts) && i < |files|
    ensures FileOk(p, files[i], Flatten(parts[..i]), parts[i])
    ensures if i == 0 then files[i].idx == 0
            else files[i - 1].idx < files[i].idx && Reached(p, Flatten(parts[..i])) < files[i].idx
  {
    if i < |files| - 1 {
      FileAt(p, Init(files), Init(parts), i);
      assert Init(parts)[..i] == parts[..i];
    } else {
      assert parts[..i] == Init(parts);
    }
  }

  function AllLive(files: seq<ChunkFile>): seq<Call> {
    if files == [] then [] else AllLive(Init(files)) + Collect(AsLive(), Last(files).log)
  }

  lemma {:induction false} PlainAppend(a: seq<Input>, b: seq<Input>)
    ensures Plain(a + b) == Plain(a) + Plain(b)
  {
    if b == [] {
      assert a + b == a;
    } else {
      PlainAppend(a, Init(b));
      assert a + b == (a + Init(b)) + [Last(b)];
      InitLast(a + Init(b), Last(b));
    }
  }

  lemma {:induction false} PartsPartition(p: Params, files: seq<ChunkFile>, parts: seq<seq<Input>>)
    requires p.Valid() && FilesOk(p, files, parts)
    ensures AllLive(files) == Plain(Flatten(parts))
  {
    if files != [] {
      PartsPartition(p, Init(files), Init(parts));
      PlainAppend(Flatten(Init(parts)), Last(parts));
    }
  }

  /** Chunking loses, adds and reorders nothing: without the copied spans, the
      replayed names and the samples, the files in order are the unchunked log. */
  lemma ChunkingIsFaithful(p: Params, files: seq<ChunkFile>, h: seq<Input>)
    requires p.Valid() && IsChunking(p, files, h)
    ensures AllLive(files) == Plain(h)
  {
    var parts :| Flatten(parts) == h && FilesOk(p, files, parts) && Busy(parts);
    PartsPartition(p, files, parts);
  }

  lemma {:induction false} IndicesRise(p: Params, files: seq<ChunkFile>, parts: seq<seq<Input>>, i: nat, j: nat)
    requires p.Valid() && FilesOk(p, files, parts) && i < j < |files|
    ensures files[i].idx < files[j].idx
  {
    FileAt(p, files, parts, j);
    if i < j - 1 {
      IndicesRise(p, files, parts, i, j - 1);
    }
  }

  /** File numbers rise and stay within the planned chunks. */
  lemma FilesAreNumbered(p: Params, files: seq<ChunkFile>, h: seq<Input>)
    requires p.Valid() && IsChunking(p, files, h)
    ensures forall i :: 0 <= i < |files| ==> 0 <= files[i].idx < p.numChunks
    ensures forall i, j :: 0 <= i < j < |files| ==> files[i].idx < files[j].idx
  {
    var parts :| Flatten(parts) == h && FilesOk(p, files, parts) && Busy(parts);
    forall i | 0 <= i < |files|
      ensures 0 <= files[i].idx < p.numChunks
    {
      FileAt(p, files, parts, i);
    }
    forall i, j | 0 <= i < j < |files|
      ensures files[i].idx < files[j].idx
    {
      IndicesRise(p, files, parts, i, j);
    }
  }

  // ---- the copied spans ----

  /** Every span known when a later chunk opens started before that chunk. */
  lemma {:induction false} SpansStartedEarlier(p: Params, h: seq<Input>, k: int, t: int)
    requires p.Valid() && Reached(p, h) < k < p.numChunks
    ensures forall s | s in SpansOn(h, t) :: s.tsUs < p.Start(k) && s.tid == t
  {
    if h != [] {
      var front, x := Init(h), Last(h);
      assert h == front + [x];
      HistorySnoc(p, front, x, t);
      SpansStartedEarlier(p, front, k, t);
      if x.Event? && SpanOf(x.call).Some? {
        LaterChunksStartLater(p, x.call.tsUs, k);
      }
    }
  }

  /** The copy of a span that reaches into chunk `k` is the part of it inside the
      chunk's window, which for the last chunk has no end. It is never empty. */
  lemma ContextIsIntersection(p: Params, h: seq<Input>, k: int, t: int, s: OpenSpan)
    requires p.Valid() && Reached(p, h) < k < p.numChunks && k > 0
    requires s in Filter(EndsAfter(p.Start(k)), SpansOn(h, t))
    ensures var c := ContextCall(p, k, s);
            && s.tsUs < c.tsUs == p.Start(k) && c.durUs > 0.0
            && c.tsUs + c.durUs == (if k < p.numChunks - 1 && p.Start(k + 1) < s.End() then p.Start(k + 1) else s.End())
            && c.name == s.name && c.cat == s.cat && c.pid == s.pid && c.tid == t
  {
    SpansStartedEarlier(p, h, k, t);
    FilterMembers(EndsAfter(p.Start(k)), SpansOn(h, t));
    StartMonotone(p, k, k + 1);
  }

  // ---- the samples ----

  function InWindow(from: real, to: real): MetricSample -> bool {
    (m: MetricSample) => from <= m.tsUs < to
  }

  ghost predicate SortedSamples(s: seq<MetricSample>) {
    forall i, j :: 0 <= i < j < |s| ==> s[i].tsUs <= s[j].tsUs
  }

  lemma {:induction false} FilterCons<T>(keep: T -> bool, x: T, s: seq<T>)
    ensures Filter(keep, [x] + s) == (if keep(x) then [x] else []) + Filter(keep, s)
  {
    FilterAppend(keep, [x], s);
    assert Init([x]) == [];
  }

  /** On sorted samples, stopping early misses nothing. */
  lemma {:induction false} StoppingEarlyIsExact(s: seq<MetricSample>, from: real, to: real)
    requires SortedSamples(s) && from <= to
    ensures PickSamples(s, from, to) == Filter(InWindow(from, to), s)
  {
    if s != [] {
      assert s == [s[0]] + s[1..];
      FilterCons(InWindow(from, to), s[0], s[1..]);
      if s[0].tsUs >= to {
        FilterNone(InWindow(from, to), s[1..]);
      } else {
        StoppingEarlyIsExact(s[1..], from, to);
      }
    }
  }

  function AsSamples(): Input -> Option<seq<MetricSample>> {
    (x: Input) => if x.Samples? then Some(x.samples) else None
  }

  /** The sample lists handed over, in order. */
  function Handed(h: seq<Input>): seq<seq<MetricSample>> {
    Collect(AsSamples(), h)
  }

  /** Samples are handed over once in the run, by input `j`. */
  predicate SetOnce(h: seq<Input>, s: seq<MetricSample>, j: nat) {
    Handed(h) == [s] && j < |h| && h[j] == Samples(s)
  }

  lemma {:induction false} LatestOfHanded(h: seq<Input>)
    ensures LatestSamples(h) == if Handed(h) == [] then [] else Last(Handed(h))
  {
    if h != [] {
      LatestOfHanded(Init(h));
    }
  }

  lemma {:induction false} SetDuringOfHanded(p: Params, k: int, during: seq<Input>)
    ensures Handed(during) == [] ==> SetDuring(p, k, during) == []
    ensures |Handed(during)| == 1 ==> SetDuring(p, k, during) == ChunkSamples(p, k, Handed(during)[0])
  {
    if during != [] {
      SetDuringOfHanded(p, k, Init(during));
    }
  }

  lemma {:induction false} HandedHas(h: seq<Input>, j: nat)
    requires j < |h| && h[j].Samples?
    ensures Handed(h) != []
  {
    if j < |h| - 1 {
      HandedHas(Init(h), j);
    }
  }

  /** If the first of three stretches already holds the only list, the others hold none. */
  lemma OnlyFirstHands(a: seq<Input>, b: seq<Input>, c: seq<Input>, s: seq<MetricSample>)
    requires Handed(a + b + c) == [s]
    ensures Handed(a) != [] ==> Handed(a) == [s] && Handed(b) == []
    ensures Handed(b) != [] ==> Handed(a) == [] && Handed(b) == [s]
  {
    hide Collect;
    CollectAppend(AsSamples(), a + b, c);
    CollectAppend(AsSamples(), a, b);
    var x, y, z := Handed(a), Handed(b), Handed(c);
    assert |x| + |y| + |z| == 1;
    assert x != [] ==> (x + y + z)[0] == x[0];
    assert x == [] && y != [] ==> (x + y + z)[0] == y[0];
  }

  lemma {:induction false} FlattenSplit(parts: seq<seq<Input>>, i: nat)
    requires i < |parts|
    ensures exists rest :: Flatten(parts) == Flatten(parts[..i]) + parts[i] + rest
  {
    if i == |parts| - 1 {
      assert Flatten(parts) == Flatten(parts[..i]) + parts[i] + [];
    } else {
      FlattenSplit(Init(parts), i);
      assert Init(parts)[..i] == parts[..i];
      var rest :| Flatten(Init(parts)) == Flatten(parts[..i]) + parts[i] + rest;
      assert Flatten(parts) == Flatten(parts[..i]) + parts[i] + (rest + Last(parts));
    }
  }

  /** The sample lies in the planned range and belongs to chunk `k`. */
  function BelongsTo(p: Params, k: int): MetricSample -> bool
    requires p.Valid()
  {
    (m: MetricSample) => p.Start(0) <= m.tsUs < p.Start(p.numChunks) && p.ChunkForTs(m.tsUs) == k
  }

  lemma {:induction false} FilterSame<T>(a: T -> bool, b: T -> bool, s: seq<T>)
    requires forall i :: 0 <= i < |s| ==> a(s[i]) == b(s[i])
    ensures Filter(a, s) == Filter(b, s)
  {
    if s != [] {
      FilterSame(a, b, Init(s));
    }
  }

  lemma WindowSamples(p: Params, k: int, s: seq<MetricSample>)
    requires p.Valid() && 0 <= k < p.numChunks && SortedSamples(s)
    ensures ChunkSamples(p, k, s) == Filter(BelongsTo(p, k), s)
  {
    StartMonotone(p, k, k + 1);
    StoppingEarlyIsExact(s, p.Start(k), p.Start(k + 1));
    StartMonotone(p, 0, k);
    StartMonotone(p, k + 1, p.numChunks);
    forall i | 0 <= i < |s|
      ensures InWindow(p.Start(k), p.Start(k + 1))(s[i]) == BelongsTo(p, k)(s[i])
    {
      if p.Start(0) <= s[i].tsUs < p.Start(p.numChunks) {
        WindowIsChunk(p, s[i].tsUs, k);
      }
    }
    FilterSame(InWindow(p.Start(k), p.Start(k + 1)), BelongsTo(p, k), s);
  }

  /** What has been handed over stays so. */
  lemma {:induction false} HandsOn(parts: seq<seq<Input>>, i: nat, k: nat)
    requires i <= k <= |parts| && Handed(Flatten(parts[..i])) != []
    ensures Handed(Flatten(parts[..k])) != []
  {
    if i < k {
      HandsOn(parts, i, k - 1);
      assert Init(parts[..k]) == parts[..k - 1];
      CollectAppend(AsSamples(), Flatten(parts[..k - 1]), parts[k - 1]);
    }
  }

  lemma PartHands(parts: seq<seq<Input>>, i: nat, k: nat)
    requires i < k <= |parts| && Handed(parts[i]) != []
    ensures Handed(Flatten(parts[..k])) != []
  {
    assert Init(parts[..i + 1]) == parts[..i];
    CollectAppend(AsSamples(), Flatten(parts[..i]), parts[i]);
    HandsOn(parts, i + 1, k);
  }

  /** Where the only samples of a run fall, seen from one file: they are handed over in
      part `at`. */
  lemma SampleInputsOfFile(p: Params, k: int, parts: seq<seq<Input>>, s: seq<MetricSample>, at: nat, i: nat)
    requires p.Valid() && at < |parts| && i < |parts|
    requires Handed(Flatten(parts)) == [s] && Handed(parts[at]) != []
    ensures LatestSamples(Flatten(parts[..i])) == if at < i then s else []
    ensures SetDuring(p, k, parts[i]) == if at == i then ChunkSamples(p, k, s) else []
  {
    var before, during := Flatten(parts[..i]), parts[i];
    FlattenSplit(parts, i);
    FlattenSplit(parts, at);
    hide Flatten, Reached, Handed;
    var rest :| Flatten(parts) == before + during + rest;
    var rest' :| Flatten(parts) == Flatten(parts[..at]) + parts[at] + rest';
    OnlyFirstHands(before, during, rest, s);
    OnlyFirstHands(Flatten(parts[..at]), parts[at], rest', s);
    LatestOfHanded(before);
    SetDuringOfHanded(p, k, during);
    if at < i {
      PartHands(parts, at, i);
    } else if i < at {
      if Handed(before) != [] {
        HandsOn(parts, i, at);
      }
      if Handed(during) != [] {
        PartHands(parts, i, at);
      }
    } else {
      assert during == parts[at];
    }
  }

  /** The part that holds input `j`. */
  lemma {:induction false} Locate(parts: seq<seq<Input>>, j: nat) returns (i: nat, m: nat)
    requires j < |Flatten(parts)|
    ensures i < |parts| && m < |parts[i]| && parts[i][m] == Flatten(parts)[j]
    ensures Flatten(parts[..i]) + parts[i][..m] == Flatten(parts)[..j]
    ensures j == |Flatten(parts[..i])| + m
  {
    var front := Flatten(Init(parts));
    if j < |front| {
      i, m := Locate(Init(parts), j);
      assert Init(parts)[..i] == parts[..i];
      assert Flatten(parts)[..j] == front[..j];
    } else {
      i, m := |parts| - 1, j - |front|;
      assert parts[..i] == Init(parts);
    }
  }

  // ---- which chunks get a file ----

  ghost predicate HasFile(files: seq<ChunkFile>, k: int) {
    exists i :: 0 <= i < |files| && files[i].idx == k
  }

  /** After some of its inputs the run has reached chunk `k`. */
  ghost predicate Reaches(p: Params, h: seq<Input>, k: int)
    requires p.Valid()
  {
    exists n :: 0 <= n <= |h| && Reached(p, h[..n]) == k
  }

  lemma FileIsReached(p: Params, files: seq<ChunkFile>, parts: seq<seq<Input>>, i: nat)
    requires p.Valid() && FilesOk(p, files, parts) && Busy(parts) && i < |files|
    ensures Reaches(p, Flatten(parts), files[i].idx)
  {
    hide Flatten, FilesOk, Reached, Timely, Params.ChunkForTs;
    OnePartEach(p, files, parts);
    if i == 0 {
      StartIsReached(p, files, parts);
    } else {
      var h, before, during := Flatten(parts), Flatten(parts[..i]), parts[i];
      FlattenSplit(parts, i);
      TimelyAt(p, files, parts, i);
      TimelyOnce(p, files[i].idx, before, during);
      assert h[..|before| + 1] == before + during[..1];
      assert Reached(p, h[..|before| + 1]) == files[i].idx;
    }
  }

  lemma OnePartEach(p: Params, files: seq<ChunkFile>, parts: seq<seq<Input>>)
    requires p.Valid() && FilesOk(p, files, parts)
    ensures |files| == |parts|
  {
  }

  lemma TimelyOnce(p: Params, idx: int, before: seq<Input>, during: seq<Input>)
    requires p.Valid() && Timely(p, idx, before, during) && during != []
    ensures Reached(p, before + during[..1]) == idx
  {
    hide Reached;
  }

  lemma StartIsReached(p: Params, files: seq<ChunkFile>, parts: seq<seq<Input>>)
    requires p.Valid() && FilesOk(p, files, parts) && files != []
    ensures Reaches(p, Flatten(parts), files[0].idx)
  {
    FileAt(p, files, parts, 0);
    hide Flatten, FilesOk, FileOk;
    assert Flatten(parts)[..0] == [];
    assert Reached(p, Flatten(parts)[..0]) == files[0].idx;
  }

  lemma ReachedDuring(p: Params, idx: int, before: seq<Input>, during: seq<Input>, m: nat, h: seq<Input>)
    requires p.Valid() && Timely(p, idx, before, during) && m < |during|
    requires |before| + m < |h| && h[..|before| + m] == before + during[..m] && h[|before| + m] == during[m]
    ensures Reached(p, h[..|before| + m + 1]) == idx
  {
    var n := |before| + m;
    assert Reached(p, before + during[..m + 1]) == idx;
    hide Reached, Timely;
    assert h[..n + 1] == h[..n] + [h[n]];
    assert during[..m + 1] == during[..m] + [during[m]];
    Associate(before, during[..m], [during[m]]);
  }

  lemma StartHasFile(p: Params, files: seq<ChunkFile>, parts: seq<seq<Input>>)
    requires p.Valid() && FilesOk(p, files, parts) && files != []
    ensures HasFile(files, 0)
  {
    FileAt(p, files, parts, 0);
    hide FileOk, FilesOk;
    assert files[0].idx == 0;
  }

  lemma ReachedHasFile(p: Params, files: seq<ChunkFile>, parts: seq<seq<Input>>, n: nat)
    requires p.Valid() && FilesOk(p, files, parts) && 0 < n <= |Flatten(parts)|
    ensures HasFile(files, Reached(p, Flatten(parts)[..n]))
  {
    hide Flatten, FilesOk, Reached, Timely, Params.ChunkForTs;
    var h := Flatten(parts);
    var i, m := Locate(parts, n - 1);
    TimelyAt(p, files, parts, i);
    ReachedDuring(p, files[i].idx, Flatten(parts[..i]), parts[i], m, h);
    assert files[i].idx == Reached(p, h[..n]);
  }

  /** The chunks that have a file are exactly those that the run has reached at some
      point, chunk 0 among them; a chunk that was skipped has none. */
  lemma FilesAreThoseReached(p: Params, files: seq<ChunkFile>, h: seq<Input>)
    requires p.Valid() && IsChunking(p, files, h)
    ensures forall k :: HasFile(files, k) <==> Reaches(p, h, k)
    ensures HasFile(files, 0)
  {
    var parts :| Flatten(parts) == h && FilesOk(p, files, parts) && Busy(parts);
    StartHasFile(p, files, parts);
    assert h[..0] == [];
    assert Reached(p, []) == 0;
    hide FilesOk, Reached, Flatten, Busy, Params.ChunkForTs;
    forall k
      ensures HasFile(files, k) <==> Reaches(p, h, k)
    {
      if HasFile(files, k) {
        var i :| 0 <= i < |files| && files[i].idx == k;
        FileIsReached(p, files, parts, i);
      }
      if Reaches(p, h, k) {
        var n :| 0 <= n <= |h| && Reached(p, h[..n]) == k;
        if n > 0 {
          ReachedHasFile(p, files, parts, n);
        }
      }
    }
  }

  // ---- how many files are reported ----

  /** The number of chunks reported after a run: one more than the last chunk's. */
  function ChunksWritten(files: seq<ChunkFile>): int
    requires files != []
  {
    Last(files).idx + 1
  }

  lemma {:induction false} NoGapsUpTo(files: seq<ChunkFile>, i: nat)
    requires i < |files| && files[0].idx == 0
    requires forall m, n :: 0 <= m < n < |files| ==> files[m].idx < files[n].idx
    requires forall k :: 0 <= k <= Last(files).idx ==> HasFile(files, k)
    ensures files[i].idx == i
  {
    if i > 0 {
      NoGapsUpTo(files, i - 1);
      assert HasFile(files, i);
    }
  }

  lemma {:induction false} AtLeastTheirPlace(files: seq<ChunkFile>, i: nat, j: nat)
    requires i <= j < |files|
    requires forall m, n :: 0 <= m < n < |files| ==> files[m].idx < files[n].idx
    ensures files[j].idx - files[i].idx >= j - i
  {
    if i < j {
      AtLeastTheirPlace(files, i, j - 1);
    }
  }

  /** The number reported is never too small, and is the number of files exactly if the
      run has skipped no chunk. */
  lemma ReportCountsFiles(p: Params, files: seq<ChunkFile>, h: seq<Input>)
    requires p.Valid() && IsChunking(p, files, h)
    ensures ChunksWritten(files) >= |files|
    ensures ChunksWritten(files) == |files| <==> forall k :: 0 <= k < ChunksWritten(files) ==> Reaches(p, h, k)
  {
    FilesAreNumbered(p, files, h);
    FilesAreThoseReached(p, files, h);
    hide IsChunking, Reaches, Params.ChunkForTs;
    var n, z := |files| - 1, 0;
    z :| 0 <= z < |files| && files[z].idx == 0;
    assert files[0].idx == 0;
    AtLeastTheirPlace(files, 0, n);
    if forall k :: 0 <= k < ChunksWritten(files) ==> Reaches(p, h, k) {
      NoGapsUpTo(files, n);
    }
    if files[n].idx == n {
      forall k | 0 <= k <= n
        ensures HasFile(files, k)
      {
        AtLeastTheirPlace(files, 0, k);
        AtLeastTheirPlace(files, k, n);
        assert files[k].idx == k;
      }
    }
  }

  // ---- which samples are written ----

  lemma SamplesDoNotAdvance(p: Params, h: seq<Input>, j: nat)
    requires p.Valid() && j < |h| && h[j].Samples?
    ensures Reached(p, h[..j + 1]) == Reached(p, h[..j])
  {
    assert h[..j + 1] == h[..j] + [h[j]];
    InitLast(h[..j], h[j]);
  }

  lemma TimelyAt(p: Params, files: seq<ChunkFile>, parts: seq<seq<Input>>, i: nat)
    requires p.Valid() && FilesOk(p, files, parts) && i < |parts|
    ensures |files| == |parts| && Timely(p, files[i].idx, Flatten(parts[..i]), parts[i])
  {
    FileAt(p, files, parts, i);
  }

  /** The samples are set while a file is open whose chunk the run has reached. */
  lemma SetInFile(p: Params, files: seq<ChunkFile>, parts: seq<seq<Input>>, s: seq<MetricSample>, j: nat)
    returns (at: nat)
    requires p.Valid() && FilesOk(p, files, parts) && SetOnce(Flatten(parts), s, j)
    ensures at < |files| == |parts| && files[at].idx == Reached(p, Flatten(parts)[..j]) && Handed(parts[at]) != []
  {
    hide Flatten, FilesOk, Timely, Handed, Reached;
    var h, m := Flatten(parts), 0;
    at, m := Locate(parts, j);
    TimelyAt(p, files, parts, at);
    HandedHas(parts[at], m);
    ReachedDuring(p, files[at].idx, Flatten(parts[..at]), parts[at], m, h);
    SamplesDoNotAdvance(p, h, j);
  }

  lemma EverySampleInParts(p: Params, files: seq<ChunkFile>, parts: seq<seq<Input>>, s: seq<MetricSample>, j: nat)
    requires p.Valid() && FilesOk(p, files, parts) && SortedSamples(s) && SetOnce(Flatten(parts), s, j)
    ensures forall i :: 0 <= i < |files| ==>
              Collect(AsCounter(), files[i].log) ==
              if Reached(p, Flatten(parts)[..j]) <= files[i].idx then Filter(BelongsTo(p, files[i].idx), s) else []
  {
    hide FilesOk, Reached, Handed, Collect, Filter, SortedSamples, Flatten, BelongsTo, Params.ChunkForTs;
    var at := SetInFile(p, files, parts, s, j);
    forall i | 0 <= i < |files|
      ensures Collect(AsCounter(), files[i].log) ==
              if files[at].idx <= files[i].idx then Filter(BelongsTo(p, files[i].idx), s) else []
    {
      SamplesOfFile(p, files, parts, s, at, i);
    }
  }

  /** If sorted samples are set once, each file from the chunk then open on holds
      exactly the samples of its own chunk, and earlier files hold none. */
  lemma EverySampleInItsFile(p: Params, files: seq<ChunkFile>, h: seq<Input>, s: seq<MetricSample>, j: nat)
    requires p.Valid() && IsChunking(p, files, h) && SortedSamples(s) && SetOnce(h, s, j)
    ensures forall i :: 0 <= i < |files| ==>
              Collect(AsCounter(), files[i].log) ==
              if Reached(p, h[..j]) <= files[i].idx then Filter(BelongsTo(p, files[i].idx), s) else []
  {
    hide FilesOk, Reached, SetOnce, Collect, Filter, SortedSamples, Flatten, BelongsTo, Busy, Params.ChunkForTs;
    var parts :| Flatten(parts) == h && FilesOk(p, files, parts) && Busy(parts);
    EverySampleInParts(p, files, parts, s, j);
  }

  lemma CountersAt(p: Params, files: seq<ChunkFile>, parts: seq<seq<Input>>, i: nat)
    requires p.Valid() && FilesOk(p, files, parts) && i < |files|
    ensures |files| == |parts| && 0 <= files[i].idx < p.numChunks
    ensures Collect(AsCounter(), files[i].log) ==
            ChunkSamples(p, files[i].idx, LatestSamples(Flatten(parts[..i]))) + SetDuring(p, files[i].idx, parts[i])
  {
    FileAt(p, files, parts, i);
  }

  lemma SamplesOfFile(p: Params, files: seq<ChunkFile>, parts: seq<seq<Input>>, s: seq<MetricSample>, at: nat, i: nat)
    requires p.Valid() && FilesOk(p, files, parts) && SortedSamples(s) && at < |files| && i < |files|
    requires Handed(Flatten(parts)) == [s] && at < |parts| && Handed(parts[at]) != []
    ensures Collect(AsCounter(), files[i].log) ==
            if files[at].idx <= files[i].idx then Filter(BelongsTo(p, files[i].idx), s) else []
  {
    CountersAt(p, files, parts, i);
    assert ChunkSamples(p, files[i].idx, []) == [];
    hide Flatten, Handed, SortedSamples, Collect, Filter, ChunkSamples, SetDuring, LatestSamples;
    SampleInputsOfFile(p, files[i].idx, parts, s, at, i);
    WindowSamples(p, files[i].idx, s);
    if i < at {
      IndicesRise(p, files, parts, i, at);
    } else if at < i {
      IndicesRise(p, files, parts, at, i);
    }
  }

  ghost predicate IsWritten(files: seq<ChunkFile>, m: MetricSample) {
    exists i :: 0 <= i < |files| && m in Collect(AsCounter(), files[i].log)
  }

  lemma InItsFile(p: Params, k: int, s: seq<MetricSample>, m: MetricSample)
    requires p.Valid() && m in s && p.Start(0) <= m.tsUs < p.Start(p.numChunks)
    ensures m in Filter(BelongsTo(p, k), s) <==> k == p.ChunkForTs(m.tsUs)
  {
    FilterMembers(BelongsTo(p, k), s);
  }

  lemma WrittenInItsFile(p: Params, files: seq<ChunkFile>, s: seq<MetricSample>, from: int, m: MetricSample)
    requires p.Valid() && m in s && p.Start(0) <= m.tsUs < p.Start(p.numChunks)
    requires forall i :: 0 <= i < |files| ==>
               Collect(AsCounter(), files[i].log) ==
               if from <= files[i].idx then Filter(BelongsTo(p, files[i].idx), s) else []
    ensures IsWritten(files, m) <==> HasFile(files, p.ChunkForTs(m.tsUs)) && from <= p.ChunkForTs(m.tsUs)
  {
    hide Filter, Collect, BelongsTo, Params.ChunkForTs, Params.Start, IsWritten, HasFile;
    var k := p.ChunkForTs(m.tsUs);
    forall i | 0 <= i < |files|
      ensures m in Collect(AsCounter(), files[i].log) <==> files[i].idx == k && from <= k
    {
      InItsFile(p, files[i].idx, s, m);
    }
    WrittenOnlyThere(files, m, k, from);
  }

  lemma WrittenOnlyThere(files: seq<ChunkFile>, m: MetricSample, k: int, from: int)
    requires forall i :: 0 <= i < |files| ==>
               (m in Collect(AsCounter(), files[i].log) <==> files[i].idx == k && from <= k)
    ensures IsWritten(files, m) <==> HasFile(files, k) && from <= k
  {
    hide Collect;
    if HasFile(files, k) {
      var i :| 0 <= i < |files| && files[i].idx == k;
      assert m in Collect(AsCounter(), files[i].log) <==> files[i].idx == k && from <= k;
    }
  }

  /** A sample of the planned range is written exactly if the run reaches its chunk at
      some point, and the samples were set before or while that chunk was open. */
  lemma SampleIsWritten(p: Params, files: seq<ChunkFile>, h: seq<Input>, s: seq<MetricSample>, j: nat, m: MetricSample)
    requires p.Valid() && IsChunking(p, files, h) && SortedSamples(s) && SetOnce(h, s, j)
    requires m in s && p.Start(0) <= m.tsUs < p.Start(p.numChunks)
    ensures IsWritten(files, m) <==>
            Reaches(p, h, p.ChunkForTs(m.tsUs)) && Reached(p, h[..j]) <= p.ChunkForTs(m.tsUs)
  {
    hide IsChunking, Reaches, Reached, SortedSamples, IsWritten, HasFile, Params.ChunkForTs;
    EverySampleInItsFile(p, files, h, s, j);
    WrittenInItsFile(p, files, s, Reached(p, h[..j]), m);
    FilesAreThoseReached(p, files, h);
  }

  /** A run whose only call lies in the third of three chunks: the samples of the
      second one, set at the start, are in no file. */
  lemma SkippedChunkLosesSamples(files: seq<ChunkFile>, p: Params, h: seq<Input>, m: MetricSample)
    requires p == Params(10.0, 0.0, 3) && m.tsUs == 15.0
    requires h == [Samples([m]), Event(Instant(ForkMark, "", 25.0, 0, 0, NoArgs))]
    requires IsChunking(p, files, h)
    ensures !IsWritten(files, m)
  {
    assert Init(h) == h[..1] && Init(h[..1]) == [] && h[..0] == [];
    assert AsSamples()(h[0]) == Some([m]) && AsSamples()(h[1]).None?;
    assert Handed([]) == [] && Handed(h[..1]) == [[m]] && Handed(h) == [[m]];
    assert p.ChunkForTs(15.0) == 1 && p.ChunkForTs(25.0) == 2;
    assert Reached(p, h[..0]) == 0 && Reached(p, h[..1]) == 0 && Reached(p, h) == 2;
    SampleIsWritten(p, files, h, [m], 0, m);
    hide IsChunking;
  }
}
