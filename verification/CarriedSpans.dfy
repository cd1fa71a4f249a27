/** Which calls are carried into later chunks, and as what, said of the calls and the
    files alone. */
module CarriedSpans {
  import opened Seqs
  import opened Output
  import opened Chunks

  /** A complete call, or a Python span with a length. */
  predicate Lasts(c: Call) {
    c.Complete? || (c.Viz? && c.ph == 'X' && c.durUs > 0.0)
  }

  /** The call lasts, on thread `t`, beyond time `at`. */
  function LastsBeyond(t: int, at: real): Call -> bool {
    (c: Call) => Lasts(c) && c.tid == t && c.tsUs + c.durUs > at
  }

  function ChunkStart(p: Params, k: int): real {
    p.minUs + k as real * p.durUs
  }

  /** The entry is a copy of what of the call lies in chunk `k`, which it enters from
      before; the last chunk has no end. */
  predicate IsCopyOf(p: Params, k: int, e: Entry, c: Call)
    requires Lasts(c)
  {
    var end := c.tsUs + c.durUs;
    && e.Context? && e.call.Complete?
    && c.tsUs < ChunkStart(p, k) == e.call.tsUs
    && e.call.durUs > 0.0
    && e.call.tsUs + e.call.durUs ==
       (if k < p.numChunks - 1 && end > ChunkStart(p, k + 1) then ChunkStart(p, k + 1) else end)
    && e.call.name == c.name && e.call.pid == c.pid && e.call.tid == c.tid
    && e.call.cat == if c.Viz? && c.cat == "" then "python" else c.cat
  }

  /** Copies and calls go together one by one, in order. */
  ghost predicate CopiesOf(p: Params, k: int, copies: seq<Entry>, calls: seq<Call>) {
    && |copies| == |calls|
    && forall m :: 0 <= m < |copies| ==> Lasts(calls[m]) && IsCopyOf(p, k, copies[m], calls[m])
  }

  /** File `i` has a copy of each call of the files before it that lasts into its chunk,
      in the order in which each thread's calls were written; and no other copies. */
  ghost predicate CarriesOver(p: Params, files: seq<ChunkFile>, i: nat)
    requires i < |files|
  {
    var k, log := files[i].idx, files[i].log;
    forall t ::
      CopiesOf(p, k, Filter(ContextOn(t), log),
               if k == 0 then [] else Filter(LastsBeyond(t, ChunkStart(p, k)), AllLive(files[..i])))
  }

  /** The span is the one that the call writes. */
  predicate Spans(s: OpenSpan, c: Call) {
    && Lasts(c) && s.name == c.name && s.tsUs == c.tsUs && s.durUs == c.durUs && s.pid == c.pid && s.tid == c.tid
    && s.cat == if c.Viz? && c.cat == "" then "python" else c.cat
  }

  ghost predicate SpansOfCalls(spans: seq<OpenSpan>, calls: seq<Call>) {
    |spans| == |calls| && forall m :: 0 <= m < |spans| ==> Spans(spans[m], calls[m])
  }

  lemma SpanOfCall(c: Call)
    ensures SpanOf(c).Some? <==> Lasts(c)
    ensures SpanOf(c).Some? ==> Spans(SpanOf(c).value, c)
    ensures Lasts(Normal(c)) <==> Lasts(c)
    ensures Lasts(c) ==> Normal(c) == c
  {
  }

  lemma SpansOfCallsSnoc(spans: seq<OpenSpan>, calls: seq<Call>, s: OpenSpan, c: Call)
    requires SpansOfCalls(spans, calls) && Spans(s, c)
    ensures SpansOfCalls(spans + [s], calls + [c])
  {
  }

  /** The spans remembered that end later than `at` are those of the calls that last
      beyond it. */
  lemma {:induction false} RememberedCalls(h: seq<Input>, t: int, at: real)
    ensures SpansOfCalls(Filter(EndsAfter(at), SpansOn(h, t)), Filter(LastsBeyond(t, at), Plain(h)))
  {
    if h == [] {
    } else {
      var front, x := Init(h), Last(h);
      RememberedCalls(front, t, at);
      Nil(SpansOn(front, t));
      Nil(Plain(front));
      if x.Event? {
        var c := Normal(x.call);
        SpanOfCall(x.call);
        FilterSnoc(LastsBeyond(t, at), Plain(front), c);
        if SpanOf(x.call).Some? {
          var s := SpanOf(x.call).value;
          FilterSnoc(EndsAfter(at), SpansOn(front, t), s);
          assert s.tid == t ==> (EndsAfter(at)(s) <==> LastsBeyond(t, at)(c));
          hide Filter, SpansOfCalls, SpanOf, Normal, Lasts, Spans, Plain, SpansOn;
          if s.tid == t && EndsAfter(at)(s) {
            SpansOfCallsSnoc(Filter(EndsAfter(at), SpansOn(front, t)), Filter(LastsBeyond(t, at), Plain(front)), s, c);
          }
        }
      }
    }
  }

  lemma CopyOfSpan(p: Params, k: int, s: OpenSpan, c: Call)
    requires p.Valid() && Spans(s, c) && s.tsUs < p.Start(k) < s.End()
    ensures Lasts(c) && IsCopyOf(p, k, AsContext(p, k)(s), c)
  {
    StartMonotone(p, k, k + 1);
  }

  lemma SpanIsDue(p: Params, k: int, h: seq<Input>, t: int, s: OpenSpan)
    requires p.Valid() && Reached(p, h) < k < p.numChunks && s in Filter(EndsAfter(p.Start(k)), SpansOn(h, t))
    ensures s.tsUs < p.Start(k) < s.End()
  {
    SpansStartedEarlier(p, h, k, t);
    FilterMembers(EndsAfter(p.Start(k)), SpansOn(h, t));
  }

  lemma DueAreCopies(p: Params, k: int, h: seq<Input>, t: int)
    requires p.Valid() && 0 < k < p.numChunks && Reached(p, h) < k
    ensures CopiesOf(p, k, ContextDue(p, k, h, t), Filter(LastsBeyond(t, ChunkStart(p, k)), Plain(h)))
  {
    var at := ChunkStart(p, k);
    var spans, calls := Filter(EndsAfter(p.Start(k)), SpansOn(h, t)), Filter(LastsBeyond(t, at), Plain(h));
    RememberedCalls(h, t, at);
    hide Filter, Reached, SpansOn, Plain, Params.ChunkForTs, Spans, IsCopyOf, LastsBeyond, EndsAfter;
    forall m | 0 <= m < |spans|
      ensures Lasts(calls[m]) && IsCopyOf(p, k, AsContext(p, k)(spans[m]), calls[m])
    {
      SpanIsDue(p, k, h, t, spans[m]);
      CopyOfSpan(p, k, spans[m], calls[m]);
    }
  }

  lemma {:induction false} LiveBefore(p: Params, files: seq<ChunkFile>, parts: seq<seq<Input>>, i: nat)
    requires p.Valid() && FilesOk(p, files, parts) && i <= |files|
    ensures |files| == |parts| && AllLive(files[..i]) == Plain(Flatten(parts[..i]))
  {
    if i == |files| {
      assert files[..i] == files && parts[..i] == parts;
      PartsPartition(p, files, parts);
    } else {
      LiveBefore(p, Init(files), Init(parts), i);
      assert Init(files)[..i] == files[..i] && Init(parts)[..i] == parts[..i];
    }
  }

  lemma CopiesAt(p: Params, files: seq<ChunkFile>, parts: seq<seq<Input>>, i: nat)
    requires p.Valid() && FilesOk(p, files, parts) && i < |files|
    ensures |files| == |parts| && 0 <= files[i].idx < p.numChunks
    ensures CopiesDue(p, files[i].idx, files[i].log, Flatten(parts[..i]))
    ensures files[i].idx > 0 ==> Reached(p, Flatten(parts[..i])) < files[i].idx
  {
    FileAt(p, files, parts, i);
  }

  lemma FileCarriesOver(p: Params, files: seq<ChunkFile>, parts: seq<seq<Input>>, i: nat)
    requires p.Valid() && FilesOk(p, files, parts) && i < |files|
    ensures CarriesOver(p, files, i)
  {
    hide FilesOk, Reached, Flatten, AllLive, Plain, Filter, CopiesDue, Params.ChunkForTs;
    CopiesAt(p, files, parts, i);
    LiveBefore(p, files, parts, i);
    hide CopiesOf, LastsBeyond;
    var k, log := files[i].idx, files[i].log;
    forall t
      ensures CopiesOf(p, k, Filter(ContextOn(t), log),
                       if k == 0 then [] else Filter(LastsBeyond(t, ChunkStart(p, k)), AllLive(files[..i])))
    {
      CopiesOn(p, k, log, Flatten(parts[..i]), t);
    }
  }

  lemma CopiesOn(p: Params, k: int, log: seq<Entry>, before: seq<Input>, t: int)
    requires p.Valid() && 0 <= k < p.numChunks && CopiesDue(p, k, log, before)
    requires k > 0 ==> Reached(p, before) < k
    ensures CopiesOf(p, k, Filter(ContextOn(t), log),
                     if k == 0 then [] else Filter(LastsBeyond(t, ChunkStart(p, k)), Plain(before)))
  {
    assert Filter(ContextOn(t), log) == if k == 0 then [] else ContextDue(p, k, before, t);
    hide Filter, Reached, Plain, ContextDue, CopiesOf, CopiesDue, Params.ChunkForTs;
    if k == 0 {
      NoCopies(p, k);
    } else {
      DueAreCopies(p, k, before, t);
    }
  }

  lemma NoCopies(p: Params, k: int)
    ensures CopiesOf(p, k, [], [])
  {
  }

  /** In every chunking each file carries over exactly what lasts into its chunk. */
  lemma ChunksCarryOver(p: Params, files: seq<ChunkFile>, h: seq<Input>)
    requires p.Valid() && IsChunking(p, files, h)
    ensures forall i :: 0 <= i < |files| ==> CarriesOver(p, files, i)
  {
    var parts :| Flatten(parts) == h && FilesOk(p, files, parts) && Busy(parts);
    hide FilesOk, Flatten, Busy, CarriesOver;
    forall i | 0 <= i < |files|
      ensures CarriesOver(p, files, i)
    {
      FileCarriesOver(p, files, parts, i);
    }
  }

  // ---- the calls themselves ----

  /** What a call is written as: a Python naming event as the naming call it stands for,
      anything else as it is. */
  function AsWritten(): Input -> Option<Call> {
    (x: Input) =>
      if x.Samples? then None
      else if x.call.Viz? && x.call.ph == 'M' then Some(Metadata(x.call.name, x.call.pid, x.call.tid, x.call.args))
      else Some(x.call)
  }

  lemma {:induction false} PlainMeans(h: seq<Input>)
    ensures Plain(h) == Collect(AsWritten(), h)
  {
    if h != [] {
      PlainMeans(Init(h));
    }
  }

  /** In every chunking the files in order hold each call once, in order. */
  lemma CallsAreWritten(p: Params, files: seq<ChunkFile>, h: seq<Input>)
    requires p.Valid() && IsChunking(p, files, h)
    ensures AllLive(files) == Collect(AsWritten(), h)
  {
    hide IsChunking, Plain, Collect;
    ChunkingIsFaithful(p, files, h);
    PlainMeans(h);
  }

  // ---- the chunk a run has reached ----

  /** The call names a process or thread, and has no time. */
  predicate NamesSomething(c: Call) {
    c.Metadata? || (c.Viz? && c.ph == 'M')
  }

  /** The chunk reached is the latest one that the time of any call belongs to, or chunk
      0 before the first such call. */
  lemma {:induction false} ReachedMeans(p: Params, h: seq<Input>)
    requires p.Valid()
    ensures forall i :: 0 <= i < |h| && h[i].Event? && !NamesSomething(h[i].call) ==>
              p.ChunkForTs(h[i].call.tsUs) <= Reached(p, h)
    ensures Reached(p, h) == 0 ||
            exists i :: 0 <= i < |h| && h[i].Event? && !NamesSomething(h[i].call) &&
                        p.ChunkForTs(h[i].call.tsUs) == Reached(p, h)
    ensures Reached(p, h) >= 0
  {
    if h != [] {
      var front, x := Init(h), Last(h);
      ReachedMeans(p, front);
      assert h[|h| - 1] == x && forall i :: 0 <= i < |front| ==> h[i] == front[i];
      hide Params.ChunkForTs;
      if Reached(p, h) != 0 && Reached(p, h) == Reached(p, front) {
        var i :| 0 <= i < |front| && front[i].Event? && !NamesSomething(front[i].call) &&
                 p.ChunkForTs(front[i].call.tsUs) == Reached(p, front);
        assert h[i] == front[i];
      }
    }
  }
}
