/** The Perfetto writer: it interns strings, defers the descriptors of process and
    thread groups until their names are known, and yields a file from which a reader
    recovers every event, on tracks that form one described hierarchy. */
module PerfettoWriter {
  import opened Seqs
  import opened Events
  import opened Output
  import opened Chunks
  import opened TracePackets

  /** What a track's display string is made from. */
  datatype Title =
    | ProcessFallback(pid: int)
    | ThreadFallback(tid: int)
    | Given(args: Args, id: int)
    | StacksTitle(tid: int)
    | SchedTitle(tid: int)
    | GilTitle(tid: int)
    | GpuTitle(tid: int)
    | CounterTitle(index: int)

  /** The formatting of strings and the bits of a double: any fixed functions. */
  datatype Rendering = Rendering(text: Label -> string, title: Title -> string, bits: real -> u64)

  function Ns(tsUs: real): u64 {
    ToU64((tsUs * 1000.0).Floor)
  }

  /** Nanoseconds survive the way through microseconds; other times are rounded down. */
  lemma NsMeans(n: u64, tsUs: real)
    ensures Ns(Us(n)) == n
    ensures 0.0 <= tsUs * 1000.0 < 18446744073709551616.0 ==>
              Ns(tsUs) as real <= tsUs * 1000.0 < Ns(tsUs) as real + 1.0
  {
    assert Us(n) * 1000.0 == n as real;
    assert (n as real).Floor == n;
  }

  // ---- what a reader is to recover ----

  /** The call that a Python event is passed on as. */
  function Dispatched(c: Call): Call {
    if !c.Viz? then c
    else if c.ph == 'X' then Complete(c.name, c.cat, c.tsUs, c.durUs, c.pid, c.tid, c.args)
    else if c.ph == 'B' then Begin(c.name, c.cat, c.tsUs, c.pid, c.tid)
    else if c.ph == 'E' then End(c.name, c.cat, c.tsUs, c.pid, c.tid)
    else if c.ph == 'M' then Metadata(c.name, c.pid, c.tid, c.args)
    else Instant(c.name, c.cat, c.tsUs, c.pid, c.tid, c.args)
  }

  function EventsOf(r: Rendering, c: Call): seq<Seen> {
    match Dispatched(c)
    case Complete(name, cat, ts, dur, _, tid, _) =>
      [Begun(Uuid(TrackOf(tid)), Ns(ts), r.text(name), cat), Ended(Uuid(TrackOf(tid)), Ns(ts + dur))]
    case Begin(name, cat, ts, _, tid) => [Begun(Uuid(TrackOf(tid)), Ns(ts), r.text(name), cat)]
    case End(_, _, ts, _, tid) => [Ended(Uuid(TrackOf(tid)), Ns(ts))]
    case Instant(name, cat, ts, _, tid, _) => [Marked(Uuid(TrackOf(tid)), Ns(ts), r.text(name), cat)]
    case _ => []
  }

  /** What each kind of call is to a reader, of tracks and times given as numbers. */
  lemma CallsMean(r: Rendering, c: Call, n: u64)
    requires !c.Metadata? && c.tsUs == Us(n)
    ensures var track := Uuid(TrackOf(c.tid));
            && (c.Begin? ==> EventsOf(r, c) == [Begun(track, n, r.text(c.name), c.cat)])
            && (c.End? ==> EventsOf(r, c) == [Ended(track, n)])
            && (c.Instant? ==> EventsOf(r, c) == [Marked(track, n, r.text(c.name), c.cat)])
            && (c.Complete? ==>
                  forall m: u64 :: c.tsUs + c.durUs == Us(m) ==>
                    EventsOf(r, c) == [Begun(track, n, r.text(c.name), c.cat), Ended(track, m)])
            && (c.Viz? && c.ph == 'X' ==>
                  forall m: u64 :: c.tsUs + c.durUs == Us(m) ==>
                    EventsOf(r, c) == [Begun(track, n, r.text(c.name), c.cat), Ended(track, m)])
            && (c.Viz? && c.ph == 'B' ==> EventsOf(r, c) == [Begun(track, n, r.text(c.name), c.cat)])
            && (c.Viz? && c.ph == 'E' ==> EventsOf(r, c) == [Ended(track, n)])
            && (c.Viz? && c.ph == 'M' ==> EventsOf(r, c) == [])
            && (c.Viz? && c.ph != 'X' && c.ph != 'B' && c.ph != 'E' && c.ph != 'M' ==>
                  EventsOf(r, c) == [Marked(track, n, r.text(c.name), c.cat)])
  {
    NsMeans(n, 0.0);
    forall m: u64
      ensures Ns(Us(m)) == m
    {
      NsMeans(m, 0.0);
    }
    hide Ns, Us, Uuid, TrackOf;
  }

  function SampleEvents(r: Rendering, s: MetricSample): seq<Seen> {
    [Counted(s.name, Ns(s.tsUs), r.bits(s.value))]
  }

  lemma SamplesMean(r: Rendering, s: MetricSample, n: u64)
    requires s.tsUs == Us(n)
    ensures SampleEvents(r, s) == [Counted(s.name, n, r.bits(s.value))]
  {
    NsMeans(n, 0.0);
  }

  function EntryEvents(r: Rendering, e: Entry): seq<Seen> {
    if e.Counter? then SampleEvents(r, e.sample) else EventsOf(r, e.call)
  }

  /** The events of a log: names, categories, tracks and times as they were written. */
  function Recovered(r: Rendering, log: seq<Entry>): seq<Seen> {
    if log == [] then []
    else Recovered(r, Init(log)) + EntryEvents(r, Last(log))
  }

  function CallCount(c: Call): int {
    if Dispatched(c).Metadata? then 0 else 1
  }

  function EntryCount(e: Entry): int {
    if e.Counter? then 1 else CallCount(e.call)
  }

  /** How many events a log holds; a complete span counts once. */
  function EventCount(log: seq<Entry>): int {
    if log == [] then 0
    else EventCount(Init(log)) + EntryCount(Last(log))
  }

  /** The display names given so far, by group; a later one replaces an earlier one. */
  function Renamed(r: Rendering, names: map<nat, string>, c: Call): map<nat, string>
    requires c.Metadata?
  {
    if r.text(c.name) == "process_name" then names[Uuid(Process(c.pid)) := r.title(Given(c.args, c.pid))]
    else if r.text(c.name) == "thread_name" && c.tid < GIL_TID_OFFSET then
      names[Uuid(ThreadGroup(c.tid)) := r.title(Given(c.args, c.tid))]
    else names
  }

  function NamesAfter(r: Rendering, names: map<nat, string>, c: Call): map<nat, string> {
    if Dispatched(c).Metadata? then Renamed(r, names, Dispatched(c)) else names
  }

  function EntryNames(r: Rendering, names: map<nat, string>, e: Entry): map<nat, string> {
    if e.Counter? then names else NamesAfter(r, names, e.call)
  }

  function NamesGiven(r: Rendering, log: seq<Entry>): map<nat, string> {
    if log == [] then map[]
    else EntryNames(r, NamesGiven(r, Init(log)), Last(log))
  }

  /** The thread whose tracks an event's tid stands for. */
  function ThreadOf(tid: int): int {
    TrackOf(tid).tid
  }

  /** A thread belongs to the process of the first call that needs its group. */
  function Claimed(owners: map<nat, nat>, pid: int, tid: int): map<nat, nat> {
    var u := Uuid(ThreadGroup(tid));
    if u in owners then owners else owners[u := Uuid(Process(pid))]
  }

  function ClaimedBy(r: Rendering, owners: map<nat, nat>, c: Call): map<nat, nat> {
    var d := Dispatched(c);
    if !d.Metadata? then Claimed(owners, d.pid, ThreadOf(d.tid))
    else if r.text(d.name) != "process_name" && r.text(d.name) == "thread_name" && d.tid < GIL_TID_OFFSET then
      Claimed(owners, d.pid, d.tid)
    else owners
  }

  function EntryOwners(r: Rendering, owners: map<nat, nat>, e: Entry): map<nat, nat> {
    if e.Counter? then owners else ClaimedBy(r, owners, e.call)
  }

  function OwnersIn(r: Rendering, log: seq<Entry>): map<nat, nat> {
    if log == [] then map[] else EntryOwners(r, OwnersIn(r, Init(log)), Last(log))
  }

  /** The titles a thread's group may need: its own, and its process's. */
  function GroupTitles(r: Rendering, pid: int, tid: int): set<string> {
    {r.title(ProcessFallback(pid)), r.title(ThreadFallback(tid))}
  }

  function TrackTitles(r: Rendering, pid: int, tid: int): set<string> {
    {r.title(TitleOf(TrackOf(tid)))} + GroupTitles(r, pid, ThreadOf(tid))
  }

  function NamingTitles(r: Rendering, c: Call): set<string>
    requires c.Metadata?
  {
    if r.text(c.name) == "process_name" then {r.title(ProcessFallback(c.pid)), r.title(Given(c.args, c.pid))}
    else if r.text(c.name) != "thread_name" then {}
    else if c.tid >= GIL_TID_OFFSET then {r.title(ProcessFallback(c.pid))}
    else GroupTitles(r, c.pid, c.tid) + {r.title(Given(c.args, c.tid))}
  }

  /** The strings that a call brings up: what it spells, and the titles of its tracks. */
  function WordsOf(r: Rendering, c: Call): set<string> {
    var d := Dispatched(c);
    if d.Metadata? then NamingTitles(r, d) else {r.text(d.name), d.cat} + TrackTitles(r, d.pid, d.tid)
  }

  function SampleWords(r: Rendering, metric: string, pid: int): set<string> {
    {metric, r.title(ProcessFallback(pid))}
  }

  /** A sample belongs to process 0. */
  function EntryWords(r: Rendering, e: Entry): set<string> {
    if e.Counter? then SampleWords(r, e.sample.name, 0) else WordsOf(r, e.call)
  }

  function WordsIn(r: Rendering, log: seq<Entry>): set<string> {
    if log == [] then {} else WordsIn(r, Init(log)) + EntryWords(r, Last(log))
  }

  lemma {:induction false} FewWords(r: Rendering, log: seq<Entry>)
    ensures |WordsIn(r, log)| <= 5 * |log|
  {
    if log != [] {
      FewWords(r, Init(log));
      var before, more := WordsIn(r, Init(log)), EntryWords(r, Last(log));
      AtMostFive(r, Last(log));
      hide EntryWords;
      assert |before + more| == |before| + |more - before|;
      FewerIn(more - before, more);
    }
  }

  lemma AtMostFive(r: Rendering, e: Entry)
    ensures |EntryWords(r, e)| <= 5
  {
    if !e.Counter? {
      var d := Dispatched(e.call);
      assert d.Metadata? || WordsOf(r, e.call) == {r.text(d.name), d.cat, r.title(TitleOf(TrackOf(d.tid))),
                            r.title(ProcessFallback(d.pid)), r.title(ThreadFallback(ThreadOf(d.tid)))};
    }
  }

  function MetricNames(log: seq<Entry>): set<string> {
    set e | e in log && e.Counter? :: e.sample.name
  }

  /** The ids in an entry lie in the ranges that the uuids are laid out for. */
  predicate IdsBounded(e: Entry) {
    !e.Counter? ==> IdBounds(e.call.pid, e.call.tid)
  }

  predicate IdBounds(pid: int, tid: int) {
    Bounded(Process(pid)) && Bounded(TrackOf(tid))
  }

  function TitleOf(t: Track): Title {
    match t
    case Process(pid) => ProcessFallback(pid)
    case ThreadGroup(tid) => ThreadFallback(tid)
    case Sched(tid) => SchedTitle(tid)
    case Gil(tid) => GilTitle(tid)
    case Gpu(tid) => GpuTitle(tid)
    case Stacks(tid) => StacksTitle(tid)
    case CounterTrack(index) => CounterTitle(index)
  }

  /** Lower ranks are shown first: scheduling, then the GIL, the GPU and the stacks. */
  function RankOf(t: Track): int {
    match t
    case Sched(_) => -100
    case Gil(_) => -50
    case Gpu(_) => -25
    case _ => 0
  }

  predicate IsGroup(u: nat) {
    OfUuid(u).Process? || OfUuid(u).ThreadGroup?
  }

  /** A group's name is the last one given to it, or a placeholder; other tracks have
      fixed names. */
  function DisplayName(r: Rendering, names: map<nat, string>, u: nat): string {
    if IsGroup(u) && u in names then names[u] else r.title(TitleOf(OfUuid(u)))
  }

  /** A thread group hangs from the process that first claimed the thread. */
  predicate HangsFrom(u: nat, parent: nat, owners: map<nat, nat>) {
    OfUuid(u).ThreadGroup? ==> u in owners && parent == owners[u]
  }

  ghost predicate ShownAs(r: Rendering, names: map<nat, string>, owners: map<nat, nat>, p: Packet)
    requires p.Descriptor?
  {
    HangsFrom(p.uuid, p.parent, owners) &&
    p.name == DisplayName(r, names, p.uuid) && p.rank == RankOf(OfUuid(p.uuid)) && p.explicit == IsGroup(p.uuid)
  }

  /** Every track is shown under its name, at its rank, each group with its process. */
  ghost predicate Presented(r: Rendering, packets: seq<Packet>, names: map<nat, string>, owners: map<nat, nat>) {
    forall p | p in packets && p.Descriptor? :: ShownAs(r, names, owners, p)
  }

  // ---- interning ----

  /** Each string's id leads the reader back to it; ids still to come are unused. */
  ghost predicate Matches(iids: map<string, nat>, next: nat, table: map<nat, string>) {
    && (forall s :: s in iids ==> iids[s] in table && table[iids[s]] == s)
    && (forall i :: i in table ==> i < next)
  }

  lemma InternedApart(iids: map<string, nat>, next: nat, table: map<nat, string>, s: string, t: string)
    requires Matches(iids, next, table) && s in iids && t in iids
    ensures iids[s] == iids[t] <==> s == t
  {
  }

  function Intern(iids: map<string, nat>, next: nat, s: string): (r: (map<string, nat>, nat, Option<(nat, string)>))
    ensures s in r.0
  {
    if s in iids then (iids, next, None) else (iids[s := next], next + 1, Some((next, s)))
  }

  lemma InternMatches(iids: map<string, nat>, next: nat, table: map<nat, string>, s: string)
    requires Matches(iids, next, table)
    ensures var (iids', next', entry) := Intern(iids, next, s);
            Matches(iids', next', Learn(table, entry))
  {
  }

  /** The writer's interning state. */
  datatype Strings = Strings(nameIids: map<string, nat>, nextName: nat, catIids: map<string, nat>, nextCat: nat,
                             counters: map<string, nat>, nextCounter: nat, cleared: bool, words: set<string>)

  function TablesOf(rd: Reader): Tables {
    if rd.tables.None? then Tables(map[], map[]) else rd.tables.value
  }

  /** A reader of the packets so far understands all that the writer has interned. */
  ghost predicate Readable(packets: seq<Packet>, w: Strings) {
    && ClearsOnce(packets) && Started(packets) == w.cleared
    && Read(packets).Some?
    && var rd := Read(packets).value;
    && rd.tables.Some? == w.cleared
    && Matches(w.nameIids, w.nextName, TablesOf(rd).names)
    && Matches(w.catIids, w.nextCat, TablesOf(rd).cats)
    && Matches(w.counters, w.nextCounter, rd.metrics)
  }

  ghost function SeenIn(packets: seq<Packet>): seq<Seen> {
    if Read(packets).Some? then Read(packets).value.seen else []
  }

  datatype Kind = SliceBegin | SliceEnd | Mark

  function BodyOf(kind: Kind, name: nat, cat: nat): Body {
    match kind
    case SliceBegin => BeginOf(name, cat)
    case SliceEnd => EndOf
    case Mark => InstantOf(name, cat)
  }

  function SeenAs(kind: Kind, track: nat, ns: u64, name: string, cat: string): Seen {
    match kind
    case SliceBegin => Begun(track, ns, name, cat)
    case SliceEnd => Ended(track, ns)
    case Mark => Marked(track, ns, name, cat)
  }

  /** The next event reads back as written, whether or not its strings are new. */
  lemma EventReads(packets: seq<Packet>, w: Strings, kind: Kind, track: nat, ns: u64, name: string, cat: string)
    requires Readable(packets, w)
    ensures var (names, nextName, newName) := Intern(w.nameIids, w.nextName, name);
            var (cats, nextCat, newCat) := Intern(w.catIids, w.nextCat, cat);
            var p := TrackEvent(!w.cleared, ns, track, BodyOf(kind, names[name], cats[cat]), newName, newCat);
            && Readable(packets + [p], w.(nameIids := names, nextName := nextName, catIids := cats, nextCat := nextCat,
                                          cleared := true))
            && SeenIn(packets + [p]) == SeenIn(packets) + [SeenAs(kind, track, ns, name, cat)]
  {
    var rd := Read(packets).value;
    var (names, nextName, newName) := Intern(w.nameIids, w.nextName, name);
    var (cats, nextCat, newCat) := Intern(w.catIids, w.nextCat, cat);
    InternMatches(w.nameIids, w.nextName, TablesOf(rd).names, name);
    InternMatches(w.catIids, w.nextCat, TablesOf(rd).cats, cat);
    PacketSnoc(packets, TrackEvent(!w.cleared, ns, track, BodyOf(kind, names[name], cats[cat]), newName, newCat));
    hide Read, ClearsOnce, Started, Described, Needed, Tidy, Follows, Learn, Intern;
  }

  /** A sample on a counter track already described. */
  lemma ValueReads(packets: seq<Packet>, w: Strings, metric: string, ns: u64, bits: u64)
    requires Readable(packets, w) && metric in w.counters
    ensures var p := TrackEvent(!w.cleared, ns, w.counters[metric], ValueOf(bits), None, None);
            && Readable(packets + [p], w.(cleared := true))
            && SeenIn(packets + [p]) == SeenIn(packets) + [Counted(metric, ns, bits)]
  {
    PacketSnoc(packets, TrackEvent(!w.cleared, ns, w.counters[metric], ValueOf(bits), None, None));
    hide Read, ClearsOnce, Started, Described, Needed, Tidy, Follows;
  }

  lemma CounterReads(packets: seq<Packet>, w: Strings, metric: string, parent: nat)
    requires Readable(packets, w) && metric !in w.counters
    ensures var p := CounterDescriptor(w.nextCounter, parent, metric);
            && Readable(packets + [p], w.(counters := w.counters[metric := w.nextCounter],
                                          nextCounter := w.nextCounter + 1))
            && SeenIn(packets + [p]) == SeenIn(packets)
  {
    PacketSnoc(packets, CounterDescriptor(w.nextCounter, parent, metric));
    InternMatches(w.counters, w.nextCounter, Read(packets).value.metrics, metric);
    hide Read, ClearsOnce, Started, Described, Needed, Tidy, Follows, Matches;
  }

  lemma DescriptorReads(packets: seq<Packet>, w: Strings, p: Packet)
    requires Readable(packets, w) && p.Descriptor?
    ensures Readable(packets + [p], w) && SeenIn(packets + [p]) == SeenIn(packets)
  {
    PacketSnoc(packets, p);
    hide Read, ClearsOnce, Started, Described, Needed, Tidy, Follows, Matches;
  }

  // ---- where strings and numbers come from ----

  /** A number that fits 64 bits. */
  predicate InU64(n: nat) {
    n < 0x1_0000_0000_0000_0000
  }

  predicate EntryWithin(entry: Option<(nat, string)>, words: set<string>) {
    entry.Some? ==> entry.value.0 <= |words| && entry.value.1 in words
  }

  predicate BodyWithin(body: Body, words: set<string>) {
    match body
    case BeginOf(n, c) => n <= |words| && c <= |words|
    case InstantOf(n, c) => n <= |words| && c <= |words|
    case _ => true
  }

  /** The packet's strings are among the words brought up so far, and its interned ids
      and counter tracks are no more than there are words. */
  predicate SpelledIn(p: Packet, words: set<string>) {
    match p
    case Descriptor(uuid, parent, name, rank, _) =>
      InU64(uuid) && InU64(parent) && name in words && -100 <= rank <= 0
    case CounterDescriptor(uuid, parent, name) =>
      uuid <= COUNTER_UUID_BASE + |words| && InU64(parent) && name in words
    case TrackEvent(_, _, track, body, newName, newCat) =>
      && (InU64(track) || track <= COUNTER_UUID_BASE + |words|)
      && BodyWithin(body, words) && EntryWithin(newName, words) && EntryWithin(newCat, words)
  }

  ghost predicate Spelled(packets: seq<Packet>, w: Strings) {
    && w.nameIids.Keys <= w.words && w.catIids.Keys <= w.words && w.counters.Keys <= w.words
    && w.nextName == |w.nameIids| + 1 && w.nextCat == |w.catIids| + 1
    && w.nextCounter == COUNTER_UUID_BASE + |w.counters|
    && (forall m :: m in w.counters ==> COUNTER_UUID_BASE <= w.counters[m])
    && forall p :: p in packets ==> SpelledIn(p, w.words)
  }

  /** What the writer keeps between calls, whatever the ids. */
  ghost predicate Sound(packets: seq<Packet>, w: Strings) {
    Readable(packets, w) && Spelled(packets, w)
  }

  lemma FewerIn<T>(a: set<T>, b: set<T>)
    requires a <= b
    ensures |a| <= |b|
  {
    assert b == a + (b - a);
    assert |b| == |a| + |b - a|;
  }

  lemma MoreWords(p: Packet, a: set<string>, b: set<string>)
    requires SpelledIn(p, a) && a <= b
    ensures SpelledIn(p, b)
  {
    FewerIn(a, b);
  }

  lemma SpelledSnoc(packets: seq<Packet>, w: Strings, w': Strings, p: Packet)
    requires Spelled(packets, w) && w.words <= w'.words && SpelledIn(p, w'.words)
    requires w'.nameIids.Keys <= w'.words && w'.catIids.Keys <= w'.words && w'.counters.Keys <= w'.words
    requires w'.nextName == |w'.nameIids| + 1 && w'.nextCat == |w'.catIids| + 1
    requires w'.nextCounter == COUNTER_UUID_BASE + |w'.counters|
    requires forall m :: m in w'.counters ==> COUNTER_UUID_BASE <= w'.counters[m]
    ensures Spelled(packets + [p], w')
  {
    hide SpelledIn;
    forall q | q in packets + [p]
      ensures SpelledIn(q, w'.words)
    {
      if q in packets {
        MoreWords(q, w.words, w'.words);
      }
    }
  }

  /** A new id is one more than there are strings, an old one no more. */
  lemma InternCounts(iids: map<string, nat>, next: nat, table: map<nat, string>, s: string, words: set<string>)
    requires Matches(iids, next, table) && next == |iids| + 1 && iids.Keys <= words && s in words
    ensures var (iids', next', entry) := Intern(iids, next, s);
            && next' == |iids'| + 1 && iids'.Keys <= words
            && iids'[s] <= |words| && EntryWithin(entry, words)
  {
    var (iids', next', entry) := Intern(iids, next, s);
    FewerIn(iids'.Keys, words);
    assert |iids'| == |iids'.Keys|;
  }

  lemma EventSound(packets: seq<Packet>, w: Strings, kind: Kind, track: nat, ns: u64,
                   name: string, cat: string)
    requires Sound(packets, w) && InU64(track)
    ensures var (names, nextName, newName) := Intern(w.nameIids, w.nextName, name);
            var (cats, nextCat, newCat) := Intern(w.catIids, w.nextCat, cat);
            var p := TrackEvent(!w.cleared, ns, track, BodyOf(kind, names[name], cats[cat]), newName, newCat);
            && Sound(packets + [p], Strings(names, nextName, cats, nextCat, w.counters, w.nextCounter, true,
                                               w.words + {name, cat}))
            && SeenIn(packets + [p]) == SeenIn(packets) + [SeenAs(kind, track, ns, name, cat)]
  {
    var words := w.words + {name, cat};
    var rd := Read(packets).value;
    InternCounts(w.nameIids, w.nextName, TablesOf(rd).names, name, words);
    InternCounts(w.catIids, w.nextCat, TablesOf(rd).cats, cat, words);
    var (names, nextName, newName) := Intern(w.nameIids, w.nextName, name);
    var (cats, nextCat, newCat) := Intern(w.catIids, w.nextCat, cat);
    var p := TrackEvent(!w.cleared, ns, track, BodyOf(kind, names[name], cats[cat]), newName, newCat);
    EventReads(packets, w, kind, track, ns, name, cat);
    var w' := w.(nameIids := names, nextName := nextName, catIids := cats, nextCat := nextCat, cleared := true,
                 words := words);
    assert SpelledIn(p, words);
    hide Readable, Matches, SpelledIn, Intern, Read, EntryWithin;
    SpelledSnoc(packets, w, w', p);
    OtherWords(packets + [p], w', w.words);
  }

  /** Which words have been written does not matter to a reader. */
  lemma OtherWords(packets: seq<Packet>, w: Strings, words: set<string>)
    ensures Readable(packets, w) <==> Readable(packets, w.(words := words))
  {
    hide Matches, Read;
  }

  lemma ValueSound(packets: seq<Packet>, w: Strings, metric: string, ns: u64, bits: u64)
    requires Sound(packets, w) && metric in w.counters
    ensures var p := TrackEvent(!w.cleared, ns, w.counters[metric], ValueOf(bits), None, None);
            && Sound(packets + [p], w.(cleared := true))
            && SeenIn(packets + [p]) == SeenIn(packets) + [Counted(metric, ns, bits)]
  {
    ValueReads(packets, w, metric, ns, bits);
    var p := TrackEvent(!w.cleared, ns, w.counters[metric], ValueOf(bits), None, None);
    CounterInUse(packets, w, metric);
    FewerIn(w.counters.Keys, w.words);
    assert |w.counters| == |w.counters.Keys|;
    hide Readable;
    SpelledSnoc(packets, w, w.(cleared := true), p);
  }

  lemma CounterInUse(packets: seq<Packet>, w: Strings, metric: string)
    requires Readable(packets, w) && metric in w.counters
    ensures w.counters[metric] < w.nextCounter
  {
    hide Read, ClearsOnce, Started;
  }

  lemma CounterSound(packets: seq<Packet>, w: Strings, metric: string, parent: nat)
    requires Sound(packets, w) && metric !in w.counters && InU64(parent)
    ensures var p := CounterDescriptor(w.nextCounter, parent, metric);
            && Sound(packets + [p], Strings(w.nameIids, w.nextName, w.catIids, w.nextCat,
                                               w.counters[metric := w.nextCounter], w.nextCounter + 1, w.cleared,
                                               w.words + {metric}))
            && SeenIn(packets + [p]) == SeenIn(packets)
  {
    CounterReads(packets, w, metric, parent);
    var p := CounterDescriptor(w.nextCounter, parent, metric);
    var counters, words := w.counters[metric := w.nextCounter], w.words + {metric};
    var w' := w.(counters := counters, nextCounter := w.nextCounter + 1, words := words);
    FewerIn(counters.Keys, words);
    assert |counters| == |counters.Keys| && |counters| == |w.counters| + 1;
    hide Readable;
    SpelledSnoc(packets, w, w', p);
    OtherWords(packets + [p], w', w.words);
  }

  lemma DescriptorSound(packets: seq<Packet>, w: Strings, p: Packet)
    requires Sound(packets, w) && p.Descriptor?
    requires InU64(p.uuid) && InU64(p.parent) && p.name in w.words && -100 <= p.rank <= 0
    ensures Sound(packets + [p], w) && SeenIn(packets + [p]) == SeenIn(packets)
  {
    DescriptorReads(packets, w, p);
    hide Readable;
    SpelledSnoc(packets, w, w, p);
  }

  /** Counter tracks are numbered one after the other. */
  lemma CountersInRange(packets: seq<Packet>, w: Strings)
    requires Sound(packets, w)
    ensures w.nextCounter == COUNTER_UUID_BASE + |w.counters|
    ensures forall m :: m in w.counters ==> COUNTER_UUID_BASE <= w.counters[m] < w.nextCounter
  {
    forall m | m in w.counters
      ensures w.counters[m] < w.nextCounter
    {
      CounterInUse(packets, w, m);
    }
  }

  /** More words may have been brought up than have been written. */
  lemma MoreSound(packets: seq<Packet>, w: Strings, words: set<string>)
    requires Sound(packets, w) && w.words <= words
    ensures Sound(packets, w.(words := words))
  {
    OtherWords(packets, w, words);
    hide Readable, SpelledIn;
    forall p | p in packets
      ensures SpelledIn(p, words)
    {
      MoreWords(p, w.words, words);
    }
  }

  lemma UuidFits(t: Track)
    requires !t.CounterTrack?
    ensures InU64(Uuid(t))
  {
  }

  lemma SmallFits()
    ensures InU64(0)
  {
  }

  lemma ThreadUuidFits(tid: int)
    ensures InU64(Uuid(TrackOf(tid)))
  {
    UuidFits(TrackOf(tid));
  }

  // ---- tracks ----

  /** A group whose descriptor waits for its name. Its rank is 0 and its children are
      ordered explicitly, as for all groups. */
  datatype DeferredTrack = DeferredTrack(parent: nat, fallback: Title)

  /** What waits to be flushed is of 64 bits, and its titles have been brought up. */
  ghost predicate WaitsFor(r: Rendering, deferred: map<nat, DeferredTrack>, names: map<nat, string>,
                           words: set<string>) {
    && (forall u :: u in deferred ==>
          InU64(u) && InU64(deferred[u].parent) && r.title(deferred[u].fallback) in words)
    && forall u :: u in names ==> names[u] in words
  }

  lemma WaitMore(r: Rendering, deferred: map<nat, DeferredTrack>, names: map<nat, string>, words: set<string>,
                 u: nat, d: DeferredTrack)
    requires WaitsFor(r, deferred, names, words)
    requires InU64(u) && InU64(d.parent) && r.title(d.fallback) in words
    ensures WaitsFor(r, deferred[u := d], names, words)
  {
  }

  lemma NameMore(r: Rendering, deferred: map<nat, DeferredTrack>, names: map<nat, string>, words: set<string>,
                 u: nat, name: string)
    requires WaitsFor(r, deferred, names, words) && name in words
    ensures WaitsFor(r, deferred, names[u := name], words)
  {
  }

  lemma WaitWider(r: Rendering, deferred: map<nat, DeferredTrack>, names: map<nat, string>,
                  a: set<string>, b: set<string>)
    requires WaitsFor(r, deferred, names, a) && a <= b
    ensures WaitsFor(r, deferred, names, b)
  {
  }

  lemma FlushedIsSpelled(r: Rendering, deferred: map<nat, DeferredTrack>, names: map<nat, string>,
                         words: set<string>, u: nat)
    requires WaitsFor(r, deferred, names, words) && u in deferred
    ensures (if u in names then names[u] else r.title(deferred[u].fallback)) in words
    ensures InU64(u) && InU64(deferred[u].parent)
    ensures WaitsFor(r, deferred - {u}, names, words)
  {
  }

  /** The group of a defined track has an owner. */
  predicate Grouped(u: nat, owners: map<nat, nat>) {
    match OfUuid(u)
    case Process(_) => true
    case CounterTrack(_) => true
    case ThreadGroup(_) => u in owners
    case t => GROUP_UUID_BASE + t.tid in owners
  }

  ghost predicate DeferredOk(u: nat, d: DeferredTrack, defined: set<nat>, owners: map<nat, nat>) {
    && IsGroup(u) && Under(u, d.parent) && HangsFrom(u, d.parent, owners)
    && (d.parent == 0 || d.parent in defined)
    && d.fallback == TitleOf(OfUuid(u))
  }

  /** Every track defined is described, deferred or about to be, each exactly once;
      what a descriptor needs is defined. */
  ghost predicate TracksOk(packets: seq<Packet>, pending: set<nat>, defined: set<nat>, owners: map<nat, nat>,
                           deferred: map<nat, DeferredTrack>, nextCounter: nat) {
    && Tidy(packets)
    && Needed(packets) <= defined
    && Described(packets) !! deferred.Keys && Described(packets) !! pending && deferred.Keys !! pending
    && (forall u: nat :: u in Described(packets) || u in deferred || u in pending <==>
                         u in defined || COUNTER_UUID_BASE <= u < nextCounter)
    && (forall u :: u in defined ==> u < COUNTER_UUID_BASE || u >= GROUP_UUID_BASE)
    && (forall u :: u in deferred ==> DeferredOk(u, deferred[u], defined, owners))
    && nextCounter <= GROUP_UUID_BASE
    && (forall u :: u in defined && u !in pending ==> Grouped(u, owners))
    && (forall u :: u in owners ==> u in defined)
  }

  ghost predicate NoGroups(r: Rendering, packets: seq<Packet>) {
    forall p :: p in packets && p.Descriptor? ==> !IsGroup(p.uuid) && ShownAs(r, map[], map[], p)
  }

  /** The tracks of a file still being written: no group is described yet. */
  ghost predicate Building(r: Rendering, packets: seq<Packet>, pending: set<nat>, defined: set<nat>,
                           owners: map<nat, nat>, deferred: map<nat, DeferredTrack>, nextCounter: nat) {
    TracksOk(packets, pending, defined, owners, deferred, nextCounter) && NoGroups(r, packets)
  }

  lemma BeginTrack(r: Rendering, packets: seq<Packet>, pending: set<nat>, defined: set<nat>, owners: map<nat, nat>,
                   deferred: map<nat, DeferredTrack>, nextCounter: nat, u: nat)
    requires Building(r, packets, pending, defined, owners, deferred, nextCounter)
    requires u !in defined && (u < COUNTER_UUID_BASE || u >= GROUP_UUID_BASE)
    ensures Building(r, packets, pending + {u}, defined + {u}, owners, deferred, nextCounter)
    ensures u !in pending && u !in owners
  {
    hide Tidy, Described, Needed, Under, OfUuid, TitleOf;
  }

  lemma DeferTrack(r: Rendering, packets: seq<Packet>, pending: set<nat>, defined: set<nat>, owners: map<nat, nat>,
                   deferred: map<nat, DeferredTrack>, nextCounter: nat, u: nat, d: DeferredTrack)
    requires Building(r, packets, pending + {u}, defined, owners, deferred, nextCounter)
    requires u !in pending && DeferredOk(u, d, defined, owners) && Grouped(u, owners)
    ensures Building(r, packets, pending, defined, owners, deferred[u := d], nextCounter)
  {
    hide Tidy, Described, Needed, DeferredOk;
  }

  lemma ClaimKeeps(r: Rendering, packets: seq<Packet>, pending: set<nat>, defined: set<nat>, owners: map<nat, nat>,
                   deferred: map<nat, DeferredTrack>, nextCounter: nat, pid: int, tid: int)
    requires Building(r, packets, pending, defined, owners, deferred, nextCounter)
    requires Uuid(ThreadGroup(tid)) in defined
    ensures Building(r, packets, pending, defined, Claimed(owners, pid, tid), deferred, nextCounter)
  {
    hide Tidy, Described, Needed, Uuid, Under, OfUuid, TitleOf, NoGroups;
  }

  lemma GroupHasOwner(r: Rendering, packets: seq<Packet>, pending: set<nat>, defined: set<nat>,
                      owners: map<nat, nat>, deferred: map<nat, DeferredTrack>, nextCounter: nat, tid: int)
    requires Building(r, packets, pending, defined, owners, deferred, nextCounter)
    requires Bounded(ThreadGroup(tid))
    requires var u := Uuid(ThreadGroup(tid)); u in defined && u !in pending
    ensures Uuid(ThreadGroup(tid)) in owners
  {
    UuidRoundTrip(ThreadGroup(tid));
    hide Tidy, Described, Needed, Uuid, OfUuid;
    assert Grouped(Uuid(ThreadGroup(tid)), owners);
  }

  lemma TrackHasOwner(r: Rendering, packets: seq<Packet>, defined: set<nat>, owners: map<nat, nat>,
                      deferred: map<nat, DeferredTrack>, nextCounter: nat, tid: int)
    requires Building(r, packets, {}, defined, owners, deferred, nextCounter)
    requires Bounded(TrackOf(tid)) && Uuid(TrackOf(tid)) in defined
    ensures Uuid(ThreadGroup(ThreadOf(tid))) in owners
  {
    ThreadTrackShape(tid);
    hide Tidy, Described, Needed, Uuid, OfUuid, TrackOf;
    assert Grouped(Uuid(TrackOf(tid)), owners);
  }

  lemma DescribeTrack(packets: seq<Packet>, pending: set<nat>, defined: set<nat>, owners: map<nat, nat>,
                      deferred: map<nat, DeferredTrack>, nextCounter: nat, p: Packet)
    requires IsDescriptor(p) && TracksOk(packets, pending + {p.uuid}, defined, owners, deferred, nextCounter)
    requires p.uuid !in pending && Under(p.uuid, p.parent) && (p.parent == 0 || p.parent in defined)
    requires p.uuid in defined ==> Grouped(p.uuid, owners)
    ensures TracksOk(packets + [p], pending, defined, owners, deferred, nextCounter)
  {
    PacketSnoc(packets, p);
    hide Tidy, Described, Needed, DeferredOk, Read, Started, ClearsOnce, Under;
  }

  lemma DescribeBelow(r: Rendering, packets: seq<Packet>, pending: set<nat>, defined: set<nat>,
                      owners: map<nat, nat>, deferred: map<nat, DeferredTrack>, nextCounter: nat, p: Packet)
    requires IsDescriptor(p) && Building(r, packets, pending + {p.uuid}, defined, owners, deferred, nextCounter)
    requires p.uuid !in pending && Under(p.uuid, p.parent) && (p.parent == 0 || p.parent in defined)
    requires p.uuid in defined ==> Grouped(p.uuid, owners)
    requires p.Descriptor? ==> !IsGroup(p.uuid) && ShownAs(r, map[], map[], p)
    ensures Building(r, packets + [p], pending, defined, owners, deferred, nextCounter)
  {
    hide TracksOk, Under, ShownAs;
    DescribeTrack(packets, pending, defined, owners, deferred, nextCounter, p);
  }

  lemma BeginCounter(r: Rendering, packets: seq<Packet>, defined: set<nat>, owners: map<nat, nat>,
                     deferred: map<nat, DeferredTrack>, nextCounter: nat)
    requires COUNTER_UUID_BASE <= nextCounter
    ensures Building(r, packets, {}, defined, owners, deferred, nextCounter) && nextCounter < GROUP_UUID_BASE
            ==> Building(r, packets, {} + {nextCounter}, defined, owners, deferred, nextCounter + 1)
  {
    hide Tidy, Described, Needed, DeferredOk, NoGroups;
  }

  lemma EventOnTrack(r: Rendering, packets: seq<Packet>, defined: set<nat>, owners: map<nat, nat>,
                     deferred: map<nat, DeferredTrack>, nextCounter: nat, p: Packet)
    requires p.TrackEvent? && Building(r, packets, {}, defined, owners, deferred, nextCounter)
    requires !IsGroup(p.track) && (p.track in defined || COUNTER_UUID_BASE <= p.track < nextCounter)
    ensures Building(r, packets + [p], {}, defined, owners, deferred, nextCounter)
  {
    assert p.track in Described(packets);
    PacketSnoc(packets, p);
    hide Tidy, Described, Needed, DeferredOk, Read, Started, ClearsOnce;
  }

  lemma DescribeDeferred(packets: seq<Packet>, defined: set<nat>, owners: map<nat, nat>,
                         deferred: map<nat, DeferredTrack>, nextCounter: nat, p: Packet)
    requires p.Descriptor? && TracksOk(packets, {}, defined, owners, deferred, nextCounter)
    requires p.uuid in deferred && p.parent == deferred[p.uuid].parent
    ensures TracksOk(packets + [p], {}, defined, owners, deferred - {p.uuid}, nextCounter)
  {
    assert TracksOk(packets, {} + {p.uuid}, defined, owners, deferred - {p.uuid}, nextCounter);
    DescribeTrack(packets, {}, defined, owners, deferred - {p.uuid}, nextCounter, p);
    hide TracksOk;
  }

  lemma AllDescribed(packets: seq<Packet>, defined: set<nat>, owners: map<nat, nat>, nextCounter: nat)
    requires TracksOk(packets, {}, defined, owners, map[], nextCounter)
    ensures Closed(packets)
    ensures forall u :: u in defined ==> u in Described(packets)
  {
    hide Tidy, Described, Needed;
  }

  /** A thread's track hangs below its group, and is no group or counter itself. */
  lemma ThreadTrackShape(tid: int)
    requires Bounded(TrackOf(tid))
    ensures var u, t := Uuid(TrackOf(tid)), TrackOf(tid);
            && !t.Process? && !t.CounterTrack? && !t.ThreadGroup? && Bounded(ThreadGroup(t.tid))
            && t.tid == ThreadOf(tid) && Uuid(ThreadGroup(t.tid)) == GROUP_UUID_BASE + t.tid
            && u < COUNTER_UUID_BASE && OfUuid(u) == t && Under(u, Uuid(ThreadGroup(t.tid)))
  {
    UuidRoundTrip(TrackOf(tid));
    var t := TrackOf(tid).tid;
    assert Uuid(ThreadGroup(t)) == GROUP_UUID_BASE + t;
  }

  lemma PresentedSnoc(r: Rendering, packets: seq<Packet>, names: map<nat, string>, owners: map<nat, nat>, p: Packet)
    requires Presented(r, packets, names, owners)
    requires p.Descriptor? ==> ShownAs(r, names, owners, p)
    ensures Presented(r, packets + [p], names, owners)
  {
    hide ShownAs;
  }

  /** The descriptor that a deferred group is flushed with. */
  lemma GroupShown(r: Rendering, packets: seq<Packet>, defined: set<nat>, owners: map<nat, nat>,
                   deferred: map<nat, DeferredTrack>, nextCounter: nat, u: nat, names: map<nat, string>)
    requires TracksOk(packets, {}, defined, owners, deferred, nextCounter) && u in deferred
    ensures var name := if u in names then names[u] else r.title(deferred[u].fallback);
            ShownAs(r, names, owners, Descriptor(u, deferred[u].parent, name, 0, true))
  {
    assert DeferredOk(u, deferred[u], defined, owners);
  }

  lemma GroupsWait(r: Rendering, packets: seq<Packet>, defined: set<nat>, owners: map<nat, nat>,
                   deferred: map<nat, DeferredTrack>, nextCounter: nat, names: map<nat, string>)
    requires Building(r, packets, {}, defined, owners, deferred, nextCounter)
    ensures TracksOk(packets, {}, defined, owners, deferred, nextCounter) && Presented(r, packets, names, owners)
  {
  }

  lemma AddCounter(r: Rendering, packets: seq<Packet>, defined: set<nat>, owners: map<nat, nat>,
                   deferred: map<nat, DeferredTrack>, nextCounter: nat, p: Packet, pid: int)
    requires p.CounterDescriptor? && p.uuid == nextCounter && COUNTER_UUID_BASE <= nextCounter
    requires p.parent == Uuid(Process(pid)) && p.parent in defined
    ensures Building(r, packets, {}, defined, owners, deferred, nextCounter) && Bounded(Process(pid))
            && nextCounter < GROUP_UUID_BASE
            ==> Building(r, packets + [p], {}, defined, owners, deferred, nextCounter + 1)
  {
    if Building(r, packets, {}, defined, owners, deferred, nextCounter) && Bounded(Process(pid))
       && nextCounter < GROUP_UUID_BASE {
      hide Building, Uuid;
      BeginCounter(r, packets, defined, owners, deferred, nextCounter);
      CounterIsNew(r, packets, defined, owners, deferred, nextCounter);
      ProcessIsAbove(pid, p.uuid);
      DescribeBelow(r, packets, {}, defined, owners, deferred, nextCounter + 1, p);
    }
  }

  lemma CounterIsNew(r: Rendering, packets: seq<Packet>, defined: set<nat>, owners: map<nat, nat>,
                     deferred: map<nat, DeferredTrack>, nextCounter: nat)
    requires Building(r, packets, {}, defined, owners, deferred, nextCounter)
    requires COUNTER_UUID_BASE <= nextCounter < GROUP_UUID_BASE
    ensures nextCounter !in defined
  {
  }

  lemma ProcessIsAbove(pid: int, counter: nat)
    requires Bounded(Process(pid)) && COUNTER_UUID_BASE <= counter < GROUP_UUID_BASE
    ensures Under(counter, Uuid(Process(pid)))
  {
    assert Uuid(Process(pid)) == pid;
  }

  lemma BuildingBounds(r: Rendering, packets: seq<Packet>, pending: set<nat>, defined: set<nat>,
                       owners: map<nat, nat>, deferred: map<nat, DeferredTrack>, nextCounter: nat)
    requires Building(r, packets, pending, defined, owners, deferred, nextCounter)
    ensures nextCounter <= GROUP_UUID_BASE
  {
  }

  lemma SampleOnCounter(r: Rendering, packets: seq<Packet>, defined: set<nat>, owners: map<nat, nat>,
                        deferred: map<nat, DeferredTrack>, w: Strings, p: Packet, metric: string)
    requires Sound(packets, w) && metric in w.counters
    requires p.TrackEvent? && p.track == w.counters[metric]
    ensures Building(r, packets, {}, defined, owners, deferred, w.nextCounter)
            ==> Building(r, packets + [p], {}, defined, owners, deferred, w.nextCounter)
  {
    CountersInRange(packets, w);
    hide Building, Sound;
    if Building(r, packets, {}, defined, owners, deferred, w.nextCounter) {
      BuildingBounds(r, packets, {}, defined, owners, deferred, w.nextCounter);
      EventOnTrack(r, packets, defined, owners, deferred, w.nextCounter, p);
    }
  }

  lemma NothingWritten(r: Rendering)
    ensures Recovered(r, []) == [] && EventCount([]) == 0 && MetricNames([]) == {}
    ensures OwnersIn(r, []) == map[] && NamesGiven(r, []) == map[] && WordsIn(r, []) == {}
  {
  }

  lemma OneMore(r: Rendering, log: seq<Entry>, i: nat)
    requires i < |log|
    ensures var e, before, after := log[i], log[..i], log[..i + 1];
            && Recovered(r, after) == Recovered(r, before) + EntryEvents(r, e)
            && EventCount(after) == EventCount(before) + EntryCount(e)
            && NamesGiven(r, after) == EntryNames(r, NamesGiven(r, before), e)
            && OwnersIn(r, after) == EntryOwners(r, OwnersIn(r, before), e)
            && WordsIn(r, after) == WordsIn(r, before) + EntryWords(r, e)
  {
    assert log[..i + 1] == log[..i] + [log[i]];
    InitLast(log[..i], log[i]);
    hide EntryEvents, EntryCount, EntryNames, EntryOwners, EntryWords;
  }

  lemma SoundMeans(packets: seq<Packet>, w: Strings)
    requires Sound(packets, w)
    ensures ClearsOnce(packets) && Read(packets).Some? && Read(packets).value.seen == SeenIn(packets)
    ensures forall p :: p in packets ==> SpelledIn(p, w.words)
  {
    hide Matches, SpelledIn;
  }

  lemma EventOnThread(r: Rendering, packets: seq<Packet>, defined: set<nat>, owners: map<nat, nat>,
                      deferred: map<nat, DeferredTrack>, nextCounter: nat, p: Packet, tid: int)
    requires p.TrackEvent? && p.track == Uuid(TrackOf(tid))
    ensures Building(r, packets, {}, defined, owners, deferred, nextCounter)
            && Bounded(TrackOf(tid)) && p.track in defined ==>
              Building(r, packets + [p], {}, defined, owners, deferred, nextCounter)
  {
    hide Building, Uuid;
    if Building(r, packets, {}, defined, owners, deferred, nextCounter) && Bounded(TrackOf(tid)) && p.track in defined {
      ThreadTrackShape(tid);
      EventOnTrack(r, packets, defined, owners, deferred, nextCounter, p);
    }
  }

  lemma DeferProcess(r: Rendering, packets: seq<Packet>, pending: set<nat>, defined: set<nat>, owners: map<nat, nat>,
                     deferred: map<nat, DeferredTrack>, nextCounter: nat, pid: int)
    requires Uuid(Process(pid)) !in defined
    ensures var u, d := Uuid(Process(pid)), DeferredTrack(0, ProcessFallback(pid));
            Building(r, packets, pending, defined, owners, deferred, nextCounter) && Bounded(Process(pid)) ==>
              Building(r, packets, pending, defined + {u}, owners, deferred[u := d], nextCounter)
  {
    if Building(r, packets, pending, defined, owners, deferred, nextCounter) && Bounded(Process(pid)) {
      UuidRoundTrip(Process(pid));
      assert Uuid(Process(pid)) == pid;
      hide Building;
      BeginTrack(r, packets, pending, defined, owners, deferred, nextCounter, Uuid(Process(pid)));
      DeferTrack(r, packets, pending, defined + {Uuid(Process(pid))}, owners, deferred, nextCounter,
                 Uuid(Process(pid)), DeferredTrack(0, ProcessFallback(pid)));
    }
  }

  lemma OwnedGroup(r: Rendering, packets: seq<Packet>, pending: set<nat>, defined: set<nat>, owners: map<nat, nat>,
                   deferred: map<nat, DeferredTrack>, nextCounter: nat, pid: int, tid: int)
    requires Uuid(ThreadGroup(tid)) in defined
    ensures Building(r, packets, pending, defined, owners, deferred, nextCounter)
            && Bounded(ThreadGroup(tid)) && Uuid(ThreadGroup(tid)) !in pending ==>
              owners == Claimed(owners, pid, tid)
  {
    hide Building, Uuid, Bounded;
    if Building(r, packets, pending, defined, owners, deferred, nextCounter)
       && Bounded(ThreadGroup(tid)) && Uuid(ThreadGroup(tid)) !in pending {
      GroupHasOwner(r, packets, pending, defined, owners, deferred, nextCounter, tid);
    }
  }

  lemma StartGroup(r: Rendering, packets: seq<Packet>, pending: set<nat>, defined: set<nat>, owners: map<nat, nat>,
                   deferred: map<nat, DeferredTrack>, nextCounter: nat, tid: int)
    requires Uuid(ThreadGroup(tid)) !in defined
    ensures var u := Uuid(ThreadGroup(tid));
            Building(r, packets, pending, defined, owners, deferred, nextCounter) && Bounded(ThreadGroup(tid)) ==>
              Building(r, packets, pending + {u}, defined + {u}, owners, deferred, nextCounter) && u !in owners
  {
    if Building(r, packets, pending, defined, owners, deferred, nextCounter) && Bounded(ThreadGroup(tid)) {
      GroupUuid(tid);
      hide Building, Uuid;
      BeginTrack(r, packets, pending, defined, owners, deferred, nextCounter, Uuid(ThreadGroup(tid)));
    }
  }

  lemma GroupUuid(tid: int)
    requires Bounded(ThreadGroup(tid))
    ensures Uuid(ThreadGroup(tid)) == GROUP_UUID_BASE + tid && OfUuid(Uuid(ThreadGroup(tid))) == ThreadGroup(tid)
  {
    UuidRoundTrip(ThreadGroup(tid));
  }

  lemma FinishGroup(r: Rendering, packets: seq<Packet>, pending: set<nat>, defined: set<nat>, owners: map<nat, nat>,
                    deferred: map<nat, DeferredTrack>, nextCounter: nat, pid: int, tid: int)
    requires Uuid(ThreadGroup(tid)) in defined && Uuid(Process(pid)) in defined
    ensures var u, d := Uuid(ThreadGroup(tid)), DeferredTrack(Uuid(Process(pid)), ThreadFallback(tid));
            Building(r, packets, pending + {u}, defined, owners, deferred, nextCounter)
            && Bounded(ThreadGroup(tid)) && Bounded(Process(pid)) && u !in pending && u !in owners ==>
              Building(r, packets, pending, defined, Claimed(owners, pid, tid), deferred[u := d], nextCounter)
  {
    var u, d := Uuid(ThreadGroup(tid)), DeferredTrack(Uuid(Process(pid)), ThreadFallback(tid));
    if Building(r, packets, pending + {u}, defined, owners, deferred, nextCounter)
       && Bounded(ThreadGroup(tid)) && Bounded(Process(pid)) && u !in pending && u !in owners {
      GroupUuid(tid);
      UuidRoundTrip(Process(pid));
      assert Uuid(Process(pid)) == pid;
      hide Building, Uuid;
      ClaimKeeps(r, packets, pending + {u}, defined, owners, deferred, nextCounter, pid, tid);
      DeferTrack(r, packets, pending, defined, Claimed(owners, pid, tid), deferred, nextCounter, u, d);
    }
  }

  lemma StartThreadTrack(r: Rendering, packets: seq<Packet>, defined: set<nat>, owners: map<nat, nat>,
                         deferred: map<nat, DeferredTrack>, nextCounter: nat, tid: int)
    requires Uuid(TrackOf(tid)) !in defined
    ensures var u := Uuid(TrackOf(tid));
            Building(r, packets, {}, defined, owners, deferred, nextCounter) && Bounded(TrackOf(tid)) ==>
              && Building(r, packets, {} + {u}, defined + {u}, owners, deferred, nextCounter)
              && Bounded(ThreadGroup(ThreadOf(tid))) && Uuid(ThreadGroup(ThreadOf(tid))) !in {} + {u}
  {
    if Building(r, packets, {}, defined, owners, deferred, nextCounter) && Bounded(TrackOf(tid)) {
      hide Building, Uuid, TrackOf, OfUuid;
      ThreadTrackShape(tid);
      BeginTrack(r, packets, {}, defined, owners, deferred, nextCounter, Uuid(TrackOf(tid)));
    }
  }

  lemma FinishThreadTrack(r: Rendering, packets: seq<Packet>, defined: set<nat>, owners: map<nat, nat>,
                          deferred: map<nat, DeferredTrack>, nextCounter: nat, tid: int, p: Packet)
    requires p == Descriptor(Uuid(TrackOf(tid)), Uuid(ThreadGroup(ThreadOf(tid))),
                             r.title(TitleOf(TrackOf(tid))), RankOf(TrackOf(tid)), false)
    requires p.parent in defined
    ensures Building(r, packets, {} + {p.uuid}, defined, owners, deferred, nextCounter) && Bounded(TrackOf(tid))
            && p.parent in owners ==>
              Building(r, packets + [p], {}, defined, owners, deferred, nextCounter)
  {
    if Building(r, packets, {} + {p.uuid}, defined, owners, deferred, nextCounter) && Bounded(TrackOf(tid))
       && p.parent in owners {
      hide Building, Uuid, TrackOf, OfUuid, Under;
      ThreadTrackShape(tid);
      DescribeBelow(r, packets, {}, defined, owners, deferred, nextCounter, p);
    }
  }

  /** One group is flushed. */
  lemma FlushOne(r: Rendering, packets: seq<Packet>, defined: set<nat>, owners: map<nat, nat>,
                 left: map<nat, DeferredTrack>, nextCounter: nat, names: map<nat, string>, u: nat)
    requires TracksOk(packets, {}, defined, owners, left, nextCounter) && Presented(r, packets, names, owners)
    requires u in left
    ensures var name := if u in names then names[u] else r.title(left[u].fallback);
            var p := Descriptor(u, left[u].parent, name, 0, true);
            && TracksOk(packets + [p], {}, defined, owners, left - {u}, nextCounter)
            && Presented(r, packets + [p], names, owners)
  {
    hide TracksOk, Presented, ShownAs;
    var name := if u in names then names[u] else r.title(left[u].fallback);
    var p := Descriptor(u, left[u].parent, name, 0, true);
    GroupShown(r, packets, defined, owners, left, nextCounter, u, names);
    DescribeDeferred(packets, defined, owners, left, nextCounter, p);
    PresentedSnoc(r, packets, names, owners, p);
  }

  // ---- the writer ----

  class PerfettoWriter {
    const r: Rendering
    var out: seq<Packet>
    var count: int
    var cleared: bool
    var nameIids: map<string, nat>
    var nextName: nat
    var catIids: map<string, nat>
    var nextCat: nat
    var defined: set<nat>
    var deferred: map<nat, DeferredTrack>
    var metadataNames: map<nat, string>
    var counterTracks: map<string, nat>
    var nextCounter: nat
    var finalized: bool
    ghost var owners: map<nat, nat>
    ghost var words: set<string>       // every string brought up so far

    ghost function Known(): Strings
      reads this
    {
      Strings(nameIids, nextName, catIids, nextCat, counterTracks, nextCounter, cleared, words)
    }

    ghost function Events(): seq<Seen>
      reads this
    {
      SeenIn(out)
    }

    /** What holds between calls, whatever the ids: the packets read back as written. */
    ghost predicate Valid()
      reads this
    {
      && Sound(out, Known())
      && WaitsFor(r, deferred, metadataNames, words)
      && metadataNames.Keys <= defined
    }

    /** The state of the tracks, as long as ids are bounded: the groups still wait. */
    ghost predicate Tracked(pending: set<nat>)
      reads this
    {
      Building(r, out, pending, defined, owners, deferred, nextCounter)
    }

    constructor (r: Rendering)
      ensures Valid() && Tracked({}) && this.r == r && !finalized
      ensures Events() == [] && count == 0 && counterTracks == map[] && metadataNames == map[] && owners == map[]
      ensures words == {}
    {
      this.r := r;
      out, count, cleared := [], 0, false;
      nameIids, nextName, catIids, nextCat := map[], 1, map[], 1;
      defined, deferred, metadataNames := {}, map[], map[];
      counterTracks, nextCounter, finalized := map[], COUNTER_UUID_BASE, false;
      owners, words := map[], {};
    }

    /** Strings come up that may have to be spelled. */
    ghost method Hear(more: set<string>)
      requires Valid()
      modifies `words
      ensures Valid() && words == old(words) + more
    {
      hide Sound, WaitsFor;
      MoreSound(out, Known(), words + more);
      WaitWider(r, deferred, metadataNames, words, words + more);
      words := words + more;
    }

    method EnsureProcessGroup(pid: int, ghost pending: set<nat>)
      requires Valid()
      modifies `defined, `deferred, `words
      ensures Valid() && Events() == old(Events()) && words == old(words) + {r.title(ProcessFallback(pid))}
      ensures Uuid(Process(pid)) in defined && old(defined) <= defined
      ensures old(Tracked(pending)) && Bounded(Process(pid)) ==> Tracked(pending)
    {
      UuidFits(Process(pid));
      SmallFits();
      hide Building, Sound, WaitsFor, InU64, Uuid, Bounded, SeenIn;
      var u := Uuid(Process(pid));
      Hear({r.title(ProcessFallback(pid))});
      if u in defined {
        return;
      }
      var d := DeferredTrack(0, ProcessFallback(pid));
      DeferProcess(r, out, pending, defined, owners, deferred, nextCounter, pid);
      WaitMore(r, deferred, metadataNames, words, u, d);
      defined := defined + {u};
      deferred := deferred[u := d];
    }

    method EnsureThreadGroup(pid: int, tid: int, ghost pending: set<nat>)
      requires Valid()
      modifies `defined, `deferred, `owners, `words
      ensures Valid() && Events() == old(Events()) && words == old(words) + GroupTitles(r, pid, tid)
      ensures Uuid(ThreadGroup(tid)) in defined && old(defined) <= defined
      ensures old(Tracked(pending)) && Bounded(Process(pid)) && Bounded(ThreadGroup(tid)) &&
              Uuid(ThreadGroup(tid)) !in pending
              ==> Tracked(pending) && owners == Claimed(old(owners), pid, tid)
    {
      hide Building, Sound, WaitsFor, InU64, Uuid, Bounded, Claimed, SeenIn;
      Hear(GroupTitles(r, pid, tid));
      if Uuid(ThreadGroup(tid)) in defined {
        OwnedGroup(r, out, pending, defined, owners, deferred, nextCounter, pid, tid);
      } else {
        DeferGroup(pid, tid, pending);
      }
    }

    /** A new thread group, whose descriptor waits for its name. */
    method DeferGroup(pid: int, tid: int, ghost pending: set<nat>)
      requires Valid() && Uuid(ThreadGroup(tid)) !in defined && GroupTitles(r, pid, tid) <= words
      modifies `defined, `deferred, `owners, `words
      ensures Valid() && Events() == old(Events()) && words == old(words)
      ensures Uuid(ThreadGroup(tid)) in defined && old(defined) <= defined
      ensures old(Tracked(pending)) && Bounded(Process(pid)) && Bounded(ThreadGroup(tid)) &&
              Uuid(ThreadGroup(tid)) !in pending
              ==> Tracked(pending) && owners == Claimed(old(owners), pid, tid)
    {
      UuidFits(Process(pid));
      UuidFits(ThreadGroup(tid));
      hide Building, Sound, WaitsFor, InU64, Uuid, Bounded, Claimed, SeenIn;
      var u := Uuid(ThreadGroup(tid));
      StartGroup(r, out, pending, defined, owners, deferred, nextCounter, tid);
      defined := defined + {u};
      EnsureProcessGroup(pid, pending + {u});
      var d := DeferredTrack(Uuid(Process(pid)), ThreadFallback(tid));
      FinishGroup(r, out, pending, defined, owners, deferred, nextCounter, pid, tid);
      WaitMore(r, deferred, metadataNames, words, u, d);
      deferred := deferred[u := d];
      owners := Claimed(owners, pid, tid);
    }

    /** Describe the track of `tid` on first use; its group's descriptor comes later. */
    method EnsureTrack(pid: int, tid: int)
      requires Valid()
      modifies `out, `defined, `deferred, `owners, `words
      ensures Valid() && Events() == old(Events()) && words == old(words) + TrackTitles(r, pid, tid)
      ensures old(defined) <= defined
      ensures old(Tracked({})) && IdBounds(pid, tid) ==>
              Tracked({}) && Uuid(TrackOf(tid)) in defined && owners == Claimed(old(owners), pid, ThreadOf(tid))
    {
      hide Building, Sound, WaitsFor, InU64, Uuid, Under, SeenIn;
      var u := Uuid(TrackOf(tid));
      Hear(TrackTitles(r, pid, tid));
      if u in defined {
        if Tracked({}) && IdBounds(pid, tid) {
          TrackHasOwner(r, out, defined, owners, deferred, nextCounter, tid);
        }
        return;
      }
      DescribeTrack(pid, tid);
    }

    /** The descriptor of a new track, below its group. */
    method DescribeTrack(pid: int, tid: int)
      requires Valid() && Uuid(TrackOf(tid)) !in defined && TrackTitles(r, pid, tid) <= words
      modifies `out, `defined, `deferred, `owners, `words
      ensures Valid() && Events() == old(Events()) && words == old(words)
      ensures old(defined) <= defined
      ensures old(Tracked({})) && IdBounds(pid, tid) ==>
              Tracked({}) && Uuid(TrackOf(tid)) in defined && owners == Claimed(old(owners), pid, ThreadOf(tid))
    {
      hide Building, Sound, WaitsFor, InU64, Uuid, Under, SeenIn;
      var u := Uuid(TrackOf(tid));
      StartThreadTrack(r, out, defined, owners, deferred, nextCounter, tid);
      defined := defined + {u};
      var realTid: int, title: Title, rank: int;
      match TrackOf(tid) {
        case Gpu(t) => realTid, title, rank := t, GpuTitle(t), -25;
        case Sched(t) => realTid, title, rank := t, SchedTitle(t), -100;
        case Gil(t) => realTid, title, rank := t, GilTitle(t), -50;
        case _ => realTid, title, rank := tid, StacksTitle(tid), 0;
      }
      hide TrackOf, Bounded;
      EnsureThreadGroup(pid, realTid, {} + {u});
      var p := Descriptor(u, Uuid(ThreadGroup(realTid)), r.title(title), rank, false);
      FinishThreadTrack(r, out, defined, owners, deferred, nextCounter, tid, p);
      UuidFits(TrackOf(tid));
      UuidFits(ThreadGroup(realTid));
      DescriptorSound(out, Known(), p);
      out := out + [p];
    }

    /** The id of a name, and its entry for the packet's interned data if it is new. */
    method InternName(name: string) returns (iid: nat, entry: Option<(nat, string)>)
      modifies `nameIids, `nextName
      ensures (nameIids, nextName, entry) == Intern(old(nameIids), old(nextName), name)
      ensures iid == nameIids[name]
    {
      if name in nameIids {
        return nameIids[name], None;
      }
      iid := nextName;
      nextName := nextName + 1;
      nameIids := nameIids[name := iid];
      entry := Some((iid, name));
    }

    method InternCategory(cat: string) returns (iid: nat, entry: Option<(nat, string)>)
      modifies `catIids, `nextCat
      ensures (catIids, nextCat, entry) == Intern(old(catIids), old(nextCat), cat)
      ensures iid == catIids[cat]
    {
      if cat in catIids {
        return catIids[cat], None;
      }
      iid := nextCat;
      nextCat := nextCat + 1;
      catIids := catIids[cat := iid];
      entry := Some((iid, cat));
    }

    method WriteTrackEvent(kind: Kind, name: string, cat: string, tsUs: real, pid: int, tid: int)
      requires Valid()
      modifies this`out, this`count, this`cleared, this`nameIids, this`nextName, this`catIids, this`nextCat,
               this`defined, this`deferred, this`owners, this`words
      ensures Valid() && count == old(count) + 1 && words == old(words) + ({name, cat} + TrackTitles(r, pid, tid))
      ensures Events() == old(Events()) + [SeenAs(kind, Uuid(TrackOf(tid)), Ns(tsUs), name, cat)]
      ensures old(Tracked({})) && IdBounds(pid, tid) ==>
              Tracked({}) && owners == Claimed(old(owners), pid, ThreadOf(tid))
    {
      hide Building, Sound, WaitsFor, InU64, SeenIn, Uuid, TrackOf, SeenAs, Ns, Bounded, Claimed, ThreadOf, TrackTitles;
      EnsureTrack(pid, tid);
      ghost var packets := out;
      ThreadUuidFits(tid);
      ghost var packet := EmitEvent(kind, name, cat, Ns(tsUs), Uuid(TrackOf(tid)));
      EventOnThread(r, packets, defined, owners, deferred, nextCounter, packet, tid);
    }

    /** An event on a described track, with the strings it needs. */
    method EmitEvent(kind: Kind, name: string, cat: string, ns: u64, uuid: nat) returns (ghost packet: Packet)
      requires Valid() && InU64(uuid)
      modifies this`out, this`count, this`cleared, this`nameIids, this`nextName, this`catIids, this`nextCat, this`words
      ensures Valid() && count == old(count) + 1 && words == old(words) + {name, cat}
      ensures Events() == old(Events()) + [SeenAs(kind, uuid, ns, name, cat)]
      ensures out == old(out) + [packet] && packet.TrackEvent? && packet.track == uuid
    {
      hide Sound, WaitsFor, InU64, Intern, SeenIn, SeenAs, BodyOf;
      ghost var packets, w := out, Known();
      var nameIid, newName := InternName(name);
      var catIid, newCat := InternCategory(cat);
      var p := TrackEvent(!cleared, ns, uuid, BodyOf(kind, nameIid, catIid), newName, newCat);
      words := words + {name, cat};
      EmitPacket(p);
      packet := p;
      EventSound(packets, w, kind, uuid, ns, name, cat);
      WaitWider(r, deferred, metadataNames, w.words, words);
    }

    /** Begin and end of one span; together they count as one event. */
    method WriteComplete(c: Call)
      requires Valid() && c.Complete?
      modifies this`out, this`count, this`cleared, this`nameIids, this`nextName, this`catIids, this`nextCat,
               this`defined, this`deferred, this`owners, this`words
      ensures Valid() && count == old(count) + 1 && words == old(words) + WordsOf(r, c)
      ensures Events() == old(Events()) + EventsOf(r, c)
      ensures old(Tracked({})) && IdBounds(c.pid, c.tid) ==>
              Tracked({}) && owners == ClaimedBy(r, old(owners), c)
    {
      hide Building, Sound, WaitsFor, InU64, SeenIn, Uuid, TrackOf, Ns, Bounded, TrackTitles;
      WriteTrackEvent(SliceBegin, r.text(c.name), c.cat, c.tsUs, c.pid, c.tid);
      count := count - 1;
      WriteTrackEvent(SliceEnd, r.text(c.name), c.cat, c.tsUs + c.durUs, c.pid, c.tid);
    }

    /** A name for a process or thread group: kept until the file is finished. */
    method WriteMetadata(c: Call)
      requires Valid() && c.Metadata?
      modifies `defined, `deferred, `owners, `metadataNames, `words
      ensures Valid() && Events() == old(Events()) && words == old(words) + NamingTitles(r, c)
      ensures metadataNames == Renamed(r, old(metadataNames), c)
      ensures old(Tracked({})) && IdBounds(c.pid, c.tid) ==>
              Tracked({}) && owners == ClaimedBy(r, old(owners), c)
    {
      hide Building, Sound, WaitsFor, InU64, SeenIn, Uuid;
      if r.text(c.name) == "process_name" {
        EnsureProcessGroup(c.pid, {});
        Hear({r.title(Given(c.args, c.pid))});
        NameMore(r, deferred, metadataNames, words, Uuid(Process(c.pid)), r.title(Given(c.args, c.pid)));
        metadataNames := metadataNames[Uuid(Process(c.pid)) := r.title(Given(c.args, c.pid))];
      } else if r.text(c.name) == "thread_name" {
        if c.tid >= GIL_TID_OFFSET {
          EnsureProcessGroup(c.pid, {});
        } else {
          EnsureThreadGroup(c.pid, c.tid, {});
          Hear({r.title(Given(c.args, c.tid))});
          NameMore(r, deferred, metadataNames, words, Uuid(ThreadGroup(c.tid)), r.title(Given(c.args, c.tid)));
          metadataNames := metadataNames[Uuid(ThreadGroup(c.tid)) := r.title(Given(c.args, c.tid))];
        }
      }
    }

    /** Any call of the output interface. */
    method WriteCall(c: Call)
      requires Valid()
      modifies this`out, this`count, this`cleared, this`nameIids, this`nextName, this`catIids, this`nextCat,
               this`defined, this`deferred, this`owners, this`words, this`metadataNames
      ensures Valid() && Events() == old(Events()) + EventsOf(r, c)
      ensures words == old(words) + WordsOf(r, c)
      ensures count == old(count) + CallCount(c) && metadataNames == NamesAfter(r, old(metadataNames), c)
      ensures old(Tracked({})) && IdBounds(c.pid, c.tid) ==>
              Tracked({}) && owners == ClaimedBy(r, old(owners), c)
    {
      hide Building, Sound, WaitsFor, InU64, SeenIn, Uuid, TrackOf, Ns, Bounded, Renamed, TrackTitles, NamingTitles;
      match c
      case Complete(_, _, _, _, _, _, _) => WriteComplete(c);
      case Begin(_, _, _, _, _) => WriteTrackEvent(SliceBegin, r.text(c.name), c.cat, c.tsUs, c.pid, c.tid);
      case End(_, _, _, _, _) => WriteTrackEvent(SliceEnd, r.text(c.name), c.cat, c.tsUs, c.pid, c.tid);
      case Instant(_, _, _, _, _, _) => WriteTrackEvent(Mark, r.text(c.name), c.cat, c.tsUs, c.pid, c.tid);
      case Metadata(_, _, _, _) =>
        WriteMetadata(c);
        Nil(Events());
      case Viz(_, _, _, _, _, _, _, _) => WriteVizEvent(c);
    }

    method WriteVizEvent(c: Call)
      requires Valid() && c.Viz?
      modifies this`out, this`count, this`cleared, this`nameIids, this`nextName, this`catIids, this`nextCat,
               this`defined, this`deferred, this`owners, this`words, this`metadataNames
      ensures Valid() && Events() == old(Events()) + EventsOf(r, c)
      ensures words == old(words) + WordsOf(r, c)
      ensures count == old(count) + CallCount(c) && metadataNames == NamesAfter(r, old(metadataNames), c)
      ensures old(Tracked({})) && IdBounds(c.pid, c.tid) ==>
              Tracked({}) && owners == ClaimedBy(r, old(owners), c)
    {
      hide Building, Sound, WaitsFor, InU64, SeenIn, Uuid, TrackOf, Ns, Bounded, Renamed, TrackTitles, NamingTitles;
      if c.ph == 'X' {
        WriteComplete(Complete(c.name, c.cat, c.tsUs, c.durUs, c.pid, c.tid, c.args));
      } else if c.ph == 'B' {
        WriteTrackEvent(SliceBegin, r.text(c.name), c.cat, c.tsUs, c.pid, c.tid);
      } else if c.ph == 'E' {
        WriteTrackEvent(SliceEnd, r.text(c.name), c.cat, c.tsUs, c.pid, c.tid);
      } else if c.ph == 'M' {
        WriteMetadata(Metadata(c.name, c.pid, c.tid, c.args));
        Nil(Events());
      } else {
        WriteTrackEvent(Mark, r.text(c.name), c.cat, c.tsUs, c.pid, c.tid);
      }
    }

    /** The track of a metric, described on first use. */
    method EnsureCounter(metric: string, pid: int) returns (uuid: nat)
      requires Valid()
      modifies `out, `counterTracks, `nextCounter, `defined, `deferred, `words
      ensures Valid() && Events() == old(Events()) && words == old(words) + SampleWords(r, metric, pid)
      ensures counterTracks.Keys == old(counterTracks).Keys + {metric} && counterTracks[metric] == uuid
      ensures old(Tracked({})) && Bounded(Process(pid)) && COUNTER_UUID_BASE + |counterTracks| <= GROUP_UUID_BASE
              ==> Tracked({})
    {
      hide Building, Sound, WaitsFor, SeenIn, Bounded;
      if metric in counterTracks {
        Hear(SampleWords(r, metric, pid));
        uuid := counterTracks[metric];
      } else {
        CountersInRange(out, Known());
        uuid := NewCounter(metric, pid);
      }
    }

    /** Take the next counter track for a metric and describe it. */
    method NewCounter(metric: string, pid: int) returns (uuid: nat)
      requires Valid() && metric !in counterTracks
      modifies `out, `counterTracks, `nextCounter, `defined, `deferred, `words
      ensures Valid() && Events() == old(Events()) && words == old(words) + SampleWords(r, metric, pid)
      ensures counterTracks == old(counterTracks)[metric := uuid]
      ensures old(Tracked({})) && Bounded(Process(pid)) && old(nextCounter) < GROUP_UUID_BASE ==> Tracked({})
    {
      hide Building, Sound, WaitsFor, InU64, SeenIn, Uuid, Bounded;
      uuid := nextCounter;
      EnsureProcessGroup(pid, {});
      ghost var packets, w := out, Known();
      var p := CounterDescriptor(uuid, Uuid(Process(pid)), metric);
      nextCounter := nextCounter + 1;
      counterTracks := counterTracks[metric := uuid];
      words := words + {metric};
      out := out + [p];
      UuidFits(Process(pid));
      CounterSound(packets, w, metric, Uuid(Process(pid)));
      WaitWider(r, deferred, metadataNames, w.words, words);
      CountersInRange(packets, w);
      AddCounter(r, packets, defined, owners, deferred, w.nextCounter, p, pid);
    }

    method WriteCounter(metric: string, tsUs: real, value: real, pid: int)
      requires Valid()
      modifies this`out, this`count, this`cleared, this`counterTracks, this`nextCounter, this`defined, this`deferred,
               this`words
      ensures Valid() && count == old(count) + 1 && words == old(words) + SampleWords(r, metric, pid)
      ensures Events() == old(Events()) + [Counted(metric, Ns(tsUs), r.bits(value))]
      ensures counterTracks.Keys == old(counterTracks).Keys + {metric}
      ensures old(Tracked({})) && Bounded(Process(pid)) && COUNTER_UUID_BASE + |counterTracks| <= GROUP_UUID_BASE
              ==> Tracked({})
    {
      hide Building, Sound, WaitsFor, InU64, SeenIn, Uuid, Ns, OfUuid, Bounded;
      var uuid := EnsureCounter(metric, pid);
      ghost var packets, w := out, Known();
      var p := TrackEvent(!cleared, Ns(tsUs), uuid, ValueOf(r.bits(value)), None, None);
      EmitPacket(p);
      ValueSound(packets, w, metric, Ns(tsUs), r.bits(value));
      SampleOnCounter(r, packets, defined, owners, deferred, w, p, metric);
    }

    /** Write a packet of the sequence. */
    method EmitPacket(p: Packet)
      modifies `out, `count, `cleared
      ensures out == old(out) + [p] && count == old(count) + 1 && cleared
    {
      cleared := true;
      out := out + [p];
      count := count + 1;
    }

    /** Describe the groups, in any order, under the names they have been given. */
    method FlushDeferred()
      requires Valid()
      modifies `out, `deferred, `metadataNames
      ensures Sound(out, Known()) && Events() == old(Events())
      ensures old(Tracked({})) ==> Closed(out) && Presented(r, out, old(metadataNames), owners)
      ensures old(Tracked({})) ==> forall u :: u in old(metadataNames) ==> u in Described(out)
    {
      hide Building, TracksOk, Sound, WaitsFor, InU64, SeenIn, Closed, Presented, ShownAs;
      ghost var ok := Tracked({});
      var left := deferred;
      if ok {
        GroupsWait(r, out, defined, owners, deferred, nextCounter, metadataNames);
      }
      while left != map[]
        invariant Sound(out, Known()) && Events() == old(Events())
        invariant WaitsFor(r, left, metadataNames, words)
        invariant metadataNames == old(metadataNames)
        invariant ok ==> TracksOk(out, {}, defined, owners, left, nextCounter)
        invariant ok ==> Presented(r, out, metadataNames, owners)
        decreases |left|
      {
        NotEmpty(left.Keys);
        var u :| u in left.Keys;
        var name := if u in metadataNames then metadataNames[u] else r.title(left[u].fallback);
        var p := Descriptor(u, left[u].parent, name, 0, true);
        FlushedIsSpelled(r, left, metadataNames, words, u);
        DescriptorSound(out, Known(), p);
        if ok {
          FlushOne(r, out, defined, owners, left, nextCounter, metadataNames, u);
        }
        out := out + [p];
        left := left - {u};
      }
      if ok {
        AllDescribed(out, defined, owners, nextCounter);
      }
      deferred := map[];
      metadataNames := map[];
    }

    /** Finish the file; once is enough. */
    method Finalize()
      requires finalized || Valid()
      modifies `out, `deferred, `metadataNames, `finalized
      ensures finalized && Events() == old(Events())
      ensures if old(finalized) then out == old(out) else Sound(out, Known())
      ensures !old(finalized) && old(Tracked({})) ==>
              && Closed(out) && Presented(r, out, old(metadataNames), owners)
              && forall u :: u in old(metadataNames) ==> u in Described(out)
    {
      hide Building, Sound, WaitsFor, InU64, SeenIn, Closed, Presented, Described;
      if finalized {
        return;
      }
      FlushDeferred();
      finalized := true;
    }
  }

  // ---- whole files ----

  predicate AllBounded(log: seq<Entry>) {
    && (forall e :: e in log ==> IdsBounded(e))
    && |MetricNames(log)| <= GROUP_UUID_BASE - COUNTER_UUID_BASE
  }

  lemma FewerMetrics(log: seq<Entry>, i: nat)
    requires i < |log|
    ensures MetricNames(log[..i + 1]) == MetricNames(log[..i]) + if log[i].Counter? then {log[i].sample.name} else {}
    ensures AllBounded(log) ==>
            IdsBounded(log[i]) && COUNTER_UUID_BASE + |MetricNames(log[..i + 1])| <= GROUP_UUID_BASE
  {
    assert log[..i + 1] == log[..i] + [log[i]];
    var part, whole := MetricNames(log[..i + 1]), MetricNames(log);
    assert part <= whole;
    assert |whole| == |part| + |whole - part| by {
      assert whole == part + (whole - part);
    }
  }

  /** One entry of a log reaches the writer: a sample belongs to process 0. */
  method WriteEntry(w: PerfettoWriter, e: Entry)
    requires w.Valid()
    modifies w
    ensures w.Valid() && w.finalized == old(w.finalized)
    ensures w.Events() == old(w.Events()) + EntryEvents(w.r, e)
    ensures w.count == old(w.count) + EntryCount(e)
    ensures w.metadataNames == EntryNames(w.r, old(w.metadataNames), e)
    ensures w.words == old(w.words) + EntryWords(w.r, e)
    ensures w.counterTracks.Keys == old(w.counterTracks).Keys + if e.Counter? then {e.sample.name} else {}
    ensures old(w.Tracked({})) && IdsBounded(e) && COUNTER_UUID_BASE + |w.counterTracks| <= GROUP_UUID_BASE ==>
            w.Tracked({}) && w.owners == EntryOwners(w.r, old(w.owners), e)
  {
    hide Building, Sound, WaitsFor, SeenIn, Ns, NamesAfter, EventsOf, ClaimedBy, CallCount, WordsOf, SampleWords;
    if e.Counter? {
      w.WriteCounter(e.sample.name, e.sample.tsUs, e.sample.value, 0);
    } else {
      w.WriteCall(e.call);
    }
  }

  /** The file written for a log. A reader recovers every event of it, in order; only
      the first event clears the reader's tables; and when ids are bounded each track is
      described once, before its events, below described parents, each group under the
      last name it was given. */
  method WriteTrace(r: Rendering, log: seq<Entry>) returns (packets: seq<Packet>, written: int)
    ensures Read(packets).Some? && Read(packets).value.seen == Recovered(r, log)
    ensures ClearsOnce(packets)
    ensures written == EventCount(log)
    ensures AllBounded(log) ==> Closed(packets) && Presented(r, packets, NamesGiven(r, log), OwnersIn(r, log))
    ensures AllBounded(log) ==> forall u :: u in NamesGiven(r, log) ==> u in Described(packets)
    ensures forall p :: p in packets ==> SpelledIn(p, WordsIn(r, log))
  {
    hide Building, Sound, WaitsFor, InU64, Read, Ns, Renamed, EventsOf, SampleEvents, AllBounded, MetricNames, Closed,
         Presented, ClearsOnce, Described, Recovered, NamesGiven, OwnersIn, ClaimedBy, EventCount, WordsIn, EntryWords,
         SpelledIn;
    var w := new PerfettoWriter(r);
    NothingWritten(r);
    for i := 0 to |log|
      invariant fresh(w) && w.Valid() && w.r == r && !w.finalized
      invariant w.Events() == Recovered(r, log[..i]) && w.count == EventCount(log[..i])
      invariant w.metadataNames == NamesGiven(r, log[..i])
      invariant w.counterTracks.Keys == MetricNames(log[..i]) && w.words == WordsIn(r, log[..i])
      invariant AllBounded(log) ==> w.Tracked({}) && w.owners == OwnersIn(r, log[..i])
    {
      FewerMetrics(log, i);
      OneMore(r, log, i);
      WriteEntry(w, log[i]);
      assert |w.counterTracks| == |w.counterTracks.Keys|;
    }
    assert log[..|log|] == log;
    w.Finalize();
    packets, written := w.out, w.count;
    SoundMeans(packets, w.Known());
  }
}
