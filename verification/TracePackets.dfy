/** The packets of a Perfetto trace file: the tracks they describe, and what a reader
    recovers from them. */
module TracePackets {
  import opened Seqs
  import opened Events
  import opened Output

  const THREAD_UUID_BASE := 100_000_000
  const SCHED_UUID_BASE := 200_000_000
  const GIL_UUID_BASE := 300_000_000
  const GPU_UUID_BASE := 400_000_000
  const COUNTER_UUID_BASE := 500_000_000
  const GROUP_UUID_BASE := 600_000_000

  // ---- tracks and their uuids ----

  /** The families of tracks; a thread group holds the other tracks of its thread. */
  datatype Track =
    | Process(pid: int)
    | Stacks(tid: int)
    | Sched(tid: int)
    | Gil(tid: int)
    | Gpu(tid: int)
    | CounterTrack(index: nat)
    | ThreadGroup(tid: int)

  function Uuid(t: Track): nat {
    match t
    case Process(pid) => ToU64(pid)
    case Stacks(tid) => ToU64(THREAD_UUID_BASE + tid)
    case Sched(tid) => ToU64(SCHED_UUID_BASE + tid)
    case Gil(tid) => ToU64(GIL_UUID_BASE + tid)
    case Gpu(tid) => ToU64(GPU_UUID_BASE + tid)
    case CounterTrack(index) => COUNTER_UUID_BASE + index
    case ThreadGroup(tid) => ToU64(GROUP_UUID_BASE + tid)
  }

  /** The track that an event's tid stands for. */
  function TrackOf(tid: int): Track {
    if GPU_TID_OFFSET <= tid < GPU_TID_OFFSET + MAX_REAL_TID then Gpu(tid - GPU_TID_OFFSET)
    else if SCHED_TID_OFFSET <= tid < SCHED_TID_OFFSET + MAX_REAL_TID then Sched(tid - SCHED_TID_OFFSET)
    else if GIL_TID_OFFSET <= tid < GIL_TID_OFFSET + MAX_REAL_TID then Gil(tid - GIL_TID_OFFSET)
    else Stacks(tid)
  }

  /** The ids for which the uuid families are laid out. */
  predicate Bounded(t: Track) {
    match t
    case Process(pid) => 0 <= pid < THREAD_UUID_BASE
    case CounterTrack(index) => index < GROUP_UUID_BASE - COUNTER_UUID_BASE
    case _ => 0 <= t.tid < MAX_REAL_TID
  }

  /** The track a uuid stands for, going by the range it falls in. */
  function OfUuid(u: nat): Track {
    if u < THREAD_UUID_BASE then Process(u)
    else if u < SCHED_UUID_BASE then Stacks(u - THREAD_UUID_BASE)
    else if u < GIL_UUID_BASE then Sched(u - SCHED_UUID_BASE)
    else if u < GPU_UUID_BASE then Gil(u - GIL_UUID_BASE)
    else if u < COUNTER_UUID_BASE then Gpu(u - GPU_UUID_BASE)
    else if u < GROUP_UUID_BASE then CounterTrack(u - COUNTER_UUID_BASE)
    else ThreadGroup(u - GROUP_UUID_BASE)
  }

  /** The uuid of a bounded track tells which track it is. */
  lemma UuidRoundTrip(t: Track)
    requires Bounded(t)
    ensures OfUuid(Uuid(t)) == t
  {
    match t
    case Process(pid) => assert Uuid(t) == pid;
    case CounterTrack(index) =>
    case Stacks(tid) => assert Uuid(t) == THREAD_UUID_BASE + tid;
    case Sched(tid) => assert Uuid(t) == SCHED_UUID_BASE + tid;
    case Gil(tid) => assert Uuid(t) == GIL_UUID_BASE + tid;
    case Gpu(tid) => assert Uuid(t) == GPU_UUID_BASE + tid;
    case ThreadGroup(tid) => assert Uuid(t) == GROUP_UUID_BASE + tid;
  }

  /** Families are disjoint and uuids injective within each. */
  lemma UuidsAreDistinct(a: Track, b: Track)
    requires Bounded(a) && Bounded(b)
    ensures Uuid(a) == Uuid(b) <==> a == b
  {
    UuidRoundTrip(a);
    UuidRoundTrip(b);
    hide Uuid, OfUuid;
  }

  /** The offsets that the merge engine adds to a tid are taken off again. */
  lemma OffsetsAreInverted(tid: int)
    requires 0 <= tid < MAX_REAL_TID
    ensures TrackOf(tid) == Stacks(tid)
    ensures TrackOf(SCHED_TID_OFFSET + tid) == Sched(tid)
    ensures TrackOf(GIL_TID_OFFSET + tid) == Gil(tid)
    ensures TrackOf(GPU_TID_OFFSET + tid) == Gpu(tid)
  {
  }

  /** How far below the top of the hierarchy a uuid's family stands. */
  function Depth(uuid: nat): nat {
    match OfUuid(uuid)
    case Process(_) => 0
    case ThreadGroup(_) => 1
    case _ => 2
  }

  // ---- packets ----

  /** The event in a packet; names and categories go by their interned ids. */
  datatype Body =
    | BeginOf(name: nat, cat: nat)
    | EndOf
    | InstantOf(name: nat, cat: nat)
    | ValueOf(bits: u64)

  datatype Packet =
    | Descriptor(uuid: nat, parent: nat, name: string, rank: int, explicit: bool)
    | CounterDescriptor(uuid: nat, parent: nat, name: string)
    | TrackEvent(first: bool, ns: u64, track: nat, body: Body,
                 newName: Option<(nat, string)>, newCat: Option<(nat, string)>)

  // ---- reading events back ----

  /** An event as a reader sees it. */
  datatype Seen =
    | Begun(track: nat, ns: u64, name: string, cat: string)
    | Ended(track: nat, ns: u64)
    | Marked(track: nat, ns: u64, name: string, cat: string)
    | Counted(metric: string, ns: u64, bits: u64)

  datatype Tables = Tables(names: map<nat, string>, cats: map<nat, string>)

  /** A reader: its interning tables, absent until the first packet that clears them,
      the metrics by counter track, and the events so far. */
  datatype Reader = Reader(tables: Option<Tables>, metrics: map<nat, string>, seen: seq<Seen>)

  function Learn(table: map<nat, string>, entry: Option<(nat, string)>): map<nat, string> {
    if entry.Some? then table[entry.value.0 := entry.value.1] else table
  }

  function Resolve(t: Tables, metrics: map<nat, string>, p: Packet): Option<Seen>
    requires p.TrackEvent?
  {
    match p.body
    case BeginOf(n, c) =>
      if n in t.names && c in t.cats then Some(Begun(p.track, p.ns, t.names[n], t.cats[c])) else None
    case InstantOf(n, c) =>
      if n in t.names && c in t.cats then Some(Marked(p.track, p.ns, t.names[n], t.cats[c])) else None
    case EndOf => Some(Ended(p.track, p.ns))
    case ValueOf(bits) =>
      if p.track in metrics then Some(Counted(metrics[p.track], p.ns, bits)) else None
  }

  /** One packet: a clearing packet empties the tables, then its interned data is
      learnt, then its event is resolved. An event that cannot be resolved fails. */
  function ReadPacket(r: Reader, p: Packet): Option<Reader> {
    match p
    case Descriptor(_, _, _, _, _) => Some(r)
    case CounterDescriptor(uuid, _, name) => Some(r.(metrics := r.metrics[uuid := name]))
    case TrackEvent(first, _, _, _, newName, newCat) =>
      var base := if first then Some(Tables(map[], map[])) else r.tables;
      if base.None? then None
      else
        var tables := Tables(Learn(base.value.names, newName), Learn(base.value.cats, newCat));
        var event := Resolve(tables, r.metrics, p);
        if event.None? then None else Some(Reader(Some(tables), r.metrics, r.seen + [event.value]))
  }

  function Read(packets: seq<Packet>): Option<Reader> {
    if packets == [] then Some(Reader(None, map[], []))
    else
      var before := Read(Init(packets));
      if before.None? then None else ReadPacket(before.value, Last(packets))
  }

  /** Whether any event has been written. */
  predicate Started(packets: seq<Packet>) {
    packets != [] && (Last(packets).TrackEvent? || Started(Init(packets)))
  }

  /** Only the first event clears the reader's tables. */
  predicate ClearsOnce(packets: seq<Packet>) {
    packets == [] ||
    (ClearsOnce(Init(packets)) && (Last(packets).TrackEvent? ==> Last(packets).first == !Started(Init(packets))))
  }

  // ---- the track hierarchy ----

  predicate IsDescriptor(p: Packet) {
    p.Descriptor? || p.CounterDescriptor?
  }

  function Described(packets: seq<Packet>): set<nat> {
    if packets == [] then {}
    else Described(Init(packets)) + if IsDescriptor(Last(packets)) then {Last(packets).uuid} else {}
  }

  /** The parents that a reader must find. */
  function Needed(packets: seq<Packet>): set<nat> {
    if packets == [] then {}
    else Needed(Init(packets)) +
         if IsDescriptor(Last(packets)) && Last(packets).parent != 0 then {Last(packets).parent} else {}
  }

  /** Where a track hangs: processes at the top, a thread's tracks below its group,
      groups and counters below a process. */
  predicate Under(uuid: nat, parent: nat) {
    match OfUuid(uuid)
    case Process(_) => parent == 0
    case ThreadGroup(_) => parent < THREAD_UUID_BASE
    case CounterTrack(_) => parent < THREAD_UUID_BASE
    case t => parent == GROUP_UUID_BASE + t.tid
  }

  /** A packet that may follow: a descriptor of a new track in its place,
      or an event on a track already described. */
  predicate Follows(packets: seq<Packet>, p: Packet) {
    if IsDescriptor(p) then p.uuid !in Described(packets) && Under(p.uuid, p.parent)
    else p.track in Described(packets)
  }

  predicate Tidy(packets: seq<Packet>) {
    packets == [] || (Tidy(Init(packets)) && Follows(Init(packets), Last(packets)))
  }

  /** A whole file's tracks: each described once, before its events, and each with
      its parent. */
  predicate Closed(packets: seq<Packet>) {
    Tidy(packets) && Needed(packets) <= Described(packets)
  }

  lemma {:induction false} DescribedMeans(packets: seq<Packet>, u: nat)
    ensures u in Described(packets) <==>
            exists i :: 0 <= i < |packets| && IsDescriptor(packets[i]) && packets[i].uuid == u
  {
    if packets != [] {
      DescribedMeans(Init(packets), u);
      if u in Described(packets) {
        if u !in Described(Init(packets)) {
          assert packets[|packets| - 1].uuid == u;
        } else {
          var i :| 0 <= i < |Init(packets)| && IsDescriptor(Init(packets)[i]) && Init(packets)[i].uuid == u;
          assert packets[i].uuid == u;
        }
      }
      forall i | 0 <= i < |packets| && IsDescriptor(packets[i]) && packets[i].uuid == u
        ensures u in Described(packets)
      {
        if i < |packets| - 1 {
          assert Init(packets)[i] == packets[i];
        }
      }
    }
  }

  lemma {:induction false} TidyPrefix(packets: seq<Packet>, i: nat)
    requires Tidy(packets) && i < |packets|
    ensures Tidy(packets[..i]) && Follows(packets[..i], packets[i])
  {
    if i == |packets| - 1 {
      assert packets[..i] == Init(packets);
    } else {
      TidyPrefix(Init(packets), i);
      assert Init(packets)[..i] == packets[..i];
    }
  }

  /** Every event finds its track's descriptor earlier in the file. */
  lemma EventsFollowTheirTrack(packets: seq<Packet>, i: nat)
    requires Closed(packets) && i < |packets| && packets[i].TrackEvent?
    ensures exists j :: 0 <= j < i && IsDescriptor(packets[j]) && packets[j].uuid == packets[i].track
  {
    TidyPrefix(packets, i);
    DescribedMeans(packets[..i], packets[i].track);
    var j :| 0 <= j < i && IsDescriptor(packets[..i][j]) && packets[..i][j].uuid == packets[i].track;
    assert packets[j].uuid == packets[i].track;
  }

  /** No uuid is described twice. */
  lemma DescribedOnce(packets: seq<Packet>, i: nat, j: nat)
    requires Closed(packets) && i < j < |packets| && IsDescriptor(packets[i]) && IsDescriptor(packets[j])
    ensures packets[i].uuid != packets[j].uuid
  {
    TidyPrefix(packets, j);
    DescribedMeans(packets[..j], packets[i].uuid);
    assert packets[..j][i] == packets[i];
  }

  lemma {:induction false} NeededHas(packets: seq<Packet>, i: nat)
    requires i < |packets| && IsDescriptor(packets[i]) && packets[i].parent != 0
    ensures packets[i].parent in Needed(packets)
  {
    if i < |packets| - 1 {
      NeededHas(Init(packets), i);
    }
  }

  /** Parents are described, and lie strictly higher: the tracks form a forest. */
  lemma ParentsAreDescribed(packets: seq<Packet>, i: nat)
    requires Closed(packets) && i < |packets| && IsDescriptor(packets[i]) && packets[i].parent != 0
    ensures exists j :: 0 <= j < |packets| && IsDescriptor(packets[j]) && packets[j].uuid == packets[i].parent
    ensures Depth(packets[i].parent) < Depth(packets[i].uuid)
  {
    NeededHas(packets, i);
    DescribedMeans(packets, packets[i].parent);
    TidyPrefix(packets, i);
  }

  lemma PacketSnoc(packets: seq<Packet>, p: Packet)
    ensures Read(packets + [p]) == (if Read(packets).None? then None else ReadPacket(Read(packets).value, p))
    ensures Started(packets + [p]) == (Started(packets) || p.TrackEvent?)
    ensures ClearsOnce(packets + [p]) == (ClearsOnce(packets) && (p.TrackEvent? ==> p.first == !Started(packets)))
    ensures Described(packets + [p]) == Described(packets) + if IsDescriptor(p) then {p.uuid} else {}
    ensures Needed(packets + [p]) == Needed(packets) + if IsDescriptor(p) && p.parent != 0 then {p.parent} else {}
    ensures Tidy(packets + [p]) == (Tidy(packets) && Follows(packets, p))
  {
    InitLast(packets, p);
    hide Follows, ReadPacket;
  }

  /** The event that clears is the first one, and there is no other. */
  lemma {:induction false} OnlyTheFirstClears(packets: seq<Packet>, i: nat, j: nat)
    requires ClearsOnce(packets) && i < j < |packets| && packets[i].TrackEvent? && packets[j].TrackEvent?
    ensures !packets[j].first
  {
    if j < |packets| - 1 {
      OnlyTheFirstClears(Init(packets), i, j);
    } else {
      StartedBy(Init(packets), i);
    }
  }

  lemma {:induction false} StartedBy(packets: seq<Packet>, i: nat)
    requires i < |packets| && packets[i].TrackEvent?
    ensures Started(packets)
  {
    if i < |packets| - 1 {
      StartedBy(Init(packets), i);
    }
  }
}
