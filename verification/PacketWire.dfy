/** Packets on the wire: their fields, their bytes, and reading a whole file back. */
module PacketWire {
  import opened Seqs
  import opened Events
  import opened Chunks
  import opened ProtoEncoder
  import opened TracePackets
  import opened PerfettoWriter

  // ---- strings and doubles ----

  function ByteOf(c: char): byte {
    c as int % 256
  }

  function CharOf(b: byte): char {
    b as char
  }

  function Bytes(s: string): seq<byte> {
    Map(ByteOf, s)
  }

  function Text(b: seq<byte>): string {
    Map(CharOf, b)
  }

  /** The source's strings are strings of bytes. */
  predicate IsByteString(s: string) {
    forall i :: 0 <= i < |s| ==> s[i] as int < 256
  }

  lemma TextRoundTrip(s: string)
    requires IsByteString(s)
    ensures Text(Bytes(s)) == s
  {
  }

  /** The low `n` bytes of a word, lowest first. */
  function LittleEndian(v: nat, n: nat): (r: seq<byte>)
    ensures |r| == n
  {
    if n == 0 then [] else [v % 256] + LittleEndian(v / 256, n - 1)
  }

  function FromLittleEndian(b: seq<byte>): nat {
    if b == [] then 0 else b[0] + 256 * FromLittleEndian(b[1..])
  }

  function Pow256(n: nat): nat {
    if n == 0 then 1 else 256 * Pow256(n - 1)
  }

  lemma {:induction false} LittleEndianRoundTrip(v: nat, n: nat)
    requires v < Pow256(n)
    ensures FromLittleEndian(LittleEndian(v, n)) == v
  {
    if n > 0 {
      LittleEndianRoundTrip(v / 256, n - 1);
      assert LittleEndian(v, n)[1..] == LittleEndian(v / 256, n - 1);
    }
  }

  lemma BitsRoundTrip(bits: u64)
    ensures ToU64(FromLittleEndian(LittleEndian(bits, 8))) == bits
  {
    assert Pow256(2) == 0x1_0000;
    assert Pow256(4) == 0x1_0000_0000;
    assert Pow256(6) == 0x1_0000_0000_0000;
    assert Pow256(8) == 0x1_0000_0000_0000_0000;
    LittleEndianRoundTrip(bits, 8);
  }

  // ---- fields of a packet ----

  function When(present: bool, f: Field): seq<Field> {
    if present then [f] else []
  }

  function DescriptorFields(p: Packet): seq<Field>
    requires p.Descriptor?
  {
    [VarintField(1, ToU64(p.uuid))]
    + When(p.parent != 0, VarintField(5, ToU64(p.parent)))
    + When(p.name != "", BytesField(2, Bytes(p.name)))
    + When(p.rank != 0, VarintField(12, ToU64(p.rank)))
    + When(p.explicit, VarintField(11, 3))
  }

  function CounterFields(p: Packet): seq<Field>
    requires p.CounterDescriptor?
  {
    [VarintField(1, ToU64(p.uuid)), VarintField(5, ToU64(p.parent)), BytesField(2, Bytes(p.name)), NestedField(8, [])]
  }

  function TypeOf(body: Body): u64 {
    match body
    case BeginOf(_, _) => 1
    case EndOf => 2
    case InstantOf(_, _) => 3
    case ValueOf(_) => 4
  }

  function EventFields(p: Packet): seq<Field>
    requires p.TrackEvent?
  {
    [VarintField(9, TypeOf(p.body)), VarintField(11, ToU64(p.track))] +
    match p.body
    case BeginOf(n, c) => [VarintField(10, ToU64(n)), VarintField(3, ToU64(c))]
    case InstantOf(n, c) => [VarintField(10, ToU64(n)), VarintField(3, ToU64(c))]
    case EndOf => []
    case ValueOf(bits) => [Fixed64Field(44, LittleEndian(bits, 8))]
  }

  function EntryFields(entry: (nat, string)): seq<Field> {
    [VarintField(1, ToU64(entry.0)), BytesField(2, Bytes(entry.1))]
  }

  function InternedFields(p: Packet): seq<Field>
    requires p.TrackEvent?
  {
    (if p.newName.Some? then [NestedField(2, EntryFields(p.newName.value))] else []) +
    (if p.newCat.Some? then [NestedField(1, EntryFields(p.newCat.value))] else [])
  }

  function PacketFields(p: Packet): seq<Field> {
    match p
    case Descriptor(_, _, _, _, _) => [NestedField(60, DescriptorFields(p))]
    case CounterDescriptor(_, _, _) => [NestedField(60, CounterFields(p))]
    case TrackEvent(first, ns, _, _, _, _) =>
      [VarintField(10, 1), VarintField(13, if first then 1 else 2), VarintField(8, ns),
       NestedField(11, EventFields(p))]
      + When(InternedFields(p) != [], NestedField(12, InternedFields(p)))
  }

  // ---- reading a packet's fields ----

  /** The first field of a number. */
  function Find(fields: seq<Field>, number: nat): Option<Field> {
    if fields == [] then None
    else if fields[0].number == number then Some(fields[0])
    else Find(fields[1..], number)
  }

  function UintAt(fields: seq<Field>, number: nat): u64 {
    match Find(fields, number)
    case Some(VarintField(_, v)) => v
    case _ => 0
  }

  function TextAt(fields: seq<Field>, number: nat): string {
    match Find(fields, number)
    case Some(BytesField(_, b)) => Text(b)
    case _ => ""
  }

  function MessageAt(fields: seq<Field>, number: nat): Option<seq<Field>> {
    match Find(fields, number)
    case Some(NestedField(_, fs)) => Some(fs)
    case _ => None
  }

  function BitsAt(fields: seq<Field>, number: nat): u64 {
    match Find(fields, number)
    case Some(Fixed64Field(_, b)) => ToU64(FromLittleEndian(b))
    case _ => 0
  }

  function BodyFrom(te: seq<Field>): Body {
    if UintAt(te, 9) == 1 then BeginOf(UintAt(te, 10), UintAt(te, 3))
    else if UintAt(te, 9) == 2 then EndOf
    else if UintAt(te, 9) == 3 then InstantOf(UintAt(te, 10), UintAt(te, 3))
    else ValueOf(BitsAt(te, 44))
  }

  function EntryAt(data: Option<seq<Field>>, number: nat): Option<(nat, string)> {
    if data.None? || MessageAt(data.value, number).None? then None
    else
      var entry := MessageAt(data.value, number).value;
      Some((UintAt(entry, 1), TextAt(entry, 2)))
  }

  function DescriptorFrom(td: seq<Field>): Packet {
    if MessageAt(td, 8).Some? then CounterDescriptor(UintAt(td, 1), UintAt(td, 5), TextAt(td, 2))
    else
      var rank := FromTwosComplement(UintAt(td, 12));
      Descriptor(UintAt(td, 1), UintAt(td, 5), TextAt(td, 2), rank, UintAt(td, 11) == 3)
  }

  /** Bit 0 of the flags tells a reader to drop its tables, bit 1 that it needs them. */
  predicate Clears(fields: seq<Field>) {
    UintAt(fields, 13) % 2 == 1
  }

  predicate NeedsState(fields: seq<Field>) {
    UintAt(fields, 13) / 2 % 2 == 1
  }

  /** An event packet without either flag cannot be used. */
  function PacketFrom(fields: seq<Field>): Option<Packet> {
    if MessageAt(fields, 60).Some? then Some(DescriptorFrom(MessageAt(fields, 60).value))
    else if MessageAt(fields, 11).Some? then
      var te, data := MessageAt(fields, 11).value, MessageAt(fields, 12);
      if !Clears(fields) && !NeedsState(fields) then None
      else Some(TrackEvent(Clears(fields), UintAt(fields, 8), UintAt(te, 11), BodyFrom(te),
                      EntryAt(data, 2), EntryAt(data, 1)))
    else None
  }

  lemma {:induction false} FindAppend(a: seq<Field>, b: seq<Field>, number: nat)
    ensures Find(a + b, number) == if Find(a, number).Some? then Find(a, number) else Find(b, number)
  {
    if a == [] {
      assert a + b == b;
    } else {
      FindAppend(a[1..], b, number);
      assert (a + b)[1..] == a[1..] + b;
    }
  }

  lemma FindOne(f: Field, number: nat)
    ensures Find([f], number) == if f.number == number then Some(f) else None
    ensures Find([], number) == None
  {
  }

  lemma FindTwo(f: Field, g: Field, number: nat)
    ensures Find([f, g], number) ==
            if f.number == number then Some(f) else if g.number == number then Some(g) else None
  {
    assert [f, g] == [f] + [g];
    FindAppend([f], [g], number);
    FindOne(f, number);
    FindOne(g, number);
  }

  // ---- packets round trip ----


  predicate EntryOk(entry: Option<(nat, string)>) {
    entry.Some? ==> InU64(entry.value.0) && IsByteString(entry.value.1)
  }

  predicate BodyOk(body: Body) {
    match body
    case BeginOf(n, c) => InU64(n) && InU64(c)
    case InstantOf(n, c) => InU64(n) && InU64(c)
    case _ => true
  }

  /** Numbers are 64-bit and strings are bytes. */
  predicate InRange(p: Packet) {
    match p
    case Descriptor(uuid, parent, name, rank, _) =>
      InU64(uuid) && InU64(parent) && IsByteString(name) && -0x8000_0000_0000_0000 <= rank < 0x8000_0000_0000_0000
    case CounterDescriptor(uuid, parent, name) => InU64(uuid) && InU64(parent) && IsByteString(name)
    case TrackEvent(_, _, track, body, newName, newCat) =>
      InU64(track) && BodyOk(body) && EntryOk(newName) && EntryOk(newCat)
  }

  lemma FindDescriptor(p: Packet, number: nat)
    requires p.Descriptor?
    ensures Find(DescriptorFields(p), number) ==
            if number == 1 then Some(VarintField(1, ToU64(p.uuid)))
            else if number == 5 && p.parent != 0 then Some(VarintField(5, ToU64(p.parent)))
            else if number == 2 && p.name != "" then Some(BytesField(2, Bytes(p.name)))
            else if number == 12 && p.rank != 0 then Some(VarintField(12, ToU64(p.rank)))
            else if number == 11 && p.explicit then Some(VarintField(11, 3))
            else None
  {
    var f1, f5 := VarintField(1, ToU64(p.uuid)), VarintField(5, ToU64(p.parent));
    var f2, f12, f11 := BytesField(2, Bytes(p.name)), VarintField(12, ToU64(p.rank)), VarintField(11, 3);
    FindAppend([f1], When(p.parent != 0, f5), number);
    FindAppend([f1] + When(p.parent != 0, f5), When(p.name != "", f2), number);
    FindAppend([f1] + When(p.parent != 0, f5) + When(p.name != "", f2), When(p.rank != 0, f12), number);
    FindAppend([f1] + When(p.parent != 0, f5) + When(p.name != "", f2) + When(p.rank != 0, f12),
               When(p.explicit, f11), number);
    FindOne(f1, number);
    FindOne(f5, number);
    FindOne(f2, number);
    FindOne(f12, number);
    FindOne(f11, number);
    hide Find, ToU64, Bytes;
  }

  lemma DescriptorRoundTrip(p: Packet)
    requires p.Descriptor? && InRange(p)
    ensures DescriptorFrom(DescriptorFields(p)) == p
  {
    FindDescriptor(p, 1);
    FindDescriptor(p, 2);
    FindDescriptor(p, 5);
    FindDescriptor(p, 8);
    FindDescriptor(p, 11);
    FindDescriptor(p, 12);
    TextRoundTrip(p.name);
    TwosComplementRoundTrip(p.rank);
    hide Find, DescriptorFields, Bytes, Text, ToU64, FromTwosComplement;
    assert FromTwosComplement(0) == 0;
  }

  lemma CounterRoundTrip(p: Packet)
    requires p.CounterDescriptor? && InRange(p)
    ensures DescriptorFrom(CounterFields(p)) == p
  {
    var a, b := VarintField(1, ToU64(p.uuid)), VarintField(5, ToU64(p.parent));
    var c, d := BytesField(2, Bytes(p.name)), NestedField(8, []);
    assert CounterFields(p) == [a, b] + [c, d];
    forall n: nat
      ensures Find(CounterFields(p), n) == if n == 1 then Some(a) else if n == 5 then Some(b)
                                           else if n == 2 then Some(c) else if n == 8 then Some(d) else None
    {
      FindAppend([a, b], [c, d], n);
      FindTwo(a, b, n);
      FindTwo(c, d, n);
    }
    TextRoundTrip(p.name);
    hide Find, CounterFields, Bytes, Text;
  }

  lemma EntryRoundTrip(entry: (nat, string))
    requires InU64(entry.0) && IsByteString(entry.1)
    ensures (UintAt(EntryFields(entry), 1), TextAt(EntryFields(entry), 2)) == entry
  {
    var a, b := VarintField(1, ToU64(entry.0)), BytesField(2, Bytes(entry.1));
    FindTwo(a, b, 1);
    FindTwo(a, b, 2);
    TextRoundTrip(entry.1);
    hide Find, Bytes, Text;
  }

  lemma InternedRoundTrip(p: Packet)
    requires p.TrackEvent? && InRange(p)
    ensures EntryAt(Some(InternedFields(p)), 2) == p.newName && EntryAt(Some(InternedFields(p)), 1) == p.newCat
    ensures InternedFields(p) == [] ==> p.newName == None && p.newCat == None
  {
    var a := if p.newName.Some? then [NestedField(2, EntryFields(p.newName.value))] else [];
    var b := if p.newCat.Some? then [NestedField(1, EntryFields(p.newCat.value))] else [];
    FindAppend(a, b, 1);
    FindAppend(a, b, 2);
    if p.newName.Some? {
      EntryRoundTrip(p.newName.value);
      FindOne(a[0], 1);
      FindOne(a[0], 2);
    }
    if p.newCat.Some? {
      EntryRoundTrip(p.newCat.value);
      FindOne(b[0], 1);
      FindOne(b[0], 2);
    }
    hide UintAt, TextAt, EntryFields;
  }

  lemma EventRoundTrip(p: Packet)
    requires p.TrackEvent? && InRange(p)
    ensures UintAt(EventFields(p), 11) == p.track && BodyFrom(EventFields(p)) == p.body
  {
    var a, b := VarintField(9, TypeOf(p.body)), VarintField(11, ToU64(p.track));
    var tail := EventFields(p)[2..];
    assert EventFields(p) == [a, b] + tail;
    forall n: nat
      ensures Find(EventFields(p), n) == if n == 9 then Some(a) else if n == 11 then Some(b) else Find(tail, n)
    {
      FindAppend([a, b], tail, n);
      FindTwo(a, b, n);
    }
    match p.body
    case BeginOf(n, c) =>
      FindTwo(VarintField(10, ToU64(n)), VarintField(3, ToU64(c)), 10);
      FindTwo(VarintField(10, ToU64(n)), VarintField(3, ToU64(c)), 3);
    case InstantOf(n, c) =>
      FindTwo(VarintField(10, ToU64(n)), VarintField(3, ToU64(c)), 10);
      FindTwo(VarintField(10, ToU64(n)), VarintField(3, ToU64(c)), 3);
    case EndOf =>
    case ValueOf(bits) =>
      FindOne(Fixed64Field(44, LittleEndian(bits, 8)), 44);
      BitsRoundTrip(bits);
  }

  /** A packet's fields determine it. */
  lemma PacketRoundTrip(p: Packet)
    requires InRange(p)
    ensures PacketFrom(PacketFields(p)) == Some(p)
  {
    match p
    case Descriptor(_, _, _, _, _) =>
      FindOne(NestedField(60, DescriptorFields(p)), 60);
      DescriptorRoundTrip(p);
    case CounterDescriptor(_, _, _) =>
      FindOne(NestedField(60, CounterFields(p)), 60);
      CounterRoundTrip(p);
    case TrackEvent(first, ns, _, _, _, _) =>
      EventPacketRoundTrip(p);
  }

  lemma FindInEvent(p: Packet, n: nat)
    requires p.TrackEvent?
    ensures Find(PacketFields(p), n) ==
            if n == 10 then Some(VarintField(10, 1))
            else if n == 13 then Some(VarintField(13, if p.first then 1 else 2))
            else if n == 8 then Some(VarintField(8, p.ns)) else if n == 11 then Some(NestedField(11, EventFields(p)))
            else Find(When(InternedFields(p) != [], NestedField(12, InternedFields(p))), n)
  {
    var a, b := VarintField(10, 1), VarintField(13, if p.first then 1 else 2);
    var c, d := VarintField(8, p.ns), NestedField(11, EventFields(p));
    var tail := When(InternedFields(p) != [], NestedField(12, InternedFields(p)));
    assert PacketFields(p) == ([a, b] + [c, d]) + tail;
    hide PacketFields, EventFields, InternedFields, Find;
    FindAppend([a, b] + [c, d], tail, n);
    FindAppend([a, b], [c, d], n);
    FindTwo(a, b, n);
    FindTwo(c, d, n);
  }

  lemma EventPacketRoundTrip(p: Packet)
    requires p.TrackEvent? && InRange(p)
    ensures PacketFrom(PacketFields(p)) == Some(p)
  {
    FindInEvent(p, 8);
    FindInEvent(p, 11);
    FindInEvent(p, 12);
    FindInEvent(p, 13);
    FindInEvent(p, 60);
    FindOne(NestedField(12, InternedFields(p)), 12);
    FindOne(NestedField(12, InternedFields(p)), 60);
    EventRoundTrip(p);
    InternedRoundTrip(p);
    hide Find, EventFields, InternedFields, BodyFrom, PacketFields, ToU64, InRange;
  }

  // ---- files ----

  const NO_SUBS := Schema(map[])

  const PACKET_SCHEMA :=
    Schema(map[60 := Schema(map[8 := NO_SUBS]), 11 := NO_SUBS, 12 := Schema(map[1 := NO_SUBS, 2 := NO_SUBS])])

  const TRACE_SCHEMA := Schema(map[1 := PACKET_SCHEMA])

  function AsField(p: Packet): Field {
    NestedField(1, PacketFields(p))
  }

  function EncodeFile(packets: seq<Packet>): seq<byte> {
    Encode(Map(AsField, packets))
  }

  function PacketsFrom(fields: seq<Field>): Option<seq<Packet>> {
    if fields == [] then Some([])
    else if !fields[0].NestedField? || fields[0].number != 1 || PacketFrom(fields[0].fields).None? then None
    else if PacketsFrom(fields[1..]).None? then None
    else Some([PacketFrom(fields[0].fields).value] + PacketsFrom(fields[1..]).value)
  }

  function ReadFile(bytes: seq<byte>): Option<seq<Packet>> {
    match ReadMessage(TRACE_SCHEMA, bytes)
    case None => None
    case Some(fields) => PacketsFrom(fields)
  }

  /** A packet that the encoder can write: in range, and of a length that fits. */
  ghost predicate Writable(p: Packet) {
    InRange(p) && FieldFits(AsField(p))
  }

  lemma ConformsNested(schema: Schema, number: nat, fields: seq<Field>)
    requires number in schema.subs && Conforms(schema.subs[number], fields)
    ensures Conforms(schema, [NestedField(number, fields)])
  {
  }

  lemma ConformsAppend(schema: Schema, a: seq<Field>, b: seq<Field>)
    requires Conforms(schema, a) && Conforms(schema, b)
    ensures Conforms(schema, a + b)
  {
  }

  lemma ConformsWhen(schema: Schema, present: bool, f: Field)
    requires present ==> Conforms(schema, [f])
    ensures Conforms(schema, When(present, f))
  {
  }

  lemma DescriptorConforms(p: Packet)
    requires p.Descriptor?
    ensures Conforms(PACKET_SCHEMA.subs[60], DescriptorFields(p))
  {
    var schema := PACKET_SCHEMA.subs[60];
    var f1, f5 := VarintField(1, ToU64(p.uuid)), VarintField(5, ToU64(p.parent));
    var f2, f12, f11 := BytesField(2, Bytes(p.name)), VarintField(12, ToU64(p.rank)), VarintField(11, 3);
    assert Conforms(schema, [f1]) && Conforms(schema, [f5]) && Conforms(schema, [f2]);
    assert Conforms(schema, [f12]) && Conforms(schema, [f11]);
    hide Conforms, Bytes, ToU64;
    var a, b, c, d := When(p.parent != 0, f5), When(p.name != "", f2), When(p.rank != 0, f12), When(p.explicit, f11);
    ConformsWhen(schema, p.parent != 0, f5);
    ConformsWhen(schema, p.name != "", f2);
    ConformsWhen(schema, p.rank != 0, f12);
    ConformsWhen(schema, p.explicit, f11);
    hide When;
    ConformsAppend(schema, [f1], a);
    ConformsAppend(schema, [f1] + a, b);
    ConformsAppend(schema, [f1] + a + b, c);
    ConformsAppend(schema, [f1] + a + b + c, d);
  }

  lemma CounterConforms(p: Packet)
    requires p.CounterDescriptor?
    ensures Conforms(PACKET_SCHEMA.subs[60], CounterFields(p))
  {
    assert Conforms(NO_SUBS, []);
  }

  lemma EventConforms(p: Packet)
    requires p.TrackEvent?
    ensures Conforms(PACKET_SCHEMA.subs[11], EventFields(p))
  {
  }

  lemma EntryConforms(entry: (nat, string))
    ensures Conforms(NO_SUBS, EntryFields(entry))
  {
  }

  lemma InternedConforms(p: Packet)
    requires p.TrackEvent?
    ensures Conforms(PACKET_SCHEMA.subs[12], InternedFields(p))
  {
    var schema := PACKET_SCHEMA.subs[12];
    assert schema.subs[1] == schema.subs[2] == NO_SUBS;
    if p.newName.Some? {
      EntryConforms(p.newName.value);
      ConformsNested(schema, 2, EntryFields(p.newName.value));
    }
    if p.newCat.Some? {
      EntryConforms(p.newCat.value);
      ConformsNested(schema, 1, EntryFields(p.newCat.value));
    }
    assert Conforms(schema, []);
    hide Conforms;
    ConformsAppend(schema, if p.newName.Some? then [NestedField(2, EntryFields(p.newName.value))] else [],
                   if p.newCat.Some? then [NestedField(1, EntryFields(p.newCat.value))] else []);
  }

  lemma EventPacketConforms(p: Packet)
    requires p.TrackEvent?
    ensures Conforms(PACKET_SCHEMA, PacketFields(p))
  {
    var head := [VarintField(10, 1), VarintField(13, if p.first then 1 else 2), VarintField(8, p.ns)];
    var interned := NestedField(12, InternedFields(p));
    assert Conforms(PACKET_SCHEMA, head);
    EventConforms(p);
    InternedConforms(p);
    hide Conforms, EventFields, InternedFields;
    ConformsNested(PACKET_SCHEMA, 11, EventFields(p));
    ConformsNested(PACKET_SCHEMA, 12, InternedFields(p));
    ConformsWhen(PACKET_SCHEMA, InternedFields(p) != [], interned);
    ConformsAppend(PACKET_SCHEMA, head, [NestedField(11, EventFields(p))]);
    ConformsAppend(PACKET_SCHEMA, head + [NestedField(11, EventFields(p))], When(InternedFields(p) != [], interned));
  }

  lemma PacketConforms(p: Packet)
    ensures Conforms(PACKET_SCHEMA, PacketFields(p))
  {
    hide Conforms, DescriptorFields, CounterFields;
    match p
    case Descriptor(_, _, _, _, _) =>
      DescriptorConforms(p);
      ConformsNested(PACKET_SCHEMA, 60, DescriptorFields(p));
    case CounterDescriptor(_, _, _) =>
      CounterConforms(p);
      ConformsNested(PACKET_SCHEMA, 60, CounterFields(p));
    case TrackEvent(_, _, _, _, _, _) =>
      EventPacketConforms(p);
  }

  lemma PacketsFromCons(f: Field, fields: seq<Field>, p: Packet, packets: seq<Packet>)
    requires f.NestedField? && f.number == 1 && PacketFrom(f.fields) == Some(p)
    requires PacketsFrom(fields) == Some(packets)
    ensures PacketsFrom([f] + fields) == Some([p] + packets)
  {
    hide PacketFrom;
    assert ([f] + fields)[1..] == fields;
  }

  lemma {:induction false} PacketsFromFields(packets: seq<Packet>)
    requires forall p :: p in packets ==> InRange(p)
    ensures PacketsFrom(Map(AsField, packets)) == Some(packets)
  {
    if packets == [] {
      assert Map(AsField, packets) == [];
    } else {
      hide InRange, PacketFields, PacketFrom, PacketsFrom;
      var p, rest := packets[0], packets[1..];
      assert forall q :: q in rest ==> q in packets;
      PacketsFromFields(rest);
      PacketRoundTrip(p);
      PacketsFromCons(AsField(p), Map(AsField, rest), p, rest);
      MapCons(AsField, packets);
    }
  }

  lemma FileIsWellFormed(packets: seq<Packet>)
    requires forall p :: p in packets ==> Writable(p)
    ensures Conforms(TRACE_SCHEMA, Map(AsField, packets)) && Fits(Map(AsField, packets))
  {
    hide InRange, FieldFits, PacketFields, Conforms;
    var fields := Map(AsField, packets);
    forall f | f in fields
      ensures FieldFits(f) && f.NestedField? && f.number == 1 && Conforms(PACKET_SCHEMA, f.fields)
    {
      var i :| 0 <= i < |fields| && fields[i] == f;
      assert packets[i] in packets;
      PacketConforms(packets[i]);
    }
    AllConform(fields);
  }

  lemma AllConform(fields: seq<Field>)
    requires forall f :: f in fields ==> f.NestedField? && f.number == 1 && Conforms(PACKET_SCHEMA, f.fields)
    ensures Conforms(TRACE_SCHEMA, fields)
  {
  }

  /** Reading a file's bytes gives back the packets written to it. */
  lemma FileRoundTrip(packets: seq<Packet>)
    requires forall p :: p in packets ==> Writable(p)
    ensures ReadFile(EncodeFile(packets)) == Some(packets)
  {
    hide InRange, FieldFits, PacketFields, Conforms, Fits, Encode, ReadMessage, PacketsFrom;
    FileIsWellFormed(packets);
    MessageRoundTrip(TRACE_SCHEMA, Map(AsField, packets));
    PacketsFromFields(packets);
  }

  // ---- the sequence that a file's events form ----

  ghost predicate NoEventBefore(fields: seq<Field>, i: nat)
    requires i <= |fields|
  {
    forall j :: 0 <= j < i ==> fields[j].NestedField? && MessageAt(fields[j].fields, 11).None?
  }

  /** In the fields of a file, all event packets carry one sequence id, which is not zero.
      The first of them has the flag that clears a reader's tables; the others do not
      have it, and have the flag that says they need the tables. */
  ghost predicate OneSequence(fields: seq<Field>) {
    exists id: u64 :: SequenceOf(fields, id)
  }

  ghost predicate SequenceOf(fields: seq<Field>, id: u64) {
    id != 0 && forall i :: 0 <= i < |fields| ==> fields[i].NestedField? && InSequence(fields, i, id)
  }

  ghost predicate InSequence(fields: seq<Field>, i: nat, id: u64)
    requires i < |fields| && fields[i].NestedField?
  {
    var packet := fields[i].fields;
    MessageAt(packet, 11).Some? ==>
      && UintAt(packet, 10) == id
      && (NoEventBefore(fields, i) ==> UintAt(packet, 13) % 2 == 1)
      && (!NoEventBefore(fields, i) ==> UintAt(packet, 13) % 2 == 0 && UintAt(packet, 13) / 2 % 2 == 1)
  }

  lemma EventsOnWire(p: Packet)
    ensures MessageAt(PacketFields(p), 11).Some? <==> p.TrackEvent?
    ensures p.TrackEvent? ==>
              UintAt(PacketFields(p), 10) == 1 && UintAt(PacketFields(p), 13) == if p.first then 1 else 2
  {
    match p
    case Descriptor(_, _, _, _, _) => FindOne(NestedField(60, DescriptorFields(p)), 11);
    case CounterDescriptor(_, _, _) => FindOne(NestedField(60, CounterFields(p)), 11);
    case TrackEvent(_, _, _, _, _, _) =>
      FindInEvent(p, 10);
      FindInEvent(p, 11);
      FindInEvent(p, 13);
      hide PacketFields, Find;
  }

  /** The first event clears. */
  lemma {:induction false} FirstClears(packets: seq<Packet>, i: nat)
    requires ClearsOnce(packets) && i < |packets| && packets[i].TrackEvent?
    requires forall j :: 0 <= j < i ==> !packets[j].TrackEvent?
    ensures packets[i].first
  {
    if i < |packets| - 1 {
      FirstClears(Init(packets), i);
    } else {
      NotStarted(Init(packets));
    }
  }

  lemma {:induction false} NotStarted(packets: seq<Packet>)
    requires forall p :: p in packets ==> !p.TrackEvent?
    ensures !Started(packets)
  {
    if packets != [] {
      NotStarted(Init(packets));
    }
  }

  lemma PacketInSequence(packets: seq<Packet>, i: nat)
    requires ClearsOnce(packets) && i < |packets|
    ensures InSequence(Map(AsField, packets), i, 1)
  {
    var fields := Map(AsField, packets);
    hide PacketFields, MessageAt, UintAt, ClearsOnce;
    EventsOnWire(packets[i]);
    if packets[i].TrackEvent? {
      forall j | 0 <= j < i
        ensures MessageAt(fields[j].fields, 11).Some? <==> packets[j].TrackEvent?
      {
        EventsOnWire(packets[j]);
      }
      if NoEventBefore(fields, i) {
        FirstClears(packets, i);
      } else {
        var j :| 0 <= j < i && packets[j].TrackEvent?;
        OnlyTheFirstClears(packets, j, i);
      }
    }
  }

  lemma FileIsOneSequence(packets: seq<Packet>)
    requires ClearsOnce(packets)
    ensures OneSequence(Map(AsField, packets))
  {
    var fields, id: u64 := Map(AsField, packets), 1;
    hide InSequence, ClearsOnce, PacketFields;
    forall i | 0 <= i < |fields|
      ensures fields[i].NestedField? && InSequence(fields, i, id)
    {
      PacketInSequence(packets, i);
    }
    assert SequenceOf(fields, id);
  }

  /** And these are the fields that the bytes of the file hold. */
  lemma FileHoldsSequence(packets: seq<Packet>)
    requires ClearsOnce(packets) && forall p :: p in packets ==> Writable(p)
    ensures ReadMessage(TRACE_SCHEMA, EncodeFile(packets)).Some?
    ensures OneSequence(ReadMessage(TRACE_SCHEMA, EncodeFile(packets)).value)
  {
    hide InRange, FieldFits, PacketFields, Conforms, Fits, Encode, ReadMessage, OneSequence, ClearsOnce;
    FileIsWellFormed(packets);
    MessageRoundTrip(TRACE_SCHEMA, Map(AsField, packets));
    FileIsOneSequence(packets);
  }

  // ---- writing ----

  lemma {:induction false} EncodeAppend(a: seq<Field>, b: seq<Field>)
    ensures Encode(a + b) == Encode(a) + Encode(b)
  {
    if a == [] {
      assert a + b == b;
    } else {
      EncodeAppend(a[1..], b);
      assert (a + b)[1..] == a[1..] + b;
      Associate(EncodeField(a[0]), Encode(a[1..]), Encode(b));
    }
  }

  lemma EncodeSnoc(a: seq<Field>, f: Field)
    ensures Encode(a + [f]) == Encode(a) + EncodeField(f)
  {
    EncodeAppend(a, [f]);
    assert Encode([f]) == EncodeField(f) + Encode([]);
    hide Encode, EncodeField;
  }

  /** An encoder holding the given fields. */
  predicate Holds(e: Encoder, fields: seq<Field>)
    reads e
  {
    e.buf == Encode(fields)
  }

  method AppendUint(e: Encoder, ghost fields: seq<Field>, number: nat, value: nat)
    requires Holds(e, fields) && number < 0x1_0000_0000
    modifies e
    ensures Holds(e, fields + [VarintField(number, ToU64(value))])
  {
    hide Encode;
    e.WriteUint64(number, ToU64(value));
    EncodeSnoc(fields, VarintField(number, ToU64(value)));
  }

  method AppendText(e: Encoder, ghost fields: seq<Field>, number: nat, text: string)
    requires Holds(e, fields) && number < 0x1_0000_0000
    modifies e
    ensures Holds(e, fields + [BytesField(number, Bytes(text))])
  {
    hide Encode;
    e.WriteBytes(number, Bytes(text));
    EncodeSnoc(fields, BytesField(number, Bytes(text)));
  }

  method AppendNested(e: Encoder, ghost fields: seq<Field>, number: nat, sub: Encoder, ghost inner: seq<Field>)
    requires Holds(e, fields) && Holds(sub, inner) && sub != e
    requires number < 0x1_0000_0000
    modifies e
    ensures Holds(e, fields + [NestedField(number, inner)])
  {
    hide Encode;
    e.WriteNested(number, sub, inner);
    EncodeSnoc(fields, NestedField(number, inner));
  }

  method EncodeDescriptor(p: Packet) returns (td: Encoder)
    requires p.Descriptor?
    ensures fresh(td) && Holds(td, DescriptorFields(p))
  {
    hide Encode, Bytes, ToU64, EncodeField;
    td := new Encoder();
    EmptyEncoding(td);
    AppendUint(td, [], 1, p.uuid);
    ghost var fields := [VarintField(1, ToU64(p.uuid))];
    Nil(fields);
    if p.parent != 0 {
      AppendUint(td, fields, 5, p.parent);
    }
    fields := fields + When(p.parent != 0, VarintField(5, ToU64(p.parent)));
    Nil(fields);
    if p.name != "" {
      AppendText(td, fields, 2, p.name);
    }
    fields := fields + When(p.name != "", BytesField(2, Bytes(p.name)));
    Nil(fields);
    if p.rank != 0 {
      td.WriteInt64(12, p.rank);
      EncodeSnoc(fields, VarintField(12, ToU64(p.rank)));
    }
    fields := fields + When(p.rank != 0, VarintField(12, ToU64(p.rank)));
    Nil(fields);
    if p.explicit {
      SmallU64(3);
      AppendUint(td, fields, 11, 3);
    }
  }

  method EncodeCounter(p: Packet) returns (td: Encoder)
    requires p.CounterDescriptor?
    ensures fresh(td) && Holds(td, CounterFields(p))
  {
    hide Encode, Bytes, ToU64, EncodeField;
    td := new Encoder();
    EmptyEncoding(td);
    ghost var a, b := VarintField(1, ToU64(p.uuid)), VarintField(5, ToU64(p.parent));
    ghost var c := BytesField(2, Bytes(p.name));
    assert [] + [a] == [a] && [a] + [b] == [a, b] && [a, b] + [c] == [a, b, c];
    assert [a, b, c] + [NestedField(8, [])] == [a, b, c, NestedField(8, [])];
    AppendUint(td, [], 1, p.uuid);
    AppendUint(td, [a], 5, p.parent);
    AppendText(td, [a, b], 2, p.name);
    var counter := new Encoder();
    EmptyEncoding(counter);
    AppendNested(td, [a, b, c], 8, counter, []);
  }

  /** The loop that writes the eight bytes of a double. */
  method WriteBits(e: Encoder, bits: u64)
    modifies e
    ensures e.buf == old(e.buf) + LittleEndian(bits, 8)
  {
    var v: nat := bits;
    for i := 0 to 8
      invariant e.buf + LittleEndian(v, 8 - i) == old(e.buf) + LittleEndian(bits, 8)
    {
      Associate(e.buf, [v % 256], LittleEndian(v / 256, 7 - i));
      e.buf := e.buf + [v % 256];
      v := v / 256;
    }
    Nil(e.buf);
  }

  method EncodeEvent(p: Packet) returns (te: Encoder)
    requires p.TrackEvent?
    ensures fresh(te) && Holds(te, EventFields(p))
  {
    hide Encode, ToU64, LittleEndian, EncodeField;
    te := new Encoder();
    EmptyEncoding(te);
    ghost var a, b := VarintField(9, TypeOf(p.body)), VarintField(11, ToU64(p.track));
    assert [] + [a] == [a] && [a] + [b] == [a, b];
    SmallU64(TypeOf(p.body));
    AppendUint(te, [], 9, TypeOf(p.body));
    AppendUint(te, [a], 11, p.track);
    match p.body {
      case BeginOf(n, c) =>
        AppendIids(te, [a, b], n, c);
      case InstantOf(n, c) =>
        AppendIids(te, [a, b], n, c);
      case EndOf =>
        Nil([a, b]);
      case ValueOf(bits) =>
        AppendBits(te, [a, b], bits);
    }
  }

  method AppendIids(te: Encoder, ghost fields: seq<Field>, name: nat, cat: nat)
    requires Holds(te, fields)
    modifies te
    ensures Holds(te, fields + [VarintField(10, ToU64(name)), VarintField(3, ToU64(cat))])
  {
    hide Encode, ToU64;
    AppendUint(te, fields, 10, name);
    AppendUint(te, fields + [VarintField(10, ToU64(name))], 3, cat);
    assert fields + [VarintField(10, ToU64(name))] + [VarintField(3, ToU64(cat))]
        == fields + [VarintField(10, ToU64(name)), VarintField(3, ToU64(cat))];
  }

  method AppendBits(te: Encoder, ghost fields: seq<Field>, bits: u64)
    requires Holds(te, fields)
    modifies te
    ensures Holds(te, fields + [Fixed64Field(44, LittleEndian(bits, 8))])
  {
    hide Encode, LittleEndian;
    te.WriteTag(44, 1);
    WriteBits(te, bits);
    Associate(Encode(fields), Varint(Tag(44, 1)), LittleEndian(bits, 8));
    EncodeSnoc(fields, Fixed64Field(44, LittleEndian(bits, 8)));
  }

  method AppendEntry(e: Encoder, ghost fields: seq<Field>, number: nat, entry: (nat, string))
    requires Holds(e, fields) && number < 0x1_0000_0000
    modifies e
    ensures Holds(e, fields + [NestedField(number, EntryFields(entry))])
  {
    hide Encode, ToU64, Bytes;
    var sub := new Encoder();
    EmptyEncoding(sub);
    ghost var a, b := VarintField(1, ToU64(entry.0)), BytesField(2, Bytes(entry.1));
    assert [] + [a] == [a] && [a] + [b] == [a, b];
    AppendUint(sub, [], 1, entry.0);
    AppendText(sub, [a], 2, entry.1);
    AppendNested(e, fields, number, sub, [a, b]);
  }

  /** The strings that a packet defines, if any. */
  method EncodeInterned(p: Packet) returns (interned: Encoder)
    requires p.TrackEvent?
    ensures fresh(interned) && Holds(interned, InternedFields(p))
  {
    hide Encode, EntryFields;
    interned := new Encoder();
    EmptyEncoding(interned);
    ghost var names := if p.newName.Some? then [NestedField(2, EntryFields(p.newName.value))] else [];
    Nil(names);
    if p.newName.Some? {
      AppendEntry(interned, [], 2, p.newName.value);
    }
    if p.newCat.Some? {
      AppendEntry(interned, names, 1, p.newCat.value);
    }
  }

  lemma EmptyEncoding(e: Encoder)
    requires e.buf == []
    ensures Holds(e, [])
  {
  }

  lemma SmallU64(n: nat)
    requires InU64(n)
    ensures ToU64(n) == n
  {
  }

  /** A packet's bytes, built from one encoder per submessage. */
  method EncodePacket(p: Packet) returns (packet: Encoder)
    ensures fresh(packet) && Holds(packet, PacketFields(p))
  {
    hide Encode, DescriptorFields, CounterFields, EventFields, InternedFields;
    packet := new Encoder();
    EmptyEncoding(packet);
    Nil(PacketFields(p));
    if p.TrackEvent? {
      EncodeEventPacket(p, packet);
    } else if p.Descriptor? {
      var td := EncodeDescriptor(p);
      AppendNested(packet, [], 60, td, DescriptorFields(p));
    } else {
      var td := EncodeCounter(p);
      AppendNested(packet, [], 60, td, CounterFields(p));
    }
  }

  method EncodeEventPacket(p: Packet, packet: Encoder)
    requires p.TrackEvent? && Holds(packet, [])
    modifies packet
    ensures Holds(packet, PacketFields(p))
  {
    hide Encode, EventFields, InternedFields, ToU64;
    ghost var a, b := VarintField(10, 1), VarintField(13, if p.first then 1 else 2);
    ghost var c, d := VarintField(8, p.ns), NestedField(11, EventFields(p));
    assert [] + [a] == [a] && [a] + [b] == [a, b] && [a, b] + [c] == [a, b, c];
    assert [a, b, c] + [d] == [a, b, c, d];
    SmallU64(1);
    SmallU64(2);
    SmallU64(p.ns);
    AppendUint(packet, [], 10, 1);
    AppendUint(packet, [a], 13, if p.first then 1 else 2);
    AppendUint(packet, [a, b], 8, p.ns);
    var te := EncodeEvent(p);
    AppendNested(packet, [a, b, c], 11, te, EventFields(p));
    var interned := EncodeInterned(p);
    Nil([a, b, c, d]);
    NothingEncodesToNothing(InternedFields(p));
    if |interned.buf| > 0 {
      AppendNested(packet, [a, b, c, d], 12, interned, InternedFields(p));
    }
  }

  lemma NothingEncodesToNothing(fields: seq<Field>)
    ensures Encode(fields) == [] <==> fields == []
  {
    if fields != [] {
      NotEmptyEncoding(fields[0]);
    }
  }

  /** One packet as the file writer wraps it. */
  method WrapPacket(p: Packet) returns (bytes: seq<byte>)
    ensures bytes == EncodeField(AsField(p))
  {
    hide Encode, EncodeField, PacketFields;
    var packet := EncodePacket(p);
    var wrapper := new Encoder();
    wrapper.WriteNested(1, packet, PacketFields(p));
    bytes := wrapper.buf;
    Nil(EncodeField(AsField(p)));
  }

  /** The bytes of a file: each packet as field 1. */
  method WriteFile(packets: seq<Packet>) returns (file: seq<byte>)
    ensures file == EncodeFile(packets)
  {
    hide Encode, EncodeField, PacketFields;
    file := [];
    NothingEncodesToNothing([]);
    for i := 0 to |packets|
      invariant file == Encode(Map(AsField, packets[..i]))
    {
      var bytes := WrapPacket(packets[i]);
      EncodeSnoc(Map(AsField, packets[..i]), AsField(packets[i]));
      assert Map(AsField, packets[..i + 1]) == Map(AsField, packets[..i]) + [AsField(packets[i])];
      file := file + bytes;
    }
    assert packets[..|packets|] == packets;
  }

  /** What a reader recovers from the bytes of a file. */
  function ReadEvents(file: seq<byte>): Option<seq<Seen>> {
    if ReadFile(file).None? || Read(ReadFile(file).value).None? then None
    else Some(Read(ReadFile(file).value).value.seen)
  }

  // ---- every packet of a log can be written ----

  /** The fields can be written, in at most `n` bytes. */
  ghost predicate Within(fields: seq<Field>, n: nat) {
    Fits(fields) && |Encode(fields)| <= n
  }

  lemma VarintAtMostTen(v: u64)
    ensures |Varint(v)| <= 10
  {
    TenGroupsSuffice(v);
    VarintLength(v, 10);
  }

  lemma WithinOne(f: Field, n: nat)
    requires FieldFits(f) && |EncodeField(f)| <= n
    ensures Within([f], n)
  {
    hide EncodeField, FieldFits;
    EncodeSnoc([], f);
    NothingEncodesToNothing([]);
    assert [] + [f] == [f];
  }

  lemma WithinAppend(a: seq<Field>, m: nat, b: seq<Field>, n: nat)
    requires Within(a, m) && Within(b, n)
    ensures Within(a + b, m + n)
  {
    hide Encode, FieldFits;
    EncodeAppend(a, b);
  }

  lemma UintWithin(number: nat, value: u64)
    requires number < 0x1_0000_0000
    ensures Within([VarintField(number, value)], 20)
  {
    VarintAtMostTen(Tag(number, 0));
    VarintAtMostTen(value);
    hide Varint;
    WithinOne(VarintField(number, value), 20);
  }

  lemma BytesWithin(number: nat, b: seq<byte>)
    requires number < 0x1_0000_0000 && |b| < 0x1_0000_0000_0000_0000
    ensures Within([BytesField(number, b)], 20 + |b|)
  {
    VarintAtMostTen(Tag(number, 2));
    VarintAtMostTen(Length(b));
    hide Varint;
    WithinOne(BytesField(number, b), 20 + |b|);
  }

  lemma FixedWithin(number: nat, b: seq<byte>)
    requires number < 0x1_0000_0000 && |b| == 8
    ensures Within([Fixed64Field(number, b)], 20)
  {
    VarintAtMostTen(Tag(number, 1));
    hide Varint;
    WithinOne(Fixed64Field(number, b), 20);
  }

  lemma NestedWithin(number: nat, fields: seq<Field>, n: nat)
    requires number < 0x1_0000_0000 && Within(fields, n) && n < 0x1_0000_0000_0000_0000
    ensures Within([NestedField(number, fields)], 20 + n)
  {
    VarintAtMostTen(Tag(number, 2));
    VarintAtMostTen(Length(Encode(fields)));
    hide Varint, Encode;
    WithinOne(NestedField(number, fields), 20 + n);
  }

  lemma WhenWithin(present: bool, f: Field, n: nat)
    requires Within([f], n)
    ensures Within(When(present, f), n)
  {
    NothingEncodesToNothing([]);
  }

  /** A string of bytes, short enough for several to fit one packet. */
  predicate Short(s: string) {
    IsByteString(s) && |s| < 0x1000_0000_0000_0000
  }

  lemma DescriptorWithin(p: Packet)
    requires p.Descriptor? && Short(p.name)
    ensures Within(DescriptorFields(p), 100 + |p.name|)
  {
    var f1, f5 := VarintField(1, ToU64(p.uuid)), VarintField(5, ToU64(p.parent));
    var f2, f12, f11 := BytesField(2, Bytes(p.name)), VarintField(12, ToU64(p.rank)), VarintField(11, 3);
    hide Within, Bytes, ToU64;
    UintWithin(1, ToU64(p.uuid));
    UintWithin(5, ToU64(p.parent));
    BytesWithin(2, Bytes(p.name));
    UintWithin(12, ToU64(p.rank));
    UintWithin(11, 3);
    WhenWithin(p.parent != 0, f5, 20);
    WhenWithin(p.name != "", f2, 20 + |p.name|);
    WhenWithin(p.rank != 0, f12, 20);
    WhenWithin(p.explicit, f11, 20);
    var a, b, c, d := When(p.parent != 0, f5), When(p.name != "", f2), When(p.rank != 0, f12), When(p.explicit, f11);
    hide When;
    WithinAppend([f1], 20, a, 20);
    WithinAppend([f1] + a, 40, b, 20 + |p.name|);
    WithinAppend([f1] + a + b, 60 + |p.name|, c, 20);
    WithinAppend([f1] + a + b + c, 80 + |p.name|, d, 20);
  }

  lemma CounterWithin(p: Packet)
    requires p.CounterDescriptor? && Short(p.name)
    ensures Within(CounterFields(p), 80 + |p.name|)
  {
    var a, b := VarintField(1, ToU64(p.uuid)), VarintField(5, ToU64(p.parent));
    var c, d := BytesField(2, Bytes(p.name)), NestedField(8, []);
    NothingEncodesToNothing([]);
    assert Within([], 0);
    hide Within, Bytes, ToU64;
    UintWithin(1, ToU64(p.uuid));
    UintWithin(5, ToU64(p.parent));
    BytesWithin(2, Bytes(p.name));
    NestedWithin(8, [], 0);
    WithinAppend([a], 20, [b], 20);
    WithinAppend([a] + [b], 40, [c], 20 + |p.name|);
    WithinAppend([a] + [b] + [c], 60 + |p.name|, [d], 20);
    assert CounterFields(p) == [a] + [b] + [c] + [d];
  }

  lemma EventWithin(p: Packet)
    requires p.TrackEvent?
    ensures Within(EventFields(p), 80)
  {
    var a, b := VarintField(9, TypeOf(p.body)), VarintField(11, ToU64(p.track));
    NothingEncodesToNothing([]);
    assert Within([], 40);
    hide Within, ToU64;
    UintWithin(9, TypeOf(p.body));
    UintWithin(11, ToU64(p.track));
    WithinAppend([a], 20, [b], 20);
    assert [a] + [b] == [a, b];
    match p.body
    case BeginOf(n, c) => IidsWithin([a, b], n, c);
    case InstantOf(n, c) => IidsWithin([a, b], n, c);
    case EndOf => WithinAppend([a, b], 40, [], 40);
    case ValueOf(bits) =>
      FixedWithin(44, LittleEndian(bits, 8));
      WithinMore([Fixed64Field(44, LittleEndian(bits, 8))], 20, 40);
      WithinAppend([a, b], 40, [Fixed64Field(44, LittleEndian(bits, 8))], 40);
  }

  lemma WithinMore(fields: seq<Field>, m: nat, n: nat)
    requires Within(fields, m) && m <= n
    ensures Within(fields, n)
  {
  }

  lemma IidsWithin(fields: seq<Field>, name: nat, cat: nat)
    requires Within(fields, 40)
    ensures Within(fields + [VarintField(10, ToU64(name)), VarintField(3, ToU64(cat))], 80)
  {
    var a, b := VarintField(10, ToU64(name)), VarintField(3, ToU64(cat));
    hide Within, ToU64;
    UintWithin(10, ToU64(name));
    UintWithin(3, ToU64(cat));
    WithinAppend([a], 20, [b], 20);
    assert [a] + [b] == [a, b];
    WithinAppend(fields, 40, [a, b], 40);
  }

  lemma EntryWithin(number: nat, entry: Option<(nat, string)>)
    requires number < 100 && (entry.Some? ==> Short(entry.value.1))
    ensures var fields := if entry.Some? then [NestedField(number, EntryFields(entry.value))] else [];
            Within(fields, 0x1000_0000_0000_0100)
  {
    if entry.None? {
      NothingEncodesToNothing([]);
    } else {
      var a, b := VarintField(1, ToU64(entry.value.0)), BytesField(2, Bytes(entry.value.1));
      hide Within, ToU64, Bytes;
      UintWithin(1, ToU64(entry.value.0));
      BytesWithin(2, Bytes(entry.value.1));
      var n := |entry.value.1|;
      WithinAppend([a], 20, [b], 20 + n);
      assert [a] + [b] == [a, b];
      NestedWithin(number, [a, b], 40 + n);
      WithinMore([NestedField(number, [a, b])], 60 + n, 0x1000_0000_0000_0100);
    }
  }

  /** The strings in a packet are short. */
  predicate SpelledShort(p: Packet) {
    match p
    case Descriptor(_, _, name, _, _) => Short(name)
    case CounterDescriptor(_, _, name) => Short(name)
    case TrackEvent(_, _, _, _, newName, newCat) =>
      (newName.Some? ==> Short(newName.value.1)) && (newCat.Some? ==> Short(newCat.value.1))
  }

  lemma PacketWithin(p: Packet)
    requires SpelledShort(p)
    ensures Within(PacketFields(p), 0x4000_0000_0000_0000)
  {
    match p
    case Descriptor(_, _, name, _, _) =>
      DescriptorWithin(p);
      hide Within, DescriptorFields;
      NestedWithin(60, DescriptorFields(p), 100 + |name|);
      WithinMore(PacketFields(p), 120 + |name|, 0x4000_0000_0000_0000);
    case CounterDescriptor(_, _, name) =>
      CounterWithin(p);
      hide Within, CounterFields;
      NestedWithin(60, CounterFields(p), 80 + |name|);
      WithinMore(PacketFields(p), 100 + |name|, 0x4000_0000_0000_0000);
    case TrackEvent(first, ns, _, _, newName, newCat) =>
      EventPacketWithin(p);
  }

  lemma EventPacketWithin(p: Packet)
    requires p.TrackEvent? && SpelledShort(p)
    ensures Within(PacketFields(p), 0x4000_0000_0000_0000)
  {
    EntryWithin(2, p.newName);
    EntryWithin(1, p.newCat);
    EventWithin(p);
    var a, b := VarintField(10, 1), VarintField(13, if p.first then 1 else 2);
    var c, d := VarintField(8, p.ns), NestedField(11, EventFields(p));
    hide Within, EventFields, EntryFields;
    var names := if p.newName.Some? then [NestedField(2, EntryFields(p.newName.value))] else [];
    var cats := if p.newCat.Some? then [NestedField(1, EntryFields(p.newCat.value))] else [];
    WithinAppend(names, 0x1000_0000_0000_0100, cats, 0x1000_0000_0000_0100);
    NestedWithin(12, InternedFields(p), 0x2000_0000_0000_0200);
    WhenWithin(InternedFields(p) != [], NestedField(12, InternedFields(p)), 0x2000_0000_0000_0214);
    UintWithin(10, 1);
    UintWithin(13, if p.first then 1 else 2);
    UintWithin(8, p.ns);
    NestedWithin(11, EventFields(p), 80);
    var tail := When(InternedFields(p) != [], NestedField(12, InternedFields(p)));
    WithinAppend([a], 20, [b], 20);
    WithinAppend([a] + [b], 40, [c], 20);
    WithinAppend([a] + [b] + [c], 60, [d], 100);
    WithinAppend([a] + [b] + [c] + [d], 160, tail, 0x2000_0000_0000_0214);
    assert PacketFields(p) == [a] + [b] + [c] + [d] + tail;
    WithinMore(PacketFields(p), 160 + 0x2000_0000_0000_0214, 0x4000_0000_0000_0000);
  }

  /** What a caller has to see to: the strings that the log brings up, titles included,
      are short strings of bytes, and not astronomically many. */
  predicate CanBeSpelled(r: Rendering, log: seq<Entry>) {
    && (forall s :: s in WordsIn(r, log) ==> Short(s))
    && |WordsIn(r, log)| < 0x2000_0000_0000_0000
  }

  /** A log that is not astronomically long cannot bring up too many. */
  lemma ShortWordsSuffice(r: Rendering, log: seq<Entry>)
    requires |log| < 0x400_0000_0000_0000
    ensures CanBeSpelled(r, log) <==> forall s :: s in WordsIn(r, log) ==> Short(s)
  {
    FewWords(r, log);
  }

  lemma SpelledIsWritable(p: Packet, words: set<string>)
    requires SpelledIn(p, words) && |words| < 0x2000_0000_0000_0000
    requires forall s :: s in words ==> Short(s)
    ensures Writable(p)
  {
    assert SpelledShort(p) && InRange(p);
    hide SpelledIn, InRange, SpelledShort;
    PacketWithin(p);
    PacketFits(p);
  }

  lemma PacketFits(p: Packet)
    requires Within(PacketFields(p), 0x4000_0000_0000_0000)
    ensures FieldFits(AsField(p))
  {
    hide PacketFields, Encode;
  }

  lemma LogIsWritable(r: Rendering, log: seq<Entry>, packets: seq<Packet>)
    requires CanBeSpelled(r, log) && forall p :: p in packets ==> SpelledIn(p, WordsIn(r, log))
    ensures forall p :: p in packets ==> Writable(p)
  {
    hide SpelledIn, Writable, WordsIn;
    forall p | p in packets
      ensures Writable(p)
    {
      SpelledIsWritable(p, WordsIn(r, log));
    }
  }

  /** What a file is to a reader. Every event of a log that can be spelled is recovered
      from its bytes, in one sequence of which only the first event clears the reader's
      tables; when ids are bounded, each track is described once, before its events, in
      its place in the hierarchy, and shown under the last name given to it. */
  ghost predicate IsTraceOf(r: Rendering, log: seq<Entry>, packets: seq<Packet>, file: seq<byte>) {
    && ClearsOnce(packets) && file == EncodeFile(packets)
    && (AllBounded(log) ==>
          && Closed(packets) && Presented(r, packets, NamesGiven(r, log), OwnersIn(r, log))
          && forall u :: u in NamesGiven(r, log) ==> u in Described(packets))
    && (CanBeSpelled(r, log) ==>
          && ReadFile(file) == Some(packets) && ReadEvents(file) == Some(Recovered(r, log))
          && ReadMessage(TRACE_SCHEMA, file).Some? && OneSequence(ReadMessage(TRACE_SCHEMA, file).value))
  }

  method WriteTraceFile(r: Rendering, log: seq<Entry>) returns (packets: seq<Packet>, file: seq<byte>)
    ensures IsTraceOf(r, log, packets, file)
  {
    hide Writable, ReadFile, EncodeFile, ClearsOnce, AllBounded, Closed, Presented, NamesGiven, OwnersIn,
         Recovered, Read, Described, CanBeSpelled, SpelledIn, WordsIn, ReadMessage, OneSequence;
    var written;
    packets, written := WriteTrace(r, log);
    file := WriteFile(packets);
    if CanBeSpelled(r, log) {
      LogIsWritable(r, log, packets);
      FileRoundTrip(packets);
      FileHoldsSequence(packets);
    }
  }
}
