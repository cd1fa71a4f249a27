/** Packets of each kind, to the byte: the field numbers, wire types and constants of
    Perfetto's trace packets, written out. */
module WireExamples {
  import opened Seqs
  import opened Events
  import opened ProtoEncoder
  import opened TracePackets
  import opened PacketWire

  // ---- numbers and fields ----

  lemma OneByte(v: nat)
    requires v < 128
    ensures Varint(v) == [v]
  {
  }

  lemma MoreBytes(v: nat)
    requires v >= 128
    ensures Varint(v) == [v % 128 + 128] + Varint(v / 128)
  {
  }

  lemma TwoBytes(v: nat)
    requires 128 <= v < 16384
    ensures Varint(v) == [v % 128 + 128, v / 128]
  {
    MoreBytes(v);
    OneByte(v / 128);
  }

  lemma FiveBytes(v: nat)
    requires 0x1000_0000 <= v < 0x8_0000_0000
    ensures Varint(v) == [v % 128 + 128, v / 128 % 128 + 128, v / 16384 % 128 + 128, v / 2097152 % 128 + 128,
                          v / 268435456]
  {
    MoreBytes(v);
    MoreBytes(v / 128);
    MoreBytes(v / 128 / 128);
    MoreBytes(v / 128 / 128 / 128);
    OneByte(v / 128 / 128 / 128 / 128);
    hide Varint;
    assert v / 128 / 128 == v / 16384 && v / 128 / 128 / 128 == v / 2097152;
    assert v / 128 / 128 / 128 / 128 == v / 268435456;
  }

  /** The file is its packets' fields, each a tag, a length and its bytes. */
  lemma Then(f: Field, rest: seq<Field>, head: seq<byte>, tail: seq<byte>)
    requires EncodeField(f) == head && Encode(rest) == tail
    ensures Encode([f] + rest) == head + tail
  {
    assert ([f] + rest)[1..] == rest;
  }

  lemma Ends()
    ensures Encode([]) == []
  {
  }

  lemma Small(n: nat, v: u64)
    requires n < 16 && v < 128
    ensures EncodeField(VarintField(n, v)) == [n * 8, v]
  {
    OneByte(Tag(n, 0));
    OneByte(v);
  }

  lemma Medium(n: nat, v: u64)
    requires n < 16 && 128 <= v < 16384
    ensures EncodeField(VarintField(n, v)) == [n * 8, v % 128 + 128, v / 128]
  {
    OneByte(Tag(n, 0));
    TwoBytes(v);
  }

  lemma Nested(n: nat, fields: seq<Field>, b: seq<byte>)
    requires n < 16 && Encode(fields) == b && |b| < 128
    ensures EncodeField(NestedField(n, fields)) == [n * 8 + 2, |b|] + b
  {
    OneByte(Tag(n, 2));
    OneByte(|b|);
    hide Encode, Varint;
  }

  lemma Large(n: nat, v: u64, b: seq<byte>)
    requires n < 16 && 0x1000_0000 <= v < 0x8_0000_0000
    requires b == [v % 128 + 128, v / 128 % 128 + 128, v / 16384 % 128 + 128, v / 2097152 % 128 + 128, v / 268435456]
    ensures EncodeField(VarintField(n, v)) == [n * 8] + b
  {
    OneByte(Tag(n, 0));
    FiveBytes(v);
    hide Varint;
  }

  lemma Chars(n: nat, s: string, b: seq<byte>)
    requires n < 16 && Bytes(s) == b && |b| < 128
    ensures EncodeField(BytesField(n, Bytes(s))) == [n * 8 + 2, |b|] + b
  {
    OneByte(Tag(n, 2));
    OneByte(|b|);
    hide Varint, Bytes;
  }

  /** The uuids of thread 8's GIL track and group, and of the first metric. */
  lemma ExampleTracks(n: nat)
    requires n < 16
    ensures EncodeField(VarintField(n, 300_000_008)) == [n * 8, 136, 198, 134, 143, 1]
    ensures EncodeField(VarintField(n, 600_000_008)) == [n * 8, 136, 140, 141, 158, 2]
    ensures EncodeField(VarintField(n, 500_000_000)) == [n * 8, 128, 202, 181, 238, 1]
  {
    hide EncodeField;
    Large(n, 300_000_008, [136, 198, 134, 143, 1]);
    Large(n, 600_000_008, [136, 140, 141, 158, 2]);
    Large(n, 500_000_000, [128, 202, 181, 238, 1]);
  }

  lemma FileOfOne(p: Packet, b: seq<byte>)
    requires Encode(PacketFields(p)) == b && |b| < 128
    ensures EncodeFile([p]) == [10, |b|] + b
  {
    hide Encode, PacketFields, EncodeField;
    Nested(1, PacketFields(p), b);
    Ends();
    assert Map(AsField, [p]) == [AsField(p)] + [];
    Then(AsField(p), [], [10, |b|] + b, []);
  }

  // ---- messages ----

  lemma Only(f: Field, b: seq<byte>)
    requires EncodeField(f) == b
    ensures Encode([f]) == b
  {
    assert [f] + [] == [f];
    Ends();
    Then(f, [], b, []);
  }

  lemma Two(a: Field, b: Field, x: seq<byte>, y: seq<byte>)
    requires EncodeField(a) == x && EncodeField(b) == y
    ensures Encode([a, b]) == x + y
  {
    hide Encode, EncodeField;
    Only(b, y);
    assert [a] + [b] == [a, b];
    Then(a, [b], x, y);
  }

  lemma Three(a: Field, b: Field, c: Field, x: seq<byte>, y: seq<byte>, z: seq<byte>)
    requires EncodeField(a) == x && EncodeField(b) == y && EncodeField(c) == z
    ensures Encode([a, b, c]) == x + (y + z)
  {
    hide Encode, EncodeField;
    Two(b, c, y, z);
    assert [a] + [b, c] == [a, b, c];
    Then(a, [b, c], x, y + z);
  }

  lemma Four(a: Field, b: Field, c: Field, d: Field, x: seq<byte>, y: seq<byte>, z: seq<byte>, w: seq<byte>)
    requires EncodeField(a) == x && EncodeField(b) == y && EncodeField(c) == z && EncodeField(d) == w
    ensures Encode([a, b, c, d]) == x + (y + (z + w))
  {
    hide Encode, EncodeField;
    Three(b, c, d, y, z, w);
    assert [a] + [b, c, d] == [a, b, c, d];
    Then(a, [b, c, d], x, y + (z + w));
  }

  // ---- event packets ----

  /** Type 2 ends a slice, and names nothing. */
  lemma EndEvent()
    ensures Encode(EventFields(TrackEvent(false, 6000, 300_000_008, EndOf, None, None))) ==
            [72, 2] + [88, 136, 198, 134, 143, 1]
  {
    var a, b := VarintField(9, 2), VarintField(11, 300_000_008);
    assert EventFields(TrackEvent(false, 6000, 300_000_008, EndOf, None, None)) == [a, b];
    hide Encode, EncodeField, EventFields;
    Small(9, 2);
    ExampleTracks(11);
    Two(a, b, [72, 2], [88, 136, 198, 134, 143, 1]);
  }

  lemma NamedFields(body: Body)
    requires body == BeginOf(1, 1) || body == InstantOf(1, 1)
    ensures EventFields(TrackEvent(false, 6000, 300_000_008, body, None, None)) ==
            [VarintField(9, if body.BeginOf? then 1 else 3), VarintField(11, 300_000_008), VarintField(10, 1),
             VarintField(3, 1)]
  {
  }

  /** Type 1 begins a slice, type 3 is an instant; 10 and 3 are the ids of name and
      category. */
  lemma NamedEvent(body: Body)
    requires body == BeginOf(1, 1) || body == InstantOf(1, 1)
    ensures Encode(EventFields(TrackEvent(false, 6000, 300_000_008, body, None, None))) ==
            [72, if body.BeginOf? then 1 else 3] + ([88, 136, 198, 134, 143, 1] + ([80, 1] + [24, 1]))
  {
    var kind: u64 := if body.BeginOf? then 1 else 3;
    NamedFields(body);
    hide Encode, EncodeField, EventFields;
    Small(9, kind);
    ExampleTracks(11);
    Small(10, 1);
    Small(3, 1);
    Four(VarintField(9, kind), VarintField(11, 300_000_008), VarintField(10, 1), VarintField(3, 1),
         [72, kind], [88, 136, 198, 134, 143, 1], [80, 1], [24, 1]);
  }

  lemma OneAndAHalf()
    ensures LittleEndian(0x3FF8_0000_0000_0000, 8) == [0, 0, 0, 0, 0, 0, 248, 63]
  {
    assert LittleEndian(0x3F, 1) == [63];
    assert LittleEndian(0x3FF8, 2) == [248, 63];
    assert LittleEndian(0x3FF8_00, 3) == [0, 248, 63];
    assert LittleEndian(0x3FF8_0000, 4) == [0, 0, 248, 63];
    assert LittleEndian(0x3FF8_0000_00, 5) == [0, 0, 0, 248, 63];
    assert LittleEndian(0x3FF8_0000_0000, 6) == [0, 0, 0, 0, 248, 63];
    assert LittleEndian(0x3FF8_0000_0000_00, 7) == [0, 0, 0, 0, 0, 248, 63];
  }

  lemma DoubleField(b: seq<byte>)
    requires |b| == 8
    ensures EncodeField(Fixed64Field(44, b)) == [225, 2] + b
  {
    TwoBytes(Tag(44, 1));
  }

  /** Type 4 is a counter's value, the eight bytes of a double: here 1.5. */
  lemma ValueEvent()
    ensures Encode(EventFields(TrackEvent(false, 6000, 500_000_000, ValueOf(0x3FF8_0000_0000_0000), None, None))) ==
            [72, 4] + ([88, 128, 202, 181, 238, 1] + ([225, 2] + [0, 0, 0, 0, 0, 0, 248, 63]))
  {
    OneAndAHalf();
    hide LittleEndian;
    var a, b, c := VarintField(9, 4), VarintField(11, 500_000_000), Fixed64Field(44, [0, 0, 0, 0, 0, 0, 248, 63]);
    assert EventFields(TrackEvent(false, 6000, 500_000_000, ValueOf(0x3FF8_0000_0000_0000), None, None)) == [a, b, c];
    hide Encode, EncodeField, EventFields;
    Small(9, 4);
    ExampleTracks(11);
    DoubleField([0, 0, 0, 0, 0, 0, 248, 63]);
    Three(a, b, c, [72, 4], [88, 128, 202, 181, 238, 1], [225, 2] + [0, 0, 0, 0, 0, 0, 248, 63]);
  }

  lemma PlainFields(p: Packet)
    requires p.TrackEvent? && p.newName.None? && p.newCat.None?
    ensures PacketFields(p) == [VarintField(10, 1), VarintField(13, if p.first then 1 else 2), VarintField(8, p.ns),
                                NestedField(11, EventFields(p))]
  {
    hide EventFields;
    assert InternedFields(p) == [];
  }

  /** Sequence 1, the flags, 6000 nanoseconds, the event. */
  lemma PlainPacket(p: Packet, b: seq<byte>)
    requires p.TrackEvent? && p.ns == 6000 && p.newName.None? && p.newCat.None?
    requires Encode(EventFields(p)) == b && |b| < 100
    ensures EncodeFile([p]) ==
            [10, 9 + |b|] + ([80, 1] + ([104, if p.first then 1 else 2] + ([64, 240, 46] + ([90, |b|] + b))))
  {
    var flag: u64 := if p.first then 1 else 2;
    hide Encode, EncodeField, EventFields, EncodeFile, PacketFields;
    PlainFields(p);
    Small(10, 1);
    Small(13, flag);
    Medium(8, 6000);
    Nested(11, EventFields(p), b);
    Four(VarintField(10, 1), VarintField(13, flag), VarintField(8, 6000), NestedField(11, EventFields(p)),
         [80, 1], [104, flag], [64, 240, 46], [90, |b|] + b);
    FileOfOne(p, [80, 1] + ([104, flag] + ([64, 240, 46] + ([90, |b|] + b))));
  }

  // ---- descriptors ----

  /** A group: uuid 7, explicit order of its children, at the top, called "ab". */
  lemma GroupPacket()
    ensures EncodeFile([Descriptor(7, 0, "ab", 0, true)]) ==
            [10, 11] + ([226, 3, 8] + ([8, 7] + ([18, 2, 97, 98] + [88, 3])))
  {
    var p := Descriptor(7, 0, "ab", 0, true);
    var a, b, c := VarintField(1, 7), BytesField(2, Bytes("ab")), VarintField(11, 3);
    assert DescriptorFields(p) == [a, b, c];
    assert Bytes("ab") == [97, 98];
    hide Encode, EncodeField, DescriptorFields, EncodeFile;
    Small(1, 7);
    Chars(2, "ab", [97, 98]);
    Small(11, 3);
    Three(a, b, c, [8, 7], [18, 2, 97, 98], [88, 3]);
    DescriptorPacket(p, [8, 7] + ([18, 2, 97, 98] + [88, 3]));
  }

  lemma DescriptorPacket(p: Packet, b: seq<byte>)
    requires p.Descriptor? && Encode(DescriptorFields(p)) == b && |b| < 100
    ensures EncodeFile([p]) == [10, |b| + 3] + ([226, 3, |b|] + b)
  {
    var f := NestedField(60, DescriptorFields(p));
    TwoBytes(Tag(60, 2));
    OneByte(|b|);
    assert EncodeField(f) == [226, 3, |b|] + b;
    assert PacketFields(p) == [f];
    hide Encode, EncodeField, DescriptorFields, EncodeFile, PacketFields;
    Only(f, [226, 3, |b|] + b);
    FileOfOne(p, [226, 3, |b|] + b);
  }

  lemma Ones(v: nat, b: seq<byte>)
    requires v % 128 == 127 && v >= 128 && Varint(v / 128) == b
    ensures Varint(v) == [255] + b
  {
    MoreBytes(v);
    hide Varint;
  }

  /** -50 as 64 bits. */
  lemma TenBytes()
    ensures Varint(ToU64(-50)) == [206, 255, 255, 255, 255, 255, 255, 255, 255, 1]
  {
    hide Varint;
    OneByte(1);
    Ones(0xFF, [1]);
    Ones(0x7FFF, [255, 1]);
    Ones(0x3F_FFFF, [255, 255, 1]);
    Ones(0x1FFF_FFFF, [255, 255, 255, 1]);
    Ones(0xF_FFFF_FFFF, [255, 255, 255, 255, 1]);
    Ones(0x7FF_FFFF_FFFF, [255, 255, 255, 255, 255, 1]);
    Ones(0x3_FFFF_FFFF_FFFF, [255, 255, 255, 255, 255, 255, 1]);
    Ones(0x1FF_FFFF_FFFF_FFFF, [255, 255, 255, 255, 255, 255, 255, 1]);
    MoreBytes(ToU64(-50));
  }

  lemma RankField()
    ensures EncodeField(VarintField(12, ToU64(-50))) == [96] + [206, 255, 255, 255, 255, 255, 255, 255, 255, 1]
  {
    OneByte(Tag(12, 0));
    TenBytes();
    hide Varint, ToU64;
  }

  /** The GIL track of thread 8, below the thread's group, with rank -50. */
  lemma TrackPacket()
    ensures EncodeFile([Descriptor(300_000_008, 600_000_008, "", -50, false)]) ==
            [10, 26] + ([226, 3, 23] + ([8, 136, 198, 134, 143, 1] + ([40, 136, 140, 141, 158, 2] +
                        ([96] + [206, 255, 255, 255, 255, 255, 255, 255, 255, 1]))))
  {
    var p := Descriptor(300_000_008, 600_000_008, "", -50, false);
    var a, b, c := VarintField(1, 300_000_008), VarintField(5, 600_000_008), VarintField(12, ToU64(-50));
    assert DescriptorFields(p) == [a, b, c];
    hide Encode, EncodeField, DescriptorFields, EncodeFile;
    ExampleTracks(1);
    ExampleTracks(5);
    RankField();
    var rank := [96] + [206, 255, 255, 255, 255, 255, 255, 255, 255, 1];
    Three(a, b, c, [8, 136, 198, 134, 143, 1], [40, 136, 140, 141, 158, 2], rank);
    DescriptorPacket(p, [8, 136, 198, 134, 143, 1] + ([40, 136, 140, 141, 158, 2] + rank));
  }

  /** The first metric's track, below process 7; field 8 marks it as a counter. */
  lemma CounterPacket()
    ensures EncodeFile([CounterDescriptor(500_000_000, 7, "m")]) ==
            [10, 16] + ([226, 3, 13] + ([8, 128, 202, 181, 238, 1] + ([40, 7] + ([18, 1, 109] + [66, 0]))))
  {
    var p := CounterDescriptor(500_000_000, 7, "m");
    var a, b, c, d := VarintField(1, 500_000_000), VarintField(5, 7), BytesField(2, Bytes("m")), NestedField(8, []);
    assert CounterFields(p) == [a, b, c, d];
    assert Bytes("m") == [109];
    hide Encode, EncodeField, CounterFields, EncodeFile;
    ExampleTracks(1);
    Small(5, 7);
    Chars(2, "m", [109]);
    Ends();
    Nested(8, [], []);
    var body := [8, 128, 202, 181, 238, 1] + ([40, 7] + ([18, 1, 109] + [66, 0]));
    Four(a, b, c, d, [8, 128, 202, 181, 238, 1], [40, 7], [18, 1, 109], [66, 0]);
    CounterFile(p, body);
  }

  lemma CounterFile(p: Packet, b: seq<byte>)
    requires p.CounterDescriptor? && Encode(CounterFields(p)) == b && |b| < 100
    ensures EncodeFile([p]) == [10, |b| + 3] + ([226, 3, |b|] + b)
  {
    var f := NestedField(60, CounterFields(p));
    TwoBytes(Tag(60, 2));
    OneByte(|b|);
    assert EncodeField(f) == [226, 3, |b|] + b;
    assert PacketFields(p) == [f];
    hide Encode, EncodeField, CounterFields, EncodeFile, PacketFields;
    Only(f, [226, 3, |b|] + b);
    FileOfOne(p, [226, 3, |b|] + b);
  }

  // ---- interned strings ----

  /** Names are field 2 and categories field 1; an entry is an id and a string. */
  lemma InternedStrings(p: Packet)
    requires p.TrackEvent? && p.newName == Some((1, "go")) && p.newCat == Some((1, "c"))
    ensures Encode(InternedFields(p)) ==
            ([18, 6] + ([8, 1] + [18, 2, 103, 111])) + ([10, 5] + ([8, 1] + [18, 1, 99]))
  {
    assert Bytes("go") == [103, 111] && Bytes("c") == [99];
    var id, name, cat := VarintField(1, 1), BytesField(2, Bytes("go")), BytesField(2, Bytes("c"));
    var f, g := NestedField(2, [id, name]), NestedField(1, [id, cat]);
    assert InternedFields(p) == [f, g];
    hide Encode, EncodeField, InternedFields;
    Small(1, 1);
    Chars(2, "go", [103, 111]);
    Chars(2, "c", [99]);
    Two(id, name, [8, 1], [18, 2, 103, 111]);
    Two(id, cat, [8, 1], [18, 1, 99]);
    Nested(2, [id, name], [8, 1] + [18, 2, 103, 111]);
    Nested(1, [id, cat], [8, 1] + [18, 1, 99]);
    Two(f, g, [18, 6] + ([8, 1] + [18, 2, 103, 111]), [10, 5] + ([8, 1] + [18, 1, 99]));
  }

  /** They are field 12 of the packet, after the event. */
  lemma InterningPacket(p: Packet, event: seq<byte>, strings: seq<byte>)
    requires p.TrackEvent? && p.ns == 6000 && InternedFields(p) != []
    requires Encode(EventFields(p)) == event && Encode(InternedFields(p)) == strings && |event| + |strings| < 100
    ensures EncodeFile([p]) ==
            [10, 11 + |event| + |strings|] + ([80, 1] + ([104, if p.first then 1 else 2] + ([64, 240, 46] +
              (([90, |event|] + event) + ([98, |strings|] + strings)))))
  {
    var flag: u64 := if p.first then 1 else 2;
    var d, e := NestedField(11, EventFields(p)), NestedField(12, InternedFields(p));
    var a, b, c := VarintField(10, 1), VarintField(13, flag), VarintField(8, 6000);
    hide Encode, EncodeField, EventFields, InternedFields, EncodeFile;
    assert PacketFields(p) == [a] + [b, c, d, e];
    hide PacketFields;
    Small(10, 1);
    Small(13, flag);
    Medium(8, 6000);
    Nested(11, EventFields(p), event);
    Nested(12, InternedFields(p), strings);
    var x, y := [90, |event|] + event, [98, |strings|] + strings;
    Four(b, c, d, e, [104, flag], [64, 240, 46], x, y);
    Then(a, [b, c, d, e], [80, 1], [104, flag] + ([64, 240, 46] + (x + y)));
    FileOfOne(p, [80, 1] + ([104, flag] + ([64, 240, 46] + (x + y))));
  }
}
