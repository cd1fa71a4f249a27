/** The hand-written Protocol Buffers encoder, against a decoder written from the
    Protocol Buffers Encoding specification (sections "Base 128 Varints", "Message
    Structure" and "Submessages"). */
module ProtoEncoder {
  import opened Seqs
  import opened Events

  type byte = x: int | 0 <= x < 256

  // ---- varints ----

  function Varint(v: nat): seq<byte> {
    if v <= 0x7f then [v] else [v % 128 + 128] + Varint(v / 128)
  }

  /** Read at most `limit` bytes of a varint: seven bits each, lowest first, the top
      bit set on all but the last. */
  function ReadGroups(s: seq<byte>, limit: nat): (r: Option<(nat, seq<byte>)>)
    ensures r.Some? ==> |r.value.1| < |s|
    decreases limit
  {
    if s == [] || limit == 0 then None
    else if s[0] < 128 then Some((s[0], s[1..]))
    else
      match ReadGroups(s[1..], limit - 1)
      case None => None
      case Some((high, rest)) => Some((s[0] - 128 + 128 * high, rest))
  }

  /** A varint has at most ten bytes and stands for 64 bits. */
  function ReadVarint(s: seq<byte>): (r: Option<(u64, seq<byte>)>)
    ensures r.Some? ==> |r.value.1| < |s|
  {
    match ReadGroups(s, 10)
    case None => None
    case Some((v, rest)) => Some((v % 0x1_0000_0000_0000_0000, rest))
  }

  function Pow128(n: nat): nat {
    if n == 0 then 1 else 128 * Pow128(n - 1)
  }

  lemma {:induction false} VarintLength(v: nat, n: nat)
    requires n >= 1 && v < Pow128(n)
    ensures 1 <= |Varint(v)| <= n
  {
    if v > 0x7f {
      assert n > 1 by {
        assert Pow128(1) == 128 * Pow128(0);
      }
      VarintLength(v / 128, n - 1);
    }
  }

  lemma TenGroupsSuffice(v: u64)
    ensures v < Pow128(10)
  {
    assert Pow128(2) == 0x4000;
    assert Pow128(4) == 0x1000_0000;
    assert Pow128(6) == 0x400_0000_0000;
    assert Pow128(8) == 0x100_0000_0000_0000;
    assert Pow128(10) == 0x40_0000_0000_0000_0000;
  }

  lemma {:induction false} GroupsRoundTrip(v: nat, limit: nat, rest: seq<byte>)
    requires |Varint(v)| <= limit
    ensures ReadGroups(Varint(v) + rest, limit) == Some((v, rest))
  {
    var s := Varint(v) + rest;
    if v <= 0x7f {
      assert s[1..] == rest;
    } else {
      GroupsRoundTrip(v / 128, limit - 1, rest);
      assert s[1..] == Varint(v / 128) + rest;
    }
  }

  /** A written varint takes one to ten bytes and reads back as its value, whatever
      follows it; what follows is left unread. */
  lemma VarintRoundTrip(v: u64, rest: seq<byte>)
    ensures 1 <= |Varint(v)| <= 10
    ensures ReadVarint(Varint(v) + rest) == Some((v, rest))
  {
    hide ReadGroups, Varint, Pow128;
    TenGroupsSuffice(v);
    VarintLength(v, 10);
    GroupsRoundTrip(v, 10, rest);
  }

  lemma {:induction false} GroupsAreMinimal(s: seq<byte>, limit: nat)
    requires ReadGroups(s, limit).Some?
    ensures |s| - |ReadGroups(s, limit).value.1| >= |Varint(ReadGroups(s, limit).value.0)|
  {
    if s[0] >= 128 {
      GroupsAreMinimal(s[1..], limit - 1);
      var (high, rest) := ReadGroups(s[1..], limit - 1).value;
      var v := s[0] - 128 + 128 * high;
      assert v / 128 == high;
    }
  }

  lemma {:induction false} VarintGrows(a: nat, b: nat)
    requires a <= b
    ensures |Varint(a)| <= |Varint(b)|
  {
    if a > 0x7f {
      VarintGrows(a / 128, b / 128);
    }
  }

  /** No shorter byte string reads as the same value, even one whose top bits the
      reader drops. */
  lemma VarintIsMinimal(s: seq<byte>)
    requires ReadVarint(s).Some?
    ensures |s| - |ReadVarint(s).value.1| >= |Varint(ReadVarint(s).value.0)|
  {
    GroupsAreMinimal(s, 10);
    VarintGrows(ReadVarint(s).value.0, ReadGroups(s, 10).value.0);
  }

  // ---- fields ----

  datatype Field =
    | VarintField(number: nat, value: u64)
    | BytesField(number: nat, bytes: seq<byte>)
    | Fixed64Field(number: nat, bytes: seq<byte>)
    | NestedField(number: nat, fields: seq<Field>)

  function Tag(number: nat, wireType: nat): nat {
    number * 8 + wireType
  }

  /** A length as it is written: 64 bits of it. */
  function Length(b: seq<byte>): u64 {
    |b| % 0x1_0000_0000_0000_0000
  }

  function EncodeField(f: Field): seq<byte>
    decreases f, 1
  {
    match f
    case VarintField(n, v) => Varint(Tag(n, 0)) + Varint(v)
    case BytesField(n, b) => Varint(Tag(n, 2)) + (Varint(Length(b)) + b)
    case Fixed64Field(n, b) => Varint(Tag(n, 1)) + b
    case NestedField(n, fs) => Varint(Tag(n, 2)) + (Varint(Length(Encode(fs))) + Encode(fs))
  }

  function Encode(fields: seq<Field>): seq<byte>
    decreases fields, 0
  {
    if fields == [] then [] else EncodeField(fields[0]) + Encode(fields[1..])
  }

  /** Field numbers fit the 32-bit parameter, lengths the 64-bit one. */
  ghost predicate Fits(fields: seq<Field>) {
    forall f | f in fields :: FieldFits(f)
  }

  ghost predicate FieldFits(f: Field) {
    && f.number < 0x1_0000_0000
    && match f
       case VarintField(_, _) => true
       case BytesField(_, b) => |b| < 0x1_0000_0000_0000_0000
       case Fixed64Field(_, b) => |b| == 8
       case NestedField(_, fs) => |Encode(fs)| < 0x1_0000_0000_0000_0000 && forall x | x in fs :: FieldFits(x)
  }

  /** A field as it stands on the wire: the length-delimited kinds look alike. */
  datatype Raw =
    | RawVarint(number: nat, value: u64)
    | RawBytes(number: nat, bytes: seq<byte>)
    | RawFixed64(number: nat, bytes: seq<byte>)

  function RawOf(f: Field): Raw {
    match f
    case VarintField(n, v) => RawVarint(n, v)
    case BytesField(n, b) => RawBytes(n, b)
    case Fixed64Field(n, b) => RawFixed64(n, b)
    case NestedField(n, fs) => RawBytes(n, Encode(fs))
  }

  function ReadField(s: seq<byte>): (r: Option<(Raw, seq<byte>)>)
    ensures r.Some? ==> |r.value.1| < |s|
    ensures r.Some? && r.value.0.RawBytes? ==> |r.value.0.bytes| < |s|
  {
    match ReadVarint(s)
    case None => None
    case Some((tag, body)) =>
      if tag % 8 == 0 then
        match ReadVarint(body)
        case None => None
        case Some((v, rest)) => Some((RawVarint(tag / 8, v), rest))
      else if tag % 8 == 1 then
        if |body| < 8 then None else Some((RawFixed64(tag / 8, body[..8]), body[8..]))
      else if tag % 8 == 2 then
        match ReadVarint(body)
        case None => None
        case Some((len, rest)) =>
          if |rest| < len then None else Some((RawBytes(tag / 8, rest[..len]), rest[len..]))
      else None
  }

  function ReadFields(s: seq<byte>): (r: Option<seq<Raw>>)
    ensures r.Some? ==> forall i :: 0 <= i < |r.value| && r.value[i].RawBytes? ==> |r.value[i].bytes| < |s|
    decreases |s|
  {
    if s == [] then Some([])
    else
      match ReadField(s)
      case None => None
      case Some((field, rest)) =>
        match ReadFields(rest)
        case None => None
        case Some(fields) => Some([field] + fields)
  }

  lemma FieldRoundTrip(f: Field, rest: seq<byte>)
    requires FieldFits(f)
    ensures ReadField(EncodeField(f) + rest) == Some((RawOf(f), rest))
  {
    hide Varint, ReadVarint;
    match f
    case VarintField(n, v) =>
      Associate(Varint(Tag(n, 0)), Varint(v), rest);
      VarintRoundTrip(Tag(n, 0), Varint(v) + rest);
      VarintRoundTrip(v, rest);
    case Fixed64Field(n, b) =>
      Associate(Varint(Tag(n, 1)), b, rest);
      VarintRoundTrip(Tag(n, 1), b + rest);
      assert (b + rest)[..8] == b && (b + rest)[8..] == rest;
    case BytesField(n, b) =>
      DelimitedRoundTrip(n, b, rest);
    case NestedField(n, fs) =>
      DelimitedRoundTrip(n, Encode(fs), rest);
  }

  lemma SplitAt(b: seq<byte>, rest: seq<byte>)
    ensures (b + rest)[..|b|] == b && (b + rest)[|b|..] == rest
  {
  }

  lemma TagParts(number: nat, wireType: nat)
    requires wireType < 8
    ensures Tag(number, wireType) / 8 == number && Tag(number, wireType) % 8 == wireType
  {
  }

  lemma DelimitedRoundTrip(n: nat, b: seq<byte>, rest: seq<byte>)
    requires n < 0x1_0000_0000 && |b| < 0x1_0000_0000_0000_0000
    ensures ReadField(Varint(Tag(n, 2)) + (Varint(Length(b)) + b) + rest) == Some((RawBytes(n, b), rest))
  {
    assert Length(b) == |b|;
    var tag, len := Varint(Tag(n, 2)), Varint(Length(b));
    VarintRoundTrip(Tag(n, 2), len + (b + rest));
    VarintRoundTrip(|b|, b + rest);
    TagParts(n, 2);
    SplitAt(b, rest);
    hide Varint, ReadVarint, Tag;
    Associate(tag, len + b, rest);
    Associate(len, b, rest);
    assert tag + (len + b) + rest == tag + (len + (b + rest));
  }

  /** Any encoded field list reads back field by field. */
  lemma {:induction false} FieldsRoundTrip(fields: seq<Field>)
    requires Fits(fields)
    ensures ReadFields(Encode(fields)) == Some(Map(RawOf, fields))
  {
    if fields == [] {
      assert Map(RawOf, fields) == [];
    } else {
      var f, rest := fields[0], fields[1..];
      FieldsRoundTrip(rest);
      FieldRoundTrip(f, Encode(rest));
      NotEmptyEncoding(f);
      hide EncodeField, ReadField;
      assert Map(RawOf, fields) == [RawOf(f)] + Map(RawOf, rest);
    }
  }

  lemma NotEmptyEncoding(f: Field)
    ensures EncodeField(f) != []
  {
  }

  // ---- messages with submessages ----

  /** Which field numbers hold submessages, and of what kind. */
  datatype Schema = Schema(subs: map<nat, Schema>)

  ghost predicate Conforms(schema: Schema, fields: seq<Field>)
    decreases fields
  {
    forall f | f in fields ::
      match f
      case NestedField(n, fs) => n in schema.subs && Conforms(schema.subs[n], fs)
      case BytesField(n, _) => n !in schema.subs
      case _ => true
  }

  function ReadMessage(schema: Schema, s: seq<byte>): Option<seq<Field>>
    decreases |s|, 1, 0
  {
    match ReadFields(s)
    case None => None
    case Some(raws) => Resolve(schema, raws, |s|)
  }

  /** Read the submessages inside the raw fields of a message of `size` bytes. */
  function Resolve(schema: Schema, raws: seq<Raw>, size: nat): Option<seq<Field>>
    requires forall i :: 0 <= i < |raws| && raws[i].RawBytes? ==> |raws[i].bytes| < size
    decreases size, 0, |raws|
  {
    if raws == [] then Some([])
    else
      var rest := Resolve(schema, raws[1..], size);
      if rest.None? then None
      else
        match raws[0]
        case RawVarint(n, v) => Some([VarintField(n, v)] + rest.value)
        case RawFixed64(n, b) => Some([Fixed64Field(n, b)] + rest.value)
        case RawBytes(n, b) =>
          if n !in schema.subs then Some([BytesField(n, b)] + rest.value)
          else
            var sub := ReadMessage(schema.subs[n], b);
            if sub.None? then None else Some([NestedField(n, sub.value)] + rest.value)
  }

  /** Decoding inverts encoding for messages nested to any depth. */
  lemma {:induction false} MessageRoundTrip(schema: Schema, fields: seq<Field>)
    requires Fits(fields) && Conforms(schema, fields)
    ensures ReadMessage(schema, Encode(fields)) == Some(fields)
    decreases fields, 1, 0
  {
    FieldsRoundTrip(fields);
    ResolveRoundTrip(schema, fields, |Encode(fields)|, fields);
  }

  lemma {:induction false} ResolveRoundTrip(schema: Schema, fields: seq<Field>, size: nat, whole: seq<Field>)
    requires Fits(fields) && Conforms(schema, fields)
    requires forall f | f in fields :: f in whole
    requires forall i :: 0 <= i < |fields| && RawOf(fields[i]).RawBytes? ==> |RawOf(fields[i]).bytes| < size
    ensures Resolve(schema, Map(RawOf, fields), size) == Some(fields)
    decreases whole, 0, |fields|
  {
    var raws := Map(RawOf, fields);
    if fields != [] {
      var f, rest := fields[0], fields[1..];
      assert raws[1..] == Map(RawOf, rest);
      assert forall i :: 0 <= i < |rest| ==> rest[i] == fields[i + 1];
      assert forall x :: x in rest ==> x in fields;
      ResolveRoundTrip(schema, rest, size, whole);
      assert f in fields && f in whole;
      if f.NestedField? {
        MessageRoundTrip(schema.subs[f.number], f.fields);
      }
      assert fields == [f] + rest;
    }
  }

  // ---- the encoder ----

  class Encoder {
    var buf: seq<byte>

    constructor ()
      ensures buf == []
    {
      buf := [];
    }

    method WriteVarint(value: u64)
      modifies this
      ensures buf == old(buf) + Varint(value)
    {
      var v: nat := value;
      while v > 0x7f
        invariant buf + Varint(v) == old(buf) + Varint(value)
      {
        ghost var before, high := buf, Varint(v / 128);
        Associate(before, [v % 128 + 128], high);
        buf := buf + [v % 128 + 128];
        v := v / 128;
      }
      buf := buf + [v];
    }

    method WriteTag(number: nat, wireType: nat)
      requires number < 0x1_0000_0000 && wireType < 8
      modifies this
      ensures buf == old(buf) + Varint(Tag(number, wireType))
    {
      WriteVarint(number * 8 + wireType);
    }

    method WriteUint64(number: nat, value: u64)
      requires number < 0x1_0000_0000
      modifies this
      ensures buf == old(buf) + EncodeField(VarintField(number, value))
    {
      WriteTag(number, 0);
      WriteVarint(value);
      Associate(old(buf), Varint(Tag(number, 0)), Varint(value));
    }

    /** A signed value is written as its two's complement. */
    method WriteInt64(number: nat, value: int)
      requires number < 0x1_0000_0000
      modifies this
      ensures buf == old(buf) + EncodeField(VarintField(number, ToU64(value)))
    {
      WriteUint64(number, ToU64(value));
    }

    method WriteBytes(number: nat, bytes: seq<byte>)
      requires number < 0x1_0000_0000
      modifies this
      ensures buf == old(buf) + EncodeField(BytesField(number, bytes))
    {
      WriteTag(number, 2);
      WriteVarint(Length(bytes));
      buf := buf + bytes;
      Associate(old(buf), Varint(Tag(number, 2)), Varint(Length(bytes)));
      Associate(old(buf), Varint(Tag(number, 2)) + Varint(Length(bytes)), bytes);
      Associate(Varint(Tag(number, 2)), Varint(Length(bytes)), bytes);
    }

    /** A submessage is written from a buffer of its own, which already holds it. */
    method WriteNested(number: nat, sub: Encoder, ghost fields: seq<Field>)
      requires number < 0x1_0000_0000 && sub != this
      requires sub.buf == Encode(fields)
      modifies this
      ensures buf == old(buf) + EncodeField(NestedField(number, fields))
    {
      WriteBytes(number, sub.buf);
    }
  }

  lemma TwosComplementRoundTrip(value: int)
    requires -0x8000_0000_0000_0000 <= value < 0x8000_0000_0000_0000
    ensures FromTwosComplement(ToU64(value)) == value
  {
  }

  function FromTwosComplement(v: u64): int {
    if v < 0x8000_0000_0000_0000 then v else v - 0x1_0000_0000_0000_0000
  }
}
