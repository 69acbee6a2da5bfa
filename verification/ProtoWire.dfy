/**
  The Protocol Buffers wire format as the envelope codec uses it: varints, tags,
  length-delimited values and the skipping of fields of any wire type.
 */
module ProtoWire {

  type byte = x: int | 0 <= x < 256
  type Bytes = seq<byte>

  /** A parse consumed n bytes and yielded v, or failed. */
  datatype Parse<+T> = Fail | Ok(v: T, n: nat)

  lemma DropOfAppend(a: Bytes, b: Bytes, n: nat)
    requires n <= |a|
    ensures (a + b)[n..] == a[n..] + b
  {
  }

  // ---- varints -----------------------------------------------------------

  const VARINT_LIMIT := 0x1_0000_0000_0000_0000

  function Varint(v: nat): Bytes {
    if v < 128 then [v] else [v % 128 + 128] + Varint(v / 128)
  }

  /** bits.Len64. */
  function BitLen(v: nat): nat {
    if v == 0 then 0 else 1 + BitLen(v / 2)
  }

  /** The library's size: 9/64 stands in for 1/7. */
  function SizeVarint(v: nat): nat {
    (9 * BitLen(v) + 64) / 64
  }

  lemma BitLenOf7(v: nat)
    requires v >= 128
    ensures BitLen(v) == 7 + BitLen(v / 128)
  {
    assert v / 2 / 2 / 2 / 2 / 2 / 2 / 2 == v / 128;
    assert BitLen(v) == 1 + BitLen(v / 2) == 2 + BitLen(v / 2 / 2) == 3 + BitLen(v / 2 / 2 / 2);
    assert BitLen(v / 2 / 2 / 2) == 1 + BitLen(v / 2 / 2 / 2 / 2) == 2 + BitLen(v / 2 / 2 / 2 / 2 / 2);
    assert BitLen(v / 2 / 2 / 2 / 2 / 2) == 1 + BitLen(v / 2 / 2 / 2 / 2 / 2 / 2) == 2 + BitLen(v / 128);
  }

  /** One byte for every seven bits, and at least one. */
  lemma {:induction false} VarintLength(v: nat)
    ensures |Varint(v)| == if v == 0 then 1 else (BitLen(v) + 6) / 7
    decreases v
  {
    if v < 128 {
      SmallBitLen(v);
    } else {
      BitLenOf7(v);
      VarintLength(v / 128);
    }
  }

  lemma SmallBitLen(v: nat)
    requires v < 128
    ensures BitLen(v) <= 7 && (v > 0 ==> BitLen(v) >= 1)
  {
    assert v / 2 < 64 && v / 2 / 2 < 32 && v / 2 / 2 / 2 < 16;
    assert v / 2 / 2 / 2 / 2 < 8 && v / 2 / 2 / 2 / 2 / 2 < 4 && v / 2 / 2 / 2 / 2 / 2 / 2 < 2;
    assert BitLen(v / 2 / 2 / 2 / 2 / 2 / 2) <= 1;
    assert BitLen(v / 2 / 2 / 2 / 2) <= 3;
    assert BitLen(v / 2 / 2) <= 5;
  }

  lemma {:induction false} BitLenBound(v: nat, limit: nat, bits: nat)
    requires v < limit && limit == Pow2(bits)
    ensures BitLen(v) <= bits
    decreases bits
  {
    if bits > 0 && v > 0 {
      BitLenBound(v / 2, Pow2(bits - 1), bits - 1);
    }
  }

  function Pow2(k: nat): nat {
    if k == 0 then 1 else 2 * Pow2(k - 1)
  }

  lemma Pow2Of64()
    ensures Pow2(64) == VARINT_LIMIT
  {
    assert Pow2(8) == 256;
    assert Pow2(16) == 0x1_0000;
    assert Pow2(24) == 0x100_0000;
    assert Pow2(32) == 0x1_0000_0000;
    assert Pow2(40) == 0x100_0000_0000;
    assert Pow2(48) == 0x1_0000_0000_0000;
    assert Pow2(56) == 0x100_0000_0000_0000;
  }

  /** The approximation is exact for every 64-bit value. */
  lemma SizeVarintExact(v: nat)
    requires v < VARINT_LIMIT
    ensures SizeVarint(v) == |Varint(v)|
  {
    VarintLength(v);
    Pow2Of64();
    BitLenBound(v, VARINT_LIMIT, 64);
    assert v > 0 ==> BitLen(v) >= 1;
  }

  /** The unrolled reader: at most ten bytes, and the tenth carries one bit. */
  function ConsumeVarint(b: Bytes): Parse<nat> {
    ConsumeVarintAt(b, 0)
  }

  function ConsumeVarintAt(b: Bytes, i: nat): (p: Parse<nat>)
    requires i <= 9
    ensures p.Ok? ==> 1 <= p.n <= |b| && p.v < Limit(i)
    decreases 9 - i
  {
    if |b| == 0 then Fail
    else if i == 9 then (if b[0] < 2 then Ok(b[0], 1) else Fail)
    else if b[0] < 128 then LimitLarge(i); Ok(b[0], 1)
    else
      match ConsumeVarintAt(b[1..], i + 1)
      case Fail => Fail
      case Ok(v, n) => Ok(b[0] - 128 + 128 * v, n + 1)
  }

  /** What fits in the groups from the i-th on. */
  function Limit(i: nat): nat
    requires i <= 9
    decreases 9 - i
  {
    if i == 9 then 2 else 128 * Limit(i + 1)
  }

  lemma {:induction false} LimitLarge(i: nat)
    requires i < 9
    ensures Limit(i) >= 128
    decreases 9 - i
  {
    if i < 8 {
      LimitLarge(i + 1);
    }
  }

  lemma LimitOf0()
    ensures Limit(0) == VARINT_LIMIT
  {
    assert Limit(8) == 0x100;
    assert Limit(6) == 0x40_0000;
    assert Limit(4) == 0x10_0000_0000;
    assert Limit(2) == 0x4_0000_0000_0000;
  }

  /** Reading undoes writing, whatever follows. */
  lemma VarintRoundTrip(v: nat, rest: Bytes)
    requires v < VARINT_LIMIT
    ensures ConsumeVarint(Varint(v) + rest) == Ok(v, |Varint(v)|)
  {
    LimitOf0();
    VarintRoundTripAt(v, rest, 0);
  }

  lemma {:induction false} VarintRoundTripAt(v: nat, rest: Bytes, i: nat)
    requires i <= 9 && v < Limit(i)
    ensures ConsumeVarintAt(Varint(v) + rest, i) == Ok(v, |Varint(v)|)
    decreases v
  {
    if v >= 128 {
      assert (Varint(v) + rest)[1..] == Varint(v / 128) + rest;
      VarintRoundTripAt(v / 128, rest, i + 1);
    }
  }

  /** A successful read does not depend on what follows. */
  lemma {:induction false} VarintPrefix(b: Bytes, rest: Bytes, i: nat)
    requires i <= 9 && ConsumeVarintAt(b, i).Ok?
    ensures ConsumeVarintAt(b + rest, i) == ConsumeVarintAt(b, i)
    decreases 9 - i
  {
    assert (b + rest)[0] == b[0];
    if i < 9 && b[0] >= 128 {
      DropOfAppend(b, rest, 1);
      VarintPrefix(b[1..], rest, i + 1);
    }
  }

  // ---- tags and values ---------------------------------------------------

  const VARINT_TYPE := 0
  const FIXED64_TYPE := 1
  const BYTES_TYPE := 2
  const START_GROUP_TYPE := 3
  const END_GROUP_TYPE := 4
  const FIXED32_TYPE := 5

  const MAX_INT32 := 0x7FFF_FFFF
  const RECURSION_LIMIT := 10000

  function Tag(num: nat, typ: nat): Bytes {
    Varint(num * 8 + typ)
  }

  function SizeTag(num: nat): nat {
    SizeVarint(num * 8)
  }

  function SizeBytes(n: nat): nat {
    SizeVarint(n) + n
  }

  datatype FieldTag = FieldTag(num: nat, typ: nat)

  function ConsumeTag(b: Bytes): (p: Parse<FieldTag>)
    ensures p.Ok? ==> 1 <= p.n <= |b| && 1 <= p.v.num <= MAX_INT32 && p.v.typ < 8
  {
    match ConsumeVarint(b)
    case Fail => Fail
    case Ok(x, n) => if x / 8 < 1 || x / 8 > MAX_INT32 then Fail else Ok(FieldTag(x / 8, x % 8), n)
  }

  function ConsumeBytes(b: Bytes): (p: Parse<Bytes>)
    ensures p.Ok? ==> 1 <= p.n <= |b|
  {
    match ConsumeVarint(b)
    case Fail => Fail
    case Ok(m, n) => if m > |b| - n then Fail else Ok(b[n..n + m], n + m)
  }

  /** The length of a field's value, of any wire type (ConsumeFieldValue). */
  function SkipValue(num: nat, typ: nat, b: Bytes, depth: int): (p: Parse<()>)
    ensures p.Ok? ==> p.n <= |b|
    decreases |b|, 4
  {
    if typ == VARINT_TYPE then
      match ConsumeVarint(b) case Fail => Fail case Ok(_, n) => Ok((), n)
    else if typ == FIXED32_TYPE then
      if |b| < 4 then Fail else Ok((), 4)
    else if typ == FIXED64_TYPE then
      if |b| < 8 then Fail else Ok((), 8)
    else if typ == BYTES_TYPE then
      match ConsumeBytes(b) case Fail => Fail case Ok(_, n) => Ok((), n)
    else if typ == START_GROUP_TYPE then
      if depth < 0 then Fail else SkipGroup(num, b, depth)
    else Fail
  }

  /** The front of a group's contents: its end tag, or a whole field. */
  datatype GroupItem = Broken | EndTag(num: nat, n: nat) | Inner(n: nat)

  function FirstItem(b: Bytes, depth: int): (g: GroupItem)
    ensures !g.Broken? ==> 1 <= g.n <= |b|
    decreases |b|, 2
  {
    match ConsumeTag(b)
    case Fail => Broken
    case Ok(tag, n) =>
      if tag.typ == END_GROUP_TYPE then EndTag(tag.num, n)
      else match SkipValue(tag.num, tag.typ, b[n..], depth - 1) case Fail => Broken case Ok(_, m) => Inner(n + m)
  }

  /** The fields of a group up to its matching end tag. */
  function SkipGroup(num: nat, b: Bytes, depth: int): (p: Parse<()>)
    ensures p.Ok? ==> p.n <= |b|
    decreases |b|, 3
  {
    match FirstItem(b, depth)
    case Broken => Fail
    case EndTag(endNum, n) => if endNum == num then Ok((), n) else Fail
    case Inner(n) => match SkipGroup(num, b[n..], depth) case Fail => Fail case Ok(_, k) => Ok((), n + k)
  }

  lemma TagPrefix(b: Bytes, rest: Bytes)
    requires ConsumeTag(b).Ok?
    ensures ConsumeTag(b + rest) == ConsumeTag(b)
  {
    VarintPrefix(b, rest, 0);
  }

  lemma BytesPrefix(b: Bytes, rest: Bytes)
    requires ConsumeBytes(b).Ok?
    ensures ConsumeBytes(b + rest) == ConsumeBytes(b)
  {
    VarintPrefix(b, rest, 0);
    var n := ConsumeVarint(b).n;
    var m := ConsumeVarint(b).v;
    assert (b + rest)[n..n + m] == b[n..n + m];
  }

  lemma {:induction false} SkipValuePrefix(num: nat, typ: nat, b: Bytes, depth: int, rest: Bytes)
    requires SkipValue(num, typ, b, depth).Ok?
    ensures SkipValue(num, typ, b + rest, depth) == SkipValue(num, typ, b, depth)
    decreases |b|, 4
  {
    if typ == VARINT_TYPE {
      VarintPrefix(b, rest, 0);
    } else if typ == BYTES_TYPE {
      BytesPrefix(b, rest);
    } else if typ == START_GROUP_TYPE {
      SkipGroupPrefix(num, b, depth, rest);
    }
  }

  lemma {:induction false} FirstItemPrefix(b: Bytes, depth: int, rest: Bytes)
    requires !FirstItem(b, depth).Broken?
    ensures FirstItem(b + rest, depth) == FirstItem(b, depth)
    decreases |b|, 2
  {
    TagPrefix(b, rest);
    var Ok(tag, n) := ConsumeTag(b);
    if tag.typ != END_GROUP_TYPE {
      DropOfAppend(b, rest, n);
      SkipValuePrefix(tag.num, tag.typ, b[n..], depth - 1, rest);
    }
  }

  lemma {:induction false} SkipGroupPrefix(num: nat, b: Bytes, depth: int, rest: Bytes)
    requires SkipGroup(num, b, depth).Ok?
    ensures SkipGroup(num, b + rest, depth) == SkipGroup(num, b, depth)
    decreases |b|, 3
  {
    FirstItemPrefix(b, depth, rest);
    var g := FirstItem(b, depth);
    if g.Inner? {
      DropOfAppend(b, rest, g.n);
      SkipGroupPrefix(num, b[g.n..], depth, rest);
    }
  }

  // ---- length-delimited fields -------------------------------------------

  function Field(num: nat, v: Bytes): Bytes {
    Tag(num, BYTES_TYPE) + Varint(|v|) + v
  }

  /** The size computed up front is the size written. */
  lemma FieldSize(num: nat, v: Bytes)
    requires 1 <= num <= 15 && |v| < VARINT_LIMIT
    ensures SizeTag(num) + SizeBytes(|v|) == |Field(num, v)|
  {
    SizeVarintExact(|v|);
    SizeVarintExact(num * 8);
  }

  lemma FieldRoundTrip(num: nat, v: Bytes, rest: Bytes)
    requires 1 <= num <= 15 && |v| < VARINT_LIMIT
    ensures ConsumeTag(Field(num, v) + rest) == Ok(FieldTag(num, BYTES_TYPE), |Tag(num, BYTES_TYPE)|)
    ensures ConsumeBytes((Field(num, v) + rest)[|Tag(num, BYTES_TYPE)|..])
            == Ok(v, |Field(num, v)| - |Tag(num, BYTES_TYPE)|)
  {
    var t := Tag(num, BYTES_TYPE);
    var x := Varint(|v|);
    assert Field(num, v) + rest == t + (x + v + rest);
    VarintRoundTrip(num * 8 + BYTES_TYPE, x + v + rest);
    var tail := (Field(num, v) + rest)[|t|..];
    assert tail == x + (v + rest);
    VarintRoundTrip(|v|, v + rest);
    assert tail[|x|..|x| + |v|] == v;
  }
}
