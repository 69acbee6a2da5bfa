/** Header values and the tolerant readers of headers.go. */
module Headers {
  import opened Basics

  const MIN_INT32: int := -0x8000_0000
  const MAX_INT32: int := 0x7FFF_FFFF
  const MIN_INT64: int := -0x8000_0000_0000_0000
  const MAX_INT64: int := 0x7FFF_FFFF_FFFF_FFFF

  /**
    An AMQP table value. Text carries what strconv.ParseInt makes of the trimmed
    string or byte slice, and whether it spells true.
   */
  datatype Value =
    | Signed(bits: nat, n: int)      // int8 .. int64, int
    | Unsigned(bits: nat, u: nat)    // uint8 .. uint64
    | Float(f: real)                 // finite float32, float64
    | NotFinite
    | Text(parsed: Option<int>, spellsTrue: bool)
    | Bool(b: bool)
    | Label(s: string)               // text this library writes and never reads back
    | Deaths(count: nat)             // x-death
    | Other(tag: nat)

  type Table = map<string, Value>

  /** A value Go can hold: integers within their width. */
  predicate Representable(v: Value) {
    match v
    case Signed(_, n) => MIN_INT64 <= n <= MAX_INT64
    case Text(Some(n), _) => MIN_INT64 <= n <= MAX_INT64
    case _ => true
  }

  /** The number a value stands for, when it stands for one. */
  predicate Denotes(v: Value, n: int) {
    match v
    case Signed(_, m) => m == n
    case Unsigned(_, m) => m == n
    case Float(f) => f == n as real
    case Text(parsed, _) => parsed == Some(n)
    case _ => false
  }

  function HeaderInt(v: Value): (r: Option<int>)
    ensures Representable(v) && r.Some? ==> MIN_INT64 <= r.value <= MAX_INT64
  {
    match v
    case Signed(_, n) => Some(n)
    case Unsigned(_, u) => if u > MAX_INT64 then None else Some(u)
    case Float(f) => FloatInt(f)
    case Text(parsed, _) => parsed
    case _ => None
  }

  /**
    The bound is compared as a float64, where MaxInt64 rounds up to 2^63; that one
    value converts to the smallest integer.
   */
  function FloatInt(f: real): (r: Option<int>)
    ensures r.Some? ==> MIN_INT64 <= r.value <= MAX_INT64
    ensures r.Some? <==> f == f.Floor as real && MIN_INT64 as real <= f <= 9223372036854775808.0
  {
    if f != f.Floor as real || f < MIN_INT64 as real || f > (MAX_INT64 + 1) as real then None
    else if f.Floor == MAX_INT64 + 1 then Some(MIN_INT64)
    else Some(f.Floor)
  }

  /** What is read is exactly the number the value stands for, unless it is the float 2^63. */
  lemma HeaderIntExact(v: Value, n: int)
    requires Representable(v)
    ensures v != Float(9223372036854775808.0) ==>
              (HeaderInt(v) == Some(n) <==> Denotes(v, n) && MIN_INT64 <= n <= MAX_INT64)
    ensures v == Float(9223372036854775808.0) ==> Denotes(v, MAX_INT64 + 1) && HeaderInt(v) == Some(MIN_INT64)
  {
    if v.Float? {
      assert v.f == n as real ==> v.f.Floor == n;
    }
  }

  /** The narrowest of the two widths used on the wire. */
  function IntHeader(n: int): Value {
    if MIN_INT32 <= n <= MAX_INT32 then Signed(32, n) else Signed(64, n)
  }

  const RETRY_COUNT := "x-retry-count"
  const ORIGINAL_KEY := "x-original-routing-key"
  const ORIGINAL_QUEUE := "x-original-queue"
  const FIRST_FAILURE := "x-first-failure-time"
  const DEAD_LETTER_TIME := "x-dlq-time"
  const LAST_ERROR := "x-last-error"
  const SEQ := "x-protobus-seq"
  const FINAL := "x-protobus-final"
  const X_DEATH := "x-death"

  /** Anything unreadable is zero; large counts clamp. */
  function RetryCount(h: Table): (n: nat)
    ensures n <= MAX_INT32
  {
    if RETRY_COUNT !in h then 0
    else
      match HeaderInt(h[RETRY_COUNT])
      case None => 0
      case Some(n) => if n < 0 then 0 else if n > MAX_INT32 then MAX_INT32 else n
  }

  /** Absent or not a non-negative integer disables sequence checking. */
  function StreamSeq(h: Table): Option<nat> {
    if SEQ !in h then None
    else
      match HeaderInt(h[SEQ])
      case None => None
      case Some(n) => if n < 0 then None else Some(n)
  }

  function StreamFinal(h: Table): bool {
    if FINAL !in h then false
    else
      match h[FINAL]
      case Bool(b) => b
      case Text(_, spellsTrue) => spellsTrue
      case v => match HeaderInt(v) case None => false case Some(n) => n != 0
  }

  /** A count written as a header is read back, clamped at the largest 32-bit value. */
  lemma RetryCountRoundTrip(h: Table, n: nat)
    requires n <= MAX_INT64
    ensures RetryCount(h[RETRY_COUNT := IntHeader(n)]) == if n > MAX_INT32 then MAX_INT32 else n
  {
  }

  /** A frame's own headers are read back exactly. */
  lemma FrameHeadersRoundTrip(h: Table, seq_: nat, final: bool)
    requires seq_ <= MAX_INT64
    ensures var frame := h[FINAL := Bool(final)][SEQ := IntHeader(seq_)];
      StreamSeq(frame) == Some(seq_) && StreamFinal(frame) == final
  {
    assert SEQ != FINAL;
  }
}
