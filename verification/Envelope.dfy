/**
  The protobus envelopes (internal/wire/envelope.go): the messages every
  request, reply and event travels inside, written with proto2-style presence
  and read tolerantly.
 */
module Envelope {
  import opened Basics
  import opened ProtoWire

  datatype Result<+T> = Success(value: T) | Malformed

  datatype Request = Request(method_: Bytes, actor: Bytes, data: Bytes)
  datatype ResponseResult = ResponseResult(method_: Bytes, data: Bytes)
  datatype ResponseError = ResponseError(method_: Bytes, message: Bytes, code: Bytes)
  datatype Event = Event(typ: Bytes, topic: Bytes, data: Bytes)

  /** A container as the sender builds it: either member may be missing. */
  datatype Response = Response(result: Option<ResponseResult>, error: Option<ResponseError>)
  /** Everything a Go slice can hold has a length a varint can carry. */
  predicate Fits(b: Bytes) { |b| < 0x8000_0000_0000_0000 }

  // ---- UTF-8 -------------------------------------------------------------

  predicate Cont(b: Bytes, i: nat, lo: int, hi: int) {
    i < |b| && lo <= b[i] <= hi
  }

  /** utf8.Valid: well-formed byte sequences only. */
  predicate ValidUtf8(b: Bytes)
    decreases |b|
  {
    if b == [] then true
    else if b[0] < 0x80 then ValidUtf8(b[1..])
    else if 0xC2 <= b[0] <= 0xDF then Cont(b, 1, 0x80, 0xBF) && ValidUtf8(b[2..])
    else if 0xE0 <= b[0] <= 0xEF then
      && Cont(b, 1, if b[0] == 0xE0 then 0xA0 else 0x80, if b[0] == 0xED then 0x9F else 0xBF)
      && Cont(b, 2, 0x80, 0xBF) && ValidUtf8(b[3..])
    else if 0xF0 <= b[0] <= 0xF4 then
      && Cont(b, 1, if b[0] == 0xF0 then 0x90 else 0x80, if b[0] == 0xF4 then 0x8F else 0xBF)
      && Cont(b, 2, 0x80, 0xBF) && Cont(b, 3, 0x80, 0xBF) && ValidUtf8(b[4..])
    else false
  }

  // ---- writing -----------------------------------------------------------

  function EncodeRequest(r: Request): Bytes {
    Field(1, r.method_) + (if r.actor != [] then Field(2, r.actor) else []) + Field(3, r.data)
  }

  function EncodeResult(r: ResponseResult): Bytes {
    Field(1, r.method_) + Field(2, r.data)
  }

  function EncodeError(e: ResponseError): Bytes {
    Field(1, e.method_) + Field(2, e.message) + Field(3, e.code)
  }

  function EncodeEvent(e: Event): Bytes {
    Field(1, e.typ) + Field(2, e.topic) + Field(3, e.data)
  }

  function SizeField(num: nat, n: nat): nat { SizeTag(num) + SizeBytes(n) }

  function SizeRequest(r: Request): nat {
    SizeField(1, |r.method_|) + SizeField(3, |r.data|) + if r.actor != [] then SizeField(2, |r.actor|) else 0
  }

  function SizeResult(r: ResponseResult): nat {
    SizeField(1, |r.method_|) + SizeField(2, |r.data|)
  }

  function SizeError(e: ResponseError): nat {
    SizeField(1, |e.method_|) + SizeField(2, |e.message|) + SizeField(3, |e.code|)
  }

  method AppendField(b: Bytes, num: nat, v: Bytes) returns (out: Bytes)
    ensures out == b + Field(num, v)
  {
    out := b + Tag(num, BYTES_TYPE);
    out := out + Varint(|v|);
    out := out + v;
    assert out == b + Field(num, v);
  }

  /** The bytes written extend the buffer by exactly the size computed. */
  method AppendRequest(b: Bytes, r: Request) returns (out: Bytes)
    requires Fits(r.method_) && Fits(r.actor) && Fits(r.data)
    ensures out == b + EncodeRequest(r) && |out| == |b| + SizeRequest(r)
  {
    FieldSize(1, r.method_);
    FieldSize(2, r.actor);
    FieldSize(3, r.data);
    out := AppendField(b, 1, r.method_);
    if r.actor != [] {
      out := AppendField(out, 2, r.actor);
    }
    out := AppendField(out, 3, r.data);
  }

  method AppendEvent(b: Bytes, e: Event) returns (out: Bytes)
    requires FitsEvent(e)
    ensures out == b + EncodeEvent(e)
    ensures |out| == |b| + SizeField(1, |e.typ|) + SizeField(2, |e.topic|) + SizeField(3, |e.data|)
  {
    FieldSize(1, e.typ);
    FieldSize(2, e.topic);
    FieldSize(3, e.data);
    out := AppendField(b, 1, e.typ);
    out := AppendField(out, 2, e.topic);
    out := AppendField(out, 3, e.data);
  }

  lemma ResultSize(r: ResponseResult)
    requires Fits(r.method_) && Fits(r.data)
    ensures SizeResult(r) == |EncodeResult(r)|
  {
    FieldSize(1, r.method_);
    FieldSize(2, r.data);
  }

  lemma ErrorSize(e: ResponseError)
    requires Fits(e.method_) && Fits(e.message) && Fits(e.code)
    ensures SizeError(e) == |EncodeError(e)|
  {
    FieldSize(1, e.method_);
    FieldSize(2, e.message);
    FieldSize(3, e.code);
  }

  predicate FitsResponse(r: Response) {
    && (r.result.Some? ==> Fits(r.result.value.method_) && Fits(r.result.value.data))
    && (r.error.Some? ==> Fits(r.error.value.method_) && Fits(r.error.value.message) && Fits(r.error.value.code))
  }

  lemma Regroup3(a: Bytes, x: Bytes, y: Bytes, z: Bytes)
    ensures a + x + y + z == a + (x + y + z)
    ensures z == [] ==> a + x + y == a + (x + y)
  {
  }

  method AppendResultMember(b: Bytes, x: ResponseResult) returns (out: Bytes)
    requires Fits(x.method_) && Fits(x.data)
    ensures out == b + Field(1, EncodeResult(x))
  {
    ResultSize(x);
    var prefix := b + Tag(1, BYTES_TYPE) + Varint(SizeResult(x));
    out := AppendField(prefix, 1, x.method_);
    out := AppendField(out, 2, x.data);
    Regroup3(prefix, Field(1, x.method_), Field(2, x.data), []);
    Regroup3(b, Tag(1, BYTES_TYPE), Varint(SizeResult(x)), EncodeResult(x));
  }

  method AppendErrorMember(b: Bytes, e: ResponseError) returns (out: Bytes)
    requires Fits(e.method_) && Fits(e.message) && Fits(e.code)
    ensures out == b + Field(2, EncodeError(e))
  {
    ErrorSize(e);
    var prefix := b + Tag(2, BYTES_TYPE) + Varint(SizeError(e));
    out := AppendField(prefix, 1, e.method_);
    out := AppendField(out, 2, e.message);
    out := AppendField(out, 3, e.code);
    Regroup3(prefix, Field(1, e.method_), Field(2, e.message), Field(3, e.code));
    Regroup3(b, Tag(2, BYTES_TYPE), Varint(SizeError(e)), EncodeError(e));
  }

  /** Refuses neither or both; otherwise the member, behind a length prefix computed before it is written. */
  method AppendResponse(b: Bytes, r: Response) returns (out: Bytes, ok: bool)
    requires FitsResponse(r)
    ensures ok <==> r.result.Some? != r.error.Some?
    ensures out == b + if ok then EncodeResponse(r) else []
  {
    if r.result.Some? && r.error.Some? {
      return b, false;
    } else if r.result.Some? {
      out := AppendResultMember(b, r.result.value);
      return out, true;
    } else if r.error.Some? {
      out := AppendErrorMember(b, r.error.value);
      return out, true;
    } else {
      return b, false;
    }
  }

  /** The container's bytes: the member as an embedded message. */
  function EncodeResponse(r: Response): Bytes {
    if r.result.Some? then Field(1, EncodeResult(r.result.value))
    else if r.error.Some? then Field(2, EncodeError(r.error.value))
    else []
  }

  // ---- reading -----------------------------------------------------------

  /** The field at the front of a message, n bytes long. */
  datatype Front = Bad | Known(num: nat, v: Bytes, n: nat) | Unknown(n: nat)

  function FirstField(b: Bytes, max: nat): (f: Front)
    ensures !f.Bad? ==> 1 <= f.n <= |b|
  {
    match ConsumeTag(b)
    case Fail => Bad
    case Ok(tag, n) =>
      if !(1 <= tag.num <= max) then
        match SkipValue(tag.num, tag.typ, b[n..], RECURSION_LIMIT) case Fail => Bad case Ok(_, m) => Unknown(n + m)
      else if tag.typ != BYTES_TYPE then Bad
      else match ConsumeBytes(b[n..]) case Fail => Bad case Ok(v, m) => Known(tag.num, v, n + m)
  }

  /** Visits every field: known ones go to fn, unknown ones are skipped. */
  function Visit<A>(b: Bytes, max: nat, acc: A, fn: (A, nat, Bytes) -> Result<A>): Result<A>
    decreases |b|
  {
    if b == [] then Success(acc)
    else
      match FirstField(b, max)
      case Bad => Malformed
      case Unknown(n) => Visit(b[n..], max, acc, fn)
      case Known(num, v, n) =>
        match fn(acc, num, v)
        case Malformed => Malformed
        case Success(acc') => Visit(b[n..], max, acc', fn)
  }

  /** The field at the front of what is left. */
  method TakeField(rest: Bytes, max: nat) returns (f: Front)
    requires rest != []
    ensures f == FirstField(rest, max)
  {
    var tag := ConsumeTag(rest);
    if tag.Fail? { return Bad; }
    var tail := rest[tag.n..];
    if !(1 <= tag.v.num <= max) {
      var skip := SkipValue(tag.v.num, tag.v.typ, tail, RECURSION_LIMIT);
      return if skip.Fail? then Bad else Unknown(tag.n + skip.n);
    }
    if tag.v.typ != BYTES_TYPE { return Bad; }
    var v := ConsumeBytes(tail);
    return if v.Fail? then Bad else Known(tag.v.num, v.v, tag.n + v.n);
  }

  /** The loop of walk. */
  method Walk<A>(b: Bytes, max: nat, acc: A, fn: (A, nat, Bytes) -> Result<A>) returns (r: Result<A>)
    ensures r == Visit(b, max, acc, fn)
  {
    var rest := b;
    var cur := acc;
    while |rest| > 0
      invariant Visit(b, max, acc, fn) == Visit(rest, max, cur, fn)
      decreases |rest|
    {
      var f := TakeField(rest, max);
      match f
      case Bad => return Malformed;
      case Unknown(n) => rest := rest[n..];
      case Known(num, v, n) =>
        var next := fn(cur, num, v);
        if next.Malformed? { return Malformed; }
        rest, cur := rest[n..], next.value;
    }
    r := Success(cur);
  }

  function SetRequest(r: Request, num: nat, v: Bytes): Result<Request> {
    if num == 3 then Success(r.(data := v))
    else if !ValidUtf8(v) then Malformed
    else if num == 1 then Success(r.(method_ := v))
    else Success(r.(actor := v))
  }

  function SetResult(r: ResponseResult, num: nat, v: Bytes): Result<ResponseResult> {
    if num == 2 then Success(r.(data := v))
    else if !ValidUtf8(v) then Malformed
    else Success(r.(method_ := v))
  }

  function SetError(e: ResponseError, num: nat, v: Bytes): Result<ResponseError> {
    if !ValidUtf8(v) then Malformed
    else if num == 1 then Success(e.(method_ := v))
    else if num == 2 then Success(e.(message := v))
    else Success(e.(code := v))
  }

  function SetEvent(e: Event, num: nat, v: Bytes): Result<Event> {
    if num == 3 then Success(e.(data := v))
    else if !ValidUtf8(v) then Malformed
    else if num == 1 then Success(e.(typ := v))
    else Success(e.(topic := v))
  }

  /** What DecodeResponse has gathered so far. */
  datatype Gathered = Gathered(res: ResponseResult, er: ResponseError, hasRes: bool, hasErr: bool)

  /** A repeated member is decoded into the same value: it merges. */
  function Gather(g: Gathered, num: nat, v: Bytes): Result<Gathered> {
    if num == 1 then
      match DecodeResultInto(g.res, v)
      case Malformed => Malformed
      case Success(r) => Success(g.(res := r, hasRes := true))
    else
      match DecodeErrorInto(g.er, v)
      case Malformed => Malformed
      case Success(e) => Success(g.(er := e, hasErr := true))
  }

  function DecodeRequest(b: Bytes): Result<Request> { Visit(b, 3, Request([], [], []), SetRequest) }
  function DecodeEvent(b: Bytes): Result<Event> { Visit(b, 3, Event([], [], []), SetEvent) }
  function DecodeResultInto(r: ResponseResult, b: Bytes): Result<ResponseResult> { Visit(b, 2, r, SetResult) }
  function DecodeErrorInto(e: ResponseError, b: Bytes): Result<ResponseError> { Visit(b, 3, e, SetError) }

  const NOTHING := Gathered(ResponseResult([], []), ResponseError([], [], []), false, false)

  /** The error member wins; a container with neither is refused. */
  function DecodeResponse(b: Bytes): Result<Response> {
    match Visit(b, 2, NOTHING, Gather)
    case Malformed => Malformed
    case Success(g) =>
      if g.hasErr then Success(Response(None, Some(g.er)))
      else if g.hasRes then Success(Response(Some(g.res), None))
      else Malformed
  }

  // ---- composition -------------------------------------------------------

  /** A field is found at the front whatever follows it. */
  lemma FirstFieldPrefix(b: Bytes, max: nat, rest: Bytes)
    requires !FirstField(b, max).Bad?
    ensures FirstField(b + rest, max) == FirstField(b, max)
  {
    TagPrefix(b, rest);
    var Ok(tag, n) := ConsumeTag(b);
    DropOfAppend(b, rest, n);
    if 1 <= tag.num <= max {
      BytesPrefix(b[n..], rest);
    } else {
      SkipValuePrefix(tag.num, tag.typ, b[n..], RECURSION_LIMIT, rest);
    }
  }

  lemma FirstFieldOf(num: nat, v: Bytes, rest: Bytes, max: nat)
    requires 1 <= num <= max <= 15 && Fits(v)
    ensures FirstField(Field(num, v) + rest, max) == Known(num, v, |Field(num, v)|)
  {
    FieldRoundTrip(num, v, rest);
  }

  /** One step of a visit: the field at the front, then the rest. */
  lemma VisitField<A>(num: nat, v: Bytes, rest: Bytes, max: nat, acc: A, fn: (A, nat, Bytes) -> Result<A>)
    requires 1 <= num <= max <= 15 && Fits(v)
    ensures Visit(Field(num, v) + rest, max, acc, fn)
            == match fn(acc, num, v) case Malformed => Malformed case Success(a) => Visit(rest, max, a, fn)
  {
    FirstFieldOf(num, v, rest, max);
    assert (Field(num, v) + rest)[|Field(num, v)|..] == rest;
  }

  /** Reading a concatenation is reading the first part, then the second. */
  lemma {:induction false} VisitConcat<A>(b1: Bytes, b2: Bytes, max: nat, acc: A, fn: (A, nat, Bytes) -> Result<A>)
    requires Visit(b1, max, acc, fn).Success?
    ensures Visit(b1 + b2, max, acc, fn) == Visit(b2, max, Visit(b1, max, acc, fn).value, fn)
    decreases |b1|
  {
    if b1 == [] {
      assert b1 + b2 == b2;
    } else {
      FirstFieldPrefix(b1, max, b2);
      var f := FirstField(b1, max);
      DropOfAppend(b1, b2, f.n);
      VisitConcat(b1[f.n..], b2, max, if f.Known? then fn(acc, f.num, f.v).value else acc, fn);
    }
  }

  // ---- round trips -------------------------------------------------------

  /** Decoding undoes encoding exactly when the text fields are valid UTF-8; otherwise it refuses. */
  lemma RequestRoundTrip(r: Request)
    requires Fits(r.method_) && Fits(r.actor) && Fits(r.data)
    ensures DecodeRequest(EncodeRequest(r)) == if ValidUtf8(r.method_) && ValidUtf8(r.actor) then Success(r) else Malformed
  {
    RequestInto(Request([], [], []), r);
  }

  /** Decoding an encoded request on top of another: what it writes wins. */
  lemma RequestInto(into: Request, r: Request)
    requires Fits(r.method_) && Fits(r.actor) && Fits(r.data)
    ensures Visit(EncodeRequest(r), 3, into, SetRequest)
            == if ValidUtf8(r.method_) && ValidUtf8(r.actor) then Success(MergeRequest(into, r)) else Malformed
  {
    var middle := if r.actor != [] then Field(2, r.actor) else [];
    var last := Field(3, r.data);
    Regroup3(Field(1, r.method_), middle, last, []);
    VisitField(1, r.method_, middle + last, 3, into, SetRequest);
    if ValidUtf8(r.method_) {
      var one := into.(method_ := r.method_);
      if r.actor != [] {
        VisitField(2, r.actor, last, 3, one, SetRequest);
      } else {
        assert middle + last == last;
      }
      var two := if r.actor != [] then one.(actor := r.actor) else one;
      VisitLast(3, r.data, 3, two, SetRequest);
    }
  }

  /** Later occurrences win field by field; an absent actor leaves the earlier one. */
  function MergeRequest(first: Request, second: Request): Request {
    second.(actor := if second.actor != [] then second.actor else first.actor)
  }

  lemma VisitLast<A>(num: nat, v: Bytes, max: nat, acc: A, fn: (A, nat, Bytes) -> Result<A>)
    requires 1 <= num <= max <= 15 && Fits(v)
    ensures Visit(Field(num, v), max, acc, fn) == fn(acc, num, v)
  {
    assert Field(num, v) + [] == Field(num, v);
    VisitField(num, v, [], max, acc, fn);
  }

  predicate FitsEvent(e: Event) { Fits(e.typ) && Fits(e.topic) && Fits(e.data) }

  /** Decoding an encoded event on top of another: every field is written anew. */
  lemma EventInto(into: Event, e: Event)
    requires FitsEvent(e)
    ensures Visit(EncodeEvent(e), 3, into, SetEvent)
            == if ValidUtf8(e.typ) && ValidUtf8(e.topic) then Success(e) else Malformed
  {
    Regroup3(Field(1, e.typ), Field(2, e.topic), Field(3, e.data), []);
    VisitField(1, e.typ, Field(2, e.topic) + Field(3, e.data), 3, into, SetEvent);
    if ValidUtf8(e.typ) {
      VisitField(2, e.topic, Field(3, e.data), 3, into.(typ := e.typ), SetEvent);
      if ValidUtf8(e.topic) {
        VisitLast(3, e.data, 3, into.(typ := e.typ, topic := e.topic), SetEvent);
      }
    }
  }

  lemma EventRoundTrip(e: Event)
    requires FitsEvent(e)
    ensures DecodeEvent(EncodeEvent(e)) == if ValidUtf8(e.typ) && ValidUtf8(e.topic) then Success(e) else Malformed
  {
    EventInto(Event([], [], []), e);
  }

  lemma ResultInto(into: ResponseResult, r: ResponseResult)
    requires Fits(r.method_) && Fits(r.data)
    ensures DecodeResultInto(into, EncodeResult(r)) == if ValidUtf8(r.method_) then Success(r) else Malformed
  {
    VisitField(1, r.method_, Field(2, r.data), 2, into, SetResult);
    if ValidUtf8(r.method_) {
      VisitLast(2, r.data, 2, into.(method_ := r.method_), SetResult);
    }
  }

  predicate TextValid(e: ResponseError) {
    ValidUtf8(e.method_) && ValidUtf8(e.message) && ValidUtf8(e.code)
  }

  lemma ErrorInto(into: ResponseError, e: ResponseError)
    requires Fits(e.method_) && Fits(e.message) && Fits(e.code)
    ensures DecodeErrorInto(into, EncodeError(e)) == if TextValid(e) then Success(e) else Malformed
  {
    Regroup3(Field(1, e.method_), Field(2, e.message), Field(3, e.code), []);
    VisitField(1, e.method_, Field(2, e.message) + Field(3, e.code), 3, into, SetError);
    if ValidUtf8(e.method_) {
      VisitField(2, e.message, Field(3, e.code), 3, into.(method_ := e.method_), SetError);
      if ValidUtf8(e.message) {
        VisitLast(3, e.code, 3, into.(method_ := e.method_, message := e.message), SetError);
      }
    }
  }

  predicate MemberValid(r: Response) {
    && (r.result.Some? ==> ValidUtf8(r.result.value.method_))
    && (r.error.Some? ==> TextValid(r.error.value))
  }

  /** The embedded member still fits once encoded. */
  predicate FitsEncoded(r: Response) {
    FitsResponse(r) && Fits(EncodeResponse(r))
  }

  /** Decoding a container into what has been gathered. */
  lemma ResponseInto(g: Gathered, r: Response)
    requires FitsEncoded(r) && r.result.Some? != r.error.Some?
    ensures Visit(EncodeResponse(r), 2, g, Gather)
            == if !MemberValid(r) then Malformed
               else if r.result.Some? then Success(g.(res := r.result.value, hasRes := true))
               else Success(g.(er := r.error.value, hasErr := true))
  {
    if r.result.Some? {
      VisitLast(1, EncodeResult(r.result.value), 2, g, Gather);
      ResultInto(g.res, r.result.value);
    } else {
      VisitLast(2, EncodeError(r.error.value), 2, g, Gather);
      ErrorInto(g.er, r.error.value);
    }
  }

  lemma ResponseRoundTrip(r: Response)
    requires FitsEncoded(r) && r.result.Some? != r.error.Some?
    ensures DecodeResponse(EncodeResponse(r)) == if MemberValid(r) then Success(r) else Malformed
  {
    ResponseInto(NOTHING, r);
  }

  // ---- merging -----------------------------------------------------------

  /** Concatenated requests merge field by field. */
  lemma RequestsMerge(r1: Request, r2: Request)
    requires Fits(r1.method_) && Fits(r1.actor) && Fits(r1.data)
    requires Fits(r2.method_) && Fits(r2.actor) && Fits(r2.data)
    requires ValidUtf8(r1.method_) && ValidUtf8(r1.actor) && ValidUtf8(r2.method_) && ValidUtf8(r2.actor)
    ensures DecodeRequest(EncodeRequest(r1) + EncodeRequest(r2)) == Success(MergeRequest(r1, r2))
  {
    RequestInto(Request([], [], []), r1);
    VisitConcat(EncodeRequest(r1), EncodeRequest(r2), 3, Request([], [], []), SetRequest);
    RequestInto(r1, r2);
  }

  /** Concatenated responses merge, and an error wins on either side. */
  lemma ResponsesMerge(r1: Response, r2: Response)
    requires FitsEncoded(r1) && r1.result.Some? != r1.error.Some? && MemberValid(r1)
    requires FitsEncoded(r2) && r2.result.Some? != r2.error.Some? && MemberValid(r2)
    ensures DecodeResponse(EncodeResponse(r1) + EncodeResponse(r2))
            == Success(if r2.result.Some? && r1.error.Some? then r1 else r2)
  {
    ResponseInto(NOTHING, r1);
    VisitConcat(EncodeResponse(r1), EncodeResponse(r2), 2, NOTHING, Gather);
    ResponseInto(Visit(EncodeResponse(r1), 2, NOTHING, Gather).value, r2);
  }

  /** Two occurrences of a member, result or error, decode as one member holding both payloads. */
  lemma MembersMerge(g: Gathered, num: nat, v1: Bytes, v2: Bytes)
    requires 1 <= num <= 2 && Fits(v1) && Fits(v2) && Fits(v1 + v2)
    requires Gather(g, num, v1).Success?
    ensures Visit(Field(num, v1) + Field(num, v2), 2, g, Gather) == Visit(Field(num, v1 + v2), 2, g, Gather)
  {
    VisitField(num, v1, Field(num, v2), 2, g, Gather);
    VisitLast(num, v2, 2, Gather(g, num, v1).value, Gather);
    VisitLast(num, v1 + v2, 2, g, Gather);
    if num == 1 {
      VisitConcat(v1, v2, 2, g.res, SetResult);
    } else {
      VisitConcat(v1, v2, 3, g.er, SetError);
    }
  }

  /** Concatenated events merge: an event writes every field, so the later one wins whole, if it is valid. */
  lemma EventsMerge(e1: Event, e2: Event)
    requires FitsEvent(e1) && FitsEvent(e2) && ValidUtf8(e1.typ) && ValidUtf8(e1.topic)
    ensures DecodeEvent(EncodeEvent(e1) + EncodeEvent(e2))
            == if ValidUtf8(e2.typ) && ValidUtf8(e2.topic) then Success(e2) else Malformed
  {
    EventInto(Event([], [], []), e1);
    VisitConcat(EncodeEvent(e1), EncodeEvent(e2), 3, Event([], [], []), SetEvent);
    EventInto(e1, e2);
  }

  // ---- tolerance ---------------------------------------------------------

  /** A whole field of any wire type with a number the reader does not know. */
  predicate UnknownField(u: Bytes, max: nat) {
    FirstField(u, max) == Unknown(|u|)
  }

  /** An unknown field at any field boundary changes nothing, for any decoder. */
  lemma UnknownFieldIgnored<A>(b1: Bytes, u: Bytes, b2: Bytes, max: nat, acc: A, fn: (A, nat, Bytes) -> Result<A>)
    requires Visit(b1, max, acc, fn).Success? && UnknownField(u, max)
    ensures Visit(b1 + u + b2, max, acc, fn) == Visit(b1 + b2, max, acc, fn)
  {
    var a := Visit(b1, max, acc, fn).value;
    VisitConcat(b1, b2, max, acc, fn);
    assert b1 + u + b2 == b1 + (u + b2);
    VisitConcat(b1, u + b2, max, acc, fn);
    FirstFieldPrefix(u, max, b2);
    DropOfAppend(u, b2, |u|);
    assert u[|u|..] + b2 == b2;
  }
}
