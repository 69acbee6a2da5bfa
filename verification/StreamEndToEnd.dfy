/** A stream from the handler to the caller, over a network that may lose, repeat and reorder its frames. */
module StreamEndToEnd {
  import opened Basics
  import opened ProtoWire
  import H = Headers
  import E = Envelope
  import S = StreamServer
  import opened StreamClient

  /** A frame as publishReply puts it on the wire. */
  function Deliver(f: S.Frame): Delivery {
    Delivery(map[H.FINAL := H.Bool(f.final), H.SEQ := H.IntHeader(f.seqno)], f.body)
  }

  /** Anything that can happen to the caller's stream; `counter` is what other streams have left the allowance at. */
  datatype Event =
    | Arrive(i: nat, counter: int)
    | AskNext
    | ConnectionFails(e: StreamError)
    | Release

  /** The caller's stream, what it has been handed, and whether it was told of a clean end. */
  datatype Caller = Caller(c: Client, got: seq<Bytes>, cleanEnd: bool)

  function Step(w: seq<S.Frame>, lim: Limits, s: Caller, ev: Event): Caller {
    match ev
    case Arrive(i, counter) => if i < |w| then s.(c := AfterPush(s.c, lim, counter, Deliver(w[i])).0) else s
    case AskNext =>
      var s1 := s.(c := AfterNext(s.c, 0).0);
      (match NextItem(s.c)
       case Chunk(body) => s1.(got := s.got + [body])
       case CleanEnd => s1.(cleanEnd := true)
       case _ => s1)
    case ConnectionFails(e) => s.(c := AfterFail(s.c, 0, e).0)
    case Release => s.(c := AfterRelease(s.c, 0).0)
  }

  function Receive(w: seq<S.Frame>, lim: Limits, evs: seq<Event>): Caller
    decreases |evs|
  {
    if evs == [] then Caller(FRESH, [], false)
    else Step(w, lim, Receive(w, lim, evs[..|evs| - 1]), evs[|evs| - 1])
  }

  /** The non-empty bodies: what a caller is meant to see. */
  function Chunks(frames: seq<S.Frame>): seq<Bytes>
    decreases |frames|
  {
    if frames == [] then []
    else
      var rest := Chunks(frames[..|frames| - 1]);
      var body := frames[|frames| - 1].body;
      if body == [] then rest else rest + [body]
  }

  /** The caller has seen exactly the first k frames of the script. */
  ghost predicate InStep(script: seq<S.Frame>, s: Caller) {
    var k := s.c.lastSeq + 1;
    && 0 <= k <= |script|
    && s.got <= Chunks(script[..k])
    && (s.c.err.None? ==> s.got + s.c.chunks == Chunks(script[..k]))
    && (s.c.err.None? && s.c.ended ==> k == |script|)
    && (s.cleanEnd ==> s.c.ended && s.got == Chunks(script))
  }

  lemma FrameRead(f: S.Frame)
    requires f.seqno <= H.MAX_INT64
    ensures H.StreamSeq(Deliver(f).headers) == Some(f.seqno) && H.StreamFinal(Deliver(f).headers) == f.final
  {
    H.FrameHeadersRoundTrip(map[], f.seqno, f.final);
    assert Deliver(f).headers == map[][H.FINAL := H.Bool(f.final)][H.SEQ := H.IntHeader(f.seqno)];
  }

  lemma ArriveInStep(script: seq<S.Frame>, w: seq<S.Frame>, lim: Limits, s: Caller, i: nat, counter: int)
    requires S.Sends(w, script) && InStep(script, s) && i < |w| <= H.MAX_INT64
    requires w[i].final ==> i == |script| - 1
    ensures InStep(script, s.(c := AfterPush(s.c, lim, counter, Deliver(w[i])).0))
  {
    FrameRead(w[i]);
    var k := s.c.lastSeq + 1;
    if !s.c.ended && i == k {
      assert script[..k + 1][..k] == script[..k];
      assert s.c.lastSeq + 1 == w[i].seqno;
      if w[i].body != [] && s.c.err.None? {
        assert s.got + (s.c.chunks + [w[i].body]) == s.got + s.c.chunks + [w[i].body];
      }
    }
  }

  lemma AskInStep(script: seq<S.Frame>, w: seq<S.Frame>, lim: Limits, s: Caller)
    requires InStep(script, s)
    ensures InStep(script, Step(w, lim, s, AskNext))
  {
    if s.c.err.None? && s.c.chunks != [] {
      assert s.got + s.c.chunks == s.got + [s.c.chunks[0]] + s.c.chunks[1..];
    }
    assert script[..|script|] == script;
  }

  lemma {:induction false} StaysInStep(script: seq<S.Frame>, w: seq<S.Frame>, lim: Limits, evs: seq<Event>)
    requires S.Sends(w, script) && |w| <= H.MAX_INT64
    requires forall i | 0 <= i < |script| :: script[i].final <==> i == |script| - 1
    ensures InStep(script, Receive(w, lim, evs))
    decreases |evs|
  {
    if evs != [] {
      StaysInStep(script, w, lim, evs[..|evs| - 1]);
      var s := Receive(w, lim, evs[..|evs| - 1]);
      match evs[|evs| - 1]
      case Arrive(i, counter) => if i < |w| { ArriveInStep(script, w, lim, s, i, counter); }
      case AskNext => AskInStep(script, w, lim, s);
      case _ =>
    }
  }

  /** Everything a complete stream means to the caller: the messages, then the error if there is one. */
  function Meant(method_: Bytes, msgs: seq<Bytes>, failure: Option<E.ResponseError>): seq<Bytes> {
    seq(|msgs|, i requires 0 <= i < |msgs| => S.Body(method_, msgs[i]))
    + (if failure.Some? then [S.ErrorBody(failure.value)] else [])
  }

  lemma {:induction false} ChunksOfBodies(frames: seq<S.Frame>)
    requires forall i | 0 <= i < |frames| :: frames[i].body != []
    ensures |Chunks(frames)| == |frames| && forall i | 0 <= i < |frames| :: Chunks(frames)[i] == frames[i].body
    decreases |frames|
  {
    if frames != [] {
      ChunksOfBodies(frames[..|frames| - 1]);
    }
  }

  lemma ScriptMeans(method_: Bytes, msgs: seq<Bytes>, failure: Option<E.ResponseError>)
    ensures Chunks(S.Script(method_, msgs, failure)) == Meant(method_, msgs, failure)
  {
    var script := S.Script(method_, msgs, failure);
    if msgs == [] && failure.None? {
      assert script[..0] == [];
    } else {
      forall i | 0 <= i < |script| ensures script[i].body != [] {
        if i < |msgs| {
          S.BodiesNotEmpty(method_, msgs[i], E.ResponseError([], [], []));
        } else {
          S.BodiesNotEmpty(method_, [], failure.value);
        }
      }
      ChunksOfBodies(script);
    }
  }

  /**
    The stream end to end. For every run of a handler (any messages, any publish
    failures, any error) and every way its frames can be lost, repeated and
    reordered on the way, with the connection failing and other streams using
    the allowance at any time: the caller is handed a prefix of what was sent, in
    order, without a gap or a repeat, and is told of a clean end only after all
    of it, the handler's error included.
   */
  lemma StreamEndToEnd(
    method_: Bytes, calls: seq<S.SendCall>, cancelled: bool, failure: Option<E.ResponseError>, env: S.Env, env2: S.Env,
    lim: Limits, evs: seq<Event>)
    requires var f := S.AfterFinish(S.SendAll(S.Fresh(method_, true), calls), cancelled, failure, env, env2);
      |f.0.wire| <= H.MAX_INT64
    ensures var f := S.AfterFinish(S.SendAll(S.Fresh(method_, true), calls), cancelled, failure, env, env2);
      var meant := Meant(method_, S.Taken(S.Fresh(method_, true), calls), failure);
      var s := Receive(f.0.wire, lim, evs);
      && s.got <= meant
      && (s.cleanEnd ==> s.got == meant)
  {
    var f := S.AfterFinish(S.SendAll(S.Fresh(method_, true), calls), cancelled, failure, env, env2);
    var msgs := S.Taken(S.Fresh(method_, true), calls);
    S.WireFollowsScript(method_, calls, cancelled, failure, env, env2);
    ReceivesMeant(method_, msgs, failure, f.0.wire, lim, evs);
  }

  /** Whatever of the script is on the wire, the caller gets a prefix of what it means. */
  lemma ReceivesMeant(
    method_: Bytes, msgs: seq<Bytes>, failure: Option<E.ResponseError>, wire: seq<S.Frame>, lim: Limits, evs: seq<Event>)
    requires S.Sends(wire, S.Script(method_, msgs, failure)) && |wire| <= H.MAX_INT64
    ensures var s := Receive(wire, lim, evs);
      s.got <= Meant(method_, msgs, failure) && (s.cleanEnd ==> s.got == Meant(method_, msgs, failure))
  {
    var script := S.Script(method_, msgs, failure);
    StaysInStep(script, wire, lim, evs);
    ScriptMeans(method_, msgs, failure);
    ChunksMonotone(script, Receive(wire, lim, evs).c.lastSeq + 1);
  }

  lemma {:induction false} ChunksMonotone(frames: seq<S.Frame>, k: nat)
    requires k <= |frames|
    ensures Chunks(frames[..k]) <= Chunks(frames)
    decreases |frames|
  {
    if k == |frames| {
      assert frames[..k] == frames;
    } else {
      assert frames[..|frames| - 1][..k] == frames[..k];
      ChunksMonotone(frames[..|frames| - 1], k);
    }
  }

  /** Each message the caller is handed decodes to what the handler sent. */
  lemma ChunkDecodes(method_: Bytes, data: Bytes)
    requires E.FitsEncoded(E.Response(Some(E.ResponseResult(method_, data)), None)) && E.ValidUtf8(method_)
    ensures E.DecodeResponse(S.Body(method_, data)) == E.Success(E.Response(Some(E.ResponseResult(method_, data)), None))
  {
    E.ResponseRoundTrip(E.Response(Some(E.ResponseResult(method_, data)), None));
  }

  // ---- nothing withheld --------------------------------------------------

  /** The first k frames pushed in order onto a fresh stream, nothing else using the allowance. */
  function PushFirst(script: seq<S.Frame>, lim: Limits, k: nat): (Client, int)
    requires k <= |script|
  {
    if k == 0 then (FRESH, 0)
    else
      PushFrame(PushFirst(script, lim, k - 1), lim, script[k - 1])
  }

  function PushFrame(p: (Client, int), lim: Limits, f: S.Frame): (Client, int) {
    AfterPush(p.0, lim, p.1, Deliver(f))
  }

  /** A stream that has taken the first k frames and handed none over. */
  function Holding(script: seq<S.Frame>, k: nat): Client
    requires k <= |script|
  {
    Client(k - 1, Chunks(script[..k]), Lens(Chunks(script[..k])), None, k == |script|)
  }

  /** Such a stream, alone in using the allowance. */
  function Held(script: seq<S.Frame>, k: nat): (Client, int)
    requires k <= |script|
  {
    (Holding(script, k), Holding(script, k).bytes)
  }

  predicate Complete(script: seq<S.Frame>) {
    forall i | 0 <= i < |script| :: script[i].seqno == i && (script[i].final <==> i == |script| - 1)
  }

  /** A frame that is next in order and fits. */
  function Accepted(c: Client, f: S.Frame): Client {
    var c1 := c.(lastSeq := f.seqno);
    EndIf(if f.body == [] then c1 else Buffered(c1, f.body), f.final)
  }

  lemma PushNextFrame(c: Client, lim: Limits, counter: int, f: S.Frame)
    requires !c.ended && f.seqno == c.lastSeq + 1 && f.seqno <= H.MAX_INT64
    requires f.body != [] ==> Fits(c, lim, |f.body|, counter + |f.body|)
    ensures PushFrame((c, counter), lim, f) == (Accepted(c, f), counter + |f.body|)
  {
    FrameRead(f);
  }

  lemma ChunksSnoc(script: seq<S.Frame>, k: nat)
    requires k < |script|
    ensures Chunks(script[..k + 1]) == if script[k].body == [] then Chunks(script[..k]) else Chunks(script[..k]) + [script[k].body]
    ensures Lens(Chunks(script[..k + 1])) == Lens(Chunks(script[..k])) + |script[k].body|
  {
    assert script[..k + 1][..k] == script[..k];
    LensSnoc(Chunks(script[..k]), script[k].body);
  }

  lemma TakesNext(script: seq<S.Frame>, k: nat)
    requires Complete(script) && k < |script|
    ensures Accepted(Holding(script, k), script[k]) == Holding(script, k + 1)
  {
    ChunksSnoc(script, k);
  }

  predicate Within(script: seq<S.Frame>, lim: Limits) {
    var chunks := Chunks(script);
    |chunks| <= lim.chunks && Lens(chunks) <= lim.bytes && Lens(chunks) <= lim.total
  }

  lemma HoldingFits(script: seq<S.Frame>, lim: Limits, k: nat)
    requires Within(script, lim) && k < |script|
    ensures script[k].body != [] ==> Fits(Holding(script, k), lim, |script[k].body|, Holding(script, k).bytes + |script[k].body|)
    ensures Holding(script, k + 1).bytes == Holding(script, k).bytes + |script[k].body|
  {
    ChunksSnoc(script, k);
    ChunksMonotone(script, k + 1);
    LenMonotone(Chunks(script[..k + 1]), Chunks(script));
  }

  lemma PushOnto(c: Client, c': Client, lim: Limits, f: S.Frame)
    requires !c.ended && f.seqno == c.lastSeq + 1 && f.seqno <= H.MAX_INT64
    requires f.body != [] ==> Fits(c, lim, |f.body|, c.bytes + |f.body|)
    requires Accepted(c, f) == c' && c'.bytes == c.bytes + |f.body|
    ensures PushFrame((c, c.bytes), lim, f) == (c', c'.bytes)
  {
    PushNextFrame(c, lim, c.bytes, f);
  }

  lemma PushHolding(script: seq<S.Frame>, lim: Limits, k: nat)
    requires Complete(script) && Within(script, lim) && k < |script| <= H.MAX_INT64
    ensures PushFrame(Held(script, k), lim, script[k]) == Held(script, k + 1)
  {
    HoldingFits(script, lim, k);
    TakesNext(script, k);
    PushOnto(Holding(script, k), Holding(script, k + 1), lim, script[k]);
  }

  /** A complete stream that arrives in order and within the limits is there whole, and ended. */
  lemma {:induction false} InOrderArrivesWhole(script: seq<S.Frame>, lim: Limits, k: nat)
    requires Complete(script) && Within(script, lim) && 0 < |script| && k <= |script| <= H.MAX_INT64
    ensures PushFirst(script, lim, k) == Held(script, k)
    decreases k
  {
    if k > 0 {
      InOrderArrivesWhole(script, lim, k - 1);
      PushHolding(script, lim, k - 1);
    }
  }

  lemma {:induction false} LenMonotone(a: seq<Bytes>, b: seq<Bytes>)
    requires a <= b
    ensures Lens(a) <= Lens(b)
    decreases |a|
  {
    if a != [] {
      LenMonotone(a[1..], b[1..]);
    }
  }
}
