/**
  The producing end of a server stream (stream.go): every frame is held back
  until the next one arrives, so that the last can carry the final flag.
 */
module StreamServer {
  import opened Basics
  import opened ProtoWire
  import E = Envelope

  /** A frame as it reaches the callbacks exchange. */
  datatype Frame = Frame(seqno: nat, final: bool, body: Bytes)

  datatype SendError = StreamEnded | PublishFailed | Finished

  /** What a publish reported, and whether the broker took the frame. */
  datatype Outcome = Confirmed | Refused | FailedButSent

  /** What one publish meets: whether the caller has cancelled, and how the publish ends. */
  datatype Env = Env(cancelled: bool, out: Outcome)

  datatype Server = Server(
    method_: Bytes,
    listening: bool,            // the request has a replyTo
    seqno: nat,
    pending: Option<Bytes>,
    err: Option<SendError>,
    done: bool,
    wire: seq<Frame>)           // frames the broker took

  function Fresh(method_: Bytes, listening: bool): Server {
    Server(method_, listening, 0, None, None, false, [])
  }

  function Body(method_: Bytes, data: Bytes): Bytes {
    E.EncodeResponse(E.Response(Some(E.ResponseResult(method_, data)), None))
  }

  function ErrorBody(e: E.ResponseError): Bytes {
    E.EncodeResponse(E.Response(None, Some(e)))
  }

  lemma BodiesNotEmpty(method_: Bytes, data: Bytes, e: E.ResponseError)
    ensures Body(method_, data) != [] && ErrorBody(e) != []
  {
    assert |Tag(1, 2)| > 0 && |Tag(2, 2)| > 0;
  }

  // ---- the steps ---------------------------------------------------------

  function AfterPublish(s: Server, body: Bytes, final: bool, env: Env): (Server, Option<SendError>) {
    if !s.listening then (s.(seqno := s.seqno + 1), None)
    else if env.cancelled then (s, Some(StreamEnded))
    else
      var wire := if env.out.Refused? then s.wire else s.wire + [Frame(s.seqno, final, body)];
      if env.out.Confirmed? then (s.(wire := wire, seqno := s.seqno + 1), None)
      else (s.(wire := wire), Some(PublishFailed))
  }

  /** `early` is a context already ended or a message that does not marshal. */
  function AfterSend(s: Server, early: bool, data: Bytes, env: Env): (Server, Option<SendError>) {
    if early then (s, Some(StreamEnded))
    else if s.done then (s, Some(Finished))
    else if s.err.Some? then (s, s.err)
    else
      var (s1, e) := if s.pending.Some? then AfterPublish(s, s.pending.value, false, env) else (s, None);
      if e.Some? then (s1.(err := e), e) else (s1.(pending := Some(Body(s.method_, data))), None)
  }

  function AfterFinish(s0: Server, cancelled: bool, failure: Option<E.ResponseError>, env: Env, env2: Env): (Server, Option<SendError>) {
    var s := s0.(done := true);
    if cancelled then (s, None)
    else if s.err.Some? then (s, s.err)
    else
      match failure
      case None => AfterPublish(s, if s.pending.Some? then s.pending.value else [], true, env)
      case Some(e) =>
        var (s1, err) := if s.pending.Some? then AfterPublish(s, s.pending.value, false, env) else (s, None);
        if err.Some? then (s1, err) else AfterPublish(s1, ErrorBody(e), true, env2)
  }

  class ServerStream {
    const method_: Bytes
    const listening: bool
    var seqno: nat
    var pending: Option<Bytes>
    var err: Option<SendError>
    var done: bool
    ghost var wire: seq<Frame>

    ghost function View(): Server
      reads this
    {
      Server(method_, listening, seqno, pending, err, done, wire)
    }

    constructor (method_: Bytes, listening: bool)
      ensures View() == Fresh(method_, listening)
    {
      this.method_, this.listening := method_, listening;
      seqno, pending, err, done, wire := 0, None, None, false, [];
    }

    method Publish(body: Bytes, final: bool, env: Env) returns (e: Option<SendError>)
      modifies this
      ensures (View(), e) == AfterPublish(old(View()), body, final, env)
    {
      if !listening {
        seqno := seqno + 1;
        return None;
      }
      if env.cancelled {
        return Some(StreamEnded);
      }
      if !env.out.Refused? {
        wire := wire + [Frame(seqno, final, body)];
      }
      if env.out.Confirmed? {
        seqno := seqno + 1;
        return None;
      }
      return Some(PublishFailed);
    }

    method SendMsg(early: bool, data: Bytes, env: Env) returns (e: Option<SendError>)
      modifies this
      ensures (View(), e) == AfterSend(old(View()), early, data, env)
    {
      if early {
        return Some(StreamEnded);
      }
      var body := Body(method_, data);
      if done {
        return Some(Finished);
      }
      if err.Some? {
        return err;
      }
      if pending.Some? {
        e := Publish(pending.value, false, env);
        if e.Some? {
          err := e;
          return;
        }
      }
      pending := Some(body);
      e := None;
    }

    method Finish(cancelled: bool, failure: Option<E.ResponseError>, env: Env, env2: Env) returns (e: Option<SendError>)
      modifies this
      ensures (View(), e) == AfterFinish(old(View()), cancelled, failure, env, env2)
    {
      done := true;
      if cancelled {
        return None;
      }
      if err.Some? {
        return err;
      }
      if failure.None? {
        e := Publish(if pending.Some? then pending.value else [], true, env);
        return;
      }
      if pending.Some? {
        e := Publish(pending.value, false, env);
        if e.Some? {
          return;
        }
      }
      e := Publish(ErrorBody(failure.value), true, env2);
    }
  }

  // ---- one handler attempt -----------------------------------------------

  datatype SendCall = SendCall(early: bool, data: Bytes, env: Env)

  function SendAll(s: Server, calls: seq<SendCall>): Server
    decreases |calls|
  {
    if calls == [] then s
    else
      var last := calls[|calls| - 1];
      AfterSend(SendAll(s, calls[..|calls| - 1]), last.early, last.data, last.env).0
  }

  /** The messages for which SendMsg returned nil, in order. */
  function Taken(s: Server, calls: seq<SendCall>): seq<Bytes>
    decreases |calls|
  {
    if calls == [] then []
    else
      var last := calls[|calls| - 1];
      var rest := Taken(s, calls[..|calls| - 1]);
      if AfterSend(SendAll(s, calls[..|calls| - 1]), last.early, last.data, last.env).1.None? then rest + [last.data] else rest
  }

  /** The frames of a complete stream: the messages, and the end on the last frame. */
  function Script(method_: Bytes, msgs: seq<Bytes>, failure: Option<E.ResponseError>): (frames: seq<Frame>)
    ensures |frames| == |msgs| + if failure.Some? || msgs == [] then 1 else 0
    ensures msgs == [] && failure.None? ==> frames[0].body == []
    ensures failure.Some? ==> frames[|msgs|].body == ErrorBody(failure.value)
    ensures forall i | 0 <= i < |frames| :: frames[i].seqno == i && (frames[i].final <==> i == |frames| - 1)
    ensures forall i | 0 <= i < |msgs| :: i < |frames| && frames[i].body == Body(method_, msgs[i])
  {
    match failure
    case Some(e) =>
      seq(|msgs|, i requires 0 <= i < |msgs| => Frame(i, false, Body(method_, msgs[i]))) + [Frame(|msgs|, true, ErrorBody(e))]
    case None =>
      if msgs == [] then [Frame(0, true, [])]
      else seq(|msgs|, i requires 0 <= i < |msgs| => Frame(i, i == |msgs| - 1, Body(method_, msgs[i])))
  }

  /** wire is what of `script` has been sent; a final flag is only ever on a complete stream. */
  ghost predicate Sends(wire: seq<Frame>, script: seq<Frame>) {
    && |wire| <= |script|
    && forall i | 0 <= i < |wire| ::
         wire[i].seqno == i && wire[i].body == script[i].body && (wire[i].final ==> wire == script)
  }

  /** While the handler runs. */
  ghost predicate Sending(s: Server, msgs: seq<Bytes>) {
    && !s.done
    && (!s.listening ==> s.wire == [] && s.err.None?)
    && |s.wire| <= |msgs|
    && (forall i | 0 <= i < |s.wire| :: s.wire[i] == Frame(i, false, Body(s.method_, msgs[i])))
    && (s.err.None? ==>
          && s.seqno == (if msgs == [] then 0 else |msgs| - 1)
          && s.pending == (if msgs == [] then None else Some(Body(s.method_, msgs[|msgs| - 1])))
          && (s.listening ==> |s.wire| == s.seqno))
  }

  lemma {:induction false} SendingKept(s: Server, calls: seq<SendCall>)
    requires s == Fresh(s.method_, s.listening)
    ensures Sending(SendAll(s, calls), Taken(s, calls))
    ensures SendAll(s, calls).method_ == s.method_ && SendAll(s, calls).listening == s.listening
    decreases |calls|
  {
    if calls != [] {
      SendingKept(s, calls[..|calls| - 1]);
    }
  }

  /**
    Whatever the handler sends and however its publishes end: the frames on the
    wire are those of its messages, in order and numbered from zero, and only a
    complete stream carries a final flag.
   */
  lemma WireFollowsScript(method_: Bytes, calls: seq<SendCall>, cancelled: bool, failure: Option<E.ResponseError>, env: Env, env2: Env)
    ensures var s := SendAll(Fresh(method_, true), calls);
      Sends(s.wire, Script(method_, Taken(Fresh(method_, true), calls), failure))
    ensures var s := AfterFinish(SendAll(Fresh(method_, true), calls), cancelled, failure, env, env2);
      var script := Script(method_, Taken(Fresh(method_, true), calls), failure);
      Sends(s.0.wire, script) && (s.1.None? && !cancelled ==> s.0.wire == script)
  {
    var s0 := Fresh(method_, true);
    SendingKept(s0, calls);
    var s := SendAll(s0, calls);
    var msgs := Taken(s0, calls);
    FinishFollows(s, msgs, cancelled, failure, env, env2);
  }

  /** What has been sent so far, seen against the script. */
  lemma SoFarSends(s: Server, msgs: seq<Bytes>, failure: Option<E.ResponseError>)
    requires Sending(s, msgs)
    ensures Sends(s.wire, Script(s.method_, msgs, failure))
  {
  }

  lemma CleanFinishFollows(s: Server, msgs: seq<Bytes>, env: Env, env2: Env)
    requires Sending(s, msgs) && s.listening
    ensures var f := AfterFinish(s, false, None, env, env2);
      var script := Script(s.method_, msgs, None);
      Sends(f.0.wire, script) && (f.1.None? ==> f.0.wire == script)
  {
    SoFarSends(s, msgs, None);
    var f := AfterFinish(s, false, None, env, env2);
    var script := Script(s.method_, msgs, None);
    if s.err.None? && f.0.wire != s.wire {
      assert f.0.wire == script;
    }
  }

  lemma FailedFinishFollows(s: Server, msgs: seq<Bytes>, e: E.ResponseError, env: Env, env2: Env)
    requires Sending(s, msgs) && s.listening
    ensures var f := AfterFinish(s, false, Some(e), env, env2);
      var script := Script(s.method_, msgs, Some(e));
      Sends(f.0.wire, script) && (f.1.None? ==> f.0.wire == script)
  {
    SoFarSends(s, msgs, Some(e));
    var f := AfterFinish(s, false, Some(e), env, env2);
    var script := Script(s.method_, msgs, Some(e));
    if |f.0.wire| == |script| {
      assert f.0.wire == script;
    }
  }

  lemma FinishFollows(s: Server, msgs: seq<Bytes>, cancelled: bool, failure: Option<E.ResponseError>, env: Env, env2: Env)
    requires Sending(s, msgs) && s.listening
    ensures var f := AfterFinish(s, cancelled, failure, env, env2);
      var script := Script(s.method_, msgs, failure);
      Sends(f.0.wire, script) && (f.1.None? && !cancelled ==> f.0.wire == script)
  {
    if cancelled {
      SoFarSends(s, msgs, failure);
    } else if failure.None? {
      CleanFinishFollows(s, msgs, env, env2);
    } else {
      FailedFinishFollows(s, msgs, failure.value, env, env2);
    }
  }

  /** Nobody asked for frames: none is published, and nothing fails. */
  lemma UnaskedIsSilent(method_: Bytes, calls: seq<SendCall>, failure: Option<E.ResponseError>, env: Env, env2: Env)
    ensures var f := AfterFinish(SendAll(Fresh(method_, false), calls), false, failure, env, env2);
      f.0.wire == [] && f.1.None?
  {
    SendingKept(Fresh(method_, false), calls);
  }
}
