/** One delivery's settlement as the consumer carries it out (consumer.go: settle, deadLetter, requeueLater). */
module SettlePath {
  import opened RetryHops
  import S = Settlement
  import H = Headers

  /** The consumer's settings that settlement depends on. */
  datatype Spec = Spec(lateAck: bool, retries: bool, maxRetries: nat, dlqHandled: bool)

  /** What the handler left: a reply on success; on failure the caller-facing error, if any. */
  datatype Result = Ok(reply: bool) | Err(handled: bool, errReply: bool)

  datatype Op = PublishReply | PublishErrorReply | PublishRetry | PublishDeadLetter | SendAck | SendRequeue | SendReject

  predicate Settles(op: Op) { op.SendAck? || op.SendRequeue? || op.SendReject? }

  /** A publish whose failure must not be followed by an acknowledgement. */
  predicate Vital(op: Op) { op.PublishReply? || op.PublishRetry? || op.PublishDeadLetter? }

  /** Every operation is tried in order; nothing follows the one that settles. */
  predicate SettlesLast(ops: seq<Op>) {
    forall i | 0 <= i < |ops| - 1 :: !Settles(ops[i])
  }

  function ErrorReply(d: Message, errReply: bool): seq<Op> {
    if errReply && d.replyTo != "" then [PublishErrorReply] else []
  }

  /** A vital publish and what its result leads to. */
  function Behind(op: Op, confirmed: Op -> bool): seq<Op> {
    [op, if confirmed(op) then SendAck else SendRequeue]
  }

  /** The operations sent to the broker, in order, when `confirmed` says which publishes succeed. */
  function Path(spec: Spec, d: Message, res: Result, confirmed: Op -> bool): seq<Op> {
    match res
    case Ok(reply) =>
      if !spec.lateAck then (if reply && d.replyTo != "" then [PublishReply] else [])
      else if reply && d.replyTo != "" then Behind(PublishReply, confirmed)
      else [SendAck]
    case Err(handled, errReply) =>
      if !spec.lateAck then ErrorReply(d, errReply)
      else if spec.retries && !handled && H.RetryCount(d.headers) < spec.maxRetries then Behind(PublishRetry, confirmed)
      else if spec.retries && (!handled || spec.dlqHandled) then ErrorReply(d, errReply) + Behind(PublishDeadLetter, confirmed)
      else ErrorReply(d, errReply) + [SendReject]
  }

  method ReplyError(d: Message, errReply: bool, ops: seq<Op>) returns (out: seq<Op>)
    ensures out == ops + ErrorReply(d, errReply)
  {
    out := if !errReply || d.replyTo == "" then ops else ops + [PublishErrorReply];
  }

  method RequeueLater(spec: Spec, ops: seq<Op>) returns (out: seq<Op>)
    ensures out == if spec.lateAck then ops + [SendRequeue] else ops
  {
    out := if !spec.lateAck then ops else ops + [SendRequeue];
  }

  method DeadLetter(spec: Spec, d: Message, errReply: bool, confirmed: Op -> bool) returns (ops: seq<Op>)
    requires spec.lateAck
    ensures ops == ErrorReply(d, errReply) + Behind(PublishDeadLetter, confirmed)
  {
    ops := ReplyError(d, errReply, []);
    ops := ops + [PublishDeadLetter];
    if !confirmed(PublishDeadLetter) {
      ops := RequeueLater(spec, ops);
      return;
    }
    ops := ops + [SendAck];
  }

  method Settle(spec: Spec, d: Message, res: Result, confirmed: Op -> bool) returns (ops: seq<Op>)
    ensures ops == Path(spec, d, res, confirmed)
  {
    if res.Ok? {
      ops := [];
      if res.reply && d.replyTo != "" {
        ops := [PublishReply];
        if !confirmed(PublishReply) {
          ops := RequeueLater(spec, ops);
          return;
        }
      }
      if spec.lateAck {
        ops := ops + [SendAck];
      }
      return;
    }
    if !spec.lateAck {
      ops := ReplyError(d, res.errReply, []);
      return;
    }
    if spec.retries && !res.handled {
      if H.RetryCount(d.headers) < spec.maxRetries {
        ops := [PublishRetry];
        if !confirmed(PublishRetry) {
          ops := RequeueLater(spec, ops);
          return;
        }
        ops := ops + [SendAck];
        return;
      }
      ops := DeadLetter(spec, d, res.errReply, confirmed);
    } else if spec.retries && res.handled && spec.dlqHandled {
      ops := DeadLetter(spec, d, res.errReply, confirmed);
    } else {
      ops := ReplyError(d, res.errReply, []);
      ops := ops + [SendReject];
    }
  }

  /** An early-acked delivery is never settled again; any other exactly once, as the last operation. */
  lemma SettledOnceAndLast(spec: Spec, d: Message, res: Result, confirmed: Op -> bool)
    ensures var ops := Path(spec, d, res, confirmed);
      && (!spec.lateAck ==> forall i | 0 <= i < |ops| :: !Settles(ops[i]))
      && (spec.lateAck ==> ops != [] && Settles(ops[|ops| - 1]) && SettlesLast(ops))
  {
  }

  /**
    An acknowledgement comes only behind confirmed publishes: the reply of a
    success that has one, and for a failure a stored copy of the message. A
    requeue comes only after one of them was not confirmed.
   */
  lemma AckOnlyBehindPublish(spec: Spec, d: Message, res: Result, confirmed: Op -> bool)
    ensures var ops := Path(spec, d, res, confirmed);
      && (SendAck in ops ==> forall i | 0 <= i < |ops| && Vital(ops[i]) :: confirmed(ops[i]))
      && (SendAck in ops && res.Err? ==> PublishRetry in ops || PublishDeadLetter in ops)
      && (SendAck in ops && res == Ok(true) && d.replyTo != "" ==> PublishReply in ops)
      && (SendRequeue in ops ==> exists i :: 0 <= i < |ops| && Vital(ops[i]) && !confirmed(ops[i]))
  {
    var ops := Path(spec, d, res, confirmed);
    if SendRequeue in ops {
      assert Vital(ops[|ops| - 2]) && !confirmed(ops[|ops| - 2]);
    }
    if SendAck in ops && res.Err? {
      assert ops[|ops| - 2] in ops;
    }
    if SendAck in ops && res == Ok(true) && d.replyTo != "" {
      assert ops[0] == PublishReply;
    }
  }

  /** What consumer with retries decides is what the settlement machine takes as its next phase. */
  lemma PathFollowsMachine(w: S.World, spec: Spec, d: Message, r: S.HandlerResult, errReply: bool, confirmed: Op -> bool)
    requires spec == Spec(true, true, w.maxRetries, w.comp.Listener?) && (r.Succeeded? || r.Failed?)
    ensures var ops := Path(spec, d, if r.Succeeded? then Ok(r.reply) else Err(r.handled, errReply), confirmed);
      match S.Decide(w, d, r)
      case Replying => ops == Behind(PublishReply, confirmed)
      case Acking(_) => ops == [SendAck]
      case Retrying => ops == Behind(PublishRetry, confirmed)
      case DeadLettering => ops == ErrorReply(d, errReply) + Behind(PublishDeadLetter, confirmed)
      case _ => ops == ErrorReply(d, errReply) + [SendReject]
  {
  }
}
