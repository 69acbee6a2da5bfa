/**
  Settling deliveries over the broker (consumer.go): publish first, acknowledge
  second, on a channel that may die at any moment.

  A run is any interleaving of deliveries, handler results, publishes that are
  confirmed, refused or ambiguous, acknowledgements, channel deaths and TTL
  expiries, over any topology in which the component's declarations succeeded.
 */
module Settlement {
  import opened Basics
  import opened Routing
  import opened RetryHops
  import H = Headers

  // ---- the component and its topology ------------------------------------

  datatype Component = Service(name: string) | Listener(queue: string)

  function Base(c: Component): string {
    match c case Service(name) => name case Listener(queue) => queue
  }

  function DeadLetterTo(cfg: Config, c: Component): string {
    match c case Service(_) => cfg.bus case Listener(queue) => queue + REDELIVERY
  }

  function Declares(cfg: Config, c: Component, patterns: seq<string>, delay: nat): seq<Declare> {
    match c
    case Service(name) => ServiceDeclares(cfg, name, delay)
    case Listener(queue) => ListenerDeclares(cfg, queue, patterns, delay)
  }

  /** The component's own declarations are in force. */
  ghost predicate Wired(cfg: Config, t: Topology, c: Component, delay: nat) {
    && ConfigOk(cfg) && Sound(cfg, t)
    && (c.Service? ==> PlainName(c.name) && Done(t, BindQueue(c.name, RequestBinding(c.name), cfg.bus)))
    && (c.Listener? ==> Done(t, BindQueue(c.queue, "#", c.queue + REDELIVERY)))
    && Done(t, DeclareQueue(Base(c), PLAIN))
    && forall k | 0 <= k < 4 :: Done(t, RetryDeclares(Base(c), delay, DeadLetterTo(cfg, c))[k])
  }

  lemma DeclaredStays(cfg: Config, t0: Topology, ds: seq<Declare>, later: seq<Declare>, k: nat)
    requires Sound(cfg, t0) && AllAccepted(t0, ds) && k < |ds|
    requires forall i | 0 <= i < |ds| :: Protobus(cfg, ds[i])
    requires forall i | 0 <= i < |later| :: Protobus(cfg, later[i])
    ensures var t := ApplyAll(ApplyAll(t0, ds), later); Sound(cfg, t) && Done(t, ds[k])
  {
    var t1 := ApplyAll(t0, ds);
    ApplyAllKeeps(cfg, t0, ds);
    ApplyAllKeeps(cfg, t1, later);
    AcceptedIsDone(t0, ds, k);
    DoneStays(t1, ApplyAll(t1, later), ds[k]);
  }

  lemma DeclaresAreProtobus(cfg: Config, c: Component, patterns: seq<string>, delay: nat)
    requires ConfigOk(cfg) && (c.Service? ==> PlainName(c.name))
    ensures forall k | 0 <= k < |Declares(cfg, c, patterns, delay)| :: Protobus(cfg, Declares(cfg, c, patterns, delay)[k])
  {
    var ds := Declares(cfg, c, patterns, delay);
    forall k | 0 <= k < |ds| ensures Protobus(cfg, ds[k]) {
      if c.Service? {
        ServiceIsProtobus(cfg, c.name, delay, k);
      } else {
        ListenerIsProtobus(cfg, c.queue, patterns, delay, k);
      }
    }
  }

  /** Where a component's declarations stand in its list. */
  function RetryAt(c: Component, patterns: seq<string>): nat {
    if c.Service? then 3 else |patterns| + 4
  }

  lemma DeclaresLayout(cfg: Config, c: Component, patterns: seq<string>, delay: nat)
    ensures var ds := Declares(cfg, c, patterns, delay);
      && |ds| == RetryAt(c, patterns) + 4
      && ds[1] == DeclareQueue(Base(c), PLAIN)
      && (c.Service? ==> ds[2] == BindQueue(c.name, RequestBinding(c.name), cfg.bus))
      && (c.Listener? ==> ds[|patterns| + 3] == BindQueue(c.queue, "#", c.queue + REDELIVERY))
      && ds[RetryAt(c, patterns)..] == RetryDeclares(Base(c), delay, DeadLetterTo(cfg, c))
  {
  }

  /** Once started, a component stays wired whatever any component declares later. */
  lemma StartedStaysWired(cfg: Config, t0: Topology, c: Component, patterns: seq<string>, delay: nat, later: seq<Declare>)
    requires ConfigOk(cfg) && Sound(cfg, t0) && (c.Service? ==> PlainName(c.name))
    requires AllAccepted(t0, Declares(cfg, c, patterns, delay))
    requires forall i | 0 <= i < |later| :: Protobus(cfg, later[i])
    ensures Wired(cfg, ApplyAll(ApplyAll(t0, Declares(cfg, c, patterns, delay)), later), c, delay)
  {
    var ds := Declares(cfg, c, patterns, delay);
    var t := ApplyAll(ApplyAll(t0, ds), later);
    DeclaresAreProtobus(cfg, c, patterns, delay);
    DeclaresLayout(cfg, c, patterns, delay);
    DeclaredStays(cfg, t0, ds, later, 1);
    DeclaredStays(cfg, t0, ds, later, if c.Service? then 2 else |patterns| + 3);
    var retry := RetryDeclares(Base(c), delay, DeadLetterTo(cfg, c));
    forall k | 0 <= k < 4 ensures Done(t, retry[k]) {
      TailStays(cfg, t0, ds, later, RetryAt(c, patterns), retry, k);
    }
  }

  lemma TailStays(cfg: Config, t0: Topology, ds: seq<Declare>, later: seq<Declare>, at: nat, tail: seq<Declare>, k: nat)
    requires Sound(cfg, t0) && AllAccepted(t0, ds) && at <= |ds| && ds[at..] == tail && k < |tail|
    requires forall i | 0 <= i < |ds| :: Protobus(cfg, ds[i])
    requires forall i | 0 <= i < |later| :: Protobus(cfg, later[i])
    ensures Done(ApplyAll(ApplyAll(t0, ds), later), tail[k])
  {
    DeclaredStays(cfg, t0, ds, later, at + k);
    assert ds[at..][k] == ds[at + k];
  }

  /** The keys under which a message belongs to the component. */
  predicate HomeKey(c: Component, key: string) {
    c.Service? ==> ServiceKey(c.name, key)
  }

  // ---- the machine -------------------------------------------------------

  type Tag = nat

  /** A broker-side copy of the message accepted as `origin`, and the failed attempts it has behind it. */
  datatype Copy = Copy(origin: nat, msg: Message, hops: seq<Env>)

  /** Why a delivery is being acknowledged. */
  datatype AckReason = Finished | Copied

  /** How far the consumer is with a delivery. */
  datatype Phase =
    | Handling
    | Replying
    | Retrying
    | DeadLettering
    | Acking(why: AckReason)
    | Requeueing
    | Rejecting
    | Abandoned             // its channel is gone: nothing more to do

  datatype InFlight = InFlight(copy: Copy, channel: nat, phase: Phase)

  datatype World = World(
    cfg: Config,
    topo: Topology,
    comp: Component,
    delay: nat,                   // the retry queue's TTL
    maxRetries: nat,
    queues: map<string, seq<Copy>>,
    inflight: map<Tag, InFlight>,
    dead: set<nat>,               // channels that have died
    accepted: map<nat, Message>,
    finished: set<nat>,           // acknowledged after success, an answered error or a cancel
    rejected: set<nat>)

  function RetryQueue(w: World): string { Base(w.comp) + RETRY }
  function RetryExchange(w: World): string { Base(w.comp) + RETRY_EXCHANGE }
  function DlqQueue(w: World): string { Base(w.comp) + DLQ }

  /** What the handler decided, or what ended it. */
  datatype HandlerResult = Succeeded(reply: bool) | Failed(handled: bool) | CancelledByCaller | ChannelGone

  /** process and settle up to the first broker operation, for a late-ack consumer with retries. */
  function Decide(w: World, d: Message, r: HandlerResult): Phase {
    match r
    case CancelledByCaller => Acking(Finished)
    case ChannelGone => Abandoned
    case Succeeded(reply) => if reply && d.replyTo != "" then Replying else Acking(Finished)
    case Failed(handled) =>
      if !handled then (if H.RetryCount(d.headers) < w.maxRetries then Retrying else DeadLettering)
      else if w.comp.Listener? then DeadLettering  // dlqHandled
      else Rejecting
  }

  /** What publish told the consumer, and whether the broker stored the message. */
  datatype PublishOutcome = Confirmed | FailedUnstored | FailedStored

  /** Appends a copy to every queue the publish reaches. */
  ghost function Publish(w: World, c: Copy): map<string, seq<Copy>> {
    map q | q in w.queues ::
      if Reaches(w.topo, c.msg.exchange, c.msg.key, q) then w.queues[q] + [c] else w.queues[q]
  }

  datatype Action =
    | Accept(origin: nat, m: Message)
    | Deliver(i: nat, channel: nat, tag: Tag)
    | HandlerEnds(tag: Tag, r: HandlerResult)
    | ReplyPublished(tag: Tag, out: PublishOutcome)
    | RetryPublished(tag: Tag, out: PublishOutcome, env: Env)
    | DeadLetterPublished(tag: Tag, out: PublishOutcome, env: Env)
    | Ack(tag: Tag)
    | Requeue(tag: Tag)
    | Reject(tag: Tag)
    | ChannelDies(channel: nat)
    | Expire(i: nat)
    | OthersDeclare(d: Declare)

  predicate InPhase(w: World, tag: Tag, p: Phase) {
    tag in w.inflight && w.inflight[tag].phase == p && w.inflight[tag].channel !in w.dead
  }

  ghost predicate Enabled(w: World, a: Action) {
    match a
    // a publisher's message that the broker routes to this component's queue
    case Accept(origin, m) =>
      && origin !in w.accepted && HomeKey(w.comp, m.key)
      && Reaches(w.topo, m.exchange, m.key, Base(w.comp))
      && !Reaches(w.topo, m.exchange, m.key, RetryQueue(w)) && !Reaches(w.topo, m.exchange, m.key, DlqQueue(w))
    case Deliver(i, channel, tag) =>
      Base(w.comp) in w.queues && i < |w.queues[Base(w.comp)]| && channel !in w.dead && tag !in w.inflight
    // a service never fails an attempt as handled: it answers such errors
    case HandlerEnds(tag, r) => InPhase(w, tag, Handling) && (r == Failed(true) ==> w.comp.Listener?)
    case ReplyPublished(tag, _) => InPhase(w, tag, Replying)
    case RetryPublished(tag, _, _) => InPhase(w, tag, Retrying)
    case DeadLetterPublished(tag, _, _) => InPhase(w, tag, DeadLettering)
    case Ack(tag) => InPhase(w, tag, Acking(Finished)) || InPhase(w, tag, Acking(Copied))
    case Requeue(tag) => InPhase(w, tag, Requeueing) && Base(w.comp) in w.queues
    case Reject(tag) => InPhase(w, tag, Rejecting)
    case ChannelDies(channel) => channel !in w.dead && Base(w.comp) in w.queues
    case Expire(i) =>
      && RetryQueue(w) in w.queues && i < |w.queues[RetryQueue(w)]|
      && RetryQueue(w) in w.topo.queues && w.topo.queues[RetryQueue(w)].ttl.Some?
    // any component starting, restarting or binding in the meantime
    case OthersDeclare(d) => Protobus(w.cfg, d) && Accepted(w.topo, d)
  }

  function SetPhase(w: World, tag: Tag, p: Phase): World
    requires tag in w.inflight
  {
    w.(inflight := w.inflight[tag := w.inflight[tag].(phase := p)])
  }

    /** The copies held unacknowledged on a channel, as they go back to the queue. */
  ghost function HeldOn(inflight: map<Tag, InFlight>, channel: nat): seq<Copy>
    decreases |inflight|
  {
    if tag :| tag in inflight && inflight[tag].channel == channel then
      [inflight[tag].copy] + HeldOn(inflight - {tag}, channel)
    else []
  }

  ghost function Next(w: World, a: Action): World
    requires Enabled(w, a)
  {
    var base := Base(w.comp);
    match a
    case Accept(origin, m) => w.(queues := Publish(w, Copy(origin, m, [])), accepted := w.accepted[origin := m])
    case Deliver(i, channel, tag) =>
      w.(queues := w.queues[base := Without(w.queues[base], i)],
         inflight := w.inflight[tag := InFlight(w.queues[base][i], channel, Handling)])
    case HandlerEnds(tag, r) => SetPhase(w, tag, Decide(w, w.inflight[tag].copy.msg, r))
    case ReplyPublished(tag, out) => SetPhase(w, tag, if out.Confirmed? then Acking(Finished) else Requeueing)
    case RetryPublished(tag, out, env) =>
      var c := w.inflight[tag].copy;
      var copy := RetryCopy(c.msg, RetryExchange(w), H.RetryCount(c.msg.headers), env);
      var w1 := SetPhase(w, tag, if out.Confirmed? then Acking(Copied) else Requeueing);
      if out.FailedUnstored? then w1 else w1.(queues := Publish(w, Copy(c.origin, copy, c.hops + [env])))
    case DeadLetterPublished(tag, out, env) =>
      var c := w.inflight[tag].copy;
      var copy := DeadLetterCopy(c.msg, base, DlqQueue(w), H.RetryCount(c.msg.headers), env);
      var w1 := SetPhase(w, tag, if out.Confirmed? then Acking(Copied) else Requeueing);
      if out.FailedUnstored? then w1 else w1.(queues := Publish(w, Copy(c.origin, copy, c.hops + [env])))
    case Ack(tag) =>
      var f := w.inflight[tag];
      w.(inflight := w.inflight - {tag},
         finished := if f.phase == Acking(Finished) then w.finished + {f.copy.origin} else w.finished)
    case Requeue(tag) =>
      w.(inflight := w.inflight - {tag},
         queues := w.queues[base := [w.inflight[tag].copy] + w.queues[base]])
    case Reject(tag) =>
      w.(inflight := w.inflight - {tag}, rejected := w.rejected + {w.inflight[tag].copy.origin})
    case ChannelDies(channel) =>
      w.(dead := w.dead + {channel},
         inflight := map tag | tag in w.inflight && w.inflight[tag].channel != channel :: w.inflight[tag],
         queues := w.queues[base := HeldOn(w.inflight, channel) + w.queues[base]])
    case Expire(i) =>
      var retry := RetryQueue(w);
      var c := w.queues[retry][i];
      var w1 := w.(queues := w.queues[retry := Without(w.queues[retry], i)]);
      var args := w.topo.queues[retry];
      if args.dlx.None? || args.dlx.value !in w.topo.exchanges then w1
      else
        var key := if args.dlxKey.Some? then args.dlxKey.value else c.msg.key;
        w1.(queues := Publish(w1, Copy(c.origin, Expired(c.msg, args.dlx.value, key), c.hops)))
    case OthersDeclare(d) =>
      var w1 := w.(topo := Apply(w.topo, d));
      if d.DeclareQueue? && d.name !in w.queues then w1.(queues := w.queues[d.name := []]) else w1
  }
}
