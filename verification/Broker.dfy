/**
  The in-memory broker's queues, deliveries and settlements
  (internal/fakebroker). Routing decides the target queues and is modelled
  apart; a publish here names the queues it reaches.
 */
module Broker {
  import opened Basics

  type MsgId = nat
  type QueueId = nat
  type ConsId = nat
  type ChanId = nat

  /** A delivery tag, on its channel. */
  datatype Tag = Tag(ch: ChanId, n: nat)

  datatype Queue = Queue(
    maxPriority: nat,
    autoDelete: bool,
    msgs: seq<MsgId>,
    consumers: seq<ConsId>,
    rr: nat,
    deleted: bool)

  datatype Cons = Cons(ch: ChanId, q: QueueId, autoAck: bool, prefetch: nat, unacked: int)

  datatype Inflight = Inflight(msg: MsgId, q: QueueId, cons: ConsId)

  /** Why a message is in no queue and no delivery any more. */
  datatype Reason =
    | Acked
    | Rejected
    | Expired
    | AutoAcked        // handed to a consumer that acknowledges on delivery
    | QueueDeleted     // waiting in a queue that was deleted
    | NoQueue          // stored in, or returned to, a queue already deleted

  datatype Place = Queued(q: QueueId) | Unacked(tag: Tag) | Gone(why: Reason)

  /** A delivery as the broker's operation log records it. */
  datatype Handover = Handover(msg: MsgId, cons: ConsId, auto: bool)

  datatype State = State(
    queues: map<QueueId, Queue>,
    cons: map<ConsId, Cons>,
    lastTag: map<ChanId, nat>,        // every channel ever opened
    closed: set<ChanId>,
    unacked: map<Tag, Inflight>,
    next: MsgId,                      // messages stored so far
    prio: map<MsgId, nat>,
    redelivered: set<MsgId>,
    handed: seq<Handover>,            // every delivery, in order
    at: map<MsgId, Place>)            // ledger, tied to the rest by the invariant

  // ---- picking a message and a consumer ----------------------------------

  function Clamped(prio: map<MsgId, nat>, m: MsgId, maxPriority: nat): int {
    if m !in prio then 0 else if prio[m] < maxPriority then prio[m] else maxPriority
  }

  /** k is the first message of the highest clamped priority. */
  predicate IsNext(prio: map<MsgId, nat>, msgs: seq<MsgId>, maxPriority: nat, k: nat) {
    && k < |msgs|
    && (forall j | 0 <= j < |msgs| :: Clamped(prio, msgs[j], maxPriority) <= Clamped(prio, msgs[k], maxPriority))
    && (forall j | 0 <= j < k :: Clamped(prio, msgs[j], maxPriority) < Clamped(prio, msgs[k], maxPriority))
  }

  /** The search of next(), resumed at i with the best so far. */
  function Best(prio: map<MsgId, nat>, msgs: seq<MsgId>, maxPriority: nat, i: nat, best: nat): (k: nat)
    requires best < i <= |msgs| && IsNext(prio, msgs[..i], maxPriority, best)
    ensures IsNext(prio, msgs, maxPriority, k)
    decreases |msgs| - i
  {
    if i == |msgs| then
      assert msgs[..i] == msgs;
      best
    else
      var better := Clamped(prio, msgs[i], maxPriority) > Clamped(prio, msgs[best], maxPriority);
      assert forall j | 0 <= j < i :: msgs[..i][j] == msgs[..i + 1][j];
      assert msgs[..i + 1][i] == msgs[i];
      Best(prio, msgs, maxPriority, i + 1, if better then i else best)
  }

  function NextIndex(prio: map<MsgId, nat>, msgs: seq<MsgId>, maxPriority: nat): (k: nat)
    requires msgs != []
    ensures IsNext(prio, msgs, maxPriority, k)
  {
    Best(prio, msgs, maxPriority, 1, 0)
  }

  /** Only one index can be next. */
  lemma NextIsUnique(prio: map<MsgId, nat>, msgs: seq<MsgId>, maxPriority: nat, k: nat, j: nat)
    requires IsNext(prio, msgs, maxPriority, k) && IsNext(prio, msgs, maxPriority, j)
    ensures k == j
  {
    assert Clamped(prio, msgs[k], maxPriority) == Clamped(prio, msgs[j], maxPriority);
  }

  method FindNext(prio: map<MsgId, nat>, msgs: seq<MsgId>, maxPriority: nat) returns (best: nat)
    requires msgs != []
    ensures IsNext(prio, msgs, maxPriority, best)
  {
    if maxPriority == 0 {
      return 0;
    }
    best := 0;
    var bestP := -1;
    var i := 0;
    while i < |msgs|
      invariant 0 <= i <= |msgs| && best < |msgs|
      invariant i == 0 ==> best == 0 && bestP == -1
      invariant i > 0 ==> best < i && bestP == Clamped(prio, msgs[best], maxPriority)
      invariant forall j | 0 <= j < i :: Clamped(prio, msgs[j], maxPriority) <= bestP
      invariant forall j | 0 <= j < best :: Clamped(prio, msgs[j], maxPriority) < bestP
    {
      var p := Clamped(prio, msgs[i], maxPriority);
      if p > bestP {
        best, bestP := i, p;
      }
      i := i + 1;
    }
  }

  predicate HasCapacity(c: Cons) {
    c.autoAck || c.prefetch == 0 || c.unacked < c.prefetch
  }

  predicate CanTake(s: State, c: ConsId) {
    c in s.cons && s.cons[c].ch in s.lastTag && HasCapacity(s.cons[c])
  }

  /** The consumer at distance i from the round-robin mark. */
  function At(q: Queue, i: nat): ConsId
    requires q.consumers != []
  {
    q.consumers[(q.rr + i) % |q.consumers|]
  }

  /** The first distance, from i on, at which a consumer has room. */
  function Pick(s: State, q: Queue, i: nat): (r: Option<nat>)
    requires q.consumers != [] && i <= |q.consumers|
    ensures r.Some? ==> i <= r.value < |q.consumers| && CanTake(s, At(q, r.value))
    ensures r.Some? ==> forall j | i <= j < r.value :: !CanTake(s, At(q, j))
    ensures r.None? ==> forall j | i <= j < |q.consumers| :: !CanTake(s, At(q, j))
    decreases |q.consumers| - i
  {
    if i == |q.consumers| then None
    else if CanTake(s, At(q, i)) then Some(i)
    else Pick(s, q, i + 1)
  }

  // ---- steps under the broker's lock -------------------------------------

    /** Message k leaves queue q; the round-robin mark moves past the consumer at distance i. */
  function TakeOut(s: State, q: QueueId, i: nat, k: nat): State
    requires q in s.queues && s.queues[q].consumers != [] && k < |s.queues[q].msgs|
  {
    var queue := s.queues[q];
    s.(queues := s.queues[q := queue.(msgs := Without(queue.msgs, k), rr := (queue.rr + i + 1) % |queue.consumers|)],
       at := s.at[queue.msgs[k] := Gone(NoQueue)])
  }

  /** Message m is delivered to consumer c under the next tag of its channel. */
  function HandTo(s: State, c: ConsId, m: MsgId): State
    requires c in s.cons && s.cons[c].ch in s.lastTag
  {
    var ch := s.cons[c].ch;
    var t := Tag(ch, s.lastTag[ch] + 1);
    var s1 := s.(lastTag := s.lastTag[ch := t.n], handed := s.handed + [Handover(m, c, s.cons[c].autoAck)]);
    if s.cons[c].autoAck then s1.(at := s.at[m := Gone(AutoAcked)])
    else
      s1.(unacked := s.unacked[t := Inflight(m, s.cons[c].q, c)],
          cons := s.cons[c := s.cons[c].(unacked := s.cons[c].unacked + 1)],
          at := s.at[m := Unacked(t)])
  }

  function DeliverTo(s: State, q: QueueId, i: nat, k: nat): (r: State)
    requires q in s.queues && s.queues[q].consumers != [] && k < |s.queues[q].msgs| && CanTake(s, At(s.queues[q], i))
    ensures r.queues.Keys == s.queues.Keys && |r.queues[q].msgs| == |s.queues[q].msgs| - 1
  {
    HandTo(TakeOut(s, q, i, k), At(s.queues[q], i), s.queues[q].msgs[k])
  }

  /** Hands out waiting messages while a consumer has room. */
  function Dispatch(s: State, q: QueueId): (r: State)
    requires q in s.queues
    ensures r.queues.Keys == s.queues.Keys
    decreases |s.queues[q].msgs|
  {
    var queue := s.queues[q];
    if queue.msgs == [] || queue.consumers == [] then s
    else
      match Pick(s, queue, 0)
      case None => s
      case Some(i) =>
        var s1 := DeliverTo(s, q, i, NextIndex(s.prio, queue.msgs, queue.maxPriority));
        Dispatch(s1, q)
  }

  /** m joins the queue; only a message that was delivered before goes to the head. */
  function Join(s: State, q: QueueId, m: MsgId, front: bool): State
    requires q in s.queues
  {
    var queue := s.queues[q];
    var msgs := if front then [m] + queue.msgs else queue.msgs + [m];
    s.(queues := s.queues[q := queue.(msgs := msgs)],
       redelivered := if front then s.redelivered + {m} else s.redelivered,
       at := s.at[m := Queued(q)])
  }

  function Enqueue(s: State, q: QueueId, m: MsgId, front: bool): (r: State)
    requires q in s.queues
    ensures r.queues.Keys == s.queues.Keys
  {
    if s.queues[q].deleted then s else Dispatch(Join(s, q, m, front), q)
  }

  /** A message with its own number, in no queue yet. */
  function Numbered(s: State, p: nat): State {
    s.(next := s.next + 1, prio := s.prio[s.next := p], at := s.at[s.next := Gone(NoQueue)])
  }

  /** A message is stored in each target in turn, with its own copy and its own dispatch. */
  function Store(s: State, targets: seq<QueueId>, p: nat): (r: State)
    ensures r.queues.Keys == s.queues.Keys
    decreases |targets|
  {
    if targets == [] then s
    else if targets[0] !in s.queues then Store(s, targets[1..], p)
    else Store(Enqueue(Numbered(s, p), targets[0], s.next, false), targets[1..], p)
  }

  /** Takes a delivery off the books of its channel and its consumer. */
  function Release(s: State, t: Tag, why: Reason): State
    requires t in s.unacked
  {
    var f := s.unacked[t];
    var cons := if f.cons in s.cons then s.cons[f.cons := s.cons[f.cons].(unacked := s.cons[f.cons].unacked - 1)] else s.cons;
    s.(unacked := s.unacked - {t}, cons := cons, at := s.at[f.msg := Gone(why)])
  }

  /** Puts one delivery back at the head of its queue. */
  function PutBack(s: State, t: Tag): (r: State)
    requires t in s.unacked
    ensures r.queues.Keys == s.queues.Keys
  {
    var f, s1 := s.unacked[t], Release(s, t, NoQueue);
    if f.q in s1.queues then Enqueue(s1, f.q, f.msg, true) else s1
  }

  /** The delivery under t goes back, if there is one. */
  function PutBackAt(s: State, t: Tag): (r: State)
    ensures r.queues.Keys == s.queues.Keys
  {
    if t in s.unacked then PutBack(s, t) else s
  }

  /** The channel's deliveries go back, the latest first. */
  function PutBackAll(s: State, ch: ChanId, n: nat): (r: State)
    ensures r.queues.Keys == s.queues.Keys
    decreases n
  {
    if n == 0 then s else PutBackAll(PutBackAt(s, Tag(ch, n)), ch, n - 1)
  }

  function Lost(at: map<MsgId, Place>, msgs: seq<MsgId>): map<MsgId, Place> {
    map m | m in at :: if m in msgs then Gone(QueueDeleted) else at[m]
  }

  function DeleteQueue(s: State, q: QueueId): State
    requires q in s.queues
  {
    var queue := s.queues[q];
    s.(queues := s.queues[q := queue.(deleted := true, msgs := [], consumers := [])], at := Lost(s.at, queue.msgs))
  }

  function Others(consumers: seq<ConsId>, c: ConsId): (r: seq<ConsId>)
    ensures forall x :: x in r <==> x in consumers && x != c
  {
    if consumers == [] then []
    else if consumers[0] == c then Others(consumers[1..], c)
    else [consumers[0]] + Others(consumers[1..], c)
  }

  /** Consumer c is served from queue q. */
  predicate ListedIn(s: State, c: ConsId, q: QueueId) {
    c in s.cons && s.cons[c].q == q && q in s.queues && c in s.queues[q].consumers
  }

  /** Taking a consumer off its queue. */
  function Unlist(s: State, c: ConsId, q: QueueId): State
    requires q in s.queues
  {
    s.(queues := s.queues[q := s.queues[q].(consumers := Others(s.queues[q].consumers, c))])
  }

  /** removeConsumer: the last consumer of an auto-delete queue takes the queue with it. */
  function RemoveConsumer(s: State, c: ConsId): (r: State)
    ensures r.queues.Keys == s.queues.Keys
  {
    if c !in s.cons || !ListedIn(s, c, s.cons[c].q) then s
    else
      var q := s.cons[c].q;
      var s1 := Unlist(s, c, q);
      if s1.queues[q].autoDelete && s1.queues[q].consumers == [] && !s1.queues[q].deleted then DeleteQueue(s1, q) else s1
  }

  /** Removes the listed consumers, in the given order. */
  function RemoveAll(s: State, order: seq<ConsId>): (r: State)
    ensures r.queues.Keys == s.queues.Keys
    decreases |order|
  {
    if order == [] then s else RemoveAll(RemoveConsumer(s, order[0]), order[1..])
  }

  function Shutdown(s: State, ch: ChanId, order: seq<ConsId>): (r: State)
    requires ch in s.lastTag
    ensures r.queues.Keys == s.queues.Keys
  {
    if ch in s.closed then s
    else
      var s1 := PutBackAll(RemoveAll(s, order), ch, s.lastTag[ch]);
      s1.(closed := s1.closed + {ch})
  }
}
