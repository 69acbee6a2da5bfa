/** What holds on every run of the broker. */
module BrokerTheorems {
  import opened Basics
  import opened Broker
  import opened BrokerInvariant
  import opened BrokerRuns

  datatype How = Ack | Requeue | Reject(targets: seq<QueueId>)

  datatype Action =
    | OpenChannel(ch: ChanId)
    | DeclareQueue(q: QueueId, maxPriority: nat, autoDelete: bool)
    | Consume(c: ConsId, ch: ChanId, q: QueueId, autoAck: bool, prefetch: nat)
    | Cancel(c: ConsId)
    | Publish(targets: seq<QueueId>, p: nat)
    | Settle(t: Tag, how: How, order: seq<ConsId>)
    | CloseChannel(ch: ChanId, order: seq<ConsId>)
    | Expire(q: QueueId, k: nat, targets: seq<QueueId>)
    | Delete(q: QueueId)

  predicate Enabled(s: State, a: Action) {
    match a
    case OpenChannel(ch) => ch !in s.lastTag
    case DeclareQueue(q, _, _) => q !in s.queues
    case Consume(c, ch, q, _, _) =>
      c !in s.cons && ch in s.lastTag && ch !in s.closed && q in s.queues && !s.queues[q].deleted
    case Cancel(c) => c in s.cons
    case Publish(_, _) => true
    case Settle(t, _, order) => t.ch in s.lastTag && Lists(s, t.ch, order)
    case CloseChannel(ch, order) => ch in s.lastTag && Lists(s, ch, order)
    case Expire(q, k, _) => q in s.queues && k < |s.queues[q].msgs|
    case Delete(q) => q in s.queues
  }

  function Priority(s: State, m: MsgId): nat { if m in s.prio then s.prio[m] else 0 }

  function DispatchAt(s: State, q: QueueId): State { if q in s.queues then Dispatch(s, q) else s }

  /** One settled delivery; what it frees is handed out at once. */
  function Settled(s: State, t: Tag, how: How): State
    requires t in s.unacked
  {
    var f := s.unacked[t];
    match how
    case Ack => DispatchAt(Release(s, t, Acked), f.q)
    case Requeue => DispatchAt(PutBack(s, t), f.q)
    case Reject(targets) => DispatchAt(Store(Release(s, t, Rejected), targets, Priority(s, f.msg)), f.q)
  }

  function Consuming(s: State, c: ConsId, cons: Cons): State
    requires cons.q in s.queues
  {
    var queue := s.queues[cons.q];
    s.(cons := s.cons[c := cons], queues := s.queues[cons.q := queue.(consumers := queue.consumers + [c])])
  }

  /** Message k leaves its queue for good. */
  function TimedOut(s: State, q: QueueId, k: nat): State
    requires q in s.queues && k < |s.queues[q].msgs|
  {
    var queue := s.queues[q];
    s.(queues := s.queues[q := queue.(msgs := Without(queue.msgs, k))], at := s.at[queue.msgs[k] := Gone(Expired)])
  }

  function Next(s: State, a: Action): State
    requires Enabled(s, a)
  {
    match a
    case OpenChannel(ch) => s.(lastTag := s.lastTag[ch := 0])
    case DeclareQueue(q, maxPriority, autoDelete) =>
      s.(queues := s.queues[q := Queue(maxPriority, autoDelete, [], [], 0, false)])
    case Consume(c, ch, q, autoAck, prefetch) => Dispatch(Consuming(s, c, Cons(ch, q, autoAck, prefetch, 0)), q)
    case Cancel(c) => RemoveConsumer(s, c)
    case Publish(targets, p) => Store(s, targets, p)
    case Settle(t, how, order) =>
      if t.ch in s.closed then s
      else if t !in s.unacked then Shutdown(s, t.ch, order)
      else Settled(s, t, how)
    case CloseChannel(ch, order) => Shutdown(s, ch, order)
    case Expire(q, k, targets) => Store(TimedOut(s, q, k), targets, Priority(s, s.queues[q].msgs[k]))
    case Delete(q) => Broker.DeleteQueue(s, q)
  }

  // ---- the invariant is kept ---------------------------------------------

  lemma NumberedKeepsInv(s: State, p: nat)
    requires Inv(s)
    ensures Inv(Numbered(s, p)) && s.next !in s.at
  {
    var s' := Numbered(s, p);
    assert s.next in s.at ==> PlaceOk(s, s.next);
    forall x | x in s'.queues ensures QueueOk(s', x) { assert QueueOk(s, x); }
    forall x | x in s'.at && x != s.next ensures PlaceOk(s', x) { assert PlaceOk(s, x); }
    assert PlaceOk(s', s.next);
    RefsKept(s, s');
    TagsKept(s, s');
    CountsKept(s, s');
  }

  lemma StoreOneKeeps(s: State, q: QueueId, p: nat)
    requires Inv(s) && q in s.queues
    ensures Inv(Enqueue(Numbered(s, p), q, s.next, false))
  {
    NumberedKeepsInv(s, p);
    EnqueueKeepsInv(Numbered(s, p), q, s.next, false);
  }

  lemma {:induction false} StoreKeepsInv(s: State, targets: seq<QueueId>, p: nat)
    requires Inv(s)
    ensures Inv(Store(s, targets, p))
    decreases |targets|
  {
    if targets != [] {
      if targets[0] in s.queues {
        StoreOneKeeps(s, targets[0], p);
        StoreKeepsInv(Enqueue(Numbered(s, p), targets[0], s.next, false), targets[1..], p);
      } else {
        StoreKeepsInv(s, targets[1..], p);
      }
    }
  }

  lemma ConsumeKeepsInv(s: State, c: ConsId, cons: Cons)
    requires Inv(s) && c !in s.cons && cons.ch in s.lastTag && cons.ch !in s.closed && cons.unacked == 0
    requires cons.q in s.queues && !s.queues[cons.q].deleted
    ensures Inv(Consuming(s, c, cons))
  {
    var s' := Consuming(s, c, cons);
    forall q, x | q in s'.queues && x in s'.queues[q].consumers ensures Live(s', q, x) {
      assert x in s.queues[q].consumers ==> Live(s, q, x);
    }
    forall x | x in s'.queues ensures QueueOk(s', x) { assert QueueOk(s, x); }
    forall t | t in s'.unacked ensures TagOk(s', t) { assert TagOk(s, t); }
    forall x | x in s'.at ensures PlaceOk(s', x) { assert PlaceOk(s, x); }
    forall t | t in s.unacked ensures s.unacked[t].cons != c { assert TagOk(s, t); }
    assert Held(s'.unacked, c) == {};
    forall x | x in s'.cons ensures ConsOk(s', x) {
      assert x in s.cons ==> ConsOk(s, x);
    }
  }

  lemma DropKeepsInv(s: State, q: QueueId, k: nat)
    requires Inv(s) && q in s.queues && k < |s.queues[q].msgs|
    ensures Inv(TimedOut(s, q, k))
  {
    var s' := TimedOut(s, q, k);
    assert QueueOk(s, q);
    WithoutMembers(s.queues[q].msgs, k);
    forall x | x in s'.queues ensures QueueOk(s', x) { assert QueueOk(s, x); }
    forall x | x in s'.at ensures PlaceOk(s', x) { assert PlaceOk(s, x); }
    RefsKept(s, s');
    TagsKept(s, s');
    CountsKept(s, s');
  }

  lemma SettledKeepsInv(s: State, t: Tag, how: How)
    requires Inv(s) && t in s.unacked
    ensures Inv(Settled(s, t, how))
  {
    assert TagOk(s, t);
    var f := s.unacked[t];
    match how
    case Ack =>
      ReleaseKeepsInv(s, t, Acked);
      DispatchKeepsInv(Release(s, t, Acked), f.q);
    case Requeue =>
      PutBackKeepsInv(s, t);
      DispatchKeepsInv(PutBack(s, t), f.q);
    case Reject(targets) =>
      var s1 := Release(s, t, Rejected);
      ReleaseKeepsInv(s, t, Rejected);
      StoreKeepsInv(s1, targets, Priority(s, f.msg));
      DispatchKeepsInv(Store(s1, targets, Priority(s, f.msg)), f.q);
  }

  lemma OpenKeepsInv(s: State, ch: ChanId)
    requires Inv(s) && ch !in s.lastTag
    ensures Inv(s.(lastTag := s.lastTag[ch := 0]))
  {
    var s' := s.(lastTag := s.lastTag[ch := 0]);
    forall q, c | q in s'.queues && c in s'.queues[q].consumers ensures Live(s', q, c) { assert Live(s, q, c); }
    forall x | x in s'.queues ensures QueueOk(s', x) { assert QueueOk(s, x); }
    forall t | t in s'.unacked ensures TagOk(s', t) { assert TagOk(s, t); }
    forall x | x in s'.at ensures PlaceOk(s', x) { assert PlaceOk(s, x); }
    forall c | c in s'.cons ensures ConsOk(s', c) { assert ConsOk(s, c); }
  }

  lemma DeclareKeepsInv(s: State, q: QueueId, maxPriority: nat, autoDelete: bool)
    requires Inv(s) && q !in s.queues
    ensures Inv(s.(queues := s.queues[q := Queue(maxPriority, autoDelete, [], [], 0, false)]))
  {
    var s' := s.(queues := s.queues[q := Queue(maxPriority, autoDelete, [], [], 0, false)]);
    forall x, c | x in s'.queues && c in s'.queues[x].consumers ensures Live(s', x, c) { assert Live(s, x, c); }
    forall x | x in s'.queues ensures QueueOk(s', x) { assert x in s.queues ==> QueueOk(s, x); }
    forall t | t in s'.unacked ensures TagOk(s', t) { assert TagOk(s, t); }
    forall x | x in s'.at ensures PlaceOk(s', x) { assert PlaceOk(s, x); }
    forall c | c in s'.cons ensures ConsOk(s', c) { assert ConsOk(s, c); }
  }

  lemma StepKeepsInv(s: State, a: Action)
    requires Inv(s) && Enabled(s, a)
    ensures Inv(Next(s, a))
  {
    match a
    case OpenChannel(ch) => OpenKeepsInv(s, ch);
    case DeclareQueue(q, maxPriority, autoDelete) => DeclareKeepsInv(s, q, maxPriority, autoDelete);
    case Consume(c, ch, q, autoAck, prefetch) =>
      ConsumeKeepsInv(s, c, Cons(ch, q, autoAck, prefetch, 0));
      DispatchKeepsInv(Consuming(s, c, Cons(ch, q, autoAck, prefetch, 0)), q);
    case Cancel(c) => RemoveKeepsInv(s, c);
    case Publish(targets, p) => StoreKeepsInv(s, targets, p);
    case Settle(t, how, order) =>
      if t.ch !in s.closed && t !in s.unacked { ShutdownKeepsInv(s, t.ch, order); }
      if t.ch !in s.closed && t in s.unacked { SettledKeepsInv(s, t, how); }
    case CloseChannel(ch, order) => ShutdownKeepsInv(s, ch, order);
    case Expire(q, k, targets) =>
      DropKeepsInv(s, q, k);
      StoreKeepsInv(TimedOut(s, q, k), targets, Priority(s, s.queues[q].msgs[k]));
    case Delete(q) => DeleteKeepsInv(s, q);
  }

  // ---- whole runs --------------------------------------------------------

  const EMPTY := State(map[], map[], map[], {}, map[], 0, map[], {}, [], map[])

  predicate IsRun(run: seq<State>, acts: seq<Action>) {
    && |run| == |acts| + 1 && run[0] == EMPTY
    && forall k | 0 <= k < |acts| :: Enabled(run[k], acts[k]) && run[k + 1] == Next(run[k], acts[k])
  }

  lemma {:induction false} RunKeepsInv(run: seq<State>, acts: seq<Action>, i: nat)
    requires IsRun(run, acts) && i < |run|
    ensures Inv(run[i])
  {
    if i > 0 {
      RunKeepsInv(run, acts, i - 1);
      StepKeepsInv(run[i - 1], acts[i - 1]);
    }
  }

  predicate InQueue(s: State, m: MsgId, q: QueueId, i: nat) {
    q in s.queues && i < |s.queues[q].msgs| && s.queues[q].msgs[i] == m
  }

  predicate InFlight(s: State, m: MsgId, t: Tag) {
    t in s.unacked && s.unacked[t].msg == m
  }

  /** On every run a stored message is at one position of one queue, or in one delivery, or gone: never in two places. */
  lemma OnePlace(run: seq<State>, acts: seq<Action>, n: nat, m: MsgId)
    requires IsRun(run, acts) && n < |run| && m < run[n].next
    ensures var s := run[n];
      && m in s.at
      && (forall q, i, q', i' :: InQueue(s, m, q, i) && InQueue(s, m, q', i') ==> q == q' && i == i')
      && (forall t, t' :: InFlight(s, m, t) && InFlight(s, m, t') ==> t == t')
      && (forall q, i, t :: !(InQueue(s, m, q, i) && InFlight(s, m, t)))
      && (s.at[m].Gone? <==> !(exists q, i :: InQueue(s, m, q, i)) && !(exists t :: InFlight(s, m, t)))
  {
    RunKeepsInv(run, acts, n);
    var s := run[n];
    assert PlaceOk(s, m);
    forall q, i | InQueue(s, m, q, i) ensures s.at[m] == Queued(q) {
      assert QueueOk(s, q);
    }
    forall t | InFlight(s, m, t) ensures s.at[m] == Unacked(t) {
      assert TagOk(s, t);
    }
    forall q, i, q', i' | InQueue(s, m, q, i) && InQueue(s, m, q', i') ensures q == q' && i == i' {
      assert QueueOk(s, q);
    }
    if s.at[m].Queued? {
      var i :| 0 <= i < |s.queues[s.at[m].q].msgs| && s.queues[s.at[m].q].msgs[i] == m;
      assert InQueue(s, m, s.at[m].q, i);
    }
    if s.at[m].Unacked? {
      assert InFlight(s, m, s.at[m].tag);
    }
  }

  /** A consumer with a prefetch of p > 0 that does not auto-acknowledge never holds more than p. */
  lemma PrefetchBound(run: seq<State>, acts: seq<Action>, n: nat, c: ConsId)
    requires IsRun(run, acts) && n < |run| && c in run[n].cons
    requires !run[n].cons[c].autoAck && run[n].cons[c].prefetch > 0
    ensures |Held(run[n].unacked, c)| <= run[n].cons[c].prefetch
  {
    RunKeepsInv(run, acts, n);
    assert ConsOk(run[n], c);
  }

  /** Index i goes out before index j: by clamped priority, then by position. */
  predicate Before(prio: map<MsgId, nat>, msgs: seq<MsgId>, maxPriority: nat, i: nat, j: nat)
    requires i < |msgs| && j < |msgs|
  {
    var a, b := Clamped(prio, msgs[i], maxPriority), Clamped(prio, msgs[j], maxPriority);
    a > b || (a == b && i < j)
  }

  lemma {:induction false} DispatchShrinks(s: State, q: QueueId, m: MsgId)
    requires q in s.queues && m in Dispatch(s, q).queues[q].msgs
    ensures m in s.queues[q].msgs
    decreases |s.queues[q].msgs|
  {
    var queue := s.queues[q];
    if queue.msgs != [] && queue.consumers != [] && Pick(s, queue, 0).Some? {
      var s1 := DeliverTo(s, q, Pick(s, queue, 0).value, NextIndex(s.prio, queue.msgs, queue.maxPriority));
      DispatchShrinks(s1, q, m);
    }
  }

  /** The position i has once k is taken out. */
  function Shifted(i: nat, k: nat): nat
    requires i != k
  {
    if i < k then i else i - 1
  }

  lemma BeforeWithout(prio: map<MsgId, nat>, msgs: seq<MsgId>, maxPriority: nat, k: nat, i: nat, j: nat)
    requires k < |msgs| && i < |msgs| && j < |msgs| && i != k && j != k
    ensures Shifted(i, k) < |Without(msgs, k)| && Without(msgs, k)[Shifted(i, k)] == msgs[i]
    ensures Shifted(j, k) < |Without(msgs, k)| && Without(msgs, k)[Shifted(j, k)] == msgs[j]
    ensures Before(prio, Without(msgs, k), maxPriority, Shifted(i, k), Shifted(j, k)) ==> Before(prio, msgs, maxPriority, i, j)
  {
  }

  lemma DeliverTakes(s: State, q: QueueId, i: nat, k: nat)
    requires q in s.queues && s.queues[q].consumers != [] && k < |s.queues[q].msgs| && CanTake(s, At(s.queues[q], i))
    ensures var r := DeliverTo(s, q, i, k);
      r.queues[q] == s.queues[q].(msgs := Without(s.queues[q].msgs, k), rr := r.queues[q].rr) && r.prio == s.prio
  {
  }

  /** Whatever is handed out goes before everything that stays: highest clamped priority first, then first come. */
  lemma {:induction false} DispatchTakesBest(s: State, q: QueueId, i: nat, j: nat)
    requires q in s.queues && i < |s.queues[q].msgs| && j < |s.queues[q].msgs| && NoDup(s.queues[q].msgs)
    requires s.queues[q].msgs[i] !in Dispatch(s, q).queues[q].msgs && s.queues[q].msgs[j] in Dispatch(s, q).queues[q].msgs
    ensures Before(s.prio, s.queues[q].msgs, s.queues[q].maxPriority, i, j)
    decreases |s.queues[q].msgs|
  {
    var queue := s.queues[q];
    if queue.consumers != [] && Pick(s, queue, 0).Some? {
      var p, k := Pick(s, queue, 0).value, NextIndex(s.prio, queue.msgs, queue.maxPriority);
      var s1 := DeliverTo(s, q, p, k);
      DeliverTakes(s, q, p, k);
      DispatchShrinks(s1, q, queue.msgs[j]);
      WithoutMembers(queue.msgs, k);
      if i != k {
        BeforeWithout(s.prio, queue.msgs, queue.maxPriority, k, i, j);
        DispatchTakesBest(s1, q, Shifted(i, k), Shifted(j, k));
      }
    }
  }

  /** Dispatching stops only when nothing waits or nobody has room. */
  lemma {:induction false} DispatchEnds(s: State, q: QueueId)
    requires q in s.queues
    ensures var r := Dispatch(s, q); (r.queues[q].msgs == [] || QueueFull(r, q))
    decreases |s.queues[q].msgs|
  {
    var queue := s.queues[q];
    if queue.msgs != [] && queue.consumers != [] {
      var p := Pick(s, queue, 0);
      if p.Some? {
        DispatchEnds(DeliverTo(s, q, p.value, NextIndex(s.prio, queue.msgs, queue.maxPriority)), q);
      } else {
        forall c | c in queue.consumers ensures !CanTake(s, c) {
          Everyone(queue, c);
        }
      }
    }
  }

  /** Round-robin distances reach every consumer. */
  lemma Everyone(q: Queue, c: ConsId)
    requires c in q.consumers
    ensures exists j :: 0 <= j < |q.consumers| && At(q, j) == c
  {
    var n := |q.consumers|;
    var k :| 0 <= k < n && q.consumers[k] == c;
    var mark := q.rr % n;
    var j := if mark <= k then k - mark else k - mark + n;
    ModShift(q.rr, j, n, k);
    assert At(q, j) == c;
  }

  lemma ModShift(rr: nat, j: nat, n: nat, k: nat)
    requires 0 < n && k < n && j < n
    requires j == k - rr % n || j == k - rr % n + n
    ensures (rr + j) % n == k
  {
    var d := rr / n;
    assert rr == d * n + rr % n;
    if j == k - rr % n {
      assert rr + j == d * n + k;
    } else {
      assert rr + j == (d + 1) * n + k;
      Remainder(d + 1, n, k);
    }
    Remainder(d, n, k);
  }

  lemma Remainder(d: nat, n: nat, k: nat)
    requires 0 < n && k < n
    ensures (d * n + k) % n == k
  {
    var x := d * n + k;
    QuotientFixed(x / n - d, n, k - x % n);
  }

  lemma QuotientFixed(t: int, n: int, r: int)
    requires t * n == r && -n < r < n
    ensures r == 0
  {
    assert t >= 1 ==> t * n >= n;
    assert t <= -1 ==> t * n <= -n;
  }
}
