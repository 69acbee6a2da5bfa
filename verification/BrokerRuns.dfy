/** Runs of the broker: publishing, delivering, settling, expiring and channels dying. */
module BrokerRuns {
  import opened Broker
  import opened BrokerInvariant

  // ---- closing a channel -------------------------------------------------

  /** Removing a consumer leaves all else in place, and lists it nowhere. */
  lemma RemoveKeepsRest(s: State, c: ConsId)
    ensures var r := RemoveConsumer(s, c);
      && r.cons == s.cons && r.unacked == s.unacked && r.lastTag == s.lastTag && r.queues.Keys == s.queues.Keys
      && r.closed == s.closed && r.next == s.next && r.prio == s.prio && r.redelivered == s.redelivered && r.handed == s.handed
  {
  }

  /** Removing a consumer that q does not list is nothing to q. */
  lemma RemoveElsewhere(s: State, c: ConsId, q: QueueId)
    requires q in s.queues && c !in s.queues[q].consumers
    ensures RemoveConsumer(s, c).queues[q] == s.queues[q]
  {
  }

  lemma RemoveHere(s: State, c: ConsId, q: QueueId)
    requires Refs(s) && q in s.queues && c in s.queues[q].consumers
    ensures var queue := s.queues[q];
      RemoveConsumer(s, c).queues[q] ==
      if queue.autoDelete && !queue.deleted && Others(queue.consumers, c) == []
      then queue.(deleted := true, msgs := [], consumers := [])
      else queue.(consumers := Others(queue.consumers, c))
  {
    assert Live(s, q, c);
  }

  lemma RemoveUnlists(s: State, c: ConsId, q: QueueId, x: ConsId)
    requires Refs(s) && q in s.queues && x in RemoveConsumer(s, c).queues[q].consumers
    ensures x in s.queues[q].consumers && x != c
  {
    if c in s.queues[q].consumers {
      RemoveHere(s, c, q);
    } else {
      RemoveElsewhere(s, c, q);
    }
  }

  lemma {:induction false} RemoveAllKeepsRest(s: State, order: seq<ConsId>)
    ensures var r := RemoveAll(s, order);
      && r.cons == s.cons && r.unacked == s.unacked && r.lastTag == s.lastTag && r.queues.Keys == s.queues.Keys
      && r.closed == s.closed && r.next == s.next && r.prio == s.prio && r.redelivered == s.redelivered && r.handed == s.handed
    decreases |order|
  {
    if order != [] {
      RemoveKeepsRest(s, order[0]);
      RemoveAllKeepsRest(RemoveConsumer(s, order[0]), order[1..]);
    }
  }

  /** order is the channel's consumers, however the broker lists them. */
  predicate Lists(s: State, ch: ChanId, order: seq<ConsId>) {
    && (forall i | 0 <= i < |order| :: order[i] in s.cons && s.cons[order[i]].ch == ch)
    && forall c | c in s.cons && s.cons[c].ch == ch :: c in order
  }

  lemma {:induction false} RemovedAreOff(s: State, order: seq<ConsId>, q: QueueId, c: ConsId)
    requires Inv(s) && q in s.queues && q in RemoveAll(s, order).queues && c in RemoveAll(s, order).queues[q].consumers
    ensures c in s.queues[q].consumers && c !in order
    decreases |order|
  {
    if order != [] {
      var s1 := RemoveConsumer(s, order[0]);
      RemoveKeepsInv(s, order[0]);
      RemoveKeepsRest(s, order[0]);
      RemovedAreOff(s1, order[1..], q, c);
      RemoveUnlists(s, order[0], q, c);
    }
  }

  /** With its consumers removed, no queue serves the channel. */
  lemma Unserved(s: State, ch: ChanId, order: seq<ConsId>)
    requires Inv(s) && Lists(s, ch, order)
    ensures !ServedOn(RemoveAll(s, order), ch)
  {
    var r := RemoveAll(s, order);
    RemoveAllKeepsRest(s, order);
    if ServedOn(r, ch) {
      var q, c :| q in r.queues && c in r.queues[q].consumers && c in r.cons && r.cons[c].ch == ch;
      RemovedAreOff(s, order, q, c);
    }
  }

  lemma ReleaseServes(s: State, t: Tag, ch: ChanId)
    requires t in s.unacked
    ensures ServedOn(Release(s, t, NoQueue), ch) <==> ServedOn(s, ch)
  {
    ServedSame(s, Release(s, t, NoQueue), ch);
  }

  lemma JoinServes(s: State, q: QueueId, m: MsgId, front: bool, ch: ChanId)
    requires q in s.queues
    ensures ServedOn(Join(s, q, m, front), ch) <==> ServedOn(s, ch)
  {
    ServedSame(s, Join(s, q, m, front), ch);
  }

  /** What putting one delivery back does to the others. */
  lemma PutBackEffect(s: State, t: Tag, ch: ChanId)
    requires Inv(s) && t in s.unacked && !ServedOn(s, ch)
    ensures var r := PutBack(s, t);
      && r.closed == s.closed && r.lastTag.Keys == s.lastTag.Keys && !ServedOn(r, ch)
      && (forall x | x in r.unacked && x.ch == ch :: x in s.unacked && x != t && r.unacked[x] == s.unacked[x])
      && (forall x | x in s.unacked && x != t :: x in r.unacked && r.unacked[x] == s.unacked[x])
  {
    assert TagOk(s, t);
    var s1 := Release(s, t, NoQueue);
    var q, m := s.unacked[t].q, s.unacked[t].msg;
    ReleaseKeepsInv(s, t, NoQueue);
    ReleaseServes(s, t, ch);
    EnqueueKeepsInv(s1, q, m, true);
    if !s1.queues[q].deleted {
      JoinServes(s1, q, m, true, ch);
      ServedSame(Join(s1, q, m, true), PutBack(s, t), ch);
    }
  }

  lemma {:induction false} PutBackAllClears(s: State, ch: ChanId, n: nat)
    requires Inv(s) && !ServedOn(s, ch)
    requires forall x | x in s.unacked && x.ch == ch :: 1 <= x.n <= n
    ensures var r := PutBackAll(s, ch, n);
      && r.closed == s.closed && r.lastTag.Keys == s.lastTag.Keys && !ServedOn(r, ch)
      && (forall x | x in r.unacked :: x.ch != ch)
    decreases n
  {
    if n > 0 {
      PutBackKeepsInv(s, Tag(ch, n));
      if Tag(ch, n) in s.unacked {
        PutBackEffect(s, Tag(ch, n), ch);
      }
      PutBackAllClears(PutBackAt(s, Tag(ch, n)), ch, n - 1);
    }
  }

  lemma MarkClosedKeepsInv(s: State, ch: ChanId)
    requires Inv(s) && !ServedOn(s, ch) && forall x | x in s.unacked :: x.ch != ch
    ensures Inv(s.(closed := s.closed + {ch}))
  {
    var s' := s.(closed := s.closed + {ch});
    forall q, c | q in s'.queues && c in s'.queues[q].consumers ensures Live(s', q, c) {
      assert Live(s, q, c);
    }
    forall x | x in s'.queues ensures QueueOk(s', x) { assert QueueOk(s, x); }
    forall t | t in s'.unacked ensures TagOk(s', t) { assert TagOk(s, t); }
    forall x | x in s'.at ensures PlaceOk(s', x) { assert PlaceOk(s, x); }
    forall c | c in s'.cons ensures ConsOk(s', c) { assert ConsOk(s, c); }
  }

  lemma ShutdownKeepsInv(s: State, ch: ChanId, order: seq<ConsId>)
    requires Inv(s) && ch in s.lastTag && Lists(s, ch, order)
    ensures Inv(Shutdown(s, ch, order))
  {
    if ch !in s.closed {
      var s1 := RemoveAll(s, order);
      RemoveAllKeepsInv(s, order);
      RemoveAllKeepsRest(s, order);
      Unserved(s, ch, order);
      forall x | x in s1.unacked && x.ch == ch ensures 1 <= x.n <= s.lastTag[ch] {
        assert TagOk(s1, x);
      }
      PutBackAllClears(s1, ch, s.lastTag[ch]);
      PutBackAllKeepsInv(s1, ch, s.lastTag[ch]);
      MarkClosedKeepsInv(PutBackAll(s1, ch, s.lastTag[ch]), ch);
    }
  }

  // ---- order of what goes back -------------------------------------------

  /** No consumer of the queue has room. */
  predicate QueueFull(s: State, q: QueueId) {
    q in s.queues && forall c | c in s.queues[q].consumers :: !CanTake(s, c)
  }

  /** Nothing the channel holds can be taken by anyone else. */
  predicate NoTakers(s: State, ch: ChanId) {
    forall t | t in s.unacked && t.ch == ch :: QueueFull(s, s.unacked[t].q)
  }

  function HeldAt(s: State, t: Tag, q: QueueId): seq<MsgId> {
    if t in s.unacked && s.unacked[t].q == q then [s.unacked[t].msg] else []
  }

  /** The channel's unacknowledged messages of q, by delivery tag. */
  function HeldFrom(s: State, ch: ChanId, q: QueueId, n: nat): seq<MsgId> {
    if n == 0 then [] else HeldFrom(s, ch, q, n - 1) + HeldAt(s, Tag(ch, n), q)
  }

  lemma FullIsStuck(s: State, q: QueueId)
    requires QueueFull(s, q)
    ensures Dispatch(s, q) == s
  {
    var queue := s.queues[q];
    forall j | 0 <= j < |queue.consumers| ensures !CanTake(s, At(queue, j)) {
      assert At(queue, j) in queue.consumers;
    }
  }

  lemma ReleaseStaysFull(s: State, t: Tag, q: QueueId)
    requires Inv(s) && t in s.unacked && !ServedOn(s, t.ch) && QueueFull(s, q)
    ensures TagOk(s, t) && QueueFull(Release(s, t, NoQueue), q)
  {
    assert TagOk(s, t);
    forall c | c in s.queues[q].consumers ensures !CanTake(Release(s, t, NoQueue), c) {
      assert !CanTake(s, c) && Live(s, q, c);
      assert s.cons[c].ch == t.ch ==> ServedOn(s, t.ch);
    }
  }

  lemma PutBackWhenFull(s: State, t: Tag, ch: ChanId)
    requires Inv(s) && t in s.unacked && t.ch == ch && NoTakers(s, ch) && !ServedOn(s, ch)
    ensures var r := PutBack(s, t);
      && !ServedOn(r, ch) && r.unacked == s.unacked - {t}
      && (forall q | q in s.queues && !s.queues[q].deleted :: r.queues[q].msgs == HeldAt(s, t, q) + s.queues[q].msgs)
      && (forall q | q in s.queues :: r.queues[q].deleted == s.queues[q].deleted)
      && (forall q | QueueFull(s, q) :: QueueFull(r, q))
  {
    assert TagOk(s, t);
    var q, m := s.unacked[t].q, s.unacked[t].msg;
    var s1 := Release(s, t, NoQueue);
    ReleaseKeepsInv(s, t, NoQueue);
    PutBackEffect(s, t, ch);
    forall x | QueueFull(s, x) ensures QueueFull(s1, x) {
      ReleaseStaysFull(s, t, x);
    }
    if !s1.queues[q].deleted {
      var s2 := Join(s1, q, m, true);
      forall x | QueueFull(s1, x) ensures QueueFull(s2, x) {
        assert forall c | c in s1.queues[x].consumers :: CanTake(s2, c) == CanTake(s1, c);
      }
      FullIsStuck(s2, q);
    }
  }

  lemma PutBackAtWhenFull(s: State, t: Tag, ch: ChanId, q: QueueId)
    requires Inv(s) && t.ch == ch && NoTakers(s, ch) && !ServedOn(s, ch) && q in s.queues && !s.queues[q].deleted
    ensures var r := PutBackAt(s, t);
      && NoTakers(r, ch) && !ServedOn(r, ch) && r.unacked == s.unacked - {t}
      && !r.queues[q].deleted && r.queues[q].msgs == HeldAt(s, t, q) + s.queues[q].msgs
  {
    if t in s.unacked {
      PutBackWhenFull(s, t, ch);
    }
  }

  lemma {:induction false} HeldFromSame(s: State, r: State, ch: ChanId, q: QueueId, n: nat)
    requires forall k | 1 <= k <= n :: (Tag(ch, k) in s.unacked <==> Tag(ch, k) in r.unacked)
    requires forall k | 1 <= k <= n && Tag(ch, k) in s.unacked :: s.unacked[Tag(ch, k)] == r.unacked[Tag(ch, k)]
    ensures HeldFrom(s, ch, q, n) == HeldFrom(r, ch, q, n)
  {
    if n > 0 {
      HeldFromSame(s, r, ch, q, n - 1);
      assert Tag(ch, n) in s.unacked <==> Tag(ch, n) in r.unacked;
    }
  }

  lemma HeldBelow(s: State, r: State, ch: ChanId, q: QueueId, n: nat)
    requires n > 0 && r.unacked == s.unacked - {Tag(ch, n)}
    ensures HeldFrom(s, ch, q, n - 1) == HeldFrom(r, ch, q, n - 1)
  {
    HeldFromSame(s, r, ch, q, n - 1);
  }

  lemma Regroup(a: seq<MsgId>, b: seq<MsgId>, c: seq<MsgId>)
    ensures a + (b + c) == (a + b) + c
  {
  }

  lemma {:induction false} PutBackAllInOrder(s: State, ch: ChanId, n: nat, q: QueueId)
    requires Inv(s) && NoTakers(s, ch) && !ServedOn(s, ch) && q in s.queues && !s.queues[q].deleted
    ensures PutBackAll(s, ch, n).queues[q].msgs == HeldFrom(s, ch, q, n) + s.queues[q].msgs
    decreases n
  {
    if n > 0 {
      var t := Tag(ch, n);
      var r := PutBackAt(s, t);
      PutBackKeepsInv(s, t);
      PutBackAtWhenFull(s, t, ch, q);
      HeldBelow(s, r, ch, q, n);
      PutBackAllInOrder(r, ch, n - 1, q);
      assert PutBackAll(s, ch, n) == PutBackAll(r, ch, n - 1);
      Regroup(HeldFrom(s, ch, q, n - 1), HeldAt(s, t, q), s.queues[q].msgs);
    }
  }

  lemma {:induction false} RemoveAllKeepsMsgs(s: State, order: seq<ConsId>, q: QueueId)
    requires q in s.queues && !RemoveAll(s, order).queues[q].deleted
    ensures !s.queues[q].deleted && RemoveAll(s, order).queues[q].msgs == s.queues[q].msgs
    decreases |order|
  {
    if order != [] {
      RemoveAllKeepsMsgs(RemoveConsumer(s, order[0]), order[1..], q);
    }
  }

  /**
    A dying channel's unacknowledged messages return to the head of their queue
    in the order they were delivered, when no other consumer can take them.
   */
  lemma ReturnsInDeliveryOrder(s: State, ch: ChanId, order: seq<ConsId>, q: QueueId)
    requires Inv(s) && ch in s.lastTag && ch !in s.closed && Lists(s, ch, order)
    requires NoTakers(RemoveAll(s, order), ch) && q in s.queues && !RemoveAll(s, order).queues[q].deleted
    ensures q in Shutdown(s, ch, order).queues
    ensures Shutdown(s, ch, order).queues[q].msgs == HeldFrom(s, ch, q, s.lastTag[ch]) + s.queues[q].msgs
  {
    var s1 := RemoveAll(s, order);
    RemoveAllKeepsInv(s, order);
    RemoveAllKeepsRest(s, order);
    Unserved(s, ch, order);
    RemoveAllKeepsMsgs(s, order, q);
    PutBackAllInOrder(s1, ch, s.lastTag[ch], q);
    HeldFromSame(s, s1, ch, q, s.lastTag[ch]);
  }

  lemma PutBackMarks(s: State, t: Tag)
    requires Inv(s)
    ensures var r := PutBackAt(s, t);
      && s.redelivered <= r.redelivered
      && (forall q | q in s.queues :: r.queues[q].deleted == s.queues[q].deleted)
      && (forall x | x in s.unacked && x != t :: x in r.unacked && r.unacked[x] == s.unacked[x])
      && (t in s.unacked && s.unacked[t].q in s.queues && !s.queues[s.unacked[t].q].deleted ==> s.unacked[t].msg in r.redelivered)
  {
    if t in s.unacked {
      assert TagOk(s, t);
      ReleaseKeepsInv(s, t, NoQueue);
      EnqueueKeepsInv(Release(s, t, NoQueue), s.unacked[t].q, s.unacked[t].msg, true);
    }
  }

  /** The delivery under t is of m, and its queue still exists. */
  predicate Returns(s: State, t: Tag, m: MsgId) {
    t in s.unacked && s.unacked[t].msg == m && s.unacked[t].q in s.queues && !s.queues[s.unacked[t].q].deleted
  }

  lemma ReturnStep(s: State, t: Tag, x: Tag, m: MsgId)
    requires Inv(s) && Returns(s, x, m)
    ensures x != t ==> Returns(PutBackAt(s, t), x, m)
    ensures x == t ==> m in PutBackAt(s, t).redelivered
  {
    PutBackMarks(s, t);
  }

  lemma {:induction false} PutBackAllMarks(s: State, ch: ChanId, n: nat, k: nat, m: MsgId)
    requires Inv(s) && 1 <= k <= n && Returns(s, Tag(ch, k), m)
    ensures m in PutBackAll(s, ch, n).redelivered
    decreases n
  {
    var r := PutBackAt(s, Tag(ch, n));
    PutBackKeepsInv(s, Tag(ch, n));
    ReturnStep(s, Tag(ch, n), Tag(ch, k), m);
    if k < n {
      PutBackAllMarks(r, ch, n - 1, k, m);
    } else {
      MarksStay(r, ch, n - 1, m);
    }
  }

  lemma {:induction false} MarksStay(s: State, ch: ChanId, n: nat, m: MsgId)
    requires Inv(s) && m in s.redelivered
    ensures m in PutBackAll(s, ch, n).redelivered
    decreases n
  {
    if n > 0 {
      PutBackKeepsInv(s, Tag(ch, n));
      PutBackMarks(s, Tag(ch, n));
      MarksStay(PutBackAt(s, Tag(ch, n)), ch, n - 1, m);
    }
  }

  /** Every message a dying channel returns to a queue that still exists is marked redelivered. */
  lemma ReturnedAreMarked(s: State, ch: ChanId, order: seq<ConsId>, t: Tag)
    requires Inv(s) && ch in s.lastTag && ch !in s.closed && t in s.unacked && t.ch == ch
    requires s.unacked[t].q in s.queues && !RemoveAll(s, order).queues[s.unacked[t].q].deleted
    ensures s.unacked[t].msg in Shutdown(s, ch, order).redelivered
  {
    assert TagOk(s, t);
    RemoveAllKeepsInv(s, order);
    RemoveAllKeepsRest(s, order);
    PutBackAllMarks(RemoveAll(s, order), ch, s.lastTag[ch], t.n, s.unacked[t].msg);
  }
}
