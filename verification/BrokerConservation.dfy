/** What becomes of every message at every step: it stays somewhere, or is gone for the reason the step gives. */
module BrokerConservation {
  import opened Basics
  import opened Broker
  import opened BrokerInvariant
  import opened BrokerRuns
  import opened BrokerTheorems

  /** Between s and s', m was handed to a consumer that acknowledges on delivery. */
  ghost predicate HandedAuto(s: State, s': State, m: MsgId) {
    exists i :: |s.handed| <= i < |s'.handed| && s'.handed[i].msg == m && s'.handed[i].auto
  }

  /**
    A message already gone stays gone for the same reason. Any other is gone
    afterwards exactly for the reason given, or, when none is given, exactly if
    it was handed to an auto-acknowledging consumer.
   */
  ghost predicate Fares(s: State, s': State, m: MsgId, why: Option<Reason>)
    requires m in s.at
  {
    && s.handed <= s'.handed && m in s'.at
    && if s.at[m].Gone? then s'.at[m] == s.at[m] && !HandedAuto(s, s', m)
       else if why.Some? then s'.at[m] == Gone(why.value) && !HandedAuto(s, s', m)
       else
         && (s'.at[m].Gone? <==> HandedAuto(s, s', m))
         && (s'.at[m].Gone? ==> s'.at[m] == Gone(AutoAcked))
  }

  lemma HandedSplits(a: State, b: State, c: State, m: MsgId)
    requires a.handed <= b.handed <= c.handed
    ensures HandedAuto(a, c, m) <==> HandedAuto(a, b, m) || HandedAuto(b, c, m)
  {
    if HandedAuto(a, b, m) {
      var i :| |a.handed| <= i < |b.handed| && b.handed[i].msg == m && b.handed[i].auto;
      assert c.handed[i] == b.handed[i];
    }
    if HandedAuto(a, c, m) {
      var i :| |a.handed| <= i < |c.handed| && c.handed[i].msg == m && c.handed[i].auto;
      if i < |b.handed| {
        assert b.handed[i] == c.handed[i];
      }
    }
  }

  /** An uneventful step for m, then another. */
  lemma FaresThen(a: State, b: State, c: State, m: MsgId, why: Option<Reason>)
    requires m in a.at && Fares(a, b, m, None) && Fares(b, c, m, why)
    requires why.Some? ==> b.at[m] == a.at[m]
    ensures Fares(a, c, m, why)
  {
    HandedSplits(a, b, c, m);
  }

  /** Once gone, gone. */
  lemma FaresAfterEnd(a: State, b: State, c: State, m: MsgId, why: Reason, then_: Option<Reason>)
    requires m in a.at && Fares(a, b, m, Some(why)) && Fares(b, c, m, then_)
    ensures Fares(a, c, m, Some(why))
  {
    HandedSplits(a, b, c, m);
  }

  /** The step does not concern m. */
  lemma Unconcerned(s: State, s': State, m: MsgId)
    requires m in s.at && m in s'.at && s'.at[m] == s.at[m] && s'.handed == s.handed
    ensures Fares(s, s', m, None)
  {
  }

  // ---- handing out -------------------------------------------------------

  lemma DeliverFares(s: State, q: QueueId, i: nat, k: nat, m: MsgId)
    requires Inv(s) && m in s.at && q in s.queues && s.queues[q].consumers != [] && k < |s.queues[q].msgs|
    requires CanTake(s, At(s.queues[q], i))
    ensures Fares(s, DeliverTo(s, q, i, k), m, None)
  {
    var s' := DeliverTo(s, q, i, k);
    assert QueueOk(s, q);
    assert s'.handed == s.handed + [Handover(s.queues[q].msgs[k], At(s.queues[q], i), s.cons[At(s.queues[q], i)].autoAck)];
    assert s'.handed[|s.handed|].msg == s.queues[q].msgs[k];
  }

  lemma {:induction false} DispatchFares(s: State, q: QueueId, m: MsgId)
    requires Inv(s) && m in s.at && q in s.queues
    ensures Fares(s, Dispatch(s, q), m, None)
    decreases |s.queues[q].msgs|
  {
    var queue := s.queues[q];
    if queue.msgs != [] && queue.consumers != [] && Pick(s, queue, 0).Some? {
      var i, k := Pick(s, queue, 0).value, NextIndex(s.prio, queue.msgs, queue.maxPriority);
      var s1 := DeliverTo(s, q, i, k);
      DeliverKeepsInv(s, q, i, k);
      DeliverFares(s, q, i, k, m);
      DispatchFares(s1, q, m);
      FaresThen(s, s1, Dispatch(s, q), m, None);
    }
  }

  /** Storing x is nothing to any other message. */
  lemma EnqueueFares(s: State, q: QueueId, x: MsgId, front: bool, m: MsgId)
    requires Inv(s) && q in s.queues && x in s.at && s.at[x].Gone? && m in s.at && m != x
    ensures Fares(s, Enqueue(s, q, x, front), m, None)
  {
    if !s.queues[q].deleted {
      var s1 := Join(s, q, x, front);
      JoinKeepsInv(s, q, x, front);
      Unconcerned(s, s1, m);
      DispatchFares(s1, q, m);
      FaresThen(s, s1, Enqueue(s, q, x, front), m, None);
    }
  }

  // ---- going back --------------------------------------------------------

  /** The delivery under t is of m, and the queue it would return to has been deleted. */
  predicate Homeless(s: State, t: Tag, m: MsgId) {
    t in s.unacked && s.unacked[t].msg == m && s.unacked[t].q in s.queues && s.queues[s.unacked[t].q].deleted
  }

  function IfGone(cond: bool, why: Reason): Option<Reason> { if cond then Some(why) else None }

  lemma PutBackOwnFares(s: State, t: Tag)
    requires Inv(s) && t in s.unacked && s.unacked[t].msg in s.at
    ensures var m := s.unacked[t].msg; Fares(s, PutBackAt(s, t), m, IfGone(Homeless(s, t, m), NoQueue))
  {
    assert TagOk(s, t);
    var q, m := s.unacked[t].q, s.unacked[t].msg;
    var s1 := Release(s, t, NoQueue);
    ReleaseKeepsInv(s, t, NoQueue);
    if !s.queues[q].deleted {
      var s2 := Join(s1, q, m, true);
      JoinKeepsInv(s1, q, m, true);
      DispatchFares(s2, q, m);
      assert Fares(s, s2, m, None);
      FaresThen(s, s2, PutBackAt(s, t), m, None);
    }
  }

  lemma PutBackOtherFares(s: State, t: Tag, m: MsgId)
    requires Inv(s) && m in s.at && (t in s.unacked ==> s.unacked[t].msg != m)
    ensures Fares(s, PutBackAt(s, t), m, None)
  {
    if t in s.unacked {
      assert TagOk(s, t);
      var s1 := Release(s, t, NoQueue);
      ReleaseKeepsInv(s, t, NoQueue);
      Unconcerned(s, s1, m);
      EnqueueFares(s1, s.unacked[t].q, s.unacked[t].msg, true, m);
      FaresThen(s, s1, PutBackAt(s, t), m, None);
    }
  }

  lemma PutBackFares(s: State, t: Tag, m: MsgId)
    requires Inv(s) && m in s.at
    ensures Fares(s, PutBackAt(s, t), m, IfGone(Homeless(s, t, m), NoQueue))
  {
    if t in s.unacked && s.unacked[t].msg == m {
      PutBackOwnFares(s, t);
    } else {
      PutBackOtherFares(s, t, m);
    }
  }

  /** m is held on ch, under a tag up to n, and has no queue to return to. */
  predicate HomelessOn(s: State, ch: ChanId, n: nat, m: MsgId) {
    m in s.at && s.at[m].Unacked? && s.at[m].tag.ch == ch && 1 <= s.at[m].tag.n <= n && Homeless(s, s.at[m].tag, m)
  }

  /** A homeless delivery further down stays as it is. */
  lemma HomelessStays(s: State, t: Tag, x: Tag, m: MsgId)
    requires Inv(s) && Inv(PutBackAt(s, t)) && x != t && Homeless(s, x, m)
    ensures Homeless(PutBackAt(s, t), x, m) && m in PutBackAt(s, t).at && PutBackAt(s, t).at[m] == Unacked(x)
  {
    PutBackMarks(s, t);
    assert TagOk(PutBackAt(s, t), x);
  }

  /** None becomes homeless on a channel that is not served. */
  lemma NoneNewlyHomeless(s: State, t: Tag, x: Tag, m: MsgId)
    requires Inv(s) && !ServedOn(s, t.ch) && x.ch == t.ch && x != t && Homeless(PutBackAt(s, t), x, m)
    ensures Homeless(s, x, m) && m in s.at && s.at[m] == Unacked(x)
  {
    PutBackMarks(s, t);
    if t in s.unacked {
      PutBackEffect(s, t, t.ch);
    }
    assert TagOk(s, x);
  }

  /** Putting the n-th delivery back settles the matter for that one and leaves it as it is for the earlier ones. */
  lemma HomelessBelow(s: State, ch: ChanId, n: nat, m: MsgId)
    requires Inv(s) && !ServedOn(s, ch) && n > 0 && m in s.at && Inv(PutBackAt(s, Tag(ch, n)))
    ensures Homeless(s, Tag(ch, n), m) ==> HomelessOn(s, ch, n, m)
    ensures !Homeless(s, Tag(ch, n), m) ==> HomelessOn(s, ch, n, m) == HomelessOn(PutBackAt(s, Tag(ch, n)), ch, n - 1, m)
    ensures !Homeless(s, Tag(ch, n), m) && HomelessOn(s, ch, n, m) ==>
              m in PutBackAt(s, Tag(ch, n)).at && PutBackAt(s, Tag(ch, n)).at[m] == s.at[m]
  {
    var t := Tag(ch, n);
    var r := PutBackAt(s, t);
    if Homeless(s, t, m) {
      assert TagOk(s, t);
    } else {
      if HomelessOn(s, ch, n, m) {
        HomelessStays(s, t, s.at[m].tag, m);
      }
      if HomelessOn(r, ch, n - 1, m) {
        NoneNewlyHomeless(s, t, r.at[m].tag, m);
      }
    }
  }

  lemma {:induction false} PutBackAllFares(s: State, ch: ChanId, n: nat, m: MsgId)
    requires Inv(s) && !ServedOn(s, ch) && m in s.at
    ensures Fares(s, PutBackAll(s, ch, n), m, IfGone(HomelessOn(s, ch, n, m), NoQueue))
    decreases n
  {
    if n > 0 {
      var t := Tag(ch, n);
      var r := PutBackAt(s, t);
      PutBackKeepsInv(s, t);
      PutBackFares(s, t, m);
      StaysUnserved(s, t, ch);
      HomelessBelow(s, ch, n, m);
      PutBackAllFares(r, ch, n - 1, m);
      if Homeless(s, t, m) {
        FaresAfterEnd(s, r, PutBackAll(s, ch, n), m, NoQueue, IfGone(HomelessOn(r, ch, n - 1, m), NoQueue));
      } else {
        FaresThen(s, r, PutBackAll(s, ch, n), m, IfGone(HomelessOn(r, ch, n - 1, m), NoQueue));
      }
    }
  }

  lemma StaysUnserved(s: State, t: Tag, ch: ChanId)
    requires Inv(s) && !ServedOn(s, ch)
    ensures !ServedOn(PutBackAt(s, t), ch)
  {
    if t in s.unacked {
      PutBackEffect(s, t, ch);
    }
  }

  // ---- removing consumers ------------------------------------------------

  /** Losing the listed consumers is the end of the queue. */
  predicate Emptied(s: State, q: QueueId, gone: seq<ConsId>) {
    && q in s.queues && s.queues[q].autoDelete && !s.queues[q].deleted && s.queues[q].consumers != []
    && forall c | c in s.queues[q].consumers :: c in gone
  }

  predicate WaitsIn(s: State, m: MsgId, q: QueueId) { m in s.at && s.at[m] == Queued(q) }

  lemma EmptiedByOne(s: State, c: ConsId, q: QueueId)
    requires q in s.queues
    ensures var queue := s.queues[q];
      Emptied(s, q, [c]) <==>
      c in queue.consumers && queue.autoDelete && !queue.deleted && Others(queue.consumers, c) == []
  {
    var queue := s.queues[q];
    var rest := Others(queue.consumers, c);
    assert forall x :: x in [c] <==> x == c;
    assert rest != [] ==> rest[0] in rest;
    assert queue.consumers != [] ==> queue.consumers[0] in queue.consumers;
  }

  lemma RemoveOne(s: State, c: ConsId, q: QueueId)
    requires Refs(s) && q in s.queues
    ensures var r := RemoveConsumer(s, c).queues[q];
      && (r.deleted <==> s.queues[q].deleted || Emptied(s, q, [c]))
      && (!Emptied(s, q, [c]) ==>
            && r.autoDelete == s.queues[q].autoDelete && r.msgs == s.queues[q].msgs
            && forall x :: x in r.consumers <==> x in s.queues[q].consumers && x != c)
  {
    EmptiedByOne(s, c, q);
    if c in s.queues[q].consumers {
      RemoveHere(s, c, q);
    } else {
      RemoveElsewhere(s, c, q);
    }
  }

  lemma RemoveFares(s: State, c: ConsId, m: MsgId)
    requires Inv(s) && m in s.at
    ensures var r := RemoveConsumer(s, c);
      && Fares(s, r, m, IfGone(s.at[m].Queued? && Emptied(s, s.at[m].q, [c]), QueueDeleted))
      && (!(s.at[m].Queued? && Emptied(s, s.at[m].q, [c])) ==> r.at[m] == s.at[m])
  {
    RemoveKeepsRest(s, c);
    assert PlaceOk(s, m);
    if s.at[m].Queued? {
      RemoveOne(s, c, s.at[m].q);
    }
    if RemoveConsumer(s, c) != s {
      assert QueueOk(s, s.cons[c].q);
      RemoveOne(s, c, s.cons[c].q);
    }
  }

  /** Losing one consumer and then others is losing them all. */
  lemma EmptiedSplits(s: State, q: QueueId, order: seq<ConsId>)
    requires Refs(s) && q in s.queues && order != []
    ensures Emptied(s, q, order) <==>
              Emptied(s, q, [order[0]]) || Emptied(RemoveConsumer(s, order[0]), q, order[1..])
  {
    var c := order[0];
    var s1 := RemoveConsumer(s, c);
    RemoveOne(s, c, q);
    if Emptied(s, q, order) && !Emptied(s, q, [c]) {
      var x :| x in s.queues[q].consumers && x !in [c];
      assert x in s1.queues[q].consumers;
      forall y | y in s1.queues[q].consumers ensures y in order[1..] {
        assert y in order && y != c;
      }
    }
    if Emptied(s1, q, order[1..]) && !Emptied(s, q, [c]) {
      forall y | y in s.queues[q].consumers ensures y in order {
        assert y != c ==> y in s1.queues[q].consumers;
      }
      assert s1.queues[q].consumers[0] in s1.queues[q].consumers;
    }
  }

  lemma NoneEmptiesNothing(s: State, q: QueueId)
    ensures !Emptied(s, q, [])
  {
    assert q in s.queues && s.queues[q].consumers != [] ==> s.queues[q].consumers[0] in s.queues[q].consumers;
  }

  lemma {:induction false} RemoveAllFares(s: State, order: seq<ConsId>, m: MsgId)
    requires Inv(s) && m in s.at
    ensures var r := RemoveAll(s, order);
      && Fares(s, r, m, IfGone(s.at[m].Queued? && Emptied(s, s.at[m].q, order), QueueDeleted))
      && (!(s.at[m].Queued? && Emptied(s, s.at[m].q, order)) ==> r.at[m] == s.at[m])
    decreases |order|
  {
    if order != [] {
      var s1 := RemoveConsumer(s, order[0]);
      RemoveKeepsInv(s, order[0]);
      RemoveFares(s, order[0], m);
      RemoveAllFares(s1, order[1..], m);
      assert PlaceOk(s, m);
      if s.at[m].Queued? {
        EmptiedSplits(s, s.at[m].q, order);
        if Emptied(s, s.at[m].q, [order[0]]) {
          FaresAfterEnd(s, s1, RemoveAll(s, order), m, QueueDeleted, None);
        } else {
          FaresThen(s, s1, RemoveAll(s, order), m, IfGone(Emptied(s, s.at[m].q, order), QueueDeleted));
        }
      } else {
        FaresThen(s, s1, RemoveAll(s, order), m, None);
      }
    } else if s.at[m].Queued? {
      NoneEmptiesNothing(s, s.at[m].q);
    }
  }

  lemma {:induction false} RemoveAllDeletes(s: State, order: seq<ConsId>, q: QueueId)
    requires Inv(s) && q in s.queues
    ensures RemoveAll(s, order).queues[q].deleted <==> s.queues[q].deleted || Emptied(s, q, order)
    decreases |order|
  {
    if order != [] {
      RemoveKeepsInv(s, order[0]);
      RemoveOne(s, order[0], q);
      EmptiedSplits(s, q, order);
      RemoveAllDeletes(RemoveConsumer(s, order[0]), order[1..], q);
    } else {
      NoneEmptiesNothing(s, q);
    }
  }

  // ---- a dying channel ---------------------------------------------------

  /** q is auto-delete and all its consumers are on ch. */
  predicate DiesWith(s: State, q: QueueId, ch: ChanId) {
    && q in s.queues && s.queues[q].autoDelete && !s.queues[q].deleted && s.queues[q].consumers != []
    && forall c | c in s.queues[q].consumers :: c in s.cons && s.cons[c].ch == ch
  }

  /** What the death of ch does to m: its queue goes too, or it has no queue left to return to. */
  function LostWith(s: State, ch: ChanId, m: MsgId): Option<Reason>
    requires m in s.at
  {
    match s.at[m]
    case Queued(q) => IfGone(DiesWith(s, q, ch), QueueDeleted)
    case Unacked(t) =>
      IfGone(t.ch == ch && t in s.unacked && s.unacked[t].q in s.queues
             && (s.queues[s.unacked[t].q].deleted || DiesWith(s, s.unacked[t].q, ch)), NoQueue)
    case Gone(_) => None
  }

  lemma DiesIsEmptied(s: State, q: QueueId, ch: ChanId, order: seq<ConsId>)
    requires Inv(s) && Lists(s, ch, order) && q in s.queues
    ensures DiesWith(s, q, ch) <==> Emptied(s, q, order)
  {
    forall c | c in s.queues[q].consumers ensures (c in s.cons && s.cons[c].ch == ch) <==> c in order {
      assert Live(s, q, c);
    }
  }

  lemma ShutdownFares(s: State, ch: ChanId, order: seq<ConsId>, m: MsgId)
    requires Inv(s) && ch in s.lastTag && ch !in s.closed && Lists(s, ch, order) && m in s.at
    ensures Fares(s, Shutdown(s, ch, order), m, LostWith(s, ch, m))
  {
    var s1 := RemoveAll(s, order);
    var n := s.lastTag[ch];
    var s2 := PutBackAll(s1, ch, n);
    RemoveAllKeepsInv(s, order);
    RemoveAllKeepsRest(s, order);
    Unserved(s, ch, order);
    RemoveAllFares(s, order, m);
    PutBackAllFares(s1, ch, n, m);
    assert PlaceOk(s, m);
    match s.at[m]
    case Queued(q) =>
      DiesIsEmptied(s, q, ch, order);
      if DiesWith(s, q, ch) {
        FaresAfterEnd(s, s1, s2, m, QueueDeleted, None);
      } else {
        FaresThen(s, s1, s2, m, None);
      }
    case Unacked(t) =>
      assert TagOk(s, t);
      DiesIsEmptied(s, s.unacked[t].q, ch, order);
      RemoveAllDeletes(s, order, s.unacked[t].q);
      FaresThen(s, s1, s2, m, IfGone(HomelessOn(s1, ch, n, m), NoQueue));
    case Gone(_) =>
      FaresThen(s, s1, s2, m, None);
  }

  // ---- storing and settling ----------------------------------------------

  lemma StoreOneFares(s: State, q: QueueId, p: nat, m: MsgId)
    requires Inv(s) && q in s.queues && m in s.at
    ensures Fares(s, Enqueue(Numbered(s, p), q, s.next, false), m, None)
  {
    NumberedKeepsInv(s, p);
    Unconcerned(s, Numbered(s, p), m);
    EnqueueFares(Numbered(s, p), q, s.next, false, m);
    FaresThen(s, Numbered(s, p), Enqueue(Numbered(s, p), q, s.next, false), m, None);
  }

  lemma {:induction false} StoreFares(s: State, targets: seq<QueueId>, p: nat, m: MsgId)
    requires Inv(s) && m in s.at
    ensures Fares(s, Store(s, targets, p), m, None)
    decreases |targets|
  {
    if targets != [] {
      if targets[0] in s.queues {
        var s1 := Enqueue(Numbered(s, p), targets[0], s.next, false);
        StoreOneKeeps(s, targets[0], p);
        StoreOneFares(s, targets[0], p, m);
        StoreFares(s1, targets[1..], p, m);
        FaresThen(s, s1, Store(s, targets, p), m, None);
      } else {
        StoreFares(s, targets[1..], p, m);
      }
    }
  }

  /** What settling the delivery under t does to m. */
  function SettledAs(s: State, t: Tag, how: How, m: MsgId): Option<Reason>
    requires t in s.unacked
  {
    if s.unacked[t].msg != m then None
    else
      match how
      case Ack => Some(Acked)
      case Requeue => IfGone(Homeless(s, t, m), NoQueue)
      case Reject(_) => Some(Rejected)
  }

  lemma ReleaseFares(s: State, t: Tag, why: Reason, m: MsgId)
    requires Inv(s) && t in s.unacked && m in s.at
    ensures Fares(s, Release(s, t, why), m, IfGone(s.unacked[t].msg == m, why))
  {
    assert TagOk(s, t);
  }

  lemma AckFares(s: State, t: Tag, m: MsgId)
    requires Inv(s) && t in s.unacked && m in s.at
    ensures Fares(s, Settled(s, t, Ack), m, SettledAs(s, t, Ack, m))
  {
    assert TagOk(s, t);
    var s1 := Release(s, t, Acked);
    ReleaseKeepsInv(s, t, Acked);
    ReleaseFares(s, t, Acked, m);
    DispatchFares(s1, s.unacked[t].q, m);
    if s.unacked[t].msg == m {
      FaresAfterEnd(s, s1, Settled(s, t, Ack), m, Acked, None);
    } else {
      FaresThen(s, s1, Settled(s, t, Ack), m, None);
    }
  }

  lemma RequeueFares(s: State, t: Tag, m: MsgId)
    requires Inv(s) && t in s.unacked && m in s.at
    ensures Fares(s, Settled(s, t, Requeue), m, SettledAs(s, t, Requeue, m))
  {
    assert TagOk(s, t);
    var s1 := PutBackAt(s, t);
    PutBackKeepsInv(s, t);
    PutBackFares(s, t, m);
    DispatchFares(s1, s.unacked[t].q, m);
    if Homeless(s, t, m) {
      FaresAfterEnd(s, s1, Settled(s, t, Requeue), m, NoQueue, None);
    } else {
      FaresThen(s, s1, Settled(s, t, Requeue), m, None);
    }
  }

  lemma RejectFares(s: State, t: Tag, how: How, m: MsgId)
    requires Inv(s) && t in s.unacked && m in s.at && how.Reject?
    ensures Fares(s, Settled(s, t, how), m, SettledAs(s, t, how, m))
  {
    assert TagOk(s, t);
    var s1 := Release(s, t, Rejected);
    var p := Priority(s, s.unacked[t].msg);
    var s2 := Store(s1, how.targets, p);
    ReleaseKeepsInv(s, t, Rejected);
    ReleaseFares(s, t, Rejected, m);
    StoreKeepsInv(s1, how.targets, p);
    StoreFares(s1, how.targets, p, m);
    DispatchFares(s2, s.unacked[t].q, m);
    FaresThen(s1, s2, Settled(s, t, how), m, None);
    if s.unacked[t].msg == m {
      FaresAfterEnd(s, s1, Settled(s, t, how), m, Rejected, None);
    } else {
      FaresThen(s, s1, Settled(s, t, how), m, None);
    }
  }

  // ---- the theorem -------------------------------------------------------

  /** What the action is meant to do to m, apart from handing it out. */
  function EndedBy(s: State, a: Action, m: MsgId): Option<Reason>
    requires m in s.at
  {
    match a
    case Settle(t, how, _) =>
      if t.ch in s.closed then None
      else if t !in s.unacked then LostWith(s, t.ch, m)
      else SettledAs(s, t, how, m)
    case CloseChannel(ch, _) => if ch in s.closed then None else LostWith(s, ch, m)
    case Cancel(c) => IfGone(s.at[m].Queued? && Emptied(s, s.at[m].q, [c]), QueueDeleted)
    case Expire(q, k, _) => IfGone(q in s.queues && k < |s.queues[q].msgs| && s.queues[q].msgs[k] == m, Expired)
    case Delete(q) => IfGone(WaitsIn(s, m, q), QueueDeleted)
    case _ => None
  }

  lemma ConsumeFares(s: State, c: ConsId, cons: Cons, m: MsgId)
    requires Inv(s) && c !in s.cons && cons.ch in s.lastTag && cons.ch !in s.closed && cons.unacked == 0
    requires cons.q in s.queues && !s.queues[cons.q].deleted && m in s.at
    ensures Fares(s, Dispatch(Consuming(s, c, cons), cons.q), m, None)
  {
    var s1 := Consuming(s, c, cons);
    ConsumeKeepsInv(s, c, cons);
    Unconcerned(s, s1, m);
    DispatchFares(s1, cons.q, m);
    FaresThen(s, s1, Dispatch(s1, cons.q), m, None);
  }

  lemma ExpireFares(s: State, q: QueueId, k: nat, targets: seq<QueueId>, m: MsgId)
    requires Inv(s) && q in s.queues && k < |s.queues[q].msgs| && m in s.at
    ensures var x := s.queues[q].msgs[k];
      Fares(s, Store(TimedOut(s, q, k), targets, Priority(s, x)), m, IfGone(x == m, Expired))
  {
    var x, s1 := s.queues[q].msgs[k], TimedOut(s, q, k);
    assert QueueOk(s, q);
    DropKeepsInv(s, q, k);
    StoreFares(s1, targets, Priority(s, x), m);
    if x == m {
      assert Fares(s, s1, m, Some(Expired));
      FaresAfterEnd(s, s1, Store(s1, targets, Priority(s, x)), m, Expired, None);
    } else {
      Unconcerned(s, s1, m);
      FaresThen(s, s1, Store(s1, targets, Priority(s, x)), m, None);
    }
  }

  lemma DeleteFares(s: State, q: QueueId, m: MsgId)
    requires Inv(s) && q in s.queues && m in s.at
    ensures Fares(s, Broker.DeleteQueue(s, q), m, IfGone(WaitsIn(s, m, q), QueueDeleted))
  {
    assert PlaceOk(s, m) && QueueOk(s, q);
  }

  /**
    In every reachable state and for every step, a message that is gone stays
    gone for the same reason, and any other is gone afterwards exactly when the
    step acknowledged, rejected or expired it, deleted the queue it waited in,
    returned it to a deleted queue, or handed it to an auto-acknowledging
    consumer; and the ledger records which.
   */
  lemma NothingVanishes(s: State, a: Action, m: MsgId)
    requires Inv(s) && Enabled(s, a) && m in s.at
    ensures Fares(s, Next(s, a), m, EndedBy(s, a, m))
  {
    match a
    case OpenChannel(_) => Unconcerned(s, Next(s, a), m);
    case DeclareQueue(_, _, _) => Unconcerned(s, Next(s, a), m);
    case Consume(c, ch, q, autoAck, prefetch) => ConsumeFares(s, c, Cons(ch, q, autoAck, prefetch, 0), m);
    case Cancel(c) => RemoveFares(s, c, m);
    case Publish(targets, p) => StoreFares(s, targets, p, m);
    case Settle(t, how, order) =>
      if t.ch in s.closed {
        Unconcerned(s, s, m);
      } else if t !in s.unacked {
        ShutdownFares(s, t.ch, order, m);
      } else {
        match how
        case Ack => AckFares(s, t, m);
        case Requeue => RequeueFares(s, t, m);
        case Reject(_) => RejectFares(s, t, how, m);
      }
    case CloseChannel(ch, order) =>
      if ch in s.closed {
        Unconcerned(s, s, m);
      } else {
        ShutdownFares(s, ch, order, m);
      }
    case Expire(q, k, targets) => ExpireFares(s, q, k, targets, m);
    case Delete(q) => DeleteFares(s, q, m);
  }

  /** The same along every run, from the empty broker on. */
  lemma NothingVanishesOnRuns(run: seq<State>, acts: seq<Action>, k: nat, m: MsgId)
    requires IsRun(run, acts) && k < |acts| && m < run[k].next
    ensures m in run[k].at && Fares(run[k], run[k + 1], m, EndedBy(run[k], acts[k], m))
  {
    RunKeepsInv(run, acts, k);
    NothingVanishes(run[k], acts[k], m);
  }
}
