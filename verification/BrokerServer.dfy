/** The broker's loops, on its fields, against the steps they amount to. */
module BrokerServer {
  import opened Basics
  import opened Broker
  import opened BrokerTheorems

  class Server {
    var queues: map<QueueId, Queue>
    var cons: map<ConsId, Cons>
    var lastTag: map<ChanId, nat>
    var closed: set<ChanId>
    var unacked: map<Tag, Inflight>
    var next: MsgId
    var prio: map<MsgId, nat>
    var redelivered: set<MsgId>
    var handed: seq<Handover>
    ghost var at: map<MsgId, Place>

    ghost function View(): State
      reads this
    {
      State(queues, cons, lastTag, closed, unacked, next, prio, redelivered, handed, at)
    }

    constructor ()
      ensures View() == EMPTY
    {
      queues, cons, lastTag, closed, unacked := map[], map[], map[], {}, map[];
      next, prio, redelivered, handed, at := 0, map[], {}, [], map[];
    }

    /** The consumer at distance i gets message k. */
    method Deliver(q: QueueId, i: nat, k: nat)
      requires q in queues && queues[q].consumers != [] && k < |queues[q].msgs| && CanTake(View(), At(queues[q], i))
      modifies this
      ensures View() == DeliverTo(old(View()), q, i, k)
    {
      var queue := queues[q];
      var n := |queue.consumers|;
      var c := queue.consumers[(queue.rr + i) % n];
      var m := queue.msgs[k];
      queues := queues[q := queue.(msgs := queue.msgs[..k] + queue.msgs[k + 1..], rr := (queue.rr + i + 1) % n)];
      at := at[m := Gone(NoQueue)];
      HandMsg(c, m);
    }

    /** Consumer c gets m under the next tag of its channel. */
    method HandMsg(c: ConsId, m: MsgId)
      requires c in cons && cons[c].ch in lastTag
      modifies this
      ensures View() == HandTo(old(View()), c, m)
    {
      var ch := cons[c].ch;
      var t := Tag(ch, lastTag[ch] + 1);
      lastTag := lastTag[ch := t.n];
      handed := handed + [Handover(m, c, cons[c].autoAck)];
      if cons[c].autoAck {
        at := at[m := Gone(AutoAcked)];
      } else {
        unacked := unacked[t := Inflight(m, cons[c].q, c)];
        cons := cons[c := cons[c].(unacked := cons[c].unacked + 1)];
        at := at[m := Unacked(t)];
      }
    }

    /** The first consumer with room, from the round-robin mark on. */
    method FindTarget(q: QueueId) returns (r: Option<nat>)
      requires q in queues && queues[q].consumers != []
      ensures r == Pick(View(), queues[q], 0)
    {
      var queue := queues[q];
      var i := 0;
      while i < |queue.consumers|
        invariant 0 <= i <= |queue.consumers|
        invariant Pick(View(), queue, 0) == Pick(View(), queue, i)
      {
        var c := queue.consumers[(queue.rr + i) % |queue.consumers|];
        if c in cons && cons[c].ch in lastTag && HasCapacity(cons[c]) {
          return Some(i);
        }
        i := i + 1;
      }
      return None;
    }

    method DispatchQueue(q: QueueId)
      requires q in queues
      modifies this
      ensures View() == Dispatch(old(View()), q)
    {
      while |queues[q].msgs| > 0 && |queues[q].consumers| > 0
        invariant q in queues
        invariant Dispatch(View(), q) == Dispatch(old(View()), q)
        decreases |queues[q].msgs|
      {
        var target := FindTarget(q);
        if target.None? {
          return;
        }
        var k := FindNext(prio, queues[q].msgs, queues[q].maxPriority);
        NextIsUnique(prio, queues[q].msgs, queues[q].maxPriority, k, NextIndex(prio, queues[q].msgs, queues[q].maxPriority));
        Deliver(q, target.value, k);
      }
    }

    method EnqueueMsg(q: QueueId, m: MsgId, front: bool)
      requires q in queues
      modifies this
      ensures View() == Enqueue(old(View()), q, m, front)
    {
      var queue := queues[q];
      if queue.deleted {
        return;
      }
      ghost var before := View();
      if front {
        queues := queues[q := queue.(msgs := [m] + queue.msgs)];
        redelivered := redelivered + {m};
      } else {
        queues := queues[q := queue.(msgs := queue.msgs + [m])];
      }
      at := at[m := Queued(q)];
      assert View() == Join(before, q, m, front);
      DispatchQueue(q);
    }

    /** Stores a copy in each target queue in turn. */
    method StoreMsg(targets: seq<QueueId>, p: nat)
      modifies this
      ensures View() == Store(old(View()), targets, p)
    {
      var i := 0;
      while i < |targets|
        invariant 0 <= i <= |targets|
        invariant Store(View(), targets[i..], p) == Store(old(View()), targets, p)
      {
        assert targets[i..][1..] == targets[i + 1..];
        if targets[i] in queues {
          ghost var before := View();
          var m := next;
          next := next + 1;
          prio := prio[m := p];
          at := at[m := Gone(NoQueue)];
          assert View() == Numbered(before, p);
          EnqueueMsg(targets[i], m, false);
        }
        i := i + 1;
      }
    }

    /** Takes a delivery off the books of its channel and consumer. */
    method ReleaseTag(t: Tag, why: Reason)
      requires t in unacked
      modifies this
      ensures View() == Release(old(View()), t, why)
    {
      var f := unacked[t];
      unacked := unacked - {t};
      if f.cons in cons {
        cons := cons[f.cons := cons[f.cons].(unacked := cons[f.cons].unacked - 1)];
      }
      at := at[f.msg := Gone(why)];
    }

    /** Puts the delivery under t, if there is one, back at the head of its queue. */
    method ReturnOne(t: Tag)
      modifies this
      ensures View() == PutBackAt(old(View()), t)
    {
      if t in unacked {
        var f := unacked[t];
        ReleaseTag(t, NoQueue);
        if f.q in queues {
          EnqueueMsg(f.q, f.msg, true);
        }
      }
    }

    /** Returns the channel's deliveries to their queues, the latest tag first. */
    method ReturnAll(ch: ChanId)
      requires ch in lastTag
      modifies this
      ensures View() == PutBackAll(old(View()), ch, old(lastTag)[ch])
    {
      var n := lastTag[ch];
      while n > 0
        invariant PutBackAll(View(), ch, n) == PutBackAll(old(View()), ch, old(lastTag)[ch])
      {
        ReturnOne(Tag(ch, n));
        n := n - 1;
      }
    }

    /** Settles one delivery on an open channel; false when the tag is unknown. */
    method SettleTag(t: Tag, how: How) returns (known: bool)
      modifies this
      ensures known == (t in old(unacked))
      ensures View() == if known then Settled(old(View()), t, how) else old(View())
    {
      if t !in unacked {
        return false;
      }
      var f := unacked[t];
      match how {
        case Ack => ReleaseTag(t, Acked);
        case Requeue => ReturnOne(t);
        case Reject(targets) =>
          var p := if f.msg in prio then prio[f.msg] else 0;
          ReleaseTag(t, Rejected);
          StoreMsg(targets, p);
      }
      if f.q in queues {
        DispatchQueue(f.q);
      }
      return true;
    }
  }
}
