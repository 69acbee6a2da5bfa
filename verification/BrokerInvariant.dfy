/** What every step of the broker keeps. */
module BrokerInvariant {
  import opened Basics
  import opened Broker

  /** A consumer of q on an open channel. */
  predicate Live(s: State, q: QueueId, c: ConsId) {
    c in s.cons && s.cons[c].q == q && s.cons[c].ch in s.lastTag && s.cons[c].ch !in s.closed
  }

  predicate Refs(s: State) {
    forall q, c {:trigger Live(s, q, c)} | q in s.queues && c in s.queues[q].consumers :: Live(s, q, c)
  }

  predicate NoDup(s: seq<MsgId>) {
    forall i, j | 0 <= i < j < |s| :: s[i] != s[j]
  }

  /** The queues and the ledger agree. */
  predicate QueueOk(s: State, q: QueueId) {
    && q in s.queues && NoDup(s.queues[q].msgs)
    && (forall m | m in s.queues[q].msgs :: m in s.at && s.at[m] == Queued(q))
    && (s.queues[q].deleted ==> s.queues[q].msgs == [] && s.queues[q].consumers == [])
  }

  predicate QueuesOk(s: State) {
    forall q {:trigger QueueOk(s, q)} | q in s.queues :: QueueOk(s, q)
  }

  /** A delivery is on an open channel, on its consumer's books, and the ledger says so. */
  predicate TagOk(s: State, t: Tag) {
    && t in s.unacked
    && t.ch in s.lastTag && 1 <= t.n <= s.lastTag[t.ch] && t.ch !in s.closed
    && var f := s.unacked[t];
       && f.q in s.queues && f.cons in s.cons && s.cons[f.cons].ch == t.ch && !s.cons[f.cons].autoAck
       && f.msg in s.at && s.at[f.msg] == Unacked(t)
  }

  predicate TagsOk(s: State) {
    forall t {:trigger TagOk(s, t)} | t in s.unacked :: TagOk(s, t)
  }

  /** The ledger points at real places. */
  predicate PlaceOk(s: State, m: MsgId) {
    && m in s.at && m < s.next
    && (s.at[m].Queued? ==> s.at[m].q in s.queues && m in s.queues[s.at[m].q].msgs)
    && (s.at[m].Unacked? ==> s.at[m].tag in s.unacked && s.unacked[s.at[m].tag].msg == m)
  }

  predicate PlacesOk(s: State) {
    && (forall m {:trigger PlaceOk(s, m)} | m in s.at :: PlaceOk(s, m))
    && (forall m: nat | m < s.next :: m in s.at)
  }

  /** What consumer c has been given and has not settled. */
  function Held(unacked: map<Tag, Inflight>, c: ConsId): set<Tag> {
    set t | t in unacked && unacked[t].cons == c
  }

  predicate ConsOk(s: State, c: ConsId) {
    && c in s.cons && s.cons[c].q in s.queues && s.cons[c].ch in s.lastTag
    && s.cons[c].unacked == |Held(s.unacked, c)|
    && (!s.cons[c].autoAck && s.cons[c].prefetch > 0 ==> s.cons[c].unacked <= s.cons[c].prefetch)
  }

  predicate CountsOk(s: State) {
    forall c {:trigger ConsOk(s, c)} | c in s.cons :: ConsOk(s, c)
  }

  predicate Inv(s: State) {
    Refs(s) && QueuesOk(s) && TagsOk(s) && PlacesOk(s) && CountsOk(s)
  }

  // ---- one delivery ------------------------------------------------------

  lemma WithoutMembers(s: seq<MsgId>, k: nat)
    requires k < |s| && NoDup(s)
    ensures NoDup(Without(s, k)) && forall m :: m in Without(s, k) <==> m in s && m != s[k]
  {
    var r := Without(s, k);
    forall m | m in s && m != s[k] ensures m in r {
      var i :| 0 <= i < |s| && s[i] == m;
      assert r[if i < k then i else i - 1] == m;
    }
  }

  lemma HeldMore(unacked: map<Tag, Inflight>, t: Tag, f: Inflight, c: ConsId)
    requires t !in unacked
    ensures |Held(unacked[t := f], c)| == |Held(unacked, c)| + if f.cons == c then 1 else 0
  {
    if f.cons == c {
      assert Held(unacked[t := f], c) == Held(unacked, c) + {t};
    } else {
      assert Held(unacked[t := f], c) == Held(unacked, c);
    }
  }

  lemma HeldLess(unacked: map<Tag, Inflight>, t: Tag, c: ConsId)
    requires t in unacked
    ensures |Held(unacked - {t}, c)| == |Held(unacked, c)| - if unacked[t].cons == c then 1 else 0
  {
    if unacked[t].cons == c {
      assert Held(unacked - {t}, c) == Held(unacked, c) - {t};
    } else {
      assert Held(unacked - {t}, c) == Held(unacked, c);
    }
  }

  lemma FreshTag(s: State, t: Tag)
    requires TagsOk(s) && t.ch in s.lastTag && t.n > s.lastTag[t.ch]
    ensures t !in s.unacked
  {
    assert t in s.unacked ==> TagOk(s, t);
  }

  lemma RefsKept(s: State, s': State)
    requires Refs(s) && s'.cons.Keys == s.cons.Keys && s'.lastTag == s.lastTag && s'.closed == s.closed
    requires forall c | c in s.cons :: SameCons(s.cons[c], s'.cons[c])
    requires s'.queues.Keys == s.queues.Keys
    requires forall q, c | q in s.queues && c in s'.queues[q].consumers :: c in s.queues[q].consumers
    ensures Refs(s')
  {
    forall q, c | q in s'.queues && c in s'.queues[q].consumers ensures Live(s', q, c) {
      assert Live(s, q, c);
    }
  }

  /** Deliveries whose ledger entry is untouched stay in order. */
  lemma TagsKept(s: State, s': State)
    requires TagsOk(s) && s'.queues.Keys == s.queues.Keys && s'.cons == s.cons
    requires s'.unacked == s.unacked && s'.lastTag == s.lastTag && s'.closed == s.closed
    requires forall m | m in s.at && s.at[m].Unacked? :: m in s'.at && s'.at[m] == s.at[m]
    ensures TagsOk(s')
  {
    forall t | t in s'.unacked ensures TagOk(s', t) {
      assert TagOk(s, t);
    }
  }

  lemma CountsKept(s: State, s': State)
    requires CountsOk(s) && s'.queues.Keys == s.queues.Keys && s'.cons == s.cons
    requires s'.unacked == s.unacked && s'.lastTag == s.lastTag
    ensures CountsOk(s')
  {
    forall c | c in s'.cons ensures ConsOk(s', c) {
      assert ConsOk(s, c);
    }
  }

  lemma TakeOutKeepsQueues(s: State, q: QueueId, i: nat, k: nat)
    requires QueuesOk(s) && q in s.queues && s.queues[q].consumers != [] && k < |s.queues[q].msgs|
    ensures QueuesOk(TakeOut(s, q, i, k))
  {
    var s' := TakeOut(s, q, i, k);
    assert QueueOk(s, q);
    WithoutMembers(s.queues[q].msgs, k);
    forall x | x in s'.queues ensures QueueOk(s', x) {
      assert QueueOk(s, x);
    }
  }

  lemma TakeOutKeepsPlaces(s: State, q: QueueId, i: nat, k: nat)
    requires QueuesOk(s) && PlacesOk(s) && q in s.queues && s.queues[q].consumers != [] && k < |s.queues[q].msgs|
    ensures PlacesOk(TakeOut(s, q, i, k))
  {
    var s' := TakeOut(s, q, i, k);
    assert QueueOk(s, q);
    WithoutMembers(s.queues[q].msgs, k);
    forall m | m in s'.at ensures PlaceOk(s', m) {
      assert PlaceOk(s, m);
    }
  }

  lemma TakeOutKeepsInv(s: State, q: QueueId, i: nat, k: nat)
    requires Inv(s) && q in s.queues && s.queues[q].consumers != [] && k < |s.queues[q].msgs|
    ensures Inv(TakeOut(s, q, i, k))
  {
    var s' := TakeOut(s, q, i, k);
    assert QueueOk(s, q);
    TakeOutKeepsQueues(s, q, i, k);
    TakeOutKeepsPlaces(s, q, i, k);
    RefsKept(s, s');
    TagsKept(s, s');
    CountsKept(s, s');
  }

  lemma HandToKeepsPlaces(s: State, c: ConsId, m: MsgId)
    requires QueuesOk(s) && TagsOk(s) && PlacesOk(s)
    requires c in s.cons && s.cons[c].ch in s.lastTag && m in s.at && s.at[m].Gone?
    ensures QueuesOk(HandTo(s, c, m)) && PlacesOk(HandTo(s, c, m))
  {
    var s' := HandTo(s, c, m);
    FreshTag(s, Tag(s.cons[c].ch, s.lastTag[s.cons[c].ch] + 1));
    forall x | x in s'.queues ensures QueueOk(s', x) {
      assert QueueOk(s, x);
    }
    forall x | x in s'.at ensures PlaceOk(s', x) {
      assert PlaceOk(s, x);
    }
  }

  lemma HandToKeepsTags(s: State, c: ConsId, m: MsgId)
    requires TagsOk(s) && c in s.cons && s.cons[c].q in s.queues && m in s.at && s.at[m].Gone?
    requires s.cons[c].ch in s.lastTag && s.cons[c].ch !in s.closed
    ensures TagsOk(HandTo(s, c, m))
  {
    var s' := HandTo(s, c, m);
    forall t | t in s'.unacked ensures TagOk(s', t) {
      if t in s.unacked {
        assert TagOk(s, t);
      }
    }
  }

  lemma HandToKeepsCounts(s: State, c: ConsId, m: MsgId)
    requires CountsOk(s) && TagsOk(s) && c in s.cons && s.cons[c].ch in s.lastTag && HasCapacity(s.cons[c])
    ensures CountsOk(HandTo(s, c, m))
  {
    var s' := HandTo(s, c, m);
    var t := Tag(s.cons[c].ch, s.lastTag[s.cons[c].ch] + 1);
    FreshTag(s, t);
    forall x | x in s'.cons ensures ConsOk(s', x) {
      assert ConsOk(s, x);
      HeldMore(s.unacked, t, Inflight(m, s.cons[c].q, c), x);
    }
  }

  lemma HandToKeepsRefs(s: State, c: ConsId, m: MsgId)
    requires Refs(s) && c in s.cons && s.cons[c].ch in s.lastTag
    ensures Refs(HandTo(s, c, m))
  {
    var s' := HandTo(s, c, m);
    forall q, x | q in s'.queues && x in s'.queues[q].consumers ensures Live(s', q, x) {
      assert Live(s, q, x);
    }
  }

  lemma DeliverKeepsInv(s: State, q: QueueId, i: nat, k: nat)
    requires Inv(s) && q in s.queues && s.queues[q].consumers != [] && k < |s.queues[q].msgs|
    requires CanTake(s, At(s.queues[q], i))
    ensures Inv(DeliverTo(s, q, i, k))
  {
    var c, m := At(s.queues[q], i), s.queues[q].msgs[k];
    var s1 := TakeOut(s, q, i, k);
    assert Live(s, q, c) && QueueOk(s, q);
    TakeOutKeepsInv(s, q, i, k);
    HandToKeepsPlaces(s1, c, m);
    HandToKeepsTags(s1, c, m);
    HandToKeepsCounts(s1, c, m);
    HandToKeepsRefs(s1, c, m);
  }

  // ---- what dispatching leaves alone -------------------------------------

  predicate SameQueue(a: Queue, b: Queue) {
    b == a.(msgs := b.msgs, rr := b.rr)
  }

  predicate SameCons(a: Cons, b: Cons) {
    b == a.(unacked := b.unacked)
  }

  /** Some queue has a consumer on ch. */
  predicate ServedOn(s: State, ch: ChanId) {
    exists q, c :: q in s.queues && c in s.queues[q].consumers && c in s.cons && s.cons[c].ch == ch
  }

  /** Handing out messages changes nothing else. */
  ghost predicate HandsOut(s: State, s': State) {
    && s'.queues.Keys == s.queues.Keys && s'.cons.Keys == s.cons.Keys && s'.lastTag.Keys == s.lastTag.Keys
    && s'.closed == s.closed && s'.next == s.next && s'.prio == s.prio && s'.redelivered == s.redelivered
    && s.handed <= s'.handed
    && (forall q | q in s.queues :: SameQueue(s.queues[q], s'.queues[q]))
    && (forall c | c in s.cons :: SameCons(s.cons[c], s'.cons[c]))
    && (forall ch | ch in s.lastTag && !ServedOn(s, ch) :: s'.lastTag[ch] == s.lastTag[ch])
    && (forall t | t in s.unacked :: t in s'.unacked && s'.unacked[t] == s.unacked[t])
    && (forall t | t in s'.unacked && t !in s.unacked :: ServedOn(s, t.ch))
  }

  lemma ServedSame(s: State, s': State, ch: ChanId)
    requires s'.queues.Keys == s.queues.Keys && s'.cons.Keys == s.cons.Keys
    requires forall q | q in s.queues :: SameQueue(s.queues[q], s'.queues[q])
    requires forall c | c in s.cons :: SameCons(s.cons[c], s'.cons[c])
    ensures ServedOn(s', ch) <==> ServedOn(s, ch)
  {
    if ServedOn(s, ch) {
      var q, c :| q in s.queues && c in s.queues[q].consumers && c in s.cons && s.cons[c].ch == ch;
      assert q in s'.queues && c in s'.queues[q].consumers && c in s'.cons && s'.cons[c].ch == ch;
    }
    if ServedOn(s', ch) {
      var q, c :| q in s'.queues && c in s'.queues[q].consumers && c in s'.cons && s'.cons[c].ch == ch;
      assert q in s.queues && c in s.queues[q].consumers && c in s.cons && s.cons[c].ch == ch;
    }
  }

  lemma TakeOutHandsOut(s: State, q: QueueId, i: nat, k: nat)
    requires q in s.queues && s.queues[q].consumers != [] && k < |s.queues[q].msgs|
    ensures HandsOut(s, TakeOut(s, q, i, k))
  {
  }

  lemma HandToHandsOut(s: State, c: ConsId, m: MsgId)
    requires TagsOk(s) && c in s.cons && s.cons[c].ch in s.lastTag && ServedOn(s, s.cons[c].ch)
    ensures HandsOut(s, HandTo(s, c, m))
  {
    FreshTag(s, Tag(s.cons[c].ch, s.lastTag[s.cons[c].ch] + 1));
  }

  lemma DeliverHandsOut(s: State, q: QueueId, i: nat, k: nat)
    requires Inv(s) && q in s.queues && s.queues[q].consumers != [] && k < |s.queues[q].msgs|
    requires CanTake(s, At(s.queues[q], i))
    ensures HandsOut(s, DeliverTo(s, q, i, k))
  {
    var c, m := At(s.queues[q], i), s.queues[q].msgs[k];
    assert Live(s, q, c);
    assert ServedOn(s, s.cons[c].ch);
    var s1 := TakeOut(s, q, i, k);
    TakeOutKeepsInv(s, q, i, k);
    TakeOutHandsOut(s, q, i, k);
    ServedSame(s, s1, s.cons[c].ch);
    HandToHandsOut(s1, c, m);
    HandsOutTwice(s, s1, HandTo(s1, c, m));
  }

  lemma HandsOutTwice(s: State, s1: State, s2: State)
    requires HandsOut(s, s1) && HandsOut(s1, s2)
    ensures HandsOut(s, s2)
  {
    forall ch ensures ServedOn(s1, ch) <==> ServedOn(s, ch) {
      ServedSame(s, s1, ch);
    }
  }

  lemma {:induction false} DispatchKeepsInv(s: State, q: QueueId)
    requires Inv(s) && q in s.queues
    ensures Inv(Dispatch(s, q)) && HandsOut(s, Dispatch(s, q))
    decreases |s.queues[q].msgs|
  {
    var queue := s.queues[q];
    if queue.msgs != [] && queue.consumers != [] && Pick(s, queue, 0).Some? {
      var i, k := Pick(s, queue, 0).value, NextIndex(s.prio, queue.msgs, queue.maxPriority);
      DeliverKeepsInv(s, q, i, k);
      DeliverHandsOut(s, q, i, k);
      DispatchKeepsInv(DeliverTo(s, q, i, k), q);
      HandsOutTwice(s, DeliverTo(s, q, i, k), Dispatch(s, q));
    }
  }

  // ---- storing, releasing, deleting --------------------------------------

  lemma JoinKeepsQueues(s: State, q: QueueId, m: MsgId, front: bool)
    requires QueuesOk(s) && q in s.queues && !s.queues[q].deleted && m in s.at && s.at[m].Gone?
    ensures QueuesOk(Join(s, q, m, front))
  {
    var s' := Join(s, q, m, front);
    forall x | x in s'.queues ensures QueueOk(s', x) {
      assert QueueOk(s, x);
    }
  }

  lemma JoinKeepsPlaces(s: State, q: QueueId, m: MsgId, front: bool)
    requires PlacesOk(s) && q in s.queues && m in s.at && s.at[m].Gone?
    ensures PlacesOk(Join(s, q, m, front))
  {
    var s' := Join(s, q, m, front);
    assert s'.queues[q].msgs[if front then 0 else |s.queues[q].msgs|] == m;
    forall x | x in s'.at ensures PlaceOk(s', x) {
      assert PlaceOk(s, x);
    }
  }

  lemma JoinKeepsInv(s: State, q: QueueId, m: MsgId, front: bool)
    requires Inv(s) && q in s.queues && !s.queues[q].deleted && m in s.at && s.at[m].Gone?
    ensures Inv(Join(s, q, m, front))
  {
    var s' := Join(s, q, m, front);
    JoinKeepsQueues(s, q, m, front);
    JoinKeepsPlaces(s, q, m, front);
    RefsKept(s, s');
    TagsKept(s, s');
    CountsKept(s, s');
  }

  lemma EnqueueKeepsInv(s: State, q: QueueId, m: MsgId, front: bool)
    requires Inv(s) && q in s.queues && m in s.at && s.at[m].Gone?
    ensures Inv(Enqueue(s, q, m, front))
    ensures !s.queues[q].deleted ==> HandsOut(Join(s, q, m, front), Enqueue(s, q, m, front))
  {
    if !s.queues[q].deleted {
      JoinKeepsInv(s, q, m, front);
      DispatchKeepsInv(Join(s, q, m, front), q);
    }
  }

  lemma ReleaseKeepsPlaces(s: State, t: Tag, why: Reason)
    requires QueuesOk(s) && PlacesOk(s) && t in s.unacked && TagOk(s, t)
    ensures QueuesOk(Release(s, t, why)) && PlacesOk(Release(s, t, why))
  {
    var s' := Release(s, t, why);
    forall x | x in s'.queues ensures QueueOk(s', x) {
      assert QueueOk(s, x);
    }
    forall x | x in s'.at ensures PlaceOk(s', x) {
      assert PlaceOk(s, x);
    }
  }

  lemma ReleaseKeepsTags(s: State, t: Tag, why: Reason)
    requires TagsOk(s) && t in s.unacked && TagOk(s, t)
    ensures TagsOk(Release(s, t, why))
  {
    var s' := Release(s, t, why);
    forall x | x in s'.unacked ensures TagOk(s', x) {
      assert TagOk(s, x);
    }
  }

  lemma ReleaseKeepsCounts(s: State, t: Tag, why: Reason)
    requires CountsOk(s) && t in s.unacked && s.unacked[t].cons in s.cons
    ensures CountsOk(Release(s, t, why))
  {
    var s' := Release(s, t, why);
    forall c | c in s'.cons ensures ConsOk(s', c) {
      assert ConsOk(s, c);
      HeldLess(s.unacked, t, c);
    }
  }

  lemma ReleaseKeepsRefs(s: State, t: Tag, why: Reason)
    requires Refs(s) && t in s.unacked && s.unacked[t].cons in s.cons
    ensures Refs(Release(s, t, why))
  {
    var s' := Release(s, t, why);
    forall q, c | q in s'.queues && c in s'.queues[q].consumers ensures Live(s', q, c) {
      assert Live(s, q, c);
    }
  }

  lemma ReleaseKeepsInv(s: State, t: Tag, why: Reason)
    requires Inv(s) && t in s.unacked && TagOk(s, t)
    ensures Inv(Release(s, t, why))
  {
    ReleaseKeepsPlaces(s, t, why);
    ReleaseKeepsTags(s, t, why);
    ReleaseKeepsCounts(s, t, why);
    ReleaseKeepsRefs(s, t, why);
  }

  lemma DeleteKeepsInv(s: State, q: QueueId)
    requires Inv(s) && q in s.queues
    ensures Inv(DeleteQueue(s, q))
  {
    var s' := DeleteQueue(s, q);
    assert QueueOk(s, q);
    forall x | x in s'.queues ensures QueueOk(s', x) {
      assert QueueOk(s, x);
    }
    forall x | x in s'.at ensures PlaceOk(s', x) {
      assert PlaceOk(s, x);
    }
    RefsKept(s, s');
    TagsKept(s, s');
    CountsKept(s, s');
  }

  lemma UnlistKeepsInv(s: State, c: ConsId, q: QueueId)
    requires Inv(s) && q in s.queues
    ensures Inv(Unlist(s, c, q))
  {
    var s' := Unlist(s, c, q);
    forall x | x in s'.queues ensures QueueOk(s', x) {
      assert QueueOk(s, x);
    }
    forall x | x in s'.at ensures PlaceOk(s', x) {
      assert PlaceOk(s, x);
    }
    RefsKept(s, s');
    TagsKept(s, s');
    CountsKept(s, s');
  }

  lemma RemoveKeepsInv(s: State, c: ConsId)
    requires Inv(s)
    ensures Inv(RemoveConsumer(s, c))
  {
    if RemoveConsumer(s, c) != s {
      var q := s.cons[c].q;
      UnlistKeepsInv(s, c, q);
      if RemoveConsumer(s, c) != Unlist(s, c, q) {
        DeleteKeepsInv(Unlist(s, c, q), q);
      }
    }
  }

  lemma {:induction false} RemoveAllKeepsInv(s: State, order: seq<ConsId>)
    requires Inv(s)
    ensures Inv(RemoveAll(s, order))
    decreases |order|
  {
    if order != [] {
      RemoveKeepsInv(s, order[0]);
      RemoveAllKeepsInv(RemoveConsumer(s, order[0]), order[1..]);
    }
  }

  lemma PutBackKeepsInv(s: State, t: Tag)
    requires Inv(s)
    ensures Inv(PutBackAt(s, t))
  {
    if t in s.unacked {
      assert TagOk(s, t);
      ReleaseKeepsInv(s, t, NoQueue);
      EnqueueKeepsInv(Release(s, t, NoQueue), s.unacked[t].q, s.unacked[t].msg, true);
    }
  }

  lemma {:induction false} PutBackAllKeepsInv(s: State, ch: ChanId, n: nat)
    requires Inv(s)
    ensures Inv(PutBackAll(s, ch, n))
    decreases n
  {
    if n > 0 {
      PutBackKeepsInv(s, Tag(ch, n));
      PutBackAllKeepsInv(PutBackAt(s, Tag(ch, n)), ch, n - 1);
    }
  }
}
