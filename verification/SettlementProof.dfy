/** No accepted message is lost, and none is duplicated without a fault. */
module SettlementProof {
  import opened Basics
  import opened Routing
  import opened RetryHops
  import opened Settlement
  import H = Headers

  // ---- counting copies ---------------------------------------------------

  function Cnt(o: nat, s: seq<Copy>): nat {
    if s == [] then 0 else (if s[0].origin == o then 1 else 0) + Cnt(o, s[1..])
  }

  lemma {:induction false} CntConcat(o: nat, a: seq<Copy>, b: seq<Copy>)
    ensures Cnt(o, a + b) == Cnt(o, a) + Cnt(o, b)
    decreases |a|
  {
    if a == [] {
      assert a + b == b;
    } else {
      assert (a + b)[1..] == a[1..] + b;
      CntConcat(o, a[1..], b);
    }
  }

  lemma CntOne(o: nat, c: Copy)
    ensures Cnt(o, [c]) == if c.origin == o then 1 else 0
  {
    assert [c][1..] == [];
  }

  lemma CntWithout(o: nat, s: seq<Copy>, i: nat)
    requires i < |s|
    ensures Cnt(o, s) == Cnt(o, Without(s, i)) + if s[i].origin == o then 1 else 0
  {
    assert s == s[..i] + ([s[i]] + s[i + 1..]);
    CntConcat(o, s[..i], [s[i]] + s[i + 1..]);
    CntConcat(o, [s[i]], s[i + 1..]);
    CntConcat(o, s[..i], s[i + 1..]);
    CntOne(o, s[i]);
  }

  /** Deliveries still answerable for o: all but those whose copy is already stored. */
  ghost function Answerable(inflight: map<Tag, InFlight>, o: nat): set<Tag> {
    set tag | tag in inflight && inflight[tag].copy.origin == o && inflight[tag].phase != Acking(Copied)
  }

  /** The copies answerable for o, wherever they are. */
  ghost function Total(w: World, o: nat): nat
    requires Places(w)
  {
    Cnt(o, w.queues[Base(w.comp)]) + Cnt(o, w.queues[RetryQueue(w)]) + Cnt(o, w.queues[DlqQueue(w)])
    + |Answerable(w.inflight, o)|
  }

  ghost predicate Places(w: World) {
    && w.queues.Keys == w.topo.queues.Keys
    && Base(w.comp) in w.queues && RetryQueue(w) in w.queues && DlqQueue(w) in w.queues
  }

  lemma NamesDiffer(base: string)
    ensures base != base + RETRY && base != base + DLQ && base + RETRY != base + DLQ
  {
    assert |base + RETRY| == |base| + 6 && |base + DLQ| == |base| + 4;
  }

  // ---- where publishes go ------------------------------------------------

  /** The retry copy goes to the retry queue, the dead letter to the DLQ, an expired copy home. */
  lemma RoutesHome(w: World, m: Message, q: string)
    requires Wired(w.cfg, w.topo, w.comp, w.delay) && Places(w)
    ensures m.exchange == RetryExchange(w) ==> (Reaches(w.topo, m.exchange, m.key, q) <==> q == RetryQueue(w))
    ensures m.exchange == "" && m.key == DlqQueue(w) ==> (Reaches(w.topo, m.exchange, m.key, q) <==> q == DlqQueue(w))
    ensures m.exchange == DeadLetterTo(w.cfg, w.comp) && HomeKey(w.comp, m.key) ==>
            (Reaches(w.topo, m.exchange, m.key, q) <==> q == Base(w.comp))
  {
    var base := Base(w.comp);
    RetryReachesOwnQueue(w.cfg, w.topo, base, w.delay, DeadLetterTo(w.cfg, w.comp), m.key, q);
    if m.exchange == DeadLetterTo(w.cfg, w.comp) && HomeKey(w.comp, m.key) {
      if w.comp.Service? {
        BusReachesOwnService(w.cfg, w.topo, base, m.key, q);
      } else {
        RedeliveryReachesOwnQueue(w.cfg, w.topo, base, m.key, q);
      }
    }
  }

  /** The retry queue dead-letters home, under the message's own key. */
  lemma RetryArgs(w: World)
    requires Wired(w.cfg, w.topo, w.comp, w.delay)
    ensures RetryQueue(w) in w.topo.queues
    ensures w.topo.queues[RetryQueue(w)] == QueueArgs(Some(w.delay), Some(DeadLetterTo(w.cfg, w.comp)), None)
    ensures DeadLetterTo(w.cfg, w.comp) in w.topo.exchanges
  {
    assert Done(w.topo, RetryDeclares(Base(w.comp), w.delay, DeadLetterTo(w.cfg, w.comp))[1]);
  }

  /** A publish that reaches one queue adds the copy there and nowhere else. */
  lemma PublishOne(w: World, c: Copy, home: string)
    requires home in w.queues && forall q | q in w.queues :: Reaches(w.topo, c.msg.exchange, c.msg.key, q) <==> q == home
    ensures Publish(w, c) == w.queues[home := w.queues[home] + [c]]
  {
  }

  // ---- the invariant -----------------------------------------------------

  /** Copies the component may hold: accepted messages under its own keys. */
  ghost predicate Ours(w: World, s: seq<Copy>) {
    forall i | 0 <= i < |s| :: s[i].origin in w.accepted && HomeKey(w.comp, s[i].msg.key)
  }

  ghost predicate Known(w: World, s: seq<Copy>) {
    forall i | 0 <= i < |s| :: s[i].origin in w.accepted
  }

  ghost predicate InFlightOk(w: World) {
    forall tag | tag in w.inflight ::
      && w.inflight[tag].copy.origin in w.accepted && HomeKey(w.comp, w.inflight[tag].copy.msg.key)
      && w.inflight[tag].phase != Rejecting && w.inflight[tag].channel !in w.dead
  }

  ghost predicate Inv(w: World) {
    && Wired(w.cfg, w.topo, w.comp, w.delay)
    && Places(w)
    && Ours(w, w.queues[Base(w.comp)]) && Ours(w, w.queues[RetryQueue(w)]) && Known(w, w.queues[DlqQueue(w)])
    && InFlightOk(w)
    && w.rejected == {}
    && w.finished <= w.accepted.Keys
  }

  // ---- what each step does to the total -----------------------------------

  ghost function Bump(o: nat, origin: nat): nat { if o == origin then 1 else 0 }

  lemma CntAppend(o: nat, s: seq<Copy>, c: Copy)
    ensures Cnt(o, s + [c]) == Cnt(o, s) + Bump(o, c.origin) && Cnt(o, [c] + s) == Cnt(o, s) + Bump(o, c.origin)
  {
    CntConcat(o, s, [c]);
    CntConcat(o, [c], s);
    CntOne(o, c);
  }

  lemma SetPhaseAnswerable(m: map<Tag, InFlight>, tag: Tag, p: Phase, o: nat)
    requires tag in m && m[tag].phase != Acking(Copied)
    ensures var m1 := m[tag := m[tag].(phase := p)];
      |Answerable(m1, o)| + (if p == Acking(Copied) then Bump(o, m[tag].copy.origin) else 0) == |Answerable(m, o)|
  {
    var m1 := m[tag := m[tag].(phase := p)];
    if p == Acking(Copied) && o == m[tag].copy.origin {
      assert Answerable(m1, o) == Answerable(m, o) - {tag};
    } else {
      assert Answerable(m1, o) == Answerable(m, o);
    }
  }

  lemma RemovedAnswerable(m: map<Tag, InFlight>, tag: Tag, o: nat)
    requires tag in m
    ensures |Answerable(m - {tag}, o)| + (if m[tag].phase == Acking(Copied) then 0 else Bump(o, m[tag].copy.origin))
            == |Answerable(m, o)|
  {
    if tag in Answerable(m, o) {
      assert Answerable(m - {tag}, o) == Answerable(m, o) - {tag};
    } else {
      assert Answerable(m - {tag}, o) == Answerable(m, o);
    }
  }

  lemma AddedAnswerable(m: map<Tag, InFlight>, tag: Tag, f: InFlight, o: nat)
    requires tag !in m && f.phase == Handling
    ensures |Answerable(m[tag := f], o)| == |Answerable(m, o)| + Bump(o, f.copy.origin)
  {
    if f.copy.origin == o {
      assert Answerable(m[tag := f], o) == Answerable(m, o) + {tag};
    } else {
      assert Answerable(m[tag := f], o) == Answerable(m, o);
    }
  }

  function Surviving(m: map<Tag, InFlight>, channel: nat): map<Tag, InFlight> {
    map tag | tag in m && m[tag].channel != channel :: m[tag]
  }

  /** What a dying channel returns covers everything it was answerable for. */
  lemma {:induction false} HeldCovers(m: map<Tag, InFlight>, channel: nat, o: nat)
    ensures Cnt(o, HeldOn(m, channel)) + |Answerable(Surviving(m, channel), o)| >= |Answerable(m, o)|
    ensures (forall tag | tag in m :: m[tag].copy.origin != o) ==> Cnt(o, HeldOn(m, channel)) == 0
    decreases |m|
  {
    if exists tag :: tag in m && m[tag].channel == channel {
      var tag :| tag in m && m[tag].channel == channel && HeldOn(m, channel) == [m[tag].copy] + HeldOn(m - {tag}, channel);
      HeldCovers(m - {tag}, channel, o);
      assert Surviving(m - {tag}, channel) == Surviving(m, channel);
      RemovedAnswerable(m, tag, o);
      CntAppend(o, HeldOn(m - {tag}, channel), m[tag].copy);
    } else {
      assert Surviving(m, channel) == m;
    }
  }

  // ---- where the three publishes of a step end ----------------------------

  function Append(qs: map<string, seq<Copy>>, q: string, c: Copy): map<string, seq<Copy>>
    requires q in qs
  {
    qs[q := qs[q] + [c]]
  }

  lemma RetryStored(w: World, c: Copy)
    requires Wired(w.cfg, w.topo, w.comp, w.delay) && Places(w) && c.msg.exchange == RetryExchange(w)
    ensures Publish(w, c) == Append(w.queues, RetryQueue(w), c)
  {
    forall q | q in w.queues ensures Reaches(w.topo, c.msg.exchange, c.msg.key, q) <==> q == RetryQueue(w) {
      RoutesHome(w, c.msg, q);
    }
    PublishOne(w, c, RetryQueue(w));
  }

  lemma DeadLetterStored(w: World, c: Copy)
    requires Wired(w.cfg, w.topo, w.comp, w.delay) && Places(w) && c.msg.exchange == "" && c.msg.key == DlqQueue(w)
    ensures Publish(w, c) == Append(w.queues, DlqQueue(w), c)
  {
    forall q | q in w.queues ensures Reaches(w.topo, c.msg.exchange, c.msg.key, q) <==> q == DlqQueue(w) {
      RoutesHome(w, c.msg, q);
    }
    PublishOne(w, c, DlqQueue(w));
  }

  lemma ExpiredStored(w: World, c: Copy)
    requires Wired(w.cfg, w.topo, w.comp, w.delay) && Places(w)
    requires c.msg.exchange == DeadLetterTo(w.cfg, w.comp) && HomeKey(w.comp, c.msg.key)
    ensures Publish(w, c) == Append(w.queues, Base(w.comp), c)
  {
    forall q | q in w.queues ensures Reaches(w.topo, c.msg.exchange, c.msg.key, q) <==> q == Base(w.comp) {
      RoutesHome(w, c.msg, q);
    }
    PublishOne(w, c, Base(w.comp));
  }

  // ---- one step -----------------------------------------------------------

  /** Copies the step adds for o, when they are not carried over from elsewhere. */
  ghost function Gain(w: World, a: Action, o: nat): nat {
    match a
    case Accept(origin, _) => Bump(o, origin)
    case RetryPublished(tag, out, _) => if tag in w.inflight && out.FailedStored? then Bump(o, w.inflight[tag].copy.origin) else 0
    case DeadLetterPublished(tag, out, _) => if tag in w.inflight && out.FailedStored? then Bump(o, w.inflight[tag].copy.origin) else 0
    case _ => 0
  }

  /** Copies the step gives up for o: only an acknowledgement after the work is done. */
  ghost function Loss(w: World, a: Action, o: nat): nat {
    match a
    case Ack(tag) =>
      if tag in w.inflight && w.inflight[tag].phase == Acking(Finished) then Bump(o, w.inflight[tag].copy.origin) else 0
    case _ => 0
  }

  predicate Home(w: World, q: string) {
    q == Base(w.comp) || q == RetryQueue(w) || q == DlqQueue(w)
  }

  /** What a step does: it keeps the invariant, changes the totals as stated and touches no other queue. */
  ghost predicate StepOk(w: World, a: Action, w': World)
    requires Inv(w)
  {
    && Inv(w') && w'.comp == w.comp
    && w.accepted.Keys <= w'.accepted.Keys && w.finished <= w'.finished
    && (a.ChannelDies? ==> forall o :: Total(w', o) >= Total(w, o))
    && (!a.ChannelDies? ==> forall o :: Total(w', o) + Loss(w, a, o) == Total(w, o) + Gain(w, a, o))
    && (forall q | q in w.queues :: q in w'.queues && (a.Accept? || Home(w, q) || w'.queues[q] == w.queues[q]))
  }

  lemma AcceptOk(w: World, a: Action)
    requires Inv(w) && Enabled(w, a) && a.Accept?
    ensures StepOk(w, a, Next(w, a))
  {
    var w' := Next(w, a);
    NamesDiffer(Base(w.comp));
    assert w'.queues[Base(w.comp)] == w.queues[Base(w.comp)] + [Copy(a.origin, a.m, [])];
    forall o ensures Total(w', o) == Total(w, o) + Gain(w, a, o) {
      CntAppend(o, w.queues[Base(w.comp)], Copy(a.origin, a.m, []));
    }
  }

  lemma DeliverKeepsTotal(w: World, a: Action, o: nat)
    requires Places(w) && Enabled(w, a) && a.Deliver? && Places(Next(w, a))
    ensures Total(Next(w, a), o) == Total(w, o)
  {
    NamesDiffer(Base(w.comp));
    CntWithout(o, w.queues[Base(w.comp)], a.i);
    AddedAnswerable(w.inflight, a.tag, Next(w, a).inflight[a.tag], o);
  }

  lemma DeliverOk(w: World, a: Action)
    requires Inv(w) && Enabled(w, a) && a.Deliver?
    ensures StepOk(w, a, Next(w, a))
  {
    NamesDiffer(Base(w.comp));
    forall o ensures Total(Next(w, a), o) == Total(w, o) {
      DeliverKeepsTotal(w, a, o);
    }
  }

  /** Moving a delivery to another phase changes no total, unless it gives up the copy. */
  lemma SetPhaseOk(w: World, a: Action, tag: Tag, p: Phase)
    requires Inv(w) && tag in w.inflight && w.inflight[tag].phase != Acking(Copied)
    requires p != Rejecting && p != Acking(Copied)
    requires !a.ChannelDies? && forall o :: Gain(w, a, o) == 0 && Loss(w, a, o) == 0
    ensures StepOk(w, a, SetPhase(w, tag, p))
  {
    var w' := SetPhase(w, tag, p);
    forall o ensures Total(w', o) == Total(w, o) {
      SetPhaseAnswerable(w.inflight, tag, p, o);
    }
  }

  lemma HandlerEndsOk(w: World, a: Action)
    requires Inv(w) && Enabled(w, a) && a.HandlerEnds?
    ensures StepOk(w, a, Next(w, a))
  {
    SetPhaseOk(w, a, a.tag, Decide(w, w.inflight[a.tag].copy.msg, a.r));
  }

  lemma ReplyPublishedOk(w: World, a: Action)
    requires Inv(w) && Enabled(w, a) && a.ReplyPublished?
    ensures StepOk(w, a, Next(w, a))
  {
    SetPhaseOk(w, a, a.tag, if a.out.Confirmed? then Acking(Finished) else Requeueing);
  }

  /** The delivery under `tag` with copy c stored in `q`. */
  function AfterStore(w: World, tag: Tag, p: Phase, q: string, c: Copy): World
    requires tag in w.inflight && q in w.queues
  {
    SetPhase(w, tag, p).(queues := Append(w.queues, q, c))
  }

  lemma StoreKeepsInv(w: World, tag: Tag, p: Phase, q: string, c: Copy)
    requires Inv(w) && tag in w.inflight && p != Rejecting && c.origin == w.inflight[tag].copy.origin
    requires q == DlqQueue(w) || (q == RetryQueue(w) && HomeKey(w.comp, c.msg.key))
    ensures Inv(AfterStore(w, tag, p, q, c))
  {
    NamesDiffer(Base(w.comp));
  }

  lemma StoreTotal(w: World, tag: Tag, p: Phase, q: string, c: Copy, o: nat)
    requires Places(w) && tag in w.inflight && w.inflight[tag].phase != Acking(Copied)
    requires c.origin == w.inflight[tag].copy.origin && (q == DlqQueue(w) || q == RetryQueue(w))
    ensures Places(AfterStore(w, tag, p, q, c))
    ensures Total(AfterStore(w, tag, p, q, c), o) == Total(w, o) + if p == Acking(Copied) then 0 else Bump(o, c.origin)
  {
    NamesDiffer(Base(w.comp));
    SetPhaseAnswerable(w.inflight, tag, p, o);
    CntAppend(o, w.queues[q], c);
  }

  /** A failed attempt's copy is being published, and the broker stores it. */
  predicate Stores(w: World, a: Action) {
    (a.RetryPublished? || a.DeadLetterPublished?) && !a.out.FailedUnstored? && a.tag in w.inflight
  }

  function PhaseAfter(out: PublishOutcome): Phase { if out.Confirmed? then Acking(Copied) else Requeueing }

  /** The copy the action publishes. */
  function CopyOf(w: World, a: Action): Copy
    requires Stores(w, a)
  {
    var c := w.inflight[a.tag].copy;
    var m := if a.RetryPublished? then RetryCopy(c.msg, RetryExchange(w), H.RetryCount(c.msg.headers), a.env)
             else DeadLetterCopy(c.msg, Base(w.comp), DlqQueue(w), H.RetryCount(c.msg.headers), a.env);
    Copy(c.origin, m, c.hops + [a.env])
  }

  function StoredIn(w: World, a: Action): string { if a.RetryPublished? then RetryQueue(w) else DlqQueue(w) }

  /** A stored retry copy or dead letter ends up in its own queue and nowhere else. */
  lemma StoresHome(w: World, a: Action)
    requires Inv(w) && Enabled(w, a) && Stores(w, a)
    ensures Next(w, a) == AfterStore(w, a.tag, PhaseAfter(a.out), StoredIn(w, a), CopyOf(w, a))
    ensures a.RetryPublished? ==> CopyOf(w, a).msg.key == w.inflight[a.tag].copy.msg.key
  {
    if a.RetryPublished? {
      RetryStored(w, CopyOf(w, a));
    } else {
      DeadLetterStored(w, CopyOf(w, a));
    }
  }

  lemma StoreTotals(w: World, a: Action, c: Copy)
    requires Places(w) && Stores(w, a) && w.inflight[a.tag].phase != Acking(Copied)
    requires c.origin == w.inflight[a.tag].copy.origin
    ensures var w' := AfterStore(w, a.tag, PhaseAfter(a.out), StoredIn(w, a), c);
      Places(w') && forall o :: Total(w', o) == Total(w, o) + Gain(w, a, o)
  {
    forall o
      ensures var w' := AfterStore(w, a.tag, PhaseAfter(a.out), StoredIn(w, a), c);
        Places(w') && Total(w', o) == Total(w, o) + Gain(w, a, o)
    {
      StoreTotal(w, a.tag, PhaseAfter(a.out), StoredIn(w, a), c, o);
    }
  }

  lemma StoredOk(w: World, a: Action, c: Copy)
    requires Inv(w) && Stores(w, a) && w.inflight[a.tag].phase != Acking(Copied)
    requires c.origin == w.inflight[a.tag].copy.origin && (a.RetryPublished? ==> HomeKey(w.comp, c.msg.key))
    ensures StepOk(w, a, AfterStore(w, a.tag, PhaseAfter(a.out), StoredIn(w, a), c))
  {
    StoreKeepsInv(w, a.tag, PhaseAfter(a.out), StoredIn(w, a), c);
    StoreTotals(w, a, c);
  }

  lemma CopyPublishedOk(w: World, a: Action)
    requires Inv(w) && Enabled(w, a) && Stores(w, a)
    ensures StepOk(w, a, Next(w, a))
  {
    StoresHome(w, a);
    StoredOk(w, a, CopyOf(w, a));
  }

  /** A refused publish leaves the delivery to be requeued and nothing stored. */
  lemma RefusedOk(w: World, a: Action)
    requires Inv(w) && Enabled(w, a) && (a.RetryPublished? || a.DeadLetterPublished?) && a.out.FailedUnstored?
    ensures StepOk(w, a, Next(w, a))
  {
    SetPhaseOk(w, a, a.tag, Requeueing);
  }

  lemma AckOk(w: World, a: Action)
    requires Inv(w) && Enabled(w, a) && a.Ack?
    ensures StepOk(w, a, Next(w, a))
  {
    var w' := Next(w, a);
    forall o ensures Total(w', o) + Loss(w, a, o) == Total(w, o) {
      RemovedAnswerable(w.inflight, a.tag, o);
    }
  }

  lemma RequeueOk(w: World, a: Action)
    requires Inv(w) && Enabled(w, a) && a.Requeue?
    ensures StepOk(w, a, Next(w, a))
  {
    var w' := Next(w, a);
    NamesDiffer(Base(w.comp));
    forall o ensures Total(w', o) == Total(w, o) {
      RemovedAnswerable(w.inflight, a.tag, o);
      CntAppend(o, w.queues[Base(w.comp)], w.inflight[a.tag].copy);
    }
  }

  lemma {:induction false} HeldIsOurs(w: World, m: map<Tag, InFlight>, channel: nat)
    requires forall tag | tag in m :: m[tag].copy.origin in w.accepted && HomeKey(w.comp, m[tag].copy.msg.key)
    ensures Ours(w, HeldOn(m, channel))
    decreases |m|
  {
    if exists tag :: tag in m && m[tag].channel == channel {
      var tag :| tag in m && m[tag].channel == channel && HeldOn(m, channel) == [m[tag].copy] + HeldOn(m - {tag}, channel);
      HeldIsOurs(w, m - {tag}, channel);
    }
  }

  /** Everything held on the channel goes back to the queue. */
  lemma DyingKeepsTotal(w: World, a: Action, o: nat)
    requires Places(w) && Enabled(w, a) && a.ChannelDies? && Places(Next(w, a))
    ensures Total(Next(w, a), o) >= Total(w, o)
  {
    NamesDiffer(Base(w.comp));
    HeldCovers(w.inflight, a.channel, o);
    CntConcat(o, HeldOn(w.inflight, a.channel), w.queues[Base(w.comp)]);
    assert Next(w, a).inflight == Surviving(w.inflight, a.channel);
  }

  lemma ChannelDiesOk(w: World, a: Action)
    requires Inv(w) && Enabled(w, a) && a.ChannelDies?
    ensures StepOk(w, a, Next(w, a))
  {
    NamesDiffer(Base(w.comp));
    HeldIsOurs(w, w.inflight, a.channel);
    forall o ensures Total(Next(w, a), o) >= Total(w, o) {
      DyingKeepsTotal(w, a, o);
    }
  }

  /** The i-th parked copy gone from the retry queue, and c in the component's queue. */
  function AfterExpiry(w: World, i: nat, c: Copy): World
    requires Places(w) && i < |w.queues[RetryQueue(w)]|
  {
    var qs := w.queues[RetryQueue(w) := Without(w.queues[RetryQueue(w)], i)];
    w.(queues := Append(qs, Base(w.comp), c))
  }

  lemma ExpiryKeepsInv(w: World, i: nat, c: Copy)
    requires Inv(w) && i < |w.queues[RetryQueue(w)]| && HomeKey(w.comp, c.msg.key) && c.origin in w.accepted
    ensures Inv(AfterExpiry(w, i, c))
  {
    NamesDiffer(Base(w.comp));
  }

  lemma ExpiryTotal(w: World, i: nat, c: Copy, o: nat)
    requires Places(w) && i < |w.queues[RetryQueue(w)]| && c.origin == w.queues[RetryQueue(w)][i].origin
    ensures Places(AfterExpiry(w, i, c)) && Total(AfterExpiry(w, i, c), o) == Total(w, o)
  {
    NamesDiffer(Base(w.comp));
    CntWithout(o, w.queues[RetryQueue(w)], i);
    CntAppend(o, w.queues[Base(w.comp)], c);
  }

  /** The copy that comes back when c's time in the retry queue is up. */
  function BackFrom(w: World, c: Copy): Copy {
    Copy(c.origin, Expired(c.msg, DeadLetterTo(w.cfg, w.comp), c.msg.key), c.hops)
  }

  lemma ExpireIsReturn(w: World, i: nat)
    requires Inv(w) && Enabled(w, Expire(i))
    ensures Next(w, Expire(i)) == AfterExpiry(w, i, BackFrom(w, w.queues[RetryQueue(w)][i]))
  {
    var c := w.queues[RetryQueue(w)][i];
    NamesDiffer(Base(w.comp));
    RetryArgs(w);
    var w1 := w.(queues := w.queues[RetryQueue(w) := Without(w.queues[RetryQueue(w)], i)]);
    ExpiredStored(w1, BackFrom(w, c));
  }

  lemma ExpireOk(w: World, a: Action)
    requires Inv(w) && Enabled(w, a) && a.Expire?
    ensures StepOk(w, a, Next(w, a))
  {
    var c := BackFrom(w, w.queues[RetryQueue(w)][a.i]);
    ExpireIsReturn(w, a.i);
    ExpiryKeepsInv(w, a.i, c);
    forall o ensures Total(Next(w, a), o) == Total(w, o) {
      ExpiryTotal(w, a.i, c, o);
    }
  }

  lemma WiredStays(cfg: Config, t: Topology, c: Component, delay: nat, d: Declare)
    requires Wired(cfg, t, c, delay) && Protobus(cfg, d)
    ensures Wired(cfg, Apply(t, d), c, delay) && Extends(t, Apply(t, d))
  {
    var t1 := Apply(t, d);
    ApplyKeepsSound(cfg, t, d);
    DoneStays(t, t1, DeclareQueue(Base(c), PLAIN));
    if c.Service? {
      DoneStays(t, t1, BindQueue(c.name, RequestBinding(c.name), cfg.bus));
    } else {
      DoneStays(t, t1, BindQueue(c.queue, "#", c.queue + REDELIVERY));
    }
    forall k | 0 <= k < 4 ensures Done(t1, RetryDeclares(Base(c), delay, DeadLetterTo(cfg, c))[k]) {
      DoneStays(t, t1, RetryDeclares(Base(c), delay, DeadLetterTo(cfg, c))[k]);
    }
  }

  /** A wider topology and empty new queues change nothing for the component. */
  lemma WiderOk(w: World, a: Action, t: Topology, qs: map<string, seq<Copy>>)
    requires Inv(w) && a.OthersDeclare? && Wired(w.cfg, t, w.comp, w.delay)
    requires qs.Keys == t.queues.Keys && forall q | q in w.queues :: q in qs && qs[q] == w.queues[q]
    ensures StepOk(w, a, w.(topo := t, queues := qs))
  {
  }

  lemma OthersDeclareOk(w: World, a: Action)
    requires Inv(w) && Enabled(w, a) && a.OthersDeclare?
    ensures StepOk(w, a, Next(w, a))
  {
    var w' := Next(w, a);
    WiredStays(w.cfg, w.topo, w.comp, w.delay, a.d);
    assert w'.queues.Keys == w'.topo.queues.Keys;
    WiderOk(w, a, w'.topo, w'.queues);
  }

  lemma StepIsOk(w: World, a: Action)
    requires Inv(w) && Enabled(w, a)
    ensures StepOk(w, a, Next(w, a))
  {
    match a
    case Accept(_, _) => AcceptOk(w, a);
    case Deliver(_, _, _) => DeliverOk(w, a);
    case HandlerEnds(_, _) => HandlerEndsOk(w, a);
    case ReplyPublished(_, _) => ReplyPublishedOk(w, a);
    case RetryPublished(_, out, _) => if out.FailedUnstored? { RefusedOk(w, a); } else { CopyPublishedOk(w, a); }
    case DeadLetterPublished(_, out, _) => if out.FailedUnstored? { RefusedOk(w, a); } else { CopyPublishedOk(w, a); }
    case Ack(_) => AckOk(w, a);
    case Requeue(_) => RequeueOk(w, a);
    case Reject(_) =>
    case ChannelDies(_) => ChannelDiesOk(w, a);
    case Expire(_) => ExpireOk(w, a);
    case OthersDeclare(_) => OthersDeclareOk(w, a);
  }

  // ---- whole runs ---------------------------------------------------------

  /** The component has just started; nothing of its own is in the broker. */
  ghost predicate Start(w: World) {
    && Wired(w.cfg, w.topo, w.comp, w.delay) && Places(w)
    && w.queues[Base(w.comp)] == [] && w.queues[RetryQueue(w)] == [] && w.queues[DlqQueue(w)] == []
    && w.inflight == map[] && w.accepted == map[] && w.finished == {} && w.rejected == {}
  }

  ghost predicate IsRun(run: seq<World>, acts: seq<Action>) {
    && |run| == |acts| + 1
    && forall k | 0 <= k < |acts| :: Enabled(run[k], acts[k]) && run[k + 1] == Next(run[k], acts[k])
  }

  ghost predicate NothingLost(w: World)
    requires Places(w)
  {
    forall o | o in w.accepted && o !in w.finished :: Total(w, o) >= 1
  }

  lemma StepLosesNothing(w: World, a: Action)
    requires Inv(w) && Enabled(w, a) && NothingLost(w)
    ensures StepOk(w, a, Next(w, a)) && NothingLost(Next(w, a))
  {
    StepIsOk(w, a);
    var w' := Next(w, a);
    forall o | o in w'.accepted && o !in w'.finished ensures Total(w', o) >= 1 {
      if a.Accept? && a.origin == o {
        assert Gain(w, a, o) == 1;
      } else {
        assert o in w.accepted && o !in w.finished;
        assert Loss(w, a, o) == 0;
      }
    }
  }

  lemma {:induction false} RunKeeps(run: seq<World>, acts: seq<Action>, i: nat)
    requires IsRun(run, acts) && Start(run[0]) && i < |run|
    ensures Inv(run[i]) && NothingLost(run[i]) && run[i].comp == run[0].comp
  {
    if i > 0 {
      RunKeeps(run, acts, i - 1);
      StepLosesNothing(run[i - 1], acts[i - 1]);
    }
  }

  /** Where a copy of o can be found and acted on again. */
  ghost predicate Held(w: World, o: nat)
    requires Places(w)
  {
    || (exists i :: 0 <= i < |w.queues[Base(w.comp)]| && w.queues[Base(w.comp)][i].origin == o)
    || (exists i :: 0 <= i < |w.queues[RetryQueue(w)]| && w.queues[RetryQueue(w)][i].origin == o)
    || (exists i :: 0 <= i < |w.queues[DlqQueue(w)]| && w.queues[DlqQueue(w)][i].origin == o)
    || (exists tag :: tag in w.inflight && w.inflight[tag].copy.origin == o && w.inflight[tag].phase != Acking(Copied))
  }

  lemma {:induction false} CountedIsThere(o: nat, s: seq<Copy>)
    ensures Cnt(o, s) >= 1 <==> exists i :: 0 <= i < |s| && s[i].origin == o
  {
    if s != [] {
      CountedIsThere(o, s[1..]);
      if Cnt(o, s[1..]) >= 1 {
        var i :| 0 <= i < |s[1..]| && s[1..][i].origin == o;
        assert s[i + 1].origin == o;
      }
      forall i | 0 < i < |s| && s[i].origin == o ensures Cnt(o, s) >= 1 {
        assert s[1..][i - 1].origin == o;
      }
    }
  }

  /**
    At every moment of every run, whatever publishes fail and channels die, an
    accepted message that is not finished is in the component's queue, its
    retry queue, its dead-letter queue or in a handler; and none is rejected.
   */
  lemma NoMessageLost(run: seq<World>, acts: seq<Action>, i: nat, o: nat)
    requires IsRun(run, acts) && Start(run[0]) && i < |run|
    ensures Inv(run[i]) && run[i].rejected == {}
    ensures o in run[i].accepted && o !in run[i].finished ==> Held(run[i], o)
  {
    RunKeeps(run, acts, i);
    var w := run[i];
    if o in w.accepted && o !in w.finished {
      CountedIsThere(o, w.queues[Base(w.comp)]);
      CountedIsThere(o, w.queues[RetryQueue(w)]);
      CountedIsThere(o, w.queues[DlqQueue(w)]);
      if |Answerable(w.inflight, o)| >= 1 {
        var tag :| tag in Answerable(w.inflight, o);
        assert tag in w.inflight && w.inflight[tag].copy.origin == o && w.inflight[tag].phase != Acking(Copied);
      }
    }
  }

  /** A step in which no channel dies and no publish fails after being stored. */
  predicate Faultless(a: Action) {
    && !a.ChannelDies?
    && (a.RetryPublished? || a.DeadLetterPublished? ==> !a.out.FailedStored?)
  }

  ghost predicate OneEach(w: World)
    requires Places(w)
  {
    && (forall o | o in w.finished :: Total(w, o) == 0)
    && (forall o | o in w.accepted && o !in w.finished :: Total(w, o) == 1)
  }

  lemma UnknownIsZero(w: World, o: nat)
    requires Inv(w) && o !in w.accepted
    ensures Total(w, o) == 0
  {
    CountedIsThere(o, w.queues[Base(w.comp)]);
    CountedIsThere(o, w.queues[RetryQueue(w)]);
    CountedIsThere(o, w.queues[DlqQueue(w)]);
    assert Answerable(w.inflight, o) == {};
  }

  /** What a step accepts and finishes. */
  lemma Books(w: World, a: Action, o: nat)
    requires Enabled(w, a)
    ensures o in Next(w, a).accepted <==> o in w.accepted || (a.Accept? && a.origin == o)
    ensures o in Next(w, a).finished <==> o in w.finished || Loss(w, a, o) == 1
  {
  }

  lemma LossIsThere(w: World, a: Action, o: nat)
    requires Inv(w) && Loss(w, a, o) == 1
    ensures o in w.accepted && Total(w, o) >= 1
  {
    assert a.tag in Answerable(w.inflight, o);
  }

  /** One message, one step. */
  lemma FaultlessFor(w: World, a: Action, w': World, o: nat)
    requires Inv(w) && OneEach(w) && Faultless(a) && StepOk(w, a, w') && o in w'.accepted
    requires o in w'.accepted <==> o in w.accepted || (a.Accept? && a.origin == o)
    requires a.Accept? && a.origin == o ==> o !in w.accepted
    requires o in w'.finished <==> o in w.finished || Loss(w, a, o) == 1
    ensures o in w'.finished ==> Total(w', o) == 0
    ensures o !in w'.finished ==> Total(w', o) == 1
  {
    if o !in w.accepted {
      UnknownIsZero(w, o);
    }
    if Loss(w, a, o) == 1 {
      LossIsThere(w, a, o);
    }
  }

  lemma FaultlessStep(w: World, a: Action)
    requires Inv(w) && OneEach(w) && Enabled(w, a) && Faultless(a)
    ensures Inv(Next(w, a)) && OneEach(Next(w, a))
  {
    StepIsOk(w, a);
    var w' := Next(w, a);
    forall o | o in w'.accepted
      ensures o in w'.finished ==> Total(w', o) == 0
      ensures o !in w'.finished ==> Total(w', o) == 1
    {
      Books(w, a, o);
      FaultlessFor(w, a, w', o);
    }
  }

  /**
    Without such faults every accepted message is answerable in exactly one
    place until it finishes, and in none afterwards.
   */
  lemma {:induction false} ExactlyOnePlace(run: seq<World>, acts: seq<Action>, i: nat)
    requires IsRun(run, acts) && Start(run[0]) && i < |run|
    requires forall k | 0 <= k < |acts| :: Faultless(acts[k])
    ensures Inv(run[i]) && OneEach(run[i])
  {
    if i > 0 {
      ExactlyOnePlace(run, acts, i - 1);
      FaultlessStep(run[i - 1], acts[i - 1]);
    } else {
      RunKeeps(run, acts, 0);
    }
  }

  /**
    Retries, expiries and dead letters stay at home: in every run only a
    publisher's own message ever changes a queue of another component.
   */
  lemma OthersUntouched(run: seq<World>, acts: seq<Action>, k: nat, q: string)
    requires IsRun(run, acts) && Start(run[0]) && k < |acts|
    requires q in run[k].queues && !Home(run[0], q) && !acts[k].Accept?
    ensures q in run[k + 1].queues && run[k + 1].queues[q] == run[k].queues[q]
  {
    RunKeeps(run, acts, k);
    StepIsOk(run[k], acts[k]);
  }
}
