/**
  Capacity, return attribution and verdicts of the publisher-confirm channel,
  over every run.
 */
module PublishConfirmsTheorems {
  import opened PublishConfirms
  import opened PublishConfirmsInvariant

  // ---- runs --------------------------------------------------------------

  /** A run: any interleaving of enabled actions from a fresh channel. */
  ghost predicate IsRun(run: seq<System>, acts: seq<Action>, capacity: nat) {
    && |run| == |acts| + 1
    && Init(run[0], capacity)
    && forall i | 0 <= i < |acts| :: Enabled(run[i], acts[i]) && run[i + 1] == Next(run[i], acts[i])
  }

  lemma {:induction false} RunKeepsInv(run: seq<System>, acts: seq<Action>, capacity: nat, i: nat)
    requires IsRun(run, acts, capacity) && i < |run|
    ensures Inv(run[i])
  {
    if i > 0 {
      RunKeepsInv(run, acts, capacity, i - 1);
      StepKeepsInv(run[i - 1], acts[i - 1]);
    }
  }

  lemma StepCapacity(s: System, a: Action)
    requires Enabled(s, a)
    ensures Next(s, a).c.capacity == s.c.capacity
  {
    if a == ByLoop(ReadReturn) {
      var p := MarkEffect(s.c, s.k.wire[0].dest);
    }
  }

  /** The capacity of the channel never changes. */
  lemma {:induction false} RunCapacity(run: seq<System>, acts: seq<Action>, capacity: nat, i: nat)
    requires IsRun(run, acts, capacity) && i < |run|
    ensures run[i].c.capacity == capacity
  {
    if i > 0 {
      RunCapacity(run, acts, capacity, i - 1);
      StepCapacity(run[i - 1], acts[i - 1]);
    }
  }

  // ---- capacity ----------------------------------------------------------

  /** Slots held are exactly the unsettled publications, at most MaxOutstandingConfirms. */
  lemma SlotsBound(run: seq<System>, acts: seq<Action>, capacity: nat, i: nat)
    requires IsRun(run, acts, capacity) && i < |run|
    ensures 0 <= run[i].c.slots == |Live(run[i].c.pubs)| <= capacity
  {
    RunKeepsInv(run, acts, capacity, i);
    RunCapacity(run, acts, capacity, i);
  }

  /** What no step changes about a publication: its address, a mark, a settlement, a result. */
  predicate Settles(pp: Pub, pp': Pub) {
    && (pp'.dest, pp'.mandatory) == (pp.dest, pp.mandatory)
    && (pp.returned ==> pp'.returned)
    && (pp.settled.Settled? ==> pp'.settled == pp.settled)
    && (pp.caller.Returned? ==> pp'.caller == pp.caller)
  }

  lemma CallerSettles(s: System, a: CallerStep, p: PubId)
    requires CallersOk(s) && CallerEnabled(s, a) && p in s.c.pubs
    ensures p in CallerNext(s, a).c.pubs && Settles(s.c.pubs[p], CallerNext(s, a).c.pubs[p])
  {
  }

  lemma WriterSettles(s: System, a: WriterStep, p: PubId)
    requires WriterOk(s) && WriterEnabled(s, a) && p in s.c.pubs
    ensures p in WriterNext(s, a).c.pubs && Settles(s.c.pubs[p], WriterNext(s, a).c.pubs[p])
  {
  }

  lemma LoopSettles(s: System, a: LoopStep, p: PubId)
    requires LoopEnabled(s, a) && p in s.c.pubs
    ensures p in LoopNext(s, a).c.pubs && Settles(s.c.pubs[p], LoopNext(s, a).c.pubs[p])
  {
    if a.ReadReturn? {
      var q := MarkEffect(s.c, s.k.wire[0].dest);
    }
  }

  /** A settlement is final: with SlotsBound, a slot is released exactly once. */
  lemma SettledOnce(s: System, a: Action, p: PubId)
    requires CallersOk(s) && WriterOk(s) && Enabled(s, a) && p in s.c.pubs
    ensures p in Next(s, a).c.pubs && Settles(s.c.pubs[p], Next(s, a).c.pubs[p])
  {
    match a {
      case ByCaller(x) => CallerSettles(s, x, p);
      case ByWriter(y) => WriterSettles(s, y, p);
      case ByBroker(_) =>
      case ByLoop(l) => LoopSettles(s, l, p);
    }
  }

  /** After shutdown, once no caller is offering and the writer holds nothing, every slot is free. */
  lemma NoSlotLeaks(run: seq<System>, acts: seq<Action>, capacity: nat, i: nat)
    requires IsRun(run, acts, capacity) && i < |run|
    requires run[i].l.LoopDone? && (run[i].w.Idle? || run[i].w.WriterDone?)
    requires forall p | p in run[i].c.pubs :: !run[i].c.pubs[p].caller.Offering?
    ensures run[i].c.slots == 0
  {
    RunKeepsInv(run, acts, capacity, i);
    var s := run[i];
    assert s.c.closed && PendingOk(s) && Owned(s);
    assert s.c.pending == map[];
    assert Live(s.c.pubs) == {};
  }

  lemma {:induction false} DistinctTags(events: seq<Event>)
    requires forall i | 0 <= i < |events| :: events[i].Confirm?
    requires forall i, j | 0 <= i < j < |events| :: events[i].tag != events[j].tag
    ensures |ConfirmTags(events)| == |events|
  {
    if |events| > 0 {
      var n := |events| - 1;
      DistinctTags(events[..n]);
      assert events == events[..n] + [events[n]];
      PushConfirm(events[..n], events[n]);
    }
  }

  lemma {:induction false} InjectiveImage(ts: set<Tag>, m: map<Tag, PubId>, ps: set<PubId>)
    requires forall t | t in ts :: t in m && m[t] in ps
    requires forall t, u | t in ts && u in ts && m[t] == m[u] :: t == u
    ensures |ts| <= |ps|
  {
    if ts != {} {
      var t :| t in ts;
      InjectiveImage(ts - {t}, m, ps - {m[t]});
    }
  }

  /** The library never blocks delivering a confirm: the buffer always has room for it. */
  lemma ConfirmAlwaysFits(run: seq<System>, acts: seq<Action>, capacity: nat, i: nat)
    requires IsRun(run, acts, capacity) && i < |run|
    requires !run[i].c.closed && |run[i].k.wire| > 0 && run[i].k.wire[0].Confirm?
    ensures |run[i].k.buffer| < capacity
  {
    RunKeepsInv(run, acts, capacity, i);
    RunCapacity(run, acts, capacity, i);
    UnreadFit(run[i]);
  }

  lemma UnreadFit(s: System)
    requires Accounting(s.c) && SentOk(s) && PendingOk(s) && RoutedOk(s.k) && UnreadOk(s) && CoverOk(s)
    requires !s.c.closed && |s.k.wire| > 0 && s.k.wire[0].Confirm?
    ensures |s.k.buffer| < s.c.capacity
  {
    var ts := ConfirmTags(s.k.buffer);
    DistinctTags(s.k.buffer);
    var t0 := s.k.wire[0].tag;
    assert t0 !in ts;
    forall t | t in ts + {t0}
      ensures t in s.k.sent && s.k.sent[t] in Live(s.c.pubs)
    {
      assert t in s.k.sent && t !in s.k.consumed;
      assert t in s.c.pending;
    }
    InjectiveImage(ts + {t0}, s.k.sent, Live(s.c.pubs));
  }

  // ---- return attribution ------------------------------------------------

  function ReturnTags(events: seq<Event>): set<Tag> {
    set i | 0 <= i < |events| && events[i].Return? :: events[i].of
  }

  /** Returns travel in routing order, each before its own confirm. */
  ghost predicate ReturnsOk(s: System) {
    && (forall i | 0 <= i < |s.k.wire| && s.k.wire[i].Return? :: GenuineReturn(s, s.k.wire[i]))
    && (forall i, j | 0 <= i < j < |s.k.wire| && s.k.wire[i].Return? && s.k.wire[j].Return? ::
          s.k.wire[i].of < s.k.wire[j].of)
    && (forall i, j | 0 <= i < |s.k.wire| && 0 <= j < |s.k.wire| && s.k.wire[i].Return? && s.k.wire[j].Confirm?
                      && s.k.wire[i].of == s.k.wire[j].tag :: i < j)
  }

  ghost predicate GenuineReturn(s: System, e: Event) {
    && e.Return? && e.of in s.k.fate && s.k.fate[e.of] == Bounced
    && e.of in s.k.sent && s.k.sent[e.of] in s.c.pubs && s.c.pubs[s.k.sent[e.of]].dest == e.dest
    && e.of !in s.k.received && forall u | u in s.k.returnsRead :: u < e.of
  }

  /** Every bounced publication is mandatory, and its return is read or on the wire. */
  ghost predicate BouncedOk(s: System) {
    && (forall t | t in s.k.returnsRead :: t in s.k.fate && s.k.fate[t] == Bounced)
    && (forall t | t in s.k.fate && s.k.fate[t] == Bounced ::
          && (t in s.k.returnsRead || t in ReturnTags(s.k.wire))
          && t in s.k.sent && s.k.sent[t] in s.c.pubs && s.c.pubs[s.k.sent[t]].mandatory)
  }

  /** Marked returned if and only if this very publication's return has been read. */
  ghost predicate Exact(s: System) {
    forall p | p in s.c.pubs ::
      s.c.pubs[p].returned <==> p in s.k.tagOf && s.k.tagOf[p] in s.k.returnsRead
  }

  /** No older outstanding twin of the publication being returned was spared by the broker. */
  ghost predicate NoOlderUnbounced(s: System)
    requires |s.k.wire| > 0 && s.k.wire[0].Return? && PendingKnown(s.c)
  {
    forall u | u in s.c.pending && u < s.k.wire[0].of && u in s.k.fate ::
      var pp := s.c.pubs[s.c.pending[u]];
      pp.mandatory && pp.dest == s.k.wire[0].dest ==> s.k.fate[u] == Bounced
  }

  /** The publication being returned is pending, unmarked and matches its return. */
  lemma ReturnedIsPending(s: System)
    requires SentOk(s) && PendingOk(s) && RoutedOk(s.k) && PhaseOk(s) && CoverOk(s)
    requires ReturnsOk(s) && BouncedOk(s) && Exact(s)
    requires LoopEnabled(s, ReadReturn)
    ensures var t := s.k.wire[0].of;
      && t in s.k.sent && t in s.c.pending && s.c.pending[t] == s.k.sent[t]
      && Matches(s.c, s.k.wire[0].dest, t)
  {
    assert GenuineReturn(s, s.k.wire[0]);
  }

  /** The oldest match exists whenever there is a match. */
  lemma {:induction false} OldestExists(c: Client, d: Dest, t: Tag) returns (m: Tag)
    requires PendingKnown(c) && Matches(c, d, t)
    ensures OldestMatch(c, d, m) && m <= t
    decreases t
  {
    if u :| u in c.pending && Matches(c, d, u) && u < t {
      m := OldestExists(c, d, u);
    } else {
      m := t;
    }
  }

  /** A return marks exactly the oldest match. */
  lemma MarksOldest(c: Client, d: Dest, m: Tag)
    requires PendingKnown(c) && OldestMatch(c, d, m)
    ensures AfterReturn(c, d) == c.(pubs := c.pubs[c.pending[m] := c.pubs[c.pending[m]].(returned := true)])
  {
  }

  /** In an exact state an unmarked match older than the next return was not bounced. */
  lemma MatchedIsUnbounced(s: System, m: Tag)
    requires SentOk(s) && PendingOk(s) && WriterOk(s) && RoutedOk(s.k) && ReturnsOk(s) && BouncedOk(s) && Exact(s)
    requires |s.k.wire| > 0 && s.k.wire[0].Return? && PendingKnown(s.c)
    requires Matches(s.c, s.k.wire[0].dest, m) && m < s.k.wire[0].of
    ensures m in s.k.fate && s.k.fate[m] != Bounced
  {
    assert GenuineReturn(s, s.k.wire[0]);
    assert s.k.wire[0].of < s.k.nextSeq;
    assert m in s.k.sent;
    assert m !in s.k.returnsRead;
    assert m !in ReturnTags(s.k.wire);
  }

  /** One return is attributed to the publication the broker bounced iff no such twin exists. */
  lemma ReturnExactIff(s: System)
    requires Inv(s) && ReturnsOk(s) && BouncedOk(s) && Exact(s)
    requires LoopEnabled(s, ReadReturn)
    ensures Exact(LoopNext(s, ReadReturn)) <==> NoOlderUnbounced(s)
  {
    ReturnedIsPending(s);
    var m := OldestExists(s.c, s.k.wire[0].dest, s.k.wire[0].of);
    MarksOldest(s.c, s.k.wire[0].dest, m);
    if NoOlderUnbounced(s) {
      if m < s.k.wire[0].of {
        MatchedIsUnbounced(s, m);
      }
      OwnReturnIsExact(s);
    } else {
      OlderTwinStealsReturn(s, m);
    }
  }

  lemma OwnReturnIsExact(s: System)
    requires SentOk(s) && Exact(s) && LoopEnabled(s, ReadReturn)
    requires s.k.wire[0].of in s.k.sent && s.k.wire[0].of in s.c.pending
    requires s.c.pending[s.k.wire[0].of] == s.k.sent[s.k.wire[0].of]
    requires OldestMatch(s.c, s.k.wire[0].dest, s.k.wire[0].of)
    ensures Exact(LoopNext(s, ReadReturn))
  {
    MarksOldest(s.c, s.k.wire[0].dest, s.k.wire[0].of);
  }

  lemma OlderTwinStealsReturn(s: System, m: Tag)
    requires SentOk(s) && PendingOk(s) && BouncedOk(s) && Exact(s) && LoopEnabled(s, ReadReturn)
    requires s.k.wire[0].of in s.k.sent && s.k.wire[0].of in s.c.pending
    requires s.c.pending[s.k.wire[0].of] == s.k.sent[s.k.wire[0].of]
    requires Matches(s.c, s.k.wire[0].dest, s.k.wire[0].of)
    requires OldestMatch(s.c, s.k.wire[0].dest, m) && !NoOlderUnbounced(s)
    requires s.k.fate.Keys <= s.k.sent.Keys
    ensures !Exact(LoopNext(s, ReadReturn))
  {
    MarksOldest(s.c, s.k.wire[0].dest, m);
    var t := s.k.wire[0].of;
    var v :| v in s.c.pending && v < t && v in s.k.fate && s.k.fate[v] != Bounced
          && s.c.pubs[s.c.pending[v]].mandatory && s.c.pubs[s.c.pending[v]].dest == s.k.wire[0].dest;
    assert s.k.tagOf[s.c.pending[v]] == v;
    assert Matches(s.c, s.k.wire[0].dest, v);
    assert m <= v;
    assert s.c.pending[m] != s.k.sent[t];
  }

  /** Every other step leaves attribution exact. */
  lemma CallerKeepsExact(s: System, a: CallerStep)
    requires SentOk(s) && Exact(s) && CallerEnabled(s, a)
    ensures Exact(CallerNext(s, a))
  {
  }

  lemma WriteOkKeepsExact(s: System)
    requires SentOk(s) && WriterOk(s) && RoutedOk(s.k) && BouncedOk(s) && Exact(s) && WriterEnabled(s, WriteOk)
    ensures Exact(WriterNext(s, WriteOk))
  {
  }

  lemma WriterKeepsExact(s: System, a: WriterStep)
    requires SentOk(s) && WriterOk(s) && RoutedOk(s.k) && BouncedOk(s) && Exact(s) && WriterEnabled(s, a)
    ensures Exact(WriterNext(s, a))
  {
    if a.WriteOk? {
      WriteOkKeepsExact(s);
    } else {
      SettlingKeepsExact(s, a);
    }
  }

  lemma SettlingKeepsExact(s: System, a: WriterStep)
    requires Exact(s) && WriterEnabled(s, a) && !a.WriteOk?
    ensures Exact(WriterNext(s, a))
  {
  }

  lemma LoopKeepsExact(s: System, a: LoopStep)
    requires Exact(s) && LoopEnabled(s, a) && !a.ReadReturn?
    ensures Exact(LoopNext(s, a))
  {
  }

  lemma OthersKeepExact(s: System, a: Action)
    requires SentOk(s) && WriterOk(s) && RoutedOk(s.k) && BouncedOk(s) && Exact(s)
    requires Enabled(s, a) && a != ByLoop(ReadReturn)
    ensures Exact(Next(s, a))
  {
    match a {
      case ByCaller(x) => CallerKeepsExact(s, x);
      case ByWriter(y) => WriterKeepsExact(s, y);
      case ByBroker(_) =>
      case ByLoop(l) => LoopKeepsExact(s, l);
    }
  }

  /** Routes and destinations never change once set. */
  ghost predicate Extends(s: System, s': System) {
    && s'.k.wire == s.k.wire && s'.k.received == s.k.received && s'.k.returnsRead == s.k.returnsRead
    && s'.k.fate == s.k.fate
    && (forall t | t in s.k.sent :: t in s'.k.sent && s'.k.sent[t] == s.k.sent[t])
    && (forall p | p in s.c.pubs ::
          p in s'.c.pubs && s'.c.pubs[p].dest == s.c.pubs[p].dest && s'.c.pubs[p].mandatory == s.c.pubs[p].mandatory)
  }

  lemma ExtensionKeepsReturns(s: System, s': System)
    requires ReturnsOk(s) && BouncedOk(s) && Extends(s, s')
    ensures ReturnsOk(s') && BouncedOk(s')
  {
    forall i | 0 <= i < |s'.k.wire| && s'.k.wire[i].Return?
      ensures GenuineReturn(s', s'.k.wire[i])
    {
      assert GenuineReturn(s, s.k.wire[i]);
    }
  }

  lemma CallerExtends(s: System, a: CallerStep)
    requires CallerEnabled(s, a)
    ensures Extends(s, CallerNext(s, a))
  {
  }

  lemma WriterExtends(s: System, a: WriterStep)
    requires SentOk(s) && WriterEnabled(s, a)
    ensures Extends(s, WriterNext(s, a))
  {
  }

  lemma LoopExtends(s: System, a: LoopStep)
    requires LoopEnabled(s, a) && !a.ReadReturn?
    ensures Extends(s, LoopNext(s, a))
  {
  }

  lemma RouteKeepsReturns(s: System, a: BrokerStep)
    requires SentOk(s) && RoutedOk(s.k) && UnreadOk(s) && ReturnsOk(s) && BouncedOk(s)
    requires a.Route? && BrokerEnabled(s, a)
    ensures ReturnsOk(BrokerNext(s, a))
  {
    var s' := BrokerNext(s, a);
    forall i | 0 <= i < |s'.k.wire| && s'.k.wire[i].Return?
      ensures GenuineReturn(s', s'.k.wire[i])
    {
      if i < |s.k.wire| {
        assert s'.k.wire[i] == s.k.wire[i] && GenuineReturn(s, s.k.wire[i]);
      }
    }
  }

  lemma DeliveryKeepsReturns(s: System, a: BrokerStep)
    requires ReturnsOk(s) && !a.Route? && BrokerEnabled(s, a)
    ensures ReturnsOk(BrokerNext(s, a))
  {
    var s' := BrokerNext(s, a);
    forall i | 0 <= i < |s'.k.wire| && s'.k.wire[i].Return?
      ensures GenuineReturn(s', s'.k.wire[i])
    {
      var j := if a.Pump? then i + 1 else i;
      assert s'.k.wire[i] == s.k.wire[j] && GenuineReturn(s, s.k.wire[j]);
    }
  }

  lemma BrokerKeepsBounced(s: System, a: BrokerStep)
    requires SentOk(s) && RoutedOk(s.k) && BouncedOk(s) && BrokerEnabled(s, a)
    ensures BouncedOk(BrokerNext(s, a))
  {
    var s' := BrokerNext(s, a);
    forall t | t in ReturnTags(s.k.wire) ensures t in ReturnTags(s'.k.wire) {
      var i :| 0 <= i < |s.k.wire| && s.k.wire[i].Return? && s.k.wire[i].of == t;
      if a.Pump? {
        assert s'.k.wire[i - 1] == s.k.wire[i];
      } else {
        assert s'.k.wire[i] == s.k.wire[i];
      }
    }
    if a.Route? && a.fate == Bounced {
      assert s'.k.wire[|s.k.wire|].of == NextToRoute(s.k);
    }
  }

  lemma ReadKeepsReturns(s: System)
    requires ReturnsOk(s) && LoopEnabled(s, ReadReturn)
    ensures ReturnsOk(LoopNext(s, ReadReturn))
  {
    var p := MarkEffect(s.c, s.k.wire[0].dest);
    var s' := LoopNext(s, ReadReturn);
    forall i | 0 <= i < |s'.k.wire| && s'.k.wire[i].Return?
      ensures GenuineReturn(s', s'.k.wire[i])
    {
      assert GenuineReturn(s, s.k.wire[i + 1]);
    }
  }

  lemma ReadKeepsBounced(s: System)
    requires ReturnsOk(s) && BouncedOk(s) && LoopEnabled(s, ReadReturn)
    ensures BouncedOk(LoopNext(s, ReadReturn))
  {
    var p := MarkEffect(s.c, s.k.wire[0].dest);
    var s' := LoopNext(s, ReadReturn);
    assert GenuineReturn(s, s.k.wire[0]);
    forall t | t in ReturnTags(s.k.wire) && t != s.k.wire[0].of ensures t in ReturnTags(s'.k.wire) {
      var i :| 0 <= i < |s.k.wire| && s.k.wire[i].Return? && s.k.wire[i].of == t;
      assert s'.k.wire[i - 1] == s.k.wire[i];
    }
  }

  lemma StepKeepsReturns(s: System, a: Action)
    requires SentOk(s) && RoutedOk(s.k) && UnreadOk(s) && ReturnsOk(s) && BouncedOk(s) && Enabled(s, a)
    ensures ReturnsOk(Next(s, a)) && BouncedOk(Next(s, a))
  {
    match a {
      case ByCaller(x) =>
        CallerExtends(s, x);
        ExtensionKeepsReturns(s, Next(s, a));
      case ByWriter(y) =>
        WriterExtends(s, y);
        ExtensionKeepsReturns(s, Next(s, a));
      case ByBroker(z) =>
        if z.Route? {
          RouteKeepsReturns(s, z);
        } else {
          DeliveryKeepsReturns(s, z);
        }
        BrokerKeepsBounced(s, z);
      case ByLoop(l) =>
        if l.ReadReturn? {
          ReadKeepsReturns(s);
          ReadKeepsBounced(s);
        } else {
          LoopExtends(s, l);
          ExtensionKeepsReturns(s, Next(s, a));
        }
    }
  }

  lemma {:induction false} RunKeepsReturns(run: seq<System>, acts: seq<Action>, capacity: nat, i: nat)
    requires IsRun(run, acts, capacity) && i < |run|
    ensures ReturnsOk(run[i]) && BouncedOk(run[i])
  {
    if i > 0 {
      RunKeepsReturns(run, acts, capacity, i - 1);
      RunKeepsInv(run, acts, capacity, i - 1);
      StepKeepsReturns(run[i - 1], acts[i - 1]);
    }
  }

  /** Whenever the loop reads a return, the bounced publication has no older outstanding spared twin. */
  ghost predicate BouncesComeFirst(run: seq<System>, acts: seq<Action>)
    requires |run| == |acts| + 1
  {
    forall i | 0 <= i < |acts| && acts[i] == ByLoop(ReadReturn) && LoopEnabled(run[i], ReadReturn) ::
      NoOlderUnbounced(run[i])
  }

  /** The attribution theorem: exact throughout a run if and only if bounces come first. */
  lemma AttributionExactIff(run: seq<System>, acts: seq<Action>, capacity: nat)
    requires IsRun(run, acts, capacity)
    ensures (forall i | 0 <= i < |run| :: Exact(run[i])) <==> BouncesComeFirst(run, acts)
  {
    if BouncesComeFirst(run, acts) {
      forall i | 0 <= i < |run| ensures Exact(run[i]) {
        RunStaysExact(run, acts, capacity, i);
      }
    }
    if forall i | 0 <= i < |run| :: Exact(run[i]) {
      forall i | 0 <= i < |acts| && acts[i] == ByLoop(ReadReturn) && LoopEnabled(run[i], ReadReturn)
        ensures NoOlderUnbounced(run[i])
      {
        RunKeepsInv(run, acts, capacity, i);
        RunKeepsReturns(run, acts, capacity, i);
        assert Exact(run[i]) && Exact(run[i + 1]);
        ReturnExactIff(run[i]);
      }
    }
  }

  lemma {:induction false} RunStaysExact(run: seq<System>, acts: seq<Action>, capacity: nat, i: nat)
    requires IsRun(run, acts, capacity) && BouncesComeFirst(run, acts) && i < |run|
    ensures Exact(run[i])
  {
    if i > 0 {
      RunStaysExact(run, acts, capacity, i - 1);
      RunKeepsInv(run, acts, capacity, i - 1);
      RunKeepsReturns(run, acts, capacity, i - 1);
      if acts[i - 1] == ByLoop(ReadReturn) {
        ReturnExactIff(run[i - 1]);
      } else {
        OthersKeepExact(run[i - 1], acts[i - 1]);
      }
    }
  }

  // ---- verdicts ----------------------------------------------------------

  /** What publish's result tells its caller about what happened to the publication. */
  predicate ResultTrue(s: System, p: PubId)
    requires p in s.c.pubs && s.c.pubs[p].caller.Returned?
  {
    match s.c.pubs[p].caller.r
    // nil: the broker acked this very publication, and no return of it was seen
    case Nil => Answered(s.k, p, true) && !s.c.pubs[p].returned
    // any error that is not a PublishError: it was never transmitted
    case Bare(_) => !Transmitted(s.k, p)
    case PublishError(BrokerVerdict(Nacked)) => Answered(s.k, p, false)
    case PublishError(BrokerVerdict(Unroutable)) => Answered(s.k, p, true) && s.c.pubs[p].returned
    // ambiguous because of the close: no confirm of it had been received
    case PublishError(BrokerVerdict(ChannelClosed)) => Unanswered(s.k, p)
    case PublishError(BrokerVerdict(NoVerdict)) => false
    case PublishError(_) => true
  }

  /** What publish's result means, whatever happened on the way. */
  lemma ResultsMean(run: seq<System>, acts: seq<Action>, capacity: nat, i: nat, p: PubId)
    requires IsRun(run, acts, capacity) && i < |run| && p in run[i].c.pubs
    requires run[i].c.pubs[p].caller.Returned?
    ensures ResultTrue(run[i], p)
  {
    RunKeepsInv(run, acts, capacity, i);
    ResultMeans(run[i], p);
  }

  lemma ResultMeans(s: System, p: PubId)
    requires SettlementsOk(s) && ResultsOk(s) && p in s.c.pubs && s.c.pubs[p].caller.Returned?
    ensures ResultTrue(s, p)
  {
    assert SettlementOk(s, p) && ResultOk(s.c.pubs[p]);
  }

  /** When bounces come first, nil and ErrUnroutable tell the broker's decision exactly. */
  lemma VerdictsTrue(run: seq<System>, acts: seq<Action>, capacity: nat, i: nat, p: PubId)
    requires IsRun(run, acts, capacity) && BouncesComeFirst(run, acts)
    requires i < |run| && p in run[i].c.pubs
    ensures var s := run[i]; var c := s.c.pubs[p].caller;
      && (c == Returned(Nil) ==> p in s.k.tagOf && s.k.tagOf[p] in s.k.fate && s.k.fate[s.k.tagOf[p]] == Accepted)
      && (c == Returned(PublishError(BrokerVerdict(Unroutable))) ==>
            p in s.k.tagOf && s.k.tagOf[p] in s.k.fate && s.k.fate[s.k.tagOf[p]] == Bounced)
  {
    var s := run[i];
    if s.c.pubs[p].caller.Returned? {
      ResultsMean(run, acts, capacity, i, p);
      RunStaysExact(run, acts, capacity, i);
      RunKeepsReturns(run, acts, capacity, i);
      RunKeepsInv(run, acts, capacity, i);
      ConfirmedBounceIsRead(s);
    }
  }

  /** By the time a confirm is read, its publication's return has been read. */
  lemma ConfirmedBounceIsRead(s: System)
    requires RoutedOk(s.k) && ReturnsOk(s) && BouncedOk(s)
    ensures forall t | t in s.k.consumed && t in s.k.fate && s.k.fate[t] == Bounced :: t in s.k.returnsRead
  {
    forall t | t in s.k.consumed && t in s.k.fate && s.k.fate[t] == Bounced
      ensures t in s.k.returnsRead
    {
      assert t in s.k.received;
      assert t !in ReturnTags(s.k.wire);
    }
  }
}
