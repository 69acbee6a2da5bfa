/** Every copy of an accepted message, wherever it is, is that message after some number of hops. */
module SettlementHops {
  import opened Basics
  import opened Routing
  import opened RetryHops
  import opened Settlement
  import opened SettlementProof
  import H = Headers

  /** What a copy's history depends on. */
  datatype Story = Story(accepted: map<nat, Message>, rx: string, dlx: string, base: string, dlq: string)

  function StoryOf(w: World): Story {
    Story(w.accepted, RetryExchange(w), DeadLetterTo(w.cfg, w.comp), Base(w.comp), DlqQueue(w))
  }

  /** The accepted message as it stands after the given failed attempts. */
  function AfterHops(st: Story, origin: nat, hops: seq<Env>): Message
    requires origin in st.accepted
  {
    Hops(st.accepted[origin], st.rx, st.dlx, hops)
  }

  /** A copy waiting for, or in the hands of, a handler. */
  predicate Whole(st: Story, c: Copy) {
    c.origin in st.accepted && c.msg == AfterHops(st, c.origin, c.hops)
  }

  /** The message whose attempt failed last. */
  function LastTried(st: Story, c: Copy): Message
    requires c.origin in st.accepted && c.hops != []
  {
    AfterHops(st, c.origin, c.hops[..|c.hops| - 1])
  }

  /** A copy parked in the retry queue. */
  predicate Parked(st: Story, c: Copy) {
    && c.origin in st.accepted && c.hops != []
    && var d := LastTried(st, c);
       c.msg == RetryCopy(d, st.rx, H.RetryCount(d.headers), c.hops[|c.hops| - 1])
  }

  /** A dead letter. */
  predicate Dead(st: Story, c: Copy) {
    && c.origin in st.accepted && c.hops != []
    && var d := LastTried(st, c);
       c.msg == DeadLetterCopy(d, st.base, st.dlq, H.RetryCount(d.headers), c.hops[|c.hops| - 1])
  }

  ghost predicate AllWhole(st: Story, s: seq<Copy>) { forall c {:trigger Whole(st, c)} | c in s :: Whole(st, c) }
  ghost predicate AllParked(st: Story, s: seq<Copy>) { forall c {:trigger Parked(st, c)} | c in s :: Parked(st, c) }
  ghost predicate AllDead(st: Story, s: seq<Copy>) { forall c {:trigger Dead(st, c)} | c in s :: Dead(st, c) }

  ghost predicate HandsWhole(st: Story, m: map<Tag, InFlight>) {
    forall tag {:trigger Whole(st, m[tag].copy)} | tag in m :: Whole(st, m[tag].copy)
  }

  ghost predicate Derived(w: World)
    requires Places(w)
  {
    && AllWhole(StoryOf(w), w.queues[Base(w.comp)])
    && AllParked(StoryOf(w), w.queues[RetryQueue(w)])
    && AllDead(StoryOf(w), w.queues[DlqQueue(w)])
    && HandsWhole(StoryOf(w), w.inflight)
  }

  // ---- the lists ---------------------------------------------------------

  lemma WholeAdded(st: Story, s: seq<Copy>, c: Copy)
    requires AllWhole(st, s) && Whole(st, c)
    ensures AllWhole(st, s + [c]) && AllWhole(st, [c] + s)
  {
  }

  lemma ParkedAdded(st: Story, s: seq<Copy>, c: Copy)
    requires AllParked(st, s) && Parked(st, c)
    ensures AllParked(st, s + [c])
  {
  }

  lemma DeadAdded(st: Story, s: seq<Copy>, c: Copy)
    requires AllDead(st, s) && Dead(st, c)
    ensures AllDead(st, s + [c])
  {
  }

  lemma WholeWithout(st: Story, s: seq<Copy>, i: nat)
    requires AllWhole(st, s) && i < |s|
    ensures AllWhole(st, Without(s, i)) && Whole(st, s[i])
  {
    assert s[i] in s;
  }

  lemma ParkedWithout(st: Story, s: seq<Copy>, i: nat)
    requires AllParked(st, s) && i < |s|
    ensures AllParked(st, Without(s, i)) && Parked(st, s[i])
  {
    assert s[i] in s;
  }

  lemma {:induction false} HeldWhole(st: Story, m: map<Tag, InFlight>, channel: nat)
    requires HandsWhole(st, m)
    ensures AllWhole(st, HeldOn(m, channel))
    decreases |m|
  {
    if exists tag :: tag in m && m[tag].channel == channel {
      var tag :| tag in m && m[tag].channel == channel && HeldOn(m, channel) == [m[tag].copy] + HeldOn(m - {tag}, channel);
      FewerWhole(st, m, m - {tag});
      HeldWhole(st, m - {tag}, channel);
      assert Whole(st, m[tag].copy);
      WholeAdded(st, HeldOn(m - {tag}, channel), m[tag].copy);
    }
  }

  lemma WholeJoined(st: Story, a: seq<Copy>, b: seq<Copy>)
    requires AllWhole(st, a) && AllWhole(st, b)
    ensures AllWhole(st, a + b)
  {
  }

  lemma FewerWhole(st: Story, m: map<Tag, InFlight>, m': map<Tag, InFlight>)
    requires HandsWhole(st, m)
    requires forall tag | tag in m' :: tag in m && m'[tag].copy == m[tag].copy
    ensures HandsWhole(st, m')
  {
    forall tag | tag in m' ensures Whole(st, m'[tag].copy) {
      assert Whole(st, m[tag].copy);
    }
  }

  lemma TakenWhole(st: Story, m: map<Tag, InFlight>, tag: Tag, f: InFlight)
    requires HandsWhole(st, m) && Whole(st, f.copy)
    ensures HandsWhole(st, m[tag := f])
  {
    var m' := m[tag := f];
    forall x | x in m' ensures Whole(st, m'[x].copy) {
      assert x in m ==> Whole(st, m[x].copy);
    }
  }

  /** Accepting a new message says nothing of the others. */
  lemma StoryGrows(w: World, o: nat, m: Message)
    requires Places(w) && Derived(w) && o !in w.accepted
    ensures Derived(w.(accepted := w.accepted[o := m]))
  {
    var w' := w.(accepted := w.accepted[o := m]);
    var st, st' := StoryOf(w), StoryOf(w');
    forall c | c in w.queues[Base(w.comp)] ensures Whole(st', c) { assert Whole(st, c); }
    forall c | c in w.queues[RetryQueue(w)] ensures Parked(st', c) { assert Parked(st, c); }
    forall c | c in w.queues[DlqQueue(w)] ensures Dead(st', c) { assert Dead(st, c); }
    forall tag | tag in w.inflight ensures Whole(st', w.inflight[tag].copy) { assert Whole(st, w.inflight[tag].copy); }
  }

  /** What an expired copy is: the message after one hop more than its last attempt. */
  lemma BackIsWhole(w: World, c: Copy)
    requires Parked(StoryOf(w), c)
    ensures Whole(StoryOf(w), BackFrom(w, c))
  {
  }

  /** What a failed attempt publishes is derived from what it tried. */
  lemma CopyIsDerived(w: World, a: Action)
    requires Stores(w, a) && Whole(StoryOf(w), w.inflight[a.tag].copy)
    ensures a.RetryPublished? ==> Parked(StoryOf(w), CopyOf(w, a))
    ensures a.DeadLetterPublished? ==> Dead(StoryOf(w), CopyOf(w, a))
  {
    var c := w.inflight[a.tag].copy;
    assert CopyOf(w, a).hops[..|c.hops|] == c.hops;
  }

  // ---- every step --------------------------------------------------------

  lemma AcceptDerived(w: World, a: Action)
    requires Inv(w) && Enabled(w, a) && a.Accept? && Derived(w)
    ensures Places(Next(w, a)) && Derived(Next(w, a))
  {
    var w' := Next(w, a);
    var c := Copy(a.origin, a.m, []);
    NamesDiffer(Base(w.comp));
    StoryGrows(w, a.origin, a.m);
    WholeAdded(StoryOf(w'), w.queues[Base(w.comp)], c);
    assert w'.queues[Base(w.comp)] == w.queues[Base(w.comp)] + [c];
  }

  lemma DeliverDerived(w: World, a: Action)
    requires Inv(w) && Enabled(w, a) && a.Deliver? && Derived(w)
    ensures Places(Next(w, a)) && Derived(Next(w, a))
  {
    NamesDiffer(Base(w.comp));
    WholeWithout(StoryOf(w), w.queues[Base(w.comp)], a.i);
    TakenWhole(StoryOf(w), w.inflight, a.tag, Next(w, a).inflight[a.tag]);
  }

  lemma StoreDerived(w: World, a: Action)
    requires Inv(w) && Enabled(w, a) && Stores(w, a) && Derived(w)
    ensures Places(Next(w, a)) && Derived(Next(w, a))
  {
    var w', c := Next(w, a), CopyOf(w, a);
    StoresHome(w, a);
    assert Whole(StoryOf(w), w.inflight[a.tag].copy);
    CopyIsDerived(w, a);
    FewerWhole(StoryOf(w), w.inflight, w'.inflight);
    StoredDerived(w, w'.inflight, StoredIn(w, a), c);
  }

  lemma StoredDerived(w: World, m: map<Tag, InFlight>, q: string, c: Copy)
    requires Places(w) && Derived(w) && HandsWhole(StoryOf(w), m)
    requires (q == RetryQueue(w) && Parked(StoryOf(w), c)) || (q == DlqQueue(w) && Dead(StoryOf(w), c))
    ensures var w' := w.(inflight := m, queues := Append(w.queues, q, c)); Places(w') && Derived(w')
  {
    NamesDiffer(Base(w.comp));
    if q == RetryQueue(w) {
      ParkedAdded(StoryOf(w), w.queues[q], c);
    } else {
      DeadAdded(StoryOf(w), w.queues[q], c);
    }
  }

  lemma ExpireDerived(w: World, a: Action)
    requires Inv(w) && Enabled(w, a) && a.Expire? && Derived(w)
    ensures Places(Next(w, a)) && Derived(Next(w, a))
  {
    var parked := w.queues[RetryQueue(w)];
    ExpireIsReturn(w, a.i);
    NamesDiffer(Base(w.comp));
    ParkedWithout(StoryOf(w), parked, a.i);
    BackIsWhole(w, parked[a.i]);
    WholeAdded(StoryOf(w), w.queues[Base(w.comp)], BackFrom(w, parked[a.i]));
  }

  lemma RequeueDerived(w: World, a: Action)
    requires Inv(w) && Enabled(w, a) && a.Requeue? && Derived(w)
    ensures Places(Next(w, a)) && Derived(Next(w, a))
  {
    NamesDiffer(Base(w.comp));
    assert Whole(StoryOf(w), w.inflight[a.tag].copy);
    WholeAdded(StoryOf(w), w.queues[Base(w.comp)], w.inflight[a.tag].copy);
    FewerWhole(StoryOf(w), w.inflight, Next(w, a).inflight);
  }

  lemma ChannelDiesDerived(w: World, a: Action)
    requires Inv(w) && Enabled(w, a) && a.ChannelDies? && Derived(w)
    ensures Places(Next(w, a)) && Derived(Next(w, a))
  {
    NamesDiffer(Base(w.comp));
    HeldWhole(StoryOf(w), w.inflight, a.channel);
    WholeJoined(StoryOf(w), HeldOn(w.inflight, a.channel), w.queues[Base(w.comp)]);
    FewerWhole(StoryOf(w), w.inflight, Next(w, a).inflight);
  }

  /** Steps that store nothing and deliver nothing. */
  lemma QuietDerived(w: World, a: Action)
    requires Inv(w) && Enabled(w, a) && Derived(w)
    requires a.HandlerEnds? || a.ReplyPublished? || a.Ack?
             || ((a.RetryPublished? || a.DeadLetterPublished?) && a.out.FailedUnstored?)
    ensures Places(Next(w, a)) && Derived(Next(w, a))
  {
    FewerWhole(StoryOf(w), w.inflight, Next(w, a).inflight);
  }

  lemma OthersDeclareDerived(w: World, a: Action)
    requires Inv(w) && Enabled(w, a) && a.OthersDeclare? && Derived(w) && Places(Next(w, a))
    ensures Derived(Next(w, a))
  {
  }

  lemma StepDerived(w: World, a: Action)
    requires Inv(w) && Enabled(w, a) && Derived(w) && Places(Next(w, a))
    ensures Derived(Next(w, a))
  {
    match a
    case Accept(_, _) => AcceptDerived(w, a);
    case Deliver(_, _, _) => DeliverDerived(w, a);
    case RetryPublished(_, out, _) => if out.FailedUnstored? { QuietDerived(w, a); } else { StoreDerived(w, a); }
    case DeadLetterPublished(_, out, _) => if out.FailedUnstored? { QuietDerived(w, a); } else { StoreDerived(w, a); }
    case Requeue(_) => RequeueDerived(w, a);
    case ChannelDies(_) => ChannelDiesDerived(w, a);
    case Expire(_) => ExpireDerived(w, a);
    case OthersDeclare(_) => OthersDeclareDerived(w, a);
    case Reject(_) =>
    case _ => QuietDerived(w, a);
  }

  lemma {:induction false} RunDerived(run: seq<World>, acts: seq<Action>, i: nat)
    requires IsRun(run, acts) && Start(run[0]) && i < |run|
    ensures Inv(run[i]) && Derived(run[i])
  {
    if i > 0 {
      RunDerived(run, acts, i - 1);
      StepIsOk(run[i - 1], acts[i - 1]);
      StepDerived(run[i - 1], acts[i - 1]);
    }
  }

  // ---- what that means for the copies ------------------------------------

  function Clamp(n: nat): nat { if n <= H.MAX_INT32 then n else H.MAX_INT32 }

  /** What c has kept of the accepted message m0, and what its hops added. */
  ghost predicate Keeps(m0: Message, c: Copy) {
    && SamePayload(m0, c.msg)
    && (m0.messageId != "" ==> c.msg.messageId == m0.messageId)
    && (c.hops != [] ==> "CC" !in c.msg.headers && "BCC" !in c.msg.headers)
    && (c.hops != [] && c.hops[0].now != 0 ==>
          Stamped(c.msg.headers) && c.msg.headers[H.FIRST_FAILURE] == FirstFailure(m0, c.hops[0].now))
    && H.RetryCount(c.msg.headers) == Clamp(H.RetryCount(m0.headers) + |c.hops|)
  }

  lemma WholeKeeps(st: Story, c: Copy)
    requires Whole(st, c)
    ensures Keeps(st.accepted[c.origin], c)
  {
    var m0 := st.accepted[c.origin];
    HopsKeepPayload(m0, st.rx, st.dlx, c.hops);
    HopsCount(m0, st.rx, st.dlx, c.hops);
    if c.hops != [] && c.hops[0].now != 0 {
      FirstFailureFixed(m0, st.rx, st.dlx, c.hops);
    }
  }

  /** A parked copy differs from the one that comes back only in its exchange and its death record. */
  lemma ParkedKeeps(w: World, c: Copy)
    requires Parked(StoryOf(w), c)
    ensures Keeps(w.accepted[c.origin], c)
  {
    BackIsWhole(w, c);
    WholeKeeps(StoryOf(w), BackFrom(w, c));
  }

  /** c is somewhere a handler can still get it from, or has it. */
  ghost predicate Alive(w: World, c: Copy)
    requires Places(w)
  {
    || c in w.queues[Base(w.comp)] || c in w.queues[RetryQueue(w)]
    || exists tag :: tag in w.inflight && w.inflight[tag].copy == c
  }

  /**
    In every run, whatever fails, every live copy of an accepted message has its
    key, body, correlation id, reply-to and carried properties, and its message
    id if it had one; one that has hopped carries no CC or BCC and the time of the
    first failure, and its count is the accepted one plus its hops.
   */
  lemma CopiesKeepPayload(run: seq<World>, acts: seq<Action>, i: nat, c: Copy)
    requires IsRun(run, acts) && Start(run[0]) && i < |run|
    ensures Places(run[i])
    ensures Alive(run[i], c) ==> c.origin in run[i].accepted && Keeps(run[i].accepted[c.origin], c)
  {
    RunDerived(run, acts, i);
    var st := StoryOf(run[i]);
    if Alive(run[i], c) {
      if c in run[i].queues[RetryQueue(run[i])] {
        assert Parked(st, c);
        ParkedKeeps(run[i], c);
      } else {
        if c !in run[i].queues[Base(run[i].comp)] {
          var tag :| tag in run[i].inflight && run[i].inflight[tag].copy == c;
          assert Whole(st, run[i].inflight[tag].copy);
        }
        assert Whole(st, c);
        WholeKeeps(st, c);
      }
    }
  }
}
