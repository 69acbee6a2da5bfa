/** The retry ladder, over whole runs of the settlement machine. */
module SettlementLadder {
  import opened Routing
  import opened RetryHops
  import opened Settlement
  import opened SettlementProof
  import opened SettlementHops
  import H = Headers

  /** The action is about a delivery of o. */
  predicate Concerns(w: World, a: Action, o: nat) {
    (a.HandlerEnds? || a.RetryPublished? || a.DeadLetterPublished?) && a.tag in w.inflight && w.inflight[a.tag].copy.origin == o
  }

  /** No fault, and every attempt at o fails for a reason worth retrying. */
  predicate Fails(w: World, a: Action, o: nat) {
    && Faultless(a)
    && (Concerns(w, a, o) && a.HandlerEnds? ==> a.r == Failed(false))
    && (Concerns(w, a, o) && !a.HandlerEnds? ==> a.out.Confirmed?)
  }

  predicate Delivers(w: World, a: Action, o: nat) {
    a.Deliver? && Base(w.comp) in w.queues && a.i < |w.queues[Base(w.comp)]| && w.queues[Base(w.comp)][a.i].origin == o
  }

  /** How many of the first i actions handed o to a handler. */
  function Delivered(run: seq<World>, acts: seq<Action>, o: nat, i: nat): nat
    requires i <= |acts| < |run|
  {
    if i == 0 then 0 else Delivered(run, acts, o, i - 1) + if Delivers(run[i - 1], acts[i - 1], o) then 1 else 0
  }

  /** n retries were due: none yet, or each while the count was below a limit it can reach. */
  predicate Due(n0: nat, max: nat, n: int) {
    n >= 0 && (max <= H.MAX_INT32 && n > 0 ==> n0 + n <= max)
  }

  predicate Waits(n0: nat, max: nat, d: nat, c: Copy) {
    |c.hops| == d && Due(n0, max, d)
  }

  predicate Tried(n0: nat, max: nat, d: nat, f: InFlight) {
    && |f.copy.hops| == d - 1 && Due(n0, max, d - 1)
    && (f.phase.Handling? || f.phase.Retrying? || f.phase.DeadLettering?)
    && (f.phase.Retrying? ==> Due(n0, max, d))
    && (f.phase.DeadLettering? ==> max <= n0 + d - 1 && max <= H.MAX_INT32)
  }

  predicate Buried(n0: nat, max: nat, d: nat, c: Copy) {
    |c.hops| == d && Due(n0, max, d - 1) && max <= n0 + d - 1 && max <= H.MAX_INT32
  }

  ghost predicate AllWait(n0: nat, max: nat, d: nat, o: nat, s: seq<Copy>) {
    forall c {:trigger Waits(n0, max, d, c)} | c in s && c.origin == o :: Waits(n0, max, d, c)
  }

  ghost predicate AllBuried(n0: nat, max: nat, d: nat, o: nat, s: seq<Copy>) {
    forall c {:trigger Buried(n0, max, d, c)} | c in s && c.origin == o :: Buried(n0, max, d, c)
  }

  ghost predicate AllTried(n0: nat, max: nat, d: nat, o: nat, m: map<Tag, InFlight>) {
    forall tag {:trigger Tried(n0, max, d, m[tag])} | tag in Answerable(m, o) :: Tried(n0, max, d, m[tag])
  }

  /** Where o, accepted with count n0, stands after d deliveries. */
  ghost predicate OnLadder(w: World, o: nat, n0: nat, d: nat)
    requires Places(w)
  {
    && o !in w.finished
    && AllWait(n0, w.maxRetries, d, o, w.queues[Base(w.comp)])
    && AllWait(n0, w.maxRetries, d, o, w.queues[RetryQueue(w)])
    && AllBuried(n0, w.maxRetries, d, o, w.queues[DlqQueue(w)])
    && AllTried(n0, w.maxRetries, d, o, w.inflight)
  }

  // ---- where the one copy is ---------------------------------------------

  lemma NoneCounted(o: nat, s: seq<Copy>, c: Copy)
    requires Cnt(o, s) == 0 && c in s
    ensures c.origin != o
  {
    CountedIsThere(o, s);
    var i :| 0 <= i < |s| && s[i] == c;
  }

  lemma OnlyTag(m: map<Tag, InFlight>, o: nat, tag: Tag, t: Tag)
    requires |Answerable(m, o)| <= 1 && tag in Answerable(m, o) && t in Answerable(m, o)
    ensures t == tag
  {
    if t != tag {
      assert {t, tag} <= Answerable(m, o) && |{t, tag}| == 2;
      SubsetCount({t, tag}, Answerable(m, o));
    }
  }

  lemma {:induction false} SubsetCount(a: set<Tag>, b: set<Tag>)
    requires a <= b
    ensures |a| <= |b|
    decreases |a|
  {
    if a != {} {
      var x :| x in a;
      SubsetCount(a - {x}, b - {x});
    }
  }

  /** A message in a handler's hands is nowhere else. */
  lemma OnlyInHand(w: World, o: nat, n0: nat, d: nat, tag: Tag)
    requires Places(w) && Total(w, o) == 1 && o !in w.finished && tag in Answerable(w.inflight, o)
    requires Tried(n0, w.maxRetries, d, w.inflight[tag])
    ensures OnLadder(w, o, n0, d)
  {
    forall c | c in w.queues[Base(w.comp)] ensures c.origin != o { NoneCounted(o, w.queues[Base(w.comp)], c); }
    forall c | c in w.queues[RetryQueue(w)] ensures c.origin != o { NoneCounted(o, w.queues[RetryQueue(w)], c); }
    forall c | c in w.queues[DlqQueue(w)] ensures c.origin != o { NoneCounted(o, w.queues[DlqQueue(w)], c); }
    forall t | t in Answerable(w.inflight, o) ensures Tried(n0, w.maxRetries, d, w.inflight[t]) {
      OnlyTag(w.inflight, o, tag, t);
    }
  }

  /** Nothing new of o: what is left of it stands where it stood. */
  lemma LadderKept(w: World, w': World, o: nat, n0: nat, d: nat)
    requires Places(w) && Places(w') && OnLadder(w, o, n0, d)
    requires w'.comp == w.comp && w'.maxRetries == w.maxRetries && o !in w'.finished
    requires forall c | c in w'.queues[Base(w.comp)] && c.origin == o :: c in w.queues[Base(w.comp)]
    requires forall c | c in w'.queues[RetryQueue(w)] && c.origin == o :: c in w.queues[RetryQueue(w)]
    requires forall c | c in w'.queues[DlqQueue(w)] && c.origin == o :: c in w.queues[DlqQueue(w)]
    requires forall t | t in Answerable(w'.inflight, o) :: t in w.inflight && w'.inflight[t] == w.inflight[t]
    ensures OnLadder(w', o, n0, d)
  {
    var max := w.maxRetries;
    forall c | c in w'.queues[Base(w.comp)] && c.origin == o ensures Waits(n0, max, d, c) { assert Waits(n0, max, d, c); }
    forall c | c in w'.queues[RetryQueue(w)] && c.origin == o ensures Waits(n0, max, d, c) { assert Waits(n0, max, d, c); }
    forall c | c in w'.queues[DlqQueue(w)] && c.origin == o ensures Buried(n0, max, d, c) { assert Buried(n0, max, d, c); }
    forall t | t in Answerable(w'.inflight, o) ensures Tried(n0, max, d, w'.inflight[t]) {
      assert t in Answerable(w.inflight, o) && Tried(n0, max, d, w.inflight[t]);
    }
  }

  // ---- the steps that concern o ------------------------------------------

  lemma AcceptClimbs(w: World, a: Action)
    requires Inv(w) && Enabled(w, a) && a.Accept? && Places(Next(w, a))
    ensures OnLadder(Next(w, a), a.origin, H.RetryCount(a.m.headers), 0)
  {
    var w' := Next(w, a);
    var n0, max := H.RetryCount(a.m.headers), w.maxRetries;
    NamesDiffer(Base(w.comp));
    assert w'.queues[Base(w.comp)] == w.queues[Base(w.comp)] + [Copy(a.origin, a.m, [])];
    forall c | c in w'.queues[Base(w.comp)] && c.origin == a.origin ensures Waits(n0, max, 0, c) {
      assert c == Copy(a.origin, a.m, []);
    }
  }

  lemma DeliverClimbs(w: World, a: Action, o: nat, n0: nat, d: nat)
    requires Inv(w) && Enabled(w, a) && Delivers(w, a, o) && OnLadder(w, o, n0, d)
    requires Places(Next(w, a)) && Total(Next(w, a), o) == 1
    ensures OnLadder(Next(w, a), o, n0, d + 1)
  {
    var c := w.queues[Base(w.comp)][a.i];
    assert Waits(n0, w.maxRetries, d, c);
    OnlyInHand(Next(w, a), o, n0, d + 1, a.tag);
  }

  lemma HandlerFails(w: World, a: Action, o: nat, n0: nat, d: nat)
    requires Inv(w) && Derived(w) && Enabled(w, a) && a.HandlerEnds? && a.r == Failed(false)
    requires w.inflight[a.tag].copy.origin == o && o in w.accepted && n0 == H.RetryCount(w.accepted[o].headers)
    requires OnLadder(w, o, n0, d) && Places(Next(w, a)) && Total(Next(w, a), o) == 1
    ensures OnLadder(Next(w, a), o, n0, d)
  {
    var w', c := Next(w, a), w.inflight[a.tag].copy;
    assert a.tag in Answerable(w.inflight, o) && Tried(n0, w.maxRetries, d, w.inflight[a.tag]);
    assert Whole(StoryOf(w), c);
    WholeKeeps(StoryOf(w), c);
    OnlyInHand(w', o, n0, d, a.tag);
  }

  lemma CopyClimbs(w: World, a: Action, o: nat, n0: nat, d: nat)
    requires Inv(w) && Enabled(w, a) && Stores(w, a) && a.out.Confirmed? && w.inflight[a.tag].copy.origin == o
    requires OnLadder(w, o, n0, d)
    ensures Places(Next(w, a)) && OnLadder(Next(w, a), o, n0, d)
  {
    var w', c, max := Next(w, a), CopyOf(w, a), w.maxRetries;
    StoresHome(w, a);
    NamesDiffer(Base(w.comp));
    assert a.tag in Answerable(w.inflight, o) && Tried(n0, max, d, w.inflight[a.tag]);
    if a.RetryPublished? {
      assert Waits(n0, max, d, c);
      WaitsSnoc(n0, max, d, o, w.queues[RetryQueue(w)], c);
    } else {
      assert Buried(n0, max, d, c);
      BuriedSnoc(n0, max, d, o, w.queues[DlqQueue(w)], c);
    }
    TriedKept(n0, max, d, o, w.inflight, w'.inflight);
  }

  lemma WaitsSnoc(n0: nat, max: nat, d: nat, o: nat, s: seq<Copy>, c: Copy)
    requires AllWait(n0, max, d, o, s) && Waits(n0, max, d, c)
    ensures AllWait(n0, max, d, o, s + [c])
  {
  }

  lemma BuriedSnoc(n0: nat, max: nat, d: nat, o: nat, s: seq<Copy>, c: Copy)
    requires AllBuried(n0, max, d, o, s) && Buried(n0, max, d, c)
    ensures AllBuried(n0, max, d, o, s + [c])
  {
  }

  lemma TriedKept(n0: nat, max: nat, d: nat, o: nat, m: map<Tag, InFlight>, m': map<Tag, InFlight>)
    requires AllTried(n0, max, d, o, m)
    requires forall t | t in Answerable(m', o) :: t in m && m'[t] == m[t]
    ensures AllTried(n0, max, d, o, m')
  {
    forall t | t in Answerable(m', o) ensures Tried(n0, max, d, m'[t]) {
      assert t in Answerable(m, o) && Tried(n0, max, d, m[t]);
    }
  }

  lemma ExpireClimbs(w: World, a: Action, o: nat, n0: nat, d: nat)
    requires Inv(w) && Enabled(w, a) && a.Expire? && OnLadder(w, o, n0, d)
    ensures Places(Next(w, a)) && OnLadder(Next(w, a), o, n0, d)
  {
    var w', max := Next(w, a), w.maxRetries;
    var c := w.queues[RetryQueue(w)][a.i];
    ExpireIsReturn(w, a.i);
    NamesDiffer(Base(w.comp));
    forall x | x in w'.queues[Base(w.comp)] && x.origin == o ensures Waits(n0, max, d, x) {
      if x !in w.queues[Base(w.comp)] {
        assert x == BackFrom(w, c) && Waits(n0, max, d, c);
      }
    }
    forall x | x in w'.queues[RetryQueue(w)] && x.origin == o ensures Waits(n0, max, d, x) {
      assert x in w.queues[RetryQueue(w)];
    }
  }

  // ---- the steps that do not ---------------------------------------------

  lemma AckClimbs(w: World, a: Action, o: nat, n0: nat, d: nat)
    requires Inv(w) && Enabled(w, a) && (a.Ack? || a.Requeue?) && OnLadder(w, o, n0, d)
    ensures Places(Next(w, a)) && OnLadder(Next(w, a), o, n0, d)
  {
    NamesDiffer(Base(w.comp));
    assert a.tag in Answerable(w.inflight, o) ==> Tried(n0, w.maxRetries, d, w.inflight[a.tag]);
    LadderKept(w, Next(w, a), o, n0, d);
  }

  lemma PhaseClimbs(w: World, a: Action, o: nat, n0: nat, d: nat)
    requires Inv(w) && Enabled(w, a) && OnLadder(w, o, n0, d)
    requires (a.HandlerEnds? && !Concerns(w, a, o)) || a.ReplyPublished?
             || ((a.RetryPublished? || a.DeadLetterPublished?) && a.out.FailedUnstored? && !Concerns(w, a, o))
    ensures Places(Next(w, a)) && OnLadder(Next(w, a), o, n0, d)
  {
    assert a.tag in Answerable(w.inflight, o) ==> Tried(n0, w.maxRetries, d, w.inflight[a.tag]);
    LadderKept(w, Next(w, a), o, n0, d);
  }

  lemma OtherCopyClimbs(w: World, a: Action, o: nat, n0: nat, d: nat)
    requires Inv(w) && Enabled(w, a) && Stores(w, a) && w.inflight[a.tag].copy.origin != o && OnLadder(w, o, n0, d)
    ensures Places(Next(w, a)) && OnLadder(Next(w, a), o, n0, d)
  {
    StoresHome(w, a);
    NamesDiffer(Base(w.comp));
    LadderKept(w, Next(w, a), o, n0, d);
  }

  lemma OtherArrives(w: World, a: Action, o: nat, n0: nat, d: nat)
    requires Inv(w) && Enabled(w, a) && OnLadder(w, o, n0, d) && Places(Next(w, a))
    requires (a.Accept? && a.origin != o) || (a.Deliver? && !Delivers(w, a, o)) || a.OthersDeclare?
    ensures OnLadder(Next(w, a), o, n0, d)
  {
    NamesDiffer(Base(w.comp));
    LadderKept(w, Next(w, a), o, n0, d);
  }

  lemma PublishClimbs(w: World, a: Action, o: nat, n0: nat, d: nat)
    requires Inv(w) && Enabled(w, a) && Fails(w, a, o) && (a.RetryPublished? || a.DeadLetterPublished?)
    requires OnLadder(w, o, n0, d)
    ensures Places(Next(w, a)) && OnLadder(Next(w, a), o, n0, d)
  {
    if Concerns(w, a, o) {
      CopyClimbs(w, a, o, n0, d);
    } else if a.out.FailedUnstored? {
      PhaseClimbs(w, a, o, n0, d);
    } else {
      OtherCopyClimbs(w, a, o, n0, d);
    }
  }

  /** Only the handler's end and a delivery need to know that there is one copy. */
  lemma HandlingClimbs(w: World, a: Action, o: nat, n0: nat, d: nat)
    requires Inv(w) && Derived(w) && Enabled(w, a) && Fails(w, a, o) && (a.HandlerEnds? || a.Deliver?)
    requires o in w.accepted && n0 == H.RetryCount(w.accepted[o].headers) && OnLadder(w, o, n0, d)
    requires Places(Next(w, a)) && Total(Next(w, a), o) == 1
    ensures OnLadder(Next(w, a), o, n0, if Delivers(w, a, o) then d + 1 else d)
  {
    if a.HandlerEnds? {
      if Concerns(w, a, o) {
        HandlerFails(w, a, o, n0, d);
      } else {
        PhaseClimbs(w, a, o, n0, d);
      }
    } else if Delivers(w, a, o) {
      DeliverClimbs(w, a, o, n0, d);
    } else {
      OtherArrives(w, a, o, n0, d);
    }
  }

  lemma OtherStepClimbs(w: World, a: Action, o: nat, n0: nat, d: nat)
    requires Inv(w) && Enabled(w, a) && Fails(w, a, o) && !a.HandlerEnds? && !a.Deliver? && !(a.Accept? && a.origin == o)
    requires OnLadder(w, o, n0, d) && Places(Next(w, a))
    ensures OnLadder(Next(w, a), o, n0, d)
  {
    match a
    case Accept(_, _) => OtherArrives(w, a, o, n0, d);
    case ReplyPublished(_, _) => PhaseClimbs(w, a, o, n0, d);
    case RetryPublished(_, _, _) => PublishClimbs(w, a, o, n0, d);
    case DeadLetterPublished(_, _, _) => PublishClimbs(w, a, o, n0, d);
    case Ack(_) => AckClimbs(w, a, o, n0, d);
    case Requeue(_) => AckClimbs(w, a, o, n0, d);
    case Reject(_) =>
    case Expire(_) => ExpireClimbs(w, a, o, n0, d);
    case OthersDeclare(_) => OtherArrives(w, a, o, n0, d);
  }

  // ---- whole runs --------------------------------------------------------

  predicate AlwaysFails(run: seq<World>, acts: seq<Action>, o: nat) {
    |run| == |acts| + 1 && forall k | 0 <= k < |acts| :: Fails(run[k], acts[k], o)
  }

  /** One step of a message already accepted. */
  lemma StepClimbs(w: World, a: Action, o: nat, d: nat)
    requires Inv(w) && Derived(w) && Enabled(w, a) && Fails(w, a, o) && o in w.accepted
    requires OnLadder(w, o, H.RetryCount(w.accepted[o].headers), d)
    requires Places(Next(w, a)) && OneEach(Next(w, a))
    ensures o in Next(w, a).accepted && Next(w, a).accepted[o] == w.accepted[o]
    ensures OnLadder(Next(w, a), o, H.RetryCount(w.accepted[o].headers), if Delivers(w, a, o) then d + 1 else d)
  {
    var n0 := H.RetryCount(w.accepted[o].headers);
    AcceptedStays(w, a, o);
    if a.HandlerEnds? || a.Deliver? {
      Books(w, a, o);
      NotFinishedBy(w, a, o);
      HandlingClimbs(w, a, o, n0, d);
    } else {
      OtherStepClimbs(w, a, o, n0, d);
    }
  }

  /** One step of a message not yet accepted. */
  lemma StepStarts(w: World, a: Action, o: nat)
    requires Inv(w) && Enabled(w, a) && o !in w.accepted && Places(Next(w, a))
    ensures !Delivers(w, a, o)
    ensures o in Next(w, a).accepted ==> OnLadder(Next(w, a), o, H.RetryCount(Next(w, a).accepted[o].headers), 0)
  {
    NotDelivered(w, a, o);
    if a.Accept? && a.origin == o {
      AcceptClimbs(w, a);
    }
  }

  /** Where o stands: not accepted and never handed out, or on the ladder. */
  ghost predicate Stands(w: World, o: nat, d: nat)
    requires Places(w)
  {
    if o in w.accepted then OnLadder(w, o, H.RetryCount(w.accepted[o].headers), d) else d == 0
  }

  lemma StepStands(w: World, a: Action, o: nat, d: nat)
    requires Inv(w) && Derived(w) && Enabled(w, a) && Fails(w, a, o) && Stands(w, o, d)
    requires Places(Next(w, a)) && OneEach(Next(w, a))
    ensures Stands(Next(w, a), o, if Delivers(w, a, o) then d + 1 else d)
  {
    if o in w.accepted {
      StepClimbs(w, a, o, d);
    } else {
      StepStarts(w, a, o);
    }
  }

  lemma {:induction false} LimitStaysOnRun(run: seq<World>, acts: seq<Action>, i: nat)
    requires IsRun(run, acts) && i < |run|
    ensures run[i].maxRetries == run[0].maxRetries
  {
    if i > 0 {
      LimitStaysOnRun(run, acts, i - 1);
      LimitStays(run[i - 1], acts[i - 1]);
    }
  }

  lemma RunStands(run: seq<World>, acts: seq<Action>, o: nat, i: nat, d: nat)
    requires IsRun(run, acts) && Start(run[0]) && AlwaysFails(run, acts, o) && i < |acts|
    requires Places(run[i]) && Stands(run[i], o, d)
    ensures Places(run[i + 1]) && Stands(run[i + 1], o, if Delivers(run[i], acts[i], o) then d + 1 else d)
  {
    assert Fails(run[i], acts[i], o);
    RunDerived(run, acts, i);
    ExactlyOnePlace(run, acts, i + 1);
    StepStands(run[i], acts[i], o, d);
  }

  lemma {:induction false} RunClimbs(run: seq<World>, acts: seq<Action>, o: nat, i: nat) returns (d: nat)
    requires IsRun(run, acts) && Start(run[0]) && AlwaysFails(run, acts, o) && i < |run|
    ensures d == Delivered(run, acts, o, i) && Places(run[i]) && Stands(run[i], o, d)
  {
    if i == 0 {
      RunKeeps(run, acts, 0);
      d := 0;
    } else {
      d := RunClimbs(run, acts, o, i - 1);
      RunStands(run, acts, o, i - 1, d);
      d := if Delivers(run[i - 1], acts[i - 1], o) then d + 1 else d;
    }
  }

  lemma AcceptedStays(w: World, a: Action, o: nat)
    requires Enabled(w, a) && o in w.accepted
    ensures o in Next(w, a).accepted && Next(w, a).accepted[o] == w.accepted[o]
  {
  }

  lemma NotFinishedBy(w: World, a: Action, o: nat)
    requires Enabled(w, a) && o !in w.finished && (a.HandlerEnds? || a.Deliver?)
    ensures o !in Next(w, a).finished
  {
  }

  lemma LimitStays(w: World, a: Action)
    requires Enabled(w, a)
    ensures Next(w, a).maxRetries == w.maxRetries
  {
  }

  lemma NotDelivered(w: World, a: Action, o: nat)
    requires Inv(w) && o !in w.accepted
    ensures !Delivers(w, a, o)
  {
  }

  /** The number of runs a message arriving with count n0 is due. */
  function DueRuns(n0: nat, max: nat): nat { if n0 < max then max - n0 + 1 else 1 }

  function Larger(a: nat, b: nat): nat { if a < b then b else a }

  /**
    Without faults, and with every attempt failing, a message accepted with count
    n0 is never handed to a handler more than max(0, MaxRetries - n0) + 1 times,
    if the count can reach MaxRetries. It is dead-lettered only then, after
    exactly that many deliveries; its one dead letter records max(n0, MaxRetries),
    the key it was accepted under, its body, correlation id and message id; and no
    other copy of it is left.
   */
  lemma LadderOverRuns(run: seq<World>, acts: seq<Action>, o: nat, i: nat)
    requires IsRun(run, acts) && Start(run[0]) && AlwaysFails(run, acts, o) && i < |run| && o in run[i].accepted
    ensures Places(run[i])
    ensures var w := run[i];
      var m0, n0, max := w.accepted[o], H.RetryCount(w.accepted[o].headers), run[0].maxRetries;
      && (max <= H.MAX_INT32 ==> Delivered(run, acts, o, i) <= DueRuns(n0, max))
      && forall c | c in w.queues[DlqQueue(w)] && c.origin == o ::
           && max <= H.MAX_INT32 && Delivered(run, acts, o, i) == DueRuns(n0, max)
           && Cnt(o, w.queues[DlqQueue(w)]) == 1 && Total(w, o) == 1
           && Records(m0, Larger(n0, max), c.msg)
  {
    var d := RunClimbs(run, acts, o, i);
    RunDerived(run, acts, i);
    ExactlyOnePlace(run, acts, i);
    LimitStaysOnRun(run, acts, i);
    var w := run[i];
    var n0 := H.RetryCount(w.accepted[o].headers);
    if w.maxRetries <= H.MAX_INT32 {
      SomewhereOnLadder(w, o, n0, d);
    }
    forall c | c in w.queues[DlqQueue(w)] && c.origin == o
      ensures w.maxRetries <= H.MAX_INT32 && d == DueRuns(n0, w.maxRetries)
      ensures Cnt(o, w.queues[DlqQueue(w)]) == 1 && Records(w.accepted[o], Larger(n0, w.maxRetries), c.msg)
    {
      BuriedMeans(w, o, n0, d, c);
    }
  }

  lemma BuriedMeans(w: World, o: nat, n0: nat, d: nat, c: Copy)
    requires Places(w) && Derived(w) && OnLadder(w, o, n0, d) && Total(w, o) == 1
    requires o in w.accepted && n0 == H.RetryCount(w.accepted[o].headers)
    requires c in w.queues[DlqQueue(w)] && c.origin == o
    ensures w.maxRetries <= H.MAX_INT32 && d == DueRuns(n0, w.maxRetries)
    ensures Cnt(o, w.queues[DlqQueue(w)]) == 1 && Records(w.accepted[o], Larger(n0, w.maxRetries), c.msg)
  {
    assert Buried(n0, w.maxRetries, d, c);
    CountedIsThere(o, w.queues[DlqQueue(w)]);
    assert Dead(StoryOf(w), c);
    DeadRecords(w, c, n0);
  }

  /** What a dead letter says of the message it stands for. */
  predicate Records(m0: Message, count: nat, m: Message) {
    && H.RETRY_COUNT in m.headers && m.headers[H.RETRY_COUNT] == H.IntHeader(count)
    && H.ORIGINAL_KEY in m.headers && m.headers[H.ORIGINAL_KEY] == H.Label(m0.key)
    && m.body == m0.body && m.correlationId == m0.correlationId && m.replyTo == ""
    && (m0.messageId != "" ==> m.messageId == m0.messageId)
    && "CC" !in m.headers && "BCC" !in m.headers
  }

  lemma DeadRecords(w: World, c: Copy, n0: nat)
    requires Dead(StoryOf(w), c) && n0 == H.RetryCount(w.accepted[c.origin].headers)
    ensures Records(w.accepted[c.origin], Clamp(n0 + |c.hops| - 1), c.msg)
  {
    var st := StoryOf(w);
    var tried := Copy(c.origin, LastTried(st, c), c.hops[..|c.hops| - 1]);
    WholeKeeps(st, tried);
  }

  /** Its one copy is in some place, and each place bounds the deliveries. */
  lemma SomewhereOnLadder(w: World, o: nat, n0: nat, d: nat)
    requires Places(w) && OnLadder(w, o, n0, d) && Total(w, o) == 1 && w.maxRetries <= H.MAX_INT32
    ensures d <= DueRuns(n0, w.maxRetries)
  {
    CountedIsThere(o, w.queues[Base(w.comp)]);
    CountedIsThere(o, w.queues[RetryQueue(w)]);
    CountedIsThere(o, w.queues[DlqQueue(w)]);
    if |Answerable(w.inflight, o)| == 1 {
      var tag :| tag in Answerable(w.inflight, o);
      assert Tried(n0, w.maxRetries, d, w.inflight[tag]);
    } else if Cnt(o, w.queues[DlqQueue(w)]) >= 1 {
      var i :| 0 <= i < |w.queues[DlqQueue(w)]| && w.queues[DlqQueue(w)][i].origin == o;
      assert Buried(n0, w.maxRetries, d, w.queues[DlqQueue(w)][i]);
    } else if Cnt(o, w.queues[Base(w.comp)]) >= 1 {
      var i :| 0 <= i < |w.queues[Base(w.comp)]| && w.queues[Base(w.comp)][i].origin == o;
      assert Waits(n0, w.maxRetries, d, w.queues[Base(w.comp)][i]);
    } else {
      var i :| 0 <= i < |w.queues[RetryQueue(w)]| && w.queues[RetryQueue(w)][i].origin == o;
      assert Waits(n0, w.maxRetries, d, w.queues[RetryQueue(w)][i]);
    }
  }
}
