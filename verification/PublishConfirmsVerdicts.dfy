/**
  When publish's verdicts are the broker's own decisions: exactly when no return
  was charged to an older twin, with the run in which one was.
 */
module PublishConfirmsVerdicts {
  import opened PublishConfirms
  import opened PublishConfirmsInvariant
  import opened PublishConfirmsTheorems

  // ---- the condition is exact --------------------------------------------

  /** Marked as returned although the broker decided otherwise. */
  ghost predicate Blamed(s: System, p: PubId) {
    && p in s.c.pubs && s.c.pubs[p].returned
    && p in s.k.tagOf && s.k.tagOf[p] in s.k.fate && s.k.fate[s.k.tagOf[p]] != Bounced
  }

  /** Tags and decisions, once given, stay. */
  lemma TagStays(s: System, a: Action, p: PubId)
    requires SentOk(s) && Enabled(s, a) && p in s.k.tagOf
    ensures p in Next(s, a).k.tagOf && Next(s, a).k.tagOf[p] == s.k.tagOf[p]
  {
  }

  lemma DecisionStays(s: System, a: Action, t: Tag)
    requires RoutedOk(s.k) && Enabled(s, a) && t in s.k.fate
    ensures t in Next(s, a).k.fate && Next(s, a).k.fate[t] == s.k.fate[t]
  {
  }

  lemma BlameStays(s: System, a: Action, p: PubId)
    requires Inv(s) && Enabled(s, a) && Blamed(s, p)
    ensures Blamed(Next(s, a), p)
  {
    SettledOnce(s, a, p);
    TagStays(s, a, p);
    DecisionStays(s, a, s.k.tagOf[p]);
  }

  /** A return read while an older twin was spared blames some publication wrongly. */
  lemma WrongReturnBlames(s: System) returns (p: PubId)
    requires Inv(s) && ReturnsOk(s) && BouncedOk(s) && Exact(s)
    requires LoopEnabled(s, ReadReturn) && !NoOlderUnbounced(s)
    ensures Blamed(LoopNext(s, ReadReturn), p)
  {
    ReturnedIsPending(s);
    var d, t := s.k.wire[0].dest, s.k.wire[0].of;
    var m := OldestExists(s.c, d, t);
    var v :| v in s.c.pending && v < t && v in s.k.fate && s.k.fate[v] != Bounced
          && s.c.pubs[s.c.pending[v]].mandatory && s.c.pubs[s.c.pending[v]].dest == d;
    SparedTwinMatches(s, v);
    assert m <= v;
    MatchedIsUnbounced(s, m);
    MarksOldest(s.c, d, m);
    p := s.c.pending[m];
    PendingIsSent(s, m);
  }

  lemma SparedTwinMatches(s: System, v: Tag)
    requires SentOk(s) && PendingOk(s) && RoutedOk(s.k) && BouncedOk(s) && Exact(s) && PendingKnown(s.c)
    requires v in s.c.pending && v in s.k.fate && s.k.fate[v] != Bounced && s.c.pubs[s.c.pending[v]].mandatory
    ensures Matches(s.c, s.c.pubs[s.c.pending[v]].dest, v)
  {
    PendingIsSent(s, v);
  }

  lemma PendingIsSent(s: System, t: Tag)
    requires SentOk(s) && PendingOk(s) && RoutedOk(s.k) && t in s.c.pending && t in s.k.fate
    ensures s.c.pending[t] in s.c.pubs && s.c.pending[t] in s.k.tagOf && s.k.tagOf[s.c.pending[t]] == t
  {
    assert t in s.k.sent;
  }

  lemma StepExactOrBlamed(s: System, a: Action, p: PubId) returns (p': PubId)
    requires Inv(s) && ReturnsOk(s) && BouncedOk(s) && Enabled(s, a) && (Exact(s) || Blamed(s, p))
    ensures Exact(Next(s, a)) || Blamed(Next(s, a), p')
    ensures Blamed(s, p) || (a == ByLoop(ReadReturn) && !NoOlderUnbounced(s)) ==> Blamed(Next(s, a), p')
  {
    p' := p;
    if Blamed(s, p) {
      BlameStays(s, a, p);
    } else if a != ByLoop(ReadReturn) {
      OthersKeepExact(s, a);
    } else if NoOlderUnbounced(s) {
      ReturnExactIff(s);
    } else {
      p' := WrongReturnBlames(s);
    }
  }

  ghost predicate WrongReturn(run: seq<System>, acts: seq<Action>, j: nat)
    requires |run| == |acts| + 1
  {
    j < |acts| && acts[j] == ByLoop(ReadReturn) && LoopEnabled(run[j], ReadReturn) && !NoOlderUnbounced(run[j])
  }

  lemma RunStep(run: seq<System>, acts: seq<Action>, capacity: nat, i: nat, p: PubId) returns (p': PubId)
    requires IsRun(run, acts, capacity) && i < |acts| && (Exact(run[i]) || Blamed(run[i], p))
    ensures Exact(run[i + 1]) || Blamed(run[i + 1], p')
    ensures Blamed(run[i], p) || WrongReturn(run, acts, i) ==> Blamed(run[i + 1], p')
  {
    RunKeepsInv(run, acts, capacity, i);
    RunKeepsReturns(run, acts, capacity, i);
    p' := StepExactOrBlamed(run[i], acts[i], p);
  }

  /** Attribution is exact until, somewhere, a publication is blamed. */
  lemma {:induction false} ExactOrBlamed(run: seq<System>, acts: seq<Action>, capacity: nat, i: nat) returns (p: PubId)
    requires IsRun(run, acts, capacity) && i < |run|
    ensures Exact(run[i]) || Blamed(run[i], p)
  {
    p := 0;
    if i > 0 {
      p := ExactOrBlamed(run, acts, capacity, i - 1);
      p := RunStep(run, acts, capacity, i - 1, p);
    }
  }

  /** From a wrong return on, some publication is blamed. */
  lemma {:induction false} BlamedAfter(run: seq<System>, acts: seq<Action>, capacity: nat, j: nat, i: nat) returns (p: PubId)
    requires IsRun(run, acts, capacity) && j < i < |run| && WrongReturn(run, acts, j)
    ensures Blamed(run[i], p)
    decreases i
  {
    if i == j + 1 {
      p := ExactOrBlamed(run, acts, capacity, j);
      p := RunStep(run, acts, capacity, j, p);
    } else {
      p := BlamedAfter(run, acts, capacity, j, i - 1);
      p := RunStep(run, acts, capacity, i - 1, p);
    }
  }

  ghost function Marked(pubs: map<PubId, Pub>): set<PubId> {
    set p | p in pubs && pubs[p].returned
  }

  lemma CallerMarksNone(s: System, a: CallerStep)
    requires CallerEnabled(s, a)
    ensures Marked(CallerNext(s, a).c.pubs) == Marked(s.c.pubs)
  {
  }

  lemma WriterMarksNone(s: System, a: WriterStep)
    requires WriterEnabled(s, a)
    ensures Marked(WriterNext(s, a).c.pubs) == Marked(s.c.pubs)
  {
  }

  lemma LoopMarksNone(s: System, a: LoopStep)
    requires LoopEnabled(s, a) && !a.ReadReturn?
    ensures Marked(LoopNext(s, a).c.pubs) == Marked(s.c.pubs)
  {
  }

  lemma ReturnMarksOne(s: System)
    requires ReturnsOk(s) && LoopEnabled(s, ReadReturn)
    ensures |Marked(LoopNext(s, ReadReturn).c.pubs)| <= |Marked(s.c.pubs)| + 1
    ensures |LoopNext(s, ReadReturn).k.returnsRead| == |s.k.returnsRead| + 1
  {
    assert GenuineReturn(s, s.k.wire[0]);
    var p := MarkEffect(s.c, s.k.wire[0].dest);
    var now := Marked(LoopNext(s, ReadReturn).c.pubs);
    assert now == Marked(s.c.pubs) || now == Marked(s.c.pubs) + {p};
  }

  lemma StepMarks(s: System, a: Action)
    requires ReturnsOk(s) && Enabled(s, a) && |Marked(s.c.pubs)| <= |s.k.returnsRead|
    ensures |Marked(Next(s, a).c.pubs)| <= |Next(s, a).k.returnsRead|
  {
    match a {
      case ByCaller(x) => CallerMarksNone(s, x);
      case ByWriter(y) => WriterMarksNone(s, y);
      case ByBroker(_) =>
      case ByLoop(l) =>
        if l.ReadReturn? {
          ReturnMarksOne(s);
        } else {
          LoopMarksNone(s, l);
        }
    }
  }

  /** At most one mark per return read. */
  lemma {:induction false} MarksCounted(run: seq<System>, acts: seq<Action>, capacity: nat, i: nat)
    requires IsRun(run, acts, capacity) && i < |run|
    ensures |Marked(run[i].c.pubs)| <= |run[i].k.returnsRead|
  {
    if i > 0 {
      MarksCounted(run, acts, capacity, i - 1);
      RunKeepsReturns(run, acts, capacity, i - 1);
      StepMarks(run[i - 1], acts[i - 1]);
    }
  }

  /** The verdict the broker's decision calls for. */
  function Deserved(fate: Fate): Verdict {
    match fate
    case Bounced => Unroutable
    case Accepted => NoVerdict
    case Refused => Nacked
  }

  /** Every transmitted publication was settled with the verdict it deserves. */
  ghost predicate VerdictsExact(s: System) {
    forall p | p in s.k.tagOf ::
      && p in s.c.pubs && s.k.tagOf[p] in s.k.fate
      && s.c.pubs[p].settled == Settled(Deserved(s.k.fate[s.k.tagOf[p]]), NoSendErr)
  }

  /** The loop has read the confirm of everything that was transmitted. */
  predicate AllConfirmsRead(s: System) { s.k.sent.Keys <= s.k.consumed }

  lemma ExactVerdicts(s: System)
    requires Inv(s) && ReturnsOk(s) && BouncedOk(s) && AllConfirmsRead(s) && Exact(s)
    ensures VerdictsExact(s)
  {
    ConfirmedBounceIsRead(s);
    forall p | p in s.k.tagOf
      ensures p in s.c.pubs && s.k.tagOf[p] in s.k.fate
      ensures s.c.pubs[p].settled == Settled(Deserved(s.k.fate[s.k.tagOf[p]]), NoSendErr)
    {
      assert s.k.tagOf[p] in s.k.consumed;
    }
  }

  /** One publication blamed wrongly leaves a bounced one unmarked: there are no marks to spare. */
  lemma BlameSpoilsVerdicts(s: System, p: PubId)
    requires SentOk(s) && ConsumedOk(s) && BouncedOk(s) && AllConfirmsRead(s)
    requires Blamed(s, p) && |Marked(s.c.pubs)| <= |s.k.returnsRead|
    ensures !VerdictsExact(s)
  {
    if VerdictsExact(s) {
      var marks := Marked(s.c.pubs);
      forall t | t in s.k.returnsRead ensures t in s.k.sent && s.k.sent[t] in marks - {p} {
        assert t in s.k.fate && s.k.fate[t] == Bounced;
        assert t in s.k.consumed;
      }
      InjectiveImage(s.k.returnsRead, s.k.sent, marks - {p});
    }
  }

  /**
    In a run in which every confirm has been read, every publication is settled
    with the verdict the broker's decision calls for if and only if bounces came first.
   */
  lemma VerdictsExactIff(run: seq<System>, acts: seq<Action>, capacity: nat)
    requires IsRun(run, acts, capacity) && AllConfirmsRead(run[|acts|])
    ensures VerdictsExact(run[|acts|]) <==> BouncesComeFirst(run, acts)
  {
    var n := |acts|;
    RunKeepsInv(run, acts, capacity, n);
    RunKeepsReturns(run, acts, capacity, n);
    if BouncesComeFirst(run, acts) {
      RunStaysExact(run, acts, capacity, n);
      ExactVerdicts(run[n]);
    } else {
      var j :| 0 <= j < |acts| && acts[j] == ByLoop(ReadReturn) && LoopEnabled(run[j], ReadReturn) && !NoOlderUnbounced(run[j]);
      assert WrongReturn(run, acts, j);
      var p := BlamedAfter(run, acts, capacity, j, n);
      MarksCounted(run, acts, capacity, n);
      BlameSpoilsVerdicts(run[n], p);
    }
  }

  // ---- the condition is needed -------------------------------------------

  /** A run continued by one step, which ends in s. */
  lemma Extend(run: seq<System>, acts: seq<Action>, a: Action, s: System) returns (run': seq<System>, acts': seq<Action>)
    requires IsRun(run, acts, 2) && Enabled(run[|acts|], a) && Next(run[|acts|], a) == s
    ensures IsRun(run', acts', 2) && run'[|acts'|] == s
    ensures acts' == acts + [a] && run <= run'
    ensures BouncesComeFirst(run', acts') ==> BouncesComeFirst(run, acts)
  {
    run', acts' := run + [s], acts + [a];
    forall i | 0 <= i < |acts'|
      ensures Enabled(run'[i], acts'[i]) && run'[i + 1] == Next(run'[i], acts'[i])
    {
      if i < |acts| {
        assert run'[i] == run[i] && run'[i + 1] == run[i + 1] && acts'[i] == acts[i];
      }
    }
    if BouncesComeFirst(run', acts') {
      forall i | 0 <= i < |acts| && acts[i] == ByLoop(ReadReturn) && LoopEnabled(run[i], ReadReturn)
        ensures NoOlderUnbounced(run[i])
      {
        assert run'[i] == run[i] && acts'[i] == acts[i];
      }
    }
  }

  function Waiting(d: Dest): Pub { Pub(d, true, AwaitingCommit, true, false, Unsettled) }

  const NO_TRAFFIC := Link(true, 1, map[], map[], map[], {}, [], [], {}, {}, {})

  /** Publication 0 is transmitted; publication 1, its twin, is still offering itself. */
  function OneSent(d: Dest): System {
    System(Client(2, 2, map[0 := Waiting(d), 1 := Pub(d, true, Offering, false, false, Unsettled)], map[1 := 0], false),
           Idle, Running, NO_TRAFFIC.(nextSeq := 2, sent := map[1 := 0], tagOf := map[0 := 1]))
  }

  /** Publication 1 has its tag. */
  function SecondTagged(d: Dest): System {
    OneSent(d).(c := OneSent(d).c.(pubs := map[0 := Waiting(d), 1 := Waiting(d).(committed := false)]), w := Tagged(1, 2))
  }

  function BothSent(d: Dest): System {
    System(Client(2, 2, map[0 := Waiting(d), 1 := Waiting(d)], map[1 := 0, 2 := 1], false),
           Idle, Running, NO_TRAFFIC.(nextSeq := 3, sent := map[1 := 0, 2 := 1], tagOf := map[0 := 1, 1 := 2]))
  }

  /** Publication 0 was accepted and 1 bounced. */
  function Routed(d: Dest): System {
    BothSent(d).(k := BothSent(d).k.(fate := map[1 := Accepted, 2 := Bounced], wire := [Return(d, 2)]))
  }

  /** The return was charged to publication 0. */
  function Blaming(d: Dest): System {
    Routed(d).(
      c := Routed(d).c.(pubs := map[0 := Waiting(d).(returned := true), 1 := Waiting(d)]),
      k := Routed(d).k.(wire := [], returnsRead := {2}))
  }

  function Confirming(d: Dest): System {
    Blaming(d).(k := Blaming(d).k.(confirmed := {1, 2}, wire := [Confirm(1, true), Confirm(2, true)]))
  }

  function Received(d: Dest): System {
    Confirming(d).(k := Confirming(d).k.(wire := [], buffer := [Confirm(1, true), Confirm(2, true)], received := {1, 2}))
  }

  /** The confirm of publication 0 has been read. */
  function HalfConfirmed(d: Dest): System {
    Received(d).(
      c := Client(2, 1, map[0 := Waiting(d).(returned := true, settled := Settled(Unroutable, NoSendErr)), 1 := Waiting(d)],
                  map[2 := 1], false),
      k := Received(d).k.(buffer := [Confirm(2, true)], consumed := {1}))
  }

  /** Both confirms have been read. */
  function Confirmed(d: Dest): System {
    Received(d).(
      c := Client(2, 0, map[0 := Waiting(d).(returned := true, settled := Settled(Unroutable, NoSendErr)),
                            1 := Waiting(d).(settled := Settled(NoVerdict, NoSendErr))], map[], false),
      k := Received(d).k.(buffer := [], consumed := {1, 2}))
  }

  lemma ReachOneSent(d: Dest) returns (run: seq<System>, acts: seq<Action>)
    ensures IsRun(run, acts, 2) && run[|acts|] == OneSent(d)
  {
    var s0 := System(Client(2, 0, map[], map[], false), Idle, Running, NO_TRAFFIC);
    var s1 := CallerNext(s0, Admit(0, d, true));
    var s2 := CallerNext(s1, Admit(1, d, true));
    var s3 := CallerNext(s2, Handoff(0));
    var s4 := WriterNext(s3, TakeTag);
    var s5 := WriterNext(s4, RegisterTag);
    run := [s0, s1, s2, s3, s4, s5, WriterNext(s5, WriteOk)];
    acts := [ByCaller(Admit(0, d, true)), ByCaller(Admit(1, d, true)), ByCaller(Handoff(0)),
             ByWriter(TakeTag), ByWriter(RegisterTag), ByWriter(WriteOk)];
    assert s5.c.pubs == OneSent(d).c.pubs;
  }

  lemma ReachTagged(d: Dest) returns (run: seq<System>, acts: seq<Action>)
    ensures IsRun(run, acts, 2) && run[|acts|] == SecondTagged(d)
  {
    run, acts := ReachOneSent(d);
    var s1 := CallerNext(OneSent(d), Handoff(1));
    run, acts := Extend(run, acts, ByCaller(Handoff(1)), s1);
    run, acts := Extend(run, acts, ByWriter(TakeTag), SecondTagged(d));
  }

  lemma ReachBothSent(d: Dest) returns (run: seq<System>, acts: seq<Action>)
    ensures IsRun(run, acts, 2) && run[|acts|] == BothSent(d)
  {
    run, acts := ReachTagged(d);
    var s1 := WriterNext(SecondTagged(d), RegisterTag);
    run, acts := Extend(run, acts, ByWriter(RegisterTag), s1);
    run, acts := Extend(run, acts, ByWriter(WriteOk), BothSent(d));
  }

  lemma ReachRouted(d: Dest) returns (run: seq<System>, acts: seq<Action>)
    ensures IsRun(run, acts, 2) && run[|acts|] == Routed(d)
  {
    run, acts := ReachBothSent(d);
    var s1 := BothSent(d).(k := BothSent(d).k.(fate := map[1 := Accepted]));
    run, acts := Extend(run, acts, ByBroker(Route(Accepted)), s1);
    run, acts := Extend(run, acts, ByBroker(Route(Bounced)), Routed(d));
  }

  lemma ReachBlaming(d: Dest) returns (run: seq<System>, acts: seq<Action>)
    ensures IsRun(run, acts, 2) && run[|acts|] == Blaming(d) && !BouncesComeFirst(run, acts)
  {
    run, acts := ReachRouted(d);
    var s, n := Routed(d), |acts|;
    assert Matches(s.c, d, 1) && OldestMatch(s.c, d, 1);
    MarksOldest(s.c, d, 1);
    assert !NoOlderUnbounced(s);
    run, acts := Extend(run, acts, ByLoop(ReadReturn), Blaming(d));
    assert acts[n] == ByLoop(ReadReturn) && run[n] == s;
  }

  lemma ReachConfirming(d: Dest) returns (run: seq<System>, acts: seq<Action>)
    ensures IsRun(run, acts, 2) && run[|acts|] == Confirming(d) && !BouncesComeFirst(run, acts)
  {
    run, acts := ReachBlaming(d);
    var s1 := BrokerNext(Blaming(d), SendConfirm(1));
    run, acts := Extend(run, acts, ByBroker(SendConfirm(1)), s1);
    run, acts := Extend(run, acts, ByBroker(SendConfirm(2)), Confirming(d));
  }

  lemma ReachReceived(d: Dest) returns (run: seq<System>, acts: seq<Action>)
    ensures IsRun(run, acts, 2) && run[|acts|] == Received(d) && !BouncesComeFirst(run, acts)
  {
    run, acts := ReachConfirming(d);
    var s1 := BrokerNext(Confirming(d), Pump);
    run, acts := Extend(run, acts, ByBroker(Pump), s1);
    run, acts := Extend(run, acts, ByBroker(Pump), Received(d));
  }

  lemma ReadsFirst(d: Dest)
    ensures LoopEnabled(Received(d), ReadConfirm) && LoopNext(Received(d), ReadConfirm) == HalfConfirmed(d)
  {
  }

  lemma ReadsSecond(d: Dest)
    ensures LoopEnabled(HalfConfirmed(d), ReadConfirm) && LoopNext(HalfConfirmed(d), ReadConfirm) == Confirmed(d)
  {
  }

  lemma ReachConfirmed(d: Dest) returns (run: seq<System>, acts: seq<Action>)
    ensures IsRun(run, acts, 2) && run[|acts|] == Confirmed(d) && !BouncesComeFirst(run, acts)
  {
    run, acts := ReachReceived(d);
    ReadsFirst(d);
    run, acts := Extend(run, acts, ByLoop(ReadConfirm), HalfConfirmed(d));
    ReadsSecond(d);
    run, acts := Extend(run, acts, ByLoop(ReadConfirm), Confirmed(d));
  }

  /**
    A routed publication whose confirm is late takes the blame of its bounced twin:
    it returns ErrUnroutable, and the bounced one returns nil.
   */
  lemma TwinTakesTheBlame(d: Dest) returns (run: seq<System>, acts: seq<Action>)
    ensures IsRun(run, acts, 2) && !BouncesComeFirst(run, acts)
    ensures var s := run[|acts|];
      && 0 in s.c.pubs && s.c.pubs[0].caller == Returned(PublishError(BrokerVerdict(Unroutable)))
      && 1 in s.c.pubs && s.c.pubs[1].caller == Returned(Nil)
      && s.k.tagOf == map[0 := 1, 1 := 2] && s.k.fate == map[1 := Accepted, 2 := Bounced]
  {
    run, acts := ReachConfirmed(d);
    var s1 := CallerNext(Confirmed(d), SeeDone(0));
    run, acts := Extend(run, acts, ByCaller(SeeDone(0)), s1);
    run, acts := Extend(run, acts, ByCaller(SeeDone(1)), CallerNext(s1, SeeDone(1)));
  }
}
