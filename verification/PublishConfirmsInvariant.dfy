/** What every step of the publisher-confirm channel keeps. */
module PublishConfirmsInvariant {
  import opened PublishConfirms

  // ---- the invariant -----------------------------------------------------

  predicate WriterHolds(w: Writer, p: PubId) {
    (w.Taken? || w.Tagged? || w.Writing? || w.Failed?) && w.p == p
  }

  ghost predicate Accounting(c: Client) {
    c.slots == |Live(c.pubs)| <= c.capacity
  }

  /** Transmitted publications: tags 1..nextSeq-1, one publication each. */
  ghost predicate SentOk(s: System) {
    && 1 <= s.k.nextSeq
    && (forall t | t in s.k.sent :: 1 <= t < s.k.nextSeq && s.k.sent[t] in s.k.tagOf && s.k.tagOf[s.k.sent[t]] == t)
    && (forall p | p in s.k.tagOf ::
          && s.k.tagOf[p] in s.k.sent && s.k.sent[s.k.tagOf[p]] == p
          && p in s.c.pubs && s.c.pubs[p].committed && !WriterHolds(s.w, p))
  }

  /** A pending entry is unsettled, and is either transmitted or being written. */
  ghost predicate PendingOk(s: System) {
    forall t | t in s.c.pending ::
      && s.c.pending[t] in s.c.pubs
      && s.c.pubs[s.c.pending[t]].settled.Unsettled?
      && s.c.pubs[s.c.pending[t]].committed
      && if t in s.k.sent then s.k.sent[t] == s.c.pending[t] && !s.c.closed
         else (s.w.Writing? || s.w.Failed?) && s.w.t == t && s.w.p == s.c.pending[t]
  }

  ghost predicate WriterOk(s: System) {
    match s.w
    case Taken(p) => WriterFresh(s, p)
    case Tagged(p, t) => WriterFresh(s, p) && t == s.k.nextSeq
    case Writing(p, t) => WriterCommitted(s, p, t)
    case Failed(p, t, why) => WriterCommitted(s, p, t) && (why == WriteFailed || why == ChannelGone)
    case _ => true
  }

  ghost predicate WriterFresh(s: System, p: PubId) {
    && p in s.c.pubs
    && var pp := s.c.pubs[p];
    pp.settled.Unsettled? && !pp.committed && !pp.returned && pp.caller.AwaitingCommit?
  }

  ghost predicate WriterCommitted(s: System, p: PubId, t: Tag) {
    && t == s.k.nextSeq && p in s.c.pubs && s.c.pubs[p].committed
    && (if s.c.closed then s.c.pubs[p].settled == Unsettled || s.c.pubs[p].settled == Settled(ChannelClosed, NoSendErr)
        else t in s.c.pending && s.c.pending[t] == p)
  }

  /** An uncommitted publication is in its caller's hands, the writer's, or settled. */
  ghost predicate CallersOk(s: System) {
    forall p | p in s.c.pubs ::
      var pp := s.c.pubs[p];
      && (pp.caller.Offering? ==> pp.settled.Unsettled? && !pp.committed && !WriterHolds(s.w, p))
      && (!pp.committed ==> !pp.returned)
      && (pp.caller.AwaitingConfirm? ==> pp.committed)
  }

  /** Whoever will settle an unsettled publication: nothing is forgotten. */
  ghost predicate Owned(s: System) {
    forall p | p in s.c.pubs && s.c.pubs[p].settled.Unsettled? ::
      || s.c.pubs[p].caller.Offering?
      || WriterHolds(s.w, p)
      || p in s.c.pending.Values
      || (s.l.Closing? && p in s.l.rest)
  }

  /** The broker decides in tag order, then confirms; the Go side receives, then consumes. */
  ghost predicate RoutedOk(k: Link) {
    && k.consumed <= k.received <= k.confirmed <= k.fate.Keys <= k.sent.Keys
    && (forall t :: t in k.fate <==> 1 <= t <= |k.fate|)
  }

  ghost predicate GenuineConfirm(k: Link, e: Event) {
    && e.Confirm? && e.tag in k.confirmed && e.tag in k.fate && e.tag !in k.consumed
    && e.ack == (k.fate[e.tag] != Refused)
  }

  /** Unread confirms are genuine and distinct. */
  ghost predicate UnreadOk(s: System) {
    && (forall i | 0 <= i < |s.k.buffer| ::
          GenuineConfirm(s.k, s.k.buffer[i]) && (s.k.buffer[i].tag in s.k.received || s.c.closed))
    && (forall i | 0 <= i < |s.k.wire| && s.k.wire[i].Confirm? ::
          GenuineConfirm(s.k, s.k.wire[i]) && s.k.wire[i].tag !in s.k.received)
    && (forall i, j | 0 <= i < j < |s.k.buffer| :: s.k.buffer[i].tag != s.k.buffer[j].tag)
    && (forall i, j | 0 <= i < j < |s.k.wire| && s.k.wire[i].Confirm? && s.k.wire[j].Confirm? ::
          s.k.wire[i].tag != s.k.wire[j].tag)
    && (forall i, j | 0 <= i < |s.k.buffer| && 0 <= j < |s.k.wire| && s.k.wire[j].Confirm? ::
          s.k.buffer[i].tag != s.k.wire[j].tag)
  }

  function ConfirmTags(events: seq<Event>): set<Tag> {
    set i | 0 <= i < |events| && events[i].Confirm? :: events[i].tag
  }

  /** A confirm received before shutdown is consumed or still readable. */
  ghost predicate ReceivedOk(s: System) {
    !s.c.closed ==> s.k.received == s.k.consumed + ConfirmTags(s.k.buffer)
  }

  /** The loop's phases; it shuts down only once the channel has died. */
  predicate PhaseOk(s: System) {
    && (s.c.closed <==> s.l.Closing? || s.l.LoopDone?)
    && (s.c.closed || s.l.Draining? ==> !s.k.open)
  }

  /** Before shutdown, transmitted means pending or answered. */
  ghost predicate CoverOk(s: System) {
    !s.c.closed ==> forall t | t in s.k.sent && t !in s.k.consumed :: t in s.c.pending
  }

  /** A consumed confirm settled its own publication, with its own verdict. */
  ghost predicate ConsumedOk(s: System) {
    forall t | t in s.k.consumed ::
      && t in s.k.sent && t in s.k.fate && s.k.sent[t] in s.c.pubs && t !in s.c.pending
      && s.c.pubs[s.k.sent[t]].settled
         == Settled(ConfirmVerdict(s.k.fate[t] != Refused, s.c.pubs[s.k.sent[t]].returned), NoSendErr)
  }

  /** What shutdown still has to settle was never answered. */
  ghost predicate RestOk(s: System) {
    s.l.Closing? ==> forall p | p in s.l.rest ::
      && p in s.c.pubs && s.c.pubs[p].committed && Unanswered(s.k, p)
      && forall t | t in s.c.pending :: s.c.pending[t] != p
  }

  /** No confirm of p reached the Go side before it shut down. */
  predicate Unanswered(k: Link, p: PubId) {
    p in k.tagOf ==> k.tagOf[p] !in k.received
  }

  predicate Transmitted(k: Link, p: PubId) {
    p in k.tagOf
  }

  /** The loop has read the confirm of p itself, positive or negative. */
  predicate Answered(k: Link, p: PubId, ack: bool) {
    && p in k.tagOf && k.tagOf[p] in k.consumed && k.tagOf[p] in k.fate
    && (k.fate[k.tagOf[p]] != Refused) == ack
  }

  /** What a settlement says about what really happened to the publication. */
  ghost predicate SettlementOk(s: System, p: PubId)
    requires p in s.c.pubs
  {
    var pp := s.c.pubs[p];
    match pp.settled
    case Unsettled => true
    case Settled(err, NotSent(why)) => err == NoVerdict && why != Stalled && !Transmitted(s.k, p) && !WriterHolds(s.w, p)
    case Settled(Nacked, _) => Answered(s.k, p, false)
    case Settled(ChannelClosed, _) => s.c.closed && Unanswered(s.k, p)
    case Settled(Unroutable, _) => Answered(s.k, p, true) && pp.returned
    case Settled(NoVerdict, NoSendErr) =>
      if pp.caller == Returned(Bare(Stalled)) then !Transmitted(s.k, p) && !WriterHolds(s.w, p)
      else Answered(s.k, p, true) && !pp.returned
  }

  /** What publish's result says about the settlement. */
  predicate ResultOk(pp: Pub) {
    match pp.caller
    case Returned(Bare(Stalled)) => pp.settled == Settled(NoVerdict, NoSendErr)
    case Returned(Bare(why)) => pp.settled == Settled(NoVerdict, NotSent(why))
    case Returned(Nil) => pp.settled == Settled(NoVerdict, NoSendErr)
    case Returned(PublishError(BrokerVerdict(err))) => pp.settled == Settled(err, NoSendErr) && err != NoVerdict
    case _ => true
  }

  ghost predicate SettlementsOk(s: System) {
    forall p | p in s.c.pubs :: SettlementOk(s, p)
  }

  ghost predicate ResultsOk(s: System) {
    forall p | p in s.c.pubs :: ResultOk(s.c.pubs[p])
  }

  ghost predicate Inv(s: System) {
    && Accounting(s.c)
    && SentOk(s) && PendingOk(s) && WriterOk(s) && CallersOk(s) && Owned(s)
    && RoutedOk(s.k) && UnreadOk(s) && ReceivedOk(s)
    && PhaseOk(s) && CoverOk(s) && ConsumedOk(s) && RestOk(s)
    && SettlementsOk(s) && ResultsOk(s)
  }

  /** The confirm the loop reads next is about a transmitted, unanswered publication. */
  ghost predicate HeadOk(s: System) {
    |s.k.buffer| > 0 ==> GenuineConfirm(s.k, s.k.buffer[0]) && s.k.buffer[0].tag in s.k.sent
  }

  // ---- every step keeps it -----------------------------------------------

  lemma SettleKeepsAccounting(c: Client, p: PubId, err: Verdict, sendErr: SendErr)
    requires Accounting(c) && p in c.pubs
    ensures Accounting(AfterSettle(c, p, err, sendErr))
  {
    if c.pubs[p].settled.Unsettled? {
      assert Live(AfterSettle(c, p, err, sendErr).pubs) == Live(c.pubs) - {p};
    }
  }

  lemma SameSettlementsSameLive(m: map<PubId, Pub>, n: map<PubId, Pub>)
    requires m.Keys == n.Keys && forall p | p in m :: m[p].settled == n[p].settled
    ensures Live(m) == Live(n)
  {
  }

  /** A return marks one pending publication, or none. */
  lemma MarkEffect(c: Client, d: Dest) returns (p: PubId)
    requires PendingKnown(c)
    ensures var c' := AfterReturn(c, d);
      || c' == c
      || (p in c.pending.Values && p in c.pubs && c' == c.(pubs := c.pubs[p := c.pubs[p].(returned := true)]))
  {
    if t :| OldestMatch(c, d, t) {
      var u :| OldestMatch(c, d, u) && AfterReturn(c, d) == c.(pubs := c.pubs[c.pending[u] := c.pubs[c.pending[u]].(returned := true)]);
      p := c.pending[u];
    } else {
      p := 0;
    }
  }

  lemma CallerKeepsAccounting(s: System, a: CallerStep)
    requires CallerEnabled(s, a) && Accounting(s.c)
    ensures Accounting(CallerNext(s, a).c)
  {
    var s' := CallerNext(s, a);
    if a.Admit? {
      assert Live(s'.c.pubs) == Live(s.c.pubs) + {a.p};
    } else if a.Withdraw? {
      var sendErr := if a.why == Stalled then NoSendErr else NotSent(a.why);
      SettleKeepsAccounting(s.c, a.p, NoVerdict, sendErr);
      SameSettlementsSameLive(AfterSettle(s.c, a.p, NoVerdict, sendErr).pubs, s'.c.pubs);
    } else {
      SameSettlementsSameLive(s.c.pubs, s'.c.pubs);
    }
  }

  lemma WriterKeepsAccounting(s: System, a: WriterStep)
    requires WriterEnabled(s, a) && Accounting(s.c)
    ensures Accounting(WriterNext(s, a).c)
  {
    var s' := WriterNext(s, a);
    match a {
      case DropUnsent(why) => SettleKeepsAccounting(s.c, s.w.p, NoVerdict, NotSent(why));
      case Cleanup => SettleKeepsAccounting(s.c.(pending := s'.c.pending), s.w.p, NoVerdict, NotSent(s.w.why));
      case _ => SameSettlementsSameLive(s.c.pubs, s'.c.pubs);
    }
  }

  lemma LoopKeepsAccounting(s: System, a: LoopStep)
    requires LoopEnabled(s, a) && Accounting(s.c)
    ensures Accounting(LoopNext(s, a).c)
  {
    var s' := LoopNext(s, a);
    match a {
      case ReadReturn =>
        var p := MarkEffect(s.c, s.k.wire[0].dest);
        SameSettlementsSameLive(s.c.pubs, s'.c.pubs);
      case ReadConfirm =>
        var t := s.k.buffer[0].tag;
        if t in s.c.pending {
          var p := s.c.pending[t];
          SettleKeepsAccounting(s.c.(pending := s.c.pending - {t}), p,
                                ConfirmVerdict(s.k.buffer[0].ack, s.c.pubs[p].returned), NoSendErr);
        }
      case SettleClosed(p) => SettleKeepsAccounting(s.c, p, ChannelClosed, NoSendErr);
      case _ =>
    }
  }

  lemma PushConfirm(events: seq<Event>, e: Event)
    requires e.Confirm?
    ensures ConfirmTags(events + [e]) == ConfirmTags(events) + {e.tag}
  {
    var more := events + [e];
    assert more[|events|] == e;
    forall t | t in ConfirmTags(events) ensures t in ConfirmTags(more) {
      var i :| 0 <= i < |events| && events[i].Confirm? && events[i].tag == t;
      assert more[i] == events[i];
    }
  }

  lemma CallerKeepsSentOk(s: System, a: CallerStep)
    requires CallerEnabled(s, a)
    requires SentOk(s) && CallersOk(s)
    ensures SentOk(CallerNext(s, a))
  {
  }

  lemma CallerKeepsPendingOk(s: System, a: CallerStep)
    requires CallerEnabled(s, a)
    requires PendingOk(s) && CallersOk(s) && WriterOk(s)
    ensures PendingOk(CallerNext(s, a))
  {
  }

  lemma CallerKeepsWriterOk(s: System, a: CallerStep)
    requires CallerEnabled(s, a)
    requires WriterOk(s) && CallersOk(s) && PendingOk(s)
    ensures WriterOk(CallerNext(s, a))
  {
  }

  lemma CallerKeepsCallersOk(s: System, a: CallerStep)
    requires CallerEnabled(s, a)
    requires CallersOk(s) && WriterOk(s)
    ensures CallersOk(CallerNext(s, a))
  {
  }

  lemma WriterKeepsSentOk(s: System, a: WriterStep)
    requires WriterEnabled(s, a)
    requires SentOk(s) && WriterOk(s)
    ensures SentOk(WriterNext(s, a))
  {
  }

  lemma WriterKeepsPendingOk(s: System, a: WriterStep)
    requires WriterEnabled(s, a)
    requires SentOk(s) && PendingOk(s) && WriterOk(s) && PhaseOk(s)
    ensures PendingOk(WriterNext(s, a))
  {
  }

  lemma WriterKeepsWriterOk(s: System, a: WriterStep)
    requires WriterEnabled(s, a)
    requires SentOk(s) && WriterOk(s) && PendingOk(s)
    ensures WriterOk(WriterNext(s, a))
  {
  }

  lemma WriterKeepsCallersOk(s: System, a: WriterStep)
    requires WriterEnabled(s, a)
    requires CallersOk(s) && WriterOk(s)
    ensures CallersOk(WriterNext(s, a))
  {
  }

  lemma BrokerKeepsTables(s: System, a: BrokerStep)
    requires BrokerEnabled(s, a)
    requires SentOk(s) && PendingOk(s) && WriterOk(s) && CallersOk(s) && HeadOk(s) && PhaseOk(s) && RestOk(s)
    ensures SentOk(BrokerNext(s, a)) && PendingOk(BrokerNext(s, a)) && WriterOk(BrokerNext(s, a)) && CallersOk(BrokerNext(s, a))
  {
  }

  lemma ConfirmKeepsTables(s: System, a: LoopStep)
    requires LoopEnabled(s, a) && a.ReadConfirm?
    requires SentOk(s) && PendingOk(s) && WriterOk(s) && CallersOk(s) && HeadOk(s) && PhaseOk(s) && RestOk(s)
    ensures SentOk(LoopNext(s, a)) && PendingOk(LoopNext(s, a)) && WriterOk(LoopNext(s, a)) && CallersOk(LoopNext(s, a))
  {
    ConfirmKeepsPending(s, a);
    ConfirmKeepsCallers(s, a);
  }

  lemma ConfirmKeepsPending(s: System, a: LoopStep)
    requires LoopEnabled(s, a) && a.ReadConfirm? && SentOk(s) && PendingOk(s) && HeadOk(s)
    ensures SentOk(LoopNext(s, a)) && PendingOk(LoopNext(s, a))
  {
  }

  lemma ConfirmKeepsCallers(s: System, a: LoopStep)
    requires LoopEnabled(s, a) && a.ReadConfirm? && SentOk(s) && PendingOk(s) && WriterOk(s) && CallersOk(s) && HeadOk(s)
    ensures WriterOk(LoopNext(s, a)) && CallersOk(LoopNext(s, a))
  {
  }

  lemma CloseKeepsTables(s: System, a: LoopStep)
    requires LoopEnabled(s, a) && !a.ReadReturn? && !a.ReadConfirm?
    requires SentOk(s) && PendingOk(s) && WriterOk(s) && CallersOk(s) && HeadOk(s) && PhaseOk(s) && RestOk(s)
    ensures SentOk(LoopNext(s, a)) && PendingOk(LoopNext(s, a)) && WriterOk(LoopNext(s, a)) && CallersOk(LoopNext(s, a))
  {
  }

  lemma ReturnKeepsTables(s: System, a: LoopStep)
    requires LoopEnabled(s, a) && a.ReadReturn?
    requires SentOk(s) && PendingOk(s) && WriterOk(s) && CallersOk(s) && HeadOk(s) && PhaseOk(s) && RestOk(s)
    ensures SentOk(LoopNext(s, a)) && PendingOk(LoopNext(s, a))
  {
    var q := MarkEffect(s.c, s.k.wire[0].dest);
  }

  lemma ReturnKeepsPeople(s: System, a: LoopStep)
    requires LoopEnabled(s, a) && a.ReadReturn?
    requires SentOk(s) && PendingOk(s) && WriterOk(s) && CallersOk(s) && HeadOk(s) && PhaseOk(s) && RestOk(s)
    ensures WriterOk(LoopNext(s, a)) && CallersOk(LoopNext(s, a))
  {
    var q := MarkEffect(s.c, s.k.wire[0].dest);
  }

  lemma CallerKeepsOwned(s: System, a: CallerStep)
    requires CallerEnabled(s, a)
    requires SentOk(s) && PendingOk(s) && WriterOk(s) && CallersOk(s) && HeadOk(s) && PhaseOk(s) && Owned(s)
    ensures Owned(CallerNext(s, a))
  {
  }

  lemma WriterKeepsOwned(s: System, a: WriterStep)
    requires WriterEnabled(s, a)
    requires SentOk(s) && PendingOk(s) && WriterOk(s) && CallersOk(s) && HeadOk(s) && PhaseOk(s) && Owned(s) && RestOk(s)
    ensures Owned(WriterNext(s, a))
  {
    var s' := WriterNext(s, a);
    forall p | p in s'.c.pubs && s'.c.pubs[p].settled.Unsettled? && p in s.c.pending.Values
      ensures p in s'.c.pending.Values
    {
      var u :| u in s.c.pending && s.c.pending[u] == p;
      assert u in s'.c.pending && s'.c.pending[u] == p;
    }
    if a.WriteOk? && !s.c.closed {
      assert s.c.pending[s.w.t] == s.w.p;
    }
  }

  lemma BrokerKeepsOwned(s: System, a: BrokerStep)
    requires BrokerEnabled(s, a)
    requires SentOk(s) && PendingOk(s) && WriterOk(s) && CallersOk(s) && HeadOk(s) && PhaseOk(s) && Owned(s)
    ensures Owned(BrokerNext(s, a))
  {
  }

  lemma ReturnKeepsOwned(s: System, a: LoopStep)
    requires LoopEnabled(s, a) && a.ReadReturn?
    requires SentOk(s) && PendingOk(s) && WriterOk(s) && CallersOk(s) && HeadOk(s) && PhaseOk(s) && Owned(s)
    ensures Owned(LoopNext(s, a))
  {
    var q := MarkEffect(s.c, s.k.wire[0].dest);
  }

  lemma ConfirmKeepsOwned(s: System, a: LoopStep)
    requires LoopEnabled(s, a) && a.ReadConfirm?
    requires SentOk(s) && PendingOk(s) && WriterOk(s) && CallersOk(s) && HeadOk(s) && PhaseOk(s) && Owned(s)
    ensures Owned(LoopNext(s, a))
  {
    var s' := LoopNext(s, a);
    var t := s.k.buffer[0].tag;
    forall p | p in s'.c.pubs && s'.c.pubs[p].settled.Unsettled? && p in s.c.pending.Values
      ensures p in s'.c.pending.Values
    {
      var u :| u in s.c.pending && s.c.pending[u] == p;
      assert u in s'.c.pending;
    }
  }

  lemma CloseKeepsOwned(s: System, a: LoopStep)
    requires LoopEnabled(s, a) && !a.ReadReturn? && !a.ReadConfirm?
    requires SentOk(s) && PendingOk(s) && WriterOk(s) && CallersOk(s) && HeadOk(s) && PhaseOk(s) && Owned(s) && RestOk(s)
    ensures Owned(LoopNext(s, a))
  {
  }

  lemma CallerKeepsLink(s: System, a: CallerStep)
    requires CallerEnabled(s, a)
    requires RoutedOk(s.k) && ReceivedOk(s) && PhaseOk(s)
    ensures RoutedOk(CallerNext(s, a).k) && PhaseOk(CallerNext(s, a)) && ReceivedOk(CallerNext(s, a))
  {
  }

  lemma WriterKeepsLink(s: System, a: WriterStep)
    requires WriterEnabled(s, a)
    requires SentOk(s) && RoutedOk(s.k) && ReceivedOk(s) && PhaseOk(s)
    ensures RoutedOk(WriterNext(s, a).k) && PhaseOk(WriterNext(s, a)) && ReceivedOk(WriterNext(s, a))
  {
  }

  lemma BrokerKeepsLink(s: System, a: BrokerStep)
    requires BrokerEnabled(s, a)
    requires SentOk(s) && RoutedOk(s.k) && UnreadOk(s) && ReceivedOk(s) && PhaseOk(s)
    ensures RoutedOk(BrokerNext(s, a).k) && PhaseOk(BrokerNext(s, a)) && ReceivedOk(BrokerNext(s, a))
  {
    BrokerKeepsRouted(s, a);
    if a.Pump? {
      PushConfirm(s.k.buffer, s.k.wire[0]);
    }
  }

  lemma BrokerKeepsRouted(s: System, a: BrokerStep)
    requires BrokerEnabled(s, a) && RoutedOk(s.k) && UnreadOk(s)
    ensures RoutedOk(BrokerNext(s, a).k)
  {
  }

  lemma ReturnKeepsLink(s: System, a: LoopStep)
    requires LoopEnabled(s, a) && a.ReadReturn?
    requires RoutedOk(s.k) && ReceivedOk(s) && PhaseOk(s)
    ensures RoutedOk(LoopNext(s, a).k) && PhaseOk(LoopNext(s, a)) && ReceivedOk(LoopNext(s, a))
  {
  }

  lemma ConfirmKeepsLink(s: System, a: LoopStep)
    requires LoopEnabled(s, a) && a.ReadConfirm?
    requires SentOk(s) && RoutedOk(s.k) && UnreadOk(s) && ReceivedOk(s) && PhaseOk(s)
    ensures RoutedOk(LoopNext(s, a).k) && PhaseOk(LoopNext(s, a)) && ReceivedOk(LoopNext(s, a))
  {
  }

  lemma CloseKeepsLink(s: System, a: LoopStep)
    requires LoopEnabled(s, a) && !a.ReadReturn? && !a.ReadConfirm?
    requires SentOk(s) && RoutedOk(s.k) && UnreadOk(s) && ReceivedOk(s) && PhaseOk(s)
    ensures RoutedOk(LoopNext(s, a).k) && PhaseOk(LoopNext(s, a)) && ReceivedOk(LoopNext(s, a))
  {
  }

  lemma CallerKeepsUnread(s: System, a: CallerStep)
    requires CallerEnabled(s, a)
    requires UnreadOk(s)
    ensures UnreadOk(CallerNext(s, a))
  {
  }

  lemma WriterKeepsUnread(s: System, a: WriterStep)
    requires WriterEnabled(s, a)
    requires UnreadOk(s)
    ensures UnreadOk(WriterNext(s, a))
  {
  }

  lemma RouteKeepsUnread(s: System, a: BrokerStep)
    requires BrokerEnabled(s, a) && a.Route?
    requires SentOk(s) && RoutedOk(s.k) && UnreadOk(s) && ReceivedOk(s) && PhaseOk(s)
    ensures UnreadOk(BrokerNext(s, a))
  {
  }

  lemma SendConfirmKeepsUnread(s: System, a: BrokerStep)
    requires BrokerEnabled(s, a) && a.SendConfirm?
    requires SentOk(s) && RoutedOk(s.k) && UnreadOk(s) && ReceivedOk(s) && PhaseOk(s)
    ensures UnreadOk(BrokerNext(s, a))
  {
  }

  lemma PumpKeepsUnread(s: System, a: BrokerStep)
    requires BrokerEnabled(s, a) && a.Pump?
    requires SentOk(s) && RoutedOk(s.k) && UnreadOk(s) && ReceivedOk(s) && PhaseOk(s)
    ensures UnreadOk(BrokerNext(s, a))
  {
  }

  lemma DieKeepsUnread(s: System, a: BrokerStep)
    requires BrokerEnabled(s, a) && a.Die?
    requires SentOk(s) && RoutedOk(s.k) && UnreadOk(s) && ReceivedOk(s) && PhaseOk(s)
    ensures UnreadOk(BrokerNext(s, a))
  {
  }

  lemma ReturnKeepsUnread(s: System, a: LoopStep)
    requires LoopEnabled(s, a) && a.ReadReturn?
    requires SentOk(s) && RoutedOk(s.k) && UnreadOk(s) && ReceivedOk(s) && PhaseOk(s)
    ensures UnreadOk(LoopNext(s, a))
  {
  }

  lemma ConfirmKeepsUnread(s: System, a: LoopStep)
    requires LoopEnabled(s, a) && a.ReadConfirm?
    requires SentOk(s) && RoutedOk(s.k) && UnreadOk(s) && ReceivedOk(s) && PhaseOk(s)
    ensures UnreadOk(LoopNext(s, a))
  {
  }

  lemma CloseKeepsUnread(s: System, a: LoopStep)
    requires LoopEnabled(s, a) && !a.ReadReturn? && !a.ReadConfirm?
    requires SentOk(s) && RoutedOk(s.k) && UnreadOk(s) && ReceivedOk(s) && PhaseOk(s)
    ensures UnreadOk(LoopNext(s, a))
  {
  }

  lemma CallerKeepsCoverOk(s: System, a: CallerStep)
    requires CallerEnabled(s, a)
    requires CoverOk(s)
    ensures CoverOk(CallerNext(s, a))
  {
  }

  lemma CallerKeepsConsumedOk(s: System, a: CallerStep)
    requires CallerEnabled(s, a)
    requires SentOk(s) && CallersOk(s) && ConsumedOk(s)
    ensures ConsumedOk(CallerNext(s, a))
  {
  }

  lemma CallerKeepsRestOk(s: System, a: CallerStep)
    requires CallerEnabled(s, a)
    requires CallersOk(s) && RestOk(s)
    ensures RestOk(CallerNext(s, a))
  {
  }

  lemma WriterKeepsCoverOk(s: System, a: WriterStep)
    requires WriterEnabled(s, a)
    requires SentOk(s) && WriterOk(s) && PendingOk(s) && PhaseOk(s) && CoverOk(s)
    ensures CoverOk(WriterNext(s, a))
  {
  }

  lemma WriterKeepsConsumedOk(s: System, a: WriterStep)
    requires WriterEnabled(s, a)
    requires SentOk(s) && WriterOk(s) && ConsumedOk(s)
    ensures ConsumedOk(WriterNext(s, a))
  {
  }

  lemma WriterKeepsRestOk(s: System, a: WriterStep)
    requires WriterEnabled(s, a)
    requires SentOk(s) && WriterOk(s) && PhaseOk(s) && RestOk(s)
    ensures RestOk(WriterNext(s, a))
  {
  }

  lemma BrokerKeepsHistory(s: System, a: BrokerStep)
    requires BrokerEnabled(s, a)
    requires RoutedOk(s.k) && UnreadOk(s) && PhaseOk(s) && CoverOk(s) && ConsumedOk(s) && RestOk(s)
    ensures CoverOk(BrokerNext(s, a)) && ConsumedOk(BrokerNext(s, a)) && RestOk(BrokerNext(s, a))
  {
  }

  lemma ReturnKeepsHistory(s: System, a: LoopStep)
    requires LoopEnabled(s, a) && a.ReadReturn?
    requires SentOk(s) && PendingOk(s) && WriterOk(s) && CallersOk(s) && HeadOk(s) && PhaseOk(s)
    requires RoutedOk(s.k) && ReceivedOk(s) && CoverOk(s) && ConsumedOk(s) && RestOk(s)
    ensures CoverOk(LoopNext(s, a)) && ConsumedOk(LoopNext(s, a)) && RestOk(LoopNext(s, a))
  {
    var q := MarkEffect(s.c, s.k.wire[0].dest);
  }

  lemma ConfirmKeepsCoverOk(s: System, a: LoopStep)
    requires LoopEnabled(s, a) && a.ReadConfirm?
    requires HeadOk(s) && PhaseOk(s) && CoverOk(s)
    ensures CoverOk(LoopNext(s, a))
  {
  }

  lemma ConfirmKeepsConsumedOk(s: System, a: LoopStep)
    requires LoopEnabled(s, a) && a.ReadConfirm?
    requires SentOk(s) && PendingOk(s) && HeadOk(s) && PhaseOk(s) && CoverOk(s) && ConsumedOk(s)
    ensures ConsumedOk(LoopNext(s, a))
  {
  }

  lemma ConfirmKeepsRestOk(s: System, a: LoopStep)
    requires LoopEnabled(s, a) && a.ReadConfirm?
    requires PhaseOk(s)
    ensures RestOk(LoopNext(s, a))
  {
  }

  lemma CloseKeepsCoverOk(s: System, a: LoopStep)
    requires LoopEnabled(s, a) && !a.ReadReturn? && !a.ReadConfirm?
    requires PhaseOk(s) && CoverOk(s)
    ensures CoverOk(LoopNext(s, a))
  {
  }

  lemma CloseKeepsConsumedOk(s: System, a: LoopStep)
    requires LoopEnabled(s, a) && !a.ReadReturn? && !a.ReadConfirm?
    requires SentOk(s) && PhaseOk(s) && RoutedOk(s.k) && ConsumedOk(s) && RestOk(s)
    ensures ConsumedOk(LoopNext(s, a))
  {
  }

  lemma CloseKeepsRestOk(s: System, a: LoopStep)
    requires LoopEnabled(s, a) && !a.ReadReturn? && !a.ReadConfirm?
    requires SentOk(s) && PendingOk(s) && PhaseOk(s) && ReceivedOk(s) && ConsumedOk(s) && RestOk(s)
    ensures RestOk(LoopNext(s, a))
  {
  }

  lemma EntryKeepsSettlements(s: System, a: CallerStep)
    requires CallerEnabled(s, a) && (a.Admit? || a.Withdraw? || a.Handoff?)
    requires SentOk(s) && CallersOk(s) && SettlementsOk(s)
    ensures SettlementsOk(CallerNext(s, a))
  {
    var s' := CallerNext(s, a);
    forall p | p in s'.c.pubs
      ensures SettlementOk(s', p)
    {
      if p in s.c.pubs {
        assert SettlementOk(s, p);
      }
    }
  }

  lemma ExitKeepsSettlements(s: System, a: CallerStep)
    requires CallerEnabled(s, a) && (a.SeeCommit? || a.SeeDone? || a.GiveUp?)
    requires SettlementsOk(s)
    ensures SettlementsOk(CallerNext(s, a))
  {
    var s' := CallerNext(s, a);
    forall p | p in s'.c.pubs
      ensures SettlementOk(s', p)
    {
      if p in s.c.pubs {
        assert SettlementOk(s, p);
      }
    }
  }

  lemma PrepareKeepsSettlements(s: System, a: WriterStep)
    requires WriterEnabled(s, a) && (a.DropUnsent? || a.TakeTag? || a.RegisterTag?)
    requires SentOk(s) && WriterOk(s) && SettlementsOk(s)
    ensures SettlementsOk(WriterNext(s, a))
  {
    var s' := WriterNext(s, a);
    forall p | p in s'.c.pubs
      ensures SettlementOk(s', p)
    {
      if p in s.c.pubs {
        assert SettlementOk(s, p);
      }
    }
  }

  lemma WriteKeepsSettlement(s: System, a: WriterStep, p: PubId)
    requires WriterEnabled(s, a) && (a.WriteOk? || a.WriteFail? || a.Cleanup? || a.StopWriter?)
    requires SentOk(s) && PendingOk(s) && WriterOk(s) && PhaseOk(s)
    requires p in s.c.pubs && SettlementOk(s, p)
    ensures p in WriterNext(s, a).c.pubs && SettlementOk(WriterNext(s, a), p)
  {
  }

  lemma WriteKeepsSettlements(s: System, a: WriterStep)
    requires WriterEnabled(s, a) && (a.WriteOk? || a.WriteFail? || a.Cleanup? || a.StopWriter?)
    requires SentOk(s) && PendingOk(s) && WriterOk(s) && PhaseOk(s) && SettlementsOk(s)
    ensures SettlementsOk(WriterNext(s, a))
  {
    forall p | p in WriterNext(s, a).c.pubs
      ensures SettlementOk(WriterNext(s, a), p)
    {
      assert SettlementOk(s, p);
      WriteKeepsSettlement(s, a, p);
    }
  }

  lemma BrokerKeepsSettlements(s: System, a: BrokerStep)
    requires BrokerEnabled(s, a)
    requires RoutedOk(s.k) && UnreadOk(s) && SettlementsOk(s)
    ensures SettlementsOk(BrokerNext(s, a))
  {
    var s' := BrokerNext(s, a);
    forall p | p in s'.c.pubs
      ensures SettlementOk(s', p)
    {
      if p in s.c.pubs {
        assert SettlementOk(s, p);
      }
    }
  }

  lemma ReturnKeepsSettlements(s: System, a: LoopStep)
    requires LoopEnabled(s, a) && a.ReadReturn?
    requires PendingOk(s) && SettlementsOk(s)
    ensures SettlementsOk(LoopNext(s, a))
  {
    var s' := LoopNext(s, a);
    var q := MarkEffect(s.c, s.k.wire[0].dest);
    forall p | p in s'.c.pubs
      ensures SettlementOk(s', p)
    {
      if p in s.c.pubs {
        assert SettlementOk(s, p);
      }
    }
  }

  lemma ConfirmKeepsSettlement(s: System, a: LoopStep, p: PubId)
    requires LoopEnabled(s, a) && a.ReadConfirm?
    requires SentOk(s) && PendingOk(s) && HeadOk(s) && PhaseOk(s) && ResultsOk(s)
    requires p in s.c.pubs && SettlementOk(s, p)
    ensures p in LoopNext(s, a).c.pubs && SettlementOk(LoopNext(s, a), p)
  {
  }

  lemma ConfirmKeepsSettlements(s: System, a: LoopStep)
    requires LoopEnabled(s, a) && a.ReadConfirm?
    requires SentOk(s) && PendingOk(s) && HeadOk(s) && PhaseOk(s) && SettlementsOk(s) && ResultsOk(s)
    ensures SettlementsOk(LoopNext(s, a))
  {
    forall p | p in LoopNext(s, a).c.pubs
      ensures SettlementOk(LoopNext(s, a), p)
    {
      assert SettlementOk(s, p);
      ConfirmKeepsSettlement(s, a, p);
    }
  }

  lemma CloseKeepsSettlements(s: System, a: LoopStep)
    requires LoopEnabled(s, a) && !a.ReadReturn? && !a.ReadConfirm?
    requires PhaseOk(s) && RestOk(s) && SettlementsOk(s) && ResultsOk(s)
    ensures SettlementsOk(LoopNext(s, a))
  {
    var s' := LoopNext(s, a);
    forall p | p in s'.c.pubs
      ensures SettlementOk(s', p)
    {
      if p in s.c.pubs {
        assert SettlementOk(s, p);
      }
    }
  }

  lemma CallerKeepsResults(s: System, a: CallerStep)
    requires CallerEnabled(s, a)
    requires CallersOk(s) && SettlementsOk(s) && ResultsOk(s)
    ensures ResultsOk(CallerNext(s, a))
  {
  }

  lemma WriterKeepsResults(s: System, a: WriterStep)
    requires WriterEnabled(s, a)
    requires WriterOk(s) && ResultsOk(s)
    ensures ResultsOk(WriterNext(s, a))
  {
  }

  lemma BrokerKeepsResults(s: System, a: BrokerStep)
    requires BrokerEnabled(s, a)
    requires ResultsOk(s)
    ensures ResultsOk(BrokerNext(s, a))
  {
  }

  lemma ReturnKeepsResults(s: System, a: LoopStep)
    requires LoopEnabled(s, a) && a.ReadReturn?
    requires ResultsOk(s)
    ensures ResultsOk(LoopNext(s, a))
  {
    var q := MarkEffect(s.c, s.k.wire[0].dest);
  }

  lemma ConfirmKeepsResults(s: System, a: LoopStep)
    requires LoopEnabled(s, a) && a.ReadConfirm?
    requires ResultsOk(s) && PendingOk(s)
    ensures ResultsOk(LoopNext(s, a))
  {
  }

  lemma CloseKeepsResults(s: System, a: LoopStep)
    requires LoopEnabled(s, a) && !a.ReadReturn? && !a.ReadConfirm?
    requires ResultsOk(s)
    ensures ResultsOk(LoopNext(s, a))
  {
  }

  lemma CallerKeepsInv(s: System, a: CallerStep)
    requires Inv(s) && CallerEnabled(s, a)
    ensures Inv(CallerNext(s, a))
  {
    CallerKeepsAccounting(s, a);
    CallerKeepsSentOk(s, a);
    CallerKeepsPendingOk(s, a);
    CallerKeepsWriterOk(s, a);
    CallerKeepsCallersOk(s, a);
    CallerKeepsOwned(s, a);
    CallerKeepsLink(s, a);
    CallerKeepsUnread(s, a);
    CallerKeepsCoverOk(s, a);
    CallerKeepsConsumedOk(s, a);
    CallerKeepsRestOk(s, a);
    if a.Admit? || a.Withdraw? || a.Handoff? {
      EntryKeepsSettlements(s, a);
    } else {
      ExitKeepsSettlements(s, a);
    }
    CallerKeepsResults(s, a);
  }

  lemma WriterKeepsInv(s: System, a: WriterStep)
    requires Inv(s) && WriterEnabled(s, a)
    ensures Inv(WriterNext(s, a))
  {
    WriterKeepsAccounting(s, a);
    WriterKeepsSentOk(s, a);
    WriterKeepsPendingOk(s, a);
    WriterKeepsWriterOk(s, a);
    WriterKeepsCallersOk(s, a);
    WriterKeepsOwned(s, a);
    WriterKeepsLink(s, a);
    WriterKeepsUnread(s, a);
    WriterKeepsCoverOk(s, a);
    WriterKeepsConsumedOk(s, a);
    WriterKeepsRestOk(s, a);
    if a.DropUnsent? || a.TakeTag? || a.RegisterTag? {
      PrepareKeepsSettlements(s, a);
    } else {
      WriteKeepsSettlements(s, a);
    }
    WriterKeepsResults(s, a);
  }

  lemma BrokerKeepsInv(s: System, a: BrokerStep)
    requires Inv(s) && BrokerEnabled(s, a)
    ensures Inv(BrokerNext(s, a))
  {
    BrokerKeepsTables(s, a);
    BrokerKeepsOwned(s, a);
    BrokerKeepsLink(s, a);
    match a {
      case Route(_) => RouteKeepsUnread(s, a);
      case SendConfirm(_) => SendConfirmKeepsUnread(s, a);
      case Pump => PumpKeepsUnread(s, a);
      case Die => DieKeepsUnread(s, a);
    }
    BrokerKeepsHistory(s, a);
    BrokerKeepsSettlements(s, a);
    BrokerKeepsResults(s, a);
  }

  lemma LoopKeepsInv(s: System, a: LoopStep)
    requires Inv(s) && LoopEnabled(s, a)
    ensures Inv(LoopNext(s, a))
  {
    LoopKeepsAccounting(s, a);
    if a.ReadReturn? {
      ReturnKeepsTables(s, a);
      ReturnKeepsPeople(s, a);
      ReturnKeepsOwned(s, a);
      ReturnKeepsLink(s, a);
      ReturnKeepsUnread(s, a);
      ReturnKeepsHistory(s, a);
      ReturnKeepsSettlements(s, a);
      ReturnKeepsResults(s, a);
    } else if a.ReadConfirm? {
      ConfirmKeepsTables(s, a);
      ConfirmKeepsOwned(s, a);
      ConfirmKeepsLink(s, a);
      ConfirmKeepsUnread(s, a);
      ConfirmKeepsCoverOk(s, a);
      ConfirmKeepsConsumedOk(s, a);
      ConfirmKeepsRestOk(s, a);
      ConfirmKeepsSettlements(s, a);
      ConfirmKeepsResults(s, a);
    } else {
      CloseKeepsTables(s, a);
      CloseKeepsOwned(s, a);
      CloseKeepsLink(s, a);
      CloseKeepsUnread(s, a);
      CloseKeepsCoverOk(s, a);
      CloseKeepsConsumedOk(s, a);
      CloseKeepsRestOk(s, a);
      CloseKeepsSettlements(s, a);
      CloseKeepsResults(s, a);
    }
  }

  lemma StepKeepsInv(s: System, a: Action)
    requires Inv(s) && Enabled(s, a)
    ensures Inv(Next(s, a))
  {
    match a {
      case ByCaller(x) => CallerKeepsInv(s, x);
      case ByWriter(y) => WriterKeepsInv(s, y);
      case ByBroker(z) => BrokerKeepsInv(s, z);
      case ByLoop(l) => LoopKeepsInv(s, l);
    }
  }
}
