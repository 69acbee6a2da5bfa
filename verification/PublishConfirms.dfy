/**
  The publisher-confirm channel (pubchan.go).

  A publication holds a confirm slot from admission until it is settled.  Its
  caller, the single writer, the single event loop, the AMQP client library and
  the broker act concurrently; here every mutex section or channel operation of
  theirs is one `Action`, and a run is any sequence of enabled actions.

  `Client` is the state the Go code owns, `Link` the state of the library and
  the broker.  Timers and contexts are actions that may happen at any moment.
 */
module PublishConfirms {

  type PubId = nat
  type Tag = nat

  /** What a basic.return tells about the publication it bounces: no tag. */
  datatype Dest = Dest(messageId: string, exchange: string, key: string)

  // ---- outcomes ----------------------------------------------------------

  /** pendingPublish.err: the broker's verdict. */
  datatype Verdict = NoVerdict | Nacked | Unroutable | ChannelClosed

  /** Definite reasons for not sending. */
  datatype Unsent = ContextEnded | ChannelGone | WriteFailed | Stalled

  /** pendingPublish.sendErr. */
  datatype SendErr = NoSendErr | NotSent(why: Unsent)

  datatype Settlement = Unsettled | Settled(err: Verdict, sendErr: SendErr)

  /** The cause a *PublishError wraps. */
  datatype Cause = BrokerVerdict(err: Verdict) | ConfirmTimeout | GaveUpWaiting

  /** What publish returns: nil, a bare error, or a *PublishError. */
  datatype Result = Nil | Bare(why: Unsent) | PublishError(cause: Cause)

  /** Where the caller of publish is. */
  datatype Caller = Offering | AwaitingCommit | AwaitingConfirm | Returned(r: Result)

  datatype Pub = Pub(
    dest: Dest,
    mandatory: bool,
    caller: Caller,
    committed: bool,
    returned: bool,
    settled: Settlement)

  /** The outcome closure of publish. */
  function Outcome(st: Settlement): Result
    requires st.Settled?
  {
    if st.sendErr.NotSent? then Bare(st.sendErr.why)
    else if st.err != NoVerdict then PublishError(BrokerVerdict(st.err))
    else Nil
  }

  /** The verdict resolve derives from a confirm and the returned flag. */
  function ConfirmVerdict(ack: bool, returned: bool): Verdict {
    if !ack then Nacked else if returned then Unroutable else NoVerdict
  }

  // ---- the Go side -------------------------------------------------------

  datatype Client = Client(
    capacity: nat,
    slots: int,
    pubs: map<PubId, Pub>,
    pending: map<Tag, PubId>,
    closed: bool)

  /** Publications that have not been settled. */
  ghost function Live(pubs: map<PubId, Pub>): set<PubId> {
    set p | p in pubs && pubs[p].settled.Unsettled?
  }

  function AfterSettle(c: Client, p: PubId, err: Verdict, sendErr: SendErr): Client
    requires p in c.pubs
  {
    if c.pubs[p].settled.Settled? then c
    else c.(pubs := c.pubs[p := c.pubs[p].(settled := Settled(err, sendErr))], slots := c.slots - 1)
  }

  function SetCaller(c: Client, p: PubId, k: Caller): Client
    requires p in c.pubs
  {
    c.(pubs := c.pubs[p := c.pubs[p].(caller := k)])
  }

  /** Every pending tag names a known publication. */
  ghost predicate PendingKnown(c: Client) {
    forall t | t in c.pending :: c.pending[t] in c.pubs
  }

  /** The publications a return could be about: mandatory, unmarked, same id and destination. */
  ghost predicate Matches(c: Client, d: Dest, t: Tag)
    requires PendingKnown(c)
  {
    && t in c.pending
    && var pp := c.pubs[c.pending[t]];
    pp.mandatory && !pp.returned && pp.dest == d
  }

  /** t is the oldest publication a return for d could be about. */
  ghost predicate OldestMatch(c: Client, d: Dest, t: Tag)
    requires PendingKnown(c)
  {
    Matches(c, d, t) && forall u | u in c.pending :: Matches(c, d, u) ==> t <= u
  }

  ghost function AfterReturn(c: Client, d: Dest): Client
    requires PendingKnown(c)
  {
    if t :| OldestMatch(c, d, t) then
      var p := c.pending[t];
      c.(pubs := c.pubs[p := c.pubs[p].(returned := true)])
    else c
  }

  function AfterConfirm(c: Client, t: Tag, ack: bool): Client
    requires t in c.pending ==> c.pending[t] in c.pubs
  {
    if t !in c.pending then c
    else
      var p := c.pending[t];
      AfterSettle(c.(pending := c.pending - {t}), p, ConfirmVerdict(ack, c.pubs[p].returned), NoSendErr)
  }

  function AfterRegister(c: Client, t: Tag, p: PubId): Client
    requires p in c.pubs
  {
    c.(pending := c.pending[t := p], pubs := c.pubs[p := c.pubs[p].(committed := true)])
  }

  /** The tail of send after a failed write: forget the tag, settle unsent. */
  function AfterFailedWrite(c: Client, t: Tag, p: PubId, why: Unsent): Client
    requires p in c.pubs
  {
    var pending := if t in c.pending && c.pending[t] == p then c.pending - {t} else c.pending;
    AfterSettle(c.(pending := pending), p, NoVerdict, NotSent(why))
  }

  /** c' is c with the live publications among done settled as ambiguous, their slots released. */
  ghost predicate ClosedFor(c: Client, done: set<PubId>, c': Client) {
    && c'.closed && c'.pending == map[] && c'.capacity == c.capacity
    && c'.pubs.Keys == c.pubs.Keys
    && (forall p | p in c.pubs && p !in done :: c'.pubs[p] == c.pubs[p])
    && (forall p | p in c.pubs && p in done :: c'.pubs[p] == ClosedPub(c.pubs[p]))
    && c'.slots - |Live(c'.pubs)| == c.slots - |Live(c.pubs)|
  }

  function ClosedPub(pp: Pub): Pub {
    if pp.settled.Unsettled? then pp.(settled := Settled(ChannelClosed, NoSendErr)) else pp
  }

  lemma CloseOneMore(c: Client, done: set<PubId>, c': Client, p: PubId)
    requires ClosedFor(c, done, c') && p in c.pubs && p !in done
    ensures ClosedFor(c, done + {p}, AfterSettle(c', p, ChannelClosed, NoSendErr))
  {
    if c'.pubs[p].settled.Unsettled? {
      assert Live(AfterSettle(c', p, ChannelClosed, NoSendErr).pubs) == Live(c'.pubs) - {p};
    }
  }

  // ---- the code ----------------------------------------------------------

  /** pubChannel's mutex sections. Pointers to pendingPublish are publication ids. */
  class PubChannel {
    const capacity: nat
    var slots: int
    var pubs: map<PubId, Pub>
    var pending: map<Tag, PubId>
    var closed: bool

    ghost function View(): Client
      reads this
    {
      Client(capacity, slots, pubs, pending, closed)
    }

    constructor (maxOutstandingConfirms: nat)
      ensures View() == Client(maxOutstandingConfirms, 0, map[], map[], false)
    {
      capacity, slots, pubs, pending, closed := maxOutstandingConfirms, 0, map[], map[], false;
    }

    /** pendingPublish.settle: only the first call counts. */
    method Settle(p: PubId, err: Verdict, sendErr: SendErr)
      requires p in pubs
      modifies this
      ensures View() == AfterSettle(old(View()), p, err, sendErr)
    {
      if pubs[p].settled.Unsettled? {
        pubs := pubs[p := pubs[p].(settled := Settled(err, sendErr))];
        slots := slots - 1;
      }
    }

    /** Scans the pending table, in no particular order, for the oldest match. */
    method MarkReturned(d: Dest)
      requires PendingKnown(View())
      modifies this
      ensures View() == AfterReturn(old(View()), d)
    {
      var matched, matchTag := false, 0;
      var rest := pending.Keys;
      while rest != {}
        invariant View() == old(View()) && rest <= pending.Keys
        invariant matched ==> Matches(View(), d, matchTag)
        invariant forall u | u in pending && u !in rest && Matches(View(), d, u) :: matched && matchTag <= u
        decreases |rest|
      {
        var t :| t in rest;
        var pp := pubs[pending[t]];
        if pp.mandatory && !pp.returned && pp.dest == d && (!matched || t < matchTag) {
          matched, matchTag := true, t;
        }
        rest := rest - {t};
      }
      if matched {
        assert OldestMatch(View(), d, matchTag);
        pubs := pubs[pending[matchTag] := pubs[pending[matchTag]].(returned := true)];
      }
    }

    method Resolve(t: Tag, ack: bool)
      requires PendingKnown(View())
      modifies this
      ensures View() == AfterConfirm(old(View()), t, ack)
    {
      if t !in pending { return; }
      var p := pending[t];
      pending := pending - {t};
      if !ack {
        Settle(p, Nacked, NoSendErr);
      } else if pubs[p].returned {
        Settle(p, Unroutable, NoSendErr);
      } else {
        Settle(p, NoVerdict, NoSendErr);
      }
    }

    /** Swaps the table out, then settles what was in it as ambiguous. */
    method Shutdown()
      requires PendingKnown(View())
      modifies this
      ensures ClosedFor(old(View()), old(pending.Values), View())
    {
      ghost var c, all := View(), pending.Values;
      assert all <= c.pubs.Keys;
      var rest := pending.Values;
      pending, closed := map[], true;
      while rest != {}
        invariant rest <= all && ClosedFor(c, all - rest, View())
        decreases |rest|
      {
        var p :| p in rest;
        CloseOneMore(c, all - rest, View(), p);
        assert all - (rest - {p}) == all - rest + {p};
        Settle(p, ChannelClosed, NoSendErr);
        rest := rest - {p};
      }
      assert all - rest == all;
    }

    /** send, before the write: register the tag and commit. */
    method Register(t: Tag, p: PubId)
      requires p in pubs
      modifies this
      ensures View() == AfterRegister(old(View()), t, p)
    {
      pending := pending[t := p];
      pubs := pubs[p := pubs[p].(committed := true)];
    }

    /** send, after a failed write: the tag will be reused, forget it. */
    method FailWrite(t: Tag, p: PubId, why: Unsent)
      requires p in pubs
      modifies this
      ensures View() == AfterFailedWrite(old(View()), t, p, why)
    {
      if t in pending && pending[t] == p {
        pending := pending - {t};
      }
      Settle(p, NoVerdict, NotSent(why));
    }
  }

  // ---- the whole system --------------------------------------------------

  datatype Writer =
    | Idle
    | Taken(p: PubId)                 // received from sendq, nothing decided
    | Tagged(p: PubId, t: Tag)        // passed the last checks, has its sequence number
    | Writing(p: PubId, t: Tag)       // registered and committed, in PublishWithContext
    | Failed(p: PubId, t: Tag, why: Unsent)
    | WriterDone

  datatype Loop = Running | Draining | Closing(rest: set<PubId>) | LoopDone

  /** What the broker did with a transmitted publication. */
  datatype Fate = Bounced | Accepted | Refused

  /** Events on their way from the broker; `of` is known to the broker only. */
  datatype Event = Return(dest: Dest, of: Tag) | Confirm(tag: Tag, ack: bool)

  datatype Link = Link(
    open: bool,
    nextSeq: Tag,
    sent: map<Tag, PubId>,        // transmitted publications
    tagOf: map<PubId, Tag>,       // its inverse
    fate: map<Tag, Fate>,         // decided in tag order
    confirmed: set<Tag>,          // confirms the broker has issued
    wire: seq<Event>,             // not yet handed to the Go side
    buffer: seq<Event>,           // the confirms channel, capacity MaxOutstandingConfirms
    received: set<Tag>,           // confirms that reached the buffer before shutdown
    consumed: set<Tag>,           // confirms the loop has read
    returnsRead: set<Tag>)        // returns the loop has read

  datatype System = System(c: Client, w: Writer, l: Loop, k: Link)

  /** The callers of publish. */
  datatype CallerStep =
    | Admit(p: PubId, dest: Dest, mandatory: bool)
    | Withdraw(p: PubId, why: Unsent)
    | Handoff(p: PubId)
    | SeeCommit(p: PubId)
    | SeeDone(p: PubId)
    | GiveUp(p: PubId, cause: Cause)

  /** The writer goroutine and the library's write. */
  datatype WriterStep =
    | DropUnsent(why: Unsent)
    | TakeTag
    | RegisterTag
    | WriteOk
    | WriteFail(why: Unsent)
    | Cleanup
    | StopWriter

  /** The broker and the library's event delivery. */
  datatype BrokerStep =
    | Route(fate: Fate)
    | SendConfirm(t: Tag)
    | Pump
    | Die

  /** The loop goroutine. */
  datatype LoopStep =
    | ReadReturn
    | ReadConfirm
    | SeeClose
    | Shutdown
    | SettleClosed(p: PubId)
    | StopLoop

  datatype Action = ByCaller(x: CallerStep) | ByWriter(y: WriterStep) | ByBroker(z: BrokerStep) | ByLoop(l: LoopStep)

  predicate Init(s: System, capacity: nat) {
    s == System(
      Client(capacity, 0, map[], map[], false), Idle, Running,
      Link(true, 1, map[], map[], map[], {}, [], [], {}, {}, {}))
  }

  predicate CallerEnabled(s: System, a: CallerStep) {
    match a
    // a slot is free
    case Admit(p, _, _) => p !in s.c.pubs && s.c.slots < s.c.capacity
    // the second select of publish: closed, ctx, timer
    case Withdraw(p, why) =>
      && p in s.c.pubs && s.c.pubs[p].caller.Offering?
      && why != WriteFailed && (why == ChannelGone ==> s.c.closed)
    case Handoff(p) => p in s.c.pubs && s.c.pubs[p].caller.Offering? && s.w.Idle?
    case SeeCommit(p) => p in s.c.pubs && s.c.pubs[p].caller.AwaitingCommit? && s.c.pubs[p].committed
    case SeeDone(p) =>
      && p in s.c.pubs && s.c.pubs[p].settled.Settled?
      && (s.c.pubs[p].caller.AwaitingCommit? || s.c.pubs[p].caller.AwaitingConfirm?)
    case GiveUp(p, cause) => p in s.c.pubs && s.c.pubs[p].caller.AwaitingConfirm? && !cause.BrokerVerdict?
  }

  function CallerNext(s: System, a: CallerStep): System
    requires CallerEnabled(s, a)
  {
    match a
    case Admit(p, d, m) =>
      s.(c := s.c.(slots := s.c.slots + 1, pubs := s.c.pubs[p := Pub(d, m, Offering, false, false, Unsettled)]))
    case Withdraw(p, why) =>
      var sendErr := if why == Stalled then NoSendErr else NotSent(why);
      s.(c := SetCaller(AfterSettle(s.c, p, NoVerdict, sendErr), p, Returned(Bare(why))))
    case Handoff(p) => s.(c := SetCaller(s.c, p, AwaitingCommit), w := Taken(p))
    case SeeCommit(p) => s.(c := SetCaller(s.c, p, AwaitingConfirm))
    case SeeDone(p) => s.(c := SetCaller(s.c, p, Returned(Outcome(s.c.pubs[p].settled))))
    case GiveUp(p, cause) => s.(c := SetCaller(s.c, p, Returned(PublishError(cause))))
  }

  predicate WriterEnabled(s: System, a: WriterStep) {
    match a
    case DropUnsent(why) =>
      s.w.Taken? && s.w.p in s.c.pubs && (why == ContextEnded || (why == ChannelGone && s.c.closed))
    case TakeTag => s.w.Taken? && !s.c.closed
    case RegisterTag => s.w.Tagged? && s.w.p in s.c.pubs
    // a write on a closed channel fails with ErrClosed, and only then
    case WriteOk => s.w.Writing? && s.k.open
    case WriteFail(why) => s.w.Writing? && (if s.k.open then why == WriteFailed else why == ChannelGone)
    case Cleanup => s.w.Failed? && s.w.p in s.c.pubs
    case StopWriter => s.w.Idle? && s.c.closed
  }

  function WriterNext(s: System, a: WriterStep): System
    requires WriterEnabled(s, a)
  {
    match a
    case DropUnsent(why) => s.(c := AfterSettle(s.c, s.w.p, NoVerdict, NotSent(why)), w := Idle)
    case TakeTag => s.(w := Tagged(s.w.p, s.k.nextSeq))
    case RegisterTag => s.(c := AfterRegister(s.c, s.w.t, s.w.p), w := Writing(s.w.p, s.w.t))
    case WriteOk =>
      s.(w := Idle,
         k := s.k.(nextSeq := s.k.nextSeq + 1,
                   sent := s.k.sent[s.k.nextSeq := s.w.p],
                   tagOf := s.k.tagOf[s.w.p := s.k.nextSeq]))
    case WriteFail(why) => s.(w := Failed(s.w.p, s.w.t, why))
    case Cleanup => s.(c := AfterFailedWrite(s.c, s.w.t, s.w.p, s.w.why), w := Idle)
    case StopWriter => s.(w := WriterDone)
  }

  /** The tag the broker routes next: it routes a channel's publications in order. */
  function NextToRoute(k: Link): Tag { |k.fate| + 1 }

  predicate BrokerEnabled(s: System, a: BrokerStep) {
    match a
    case Route(fate) =>
      var t := NextToRoute(s.k);
      && t in s.k.sent && s.k.sent[t] in s.c.pubs
      && (fate == Bounced ==> s.c.pubs[s.k.sent[t]].mandatory)
    case SendConfirm(t) => t in s.k.fate && t !in s.k.confirmed
    // the confirms channel has room
    case Pump => |s.k.wire| > 0 && s.k.wire[0].Confirm? && |s.k.buffer| < s.c.capacity
    case Die => s.k.open
  }

  function BrokerNext(s: System, a: BrokerStep): System
    requires BrokerEnabled(s, a)
  {
    match a
    case Route(fate) =>
      var t := NextToRoute(s.k);
      var bounce := if fate == Bounced then [Return(s.c.pubs[s.k.sent[t]].dest, t)] else [];
      s.(k := s.k.(fate := s.k.fate[t := fate], wire := s.k.wire + bounce))
    case SendConfirm(t) =>
      s.(k := s.k.(confirmed := s.k.confirmed + {t}, wire := s.k.wire + [Confirm(t, s.k.fate[t] != Refused)]))
    case Pump =>
      s.(k := s.k.(
         wire := s.k.wire[1..],
         buffer := s.k.buffer + [s.k.wire[0]],
         received := if s.c.closed then s.k.received else s.k.received + {s.k.wire[0].tag}))
    case Die => s.(k := s.k.(open := false))
  }

  predicate Listening(l: Loop) { l.Running? || l.Draining? }

  ghost predicate LoopEnabled(s: System, a: LoopStep) {
    match a
    // the returns channel is unbuffered: the loop takes a return off the wire itself
    case ReadReturn => Listening(s.l) && |s.k.wire| > 0 && s.k.wire[0].Return? && PendingKnown(s.c)
    case ReadConfirm => Listening(s.l) && |s.k.buffer| > 0 && s.k.buffer[0].Confirm? && PendingKnown(s.c)
    case SeeClose => s.l.Running? && !s.k.open
    // drain falls through only when no confirm is left to read
    case Shutdown => s.l.Draining? && s.k.buffer == []
    case SettleClosed(p) => s.l.Closing? && p in s.l.rest && p in s.c.pubs
    case StopLoop => s.l.Closing? && s.l.rest == {}
  }

  ghost function LoopNext(s: System, a: LoopStep): System
    requires LoopEnabled(s, a)
  {
    match a
    case ReadReturn =>
      s.(c := AfterReturn(s.c, s.k.wire[0].dest),
         k := s.k.(wire := s.k.wire[1..], returnsRead := s.k.returnsRead + {s.k.wire[0].of}))
    case ReadConfirm =>
      s.(c := AfterConfirm(s.c, s.k.buffer[0].tag, s.k.buffer[0].ack),
         k := s.k.(buffer := s.k.buffer[1..], consumed := s.k.consumed + {s.k.buffer[0].tag}))
    case SeeClose => s.(l := Draining)
    case Shutdown => s.(c := s.c.(pending := map[], closed := true), l := Closing(s.c.pending.Values))
    case SettleClosed(p) => s.(c := AfterSettle(s.c, p, ChannelClosed, NoSendErr), l := Closing(s.l.rest - {p}))
    case StopLoop => s.(l := LoopDone)
  }

  ghost predicate Enabled(s: System, a: Action) {
    match a
    case ByCaller(x) => CallerEnabled(s, x)
    case ByWriter(y) => WriterEnabled(s, y)
    case ByBroker(z) => BrokerEnabled(s, z)
    case ByLoop(l) => LoopEnabled(s, l)
  }

  ghost function Next(s: System, a: Action): System
    requires Enabled(s, a)
  {
    match a
    case ByCaller(x) => CallerNext(s, x)
    case ByWriter(y) => WriterNext(s, y)
    case ByBroker(z) => BrokerNext(s, z)
    case ByLoop(l) => LoopNext(s, l)
  }
}
