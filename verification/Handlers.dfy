/**
  Handler slots and draining (consumer.go, bus.go): deliveries are counted from
  receipt, handlers while user code runs, and a slot is held until the handler
  goroutine has exited, even one that was abandoned to its processing timeout.
 */
module Handlers {

  // ---- the counter -------------------------------------------------------

  /** An inflight counter: channels are numbered as they are made, and `closes` records every close. */
  datatype Counter = Counter(n: int, zero: nat, closes: seq<nat>)

  const NONE := Counter(0, 0, [])

  function AfterAdd(c: Counter): Counter {
    c.(n := c.n + 1, zero := if c.n == 0 then c.zero + 1 else c.zero)
  }

  function AfterDone(c: Counter): Counter {
    c.(n := c.n - 1, closes := if c.n == 1 then c.closes + [c.zero] else c.closes)
  }

  /** A channel is closed at most once, and the current one exactly while the count is zero. */
  predicate CounterOk(c: Counter) {
    && c.n >= 0
    && (forall i | 0 <= i < |c.closes| :: 1 <= c.closes[i] <= c.zero)
    && (forall i, j | 0 <= i < j < |c.closes| :: c.closes[i] != c.closes[j])
    && (forall g | 1 <= g < c.zero :: g in c.closes)
    && (c.n > 0 ==> c.zero >= 1 && c.zero !in c.closes)
    && (c.n == 0 && c.zero >= 1 ==> c.zero in c.closes)
  }

  lemma AddKeepsOk(c: Counter)
    requires CounterOk(c)
    ensures CounterOk(AfterAdd(c))
  {
  }

  lemma DoneKeepsOk(c: Counter)
    requires CounterOk(c) && c.n > 0
    ensures CounterOk(AfterDone(c))
  {
    var c' := AfterDone(c);
    if c.n == 1 {
      assert c'.closes[|c.closes|] == c.zero;
      forall g | 1 <= g < c.zero ensures g in c'.closes {
        assert g in c.closes;
      }
    }
  }

  class Inflight {
    var n: int
    var zero: nat
    ghost var closes: seq<nat>

    ghost function View(): Counter
      reads this
    {
      Counter(n, zero, closes)
    }

    constructor ()
      ensures View() == NONE
    {
      n, zero, closes := 0, 0, [];
    }

    method Add()
      requires CounterOk(View())
      modifies this
      ensures View() == AfterAdd(old(View())) && CounterOk(View())
    {
      AddKeepsOk(View());
      if n == 0 {
        zero := zero + 1;
      }
      n := n + 1;
    }

    method Done()
      requires CounterOk(View()) && n > 0
      modifies this
      ensures View() == AfterDone(old(View())) && CounterOk(View())
    {
      DoneKeepsOk(View());
      n := n - 1;
      if n == 0 {
        closes := closes + [zero];
      }
    }
  }

  // ---- the machine -------------------------------------------------------

  datatype Handler = NotStarted | Running | Exited

  datatype Phase =
    | WaitingForSlot
    | LetGo              // stopped while waiting; the broker redelivers it
    | Processing         // before the handler starts
    | Handling           // waiting for the handler or its timeout
    | Settling
    | Counted            // settled and counted out; the slot may still be held
    | Freed

  datatype Delivery = Delivery(consumer: nat, phase: Phase, handler: Handler, slot: bool)

  datatype Drain = NotDraining | OnDeliveries(zero: nat) | BetweenWaits | OnHandlers(zero: nat) | Drained

  /** `caps[c]` is a consumer's concurrency, 0 for no limit; `sems[c]` the length of its slot channel. */
  datatype System = System(
    caps: seq<nat>,
    sems: seq<int>,
    deliveries: Counter,
    handlers: Counter,
    ds: seq<Delivery>,
    stopped: bool,
    drain: Drain)

  datatype Action =
    | Receive(c: nat)
    | TakeSlot(d: nat)
    | GiveUpSlot(d: nat)
    | EarlyAckFails(d: nat)
    | StartHandler(d: nat)
    | HandlerExits(d: nat)
    | Resolve(d: nat)              // the handler's result, its panic, or the timeout
    | CountOut(d: nat)
    | FreeSlot(d: nat)
    | StopIntake
    | StartDrain
    | DeliveriesZero
    | StartHandlerWait
    | HandlersZero

  predicate In(s: System, d: nat, p: Phase) {
    d < |s.ds| && s.ds[d].phase == p && s.ds[d].consumer < |s.caps| && |s.sems| == |s.caps|
  }

  predicate Enabled(s: System, a: Action) {
    match a
    case Receive(c) => c < |s.caps| && !s.stopped
    case TakeSlot(d) =>
      In(s, d, WaitingForSlot) && (var c := s.ds[d].consumer; s.caps[c] == 0 || s.sems[c] < s.caps[c])
    case GiveUpSlot(d) => In(s, d, WaitingForSlot) && s.caps[s.ds[d].consumer] > 0
    case EarlyAckFails(d) => In(s, d, Processing)
    case StartHandler(d) => In(s, d, Processing)
    case HandlerExits(d) => d < |s.ds| && s.ds[d].handler.Running?
    case Resolve(d) => In(s, d, Handling)
    case CountOut(d) => In(s, d, Settling)
    case FreeSlot(d) => In(s, d, Counted) && !s.ds[d].handler.Running?
    case StopIntake => true
    case StartDrain => s.stopped && s.drain.NotDraining?
    case DeliveriesZero => s.drain.OnDeliveries? && s.drain.zero in s.deliveries.closes
    case StartHandlerWait => s.drain.BetweenWaits?
    case HandlersZero => s.drain.OnHandlers? && s.drain.zero in s.handlers.closes
  }

  function Next(s: System, a: Action): System
    requires Enabled(s, a)
  {
    match a
    case Receive(c) =>
      s.(deliveries := AfterAdd(s.deliveries), ds := s.ds + [Delivery(c, WaitingForSlot, NotStarted, false)])
    case TakeSlot(d) =>
      var c := s.ds[d].consumer;
      var limited := s.caps[c] > 0;
      s.(sems := if limited then s.sems[c := s.sems[c] + 1] else s.sems,
         ds := s.ds[d := s.ds[d].(phase := Processing, slot := limited)])
    case GiveUpSlot(d) => s.(deliveries := AfterDone(s.deliveries), ds := s.ds[d := s.ds[d].(phase := LetGo)])
    case EarlyAckFails(d) => s.(ds := s.ds[d := s.ds[d].(phase := Settling)])
    case StartHandler(d) =>
      s.(handlers := AfterAdd(s.handlers), ds := s.ds[d := s.ds[d].(phase := Handling, handler := Running)])
    case HandlerExits(d) => s.(handlers := AfterDone(s.handlers), ds := s.ds[d := s.ds[d].(handler := Exited)])
    case Resolve(d) => s.(ds := s.ds[d := s.ds[d].(phase := Settling)])
    case CountOut(d) => s.(deliveries := AfterDone(s.deliveries), ds := s.ds[d := s.ds[d].(phase := Counted)])
    case FreeSlot(d) =>
      var c := s.ds[d].consumer;
      s.(sems := if s.ds[d].slot then s.sems[c := s.sems[c] - 1] else s.sems,
         ds := s.ds[d := s.ds[d].(phase := Freed, slot := false)])
    case StopIntake => s.(stopped := true)
    case StartDrain => s.(drain := if s.deliveries.n == 0 then BetweenWaits else OnDeliveries(s.deliveries.zero))
    case DeliveriesZero => s.(drain := BetweenWaits)
    case StartHandlerWait => s.(drain := if s.handlers.n == 0 then Drained else OnHandlers(s.handlers.zero))
    case HandlersZero => s.(drain := Drained)
  }

  // ---- counting ----------------------------------------------------------

  function Sum(ds: seq<Delivery>, f: Delivery -> nat): nat
    decreases |ds|
  {
    if ds == [] then 0 else Sum(ds[..|ds| - 1], f) + f(ds[|ds| - 1])
  }

  lemma {:induction false} SumUpdate(ds: seq<Delivery>, i: nat, v: Delivery, f: Delivery -> nat)
    requires i < |ds|
    ensures Sum(ds[i := v], f) + f(ds[i]) == Sum(ds, f) + f(v)
    decreases |ds|
  {
    var n := |ds| - 1;
    if i < n {
      assert ds[i := v][..n] == ds[..n][i := v];
      SumUpdate(ds[..n], i, v, f);
    } else {
      assert ds[i := v][..n] == ds[..n];
    }
  }

  lemma SumAppend(ds: seq<Delivery>, v: Delivery, f: Delivery -> nat)
    ensures Sum(ds + [v], f) == Sum(ds, f) + f(v)
  {
    assert (ds + [v])[..|ds|] == ds;
  }

  lemma {:induction false} SumBelow(ds: seq<Delivery>, f: Delivery -> nat, g: Delivery -> nat)
    requires forall i | 0 <= i < |ds| :: f(ds[i]) <= g(ds[i])
    ensures Sum(ds, f) <= Sum(ds, g)
    decreases |ds|
  {
    if ds != [] {
      SumBelow(ds[..|ds| - 1], f, g);
    }
  }

  lemma {:induction false} SumAtLeast(ds: seq<Delivery>, i: nat, f: Delivery -> nat)
    requires i < |ds|
    ensures f(ds[i]) <= Sum(ds, f)
    decreases |ds|
  {
    if i < |ds| - 1 {
      SumAtLeast(ds[..|ds| - 1], i, f);
    }
  }

  /** Received and not yet counted out. */
  function Open(d: Delivery): nat {
    if d.phase.LetGo? || d.phase.Counted? || d.phase.Freed? then 0 else 1
  }

  function Runs(d: Delivery): nat { if d.handler.Running? then 1 else 0 }

  function SlotsOf(c: nat): Delivery -> nat {
    (d: Delivery) => if d.consumer == c && d.slot then 1 else 0
  }

  function RunsOf(c: nat): Delivery -> nat {
    (d: Delivery) => if d.consumer == c && d.handler.Running? then 1 else 0
  }

  // ---- the invariant -----------------------------------------------------

  /** A handler runs only for a delivery that holds its slot, if slots are limited. */
  predicate DeliveryOk(caps: seq<nat>, d: Delivery) {
    && d.consumer < |caps|
    && (d.slot ==> caps[d.consumer] > 0)
    && (d.handler.Running? ==> (d.phase.Handling? || d.phase.Settling? || d.phase.Counted?) && (caps[d.consumer] > 0 ==> d.slot))
    && (d.phase.WaitingForSlot? || d.phase.Processing? || d.phase.LetGo? ==> d.handler.NotStarted?)
    && (d.phase.WaitingForSlot? || d.phase.LetGo? || d.phase.Freed? ==> !d.slot)
    && (caps[d.consumer] > 0 && (d.phase.Processing? || d.phase.Handling? || d.phase.Settling? || d.phase.Counted?) ==> d.slot)
  }

  ghost predicate CountsOk(s: System) {
    && |s.sems| == |s.caps|
    && s.deliveries.n == Sum(s.ds, Open) && s.handlers.n == Sum(s.ds, Runs)
    && (forall c | 0 <= c < |s.caps| :: s.sems[c] == Sum(s.ds, SlotsOf(c)))
    && (forall c | 0 <= c < |s.caps| && s.caps[c] > 0 :: s.sems[c] <= s.caps[c])
  }

  predicate DrainOk(s: System) {
    && (!s.drain.NotDraining? ==> s.stopped)
    && (s.drain.OnDeliveries? ==> s.drain.zero == s.deliveries.zero >= 1)
    && (s.drain.BetweenWaits? || s.drain.OnHandlers? || s.drain.Drained? ==> s.deliveries.n == 0)
    && (s.drain.OnHandlers? ==> s.drain.zero == s.handlers.zero >= 1)
    && (s.drain.Drained? ==> s.handlers.n == 0)
  }

  predicate DeliveriesOk(s: System) {
    forall i {:trigger DeliveryOk(s.caps, s.ds[i])} | 0 <= i < |s.ds| :: DeliveryOk(s.caps, s.ds[i])
  }

  predicate CountersOk(s: System) {
    CounterOk(s.deliveries) && CounterOk(s.handlers)
  }

  ghost predicate Inv(s: System) {
    DeliveriesOk(s) && CountsOk(s) && DrainOk(s) && CountersOk(s)
  }

  lemma ReceiveKeepsCounts(s: System, a: Action)
    requires CountsOk(s) && Enabled(s, a) && a.Receive?
    ensures CountsOk(Next(s, a))
  {
    var v := Delivery(a.c, WaitingForSlot, NotStarted, false);
    SumAppend(s.ds, v, Open);
    SumAppend(s.ds, v, Runs);
    forall c | 0 <= c < |s.caps| ensures Sum(s.ds + [v], SlotsOf(c)) == Sum(s.ds, SlotsOf(c)) {
      SumAppend(s.ds, v, SlotsOf(c));
    }
  }

  /** Every action but these concerns one delivery. */
  predicate Concerns(a: Action) {
    a.TakeSlot? || a.GiveUpSlot? || a.EarlyAckFails? || a.StartHandler? || a.HandlerExits? || a.Resolve? || a.CountOut? || a.FreeSlot?
  }

  lemma StepKeepsDeliveries(s: System, a: Action)
    requires DeliveriesOk(s) && Enabled(s, a)
    ensures DeliveriesOk(Next(s, a))
  {
    var s' := Next(s, a);
    forall i | 0 <= i < |s'.ds| ensures DeliveryOk(s'.caps, s'.ds[i]) {
      assert i < |s.ds| ==> DeliveryOk(s.caps, s.ds[i]);
    }
  }

  lemma ConcernsKeepsSlots(s: System, a: Action, c: nat)
    requires DeliveriesOk(s) && Enabled(s, a) && Concerns(a) && |s.sems| == |s.caps| && c < |s.caps|
    requires s.sems[c] == Sum(s.ds, SlotsOf(c)) && (s.caps[c] > 0 ==> s.sems[c] <= s.caps[c])
    ensures var s' := Next(s, a);
      |s'.sems| == |s.caps| && s'.sems[c] == Sum(s'.ds, SlotsOf(c)) && (s.caps[c] > 0 ==> s'.sems[c] <= s.caps[c])
  {
    assert DeliveryOk(s.caps, s.ds[a.d]);
    SumUpdate(s.ds, a.d, Next(s, a).ds[a.d], SlotsOf(c));
  }

  lemma ConcernsKeepsSums(s: System, a: Action)
    requires DeliveriesOk(s) && Enabled(s, a) && Concerns(a)
    requires s.deliveries.n == Sum(s.ds, Open) && s.handlers.n == Sum(s.ds, Runs)
    ensures Next(s, a).deliveries.n == Sum(Next(s, a).ds, Open) && Next(s, a).handlers.n == Sum(Next(s, a).ds, Runs)
  {
    assert DeliveryOk(s.caps, s.ds[a.d]);
    SumUpdate(s.ds, a.d, Next(s, a).ds[a.d], Open);
    SumUpdate(s.ds, a.d, Next(s, a).ds[a.d], Runs);
  }

  lemma ConcernsKeepsCounts(s: System, a: Action)
    requires DeliveriesOk(s) && CountsOk(s) && Enabled(s, a) && Concerns(a)
    ensures CountsOk(Next(s, a))
  {
    var s' := Next(s, a);
    ConcernsKeepsSums(s, a);
    assert |s'.sems| == |s.caps| && s'.caps == s.caps;
    forall c | 0 <= c < |s.caps|
      ensures s'.sems[c] == Sum(s'.ds, SlotsOf(c)) && (s.caps[c] > 0 ==> s'.sems[c] <= s.caps[c])
    {
      ConcernsKeepsSlots(s, a, c);
    }
  }

  /** A count that goes down was above zero. */
  lemma DoneIsOwed(s: System, a: Action)
    requires DeliveriesOk(s) && CountsOk(s) && Enabled(s, a)
    ensures a.GiveUpSlot? || a.CountOut? ==> s.deliveries.n > 0
    ensures a.HandlerExits? ==> s.handlers.n > 0
    ensures a.StartHandler? ==> s.deliveries.n > 0
  {
    if Concerns(a) {
      SumAtLeast(s.ds, a.d, Open);
      SumAtLeast(s.ds, a.d, Runs);
    }
  }

  lemma StepKeepsCounters(s: System, a: Action)
    requires CountersOk(s) && Enabled(s, a)
    requires (a.GiveUpSlot? || a.CountOut? ==> s.deliveries.n > 0) && (a.HandlerExits? ==> s.handlers.n > 0)
    ensures CountersOk(Next(s, a))
  {
    AddKeepsOk(s.deliveries);
    AddKeepsOk(s.handlers);
    if a.GiveUpSlot? || a.CountOut? {
      DoneKeepsOk(s.deliveries);
    }
    if a.HandlerExits? {
      DoneKeepsOk(s.handlers);
    }
  }

  lemma StepKeepsDrain(s: System, a: Action)
    requires DrainOk(s) && CountersOk(s) && Enabled(s, a)
    requires (a.GiveUpSlot? || a.CountOut? || a.StartHandler? ==> s.deliveries.n > 0) && (a.HandlerExits? ==> s.handlers.n > 0)
    ensures DrainOk(Next(s, a))
  {
  }

  lemma StepKeepsInv(s: System, a: Action)
    requires Inv(s) && Enabled(s, a)
    ensures Inv(Next(s, a))
  {
    DoneIsOwed(s, a);
    StepKeepsDeliveries(s, a);
    StepKeepsCounters(s, a);
    StepKeepsDrain(s, a);
    if a.Receive? {
      ReceiveKeepsCounts(s, a);
    } else if Concerns(a) {
      ConcernsKeepsCounts(s, a);
    }
  }

  // ---- whole runs --------------------------------------------------------

  ghost predicate IsRun(run: seq<System>, acts: seq<Action>) {
    && |run| == |acts| + 1
    && run[0].sems == seq(|run[0].caps|, _ => 0) && run[0].deliveries == NONE && run[0].handlers == NONE
    && run[0].ds == [] && !run[0].stopped && run[0].drain == NotDraining
    && forall k | 0 <= k < |acts| :: Enabled(run[k], acts[k]) && run[k + 1] == Next(run[k], acts[k])
  }

  lemma {:induction false} RunKeepsInv(run: seq<System>, acts: seq<Action>, i: nat)
    requires IsRun(run, acts) && i < |run|
    ensures Inv(run[i]) && run[i].caps == run[0].caps
  {
    if i > 0 {
      RunKeepsInv(run, acts, i - 1);
      StepKeepsInv(run[i - 1], acts[i - 1]);
    }
  }

  /**
    At every moment of every run, handlers running for a consumer with a limit,
    abandoned ones included, are at most the slots taken, which are at most the
    limit; and the slot channel counts exactly the slots held.
   */
  lemma HandlersBounded(run: seq<System>, acts: seq<Action>, i: nat, c: nat)
    requires IsRun(run, acts) && i < |run| && c < |run[0].caps| && run[0].caps[c] > 0
    ensures c < |run[i].sems|
    ensures Sum(run[i].ds, RunsOf(c)) <= Sum(run[i].ds, SlotsOf(c)) == run[i].sems[c] <= run[0].caps[c]
  {
    RunKeepsInv(run, acts, i);
    var s := run[i];
    forall k | 0 <= k < |s.ds| ensures RunsOf(c)(s.ds[k]) <= SlotsOf(c)(s.ds[k]) {
      assert DeliveryOk(s.caps, s.ds[k]);
    }
    SumBelow(s.ds, RunsOf(c), SlotsOf(c));
  }

  /** When Drain returns nil after intake stopped, every delivery is dealt with and no handler runs. */
  lemma DrainedMeansIdle(run: seq<System>, acts: seq<Action>, i: nat, d: nat)
    requires IsRun(run, acts) && i < |run| && run[i].drain == Drained && d < |run[i].ds|
    ensures !run[i].ds[d].handler.Running?
    ensures run[i].ds[d].phase in {LetGo, Counted, Freed}
  {
    RunKeepsInv(run, acts, i);
    SumAtLeast(run[i].ds, d, Open);
    SumAtLeast(run[i].ds, d, Runs);
  }

  /** And it stays so. */
  lemma {:induction false} DrainedStays(run: seq<System>, acts: seq<Action>, i: nat, j: nat)
    requires IsRun(run, acts) && i <= j < |run| && run[i].drain == Drained
    ensures run[j].drain == Drained && run[j].deliveries.n == 0 && run[j].handlers.n == 0
    decreases j
  {
    RunKeepsInv(run, acts, j);
    if i < j {
      DrainedStays(run, acts, i, j - 1);
    }
  }
}
