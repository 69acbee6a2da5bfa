/**
  The allowance all streams share (dispatcher.go): an atomic counter outside the
  streams' locks. A push raises it before it checks the limits, a take lowers it
  after the chunk is out, and a drop lowers it before the buffer is cleared, while
  other streams push, drain, fail and end.
 */
module StreamBuffers {
  import opened Basics
  import opened ProtoWire
  import opened StreamClient
  import H = Headers

  /** How far the holder of a stream's lock has come. */
  datatype Hold =
    | Idle
    | Reserved(body: Bytes, final: bool, fits: bool)   // the counter has been raised by |body|
    | Undone                                           // and lowered again; the buffer is still to be dropped
    | Dropping                                         // the counter has been lowered; the buffer is still there
    | Taking(n: nat)                                   // a chunk of n bytes is out; the counter is still to be lowered

  datatype Slot = Slot(c: Client, hold: Hold)

  /** Every stream the process ever opened; late frames still find theirs. */
  datatype Buffers = Buffers(lim: Limits, counter: int, slots: seq<Slot>)

  datatype Action =
    | Open
    | PushBegins(id: nat, dl: Delivery)
    | PushEnds(id: nat)
    | PushDrops(id: nat)
    | TakeNext(id: nat)
    | TakeEnds(id: nat)
    | Fail(id: nat, e: StreamError)
    | Release(id: nat)
    | Clear(id: nat)

  predicate Enabled(b: Buffers, a: Action) {
    match a
    case Open => true
    case PushEnds(id) => id < |b.slots| && b.slots[id].hold.Reserved?
    case PushDrops(id) => id < |b.slots| && b.slots[id].hold.Undone?
    case TakeEnds(id) => id < |b.slots| && b.slots[id].hold.Taking?
    case Clear(id) => id < |b.slots| && b.slots[id].hold.Dropping?
    case _ => a.id < |b.slots| && b.slots[a.id].hold.Idle?
  }

  function Put(b: Buffers, id: nat, c: Client, hold: Hold, counter: int): Buffers
    requires id < |b.slots|
  {
    b.(slots := b.slots[id := Slot(c, hold)], counter := counter)
  }

  /** The error is set and the counter lowered; clearing the buffer is the next step. */
  function BeginDrop(b: Buffers, id: nat, c: Client, e: StreamError): Buffers
    requires id < |b.slots|
  {
    Put(b, id, c.(err := Some(e), ended := true), Dropping, b.counter - c.bytes)
  }

  function Next(b: Buffers, a: Action): Buffers
    requires Enabled(b, a)
  {
    match a
    case Open => b.(slots := b.slots + [Slot(FRESH, Idle)])
    case PushBegins(id, dl) =>
      var c, final := b.slots[id].c, H.StreamFinal(dl.headers);
      if c.ended then b
      else
        (match OrderOf(c, dl.headers)
         case Repeated => Put(b, id, EndIf(c, final), Idle, b.counter)
         case Lost(got, expected) => BeginDrop(b, id, c, OutOfSequence(got, expected))
         case InOrder(c1) =>
           if dl.body == [] then Put(b, id, EndIf(c1, final), Idle, b.counter)
           else
             var total := b.counter + |dl.body|;
             Put(b, id, c1, Reserved(dl.body, final, Fits(c1, b.lim, |dl.body|, total)), total))
    case PushEnds(id) =>
      var Slot(c, Reserved(body, final, fits)) := b.slots[id];
      if fits then Put(b, id, EndIf(Buffered(c, body), final), Idle, b.counter)
      else Put(b, id, c, Undone, b.counter - |body|)
    case PushDrops(id) => BeginDrop(b, id, b.slots[id].c, Backpressure)
    case TakeNext(id) =>
      var c := b.slots[id].c;
      if c.err.Some? || c.chunks == [] then b
      else
        var n := |c.chunks[0]|;
        Put(b, id, c.(chunks := c.chunks[1..], bytes := c.bytes - n), Taking(n), b.counter)
    case TakeEnds(id) => Put(b, id, b.slots[id].c, Idle, b.counter - b.slots[id].hold.n)
    case Fail(id, e) => if b.slots[id].c.ended then b else BeginDrop(b, id, b.slots[id].c, e)
    case Release(id) =>
      var c := b.slots[id].c;
      BeginDrop(b, id, c, if c.err.Some? then c.err.value else Released)
    case Clear(id) => Put(b, id, b.slots[id].c.(chunks := [], bytes := 0), Idle, b.counter)
  }

  /** The lock holder of stream id finishes what it is doing. */
  function Finish(b: Buffers, id: nat): Buffers
    requires id < |b.slots|
    decreases if b.slots[id].hold.Reserved? then 3 else if b.slots[id].hold.Undone? then 2 else if b.slots[id].hold.Idle? then 0 else 1
  {
    match b.slots[id].hold
    case Idle => b
    case Reserved(_, _, _) => Finish(Next(b, PushEnds(id)), id)
    case Undone => Finish(Next(b, PushDrops(id)), id)
    case Dropping => Next(b, Clear(id))
    case Taking(_) => Next(b, TakeEnds(id))
  }

  /** Stream id is idle, as the given stream, with the given counter. */
  predicate Ends(f: Buffers, id: nat, r: (Client, int)) {
    id < |f.slots| && f.slots[id] == Slot(r.0, Idle) && f.counter == r.1
  }

  /** Left alone, the steps of a push amount to the one the stream's method makes. */
  lemma PushInOneGo(b: Buffers, id: nat, dl: Delivery)
    requires id < |b.slots| && b.slots[id].hold.Idle?
    ensures Ends(Finish(Next(b, PushBegins(id, dl)), id), id, AfterPush(b.slots[id].c, b.lim, b.counter, dl))
  {
    var b1 := Next(b, PushBegins(id, dl));
    if b1.slots[id].hold.Reserved? {
      var b2 := Next(b1, PushEnds(id));
      assert Finish(b1, id) == Finish(b2, id);
      if b2.slots[id].hold.Undone? {
        var b3 := Next(b2, PushDrops(id));
        assert Finish(b2, id) == Finish(b3, id) == Next(b3, Clear(id));
      }
    }
  }

  /** And so do those of a take, a failure and a release. */
  lemma OthersInOneGo(b: Buffers, id: nat, e: StreamError)
    requires id < |b.slots| && b.slots[id].hold.Idle?
    ensures Ends(Finish(Next(b, TakeNext(id)), id), id, AfterNext(b.slots[id].c, b.counter))
    ensures Ends(Finish(Next(b, Action.Fail(id, e)), id), id, AfterFail(b.slots[id].c, b.counter, e))
    ensures Ends(Finish(Next(b, Release(id)), id), id, AfterRelease(b.slots[id].c, b.counter))
  {
  }

  // ---- sums --------------------------------------------------------------

  function Sum(s: seq<Slot>, f: Slot -> int): int
    decreases |s|
  {
    if s == [] then 0 else Sum(s[..|s| - 1], f) + f(s[|s| - 1])
  }

  lemma {:induction false} SumUpdate(s: seq<Slot>, i: nat, v: Slot, f: Slot -> int)
    requires i < |s|
    ensures Sum(s[i := v], f) == Sum(s, f) - f(s[i]) + f(v)
    decreases |s|
  {
    var n := |s| - 1;
    if i < n {
      assert s[i := v][..n] == s[..n][i := v];
      SumUpdate(s[..n], i, v, f);
    } else {
      assert s[i := v][..n] == s[..n];
    }
  }

  lemma {:induction false} SumBelow(s: seq<Slot>, f: Slot -> int, g: Slot -> int)
    requires forall i | 0 <= i < |s| :: f(s[i]) <= g(s[i])
    ensures Sum(s, f) <= Sum(s, g)
    decreases |s|
  {
    if s != [] {
      SumBelow(s[..|s| - 1], f, g);
    }
  }

  lemma {:induction false} SumZero(s: seq<Slot>, f: Slot -> int)
    requires forall i | 0 <= i < |s| :: f(s[i]) == 0
    ensures Sum(s, f) == 0
    decreases |s|
  {
    if s != [] {
      SumZero(s[..|s| - 1], f);
    }
  }

  lemma {:induction false} SumAtLeast(s: seq<Slot>, i: nat, f: Slot -> int)
    requires i < |s| && forall j | 0 <= j < |s| :: f(s[j]) >= 0
    ensures Sum(s, f) >= f(s[i])
    decreases |s|
  {
    var n := |s| - 1;
    if i < n {
      SumAtLeast(s[..n], i, f);
    } else {
      SumNotNegative(s[..n], f);
    }
  }

  lemma {:induction false} SumNotNegative(s: seq<Slot>, f: Slot -> int)
    requires forall j | 0 <= j < |s| :: f(s[j]) >= 0
    ensures Sum(s, f) >= 0
    decreases |s|
  {
    if s != [] {
      SumNotNegative(s[..|s| - 1], f);
    }
  }

  /** What is in the stream's buffer. */
  function Buffering(s: Slot): int { s.c.bytes }

  /** What is in its buffer and has not been given back to the allowance. */
  function Owned(s: Slot): int { if s.hold.Dropping? then 0 else s.c.bytes }

  /** What the stream has charged to the counter. */
  function Charged(s: Slot): int {
    Owned(s) + if s.hold.Reserved? then |s.hold.body| else if s.hold.Taking? then s.hold.n else 0
  }

  /** What the stream owns now or is about to. */
  function Committed(s: Slot): int {
    Owned(s) + if s.hold.Reserved? && s.hold.fits then |s.hold.body| else 0
  }

  // ---- the invariant -----------------------------------------------------

  predicate SlotOk(lim: Limits, s: Slot) {
    && s.c.bytes == Lens(s.c.chunks)
    && |s.c.chunks| <= lim.chunks && s.c.bytes <= lim.bytes && s.c.bytes <= lim.total
    && (s.c.err.Some? ==> s.c.ended && (s.hold.Dropping? || s.c.chunks == []))
    && (s.hold.Dropping? ==> s.c.err.Some?)
    && (s.hold.Reserved? && s.hold.fits ==>
          && |s.c.chunks| + 1 <= lim.chunks
          && s.c.bytes + |s.hold.body| <= lim.bytes && s.c.bytes + |s.hold.body| <= lim.total)
    && (s.hold.Reserved? || s.hold.Undone? || s.hold.Taking? ==> s.c.err.None?)
  }

  ghost predicate Inv(b: Buffers) {
    && (forall i | 0 <= i < |b.slots| :: SlotOk(b.lim, b.slots[i]))
    && b.counter == Sum(b.slots, Charged)
    && Sum(b.slots, Committed) <= b.lim.total
  }

  /** Replacing one stream keeps the invariant when the counter moves with its charge. */
  lemma PutKeepsInv(b: Buffers, id: nat, c: Client, hold: Hold, counter: int)
    requires Inv(b) && id < |b.slots|
    requires var v := Slot(c, hold);
      && SlotOk(b.lim, v)
      && counter - b.counter == Charged(v) - Charged(b.slots[id])
      && (Committed(v) <= Committed(b.slots[id]) || (Committed(v) == Charged(v) && counter <= b.lim.total))
    ensures Inv(Put(b, id, c, hold, counter))
  {
    var v := Slot(c, hold);
    SumUpdate(b.slots, id, v, Charged);
    SumUpdate(b.slots, id, v, Committed);
    SumBelow(b.slots[id := v], Committed, Charged);
  }

  /** A step that puts its stream back as it was changes nothing. */
  lemma StepPuts(b: Buffers, a: Action)
    requires Enabled(b, a) && !a.Open?
    ensures var b' := Next(b, a);
      && |b'.slots| == |b.slots| && a.id < |b.slots|
      && b' == Put(b, a.id, b'.slots[a.id].c, b'.slots[a.id].hold, b'.counter)
  {
    assert b.slots[a.id := b.slots[a.id]] == b.slots;
  }

  lemma PushBeginsOk(b: Buffers, a: Action)
    requires Inv(b) && Enabled(b, a) && (a.PushBegins? || a.PushDrops? || a.Fail? || a.Release?)
    ensures Inv(Next(b, a))
  {
    var b' := Next(b, a);
    StepPuts(b, a);
    ChargeIsCounted(b, a.id);
    PutKeepsInv(b, a.id, b'.slots[a.id].c, b'.slots[a.id].hold, b'.counter);
  }

  lemma ChargeIsCounted(b: Buffers, id: nat)
    requires Inv(b) && id < |b.slots|
    ensures Charged(b.slots[id]) <= b.counter
  {
    forall i | 0 <= i < |b.slots| ensures Charged(b.slots[i]) >= 0 {
      assert SlotOk(b.lim, b.slots[i]);
    }
    SumAtLeast(b.slots, id, Charged);
  }

  lemma PushEndsOk(b: Buffers, a: Action)
    requires Inv(b) && Enabled(b, a) && a.PushEnds?
    ensures Inv(Next(b, a))
  {
    var b' := Next(b, a);
    StepPuts(b, a);
    LensSnoc(b.slots[a.id].c.chunks, b.slots[a.id].hold.body);
    PutKeepsInv(b, a.id, b'.slots[a.id].c, b'.slots[a.id].hold, b'.counter);
  }

  lemma TakeOk(b: Buffers, a: Action)
    requires Inv(b) && Enabled(b, a) && (a.TakeNext? || a.TakeEnds? || a.Clear?)
    ensures Inv(Next(b, a))
  {
    var b' := Next(b, a);
    StepPuts(b, a);
    PutKeepsInv(b, a.id, b'.slots[a.id].c, b'.slots[a.id].hold, b'.counter);
  }

  lemma StepKeepsInv(b: Buffers, a: Action)
    requires Inv(b) && Enabled(b, a)
    ensures Inv(Next(b, a)) && Next(b, a).lim == b.lim
  {
    match a
    case Open => assert Next(b, a).slots[..|b.slots|] == b.slots;
    case PushEnds(_) => PushEndsOk(b, a);
    case TakeNext(_) => TakeOk(b, a);
    case TakeEnds(_) => TakeOk(b, a);
    case Clear(_) => TakeOk(b, a);
    case _ => PushBeginsOk(b, a);
  }

  // ---- whole runs --------------------------------------------------------

  ghost predicate IsRun(run: seq<Buffers>, acts: seq<Action>) {
    && |run| == |acts| + 1
    && run[0].counter == 0 && run[0].slots == []
    && forall k | 0 <= k < |acts| :: Enabled(run[k], acts[k]) && run[k + 1] == Next(run[k], acts[k])
  }

  lemma {:induction false} RunKeepsInv(run: seq<Buffers>, acts: seq<Action>, i: nat)
    requires IsRun(run, acts) && i < |run|
    ensures Inv(run[i]) && run[i].lim == run[0].lim
  {
    if i > 0 {
      RunKeepsInv(run, acts, i - 1);
      StepKeepsInv(run[i - 1], acts[i - 1]);
    }
  }

  /**
    At every moment of every run: what the streams buffer and have not given back
    is within the total limit, and each buffer within its own limits. The counter
    is exactly that, plus what pushes have reserved and takes are about to give
    back. A stream that failed or was released holds nothing once its buffer is
    cleared, whatever arrives for it later.
   */
  lemma AllowanceHolds(run: seq<Buffers>, acts: seq<Action>, i: nat)
    requires IsRun(run, acts) && i < |run|
    ensures Sum(run[i].slots, Owned) <= run[0].lim.total
    ensures run[i].counter == Sum(run[i].slots, Charged)
    ensures forall id | 0 <= id < |run[i].slots| ::
              var s := run[i].slots[id];
              && s.c.bytes == Lens(s.c.chunks) <= run[0].lim.bytes && |s.c.chunks| <= run[0].lim.chunks
              && (s.c.err.Some? && !s.hold.Dropping? ==> s.c.chunks == [])
  {
    RunKeepsInv(run, acts, i);
    SumBelow(run[i].slots, Owned, Committed);
  }

  /** Whenever no buffer is being dropped, all the buffers together are within the total limit. */
  lemma TotalHolds(run: seq<Buffers>, acts: seq<Action>, i: nat)
    requires IsRun(run, acts) && i < |run|
    requires forall id | 0 <= id < |run[i].slots| :: !run[i].slots[id].hold.Dropping?
    ensures Sum(run[i].slots, Buffering) <= run[0].lim.total
  {
    AllowanceHolds(run, acts, i);
    SumBelow(run[i].slots, Buffering, Owned);
  }

  /** With no stream's lock held the counter is what is buffered; with every stream failed or released, zero. */
  lemma CounterReturnsToZero(run: seq<Buffers>, acts: seq<Action>, i: nat)
    requires IsRun(run, acts) && i < |run|
    requires forall id | 0 <= id < |run[i].slots| :: run[i].slots[id].hold.Idle?
    ensures run[i].counter == Sum(run[i].slots, Buffering)
    ensures (forall id | 0 <= id < |run[i].slots| :: run[i].slots[id].c.err.Some?) ==> run[i].counter == 0
  {
    RunKeepsInv(run, acts, i);
    var s := run[i].slots;
    SumBelow(s, Buffering, Charged);
    SumBelow(s, Charged, Buffering);
    if forall id | 0 <= id < |s| :: s[id].c.err.Some? {
      forall id | 0 <= id < |s| ensures Charged(s[id]) == 0 {
        assert SlotOk(run[i].lim, s[id]);
      }
      SumZero(s, Charged);
    }
  }

  /** A released stream stays failed: nothing that arrives later can revive it. */
  lemma ReleasedStays(b: Buffers, id: nat, a: Action)
    requires Inv(b) && Enabled(b, a) && id < |b.slots| && b.slots[id].c.err.Some?
    ensures id < |Next(b, a).slots| && Next(b, a).slots[id].c.err.Some?
  {
    assert SlotOk(b.lim, b.slots[id]);
  }

  // ---- a drop in progress can be over the total --------------------------

  lemma Extend(run: seq<Buffers>, acts: seq<Action>, a: Action) returns (run': seq<Buffers>, acts': seq<Action>)
    requires IsRun(run, acts) && Enabled(run[|acts|], a)
    ensures IsRun(run', acts') && run'[|acts'|] == Next(run[|acts|], a) && run'[0] == run[0]
  {
    run', acts' := run + [Next(run[|acts|], a)], acts + [a];
    forall k | 0 <= k < |acts'| ensures Enabled(run'[k], acts'[k]) && run'[k + 1] == Next(run'[k], acts'[k]) {
      if k < |acts| {
        assert run'[k] == run[k] && run'[k + 1] == run[k + 1] && acts'[k] == acts[k];
      }
    }
  }

  /** A stream that held one byte and is being released. */
  const LEAVING := Slot(Client(-1, [[0]], 1, Some(Released), true), Dropping)

  function Leavers(n: nat): (s: seq<Slot>)
    ensures |s| == n && Sum(s, Buffering) == n
  {
    if n == 0 then [] else
      var s := Leavers(n - 1);
      assert (s + [LEAVING])[..n - 1] == s;
      s + [LEAVING]
  }

  /** The steps of one more stream: opened, given a byte, released and not yet cleared. */
  lemma OneMoreLeaves(lim: Limits, s: seq<Slot>)
    requires lim.chunks >= 1 && lim.bytes >= 1 && lim.total >= 1
    ensures Next(Buffers(lim, 0, s), Open) == Buffers(lim, 0, s + [Slot(FRESH, Idle)])
    ensures var b := Buffers(lim, 0, s + [Slot(FRESH, Idle)]);
      Next(b, PushBegins(|s|, ONE_BYTE)) == Buffers(lim, 1, s + [Slot(FRESH, Reserved([0], false, true))])
    ensures var b := Buffers(lim, 1, s + [Slot(FRESH, Reserved([0], false, true))]);
      Next(b, PushEnds(|s|)) == Buffers(lim, 1, s + [Slot(Buffered(FRESH, [0]), Idle)])
    ensures var b := Buffers(lim, 1, s + [Slot(Buffered(FRESH, [0]), Idle)]);
      Next(b, Release(|s|)) == Buffers(lim, 0, s + [LEAVING])
  {
    assert Buffered(FRESH, [0]).chunks == [[0]];
    ReplaceLast(s, Slot(FRESH, Idle), Slot(FRESH, Reserved([0], false, true)));
    ReplaceLast(s, Slot(FRESH, Reserved([0], false, true)), Slot(Buffered(FRESH, [0]), Idle));
    ReplaceLast(s, Slot(Buffered(FRESH, [0]), Idle), LEAVING);
  }

  lemma ReplaceLast(s: seq<Slot>, x: Slot, y: Slot)
    ensures (s + [x])[|s| := y] == s + [y]
  {
  }

  const ONE_BYTE := Delivery(map[], [0])

  /** A released stream has given its bytes back before its buffer is cleared, so the next may take them. */
  lemma {:induction false} ManyLeaving(lim: Limits, n: nat) returns (run: seq<Buffers>, acts: seq<Action>)
    requires lim.chunks >= 1 && lim.bytes >= 1 && lim.total >= 1
    ensures IsRun(run, acts) && run[0].lim == lim && run[|acts|] == Buffers(lim, 0, Leavers(n))
  {
    if n == 0 {
      run, acts := [Buffers(lim, 0, [])], [];
    } else {
      run, acts := ManyLeaving(lim, n - 1);
      OneMoreLeaves(lim, Leavers(n - 1));
      run, acts := Extend(run, acts, Open);
      run, acts := Extend(run, acts, PushBegins(n - 1, ONE_BYTE));
      run, acts := Extend(run, acts, PushEnds(n - 1));
      run, acts := Extend(run, acts, Release(n - 1));
    }
  }

  ghost predicate AlwaysWithin(lim: Limits) {
    forall run: seq<Buffers>, acts: seq<Action>, i: nat | IsRun(run, acts) && run[0].lim == lim && i < |run| ::
      Sum(run[i].slots, Buffering) <= lim.total
  }

  /**
    Under given limits the buffers are together within the total at every moment of
    every run if and only if the limits let nothing be buffered at all: otherwise
    enough streams released at once hold more than the total until they are cleared.
   */
  lemma AlwaysWithinIff(lim: Limits)
    ensures AlwaysWithin(lim) <==> lim.chunks == 0 || lim.bytes == 0 || lim.total == 0
  {
    if lim.chunks == 0 || lim.bytes == 0 || lim.total == 0 {
      forall run: seq<Buffers>, acts: seq<Action>, i: nat | IsRun(run, acts) && run[0].lim == lim && i < |run|
        ensures Sum(run[i].slots, Buffering) <= lim.total
      {
        RunKeepsInv(run, acts, i);
        forall id | 0 <= id < |run[i].slots| ensures Buffering(run[i].slots[id]) == 0 {
          assert SlotOk(lim, run[i].slots[id]);
        }
        SumZero(run[i].slots, Buffering);
      }
    } else {
      var run, acts := ManyLeaving(lim, lim.total + 1);
      assert Sum(run[|acts|].slots, Buffering) == lim.total + 1;
    }
  }
}
