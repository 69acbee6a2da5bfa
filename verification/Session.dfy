/** The session's own state (session.go): readiness, registrations and the end. */
module Session {
  import opened Basics

  datatype DoneError = ErrClosed | GaveUp(attempts: nat)

  /** What the session's mutex protects. Ready channels are numbered as they are made. */
  datatype Core = Core(
    gen: nat,
    isReady: bool,
    doneErr: Option<DoneError>,
    comps: seq<nat>,           // registrations in order
    readyChan: nat,
    closes: seq<nat>)          // every close of a ready channel

  /** What current() reports. */
  predicate Ready(c: Core) { c.isReady && c.doneErr.None? }

  /** A new connection is in place. */
  function AfterInstall(c: Core): Core { c.(gen := c.gen + 1) }

  function AfterMarkReady(c: Core): Core {
    if c.doneErr.Some? || c.isReady then c else c.(isReady := true, closes := c.closes + [c.readyChan])
  }

  function AfterMarkNotReady(c: Core): Core {
    if c.isReady then c.(isReady := false, readyChan := c.readyChan + 1) else c
  }

  function AfterFinish(c: Core, e: DoneError): Core {
    if c.doneErr.Some? then c else c.(doneErr := Some(e))
  }

  function Removed(comps: seq<nat>, r: nat): seq<nat> {
    if comps == [] then [] else if comps[0] == r then comps[1..] else [comps[0]] + Removed(comps[1..], r)
  }

  lemma {:induction false} RemovedMembers(comps: seq<nat>, r: nat, x: nat)
    ensures x in Removed(comps, r) ==> x in comps
    ensures x in comps && x != r ==> x in Removed(comps, r)
  {
    if comps != [] && comps[0] != r {
      RemovedMembers(comps[1..], r, x);
    }
  }

  lemma {:induction false} RemovedAfter(comps: seq<nat>, i: nat, r: nat)
    requires i <= |comps| && forall k | 0 <= k < i :: comps[k] != r
    ensures i == |comps| ==> Removed(comps, r) == comps
    ensures i < |comps| && comps[i] == r ==> Removed(comps, r) == comps[..i] + comps[i + 1..]
  {
    if i > 0 {
      RemovedAfter(comps[1..], i - 1, r);
    }
  }

  class SessionState {
    var gen: nat
    var isReady: bool
    var doneErr: Option<DoneError>
    var comps: seq<nat>
    var readyChan: nat
    ghost var closes: seq<nat>

    ghost function View(): Core
      reads this
    {
      Core(gen, isReady, doneErr, comps, readyChan, closes)
    }

    constructor ()
      ensures View() == Core(0, false, None, [], 0, [])
    {
      gen, isReady, doneErr, comps, readyChan, closes := 0, false, None, [], 0, [];
    }

    method Install()
      modifies this
      ensures View() == AfterInstall(old(View()))
    {
      gen := gen + 1;
    }

    method MarkReady()
      modifies this
      ensures View() == AfterMarkReady(old(View()))
    {
      if doneErr.Some? {
        return;
      }
      if !isReady {
        isReady := true;
        closes := closes + [readyChan];
      }
    }

    method MarkNotReady()
      modifies this
      ensures View() == AfterMarkNotReady(old(View()))
    {
      if isReady {
        isReady := false;
        readyChan := readyChan + 1;
      }
    }

    method Finish(e: DoneError)
      modifies this
      ensures View() == AfterFinish(old(View()), e)
    {
      if doneErr.None? {
        doneErr := Some(e);
      }
    }

    method Register(r: nat)
      modifies this
      ensures View() == old(View()).(comps := old(comps) + [r])
    {
      comps := comps + [r];
    }

    /** Removes the first registration equal to r, and only that one. */
    method Unregister(r: nat)
      modifies this
      ensures View() == old(View()).(comps := Removed(old(comps), r))
    {
      var i := 0;
      while i < |comps|
        invariant 0 <= i <= |comps|
        invariant View() == old(View())
        invariant forall k | 0 <= k < i :: comps[k] != r
      {
        if comps[i] == r {
          RemovedAfter(comps, i, r);
          comps := comps[..i] + comps[i + 1..];
          return;
        }
        i := i + 1;
      }
      RemovedAfter(comps, i, r);
    }

    /** The generation a caller may publish on, and whether it may. */
    method Current() returns (g: nat, ready: bool)
      ensures g == gen && ready == Ready(View())
    {
      return gen, isReady && doneErr.None?;
    }
  }

  // ---- reconnection delay ------------------------------------------------

  /** init * m^n */
  function Scaled(init: real, m: real, n: nat): real {
    if n == 0 then init else Scaled(init, m, n - 1) * m
  }

  function Min(a: real, b: real): real { if a < b then a else b }

  lemma Product(a: real, b: real)
    requires a >= 0.0 && b >= 0.0
    ensures a * b >= 0.0
  {
  }

  lemma {:induction false} ScaledGrows(init: real, m: real, n: nat)
    requires init >= 0.0 && m >= 1.0
    ensures 0.0 <= Scaled(init, m, n) <= Scaled(init, m, n + 1)
  {
    if n > 0 {
      ScaledGrows(init, m, n - 1);
    }
    Product(Scaled(init, m, n), m - 1.0);
  }

  lemma {:induction false} StaysAbove(init: real, m: real, max: real, i: nat, n: nat)
    requires m >= 1.0 && init >= 0.0 && i <= n && Scaled(init, m, i) >= max
    ensures Scaled(init, m, n) >= max
    decreases n - i
  {
    if i < n {
      ScaledGrows(init, m, i);
      StaysAbove(init, m, max, i + 1, n);
    }
  }

  function Jittered(base: real, jitter: real): int { (base + jitter * (0.3 * base)).Floor }

  lemma JitterBounds(base: real, jitter: real)
    requires base >= 0.0 && 0.0 <= jitter < 1.0
    ensures base - 1.0 < Jittered(base, jitter) as real <= base + 0.3 * base
  {
    Product(jitter, 0.3 * base);
    Product(1.0 - jitter, 0.3 * base);
    var x := base + jitter * (0.3 * base);
    assert x.Floor as real <= x < x.Floor as real + 1.0;
  }

  /**
    The wait before an attempt, for a jitter drawn from [0, 1): the exponential
    delay capped at the maximum, plus up to 30 percent, in whole nanoseconds.
   */
  method Backoff(init: real, m: real, max: real, attempt: nat, jitter: real) returns (delay: int)
    requires init >= 0.0 && max >= 0.0 && m >= 1.0 && attempt >= 1 && 0.0 <= jitter < 1.0
    ensures var base := Min(Scaled(init, m, attempt - 1), max);
      base - 1.0 < delay as real <= base + 0.3 * base
  {
    var base := init;
    var i := 1;
    while i < attempt && base < max
      invariant 1 <= i <= attempt
      invariant base == Scaled(init, m, i - 1)
    {
      base := base * m;
      i := i + 1;
    }
    if i < attempt {
      StaysAbove(init, m, max, i - 1, attempt - 1);
    }
    base := Min(base, max);
    ScaledGrows(init, m, attempt - 1);
    assert base == Min(Scaled(init, m, attempt - 1), max) >= 0.0;
    JitterBounds(base, jitter);
    delay := Jittered(base, jitter);
  }

  /** The base delay never shrinks from one attempt to the next and never passes the maximum. */
  lemma BackoffGrows(init: real, m: real, max: real, n: nat)
    requires init >= 0.0 && max >= 0.0 && m >= 1.0
    ensures Min(Scaled(init, m, n), max) <= Min(Scaled(init, m, n + 1), max) <= max
  {
    ScaledGrows(init, m, n);
  }
}
