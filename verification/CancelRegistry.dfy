/**
  Which deliveries a caller's cancel reaches (cancel.go, consumer.go). A handler
  registers its delivery and the delivery releases it, from different
  goroutines and in either order.
 */
module CancelRegistry {
  /** Correlation id to the deliveries registered under it. */
  type Table = map<string, set<nat>>

  function Entries(m: Table, id: string): set<nat> { if id in m then m[id] else {} }

  function Added(m: Table, id: string, e: nat): Table {
    if id == "" then m else m[id := Entries(m, id) + {e}]
  }

  function Removed(m: Table, id: string, e: nat): Table {
    if id !in m then m
    else if m[id] - {e} == {} then m - {id}
    else m[id := m[id] - {e}]
  }

  class Registry {
    var m: Table
    var cancelled: seq<nat>          // the contexts cancelled, in order

    constructor ()
      ensures m == map[] && cancelled == []
    {
      m, cancelled := map[], [];
    }

    method Add(id: string, e: nat)
      modifies this
      ensures m == Added(old(m), id, e) && cancelled == old(cancelled)
    {
      if id == "" {
        return;
      }
      if id !in m {
        m := m[id := {}];
      }
      m := m[id := m[id] + {e}];
    }

    method Remove(id: string, e: nat)
      modifies this
      ensures m == Removed(old(m), id, e) && cancelled == old(cancelled)
    {
      if id in m {
        var left := m[id] - {e};
        m := m[id := left];
        if |left| == 0 {
          m := m - {id};
        }
      }
    }

    /** Cancels every delivery registered under id, each once, and no other. */
    method Cancel(id: string) returns (any: bool)
      modifies this
      ensures m == old(m) && any == (Entries(m, id) != {})
      ensures old(cancelled) <= cancelled
      ensures multiset(cancelled[|old(cancelled)|..]) == multiset(Entries(m, id))
    {
      var left := if id in m then m[id] else {};
      any := |left| > 0;
      var reached: seq<nat> := [];
      while left != {}
        invariant m == old(m) && cancelled == old(cancelled) + reached
        invariant multiset(reached) + multiset(left) == multiset(Entries(m, id))
        decreases |left|
      {
        var e :| e in left;
        cancelled, reached := cancelled + [e], reached + [e];
        left := left - {e};
      }
    }
  }

  // ---- deliveries registering and releasing ------------------------------

  datatype Control = Control(id: string, released: bool, registered: bool, removing: bool)

  datatype System = System(m: Table, ctls: seq<Control>)

  datatype Action = Arrive(id: string) | Cancellable(d: nat) | Release(d: nat) | Unlisten(d: nat)

  predicate Enabled(s: System, a: Action) {
    match a
    case Arrive(_) => true
    case Cancellable(d) => d < |s.ctls|
    case Release(d) => d < |s.ctls|
    case Unlisten(d) => d < |s.ctls| && s.ctls[d].removing
  }

  function Next(s: System, a: Action): System
    requires Enabled(s, a)
  {
    match a
    case Arrive(id) => s.(ctls := s.ctls + [Control(id, false, false, false)])
    case Cancellable(d) =>
      var c := s.ctls[d];
      if c.released || c.registered then s
      else s.(m := Added(s.m, c.id, d), ctls := s.ctls[d := c.(registered := true)])
    case Release(d) =>
      var c := s.ctls[d];
      s.(ctls := s.ctls[d := c.(released := true, registered := false, removing := c.removing || c.registered)])
    case Unlisten(d) =>
      var c := s.ctls[d];
      s.(m := Removed(s.m, c.id, d), ctls := s.ctls[d := c.(removing := false)])
  }

  /** Listed under its id exactly while registered or about to be removed. */
  predicate Listed(s: System, d: nat, id: string) {
    d in Entries(s.m, id) <==> d < |s.ctls| && s.ctls[d].id == id && id != "" && (s.ctls[d].registered || s.ctls[d].removing)
  }

  ghost predicate Inv(s: System) {
    && (forall d: nat, id {:trigger Listed(s, d, id)} :: Listed(s, d, id))
    && (forall id | id in s.m :: s.m[id] != {})
    && (forall d | 0 <= d < |s.ctls| :: s.ctls[d].registered ==> !s.ctls[d].released && !s.ctls[d].removing)
    && (forall d | 0 <= d < |s.ctls| :: s.ctls[d].removing ==> s.ctls[d].released)
  }

  lemma StepKeepsInv(s: System, a: Action)
    requires Inv(s) && Enabled(s, a)
    ensures Inv(Next(s, a))
  {
    var s' := Next(s, a);
    forall d: nat, id ensures Listed(s', d, id) {
      assert Listed(s, d, id);
    }
  }

  predicate IsRun(run: seq<System>, acts: seq<Action>) {
    && |run| == |acts| + 1 && run[0] == System(map[], [])
    && forall k | 0 <= k < |acts| :: Enabled(run[k], acts[k]) && run[k + 1] == Next(run[k], acts[k])
  }

  lemma {:induction false} RunKeepsInv(run: seq<System>, acts: seq<Action>, i: nat)
    requires IsRun(run, acts) && i < |run|
    ensures Inv(run[i])
  {
    if i > 0 {
      RunKeepsInv(run, acts, i - 1);
      StepKeepsInv(run[i - 1], acts[i - 1]);
    }
  }

  /** A delivery released and unlisted is registered nowhere, at once and ever after; and no empty set is kept. */
  lemma {:induction false} NoRegistrationOutlives(run: seq<System>, acts: seq<Action>, i: nat, j: nat, d: nat, id: string)
    requires IsRun(run, acts) && i <= j < |run| && d < |run[i].ctls|
    requires run[i].ctls[d].released && !run[i].ctls[d].removing
    ensures d < |run[j].ctls| && run[j].ctls[d].released && !run[j].ctls[d].removing
    ensures d !in Entries(run[j].m, id)
    ensures id in run[j].m ==> run[j].m[id] != {}
    decreases j
  {
    RunKeepsInv(run, acts, j);
    if i < j {
      NoRegistrationOutlives(run, acts, i, j - 1, d, id);
      RunKeepsInv(run, acts, j - 1);
    }
    assert Listed(run[j], d, id);
  }

  /** A cancel finds exactly the deliveries of that id that are registered and not yet unlisted. */
  lemma CancelFindsExactly(run: seq<System>, acts: seq<Action>, i: nat, d: nat, id: string)
    requires IsRun(run, acts) && i < |run|
    ensures d in Entries(run[i].m, id) <==>
              d < |run[i].ctls| && run[i].ctls[d].id == id && id != "" && (run[i].ctls[d].registered || run[i].ctls[d].removing)
  {
    RunKeepsInv(run, acts, i);
    assert Listed(run[i], d, id);
  }
}
