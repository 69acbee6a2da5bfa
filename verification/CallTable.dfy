/**
  The table of calls awaiting a reply (dispatcher.go): each attempt to publish
  a call registers a fresh pending call under the call's correlation id; replies
  and failures take it out of the table first and resolve it afterwards.
 */
module CallTable {
  import opened Basics

  type Id = string

  datatype Outcome = Reply(id: Id, body: nat) | Failure(why: nat)

  // ---- the objects -------------------------------------------------------

  class PendingCall {
    var done: Option<Outcome>        // a channel with room for one

    constructor ()
      ensures done == None
    {
      done := None;
    }

    /** The first outcome wins; resolve never blocks. */
    method Resolve(r: Outcome)
      modifies this
      ensures done == if old(done).None? then Some(r) else old(done)
    {
      if done.None? {
        done := Some(r);
      }
    }
  }

  class Dispatcher {
    var calls: map<Id, PendingCall>

    constructor ()
      ensures calls == map[]
    {
      calls := map[];
    }

    method Register(id: Id) returns (call: PendingCall)
      modifies this
      ensures fresh(call) && call.done == None && calls == old(calls)[id := call]
    {
      call := new PendingCall();
      calls := calls[id := call];
    }

    method Forget(id: Id, call: PendingCall)
      modifies this
      ensures calls == if id in old(calls) && old(calls)[id] == call then old(calls) - {id} else old(calls)
    {
      if id in calls && calls[id] == call {
        calls := calls - {id};
      }
    }

    /** A reply resolves the call registered under its id, and takes it out of the table. */
    method Route(id: Id, body: nat)
      modifies this, calls.Values
      ensures calls == old(calls) - {id}
      ensures forall c | c in old(calls).Values ::
                c.done == if id in old(calls) && c == old(calls)[id] && old(c.done).None? then Some(Reply(id, body)) else old(c.done)
    {
      if id !in calls {
        return;
      }
      var call := calls[id];
      calls := calls - {id};
      call.Resolve(Reply(id, body));
    }

    /** Every call in flight fails, each at most once, and the table is empty. */
    method FailPending(why: nat)
      modifies this, calls.Values
      ensures calls == map[]
      ensures forall c | c in old(calls).Values ::
                c.done == if old(c.done).None? then Some(Failure(why)) else old(c.done)
    {
      var taken := calls;
      calls := map[];
      var left := taken.Values;
      while left != {}
        invariant left <= taken.Values == old(calls).Values && calls == map[]
        invariant forall c | c in left :: c.done == old(c.done)
        invariant forall c | c in taken.Values && c !in left ::
                    c.done == if old(c.done).None? then Some(Failure(why)) else old(c.done)
        decreases |left|
      {
        var c :| c in left;
        c.Resolve(Failure(why));
        left := left - {c};
      }
    }
  }

  // ---- the machine -------------------------------------------------------

  datatype Pc =
    | Choosing                      // waiting for a channel, before an attempt
    | Publishing(obj: nat)
    | Retiring(obj: nat, again: bool)  // the publish failed; about to forget the attempt
    | Waiting(obj: nat)
    | Leaving(obj: nat)             // the deadline passed; about to forget the call
    | Returned(got: Option<Outcome>, from: Option<nat>)

  datatype Caller = Caller(id: Id, pc: Pc)

  /** A pending call: which caller made it and what it has been resolved with. */
  datatype Pending = Pending(caller: nat, done: Option<Outcome>)

  /** An outcome on its way: its pending call has left the table and is not yet resolved. */
  datatype Task = Task(obj: nat, r: Outcome)

  datatype System = System(
    callers: seq<Caller>,
    objs: seq<Pending>,
    table: map<Id, nat>,
    tasks: seq<Task>,
    dropped: nat)                   // outcomes that found their pending call already resolved

  datatype Action =
    | Begin(id: Id)
    | Register(k: nat)
    | PublishOk(k: nat)
    | PublishFails(k: nat, again: bool)
    | ForgetAttempt(k: nat)
    | Receive(k: nat)
    | Deadline(k: nat)
    | ForgetCall(k: nat)
    | GiveUp(k: nat)                // no channel: closed, not ready, or the context ended
    | RouteReply(id: Id, body: nat)
    | FailAll(why: nat, order: seq<nat>)
    | ResolveTask(i: nat)

  predicate InTable(s: System, obj: nat) {
    exists id :: id in s.table && s.table[id] == obj
  }

  predicate Enabled(s: System, a: Action) {
    match a
    // correlation ids are fresh
    case Begin(id) => forall k | 0 <= k < |s.callers| :: s.callers[k].id != id
    case Register(k) => k < |s.callers| && s.callers[k].pc.Choosing?
    case PublishOk(k) => k < |s.callers| && s.callers[k].pc.Publishing?
    case PublishFails(k, _) => k < |s.callers| && s.callers[k].pc.Publishing?
    case ForgetAttempt(k) => k < |s.callers| && s.callers[k].pc.Retiring?
    case Receive(k) =>
      k < |s.callers| && s.callers[k].pc.Waiting? && s.callers[k].pc.obj < |s.objs| && s.objs[s.callers[k].pc.obj].done.Some?
    case Deadline(k) => k < |s.callers| && s.callers[k].pc.Waiting?
    case ForgetCall(k) => k < |s.callers| && s.callers[k].pc.Leaving?
    case GiveUp(k) => k < |s.callers| && s.callers[k].pc.Choosing?
    case RouteReply(_, _) => true
    // the whole table, in whatever order
    case FailAll(_, order) =>
      && (forall i | 0 <= i < |order| :: InTable(s, order[i]))
      && (forall id | id in s.table :: s.table[id] in order)
      && (forall i, j | 0 <= i < j < |order| :: order[i] != order[j])
    case ResolveTask(i) => i < |s.tasks| && s.tasks[i].obj < |s.objs|
  }

  function SetPc(s: System, k: nat, pc: Pc): System
    requires k < |s.callers|
  {
    s.(callers := s.callers[k := s.callers[k].(pc := pc)])
  }

  /** forget: only if the table still holds this very attempt. */
  function Forgotten(s: System, id: Id, obj: nat): System {
    if id in s.table && s.table[id] == obj then s.(table := s.table - {id}) else s
  }

  function Next(s: System, a: Action): System
    requires Enabled(s, a)
  {
    match a
    case Begin(id) => s.(callers := s.callers + [Caller(id, Choosing)])
    case Register(k) =>
      var obj := |s.objs|;
      SetPc(s, k, Publishing(obj)).(objs := s.objs + [Pending(k, None)], table := s.table[s.callers[k].id := obj])
    case PublishOk(k) => SetPc(s, k, Waiting(s.callers[k].pc.obj))
    case PublishFails(k, again) => SetPc(s, k, Retiring(s.callers[k].pc.obj, again))
    case ForgetAttempt(k) =>
      var pc := s.callers[k].pc;
      SetPc(Forgotten(s, s.callers[k].id, pc.obj), k, if pc.again then Choosing else Returned(None, None))
    case Receive(k) =>
      var obj := s.callers[k].pc.obj;
      SetPc(s, k, Returned(s.objs[obj].done, Some(obj)))
    case Deadline(k) => SetPc(s, k, Leaving(s.callers[k].pc.obj))
    case ForgetCall(k) => SetPc(Forgotten(s, s.callers[k].id, s.callers[k].pc.obj), k, Returned(None, None))
    case GiveUp(k) => SetPc(s, k, Returned(None, None))
    case RouteReply(id, body) =>
      if id in s.table then s.(table := s.table - {id}, tasks := s.tasks + [Task(s.table[id], Reply(id, body))]) else s
    case FailAll(why, order) =>
      s.(table := map[], tasks := s.tasks + seq(|order|, i requires 0 <= i < |order| => Task(order[i], Failure(why))))
    case ResolveTask(i) =>
      var t := s.tasks[i];
      var s1 := s.(tasks := s.tasks[..i] + s.tasks[i + 1..]);
      if s.objs[t.obj].done.None? then s1.(objs := s.objs[t.obj := s.objs[t.obj].(done := Some(t.r))])
      else s1.(dropped := s.dropped + 1)
  }

  // ---- the invariant -----------------------------------------------------

  predicate Holds(pc: Pc, obj: nat) {
    (pc.Publishing? || pc.Retiring? || pc.Waiting? || pc.Leaving?) && pc.obj == obj
  }

  /** An entry is the current attempt of the caller with that id, still unresolved. */
  predicate EntryOk(s: System, id: Id) {
    && id in s.table && s.table[id] < |s.objs|
    && var p := s.objs[s.table[id]];
       p.caller < |s.callers| && s.callers[p.caller].id == id && Holds(s.callers[p.caller].pc, s.table[id]) && p.done.None?
  }

  predicate Meant(s: System, obj: nat, r: Outcome) {
    obj < |s.objs| && s.objs[obj].caller < |s.callers| && (r.Reply? ==> r.id == s.callers[s.objs[obj].caller].id)
  }

  /** An outcome on its way is for an unresolved pending call that is no longer in the table. */
  predicate TaskOk(s: System, i: nat) {
    && i < |s.tasks| && Meant(s, s.tasks[i].obj, s.tasks[i].r) && s.objs[s.tasks[i].obj].done.None?
    && (forall id | id in s.table :: s.table[id] != s.tasks[i].obj)
  }

  predicate CallerOk(s: System, k: nat) {
    && k < |s.callers|
    && var c := s.callers[k];
       match c.pc
       case Choosing => c.id !in s.table
       case Returned(got, from) =>
         && c.id !in s.table && got.Some? == from.Some?
         && (from.Some? ==> from.value < |s.objs| && s.objs[from.value] == Pending(k, got))
       case _ => c.pc.obj < |s.objs| && s.objs[c.pc.obj].caller == k
  }

  predicate TableOk(s: System) {
    forall id {:trigger EntryOk(s, id)} | id in s.table :: EntryOk(s, id)
  }

  predicate TasksOk(s: System) {
    && (forall i {:trigger TaskOk(s, i)} | 0 <= i < |s.tasks| :: TaskOk(s, i))
    && (forall i, j | 0 <= i < j < |s.tasks| :: s.tasks[i].obj != s.tasks[j].obj)
  }

  predicate ResolvedOk(s: System) {
    forall o | 0 <= o < |s.objs| :: s.objs[o].caller < |s.callers| && (s.objs[o].done.Some? ==> Meant(s, o, s.objs[o].done.value))
  }

  predicate CallersOk(s: System) {
    && (forall k {:trigger CallerOk(s, k)} | 0 <= k < |s.callers| :: CallerOk(s, k))
    && (forall j, k | 0 <= j < k < |s.callers| :: s.callers[j].id != s.callers[k].id)
  }

  predicate Inv(s: System) {
    TableOk(s) && TasksOk(s) && ResolvedOk(s) && CallersOk(s) && s.dropped == 0
  }

  lemma StepKeepsTable(s: System, a: Action)
    requires Inv(s) && Enabled(s, a)
    ensures TableOk(Next(s, a))
  {
    var s' := Next(s, a);
    forall id | id in s'.table ensures EntryOk(s', id) {
      assert id in s.table ==> EntryOk(s, id);
      if a.ResolveTask? {
        assert TaskOk(s, a.i);
      }
    }
  }

  predicate ByTask(a: Action) { a.RouteReply? || a.FailAll? || a.ResolveTask? }

  /** Outcomes on their way move no caller and resolve only what nobody has received. */
  lemma TaskKeepsCaller(s: System, a: Action, k: nat)
    requires Inv(s) && Enabled(s, a) && ByTask(a) && k < |s.callers|
    ensures CallerOk(Next(s, a), k)
  {
    assert CallerOk(s, k);
    if a.ResolveTask? {
      assert TaskOk(s, a.i);
    }
  }

  lemma NewCallerOk(s: System, a: Action)
    requires Inv(s) && Enabled(s, a) && a.Begin?
    ensures CallerOk(Next(s, a), |s.callers|)
  {
    assert a.id in s.table ==> EntryOk(s, a.id);
  }

  lemma OwnStepKeepsCaller(s: System, a: Action, k: nat)
    requires Inv(s) && Enabled(s, a) && !ByTask(a) && !a.Begin? && a.k == k < |s.callers|
    ensures CallerOk(Next(s, a), k)
  {
    assert CallerOk(s, k);
    assert s.callers[k].id in s.table ==> EntryOk(s, s.callers[k].id);
  }

  lemma OtherStepKeepsCaller(s: System, a: Action, k: nat)
    requires Inv(s) && Enabled(s, a) && !ByTask(a) && (a.Begin? || a.k != k) && k < |s.callers|
    ensures CallerOk(Next(s, a), k)
  {
    assert CallerOk(s, k);
  }

  lemma CallerKept(s: System, a: Action, k: nat)
    requires Inv(s) && Enabled(s, a) && k < |Next(s, a).callers|
    ensures CallerOk(Next(s, a), k)
  {
    if ByTask(a) {
      TaskKeepsCaller(s, a, k);
    } else if k == |s.callers| {
      NewCallerOk(s, a);
    } else if !a.Begin? && a.k == k {
      OwnStepKeepsCaller(s, a, k);
    } else {
      OtherStepKeepsCaller(s, a, k);
    }
  }

  lemma StepKeepsCallers(s: System, a: Action)
    requires Inv(s) && Enabled(s, a)
    ensures CallersOk(Next(s, a))
  {
    forall k | 0 <= k < |Next(s, a).callers| ensures CallerOk(Next(s, a), k) {
      CallerKept(s, a, k);
    }
  }

  lemma StepKeepsResolved(s: System, a: Action)
    requires Inv(s) && Enabled(s, a)
    ensures ResolvedOk(Next(s, a)) && Next(s, a).dropped == 0
  {
    if a.ResolveTask? {
      assert TaskOk(s, a.i);
    }
  }

  lemma RouteKeepsTasks(s: System, a: Action)
    requires Inv(s) && Enabled(s, a) && a.RouteReply?
    ensures TasksOk(Next(s, a))
  {
    var s' := Next(s, a);
    if a.id in s.table {
      assert EntryOk(s, a.id);
      forall i | 0 <= i < |s'.tasks| ensures TaskOk(s', i) {
        assert i < |s.tasks| ==> TaskOk(s, i);
        forall id | id in s'.table ensures s'.table[id] != s'.tasks[i].obj {
          assert EntryOk(s, id);
        }
      }
      forall i | 0 <= i < |s.tasks| ensures s.tasks[i].obj != s.table[a.id] {
        assert TaskOk(s, i);
      }
    }
  }

  lemma FailKeepsTasks(s: System, a: Action)
    requires Inv(s) && Enabled(s, a) && a.FailAll?
    ensures TasksOk(Next(s, a))
  {
    var s' := Next(s, a);
    var n := |s.tasks|;
    forall i | 0 <= i < |s'.tasks| ensures TaskOk(s', i) {
      if i < n {
        assert TaskOk(s, i);
      } else {
        assert InTable(s, a.order[i - n]);
        var id :| id in s.table && s.table[id] == a.order[i - n];
        assert EntryOk(s, id);
      }
    }
    forall i, j | 0 <= i < n <= j < |s'.tasks| ensures s'.tasks[i].obj != s'.tasks[j].obj {
      assert InTable(s, a.order[j - n]);
      var id :| id in s.table && s.table[id] == a.order[j - n];
      assert TaskOk(s, i);
    }
  }

  lemma ResolveKeepsTasks(s: System, a: Action)
    requires Inv(s) && Enabled(s, a) && a.ResolveTask?
    ensures TasksOk(Next(s, a))
  {
    var s' := Next(s, a);
    assert TaskOk(s, a.i);
    forall i | 0 <= i < |s'.tasks| ensures TaskOk(s', i) {
      var was := if i < a.i then i else i + 1;
      assert s'.tasks[i] == s.tasks[was] && TaskOk(s, was);
    }
  }

  lemma CallKeepsTasks(s: System, a: Action)
    requires Inv(s) && Enabled(s, a) && !a.RouteReply? && !a.FailAll? && !a.ResolveTask?
    ensures TasksOk(Next(s, a))
  {
    var s' := Next(s, a);
    forall i | 0 <= i < |s'.tasks| ensures TaskOk(s', i) {
      assert TaskOk(s, i);
    }
  }

  lemma StepKeepsTasks(s: System, a: Action)
    requires Inv(s) && Enabled(s, a)
    ensures TasksOk(Next(s, a))
  {
    match a
    case RouteReply(_, _) => RouteKeepsTasks(s, a);
    case FailAll(_, _) => FailKeepsTasks(s, a);
    case ResolveTask(_) => ResolveKeepsTasks(s, a);
    case _ => CallKeepsTasks(s, a);
  }

  lemma StepKeepsInv(s: System, a: Action)
    requires Inv(s) && Enabled(s, a)
    ensures Inv(Next(s, a))
  {
    StepKeepsTable(s, a);
    StepKeepsTasks(s, a);
    StepKeepsResolved(s, a);
    StepKeepsCallers(s, a);
  }

  // ---- whole runs --------------------------------------------------------

  predicate IsRun(run: seq<System>, acts: seq<Action>) {
    && |run| == |acts| + 1 && run[0] == System([], [], map[], [], 0)
    && forall k | 0 <= k < |acts| :: Enabled(run[k], acts[k]) && run[k + 1] == Next(run[k], acts[k])
  }

  lemma {:induction false} RunKeepsInv(run: seq<System>, acts: seq<Action>, i: nat)
    requires IsRun(run, acts) && i < |run|
    ensures Inv(run[i])
  {
    if i > 0 {
      RunKeepsInv(run, acts, i - 1);
      StepKeepsInv(run[i - 1], acts[i - 1]);
    }
  }

  /**
    In every run a call that returned with an outcome returned with the one its
    own last attempt was resolved with, a reply carrying its own correlation id
    or a failure of that attempt; and it has left the table.
   */
  lemma OutcomeIsOwn(run: seq<System>, acts: seq<Action>, i: nat, k: nat)
    requires IsRun(run, acts) && i < |run| && k < |run[i].callers| && run[i].callers[k].pc.Returned?
    ensures var s := run[i]; var c := s.callers[k];
      && c.id !in s.table
      && (c.pc.got.Some? ==>
            && c.pc.from.Some? && c.pc.from.value < |s.objs|
            && s.objs[c.pc.from.value] == Pending(k, c.pc.got)
            && (c.pc.got.value.Reply? ==> c.pc.got.value.id == c.id))
  {
    RunKeepsInv(run, acts, i);
    assert CallerOk(run[i], k);
  }

  /** A call waits on its latest attempt only: no earlier attempt's outcome can reach it. */
  lemma WaitsOnLatest(run: seq<System>, acts: seq<Action>, i: nat, k: nat)
    requires IsRun(run, acts) && i < |run| && k < |run[i].callers| && Enabled(run[i], Receive(k))
    ensures var s := run[i]; var obj := s.callers[k].pc.obj;
      && Next(s, Receive(k)).callers[k].pc == Returned(s.objs[obj].done, Some(obj))
      && forall o | obj < o < |s.objs| :: s.objs[o].caller != k
  {
    LatestIsLast(run, acts, i);
    assert Newest(run[i], k);
  }

  /** Whoever holds an attempt holds the newest one it made. */
  predicate Newest(s: System, k: nat) {
    k < |s.callers| && (Holding(s.callers[k].pc) ==> forall o | s.callers[k].pc.obj < o < |s.objs| :: s.objs[o].caller != k)
  }

  predicate Holding(pc: Pc) { pc.Publishing? || pc.Retiring? || pc.Waiting? || pc.Leaving? }

  lemma NewestKept(s: System, a: Action, k: nat)
    requires Inv(s) && Enabled(s, a) && k < |Next(s, a).callers| && (k < |s.callers| ==> Newest(s, k))
    ensures Newest(Next(s, a), k)
  {
  }

  lemma {:induction false} LatestIsLast(run: seq<System>, acts: seq<Action>, i: nat)
    requires IsRun(run, acts) && i < |run|
    ensures forall k | 0 <= k < |run[i].callers| :: Newest(run[i], k)
  {
    if i > 0 {
      LatestIsLast(run, acts, i - 1);
      RunKeepsInv(run, acts, i - 1);
      forall k | 0 <= k < |run[i].callers| ensures Newest(run[i], k) {
        NewestKept(run[i - 1], acts[i - 1], k);
      }
    }
  }

  /**
    No outcome is ever thrown away for want of room: each pending call is
    resolved at most once, so a resolve never finds its channel full.
   */
  lemma NoOutcomeDropped(run: seq<System>, acts: seq<Action>, i: nat)
    requires IsRun(run, acts) && i < |run|
    ensures run[i].dropped == 0
    ensures forall t | 0 <= t < |run[i].tasks| :: run[i].tasks[t].obj < |run[i].objs| && run[i].objs[run[i].tasks[t].obj].done.None?
  {
    RunKeepsInv(run, acts, i);
    forall t | 0 <= t < |run[i].tasks| ensures run[i].tasks[t].obj < |run[i].objs| && run[i].objs[run[i].tasks[t].obj].done.None? {
      assert TaskOk(run[i], t);
    }
  }

  /** Whatever the table holds, a call that has not returned still awaits. */
  lemma EntriesAreAwaited(run: seq<System>, acts: seq<Action>, i: nat, id: Id)
    requires IsRun(run, acts) && i < |run| && id in run[i].table
    ensures exists k :: 0 <= k < |run[i].callers| && run[i].callers[k].id == id && Holds(run[i].callers[k].pc, run[i].table[id])
  {
    RunKeepsInv(run, acts, i);
    assert EntryOk(run[i], id);
  }
}
