/**
  The supervisor, attaching components and close, interleaved (session.go,
  bus.go): one step per section under the session's mutex, restoreMu held across
  steps.
 */
module SessionRuns {
  import opened Basics
  import opened Session

  datatype Supervisor =
    | Connecting                     // before the first connection
    | Connected                      // first connection installed, not yet announced
    | Watching
    | Lost                           // markNotReady done or about to be; dialling next
    | Dialling(attempt: nat)
    | Installed(attempt: nat)        // new connection in place, waiting for restoreMu
    | Restoring(todo: seq<nat>, attempt: nat)
    | Restored(attempt: nat)         // restoreMu released, not yet announced
    | Stopped

  /** A goroutine in attachOnce, or one rebuilding a component's own channel (tryRecover). */
  datatype Worker = Worker(comp: nat, attaching: bool, pc: WorkerPc)

  datatype WorkerPc =
    | Waiting
    | Locked                         // holds restoreMu
    | Checked(gen: nat)              // saw a ready session on this connection
    | Rebuilt(gen: nat)              // restoreTopology succeeded on it
    | Attached                       // registered
    | Gone

  datatype Owner = Nobody | BySupervisor | ByWorker(id: nat)

  datatype System = System(
    core: Core,
    maxRetries: nat,
    sup: Supervisor,
    workers: seq<Worker>,
    owner: Owner,                    // of restoreMu
    restored: map<nat, nat>,         // component -> connection its topology was last rebuilt on
    closing: bool)                   // close has called finish

  datatype SupStep =
    | Connect | Announce | NoticeLoss | MarkLost | DialFails | DialSucceeds | GiveUp
    | LockRestore | RestoreOne(ok: bool) | RestoreAll | AnnounceAgain | AttemptFails | Stop

  datatype WorkerStep = Lock | Check | Rebuild(ok: bool) | DoRegister | Unlock | Abandon

  datatype Action =
    | Sup(s: SupStep)
    | Start(comp: nat, attaching: bool)
    | Work(id: nat, w: WorkerStep)
    | Unregister(r: nat)
    | CloseFinishes
    | CloseMarksNotReady

  predicate SupEnabled(s: System, a: SupStep) {
    match a
    case Connect => s.sup.Connecting?
    case Announce => s.sup.Connected?
    case NoticeLoss => s.sup.Watching?
    case MarkLost => s.sup.Lost?
    case DialFails => s.sup.Dialling? && (s.maxRetries > 0 ==> s.sup.attempt <= s.maxRetries)
    case DialSucceeds => s.sup.Dialling? && (s.maxRetries > 0 ==> s.sup.attempt <= s.maxRetries)
    case GiveUp => s.sup.Dialling? && s.maxRetries > 0 && s.sup.attempt > s.maxRetries
    case LockRestore => s.sup.Installed? && s.owner == Nobody
    case RestoreOne(_) => s.sup.Restoring? && s.sup.todo != []
    case RestoreAll => s.sup.Restoring? && s.sup.todo == []
    case AnnounceAgain => s.sup.Restored?
    case AttemptFails => s.sup.Restored?          // the connection died while restoring
    case Stop => !s.sup.Restoring? && !s.sup.Stopped? && s.closing
  }

  predicate WorkerEnabled(s: System, id: nat, w: WorkerStep) {
    && id < |s.workers|
    && var pc := s.workers[id].pc;
       match w
       case Lock => pc.Waiting? && s.owner == Nobody
       case Check => pc.Locked?
       case Rebuild(_) => pc.Checked?
       case DoRegister => pc.Rebuilt? && s.workers[id].attaching
       case Unlock => pc.Attached? || (pc.Rebuilt? && !s.workers[id].attaching)
       case Abandon => pc.Waiting?
  }

  predicate Enabled(s: System, a: Action) {
    match a
    case Sup(x) => SupEnabled(s, x)
    case Start(_, _) => true
    case Work(id, w) => WorkerEnabled(s, id, w)
    case Unregister(_) => true
    case CloseFinishes => true
    case CloseMarksNotReady => s.closing
  }

  function SupNext(s: System, a: SupStep): System
    requires SupEnabled(s, a)
  {
    match a
    case Connect => s.(core := s.core.(gen := s.core.gen + 1), sup := Connected)
    case Announce => s.(core := AfterMarkReady(s.core), sup := Watching)
    case NoticeLoss => s.(sup := Lost)
    case MarkLost => s.(core := AfterMarkNotReady(s.core), sup := Dialling(1))
    case DialFails => s.(sup := Dialling(s.sup.attempt + 1))
    case DialSucceeds => s.(core := AfterInstall(s.core), sup := Installed(s.sup.attempt))
    case GiveUp => s.(core := AfterFinish(s.core, GaveUp(s.sup.attempt - 1)), sup := Stopped)
    case LockRestore => s.(owner := BySupervisor, sup := Restoring(s.core.comps, s.sup.attempt))
    case RestoreOne(ok) =>
      if ok then
        s.(restored := s.restored[s.sup.todo[0] := s.core.gen], sup := s.sup.(todo := s.sup.todo[1..]))
      else s.(owner := Nobody, sup := Dialling(s.sup.attempt + 1))
    case RestoreAll => s.(owner := Nobody, sup := Restored(s.sup.attempt))
    case AnnounceAgain => s.(core := AfterMarkReady(s.core), sup := Watching)
    case AttemptFails => s.(sup := Dialling(s.sup.attempt + 1))
    case Stop => s.(sup := Stopped)
  }

  function SetPc(s: System, id: nat, pc: WorkerPc): System
    requires id < |s.workers|
  {
    s.(workers := s.workers[id := s.workers[id].(pc := pc)])
  }

  function WorkerNext(s: System, id: nat, w: WorkerStep): System
    requires WorkerEnabled(s, id, w)
  {
    var me := s.workers[id];
    match w
    case Lock => SetPc(s, id, Locked).(owner := ByWorker(id))
    case Check =>
      if Ready(s.core) then SetPc(s, id, Checked(s.core.gen)) else SetPc(s, id, Waiting).(owner := Nobody)
    case Rebuild(ok) =>
      if ok then SetPc(s, id, Rebuilt(me.pc.gen)).(restored := s.restored[me.comp := me.pc.gen])
      else SetPc(s, id, Waiting).(owner := Nobody)
    case DoRegister => SetPc(s, id, Attached).(core := s.core.(comps := s.core.comps + [me.comp]))
    case Unlock => SetPc(s, id, Gone).(owner := Nobody)
    case Abandon => SetPc(s, id, Gone)
  }

  function Next(s: System, a: Action): System
    requires Enabled(s, a)
  {
    match a
    case Sup(x) => SupNext(s, x)
    case Start(comp, attaching) => s.(workers := s.workers + [Worker(comp, attaching, Waiting)])
    case Work(id, w) => WorkerNext(s, id, w)
    case Unregister(r) => s.(core := s.core.(comps := Removed(s.core.comps, r)))
    case CloseFinishes => s.(core := AfterFinish(s.core, ErrClosed), closing := true)
    case CloseMarksNotReady => s.(core := s.core.(isReady := false))
  }

  // ---- the invariant -----------------------------------------------------

  predicate OnCurrent(s: System, c: nat) {
    c in s.restored && s.restored[c] == s.core.gen
  }

  /** Who holds restoreMu. */
  predicate LockOk(s: System) {
    && (s.owner == BySupervisor <==> s.sup.Restoring?)
    && (s.owner.ByWorker? ==> s.owner.id < |s.workers|)
    && (forall i | 0 <= i < |s.workers| ::
          s.owner == ByWorker(i) <==> !(s.workers[i].pc.Waiting? || s.workers[i].pc.Gone?))
  }

  predicate Announced(p: Supervisor) { p.Watching? || p.Lost? }

  /** A worker past its check is on the current connection unless a new one is already being set up. */
  predicate WorkersOk(s: System) {
    forall i | 0 <= i < |s.workers| ::
      var me := s.workers[i];
      && (me.pc.Checked? || me.pc.Rebuilt? ==> !s.sup.Restored? && (Announced(s.sup) || s.core.isReady ==> me.pc.gen == s.core.gen))
      && (me.pc.Rebuilt? ==> me.comp in s.restored && s.restored[me.comp] == me.pc.gen)
  }

  /** Before the first announcement no worker gets past its check. */
  predicate NothingYet(s: System) {
    && s.core.comps == [] && !s.core.isReady
    && forall i | 0 <= i < |s.workers| :: s.workers[i].pc.Waiting? || s.workers[i].pc.Gone? || s.workers[i].pc.Locked?
  }

  predicate RestoredOk(s: System) {
    && (s.core.isReady ==> Announced(s.sup) || s.sup.Stopped?)
    && (s.core.isReady || s.sup.Restored? ==> forall c | c in s.core.comps :: OnCurrent(s, c))
    && (s.sup.Restoring? ==> forall c | c in s.core.comps :: OnCurrent(s, c) || c in s.sup.todo)
    && (s.sup.Connecting? || s.sup.Connected? ==> NothingYet(s))
    && (s.sup.Stopped? ==> s.core.doneErr.Some?)
    && (s.closing ==> s.core.doneErr.Some?)
  }

  predicate ChannelsOk(c: Core) {
    && (forall i | 0 <= i < |c.closes| :: c.closes[i] <= c.readyChan)
    && (forall i, j | 0 <= i < j < |c.closes| :: c.closes[i] != c.closes[j])
    && (!c.isReady && c.doneErr.None? ==> c.readyChan !in c.closes)
  }

  predicate Inv(s: System) {
    LockOk(s) && WorkersOk(s) && RestoredOk(s) && ChannelsOk(s.core)
  }

  lemma SupKeepsLocks(s: System, a: SupStep)
    requires Inv(s) && SupEnabled(s, a)
    ensures LockOk(SupNext(s, a))
  {
  }

  lemma SupKeepsChannels(s: System, a: SupStep)
    requires Inv(s) && SupEnabled(s, a)
    ensures ChannelsOk(SupNext(s, a).core)
  {
  }

  lemma SupKeepsRestored(s: System, a: SupStep)
    requires Inv(s) && SupEnabled(s, a)
    ensures WorkersOk(SupNext(s, a)) && RestoredOk(SupNext(s, a))
  {
  }

  lemma WorkKeepsLocks(s: System, id: nat, w: WorkerStep)
    requires Inv(s) && WorkerEnabled(s, id, w)
    ensures LockOk(WorkerNext(s, id, w)) && ChannelsOk(WorkerNext(s, id, w).core)
  {
  }

  lemma WorkKeepsRestored(s: System, id: nat, w: WorkerStep)
    requires Inv(s) && WorkerEnabled(s, id, w)
    ensures RestoredOk(WorkerNext(s, id, w))
  {
  }

  lemma WorkKeepsWorkers(s: System, id: nat, w: WorkerStep)
    requires Inv(s) && WorkerEnabled(s, id, w)
    ensures WorkersOk(WorkerNext(s, id, w))
  {
  }

  lemma StepKeepsInv(s: System, a: Action)
    requires Inv(s) && Enabled(s, a)
    ensures Inv(Next(s, a))
  {
    match a
    case Sup(x) =>
      SupKeepsLocks(s, x);
      SupKeepsChannels(s, x);
      SupKeepsRestored(s, x);
    case Work(id, w) =>
      WorkKeepsLocks(s, id, w);
      WorkKeepsRestored(s, id, w);
      WorkKeepsWorkers(s, id, w);
    case Unregister(r) =>
      forall c | c in Removed(s.core.comps, r) ensures c in s.core.comps {
        RemovedMembers(s.core.comps, r, c);
      }
    case _ =>
  }

  // ---- whole runs --------------------------------------------------------

  predicate Init(s: System) {
    && s.core == Core(0, false, None, [], 0, []) && s.sup == Connecting && s.workers == []
    && s.owner == Nobody && s.restored == map[] && !s.closing
  }

  predicate IsRun(run: seq<System>, acts: seq<Action>) {
    && |run| == |acts| + 1 && Init(run[0])
    && forall k | 0 <= k < |acts| :: Enabled(run[k], acts[k]) && run[k + 1] == Next(run[k], acts[k])
  }

  lemma {:induction false} RunKeepsInv(run: seq<System>, acts: seq<Action>, i: nat)
    requires IsRun(run, acts) && i < |run|
    ensures Inv(run[i])
  {
    if i > 0 {
      RunKeepsInv(run, acts, i - 1);
      StepKeepsInv(run[i - 1], acts[i - 1]);
    }
  }

  /**
    Whenever the session is ready, every registered component has been restored
    on the current connection, however loss, reconnection, attaching, repairs
    and unregistering interleave.
   */
  lemma ReadyMeansRestored(run: seq<System>, acts: seq<Action>, i: nat, c: nat)
    requires IsRun(run, acts) && i < |run|
    ensures Ready(run[i].core) && c in run[i].core.comps ==>
              c in run[i].restored && run[i].restored[c] == run[i].core.gen
  {
    RunKeepsInv(run, acts, i);
  }

  /**
    Once the session is finished it stays finished, for the same reason: it is never
    ready again and wakes nobody waiting on a ready channel.
   */
  lemma {:induction false} FinishedForGood(run: seq<System>, acts: seq<Action>, i: nat, j: nat)
    requires IsRun(run, acts) && i <= j < |run| && run[i].core.doneErr.Some?
    ensures run[j].core.doneErr == run[i].core.doneErr && !Ready(run[j].core)
    ensures run[j].core.closes == run[i].core.closes
    decreases j
  {
    if i < j {
      FinishedForGood(run, acts, i, j - 1);
    }
  }

  /** No ready channel is ever closed twice. */
  lemma NoDoubleClose(run: seq<System>, acts: seq<Action>, i: nat, x: nat, y: nat)
    requires IsRun(run, acts) && i < |run| && x < y < |run[i].core.closes|
    ensures run[i].core.closes[x] != run[i].core.closes[y]
  {
    RunKeepsInv(run, acts, i);
  }

  /** Past taking restoreMu and not yet done with it. */
  predicate Busy(s: System, id: nat) {
    id < |s.workers| && !(s.workers[id].pc.Waiting? || s.workers[id].pc.Gone?)
  }

  /** Restores and attaching never overlap: at most one of them holds restoreMu. */
  lemma RestoresAreSerial(run: seq<System>, acts: seq<Action>, i: nat, x: nat, y: nat)
    requires IsRun(run, acts) && i < |run| && x != y
    ensures !(Busy(run[i], x) && Busy(run[i], y)) && !(run[i].sup.Restoring? && Busy(run[i], x))
  {
    RunKeepsInv(run, acts, i);
  }

  /** With a limit, the session gives up only after that many attempts. */
  predicate AttemptsOk(s: System) {
    && (s.sup.Dialling? ==> 1 <= s.sup.attempt && (s.maxRetries > 0 ==> s.sup.attempt <= s.maxRetries + 1))
    && (s.sup.Installed? || s.sup.Restoring? || s.sup.Restored? ==>
          1 <= s.sup.attempt && (s.maxRetries > 0 ==> s.sup.attempt <= s.maxRetries))
    && (s.core.doneErr.Some? && s.core.doneErr.value.GaveUp? ==>
          s.maxRetries > 0 && s.core.doneErr.value.attempts == s.maxRetries)
  }

  lemma StepKeepsAttempts(s: System, a: Action)
    requires AttemptsOk(s) && Enabled(s, a)
    ensures AttemptsOk(Next(s, a))
  {
    if a.Sup? {
      assert AttemptsOk(SupNext(s, a.s));
    }
  }

  lemma {:induction false} GivesUpAfterMaxRetries(run: seq<System>, acts: seq<Action>, i: nat)
    requires IsRun(run, acts) && i < |run|
    ensures AttemptsOk(run[i])
  {
    if i > 0 {
      GivesUpAfterMaxRetries(run, acts, i - 1);
      StepKeepsAttempts(run[i - 1], acts[i - 1]);
    }
  }
}
