/** The readiness side of the invariant: who is where, who holds the lock, what the cache may contain. */
module GateInvariant {
  import opened Prelude
  import opened Lifecycle
  import opened Runner
  import opened Machine
  import opened JobInvariant

  predicate CallerPhase(p: Phase) {
    p.Out? || p.Waiting? || p.Probing? || p.Inspecting? || p.Starting? || p.Polling? || p.Pausing?
  }

  predicate IdlePhase(p: Phase) {
    p.Out? || p.Dozing? || p.IdleWaiting? || p.IdleInspecting? || p.Stopping?
  }

  /** Each coroutine is somewhere in its own code, and the lock's holder is the one inside the section. */
  ghost predicate Positions(s: State) {
    && (forall who: Actor :: if who.IdleLoop? then IdlePhase(s.At(who)) else CallerPhase(s.At(who)))
    && (forall who: Actor :: s.At(who).Locked() <==> s.core.gate.owner == Some(who))
  }

  ghost predicate Armed(cfg: Config, s: State) {
    && (s.core.gate.armed <==> !s.At(IdleLoop).Out?)
    && (s.core.gate.armed ==> cfg.settings.controlled && cfg.settings.idleInterval > 0.0)
  }

  /** No lease and no cache entry while stop() is in flight. */
  ghost predicate Still(s: State) {
    s.At(IdleLoop).Stopping? ==> s.core.gate.cached.None? && s.core.gate.leases == 0
  }

  /** A cache entry is a READY of the past; beside a failure cause, or a drive in progress, it has expired. */
  ghost predicate Stamped(cfg: Config, s: State) {
    var gate := s.core.gate;
    && gate.lastActivity <= s.now
    && (gate.cached.Some? ==>
          && gate.cached.value.state.Ready?
          && gate.cached.value.at <= s.now
          && (gate.lastCause != "" || (gate.owner.Some? && !gate.owner.value.IdleLoop?) ==>
                s.now - gate.cached.value.at >= cfg.settings.cacheSeconds))
  }

  ghost predicate Section(cfg: Config, s: State) {
    Positions(s) && Armed(cfg, s) && Still(s) && Stamped(cfg, s)
  }

  ghost predicate GateInv(cfg: Config, s: State) {
    Section(cfg, s) && (s.worker.Gating? <==> !s.At(Worker).Out?)
  }

  /** What a return from ensure_ready can change besides jobs: the caller is out and may hold a lease. */
  lemma ReturnFacts(s: State, who: Actor, state: ReadinessState, wall: string)
    ensures var s' := s.Return(who, state, wall);
            && s'.phase == s.phase[who := Out] && s'.trace == s.trace && s'.now == s.now
            && s'.container == s.container && s'.tally == s.tally
            && (s'.core.gate == s.core.gate || (who.Worker? && state.Ready? && s'.core.gate == s.core.gate.Lease()))
            && (if who.Worker? then !s'.worker.Gating? else s'.worker == s.worker)
  {
  }

  lemma ReturnKeeps(cfg: Config, s: State, who: Actor, state: ReadinessState, wall: string)
    requires Section(cfg, s.Put(who, Out)) && !who.IdleLoop?
    requires state.Ready? ==> !s.At(IdleLoop).Stopping?
    requires !who.Worker? ==> (s.worker.Gating? <==> !s.At(Worker).Out?)
    ensures GateInv(cfg, s.Return(who, state, wall))
  {
    ReturnFacts(s, who, state, wall);
    var s' := s.Return(who, state, wall);
    assert forall a: Actor :: s'.At(a) == s.Put(who, Out).At(a);
    assert s'.At(IdleLoop) == s.At(IdleLoop);
  }

  lemma AdvanceKeeps(cfg: Config, s: State, who: Actor, next: Next, wall: string)
    requires !who.IdleLoop?
    requires next.Suspended? ==> Section(cfg, s.Put(who, next.phase)) && !next.phase.Out?
    requires next.Returned? ==> Section(cfg, s.Put(who, Out)) && (next.state.Ready? ==> !s.At(IdleLoop).Stopping?)
    requires s.worker.Gating? <==> !s.At(Worker).Out?
    requires who.Worker? ==> s.worker.Gating?
    ensures GateInv(cfg, s.Advance(who, next, wall))
  {
    match next
    case Returned(state) => ReturnKeeps(cfg, s, who, state, wall);
    case Suspended(p) =>
      var s' := s.Suspend(who, p);
      assert forall a: Actor :: s'.At(a) == s.Put(who, p).At(a);
  }

  lemma EnterKeeps(cfg: Config, s: State, who: Actor, wall: string)
    requires Section(cfg, s) && s.At(who).Out? && !who.IdleLoop?
    requires s.worker.Gating? <==> who.Worker? || !s.At(Worker).Out?
    ensures GateInv(cfg, s.Enter(cfg, who, wall))
  {
    var gate := s.core.gate.Enter(cfg.settings, s.now);
    var entered := s.Guard(gate).Write(Activity(who));
    var armed := if gate.armed && !s.core.gate.armed then entered.Put(IdleLoop, Dozing(s.now, s.now)) else entered;
    assert Section(cfg, armed);
    match s.core.gate.Fresh(cfg.settings, s.now)
    case Some(state) =>
      var hit := armed.Write(FastReady(who, s.core.gate.lastCause));
      assert Section(cfg, hit.Put(who, Out)) by {
        assert forall a: Actor :: hit.Put(who, Out).At(a) == armed.At(a);
      }
      ReturnKeeps(cfg, hit, who, state, wall);
    case None =>
      var s' := armed.Put(who, Waiting);
      assert forall a: Actor :: a != who ==> s'.At(a) == armed.At(a);
  }

  lemma TakeKeeps(cfg: Config, s: State, wall: string)
    requires GateInv(cfg, s) && s.worker.Parked? && s.core.queue != []
    ensures GateInv(cfg, s.Took(cfg, wall))
  {
    var id := s.core.queue[0];
    var popped := s.(core := s.core.(queue := s.core.queue[1..]));
    if id in s.core.cancelled {
      var s' := s.Took(cfg, wall);
      assert s'.core.gate == s.core.gate && s'.phase == s.phase;
      assert forall a: Actor :: s'.At(a) == s.At(a);
    } else {
      var held := popped.(worker := Gating(id));
      assert forall a: Actor :: held.At(a) == s.At(a);
      EnterKeeps(cfg, held, Worker, wall);
    }
  }

  lemma AcquireKeeps(cfg: Config, s: State, who: Actor, wall: string)
    requires GateInv(cfg, s) && s.Enabled(cfg, Acquire(who, wall))
    ensures GateInv(cfg, s.Acquired(cfg, who, wall))
  {
    if s.At(who).IdleWaiting? {
      var s' := s.Acquired(cfg, who, wall);
      assert forall a: Actor :: a != who ==> s'.At(a) == s.At(a);
    } else {
      var (gate, next) := s.core.gate.Enlock(cfg.settings, who, s.now);
      if next.Returned? {
        var hit := s.Guard(gate).Write(FastReady(who, s.core.gate.lastCause));
        assert forall a: Actor :: a != who ==> hit.Put(who, Out).At(a) == s.At(a);
        ReturnKeeps(cfg, hit, who, next.state, wall);
      } else {
        var s' := s.Guard(gate).Suspend(who, next.phase);
        assert forall a: Actor :: a != who ==> s'.At(a) == s.At(a);
      }
    }
  }

  /** The holder of the lock moves on: its gate and phase change together, everyone else stays. */
  lemma HolderAdvances(cfg: Config, s: State, m: State, who: Actor, next: Next, wall: string)
    requires GateInv(cfg, s) && s.At(who).Locked() && !who.IdleLoop?
    requires m.phase == s.phase && m.now == s.now && m.worker == s.worker
    requires m.core.gate.armed == s.core.gate.armed
    requires m.core.gate.owner == (if next.Returned? then None else Some(who))
    requires next.Suspended? ==> next.phase.Locked() && CallerPhase(next.phase) && m.core.gate == s.core.gate
    requires Stamped(cfg, m)
    ensures GateInv(cfg, m.Advance(who, next, wall))
  {
    var l := if next.Returned? then m.Put(who, Out) else m.Put(who, next.phase);
    assert forall a: Actor :: a != who ==> l.At(a) == s.At(a);
    assert s.core.gate.owner == Some(who);
    assert !s.At(IdleLoop).Locked();
    AdvanceKeeps(cfg, m, who, next, wall);
  }

  lemma ProbeKeeps(cfg: Config, s: State, who: Actor, outcome: ProbeOutcome, wall: string)
    requires GateInv(cfg, s) && s.Enabled(cfg, ProbeReturns(who, outcome, wall))
    ensures GateInv(cfg, s.Probed(cfg, who, outcome, wall))
  {
    var deadline := s.At(who).deadline;
    var (gate, next) :=
      if s.At(who).Probing? then s.core.gate.FirstProbe(cfg.settings, outcome, deadline, s.now)
      else s.core.gate.Polled(cfg.settings, outcome, deadline, s.now);
    var told := s.Guard(gate).Write(Told(who, ProbeCall, if outcome.ModelsAvailable? then Available else NotAvailable));
    HolderAdvances(cfg, s, if outcome.ModelsAvailable? then told.Write(Activity(who)) else told, who, next, wall);
  }

  lemma StatusKeeps(cfg: Config, s: State, who: Actor, seen: Reply<Container>, wall: string)
    requires GateInv(cfg, s) && s.Enabled(cfg, StatusReturns(who, seen, wall))
    ensures GateInv(cfg, s.Inspected(cfg, who, seen, wall))
  {
    var told := s.Write(Told(who, StatusCall, if seen.Answer? then Saw(seen.value) else Broke));
    if s.At(who).IdleInspecting? {
      var s' := s.Inspected(cfg, who, seen, wall);
      assert forall a: Actor :: a != who ==> s'.At(a) == s.At(a);
    } else {
      var (gate, next) := s.core.gate.Inspected(seen, s.At(who).deadline);
      HolderAdvances(cfg, s, told.Guard(gate), who, next, wall);
    }
  }

  lemma StartKeeps(cfg: Config, s: State, step: Step)
    requires GateInv(cfg, s) && step.StartReturns? && s.Enabled(cfg, step)
    ensures GateInv(cfg, s.Perform(cfg, step))
  {
    HolderAdvances(cfg, s, s.StartHeard(step.who, step.reply, step.took), step.who,
                   s.core.gate.Started(step.reply, s.At(step.who).deadline).1, step.wall);
  }

  lemma WakeKeeps(cfg: Config, s: State, who: Actor)
    requires GateInv(cfg, s) && s.Enabled(cfg, Wakes(who))
    ensures GateInv(cfg, s.Woken(cfg, who))
  {
    var s' := s.Woken(cfg, who);
    assert forall a: Actor :: a != who ==> s'.At(a) == s.At(a);
  }

  lemma StopKeeps(cfg: Config, s: State, reply: Reply<()>, took: bool)
    requires GateInv(cfg, s) && s.Enabled(cfg, StopReturns(reply, took))
    ensures GateInv(cfg, s.Stopped(cfg, reply, took))
  {
    var s' := s.Stopped(cfg, reply, took);
    assert forall a: Actor :: a != IdleLoop ==> s'.At(a) == s.At(a);
  }

  lemma ResumeKeeps(cfg: Config, s: State, w: Wrap)
    requires GateInv(cfg, s) && JobInv(s) && s.Enabled(cfg, Resume(w))
    ensures GateInv(cfg, s.Resumed(cfg, w))
  {
    var id := s.worker.id;
    assert id in LedgerOf(s).hand;
    ConcludeFacts(cfg, s.core, id, s.core.task.value.outcome, s.now, w);
    var s' := s.Resumed(cfg, w);
    assert forall a: Actor :: s'.At(a) == s.At(a);
  }

  lemma OthersKeep(cfg: Config, s: State, s': State)
    requires GateInv(cfg, s)
    requires s'.core.gate == s.core.gate && s'.phase == s.phase && s'.worker == s.worker && s'.now >= s.now
    ensures GateInv(cfg, s')
  {
    assert forall a: Actor :: s'.At(a) == s.At(a);
  }

  /** Every step keeps the readiness side of the invariant. */
  lemma StepKeeps(cfg: Config, s: State, step: Step)
    requires GateInv(cfg, s) && JobInv(s) && s.Enabled(cfg, step)
    ensures GateInv(cfg, s.Perform(cfg, step))
  {
    match step
    case Take(wall) => TakeKeeps(cfg, s, wall);
    case CallerEnters(n) => EnterKeeps(cfg, s, Caller(n), "");
    case Resume(w) => ResumeKeeps(cfg, s, w);
    case Acquire(who, wall) => AcquireKeeps(cfg, s, who, wall);
    case ProbeReturns(who, outcome, wall) => ProbeKeeps(cfg, s, who, outcome, wall);
    case StatusReturns(who, seen, wall) => StatusKeeps(cfg, s, who, seen, wall);
    case StartReturns(_, _, _, _) => StartKeeps(cfg, s, step);
    case StopReturns(reply, took) => StopKeeps(cfg, s, reply, took);
    case Wakes(who) => WakeKeeps(cfg, s, who);
    case Submit(_, _, _) => OthersKeep(cfg, s, s.Perform(cfg, step));
    case Cancel(_, _) => OthersKeep(cfg, s, s.Perform(cfg, step));
    case EngineSettles(_) => OthersKeep(cfg, s, s.Perform(cfg, step));
    case Tick(_) => OthersKeep(cfg, s, s.Perform(cfg, step));
    case ContainerChanges(_) => OthersKeep(cfg, s, s.Perform(cfg, step));
  }
}
