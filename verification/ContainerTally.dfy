/**
 If only this controller changes the container: starts and stops alternate, whoever calls for readiness.

 The count the design promises, successful starts never above successful stops plus one, holds exactly while
 no stop takes effect behind a reported failure; the balance below accounts for those as well.
 */
module ContainerTally {
  import opened Lifecycle
  import opened Runner
  import opened Machine
  import opened G = GateInvariant

  function Up(c: Container): nat {
    if c.ContainerRunning? then 1 else 0
  }

  /** A start in flight finds the container stopped, a stop in flight finds it running. */
  ghost predicate Fits(s: State) {
    && (forall who: Actor :: s.At(who).Starting? ==> s.container.ContainerStopped?)
    && (s.At(IdleLoop).Stopping? ==> s.container.ContainerRunning?)
    && !s.At(IdleLoop).Starting?
  }

  ghost predicate Balanced(first: Container, s: State) {
    && Up(first) + s.tally.starts + s.tally.lostStarts == Up(s.container) + s.tally.stops + s.tally.lostStops
    && (s.container.ContainerAbsent? <==> first.ContainerAbsent?)
  }

  ghost predicate TallyInv(first: Container, s: State) {
    Fits(s) && Balanced(first, s)
  }

  /** Nothing but the phase of one actor changes, and not into a call that changes the container. */
  lemma PhaseOnly(first: Container, s: State, s': State, who: Actor)
    requires TallyInv(first, s)
    requires s'.container == s.container && s'.tally == s.tally
    requires forall a: Actor :: a != who && a != IdleLoop ==> s'.At(a) == s.At(a)
    requires !s'.At(who).Starting? && !s'.At(IdleLoop).Starting?
    requires s'.At(IdleLoop).Stopping? ==> s.At(IdleLoop).Stopping?
    ensures TallyInv(first, s')
  {
    forall a: Actor
      ensures s'.At(a).Starting? ==> s'.container.ContainerStopped?
    {
      if a != who && a != IdleLoop {
        assert s'.At(a) == s.At(a);
      }
    }
  }

  lemma EnterKeeps(cfg: Config, first: Container, s: State, who: Actor, wall: string)
    requires TallyInv(first, s) && !who.IdleLoop?
    ensures TallyInv(first, s.Enter(cfg, who, wall))
  {
    var gate := s.core.gate.Enter(cfg.settings, s.now);
    var entered := s.Guard(gate).Write(Activity(who));
    var armed := if gate.armed && !s.core.gate.armed then entered.Put(IdleLoop, Dozing(s.now, s.now)) else entered;
    if s.core.gate.Fresh(cfg.settings, s.now).Some? {
      G.ReturnFacts(armed.Write(FastReady(who, s.core.gate.lastCause)), who,
                    s.core.gate.Fresh(cfg.settings, s.now).value, wall);
    }
    PhaseOnly(first, s, s.Enter(cfg, who, wall), who);
  }

  lemma AdvanceKeeps(first: Container, s: State, m: State, who: Actor, next: Next, wall: string)
    requires TallyInv(first, s) && !who.IdleLoop?
    requires m.phase == s.phase && m.container == s.container && m.tally == s.tally
    requires next.Suspended? ==> !next.phase.Starting?
    ensures TallyInv(first, m.Advance(who, next, wall))
  {
    if next.Returned? {
      G.ReturnFacts(m, who, next.state, wall);
    }
    PhaseOnly(first, s, m.Advance(who, next, wall), who);
  }

  lemma AcquireKeeps(cfg: Config, first: Container, s: State, who: Actor, wall: string)
    requires TallyInv(first, s) && GateInv(cfg, s) && s.Enabled(cfg, Acquire(who, wall))
    ensures TallyInv(first, s.Acquired(cfg, who, wall))
  {
    if s.At(who).IdleWaiting? {
      PhaseOnly(first, s, s.Acquired(cfg, who, wall), who);
    } else {
      var (gate, next) := s.core.gate.Enlock(cfg.settings, who, s.now);
      var held := if next.Returned? then s.Guard(gate).Write(FastReady(who, s.core.gate.lastCause)) else s.Guard(gate);
      AdvanceKeeps(first, s, held, who, next, wall);
    }
  }

  lemma ProbeKeeps(cfg: Config, first: Container, s: State, who: Actor, outcome: ProbeOutcome, wall: string)
    requires TallyInv(first, s) && GateInv(cfg, s) && s.Enabled(cfg, ProbeReturns(who, outcome, wall))
    ensures TallyInv(first, s.Probed(cfg, who, outcome, wall))
  {
    var (gate, next) :=
      if s.At(who).Probing? then s.core.gate.FirstProbe(cfg.settings, outcome, s.At(who).deadline, s.now)
      else s.core.gate.Polled(cfg.settings, outcome, s.At(who).deadline, s.now);
    var told := s.Guard(gate).Write(Told(who, ProbeCall, if outcome.ModelsAvailable? then Available else NotAvailable));
    AdvanceKeeps(first, s, if outcome.ModelsAvailable? then told.Write(Activity(who)) else told, who, next, wall);
  }

  lemma StatusKeeps(cfg: Config, first: Container, s: State, who: Actor, seen: Reply<Container>, wall: string)
    requires TallyInv(first, s) && GateInv(cfg, s) && s.Enabled(cfg, StatusReturns(who, seen, wall))
    ensures TallyInv(first, s.Inspected(cfg, who, seen, wall))
  {
    var s' := s.Inspected(cfg, who, seen, wall);
    if !s.At(who).IdleInspecting? {
      var told := s.Write(Told(who, StatusCall, if seen.Answer? then Saw(seen.value) else Broke));
      var (gate, next) := s.core.gate.Inspected(seen, s.At(who).deadline);
      if next.Suspended? && next.phase.Starting? {
        assert s'.container == s.container && s'.tally == s.tally && s'.phase == s.phase[who := next.phase];
      } else {
        AdvanceKeeps(first, s, told.Guard(gate), who, next, wall);
      }
    } else {
      assert who.IdleLoop?;
      assert s'.container == s.container && s'.tally == s.tally;
      assert forall a: Actor :: a != who ==> s'.At(a) == s.At(a);
    }
  }

  lemma StartKeeps(cfg: Config, first: Container, s: State, who: Actor, reply: Reply<()>, took: bool, wall: string)
    requires TallyInv(first, s) && GateInv(cfg, s) && s.Enabled(cfg, StartReturns(who, reply, took, wall))
    ensures TallyInv(first, s.Started(who, reply, took, wall))
  {
    var heard := s.StartHeard(who, reply, took);
    var next := s.core.gate.Started(reply, s.At(who).deadline).1;
    assert s.At(who).Locked();
    assert forall a: Actor :: a != who ==> !s.At(a).Locked();
    var s' := s.Started(who, reply, took, wall);
    if next.Returned? {
      G.ReturnFacts(heard, who, next.state, wall);
    }
    var p := if next.Returned? then Out else next.phase;
    assert s'.phase == s.phase[who := p];
    assert s'.container == heard.container && s'.tally == heard.tally;
    assert forall a: Actor :: s'.At(a) == if a == who then p else s.At(a);
  }

  lemma StopKeeps(cfg: Config, first: Container, s: State, reply: Reply<()>, took: bool)
    requires TallyInv(first, s) && GateInv(cfg, s) && s.Enabled(cfg, StopReturns(reply, took))
    ensures TallyInv(first, s.Stopped(cfg, reply, took))
  {
    assert s.At(IdleLoop).Locked();
    assert forall a: Actor :: a != IdleLoop ==> !s.At(a).Locked();
    var s' := s.Stopped(cfg, reply, took);
    assert forall a: Actor :: a != IdleLoop ==> s'.At(a) == s.At(a);
  }

  lemma TakeKeeps(cfg: Config, first: Container, s: State, wall: string)
    requires TallyInv(first, s) && s.core.queue != []
    ensures TallyInv(first, s.Took(cfg, wall))
  {
    var popped := s.(core := s.core.(queue := s.core.queue[1..]));
    if s.core.queue[0] in s.core.cancelled {
      PhaseOnly(first, s, s.Took(cfg, wall), IdleLoop);
    } else {
      var held := popped.(worker := Gating(s.core.queue[0]));
      assert forall a: Actor :: held.At(a) == s.At(a);
      EnterKeeps(cfg, first, held, Worker, wall);
    }
  }

  lemma WakeKeeps(cfg: Config, first: Container, s: State, who: Actor)
    requires TallyInv(first, s) && GateInv(cfg, s) && s.Enabled(cfg, Wakes(who))
    ensures TallyInv(first, s.Woken(cfg, who))
  {
    PhaseOnly(first, s, s.Woken(cfg, who), who);
  }

  /** Every step of this process keeps the balance. */
  lemma StepKeeps(cfg: Config, first: Container, s: State, step: Step)
    requires TallyInv(first, s) && GateInv(cfg, s) && s.Enabled(cfg, step) && !step.ContainerChanges?
    ensures TallyInv(first, s.Perform(cfg, step))
  {
    match step
    case Take(wall) => TakeKeeps(cfg, first, s, wall);
    case CallerEnters(n) => EnterKeeps(cfg, first, s, Caller(n), "");
    case Acquire(who, wall) => AcquireKeeps(cfg, first, s, who, wall);
    case ProbeReturns(who, outcome, wall) => ProbeKeeps(cfg, first, s, who, outcome, wall);
    case StatusReturns(who, seen, wall) => StatusKeeps(cfg, first, s, who, seen, wall);
    case StartReturns(who, reply, took, wall) => StartKeeps(cfg, first, s, who, reply, took, wall);
    case StopReturns(reply, took) => StopKeeps(cfg, first, s, reply, took);
    case Wakes(who) => WakeKeeps(cfg, first, s, who);
    case Submit(_, _, _) => PhaseOnly(first, s, s.Perform(cfg, step), IdleLoop);
    case Cancel(_, _) => PhaseOnly(first, s, s.Perform(cfg, step), IdleLoop);
    case EngineSettles(_) => PhaseOnly(first, s, s.Perform(cfg, step), IdleLoop);
    case Resume(w) => PhaseOnly(first, s, s.Perform(cfg, step), IdleLoop);
    case Tick(_) => PhaseOnly(first, s, s.Perform(cfg, step), IdleLoop);
  }
}
