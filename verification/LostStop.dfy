/**
 A run in which successful starts exceed successful stops by two: a stop takes effect although its answer
 says that it failed. It shows that the side condition of Theorems.StartsAlternate cannot be dropped.
 */
module LostStop {
  import opened Prelude
  import opened Lifecycle
  import opened Runner
  import opened Machine
  import opened Theorems

  /** As much of a state as one caller and the idle loop need. */
  datatype Glance = Glance(
    caller: Phase, idle: Phase, gate: Gate, container: Container, tally: Tally, now: real)

  function Look(s: State): Glance {
    Glance(s.At(Caller(0)), s.At(IdleLoop), s.core.gate, s.container, s.tally, s.now)
  }

  lemma Do(cfg: Config, s: State, steps: seq<Step>, step: Step, to: State) returns (more: seq<Step>)
    requires Allowed(cfg, s, steps) && Exclusive(steps) && !step.ContainerChanges?
    requires Run(cfg, s, steps).Enabled(cfg, step) && to == Run(cfg, s, steps).Perform(cfg, step)
    ensures Allowed(cfg, s, more) && Exclusive(more) && Run(cfg, s, more) == to
  {
    OneMoreStep(cfg, s, steps, step);
    more := steps + [step];
  }

  /** A caller with no cache entry to go by queues for the lock; if it is the first, the idle loop is born. */
  lemma Enters(cfg: Config, s: State, steps: seq<Step>) returns (more: seq<Step>)
    requires Allowed(cfg, s, steps) && Exclusive(steps)
    requires Look(Run(cfg, s, steps)).caller.Out? && Look(Run(cfg, s, steps)).gate.cached.None?
    ensures Allowed(cfg, s, more) && Exclusive(more)
    ensures var g := Look(Run(cfg, s, steps)); var gate := g.gate.Enter(cfg.settings, g.now);
            Look(Run(cfg, s, more)) == g.(caller := Waiting, gate := gate,
              idle := if gate.armed && !g.gate.armed then Dozing(g.now, g.now) else g.idle)
  {
    more := Do(cfg, s, steps, CallerEnters(0), Run(cfg, s, steps).Perform(cfg, CallerEnters(0)));
  }

  lemma Acquires(cfg: Config, s: State, steps: seq<Step>) returns (more: seq<Step>)
    requires Allowed(cfg, s, steps) && Exclusive(steps)
    requires var g := Look(Run(cfg, s, steps)); g.caller.Waiting? && g.gate.cached.None? && g.gate.owner.None?
    ensures Allowed(cfg, s, more) && Exclusive(more)
    ensures var g := Look(Run(cfg, s, steps));
            Look(Run(cfg, s, more)) == g.(caller := Probing(g.now + cfg.settings.readinessTimeout),
                                          gate := g.gate.(owner := Some(Caller(0))))
  {
    more := Do(cfg, s, steps, Acquire(Caller(0), ""), Run(cfg, s, steps).Perform(cfg, Acquire(Caller(0), "")));
  }

  lemma ProbesInVain(cfg: Config, s: State, steps: seq<Step>) returns (more: seq<Step>)
    requires Allowed(cfg, s, steps) && Exclusive(steps) && cfg.settings.controlled
    requires Look(Run(cfg, s, steps)).caller.Probing?
    ensures Allowed(cfg, s, more) && Exclusive(more)
    ensures var g := Look(Run(cfg, s, steps)); Look(Run(cfg, s, more)) == g.(caller := Inspecting(g.caller.deadline))
  {
    var step := ProbeReturns(Caller(0), Unreachable, "");
    more := Do(cfg, s, steps, step, Run(cfg, s, steps).Perform(cfg, step));
  }

  lemma SeesStopped(cfg: Config, s: State, steps: seq<Step>) returns (more: seq<Step>)
    requires Allowed(cfg, s, steps) && Exclusive(steps)
    requires Look(Run(cfg, s, steps)).caller.Inspecting? && Look(Run(cfg, s, steps)).container.ContainerStopped?
    ensures Allowed(cfg, s, more) && Exclusive(more)
    ensures var g := Look(Run(cfg, s, steps)); Look(Run(cfg, s, more)) == g.(caller := Starting(g.caller.deadline))
  {
    var step := StatusReturns(Caller(0), Answer(ContainerStopped), "");
    more := Do(cfg, s, steps, step, Run(cfg, s, steps).Perform(cfg, step));
  }

  lemma Starts(cfg: Config, s: State, steps: seq<Step>) returns (more: seq<Step>)
    requires Allowed(cfg, s, steps) && Exclusive(steps)
    requires Look(Run(cfg, s, steps)).caller.Starting? && Look(Run(cfg, s, steps)).container.ContainerStopped?
    ensures Allowed(cfg, s, more) && Exclusive(more)
    ensures var g := Look(Run(cfg, s, steps));
            Look(Run(cfg, s, more)) == g.(caller := Polling(g.caller.deadline), container := ContainerRunning,
                                          tally := g.tally.(starts := g.tally.starts + 1))
  {
    var step := StartReturns(Caller(0), Answer(()), true, "");
    more := Do(cfg, s, steps, step, Run(cfg, s, steps).Perform(cfg, step));
  }

  lemma BecomesReady(cfg: Config, s: State, steps: seq<Step>) returns (more: seq<Step>)
    requires Allowed(cfg, s, steps) && Exclusive(steps) && Look(Run(cfg, s, steps)).caller.Polling?
    ensures Allowed(cfg, s, more) && Exclusive(more)
    ensures var g := Look(Run(cfg, s, steps));
            Look(Run(cfg, s, more)) == g.(caller := Out, gate := g.gate.Settle(Ready, g.now))
  {
    var step := ProbeReturns(Caller(0), ModelsAvailable, "");
    more := Do(cfg, s, steps, step, Run(cfg, s, steps).Perform(cfg, step));
  }

  lemma Waits(cfg: Config, s: State, steps: seq<Step>, dt: real) returns (more: seq<Step>)
    requires Allowed(cfg, s, steps) && Exclusive(steps) && dt > 0.0
    ensures Allowed(cfg, s, more) && Exclusive(more)
    ensures var g := Look(Run(cfg, s, steps)); Look(Run(cfg, s, more)) == g.(now := g.now + dt)
  {
    more := Do(cfg, s, steps, Tick(dt), Run(cfg, s, steps).Perform(cfg, Tick(dt)));
  }

  lemma IdleWakes(cfg: Config, s: State, steps: seq<Step>) returns (more: seq<Step>)
    requires Allowed(cfg, s, steps) && Exclusive(steps)
    requires Look(Run(cfg, s, steps)).idle.Dozing?
             && Look(Run(cfg, s, steps)).idle.until <= Look(Run(cfg, s, steps)).now
    ensures Allowed(cfg, s, more) && Exclusive(more)
    ensures var g := Look(Run(cfg, s, steps));
            Look(Run(cfg, s, more)) == g.(idle := g.gate.IdleTurn(cfg.settings, g.now))
  {
    more := Do(cfg, s, steps, Wakes(IdleLoop), Run(cfg, s, steps).Perform(cfg, Wakes(IdleLoop)));
  }

  lemma IdleAcquires(cfg: Config, s: State, steps: seq<Step>) returns (more: seq<Step>)
    requires Allowed(cfg, s, steps) && Exclusive(steps)
    requires Look(Run(cfg, s, steps)).idle.IdleWaiting? && Look(Run(cfg, s, steps)).gate.owner.None?
    ensures Allowed(cfg, s, more) && Exclusive(more)
    ensures var g := Look(Run(cfg, s, steps));
            Look(Run(cfg, s, more)) == g.(idle := IdleInspecting, gate := g.gate.(owner := Some(IdleLoop)))
  {
    more := Do(cfg, s, steps, Acquire(IdleLoop, ""), Run(cfg, s, steps).Perform(cfg, Acquire(IdleLoop, "")));
  }

  lemma IdleDecides(cfg: Config, s: State, steps: seq<Step>) returns (more: seq<Step>)
    requires Allowed(cfg, s, steps) && Exclusive(steps) && Look(Run(cfg, s, steps)).idle.IdleInspecting?
    ensures Allowed(cfg, s, more) && Exclusive(more)
    ensures var g := Look(Run(cfg, s, steps));
            var (gate, p) := g.gate.IdleInspected(cfg.settings, Answer(g.container), g.now);
            Look(Run(cfg, s, more)) == g.(idle := p, gate := gate)
  {
    var step := StatusReturns(IdleLoop, Answer(Run(cfg, s, steps).container), "");
    more := Do(cfg, s, steps, step, Run(cfg, s, steps).Perform(cfg, step));
  }

  lemma StopsUnnoticed(cfg: Config, s: State, steps: seq<Step>) returns (more: seq<Step>)
    requires Allowed(cfg, s, steps) && Exclusive(steps)
    requires Look(Run(cfg, s, steps)).idle.Stopping? && Look(Run(cfg, s, steps)).container.ContainerRunning?
    ensures Allowed(cfg, s, more) && Exclusive(more)
    ensures var g := Look(Run(cfg, s, steps)); var (gate, p) := g.gate.IdleDone(cfg.settings, g.now);
            Look(Run(cfg, s, more)) == g.(idle := p, gate := gate, container := ContainerStopped,
                                          tally := g.tally.(lostStops := g.tally.lostStops + 1))
  {
    var step := StopReturns(Refusal(""), true);
    more := Do(cfg, s, steps, step, Run(cfg, s, steps).Perform(cfg, step));
  }

  lemma TakesLock(cfg: Config, s: State, steps: seq<Step>) returns (more: seq<Step>)
    requires Allowed(cfg, s, steps) && Exclusive(steps)
    requires var g := Look(Run(cfg, s, steps)); g.caller.Out? && g.gate.cached.None? && g.gate.owner.None?
    ensures Allowed(cfg, s, more) && Exclusive(more)
    ensures var g := Look(Run(cfg, s, steps)); var gate := g.gate.Enter(cfg.settings, g.now);
            Look(Run(cfg, s, more)) == g.(
              caller := Probing(g.now + cfg.settings.readinessTimeout), gate := gate.(owner := Some(Caller(0))),
              idle := if gate.armed && !g.gate.armed then Dozing(g.now, g.now) else g.idle)
  {
    more := Enters(cfg, s, steps);
    more := Acquires(cfg, s, more);
  }

  lemma StartsUnderLock(cfg: Config, s: State, steps: seq<Step>) returns (more: seq<Step>)
    requires Allowed(cfg, s, steps) && Exclusive(steps) && cfg.settings.controlled
    requires Look(Run(cfg, s, steps)).caller.Probing? && Look(Run(cfg, s, steps)).container.ContainerStopped?
    ensures Allowed(cfg, s, more) && Exclusive(more)
    ensures var g := Look(Run(cfg, s, steps));
            Look(Run(cfg, s, more)) == g.(caller := Polling(g.caller.deadline), container := ContainerRunning,
                                          tally := g.tally.(starts := g.tally.starts + 1))
  {
    more := ProbesInVain(cfg, s, steps);
    more := SeesStopped(cfg, s, more);
    more := Starts(cfg, s, more);
  }

  /** The first start, and everybody gone again: the idle loop sleeps, the container runs. */
  lemma StartsOnce(cfg: Config, s: State) returns (steps: seq<Step>)
    requires Init(cfg, s) && cfg.settings.Valid() && cfg.settings.controlled && cfg.settings.idleInterval > 0.0
    requires s.container.ContainerStopped? && !s.core.gate.armed
    ensures Allowed(cfg, s, steps) && Exclusive(steps)
    ensures var g := Look(Run(cfg, s, steps));
            && g.caller.Out? && g.idle == Dozing(g.now, g.now) && g.gate.owner.None? && g.gate.leases == 0
            && g.gate.armed && g.gate.lastActivity == g.now && g.container.ContainerRunning?
            && g.tally == Tally(1, 0, 0, 0)
  {
    steps := TakesLock(cfg, s, []);
    steps := StartsUnderLock(cfg, s, steps);
    steps := BecomesReady(cfg, s, steps);
  }

  /** Idle for long enough, the container is stopped behind an answer that says it was not. */
  lemma LosesStop(cfg: Config, s: State, steps: seq<Step>) returns (more: seq<Step>)
    requires Allowed(cfg, s, steps) && Exclusive(steps) && cfg.settings.controlled && cfg.settings.idleInterval > 0.0
    requires var g := Look(Run(cfg, s, steps));
             && g.caller.Out? && g.idle == Dozing(g.now, g.now) && g.gate.owner.None? && g.gate.leases == 0
             && g.gate.armed && g.gate.lastActivity == g.now && g.container.ContainerRunning?
    ensures Allowed(cfg, s, more) && Exclusive(more)
    ensures var g := Look(Run(cfg, s, more));
            && g.caller.Out? && g.gate.cached.None? && g.gate.owner.None? && g.container.ContainerStopped?
            && g.tally == Look(Run(cfg, s, steps)).tally.(lostStops := Look(Run(cfg, s, steps)).tally.lostStops + 1)
  {
    more := Waits(cfg, s, steps, cfg.settings.idleInterval);
    more := IdleWakes(cfg, s, more);
    more := IdleAcquires(cfg, s, more);
    more := IdleDecides(cfg, s, more);
    more := StopsUnnoticed(cfg, s, more);
  }

  /** Two starts succeed and no stop does, although nothing but this controller touched the container. */
  lemma LostStopUnbalances(cfg: Config, s: State) returns (steps: seq<Step>)
    requires Init(cfg, s) && cfg.settings.Valid() && cfg.settings.controlled && cfg.settings.idleInterval > 0.0
    requires s.container.ContainerStopped? && !s.core.gate.armed
    ensures Allowed(cfg, s, steps) && Exclusive(steps)
    ensures Run(cfg, s, steps).tally.starts == 2 && Run(cfg, s, steps).tally.stops == 0
  {
    steps := StartsOnce(cfg, s);
    steps := LosesStop(cfg, s, steps);
    steps := TakesLock(cfg, s, steps);
    steps := StartsUnderLock(cfg, s, steps);
    assert Look(Run(cfg, s, steps)).tally == Tally(2, 0, 0, 1);
  }
}
