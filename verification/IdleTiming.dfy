/**
 Idle-down is not unboundedly late: a quiet system with a running container and an armed idle loop that
 wakes on time and whose controller calls take no time is told to stop before its last activity plus one
 interval plus the longer of interval and poll. (That it is never early is part of TraceInvariant.Lawful.)
 */
module IdleTiming {
  import opened Prelude
  import opened Lifecycle
  import opened Runner
  import opened Machine
  import opened G = GateInvariant
  import opened T = TraceInvariant
  import C = ColdStart

  function Longest(cfg: Config): real {
    C.Max(cfg.settings.pollSeconds, cfg.settings.idleInterval)
  }

  /** The idle loop never sleeps longer than the longer of poll and interval. */
  ghost predicate Dozes(cfg: Config, s: State) {
    s.At(IdleLoop).Dozing? ==>
      && s.At(IdleLoop).since <= s.now
      && s.At(IdleLoop).until <= s.At(IdleLoop).since + Longest(cfg)
  }

  lemma EnterKeeps(cfg: Config, s: State, who: Actor, wall: string)
    requires Dozes(cfg, s) && cfg.settings.Valid() && !who.IdleLoop?
    ensures Dozes(cfg, s.Enter(cfg, who, wall))
  {
    var gate := s.core.gate.Enter(cfg.settings, s.now);
    var entered := s.Guard(gate).Write(Activity(who));
    var armed := if gate.armed && !s.core.gate.armed then entered.Put(IdleLoop, Dozing(s.now, s.now)) else entered;
    if s.core.gate.Fresh(cfg.settings, s.now).Some? {
      G.ReturnFacts(armed.Write(FastReady(who, s.core.gate.lastCause)), who,
                    s.core.gate.Fresh(cfg.settings, s.now).value, wall);
    }
  }

  lemma AdvanceKeeps(cfg: Config, s: State, m: State, who: Actor, next: Next, wall: string)
    requires Dozes(cfg, s) && !who.IdleLoop? && m.phase == s.phase && m.now == s.now
    ensures Dozes(cfg, m.Advance(who, next, wall))
  {
    if next.Returned? {
      G.ReturnFacts(m, who, next.state, wall);
    }
  }

  lemma ProbeKeeps(cfg: Config, s: State, who: Actor, outcome: ProbeOutcome, wall: string)
    requires Dozes(cfg, s) && GateInv(cfg, s) && s.Enabled(cfg, ProbeReturns(who, outcome, wall))
    ensures Dozes(cfg, s.Perform(cfg, ProbeReturns(who, outcome, wall)))
  {
    var (gate, next) :=
      if s.At(who).Probing? then s.core.gate.FirstProbe(cfg.settings, outcome, s.At(who).deadline, s.now)
      else s.core.gate.Polled(cfg.settings, outcome, s.At(who).deadline, s.now);
    var told := s.Guard(gate).Write(Told(who, ProbeCall, if outcome.ModelsAvailable? then Available else NotAvailable));
    AdvanceKeeps(cfg, s, if outcome.ModelsAvailable? then told.Write(Activity(who)) else told, who, next, wall);
  }

  lemma AcquireKeeps(cfg: Config, s: State, who: Actor, wall: string)
    requires Dozes(cfg, s) && GateInv(cfg, s) && s.Enabled(cfg, Acquire(who, wall))
    ensures Dozes(cfg, s.Perform(cfg, Acquire(who, wall)))
  {
    if !s.At(who).IdleWaiting? {
      var (gate, next) := s.core.gate.Enlock(cfg.settings, who, s.now);
      var held := if next.Returned? then s.Guard(gate).Write(FastReady(who, s.core.gate.lastCause)) else s.Guard(gate);
      AdvanceKeeps(cfg, s, held, who, next, wall);
    }
  }

  lemma StatusKeeps(cfg: Config, s: State, who: Actor, seen: Reply<Container>, wall: string)
    requires Dozes(cfg, s) && GateInv(cfg, s) && cfg.settings.Valid() && s.Enabled(cfg, StatusReturns(who, seen, wall))
    ensures Dozes(cfg, s.Perform(cfg, StatusReturns(who, seen, wall)))
  {
    if !s.At(who).IdleInspecting? {
      var told := s.Write(Told(who, StatusCall, if seen.Answer? then Saw(seen.value) else Broke));
      var (gate, next) := s.core.gate.Inspected(seen, s.At(who).deadline);
      AdvanceKeeps(cfg, s, told.Guard(gate), who, next, wall);
    } else {
      assert who.IdleLoop?;
    }
  }

  lemma StartKeeps(cfg: Config, s: State, who: Actor, reply: Reply<()>, took: bool, wall: string)
    requires Dozes(cfg, s) && GateInv(cfg, s) && s.Enabled(cfg, StartReturns(who, reply, took, wall))
    ensures Dozes(cfg, s.Perform(cfg, StartReturns(who, reply, took, wall)))
  {
    AdvanceKeeps(cfg, s, s.StartHeard(who, reply, took), who, s.core.gate.Started(reply, s.At(who).deadline).1, wall);
  }

  lemma StepKeeps(cfg: Config, s: State, step: Step)
    requires Dozes(cfg, s) && GateInv(cfg, s) && cfg.settings.Valid() && s.Enabled(cfg, step)
    ensures Dozes(cfg, s.Perform(cfg, step))
  {
    match step
    case Take(wall) =>
      if s.core.queue[0] !in s.core.cancelled {
        var popped := s.(core := s.core.(queue := s.core.queue[1..]), worker := Gating(s.core.queue[0]));
        EnterKeeps(cfg, popped, Worker, wall);
      }
    case CallerEnters(n) => EnterKeeps(cfg, s, Caller(n), "");
    case Acquire(who, wall) => AcquireKeeps(cfg, s, who, wall);
    case ProbeReturns(who, outcome, wall) => ProbeKeeps(cfg, s, who, outcome, wall);
    case StatusReturns(who, seen, wall) => StatusKeeps(cfg, s, who, seen, wall);
    case StartReturns(who, reply, took, wall) => StartKeeps(cfg, s, who, reply, took, wall);
    case StopReturns(_, _) =>
    case Wakes(who) =>
      assert s.At(who).Dozing? <==> who.IdleLoop?;
    case Submit(_, _, _) =>
    case Cancel(_, _) =>
    case EngineSettles(_) =>
    case Resume(_) =>
    case Tick(_) =>
    case ContainerChanges(_) =>
  }

  // ---- a quiet system ----

  /** Nobody but the idle loop is about, the container runs, and the last activity was a moment ago. */
  ghost predicate Quiet(cfg: Config, s: State) {
    && s.core.gate.armed && s.core.gate.leases == 0
    && s.now == s.core.gate.lastActivity
    && s.container.ContainerRunning?
    && s.core.gate.owner.None?
    && (s.At(IdleLoop).Dozing? ==> s.now <= s.At(IdleLoop).until)
  }

  /** The idle loop's own steps, answered truthfully; time passes only up to its next waking. */
  predicate Prompt(s: State, step: Step) {
    match step
    case Wakes(who) => who.IdleLoop?
    case Acquire(who, _) => who.IdleLoop?
    case StatusReturns(who, seen, _) => who.IdleLoop? && seen.Answer?
    case StopReturns(_, _) => true
    case Tick(dt) => s.At(IdleLoop).Dozing? && s.now + dt <= s.At(IdleLoop).until
    case _ => false
  }

  predicate AllPrompt(cfg: Config, s: State, steps: seq<Step>)
    requires Allowed(cfg, s, steps)
  {
    steps == [] ||
    (AllPrompt(cfg, s, steps[..|steps| - 1]) && Prompt(Run(cfg, s, steps[..|steps| - 1]), steps[|steps| - 1]))
  }

  /** A stop was asked for after the first notes, within the promised window. */
  ghost predicate StoppedInTime(cfg: Config, last: real, before: nat, trace: seq<Note>) {
    exists k: nat :: before <= k < |trace| && IsStop(trace[k])
                     && last + cfg.settings.idleInterval <= trace[k].at
                     && trace[k].at < last + cfg.settings.idleInterval + Longest(cfg)
  }

  /** Not yet stopped: asleep within bounds, or awake inside the window. */
  ghost predicate Pending(cfg: Config, last: real, s: State) {
    var interval := cfg.settings.idleInterval;
    var p := s.At(IdleLoop);
    && s.core.gate.lastActivity == last && s.core.gate.leases == 0 && s.container.ContainerRunning?
    && last <= s.now && s.core.gate.owner in {None, Some(IdleLoop)}
    && (p.Dozing? || p.IdleWaiting? || p.IdleInspecting?)
    && (p.Dozing? ==> p.since < last + interval && s.now <= p.until)
    && (!p.Dozing? ==> s.now == last || last + interval <= s.now < last + interval + Longest(cfg))
  }

  lemma PromptStep(cfg: Config, last: real, s: State, step: Step)
    requires Pending(cfg, last, s) && Dozes(cfg, s) && GateInv(cfg, s) && cfg.settings.Valid()
    requires s.Enabled(cfg, step) && Prompt(s, step)
    ensures var s' := s.Perform(cfg, step);
            Pending(cfg, last, s') || StoppedInTime(cfg, last, |s.trace|, s'.trace)
  {
    var s' := s.Perform(cfg, step);
    assert cfg.settings.idleInterval > 0.0;
    if step.StatusReturns? && s'.At(IdleLoop).Stopping? {
      var k := |s.trace| + 1;
      assert s'.trace[k] == Note(s.now, Asked(IdleLoop, StopCall));
    }
  }

  lemma TraceGrows(cfg: Config, s: State, step: Step)
    requires s.Enabled(cfg, step) && Prompt(s, step)
    ensures s.trace <= s.Perform(cfg, step).trace
  {
  }

  lemma {:induction false} PromptRun(cfg: Config, s: State, steps: seq<Step>)
    requires Quiet(cfg, s) && Dozes(cfg, s) && GateInv(cfg, s) && JobInvariant.JobInv(s) && cfg.settings.Valid()
    requires Allowed(cfg, s, steps) && AllPrompt(cfg, s, steps)
    ensures var s' := Run(cfg, s, steps);
            && Dozes(cfg, s') && GateInv(cfg, s') && JobInvariant.JobInv(s') && s.trace <= s'.trace
            && (Pending(cfg, s.now, s') || StoppedInTime(cfg, s.now, |s.trace|, s'.trace))
  {
    if steps == [] {
      assert IdlePhase(s.At(IdleLoop));
      assert !s.At(IdleLoop).Locked();
    } else {
      var init, step := steps[..|steps| - 1], steps[|steps| - 1];
      PromptRun(cfg, s, init);
      var m := Run(cfg, s, init);
      StepKeeps(cfg, m, step);
      G.StepKeeps(cfg, m, step);
      JobInvariant.StepKeeps(cfg, m, step);
      TraceGrows(cfg, m, step);
      var s' := m.Perform(cfg, step);
      if Pending(cfg, s.now, m) {
        PromptStep(cfg, s.now, m, step);
        if StoppedInTime(cfg, s.now, |m.trace|, s'.trace) {
          assert StoppedInTime(cfg, s.now, |s.trace|, s'.trace);
        }
      } else {
        var k: nat :| |s.trace| <= k < |m.trace| && IsStop(m.trace[k])
                      && s.now + cfg.settings.idleInterval <= m.trace[k].at
                      && m.trace[k].at < s.now + cfg.settings.idleInterval + Longest(cfg);
        assert s'.trace[k] == m.trace[k];
      }
    }
  }

  /**
   However the idle loop's steps and the clock interleave, once the clock has reached last activity + interval
   + max(poll, interval), the stop has been asked for, inside that window and not before one interval.
   */
  lemma IdleDownInTime(cfg: Config, s: State, steps: seq<Step>)
    requires Quiet(cfg, s) && Dozes(cfg, s) && GateInv(cfg, s) && JobInvariant.JobInv(s) && cfg.settings.Valid()
    requires Allowed(cfg, s, steps) && AllPrompt(cfg, s, steps)
    requires Run(cfg, s, steps).now >= s.now + cfg.settings.idleInterval + Longest(cfg)
    ensures StoppedInTime(cfg, s.now, |s.trace|, Run(cfg, s, steps).trace)
  {
    PromptRun(cfg, s, steps);
    assert cfg.settings.idleInterval > 0.0;
    if Pending(cfg, s.now, Run(cfg, s, steps)) {
      assert false;
    }
  }

  /** The idle loop of a quiet system always has a prompt step to take, so the clock is not held up. */
  lemma QuietGoesOn(cfg: Config, last: real, s: State) returns (step: Step)
    requires Pending(cfg, last, s) && GateInv(cfg, s)
    ensures s.Enabled(cfg, step) && Prompt(s, step)
  {
    match s.At(IdleLoop)
    case Dozing(until, _) => step := if s.now < until then Tick(until - s.now) else Wakes(IdleLoop);
    case IdleWaiting =>
      assert !s.At(IdleLoop).Locked();
      step := Acquire(IdleLoop, "");
    case IdleInspecting => step := StatusReturns(IdleLoop, Answer(s.container), "");
  }
}
