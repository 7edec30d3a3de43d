/**
 Every critical section ends: the lock's holder has a bounded number of steps left, whoever it is and whatever the
 world answers, and the others neither take the lock from it nor hold it up.
 */
module Sections {
  import opened Prelude
  import opened Lifecycle
  import opened Runner
  import opened Machine
  import opened G = GateInvariant
  import opened P = Progress
  import C = ColdStart
  import Theorems

  /** Steps left to the holder of the lock, at most. */
  function HoldCost(cfg: Config, now: real, p: Phase): nat
    requires cfg.settings.pollSeconds > 0.0
  {
    if p.IdleInspecting? then 2 else if p.Stopping? then 1 else GateCost(cfg, now, p)
  }

  /** The lock is free, or who still holds it and is nearer to letting go. */
  predicate Nearer(cfg: Config, s: State, s': State, who: Actor)
    requires cfg.settings.pollSeconds > 0.0
  {
    || s'.core.gate.owner.None?
    || (s'.core.gate.owner == Some(who) && HoldCost(cfg, s'.now, s'.At(who)) < HoldCost(cfg, s.now, s.At(who)))
  }

  lemma AdvanceNears(cfg: Config, s: State, m: State, who: Actor, next: Next, wall: string)
    requires cfg.settings.pollSeconds > 0.0 && m.now == s.now
    requires if next.Returned? then m.core.gate.owner.None?
             else m.core.gate.owner == Some(who) && HoldCost(cfg, s.now, next.phase) < HoldCost(cfg, s.now, s.At(who))
    ensures Nearer(cfg, s, m.Advance(who, next, wall), who)
  {
    if next.Returned? {
      ReturnFacts(m, who, next.state, wall);
    }
  }

  lemma ProbeNears(cfg: Config, s: State, who: Actor, outcome: ProbeOutcome, wall: string)
    requires cfg.settings.pollSeconds > 0.0 && s.core.gate.owner == Some(who)
    requires s.At(who).Probing? || s.At(who).Polling?
    ensures Nearer(cfg, s, s.Probed(cfg, who, outcome, wall), who)
  {
    var deadline := s.At(who).deadline;
    var (gate, next) :=
      if s.At(who).Probing? then s.core.gate.FirstProbe(cfg.settings, outcome, deadline, s.now)
      else s.core.gate.Polled(cfg.settings, outcome, deadline, s.now);
    var news := if outcome.ModelsAvailable? then Available else NotAvailable;
    var told := s.Guard(gate).Write(Told(who, ProbeCall, news));
    if next.Suspended? && next.phase.Pausing? {
      assert deadline - next.phase.until == deadline - s.now - cfg.settings.pollSeconds;
      OneRoundLess(deadline - s.now, cfg.settings.pollSeconds);
    }
    AdvanceNears(cfg, s, if outcome.ModelsAvailable? then told.Write(Activity(who)) else told, who, next, wall);
  }

  lemma StatusNears(cfg: Config, s: State, who: Actor, seen: Reply<Container>, wall: string)
    requires cfg.settings.pollSeconds > 0.0 && s.core.gate.owner == Some(who)
    requires s.At(who).Inspecting? || (who.IdleLoop? && s.At(who).IdleInspecting?)
    ensures Nearer(cfg, s, s.Inspected(cfg, who, seen, wall), who)
  {
    if s.At(who).Inspecting? {
      var told := s.Write(Told(who, StatusCall, if seen.Answer? then Saw(seen.value) else Broke));
      var (gate, next) := s.core.gate.Inspected(seen, s.At(who).deadline);
      AdvanceNears(cfg, s, told.Guard(gate), who, next, wall);
    }
  }

  lemma StartNears(cfg: Config, s: State, who: Actor, reply: Reply<()>, took: bool, wall: string)
    requires cfg.settings.pollSeconds > 0.0 && s.core.gate.owner == Some(who) && s.At(who).Starting?
    ensures Nearer(cfg, s, s.Started(who, reply, took, wall), who)
  {
    var next := s.core.gate.Started(reply, s.At(who).deadline).1;
    AdvanceNears(cfg, s, s.StartHeard(who, reply, took), who, next, wall);
  }

  lemma WakeNears(cfg: Config, s: State, who: Actor)
    requires cfg.settings.pollSeconds > 0.0 && s.core.gate.owner == Some(who)
    requires s.At(who).Pausing? && s.now >= s.At(who).until
    ensures Nearer(cfg, s, s.Woken(cfg, who), who)
  {
    var p := s.At(who);
    C.MoreBudgetMoreRounds(p.deadline - s.now, p.deadline - p.until, cfg.settings.pollSeconds);
    assert s.Woken(cfg, who).At(who) == Polling(p.deadline);
  }

  /** A step of the holder. */
  lemma HolderNears(cfg: Config, s: State, who: Actor, step: Step)
    requires cfg.settings.pollSeconds > 0.0 && GateInv(cfg, s) && s.core.gate.owner == Some(who)
    requires s.Enabled(cfg, step) && StepOf(step, who)
    ensures Nearer(cfg, s, s.Perform(cfg, step), who)
  {
    assert s.At(who).Locked();
    assert if who.IdleLoop? then IdlePhase(s.At(who)) else CallerPhase(s.At(who));
    match step
    case ProbeReturns(_, outcome, wall) => ProbeNears(cfg, s, who, outcome, wall);
    case StatusReturns(_, seen, wall) => StatusNears(cfg, s, who, seen, wall);
    case StartReturns(_, reply, took, wall) => StartNears(cfg, s, who, reply, took, wall);
    case Wakes(_) => WakeNears(cfg, s, who);
    case StopReturns(_, _) =>
  }

  /** who holds the lock and is where it was. */
  predicate Stays(s: State, s': State, who: Actor) {
    s'.core.gate.owner == Some(who) && s'.At(who) == s.At(who) && s'.now >= s.now
  }

  lemma EnterStays(cfg: Config, s: State, m: State, other: Actor, who: Actor, wall: string)
    requires m.core.gate == s.core.gate && m.phase == s.phase && m.now == s.now
    requires s.core.gate.owner == Some(who) && who != other && !(who.IdleLoop? && !s.core.gate.armed)
    ensures Stays(s, m.Enter(cfg, other, wall), who)
  {
    var gate := m.core.gate.Enter(cfg.settings, m.now);
    var entered := m.Guard(gate).Write(Activity(other));
    var armed := if gate.armed && !m.core.gate.armed then entered.Put(IdleLoop, Dozing(m.now, m.now)) else entered;
    if m.core.gate.Fresh(cfg.settings, m.now).Some? {
      var state := m.core.gate.Fresh(cfg.settings, m.now).value;
      ReturnFacts(armed.Write(FastReady(other, m.core.gate.lastCause)), other, state, wall);
    }
  }

  lemma ResumeStays(cfg: Config, s: State, w: Wrap, who: Actor)
    requires s.Enabled(cfg, Resume(w)) && s.core.gate.owner == Some(who)
    ensures Stays(s, s.Resumed(cfg, w), who)
  {
    var core := s.core.(gate := s.core.gate.Release(s.now));
    assert core.Resolve(cfg, s.worker.id, s.core.task.value.outcome, w).0.gate == core.gate;
  }

  /** A step of anybody else: the lock excludes those that would need it. */
  lemma OthersStay(cfg: Config, s: State, who: Actor, step: Step)
    requires GateInv(cfg, s) && s.core.gate.owner == Some(who) && s.Enabled(cfg, step) && !StepOf(step, who)
    ensures Stays(s, s.Perform(cfg, step), who)
  {
    assert s.At(who).Locked() && (who.IdleLoop? ==> s.core.gate.armed);
    match step
    case Take(wall) =>
      if s.core.queue[0] !in s.core.cancelled {
        var held := s.(core := s.core.(queue := s.core.queue[1..]), worker := Gating(s.core.queue[0]));
        EnterStays(cfg, s, held, Worker, who, wall);
      }
    case CallerEnters(n) => EnterStays(cfg, s, s, Caller(n), who, "");
    case Resume(w) => ResumeStays(cfg, s, w, who);
    case Acquire(_, _) => assert false;
    case ProbeReturns(other, _, _) => OnlyOneInside(cfg, s, who, other);
    case StatusReturns(other, _, _) => OnlyOneInside(cfg, s, who, other);
    case StartReturns(other, _, _, _) => OnlyOneInside(cfg, s, who, other);
    case StopReturns(_, _) => OnlyOneInside(cfg, s, who, IdleLoop);
    case Wakes(other) =>
      if s.At(other).Pausing? {
        OnlyOneInside(cfg, s, who, other);
      }
    case Submit(_, _, _) =>
    case Cancel(_, _) =>
    case EngineSettles(_) =>
    case Tick(_) =>
    case ContainerChanges(_) =>
  }

  lemma OnlyOneInside(cfg: Config, s: State, who: Actor, other: Actor)
    requires GateInv(cfg, s) && s.core.gate.owner == Some(who) && s.At(other).Locked()
    ensures other == who
  {
  }

  // ---- whole sections ----

  predicate HeldBy(cfg: Config, s: State, steps: seq<Step>, who: Actor)
    requires Allowed(cfg, s, steps)
  {
    && Run(cfg, s, steps).core.gate.owner == Some(who)
    && (steps != [] ==> HeldBy(cfg, s, steps[..|steps| - 1], who))
  }

  function StepsOf(steps: seq<Step>, who: Actor): nat {
    if steps == [] then 0
    else StepsOf(steps[..|steps| - 1], who) + (if StepOf(steps[|steps| - 1], who) then 1 else 0)
  }

  lemma NextCosts(cfg: Config, s: State, who: Actor, step: Step)
    requires cfg.settings.pollSeconds > 0.0 && GateInv(cfg, s) && s.core.gate.owner == Some(who)
    requires s.Enabled(cfg, step) && s.Perform(cfg, step).core.gate.owner == Some(who)
    ensures var s' := s.Perform(cfg, step);
            HoldCost(cfg, s'.now, s'.At(who)) + (if StepOf(step, who) then 1 else 0) <= HoldCost(cfg, s.now, s.At(who))
  {
    if StepOf(step, who) {
      HolderNears(cfg, s, who, step);
    } else {
      OthersStay(cfg, s, who, step);
      LaterIsCheaper(cfg, s.now, s.Perform(cfg, step).now, s.At(who));
    }
  }

  /** Just inside the section, nothing but the whole budget is ahead. */
  lemma EntryCosts(cfg: Config, s: State, who: Actor, wall: string)
    requires cfg.settings.pollSeconds > 0.0 && s.Enabled(cfg, Acquire(who, wall))
    requires s.Perform(cfg, Acquire(who, wall)).core.gate.owner == Some(who)
    ensures var s' := s.Perform(cfg, Acquire(who, wall));
            1 <= HoldCost(cfg, s'.now, s'.At(who)) <= 2 * Budget(cfg) + 6
  {
    if !s.At(who).IdleWaiting? {
      var (gate, next) := s.core.gate.Enlock(cfg.settings, who, s.now);
      if next.Returned? {
        ReturnFacts(s.Guard(gate).Write(FastReady(who, s.core.gate.lastCause)), who, next.state, wall);
      } else {
        assert (s.now + cfg.settings.readinessTimeout) - s.now == cfg.settings.readinessTimeout;
      }
    }
  }

  lemma {:induction false} HeldCosts(cfg: Config, s: State, steps: seq<Step>, more: seq<Step>, who: Actor)
    requires Init(cfg, s) && cfg.settings.Valid() && Allowed(cfg, s, steps)
    requires Allowed(cfg, Run(cfg, s, steps), more) && HeldBy(cfg, Run(cfg, s, steps), more, who)
    ensures var a := Run(cfg, s, steps); var b := Run(cfg, a, more);
            StepsOf(more, who) + HoldCost(cfg, b.now, b.At(who)) <= HoldCost(cfg, a.now, a.At(who))
  {
    if more != [] {
      var init := more[..|more| - 1];
      HeldCosts(cfg, s, steps, init, who);
      Theorems.AllowedSplit(cfg, s, steps, init);
      Theorems.Always(cfg, s, steps + init);
      NextCosts(cfg, Run(cfg, Run(cfg, s, steps), init), who, more[|more| - 1]);
    }
  }

  lemma HoldingCosts(cfg: Config, s: State, who: Actor)
    requires cfg.settings.pollSeconds > 0.0 && GateInv(cfg, s) && s.core.gate.owner == Some(who)
    ensures HoldCost(cfg, s.now, s.At(who)) >= 1
  {
    assert s.At(who).Locked();
  }

  /**
   From the step that took the lock on, for as long as it is held, its holder makes fewer than 2 * rounds + 6 steps,
   where rounds is the readiness timeout in polls, rounded up: then it has let go. Others' steps do not count.
   */
  lemma EverySectionEnds(cfg: Config, s: State, steps: seq<Step>, who: Actor, wall: string, more: seq<Step>)
    requires Init(cfg, s) && cfg.settings.Valid() && Allowed(cfg, s, steps + [Acquire(who, wall)])
    requires var a := Run(cfg, s, steps + [Acquire(who, wall)]); Allowed(cfg, a, more) && HeldBy(cfg, a, more, who)
    ensures StepsOf(more, who) < 2 * Budget(cfg) + 6
  {
    var taken := steps + [Acquire(who, wall)];
    HeldCosts(cfg, s, taken, more, who);
    Theorems.AllowedSplit(cfg, s, taken, more);
    Theorems.Always(cfg, s, taken + more);
    HoldingCosts(cfg, Run(cfg, Run(cfg, s, taken), more), who);
    HeldAtFirst(cfg, Run(cfg, s, taken), more, who);
    assert taken[..|steps|] == steps;
    EntryCosts(cfg, Run(cfg, s, steps), who, wall);
  }

  lemma {:induction false} HeldAtFirst(cfg: Config, s: State, more: seq<Step>, who: Actor)
    requires Allowed(cfg, s, more) && HeldBy(cfg, s, more, who)
    ensures s.core.gate.owner == Some(who)
    decreases |more|
  {
    if more != [] {
      HeldAtFirst(cfg, s, more[..|more| - 1], who);
    }
  }
}
