/**
 Every job ends: a number that each of the worker's steps decreases and that nothing but a new submission
 increases, whatever mix of failures, refusals, timeouts and cancellations the world produces.
 */
module Progress {
  import opened Prelude
  import opened Jobs
  import opened Lifecycle
  import opened Artifacts
  import opened Runner
  import opened Machine
  import opened JobInvariant
  import opened G = GateInvariant
  import C = ColdStart

  /** The steps the worker is waiting for or takes itself. */
  predicate WorkerStep(step: Step) {
    match step
    case Take(_) => true
    case EngineSettles(_) => true
    case Resume(_) => true
    case Acquire(who, _) => who.Worker?
    case ProbeReturns(who, _, _) => who.Worker?
    case StatusReturns(who, _, _) => who.Worker?
    case StartReturns(who, _, _, _) => who.Worker?
    case Wakes(who) => who.Worker?
    case _ => false
  }

  function Budget(cfg: Config): nat
    requires cfg.settings.pollSeconds > 0.0
  {
    C.Rounds(cfg.settings.readinessTimeout, cfg.settings.pollSeconds)
  }

  /** Worker steps left in ensure_ready and after it, at most. */
  function GateCost(cfg: Config, now: real, p: Phase): nat
    requires cfg.settings.pollSeconds > 0.0
  {
    var poll := cfg.settings.pollSeconds;
    match p
    case Waiting => 2 * Budget(cfg) + 7
    case Probing(deadline) => 2 * C.Rounds(deadline - now, poll) + 6
    case Inspecting(deadline) => 2 * C.Rounds(deadline - now, poll) + 5
    case Starting(deadline) => 2 * C.Rounds(deadline - now, poll) + 4
    case Polling(deadline) => 2 * C.Rounds(deadline - now, poll) + 3
    case Pausing(deadline, until) => 2 * C.Rounds(deadline - until, poll) + 4
    case _ => 0
  }

  function WorkerCost(cfg: Config, s: State): nat
    requires cfg.settings.pollSeconds > 0.0
  {
    match s.worker
    case Parked => 0
    case Gating(_) => GateCost(cfg, s.now, s.At(Worker))
    case Busy(_) => if s.core.task.Some? && s.core.task.value.InFlight? then 2 else 1
  }

  function Cost(cfg: Config, s: State): nat
    requires cfg.settings.pollSeconds > 0.0
  {
    |s.core.queue| * (2 * Budget(cfg) + 8) + WorkerCost(cfg, s)
  }

  lemma OneRoundLess(x: real, p: real)
    requires p > 0.0 && x > 0.0
    ensures C.Rounds(x - p, p) + 1 <= C.Rounds(x, p)
  {
    var q := x / p;
    assert q * p == x;
    var r := (x - p) / p;
    assert r * p == x - p;
    SameFactor(r, q - 1.0, p);
    assert q > 0.0;
  }

  lemma SameFactor(a: real, b: real, p: real)
    requires p > 0.0 && a * p == b * p
    ensures a == b
  {
    assert (a - b) * p == 0.0;
  }

  lemma LaterIsCheaper(cfg: Config, now: real, later: real, p: Phase)
    requires cfg.settings.pollSeconds > 0.0 && now <= later
    ensures GateCost(cfg, later, p) <= GateCost(cfg, now, p)
  {
    if p.Probing? || p.Inspecting? || p.Starting? || p.Polling? {
      C.MoreBudgetMoreRounds(p.deadline - later, p.deadline - now, cfg.settings.pollSeconds);
    }
  }

  /** After ensure_ready returned to the worker there are at most two steps left for this job. */
  lemma ReturnCost(cfg: Config, s: State, state: ReadinessState, wall: string)
    requires cfg.settings.pollSeconds > 0.0 && s.worker.Gating?
    ensures var s' := s.Return(Worker, state, wall);
            !s'.worker.Gating? && WorkerCost(cfg, s') <= 2 && s'.core.queue == s.core.queue
  {
  }

  lemma AdvanceCost(cfg: Config, s: State, next: Next, wall: string)
    requires cfg.settings.pollSeconds > 0.0 && s.worker.Gating?
    ensures var s' := s.Advance(Worker, next, wall);
            && s'.core.queue == s.core.queue
            && WorkerCost(cfg, s') <= (if next.Returned? then 2 else GateCost(cfg, s.now, next.phase))
  {
    if next.Returned? {
      ReturnCost(cfg, s, next.state, wall);
    }
  }

  lemma ProbeCost(cfg: Config, s: State, outcome: ProbeOutcome, wall: string)
    requires cfg.settings.pollSeconds > 0.0 && s.worker.Gating? && (s.At(Worker).Probing? || s.At(Worker).Polling?)
    ensures Cost(cfg, s.Probed(cfg, Worker, outcome, wall)) < Cost(cfg, s)
  {
    var deadline := s.At(Worker).deadline;
    var (gate, next) :=
      if s.At(Worker).Probing? then s.core.gate.FirstProbe(cfg.settings, outcome, deadline, s.now)
      else s.core.gate.Polled(cfg.settings, outcome, deadline, s.now);
    var news := if outcome.ModelsAvailable? then Available else NotAvailable;
    var told := s.Guard(gate).Write(Told(Worker, ProbeCall, news));
    var m := if outcome.ModelsAvailable? then told.Write(Activity(Worker)) else told;
    AdvanceCost(cfg, m, next, wall);
    if next.Suspended? && next.phase.Pausing? {
      assert deadline - next.phase.until == deadline - s.now - cfg.settings.pollSeconds;
      OneRoundLess(deadline - s.now, cfg.settings.pollSeconds);
    }
  }

  lemma StatusCost(cfg: Config, s: State, seen: Reply<Container>, wall: string)
    requires cfg.settings.pollSeconds > 0.0 && s.worker.Gating? && s.At(Worker).Inspecting?
    ensures Cost(cfg, s.Inspected(cfg, Worker, seen, wall)) < Cost(cfg, s)
  {
    var told := s.Write(Told(Worker, StatusCall, if seen.Answer? then Saw(seen.value) else Broke));
    var (gate, next) := s.core.gate.Inspected(seen, s.At(Worker).deadline);
    AdvanceCost(cfg, told.Guard(gate), next, wall);
  }

  lemma StartCost(cfg: Config, s: State, reply: Reply<()>, took: bool, wall: string)
    requires cfg.settings.pollSeconds > 0.0 && s.worker.Gating? && s.At(Worker).Starting?
    ensures Cost(cfg, s.Started(Worker, reply, took, wall)) < Cost(cfg, s)
  {
    AdvanceCost(cfg, s.StartHeard(Worker, reply, took), s.core.gate.Started(reply, s.At(Worker).deadline).1, wall);
  }

  lemma AcquireCost(cfg: Config, s: State, wall: string)
    requires cfg.settings.pollSeconds > 0.0 && s.worker.Gating? && s.At(Worker).Waiting?
    ensures Cost(cfg, s.Acquired(cfg, Worker, wall)) < Cost(cfg, s)
  {
    var (gate, next) := s.core.gate.Enlock(cfg.settings, Worker, s.now);
    var m := if next.Returned? then s.Guard(gate).Write(FastReady(Worker, s.core.gate.lastCause)) else s.Guard(gate);
    AdvanceCost(cfg, m, next, wall);
  }

  lemma TakeCost(cfg: Config, s: State, wall: string)
    requires cfg.settings.pollSeconds > 0.0 && s.worker.Parked? && s.core.queue != []
    ensures Cost(cfg, s.Took(cfg, wall)) < Cost(cfg, s)
  {
    var id := s.core.queue[0];
    var s' := s.Took(cfg, wall);
    var popped := s.(core := s.core.(queue := s.core.queue[1..]));
    if id !in s.core.cancelled {
      var held := popped.(worker := Gating(id));
      var gate := held.core.gate.Enter(cfg.settings, s.now);
      var entered := held.Guard(gate).Write(Activity(Worker));
      var armed := if gate.armed && !s.core.gate.armed then entered.Put(IdleLoop, Dozing(s.now, s.now)) else entered;
      if s.core.gate.Fresh(cfg.settings, s.now).Some? {
        ReturnCost(cfg, armed.Write(FastReady(Worker, s.core.gate.lastCause)),
                   s.core.gate.Fresh(cfg.settings, s.now).value, wall);
      }
    }
    assert s'.core.queue == s.core.queue[1..] && WorkerCost(cfg, s') <= 2 * Budget(cfg) + 7;
    OneLess(|s.core.queue|, 2 * Budget(cfg) + 8);
  }

  lemma OneLess(n: nat, k: nat)
    requires n > 0
    ensures (n - 1) * k == n * k - k
  {
  }

  lemma ResumeCost(cfg: Config, s: State, w: Wrap)
    requires cfg.settings.pollSeconds > 0.0 && JobInv(s) && s.Enabled(cfg, Resume(w))
    ensures Cost(cfg, s.Resumed(cfg, w)) < Cost(cfg, s)
  {
    assert s.worker.id in LedgerOf(s).hand;
    ConcludeFacts(cfg, s.core, s.worker.id, s.core.task.value.outcome, s.now, w);
  }

  /** The pause is over: one probe and the rest of the budget are left. */
  lemma WakeCost(cfg: Config, s: State)
    requires cfg.settings.pollSeconds > 0.0 && s.worker.Gating? && s.Enabled(cfg, Wakes(Worker))
             && s.At(Worker).Pausing?
    ensures Cost(cfg, s.Woken(cfg, Worker)) < Cost(cfg, s)
  {
    var p := s.At(Worker);
    C.MoreBudgetMoreRounds(p.deadline - s.now, p.deadline - p.until, cfg.settings.pollSeconds);
    assert s.Woken(cfg, Worker).At(Worker) == Polling(p.deadline);
  }

  /** Whatever the worker was waiting for, it is one step nearer to the end. */
  lemma WorkerStepCosts(cfg: Config, s: State, step: Step)
    requires cfg.settings.pollSeconds > 0.0 && JobInv(s) && GateInv(cfg, s) && s.Enabled(cfg, step) && WorkerStep(step)
    ensures Cost(cfg, s.Perform(cfg, step)) < Cost(cfg, s)
  {
    match step
    case Take(wall) => TakeCost(cfg, s, wall);
    case EngineSettles(_) =>
      assert s.worker.Busy?;
      assert s.Perform(cfg, step).core.queue == s.core.queue;
    case Resume(w) => ResumeCost(cfg, s, w);
    case Acquire(who, wall) => AcquireCost(cfg, s, wall);
    case ProbeReturns(who, outcome, wall) => ProbeCost(cfg, s, outcome, wall);
    case StatusReturns(who, seen, wall) => StatusCost(cfg, s, seen, wall);
    case StartReturns(who, reply, took, wall) => StartCost(cfg, s, reply, took, wall);
    case Wakes(who) => WakeCost(cfg, s);
  }

  /** The worker, its queue, its task and its phase are the same. */
  ghost predicate Leaves(s: State, s': State) {
    && s'.worker == s.worker && s'.core.queue == s.core.queue && s'.core.task == s.core.task
    && s'.At(Worker) == s.At(Worker) && s'.now == s.now
  }

  lemma EnterLeaves(cfg: Config, s: State, n: nat)
    ensures Leaves(s, s.Enter(cfg, Caller(n), ""))
  {
  }

  lemma AdvanceLeaves(s: State, m: State, who: Actor, next: Next, wall: string)
    requires !who.Worker? && Leaves(s, m)
    ensures Leaves(s, m.Advance(who, next, wall))
  {
  }

  lemma ProbeLeaves(cfg: Config, s: State, who: Actor, outcome: ProbeOutcome, wall: string)
    requires GateInv(cfg, s) && s.Enabled(cfg, ProbeReturns(who, outcome, wall))
             && !WorkerStep(ProbeReturns(who, outcome, wall))
    ensures Leaves(s, s.Perform(cfg, ProbeReturns(who, outcome, wall)))
  {
    var (gate, next) :=
      if s.At(who).Probing? then s.core.gate.FirstProbe(cfg.settings, outcome, s.At(who).deadline, s.now)
      else s.core.gate.Polled(cfg.settings, outcome, s.At(who).deadline, s.now);
    var told := s.Guard(gate).Write(Told(who, ProbeCall, if outcome.ModelsAvailable? then Available else NotAvailable));
    AdvanceLeaves(s, if outcome.ModelsAvailable? then told.Write(Activity(who)) else told, who, next, wall);
  }

  lemma AcquireLeaves(cfg: Config, s: State, who: Actor, wall: string)
    requires GateInv(cfg, s) && s.Enabled(cfg, Acquire(who, wall)) && !WorkerStep(Acquire(who, wall))
    ensures Leaves(s, s.Perform(cfg, Acquire(who, wall)))
  {
    if !s.At(who).IdleWaiting? {
      var (gate, next) := s.core.gate.Enlock(cfg.settings, who, s.now);
      var held := if next.Returned? then s.Guard(gate).Write(FastReady(who, s.core.gate.lastCause)) else s.Guard(gate);
      AdvanceLeaves(s, held, who, next, wall);
    }
  }

  lemma StatusLeaves(cfg: Config, s: State, who: Actor, seen: Reply<Container>, wall: string)
    requires GateInv(cfg, s) && s.Enabled(cfg, StatusReturns(who, seen, wall))
             && !WorkerStep(StatusReturns(who, seen, wall))
    ensures Leaves(s, s.Perform(cfg, StatusReturns(who, seen, wall)))
  {
    if !s.At(who).IdleInspecting? {
      var told := s.Write(Told(who, StatusCall, if seen.Answer? then Saw(seen.value) else Broke));
      var (gate, next) := s.core.gate.Inspected(seen, s.At(who).deadline);
      AdvanceLeaves(s, told.Guard(gate), who, next, wall);
    }
  }

  lemma StartLeaves(cfg: Config, s: State, who: Actor, reply: Reply<()>, took: bool, wall: string)
    requires GateInv(cfg, s) && s.Enabled(cfg, StartReturns(who, reply, took, wall))
    requires !WorkerStep(StartReturns(who, reply, took, wall))
    ensures Leaves(s, s.Perform(cfg, StartReturns(who, reply, took, wall)))
  {
    AdvanceLeaves(s, s.StartHeard(who, reply, took), who, s.core.gate.Started(reply, s.At(who).deadline).1, wall);
  }

  lemma OthersLeaveWorker(cfg: Config, s: State, step: Step)
    requires GateInv(cfg, s) && s.Enabled(cfg, step)
    requires !WorkerStep(step) && !step.Submit? && !step.Cancel? && !step.Tick?
    ensures Leaves(s, s.Perform(cfg, step))
  {
    match step
    case CallerEnters(n) => EnterLeaves(cfg, s, n);
    case Acquire(who, wall) => AcquireLeaves(cfg, s, who, wall);
    case ProbeReturns(who, outcome, wall) => ProbeLeaves(cfg, s, who, outcome, wall);
    case StatusReturns(who, seen, wall) => StatusLeaves(cfg, s, who, seen, wall);
    case StartReturns(who, reply, took, wall) => StartLeaves(cfg, s, who, reply, took, wall);
    case StopReturns(_, _) =>
    case Wakes(_) =>
    case ContainerChanges(_) =>
  }

  /** Steps of other actors and of the world cost the worker nothing. */
  lemma OtherStepCosts(cfg: Config, s: State, step: Step)
    requires cfg.settings.pollSeconds > 0.0 && JobInv(s) && GateInv(cfg, s) && s.Enabled(cfg, step)
    requires !WorkerStep(step) && !step.Submit?
    ensures Cost(cfg, s.Perform(cfg, step)) <= Cost(cfg, s)
  {
    var s' := s.Perform(cfg, step);
    if step.Cancel? {
      assert s'.core.queue == s.core.queue && s'.worker == s.worker && s'.phase == s.phase;
    } else if step.Tick? {
      LaterIsCheaper(cfg, s.now, s'.now, s.At(Worker));
    } else {
      OthersLeaveWorker(cfg, s, step);
    }
  }

  function WorkerSteps(steps: seq<Step>): nat {
    if steps == [] then 0
    else WorkerSteps(steps[..|steps| - 1]) + (if WorkerStep(steps[|steps| - 1]) then 1 else 0)
  }

  predicate NoSubmissions(steps: seq<Step>) {
    forall step <- steps :: !step.Submit?
  }

  /** What a step of the given actor looks like. */
  predicate StepOf(step: Step, who: Actor) {
    match step
    case Acquire(a, _) => a == who
    case ProbeReturns(a, _, _) => a == who
    case StatusReturns(a, _, _) => a == who
    case StartReturns(a, _, _, _) => a == who
    case Wakes(a) => a == who
    case StopReturns(_, _) => who.IdleLoop?
    case _ => false
  }

  /** Some answer, or the passing of time, lets the holder of the lock move. */
  lemma HolderMoves(cfg: Config, s: State, who: Actor) returns (step: Step, dt: real)
    requires GateInv(cfg, s) && s.core.gate.owner == Some(who)
    ensures dt >= 0.0 && s.(now := s.now + dt).Enabled(cfg, step) && StepOf(step, who)
  {
    assert s.At(who).Locked();
    dt := 0.0;
    match s.At(who)
    case Probing(_) => step := ProbeReturns(who, Unreachable, "");
    case Polling(_) => step := ProbeReturns(who, Unreachable, "");
    case Inspecting(_) => step := StatusReturns(who, Refusal(""), "");
    case IdleInspecting => step := StatusReturns(who, Refusal(""), "");
    case Starting(_) => step := StartReturns(who, Refusal(""), false, "");
    case Stopping => step := StopReturns(Refusal(""), false);
    case Pausing(_, until) =>
      step := Wakes(who);
      dt := if until > s.now then until - s.now else 0.0;
  }

  /** A job that is not terminal is still in the queue or in the worker's hand. */
  lemma Unfinished(s: State, id: JobId)
    requires JobInv(s) && id in s.core.store.records && !s.core.store.records[id].status.Terminal()
    ensures id in s.core.queue || id in Hand(s.worker)
  {
    var l := LedgerOf(s);
    assert id in l.status && id in l.submitted;
    assert l.submitted == l.processed + l.hand + l.queue;
    assert id !in l.processed;
  }

  lemma GateMoves(cfg: Config, s: State) returns (step: Step, dt: real)
    requires GateInv(cfg, s) && s.worker.Gating?
    ensures dt >= 0.0 && s.(now := s.now + dt).Enabled(cfg, step)
    ensures StepOf(step, Worker)
            || (s.At(Worker).Waiting? && s.core.gate.owner.Some? && StepOf(step, s.core.gate.owner.value))
  {
    assert CallerPhase(s.At(Worker));
    match s.core.gate.owner
    case None =>
      assert !s.At(Worker).Locked();
      step, dt := Acquire(Worker, ""), 0.0;
    case Some(who) =>
      step, dt := HolderMoves(cfg, s, who);
      assert s.At(Worker).Waiting? || who.Worker?;
  }

  /** After dt at most, the worker can take the step, or the holder of the lock it waits for can. */
  ghost predicate CanMove(cfg: Config, s: State, step: Step, dt: real) {
    && dt >= 0.0 && s.(now := s.now + dt).Enabled(cfg, step)
    && (WorkerStep(step) || (s.At(Worker).Waiting? && s.core.gate.owner.Some? && StepOf(step, s.core.gate.owner.value)))
  }

  /** No deadlock: while a job is unfinished, the worker can move, or the lock it waits for has a holder that can. */
  lemma NeverStuck(cfg: Config, s: State, id: JobId) returns (step: Step, dt: real)
    requires JobInv(s) && GateInv(cfg, s)
    requires id in s.core.store.records && !s.core.store.records[id].status.Terminal()
    ensures CanMove(cfg, s, step, dt)
  {
    Unfinished(s, id);
    step, dt := WorkerMoves(cfg, s);
  }

  lemma WorkerMoves(cfg: Config, s: State) returns (step: Step, dt: real)
    requires Slot(s) && GateInv(cfg, s) && (s.worker.Parked? ==> s.core.queue != [])
    ensures CanMove(cfg, s, step, dt)
  {
    match s.worker
    case Parked => step, dt := Take(""), 0.0;
    case Busy(_) =>
      step := if s.core.task.value.InFlight? then EngineSettles(Errored(""))
              else Resume(Wrap("", "", 0.0, Fault(0, 0)));
      dt := 0.0;
    case Gating(_) => step, dt := GateMoves(cfg, s);
  }

  lemma NoProduct(n: nat, k: nat)
    requires k > 0 && n * k == 0
    ensures n == 0
  {
  }

  /** Once nothing is left to do, every job has ended. */
  lemma DoneMeansDone(cfg: Config, s: State)
    requires cfg.settings.pollSeconds > 0.0 && JobInv(s) && GateInv(cfg, s) && Cost(cfg, s) == 0
    ensures forall id <- s.core.store.records :: s.core.store.records[id].status.Terminal()
  {
    NoProduct(|s.core.queue|, 2 * Budget(cfg) + 8);
    assert CallerPhase(s.At(Worker));
    assert s.worker.Parked?;
    forall id | id in s.core.store.records
      ensures s.core.store.records[id].status.Terminal()
    {
      if !s.core.store.records[id].status.Terminal() {
        Unfinished(s, id);
        assert false;
      }
    }
  }
}
