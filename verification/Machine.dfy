/**
 The runner, the readiness controller, the idle loop and the world around them as one transition system.

 A step is a stretch of code between two suspensions, or the world's answer to an awaited call. Every
 probe, controller call and engine call may return anything, at any later step; the lock may pick any
 waiter; any number of callers may ask for readiness; jobs are submitted and cancelled at will.
 */
module Machine {
  import opened Prelude
  import opened Jobs
  import opened Lifecycle
  import opened Runner

  /** The worker coroutine: in queue.get(), in ensure_ready() for a job, or awaiting its engine call. */
  datatype WorkerAt = Parked | Gating(id: JobId) | Busy(id: JobId)

  datatype Call = ProbeCall | StatusCall | StartCall | StopCall

  datatype News = Available | NotAvailable | Saw(container: Container) | Fine | Broke

  /** What a bystander with a clock would note down. */
  datatype What =
    | Asked(who: Actor, call: Call)
    | Told(who: Actor, call: Call, news: News)
    | Activity(who: Actor)                    // entry of ensure_ready, a READY completion, a lease release
    | FastReady(who: Actor, cause: string)    // READY returned from the cache

  datatype Note = Note(at: real, what: What)

  /** Controller calls that changed the container; lost ones were reported as failures all the same. */
  datatype Tally = Tally(starts: nat, lostStarts: nat, stops: nat, lostStops: nat)

  datatype Step =
    | Submit(sub: Submission, wall: string, id: JobId)
    | Cancel(id: JobId, wall: string)
    | Take(wall: string)
    | CallerEnters(n: nat)
    | Acquire(who: Actor, wall: string)
    | ProbeReturns(who: Actor, outcome: ProbeOutcome, wall: string)
    | StatusReturns(who: Actor, seen: Reply<Container>, wall: string)
    | StartReturns(who: Actor, reply: Reply<()>, took: bool, wall: string)
    | StopReturns(reply: Reply<()>, took: bool)
    | Wakes(who: Actor)
    | EngineSettles(ended: Outcome)
    | Resume(wrap: Wrap)
    | Tick(dt: real)
    | ContainerChanges(to: Container)

  function CallOf(p: Phase): Option<Call> {
    match p
    case Probing(_) => Some(ProbeCall)
    case Polling(_) => Some(ProbeCall)
    case Inspecting(_) => Some(StatusCall)
    case IdleInspecting => Some(StatusCall)
    case Starting(_) => Some(StartCall)
    case Stopping => Some(StopCall)
    case _ => None
  }

  function NewsOf<T>(reply: Reply<T>): News {
    if reply.Answer? then Fine else Broke
  }

  /** submitted and processed are histories: ids in the order of submission and of leaving _process. */
  datatype State = State(
    core: Core,
    worker: WorkerAt,
    phase: map<Actor, Phase>,
    now: real,
    container: Container,
    tally: Tally,
    trace: seq<Note>,
    submitted: seq<JobId>,
    processed: seq<JobId>,
    escaped: nat)
  {
    function At(who: Actor): Phase {
      if who in phase then phase[who] else Out
    }

    function Write(what: What): State {
      this.(trace := trace + [Note(now, what)])
    }

    function Guard(gate: Gate): State {
      this.(core := core.(gate := gate))
    }

    function Put(who: Actor, p: Phase): State {
      this.(phase := phase[who := p])
    }

    /** The coroutine is suspended in p, which issues p's call if it has one. */
    function Suspend(who: Actor, p: Phase): State {
      match CallOf(p)
      case Some(call) => Put(who, p).Write(Asked(who, call))
      case None => Put(who, p)
    }

    /** _process has come this far with id; an escaped exception meets the net in _loop. */
    function Proceed(id: JobId, progress: Progress): State {
      match progress
      case Generating => this.(worker := Busy(id))
      case Processed => this.(worker := Parked, processed := processed + [id])
      case Escaped(_) => this.(worker := Parked, processed := processed + [id], escaped := escaped + 1)
    }

    /** ensure_ready returns to who; the worker goes on in the same step. */
    function Return(who: Actor, state: ReadinessState, wall: string): State {
      var left := Put(who, Out);
      if who.Worker? && worker.Gating? then
        var (c, progress) := core.Admit(worker.id, state, wall);
        left.(core := c).Proceed(worker.id, progress)
      else left
    }

    function Advance(who: Actor, next: Next, wall: string): State {
      match next
      case Returned(state) => Return(who, state, wall)
      case Suspended(p) => Suspend(who, p)
    }

    /** ensure_ready up to the lock; the first activity also creates the idle loop's task. */
    function Enter(cfg: Config, who: Actor, wall: string): State {
      var gate := core.gate.Enter(cfg.settings, now);
      var born := gate.armed && !core.gate.armed;
      var entered := Guard(gate).Write(Activity(who));
      var armed := if born then entered.Put(IdleLoop, Dozing(now, now)) else entered;
      match core.gate.Fresh(cfg.settings, now)
      case Some(state) => armed.Write(FastReady(who, core.gate.lastCause)).Return(who, state, wall)
      case None => armed.Put(who, Waiting)
    }

    predicate Enabled(cfg: Config, step: Step) {
      match step
      case Submit(_, _, id) => id !in core.store.records && !(id in core.disk && core.disk[id].LinkTo?)
      case Cancel(_, _) => true
      case Take(_) => worker.Parked? && core.queue != []
      case CallerEnters(n) => At(Caller(n)).Out?
      case Acquire(who, _) => core.gate.owner.None? && (At(who).Waiting? || At(who).IdleWaiting?)
      case ProbeReturns(who, _, _) => At(who).Probing? || At(who).Polling?
      case StatusReturns(who, seen, _) =>
        (At(who).Inspecting? || At(who).IdleInspecting?) && (seen.Answer? ==> seen.value == container)
      case StartReturns(who, reply, took, _) =>
        At(who).Starting? && (reply.Answer? ==> took) && (took ==> !container.ContainerAbsent?)
      case StopReturns(reply, took) =>
        At(IdleLoop).Stopping? && (reply.Answer? ==> took || container.ContainerAbsent?)
        && (took ==> !container.ContainerAbsent?)
      case Wakes(who) => (At(who).Pausing? || At(who).Dozing?) && now >= At(who).until
      case EngineSettles(outcome) =>
        core.task.Some? && core.task.value.InFlight? && (outcome.Aborted? ==> core.task.value.cancelRequested)
      case Resume(_) => worker.Busy? && core.task.Some? && core.task.value.Done?
      case Tick(dt) => dt > 0.0
      case ContainerChanges(_) => true
    }

    function Submitted(sub: Submission, wall: string, id: JobId): State {
      this.(core := core.Submit(sub, wall, id), submitted := submitted + [id])
    }

    function Took(cfg: Config, wall: string): State
      requires core.queue != []
    {
      var id := core.queue[0];
      var popped := this.(core := core.(queue := core.queue[1..]));
      if id in core.cancelled
      then popped.(core := popped.core.EnsureCancelled(id, wall)).Proceed(id, Processed)
      else popped.(worker := Gating(id)).Enter(cfg, Worker, wall)
    }

    function Acquired(cfg: Config, who: Actor, wall: string): State {
      if At(who).IdleWaiting? then Guard(core.gate.(owner := Some(who))).Suspend(who, IdleInspecting)
      else
        var (gate, next) := core.gate.Enlock(cfg.settings, who, now);
        if next.Returned? then Guard(gate).Write(FastReady(who, core.gate.lastCause)).Return(who, next.state, wall)
        else Guard(gate).Suspend(who, next.phase)
    }

    function Probed(cfg: Config, who: Actor, outcome: ProbeOutcome, wall: string): State
      requires At(who).Probing? || At(who).Polling?
    {
      var deadline := At(who).deadline;
      var (gate, next) :=
        if At(who).Probing? then core.gate.FirstProbe(cfg.settings, outcome, deadline, now)
        else core.gate.Polled(cfg.settings, outcome, deadline, now);
      var told := Guard(gate).Write(Told(who, ProbeCall, if outcome.ModelsAvailable? then Available else NotAvailable));
      (if outcome.ModelsAvailable? then told.Write(Activity(who)) else told).Advance(who, next, wall)
    }

    function Inspected(cfg: Config, who: Actor, reply: Reply<Container>, wall: string): State
      requires At(who).Inspecting? || At(who).IdleInspecting?
    {
      var told := Write(Told(who, StatusCall, if reply.Answer? then Saw(reply.value) else Broke));
      if At(who).IdleInspecting? then
        var (gate, p) := core.gate.IdleInspected(cfg.settings, reply, now);
        told.Guard(gate).Suspend(who, p)
      else
        var (gate, next) := core.gate.Inspected(reply, At(who).deadline);
        told.Guard(gate).Advance(who, next, wall)
    }

    /** start() has answered: noted, counted, and in force if it took. */
    function StartHeard(who: Actor, reply: Reply<()>, took: bool): State
      requires At(who).Starting?
    {
      var counted := if !took then tally
                     else if reply.Answer? then tally.(starts := tally.starts + 1)
                     else tally.(lostStarts := tally.lostStarts + 1);
      Guard(core.gate.Started(reply, At(who).deadline).0)
        .(tally := counted, container := if took then ContainerRunning else container)
        .Write(Told(who, StartCall, NewsOf(reply)))
    }

    function Started(who: Actor, reply: Reply<()>, took: bool, wall: string): State
      requires At(who).Starting?
    {
      StartHeard(who, reply, took).Advance(who, core.gate.Started(reply, At(who).deadline).1, wall)
    }

    function Stopped(cfg: Config, reply: Reply<()>, took: bool): State {
      var (gate, p) := core.gate.IdleDone(cfg.settings, now);
      var counted := if !took then tally
                     else if reply.Answer? then tally.(stops := tally.stops + 1)
                     else tally.(lostStops := tally.lostStops + 1);
      Guard(gate).(tally := counted, container := if took then ContainerStopped else container)
        .Write(Told(IdleLoop, StopCall, NewsOf(reply))).Suspend(IdleLoop, p)
    }

    function Woken(cfg: Config, who: Actor): State
      requires At(who).Pausing? || At(who).Dozing?
    {
      if At(who).Dozing? then Put(who, core.gate.IdleTurn(cfg.settings, now))
      else Suspend(who, Polling(At(who).deadline))
    }

    function Resumed(cfg: Config, w: Wrap): State
      requires worker.Busy? && core.task.Some? && core.task.value.Done?
    {
      var (c, progress) := core.Conclude(cfg, worker.id, core.task.value.outcome, now, w);
      this.(core := c).Write(Activity(Worker)).Proceed(worker.id, progress)
    }

    function Perform(cfg: Config, step: Step): State
      requires Enabled(cfg, step)
    {
      match step
      case Submit(sub, wall, id) => Submitted(sub, wall, id)
      case Cancel(id, wall) => this.(core := core.Cancel(id, wall).0)
      case Take(wall) => Took(cfg, wall)
      case CallerEnters(n) => Enter(cfg, Caller(n), "")
      case Acquire(who, wall) => Acquired(cfg, who, wall)
      case ProbeReturns(who, outcome, wall) => Probed(cfg, who, outcome, wall)
      case StatusReturns(who, seen, wall) => Inspected(cfg, who, seen, wall)
      case StartReturns(who, reply, took, wall) => Started(who, reply, took, wall)
      case StopReturns(reply, took) => Stopped(cfg, reply, took)
      case Wakes(who) => Woken(cfg, who)
      case EngineSettles(outcome) => this.(core := core.(task := Some(Done(outcome))))
      case Resume(w) => Resumed(cfg, w)
      case Tick(dt) => this.(now := now + dt)
      case ContainerChanges(to) => this.(container := to)
    }
  }

  /** A fresh process on any disk; the idle monitor may have been armed at startup. */
  ghost predicate Init(cfg: Config, s: State) {
    && s.core.store == Store(map[], map[])
    && s.core.queue == [] && s.core.cancelled == {} && s.core.current.None? && s.core.task.None?
    && s.core.gate.cached.None? && s.core.gate.leases == 0 && s.core.gate.lastActivity == s.now
    && s.core.gate.lastCause == "" && s.core.gate.owner.None?
    && (s.core.gate.armed ==> cfg.settings.controlled && cfg.settings.idleInterval > 0.0)
    && s.worker.Parked?
    && s.phase == (if s.core.gate.armed then map[IdleLoop := Dozing(s.now, s.now)] else map[])
    && s.tally == Tally(0, 0, 0, 0)
    && s.trace == [] && s.submitted == [] && s.processed == [] && s.escaped == 0
  }

  predicate Allowed(cfg: Config, s: State, steps: seq<Step>)
    decreases |steps|, 0
  {
    steps == [] ||
    (Allowed(cfg, s, steps[..|steps| - 1])
     && Run(cfg, s, steps[..|steps| - 1]).Enabled(cfg, steps[|steps| - 1]))
  }

  function Run(cfg: Config, s: State, steps: seq<Step>): State
    requires Allowed(cfg, s, steps)
    decreases |steps|, 1
  {
    if steps == [] then s
    else Run(cfg, s, steps[..|steps| - 1]).Perform(cfg, steps[|steps| - 1])
  }

  /** The machine's worker step is the runner's method: same core, and suspended in the same case. */
  lemma TookIsTake(cfg: Config, s: State, wall: string)
    requires s.worker.Parked? && s.core.queue != []
    ensures s.Took(cfg, wall).core == s.core.Take(cfg, s.now, wall).0
    ensures s.core.Take(cfg, s.now, wall).1.None? <==> s.Took(cfg, wall).worker.Gating?
  {
  }
}
