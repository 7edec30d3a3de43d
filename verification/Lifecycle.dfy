/**
 The readiness decision, the lease and the idle-down loop (api/lifecycle/readiness.py).

 Coroutines are cut at their awaits. Each stretch of code between two suspensions is a method of
 class Readiness; what it does to the object's fields is a function on the value Gate, and Phase says
 where a coroutine is suspended in between.
 */
module Lifecycle {
  import opened Prelude

  datatype ReadinessState = Ready | Warming | Unavailable

  datatype ProbeOutcome = ModelsAvailable | Loading | Unreachable

  datatype Container = ContainerRunning | ContainerStopped | ContainerAbsent

  /** What an awaited controller call delivers: its value, or a ControllerError with its message. */
  datatype Reply<+T> = Answer(value: T) | Refusal(message: string)

  /** Who runs readiness code: the job worker, any other caller of ensure_ready, the idle loop. */
  datatype Actor = Worker | Caller(n: nat) | IdleLoop

  /** timeoutText is the readiness timeout as the failure message prints it. */
  datatype Settings = Settings(
    cacheSeconds: real, readinessTimeout: real, timeoutText: string,
    idleInterval: real, pollSeconds: real, controlled: bool)
  {
    /** What api/lifecycle/controller.py:187-219 guarantees of the parsed durations. */
    ghost predicate Valid() {
      readinessTimeout > 0.0 && idleInterval >= 0.0 && pollSeconds > 0.0
    }
  }

  datatype Phase =
    | Out                                         // not inside readiness code
    | Waiting                                     // for the lock, in ensure_ready
    | Probing(deadline: real)                     // the first probe
    | Inspecting(deadline: real)                  // controller.status()
    | Starting(deadline: real)                    // controller.start()
    | Polling(deadline: real)                     // a probe of the poll loop
    | Pausing(deadline: real, until: real)        // the poll loop's sleep
    | Dozing(until: real, since: real)            // the idle loop's sleep
    | IdleWaiting                                 // for the lock, in _maybe_idle_down
    | IdleInspecting                              // the idle loop's controller.status()
    | Stopping                                    // controller.stop()
  {
    /** Between acquiring and releasing the lock. */
    predicate Locked() {
      Probing? || Inspecting? || Starting? || Polling? || Pausing? || IdleInspecting? || Stopping?
    }
  }

  /** How a stretch of code ends: ensure_ready returns, or the coroutine is suspended again. */
  datatype Next = Returned(state: ReadinessState) | Suspended(phase: Phase)

  datatype Stamp = Stamp(state: ReadinessState, at: real)

  function Classify(outcome: ProbeOutcome): ReadinessState {
    match outcome
    case ModelsAvailable => Ready
    case Loading => Warming
    case Unreachable => Unavailable
  }

  function Name(state: ReadinessState): string {
    match state
    case Ready => "ready"
    case Warming => "warming"
    case Unavailable => "unavailable"
  }

  predicate ShouldIdleDown(leases: int, idleFor: real, idleInterval: real, running: bool) {
    leases == 0 && idleFor >= idleInterval && running
  }

  function NextIdleSleep(idleFor: real, idleInterval: real, pollSeconds: real): real {
    var rest := idleInterval - idleFor;
    if rest > pollSeconds then rest else pollSeconds
  }

  const ABSENT_CAUSE := "engine " + "container is absent (not defined by " + "compose); cannot start"

  function ControllerCause(message: string): string {
    "lifecycle controller unavailable: " + message
  }

  function TimeoutCause(cfg: Settings, state: ReadinessState): string {
    "engine did not become ready within " + cfg.timeoutText + "s (last state=" + Name(state) + ")"
  }

  /** The fields of Readiness, with the holder of its lock. */
  datatype Gate = Gate(
    cached: Option<Stamp>, leases: int, lastActivity: real, lastCause: string, armed: bool,
    owner: Option<Actor>)
  {
    function Fresh(cfg: Settings, now: real): Option<ReadinessState> {
      if cached.Some? && cached.value.state.Ready? && now - cached.value.at < cfg.cacheSeconds
      then Some(cached.value.state) else None
    }

    /** ensure_ready up to the fast path: the idle timer restarts whatever follows. */
    function Enter(cfg: Settings, now: real): Gate {
      this.(lastActivity := now, armed := armed || (cfg.controlled && cfg.idleInterval > 0.0))
    }

    /** The end of ensure_ready's critical section. */
    function Settle(state: ReadinessState, now: real): Gate {
      if state.Ready?
      then this.(cached := Some(Stamp(state, now)), lastActivity := now, lastCause := "", owner := None)
      else this.(owner := None)
    }

    function Fail(cause: string, state: ReadinessState): (Gate, Next) {
      (this.(lastCause := cause, owner := None), Returned(state))
    }

    /** ensure_ready once it has the lock: a second look at the cache, then the first probe. */
    function Enlock(cfg: Settings, a: Actor, now: real): (Gate, Next) {
      match Fresh(cfg, now)
      case Some(state) => (this.(owner := None), Returned(state))
      case None => (this.(owner := Some(a)), Suspended(Probing(now + cfg.readinessTimeout)))
    }

    function FirstProbe(cfg: Settings, outcome: ProbeOutcome, deadline: real, now: real): (Gate, Next) {
      var state := Classify(outcome);
      if state.Ready? || !cfg.controlled then (Settle(state, now), Returned(state))
      else (this, Suspended(Inspecting(deadline)))
    }

    function Inspected(reply: Reply<Container>, deadline: real): (Gate, Next) {
      match reply
      case Answer(ContainerAbsent) => Fail(ABSENT_CAUSE, Unavailable)
      case Answer(ContainerStopped) => (this, Suspended(Starting(deadline)))
      case Answer(ContainerRunning) => (this, Suspended(Polling(deadline)))
      case Refusal(message) => Fail(ControllerCause(message), Unavailable)
    }

    function Started(reply: Reply<()>, deadline: real): (Gate, Next) {
      match reply
      case Answer(_) => (this, Suspended(Polling(deadline)))
      case Refusal(message) => Fail(ControllerCause(message), Unavailable)
    }

    function Polled(cfg: Settings, outcome: ProbeOutcome, deadline: real, now: real): (Gate, Next) {
      var state := Classify(outcome);
      if state.Ready? then (Settle(state, now), Returned(state))
      else if now >= deadline then Fail(TimeoutCause(cfg, state), state)
      else (this, Suspended(Pausing(deadline, now + cfg.pollSeconds)))
    }

    function Lease(): Gate {
      this.(leases := leases + 1)
    }

    function Release(now: real): Gate {
      this.(leases := leases - 1, lastActivity := now)
    }

    /** One turn of the idle loop: try to idle down, or sleep on. */
    function IdleTurn(cfg: Settings, now: real): Phase {
      var idleFor := now - lastActivity;
      if leases == 0 && idleFor >= cfg.idleInterval then IdleWaiting
      else Dozing(now + NextIdleSleep(idleFor, cfg.idleInterval, cfg.pollSeconds), now)
    }

    /** The idle predicate re-checked under the lock; the cache is emptied before stop() yields. */
    function IdleInspected(cfg: Settings, reply: Reply<Container>, now: real): (Gate, Phase) {
      if reply.Answer? && ShouldIdleDown(leases, now - lastActivity, cfg.idleInterval, reply.value.ContainerRunning?)
      then (this.(cached := None), Stopping)
      else IdleDone(cfg, now)
    }

    function IdleDone(cfg: Settings, now: real): (Gate, Phase) {
      (this.(owner := None), Dozing(now + cfg.idleInterval, now))
    }
  }

  class Readiness {
    const cfg: Settings
    var cached: Option<Stamp>
    var leases: int
    var lastActivity: real
    var lastCause: string
    var idleArmed: bool
    var lockOwner: Option<Actor>

    function View(): Gate
      reads this
    {
      Gate(cached, leases, lastActivity, lastCause, idleArmed, lockOwner)
    }

    constructor (cfg: Settings, now: real)
      ensures this.cfg == cfg && View() == Gate(None, 0, now, "", false, None)
    {
      this.cfg := cfg;
      cached, leases, lastActivity, lastCause := None, 0, now, "";
      idleArmed, lockOwner := false, None;
    }

    method FreshReady(now: real) returns (hit: Option<ReadinessState>)
      ensures hit == View().Fresh(cfg, now)
    {
      if cached.Some? && cached.value.state.Ready? && now - cached.value.at < cfg.cacheSeconds {
        return Some(cached.value.state);
      }
      return None;
    }

    method ArmIdle()
      modifies this`idleArmed
      ensures idleArmed == (old(idleArmed) || (cfg.controlled && cfg.idleInterval > 0.0))
    {
      if cfg.controlled && !idleArmed && cfg.idleInterval > 0.0 {
        idleArmed := true;
      }
    }

    method EnsureReady(now: real) returns (hit: Option<ReadinessState>)
      modifies this
      ensures View() == old(View()).Enter(cfg, now)
      ensures hit == old(View()).Fresh(cfg, now)
    {
      lastActivity := now;
      ArmIdle();
      hit := FreshReady(now);
    }

    method Enlock(a: Actor, now: real) returns (next: Next)
      requires lockOwner.None?
      modifies this
      ensures (View(), next) == old(View()).Enlock(cfg, a, now)
    {
      lockOwner := Some(a);
      var hit := FreshReady(now);
      if hit.Some? {
        lockOwner := None;
        return Returned(hit.value);
      }
      next := Suspended(Probing(now + cfg.readinessTimeout));
    }

    method Settle(state: ReadinessState, now: real)
      modifies this
      ensures View() == old(View()).Settle(state, now)
    {
      if state.Ready? {
        cached := Some(Stamp(state, now));
        lastActivity := now;
        lastCause := "";
      }
      lockOwner := None;
    }

    method FirstProbe(outcome: ProbeOutcome, deadline: real, now: real) returns (next: Next)
      modifies this
      ensures (View(), next) == old(View()).FirstProbe(cfg, outcome, deadline, now)
    {
      var state := Classify(outcome);
      if state.Ready? || !cfg.controlled {
        Settle(state, now);
        return Returned(state);
      }
      next := Suspended(Inspecting(deadline));
    }

    method Inspected(reply: Reply<Container>, deadline: real, now: real) returns (next: Next)
      modifies this
      ensures (View(), next) == old(View()).Inspected(reply, deadline)
    {
      match reply
      case Answer(container) =>
        if container.ContainerAbsent? {
          lastCause := ABSENT_CAUSE;
          Settle(Unavailable, now);
          return Returned(Unavailable);
        }
        if container.ContainerStopped? {
          return Suspended(Starting(deadline));
        }
        next := Suspended(Polling(deadline));
      case Refusal(message) =>
        lastCause := ControllerCause(message);
        Settle(Unavailable, now);
        next := Returned(Unavailable);
    }

    method Started(reply: Reply<()>, deadline: real, now: real) returns (next: Next)
      modifies this
      ensures (View(), next) == old(View()).Started(reply, deadline)
    {
      if reply.Refusal? {
        lastCause := ControllerCause(reply.message);
        Settle(Unavailable, now);
        return Returned(Unavailable);
      }
      next := Suspended(Polling(deadline));
    }

    method Polled(outcome: ProbeOutcome, deadline: real, now: real) returns (next: Next)
      modifies this
      ensures (View(), next) == old(View()).Polled(cfg, outcome, deadline, now)
    {
      var state := Classify(outcome);
      if state.Ready? {
        Settle(state, now);
        return Returned(state);
      }
      if now >= deadline {
        lastCause := TimeoutCause(cfg, state);
        Settle(state, now);
        return Returned(state);
      }
      next := Suspended(Pausing(deadline, now + cfg.pollSeconds));
    }

    method EnterLease()
      modifies this
      ensures View() == old(View()).Lease()
    {
      leases := leases + 1;
    }

    method ExitLease(now: real)
      modifies this
      ensures View() == old(View()).Release(now)
    {
      leases := leases - 1;
      lastActivity := now;
    }

    method IdleTurn(now: real) returns (phase: Phase)
      ensures phase == View().IdleTurn(cfg, now)
    {
      var idleFor := now - lastActivity;
      if leases == 0 && idleFor >= cfg.idleInterval {
        return IdleWaiting;
      }
      phase := Dozing(now + NextIdleSleep(idleFor, cfg.idleInterval, cfg.pollSeconds), now);
    }

    method IdleInspected(reply: Reply<Container>, now: real) returns (phase: Phase)
      modifies this
      ensures (View(), phase) == old(View()).IdleInspected(cfg, reply, now)
    {
      if reply.Refusal? {
        phase := IdleDone(now);
        return;
      }
      var idleFor := now - lastActivity;
      if !ShouldIdleDown(leases, idleFor, cfg.idleInterval, reply.value.ContainerRunning?) {
        phase := IdleDone(now);
        return;
      }
      cached := None;
      phase := Stopping;
    }

    /** The idle loop after _maybe_idle_down: the lock is free and one interval is slept. */
    method IdleDone(now: real) returns (phase: Phase)
      modifies this
      ensures (View(), phase) == old(View()).IdleDone(cfg, now)
    {
      lockOwner := None;
      phase := Dozing(now + cfg.idleInterval, now);
    }
  }
}
