/**
 What each step of the system does, told by its effects: which answer leads where, and what becomes of the job. The
 tables are written from the fields alone, without the functions of the runner and the gate that compute them.
 */
module Table {
  import opened Prelude
  import opened Jobs
  import opened Lifecycle
  import opened Runner
  import opened Machine
  import opened J = JobInvariant
  import opened G = GateInvariant

  // ---- jobs ----

  /** One record becomes another, with one event at the end of its log; no other job is touched. */
  predicate Moved(a: Store, b: Store, id: JobId, record: Record, kind: Status, data: Payload) {
    && id in a.records && id in a.logs
    && b.records == a.records[id := record]
    && b.logs == a.logs[id := a.logs[id] + [Event(|a.logs[id]| + 1, kind, data)]]
  }

  /** Of the jobs nothing changes, and the worker stays where it is. */
  predicate JobsStay(s: State, s': State) {
    && s'.core == s.core.(gate := s'.core.gate) && s'.core.gate.leases == s.core.gate.leases
    && s'.worker == s.worker && s'.submitted == s.submitted && s'.processed == s.processed && s'.escaped == s.escaped
  }

  function NotReadyText(state: ReadinessState, cause: string): string {
    "engine not ready: " + (if state.Ready? then "ready" else if state.Warming? then "warming" else "unavailable")
    + if cause == "" then "" else " (" + cause + ")"
  }

  /**
   ensure_ready has answered the worker. A job cancelled meanwhile is let go as it is; READY makes it running, begins
   its engine call and takes the lease; anything else fails it with the state and the cause.
   */
  predicate Admitted(s: State, s': State, id: JobId, state: ReadinessState, wall: string) {
    && id in s.core.store.records
    && var record := s.core.store.records[id]; var text := NotReadyText(state, s'.core.gate.lastCause);
       && s'.core.disk == s.core.disk && s'.core.queue == s.core.queue && s'.core.cancelled == s.core.cancelled
       && s'.submitted == s.submitted && s'.escaped == s.escaped
       && (if id in s.core.cancelled then s'.core.store == s.core.store
           else if state.Ready? then
             Moved(s.core.store, s'.core.store, id, record.(status := Running, startedAt := Some(wall)), Running,
                   NoData)
           else
             Moved(s.core.store, s'.core.store, id,
                   record.(status := Failed, endedAt := Some(wall), error := Some(text)), Failed, Failure(text)))
       && (if id !in s.core.cancelled && state.Ready?
           then s'.worker == Busy(id) && s'.core.current == Some(id) && s'.core.task == Some(InFlight(false))
                && s'.core.gate.leases == s.core.gate.leases + 1 && s'.processed == s.processed
           else s'.worker == Parked && s'.core.current.None? && s'.core.task.None?
                && s'.core.gate.leases == s.core.gate.leases && s'.processed == s.processed + [id])
  }

  /** ensure_ready has answered who. */
  predicate Answered(s: State, s': State, who: Actor, state: ReadinessState, wall: string) {
    && s'.At(who).Out?
    && (if who.Worker? && s.worker.Gating? then Admitted(s, s', s.worker.id, state, wall) else JobsStay(s, s'))
  }

  lemma GatedJob(s: State)
    requires JobInv(s) && s.worker.Gating?
    ensures var id := s.worker.id;
            && id in s.core.store.records && id in s.core.store.logs && s.core.current.None? && s.core.task.None?
            && (if id in s.core.cancelled then s.core.store.records[id].status.Cancelled?
                else s.core.store.records[id].status.Queued?)
  {
    assert s.worker.id in LedgerOf(s).hand;
  }

  lemma FailMoves(core: Core, id: JobId, message: string, wall: string)
    requires Lives(core.store) && id in core.store.records && !core.store.records[id].status.Terminal()
    ensures var (after, p) := core.Fail(id, message, wall); var record := core.store.records[id];
            && p.Processed? && after == core.(store := after.store)
            && Moved(core.store, after.store, id,
                     record.(status := Failed, endedAt := Some(wall), error := Some(message)), Failed, Failure(message))
  {
  }

  lemma RunMoves(core: Core, id: JobId, wall: string)
    requires Lives(core.store) && id in core.store.records && core.store.records[id].status.Queued?
             && id !in core.cancelled
    ensures var (after, p) := core.Admit(id, Ready, wall); var record := core.store.records[id];
            && p.Generating?
            && after == core.(store := after.store, current := Some(id), task := Some(InFlight(false)),
                              gate := after.gate)
            && after.gate == core.gate.(leases := core.gate.leases + 1)
            && Moved(core.store, after.store, id,
                     record.(status := Running, startedAt := Some(wall)), Running, NoData)
  {
  }

  lemma ReturnTells(s: State, who: Actor, state: ReadinessState, wall: string)
    requires JobInv(s)
    ensures Answered(s, s.Return(who, state, wall), who, state, wall)
    ensures var s' := s.Return(who, state, wall);
            s'.core.gate == s.core.gate.(leases := s'.core.gate.leases) && s'.phase == s.phase[who := Out]
  {
    if who.Worker? && s.worker.Gating? {
      GatedJob(s);
      var id := s.worker.id;
      if id !in s.core.cancelled {
        if state.Ready? {
          RunMoves(s.core, id, wall);
        } else {
          FailMoves(s.core, id, NotReadyText(state, s.core.gate.lastCause), wall);
          assert NotReadyMessage(state, s.core.gate.lastCause) == NotReadyText(state, s.core.gate.lastCause);
        }
      }
    }
  }

  /** The same, seen from a state whose jobs are the same. */
  lemma SeenFrom(a: State, b: State, c: State, who: Actor, state: ReadinessState, wall: string)
    requires JobsStay(a, b) && Answered(b, c, who, state, wall)
    ensures Answered(a, c, who, state, wall)
  {
  }

  lemma AdvanceTells(s: State, m: State, who: Actor, next: Next, wall: string)
    requires JobInv(s) && JobsStay(s, m)
    ensures var s' := m.Advance(who, next, wall);
            && s'.core.gate == m.core.gate.(leases := s'.core.gate.leases)
            && match next
               case Returned(state) => Answered(s, s', who, state, wall)
               case Suspended(p) => JobsStay(s, s') && s'.At(who) == p
  {
    if next.Returned? {
      IdleKeeps(s, m);
      ReturnTells(m, who, next.state, wall);
      SeenFrom(s, m, m.Return(who, next.state, wall), who, next.state, wall);
    }
  }

  // ---- ensure_ready ----

  /** READY found by a probe a moment ago: remembered, without a cause, and the lock free. */
  predicate FoundReady(s: State, s': State) {
    && s'.core.gate.owner.None? && s'.core.gate.cached == Some(Stamp(Ready, s.now)) && s'.core.gate.lastCause == ""
    && s'.core.gate.lastActivity == s.now
  }

  /** The lock is free; cache and activity clock are as they were. */
  predicate GaveUp(s: State, s': State, cause: string) {
    && s'.core.gate.owner.None? && s'.core.gate.cached == s.core.gate.cached && s'.core.gate.lastCause == cause
    && s'.core.gate.lastActivity == s.core.gate.lastActivity
  }

  /** Still under the lock, in phase p, with nothing else changed. */
  predicate GoesOn(s: State, s': State, who: Actor, p: Phase) {
    JobsStay(s, s') && s'.At(who) == p && s'.core.gate == s.core.gate
  }

  function Meaning(outcome: ProbeOutcome): ReadinessState {
    if outcome.ModelsAvailable? then Ready else if outcome.Loading? then Warming else Unavailable
  }

  function TimeoutText(cfg: Config, state: ReadinessState): string {
    "engine did not become ready within " + cfg.settings.timeoutText + "s (last state="
    + (if state.Ready? then "ready" else if state.Warming? then "warming" else "unavailable") + ")"
  }

  /** The cache still tells READY. */
  predicate FreshlyReady(cfg: Config, s: State) {
    && s.core.gate.cached.Some? && s.core.gate.cached.value.state.Ready?
    && s.now - s.core.gate.cached.value.at < cfg.settings.cacheSeconds
  }

  /** Having the lock: a fresh cache answers at once and frees it; otherwise the first probe, with its deadline. */
  lemma AcquireTells(cfg: Config, s: State, who: Actor, wall: string)
    requires JobInv(s) && GateInv(cfg, s) && s.Enabled(cfg, Acquire(who, wall)) && !who.IdleLoop?
    ensures var s' := s.Perform(cfg, Acquire(who, wall));
            if FreshlyReady(cfg, s) then
              Answered(s, s', who, Ready, wall) && s'.core.gate == s.core.gate.(leases := s'.core.gate.leases)
            else
              && JobsStay(s, s') && s'.At(who) == Probing(s.now + cfg.settings.readinessTimeout)
              && s'.core.gate == s.core.gate.(owner := Some(who))
  {
    assert s.At(who).Waiting?;
    var (gate, next) := s.core.gate.Enlock(cfg.settings, who, s.now);
    if next.Returned? {
      AdvanceTells(s, s.Guard(gate).Write(FastReady(who, s.core.gate.lastCause)), who, next, wall);
    }
  }

  lemma GateProbed(cfg: Config, gate: Gate, first: bool, outcome: ProbeOutcome, deadline: real, now: real)
    ensures var (after, next) := if first then gate.FirstProbe(cfg.settings, outcome, deadline, now)
                                 else gate.Polled(cfg.settings, outcome, deadline, now);
            if outcome.ModelsAvailable? then
              && next == Returned(Ready)
              && after == gate.(cached := Some(Stamp(Ready, now)), lastActivity := now, lastCause := "", owner := None)
            else if first && cfg.settings.controlled then after == gate && next == Suspended(Inspecting(deadline))
            else if first then after == gate.(owner := None) && next == Returned(Meaning(outcome))
            else if now < deadline then
              after == gate && next == Suspended(Pausing(deadline, now + cfg.settings.pollSeconds))
            else
              && after == gate.(owner := None, lastCause := TimeoutText(cfg, Meaning(outcome)))
              && next == Returned(Meaning(outcome))
  {
  }

  /** A probe that finds the models ends the call with READY; for others it depends on where and when they were made. */
  lemma ProbeTells(cfg: Config, s: State, who: Actor, outcome: ProbeOutcome, wall: string)
    requires JobInv(s) && GateInv(cfg, s) && s.Enabled(cfg, ProbeReturns(who, outcome, wall))
    ensures var s' := s.Perform(cfg, ProbeReturns(who, outcome, wall)); var deadline := s.At(who).deadline;
            if outcome.ModelsAvailable? then Answered(s, s', who, Ready, wall) && FoundReady(s, s')
            else if s.At(who).Probing? && cfg.settings.controlled then GoesOn(s, s', who, Inspecting(deadline))
            else if s.At(who).Probing? then
              Answered(s, s', who, Meaning(outcome), wall) && GaveUp(s, s', s.core.gate.lastCause)
            else if s.now < deadline then GoesOn(s, s', who, Pausing(deadline, s.now + cfg.settings.pollSeconds))
            else
              Answered(s, s', who, Meaning(outcome), wall) && GaveUp(s, s', TimeoutText(cfg, Meaning(outcome)))
  {
    assert s.At(who).Locked();
    var deadline := s.At(who).deadline;
    var (gate, next) :=
      if s.At(who).Probing? then s.core.gate.FirstProbe(cfg.settings, outcome, deadline, s.now)
      else s.core.gate.Polled(cfg.settings, outcome, deadline, s.now);
    GateProbed(cfg, s.core.gate, s.At(who).Probing?, outcome, deadline, s.now);
    var news := if outcome.ModelsAvailable? then Available else NotAvailable;
    var told := s.Guard(gate).Write(Told(who, ProbeCall, news));
    AdvanceTells(s, if outcome.ModelsAvailable? then told.Write(Activity(who)) else told, who, next, wall);
  }

  /** An absent container and a refusal end the call, a stopped one is started, a running one is polled. */
  lemma StatusTells(cfg: Config, s: State, who: Actor, seen: Reply<Container>, wall: string)
    requires JobInv(s) && GateInv(cfg, s) && s.Enabled(cfg, StatusReturns(who, seen, wall)) && s.At(who).Inspecting?
    ensures var s' := s.Perform(cfg, StatusReturns(who, seen, wall)); var deadline := s.At(who).deadline;
            match seen
            case Answer(ContainerRunning) => GoesOn(s, s', who, Polling(deadline))
            case Answer(ContainerStopped) => GoesOn(s, s', who, Starting(deadline))
            case Answer(ContainerAbsent) => Answered(s, s', who, Unavailable, wall) && GaveUp(s, s', ABSENT_CAUSE)
            case Refusal(message) =>
              Answered(s, s', who, Unavailable, wall) && GaveUp(s, s', "lifecycle controller unavailable: " + message)
  {
    assert s.At(who).Locked();
    var told := s.Write(Told(who, StatusCall, if seen.Answer? then Saw(seen.value) else Broke));
    var (gate, next) := s.core.gate.Inspected(seen, s.At(who).deadline);
    AdvanceTells(s, told.Guard(gate), who, next, wall);
  }

  /** A started container is polled; a refused start ends the call. */
  lemma StartTells(cfg: Config, s: State, who: Actor, reply: Reply<()>, took: bool, wall: string)
    requires JobInv(s) && GateInv(cfg, s) && s.Enabled(cfg, StartReturns(who, reply, took, wall))
    ensures var s' := s.Perform(cfg, StartReturns(who, reply, took, wall)); var deadline := s.At(who).deadline;
            && s'.container == (if took then ContainerRunning else s.container)
            && match reply
               case Answer(_) => GoesOn(s, s', who, Polling(deadline))
               case Refusal(message) =>
                 Answered(s, s', who, Unavailable, wall)
                 && GaveUp(s, s', "lifecycle controller unavailable: " + message)
  {
    assert s.At(who).Locked();
    var heard := s.StartHeard(who, reply, took);
    AdvanceTells(s, heard, who, s.core.gate.Started(reply, s.At(who).deadline).1, wall);
  }

  /** After its pause a coroutine probes again, with the deadline it had. */
  lemma PauseTells(cfg: Config, s: State, who: Actor)
    requires s.Enabled(cfg, Wakes(who)) && s.At(who).Pausing?
    ensures GoesOn(s, s.Perform(cfg, Wakes(who)), who, Polling(s.At(who).deadline))
  {
  }

  /** Entering: a fresh cache answers without the lock, whoever has it; otherwise the caller waits for the lock. */
  lemma EnterTells(cfg: Config, s: State, m: State, who: Actor, wall: string)
    requires JobInv(m) && m.core.gate == s.core.gate && m.now == s.now
    ensures var s' := m.Enter(cfg, who, wall);
            && s'.core.gate.lastActivity == s.now && s'.core.gate.cached == s.core.gate.cached
            && s'.core.gate.owner == s.core.gate.owner && s'.core.gate.lastCause == s.core.gate.lastCause
            && (s'.core.gate.armed <==>
                  s.core.gate.armed || (cfg.settings.controlled && cfg.settings.idleInterval > 0.0))
            && (if FreshlyReady(cfg, s) then Answered(m, s', who, Ready, wall)
                else JobsStay(m, s') && s'.At(who).Waiting?)
  {
    var gate := m.core.gate.Enter(cfg.settings, m.now);
    var entered := m.Guard(gate).Write(Activity(who));
    var armed := if gate.armed && !m.core.gate.armed then entered.Put(IdleLoop, Dozing(m.now, m.now)) else entered;
    if FreshlyReady(cfg, s) {
      AdvanceTells(m, armed.Write(FastReady(who, m.core.gate.lastCause)), who, Returned(Ready), wall);
    }
  }

  // ---- the idle loop ----

  /** Awake, with no lease and idle for the interval, the loop asks for the lock; else it sleeps the rest, or a poll. */
  lemma IdleWakeTells(cfg: Config, s: State)
    requires s.Enabled(cfg, Wakes(IdleLoop)) && s.At(IdleLoop).Dozing?
    ensures var s' := s.Perform(cfg, Wakes(IdleLoop));
            var rest := cfg.settings.idleInterval - (s.now - s.core.gate.lastActivity);
            && s'.core == s.core
            && s'.At(IdleLoop) == if s.core.gate.leases == 0 && rest <= 0.0 then IdleWaiting
                                  else if rest > cfg.settings.pollSeconds then Dozing(s.now + rest, s.now)
                                  else Dozing(s.now + cfg.settings.pollSeconds, s.now)
  {
  }

  /** Under the lock it stops a running container if still idle and unleased, the cache emptied; or it sleeps on. */
  lemma IdleStatusTells(cfg: Config, s: State, seen: Reply<Container>, wall: string)
    requires s.Enabled(cfg, StatusReturns(IdleLoop, seen, wall)) && s.At(IdleLoop).IdleInspecting?
    ensures var s' := s.Perform(cfg, StatusReturns(IdleLoop, seen, wall));
            if seen == Answer(ContainerRunning) && s.core.gate.leases == 0
               && s.now - s.core.gate.lastActivity >= cfg.settings.idleInterval
            then s'.At(IdleLoop).Stopping? && s'.core == s.core.(gate := s.core.gate.(cached := None))
            else
              && s'.At(IdleLoop) == Dozing(s.now + cfg.settings.idleInterval, s.now)
              && s'.core == s.core.(gate := s.core.gate.(owner := None))
  {
  }

  lemma StopTells(cfg: Config, s: State, reply: Reply<()>, took: bool)
    requires s.Enabled(cfg, StopReturns(reply, took))
    ensures var s' := s.Perform(cfg, StopReturns(reply, took));
            && s'.At(IdleLoop) == Dozing(s.now + cfg.settings.idleInterval, s.now)
            && s'.core == s.core.(gate := s.core.gate.(owner := None))
            && s'.container == (if took then ContainerStopped else s.container)
  {
  }

  // ---- the runner's own steps ----

  lemma SubmitTells(cfg: Config, s: State, sub: Submission, wall: string, id: JobId)
    requires JobInv(s) && s.Enabled(cfg, Submit(sub, wall, id))
    ensures var s' := s.Perform(cfg, Submit(sub, wall, id));
            && s'.core == s.core.(store := s'.core.store, queue := s.core.queue + [id])
            && s'.submitted == s.submitted + [id] && s'.worker == s.worker
            && s'.core.store.records == s.core.store.records[id :=
                 Record(id, sub, Queued, wall, None, None, None, None, None, None, None, None)]
            && s'.core.store.logs == s.core.store.logs[id := [Event(1, Queued, NoData)]]
  {
    var first: seq<Event> := [];
    assert first + [Event(1, Queued, NoData)] == [Event(1, Queued, NoData)];
    var logs := s.core.store.logs;
    assert logs[id := first][id := [Event(1, Queued, NoData)]] == logs[id := [Event(1, Queued, NoData)]];
  }

  /** Unknown and ended jobs are left alone. Any other is cancelled now, and the call of a running one told to stop. */
  lemma CancelTells(cfg: Config, s: State, id: JobId, wall: string)
    requires JobInv(s)
    ensures var s' := s.Perform(cfg, Cancel(id, wall)); var store := s.core.store;
            if id !in store.records || store.records[id].status in {Succeeded, Failed, Cancelled} then s' == s
            else
              && Moved(store, s'.core.store, id,
                       store.records[id].(status := Cancelled, endedAt := Some(wall)), Cancelled, NoData)
              && s' == s.(core := s.core.(store := s'.core.store, cancelled := s.core.cancelled + {id},
                                          task := s'.core.task))
              && s'.core.task ==
                 if s.core.current == Some(id) && s.core.task == Some(InFlight(false)) then Some(InFlight(true))
                 else s.core.task
  {
    if id in s.core.store.records && s.core.store.records[id].status.Running? {
      assert id in LedgerOf(s).status;
    }
  }

  /** A job cancelled in the queue is passed over; any other goes into ensure_ready. */
  lemma TakeTells(cfg: Config, s: State, wall: string)
    requires JobInv(s) && GateInv(cfg, s) && s.Enabled(cfg, Take(wall))
    ensures var s' := s.Perform(cfg, Take(wall)); var id := s.core.queue[0];
            var popped := s.(core := s.core.(queue := s.core.queue[1..]));
            if id in s.core.cancelled then s' == popped.(processed := s.processed + [id])
            else
              var held := popped.(worker := Gating(id));
              && s'.core.gate.lastActivity == s.now && s'.core.gate.cached == s.core.gate.cached
              && s'.core.gate.owner == s.core.gate.owner && s'.core.gate.lastCause == s.core.gate.lastCause
              && (if FreshlyReady(cfg, s) then Answered(held, s', Worker, Ready, wall)
                  else JobsStay(held, s') && s'.At(Worker).Waiting?)
  {
    var id := s.core.queue[0];
    var popped := s.(core := s.core.(queue := s.core.queue[1..]));
    assert id in LedgerOf(s).queue;
    L.PopKeeps(LedgerOf(s));
    if id !in s.core.cancelled {
      var held := popped.(worker := Gating(id));
      assert LedgerOf(held) == LedgerOf(s).Pop();
      EnterTells(cfg, s, held, Worker, wall);
    }
  }
}
