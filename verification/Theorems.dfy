/** What holds in every run: any number of steps, any schedule, any answers. */
module Theorems {
  import opened Prelude
  import opened Jobs
  import opened Lifecycle
  import opened Artifacts
  import opened Runner
  import opened Machine
  import L = Ledger
  import opened J = JobInvariant
  import opened G = GateInvariant
  import opened T = TraceInvariant
  import opened D = DiskInvariant
  import opened B = ContainerTally
  import opened P = Progress
  import opened I = IdleTiming

  ghost predicate Inv(cfg: Config, start: Disk, s: State) {
    JobInv(s) && GateInv(cfg, s) && TraceInv(cfg, s) && DiskInv(cfg, start, s) && Dozes(cfg, s)
  }

  lemma InitHolds(cfg: Config, s: State)
    requires Init(cfg, s) && cfg.settings.Valid()
    ensures Inv(cfg, s.core.disk, s) && TallyInv(s.container, s)
  {
    assert LedgerOf(s).Valid();
    forall who: Actor
      ensures s.At(who) == if s.core.gate.armed && who.IdleLoop? then Dozing(s.now, s.now) else Out
    {
    }
  }

  /** The invariant of the whole system holds at every suspension of every run. */
  lemma {:induction false} Always(cfg: Config, s: State, steps: seq<Step>)
    requires Init(cfg, s) && cfg.settings.Valid() && Allowed(cfg, s, steps)
    ensures Inv(cfg, s.core.disk, Run(cfg, s, steps))
  {
    if steps == [] {
      InitHolds(cfg, s);
    } else {
      var init, step := steps[..|steps| - 1], steps[|steps| - 1];
      Always(cfg, s, init);
      var m := Run(cfg, s, init);
      J.StepKeeps(cfg, m, step);
      G.StepKeeps(cfg, m, step);
      T.StepKeeps(cfg, m, step);
      D.StepKeeps(cfg, s.core.disk, m, step);
      I.StepKeeps(cfg, m, step);
    }
  }

  /**
   While stop() is in flight no lease is held and no engine call is in flight, the cache is empty and the
   lock is the idle loop's; and no single step can begin an engine call before the stop has returned.
   */
  lemma NeverStoppedUnderGeneration(cfg: Config, s: State, steps: seq<Step>, step: Step)
    requires Init(cfg, s) && cfg.settings.Valid() && Allowed(cfg, s, steps)
    requires var m := Run(cfg, s, steps); m.At(IdleLoop).Stopping? && m.Enabled(cfg, step)
    ensures var m := Run(cfg, s, steps);
            && m.core.gate.leases == 0 && m.core.task.None? && m.core.gate.cached.None?
            && m.core.gate.owner == Some(IdleLoop)
            && m.Perform(cfg, step).core.task.None?
            && (!step.StopReturns? ==> m.Perform(cfg, step).At(IdleLoop).Stopping?)
  {
    Always(cfg, s, steps);
    var m := Run(cfg, s, steps);
    assert m.At(IdleLoop).Locked();
    J.StepKeeps(cfg, m, step);
    G.StepKeeps(cfg, m, step);
    if !step.StopReturns? {
      StopStays(cfg, m, step);
    }
  }

  /** Only its own answer ends a stop: everybody else leaves the idle loop where it is. */
  lemma StopStays(cfg: Config, m: State, step: Step)
    requires GateInv(cfg, m) && m.At(IdleLoop).Stopping? && m.Enabled(cfg, step) && !step.StopReturns?
    ensures m.Perform(cfg, step).At(IdleLoop).Stopping?
  {
    assert m.core.gate.owner == Some(IdleLoop);
    assert forall who: Actor :: m.At(who).Locked() ==> who == IdleLoop;
    assert m.core.gate.armed;
  }

  // ---- the slot ----

  /**
   At every suspension: the cancelled set is exactly the jobs whose record is cancelled; a running job is the
   current one with its engine call awaited, so there is at most one; the current engine call's job is
   running or cancelled, and cancelled exactly if the call was told to stop or had already ended; and no
   transition error has ever reached the net around the worker.
   */
  lemma OneSlot(cfg: Config, s: State, steps: seq<Step>)
    requires Init(cfg, s) && cfg.settings.Valid() && Allowed(cfg, s, steps)
    ensures var m := Run(cfg, s, steps);
            && (forall id :: id in m.core.cancelled <==>
                               id in m.core.store.records && m.core.store.records[id].status.Cancelled?)
            && (forall id <- m.core.store.records :: m.core.store.records[id].status.Running? ==>
                  m.core.current == Some(id) && m.core.task.Some? && m.core.gate.leases == 1)
            && (m.core.task.Some? ==>
                  && m.core.current.Some?
                  && HasStatus(m, m.core.current.value, Running, Cancelled)
                  && (m.core.task.value == InFlight(false) ==> m.core.current.value !in m.core.cancelled)
                  && (m.core.task.value == InFlight(true) ==> m.core.current.value in m.core.cancelled))
            && m.escaped == 0
  {
    Always(cfg, s, steps);
    var m := Run(cfg, s, steps);
    var l := LedgerOf(m);
    forall id | id in m.core.store.records && m.core.store.records[id].status.Running?
      ensures m.core.current == Some(id) && m.core.task.Some? && m.core.gate.leases == 1
    {
      P.Unfinished(m, id);
      assert id !in l.queue;
    }
    if m.worker.Busy? {
      assert m.worker.id in l.hand;
    }
  }

  ghost predicate HasStatus(s: State, id: JobId, a: Status, b: Status) {
    id in s.core.store.records && (s.core.store.records[id].status == a || s.core.store.records[id].status == b)
  }

  /**
   Engine calls never overlap and none is dropped: a call begins only where there was none, for a job that
   is not cancelled and is moved to running in that step, under a fresh lease; it is forgotten only once done.
   */
  lemma EngineCallsAreSerial(cfg: Config, s: State, steps: seq<Step>, step: Step)
    requires Init(cfg, s) && cfg.settings.Valid() && Allowed(cfg, s, steps) && Run(cfg, s, steps).Enabled(cfg, step)
    ensures Serial(Run(cfg, s, steps), step, Run(cfg, s, steps).Perform(cfg, step))
  {
    Always(cfg, s, steps);
    var m := Run(cfg, s, steps);
    J.StepKeeps(cfg, m, step);
    SerialStep(cfg, m, step);
  }

  ghost predicate Serial(m: State, step: Step, m': State) {
    && (m'.core.task.Some? && (m.core.task.None? || m'.core.current != m.core.current) ==>
          && m.core.task.None? && m.core.gate.leases == 0
          && m'.core.gate.leases == 1 && m'.core.task == Some(InFlight(false))
          && m'.core.current.Some?
          && HasStatus(m', m'.core.current.value, Running, Running)
          && m'.core.current.value !in m'.core.cancelled
          && HasStatus(m, m'.core.current.value, Queued, Queued))
    && (m.core.task.Some? && m'.core.task.None? ==> m.core.task.value.Done? && step.Resume?)
  }

  lemma SerialStep(cfg: Config, m: State, step: Step)
    requires JobInv(m) && GateInv(cfg, m) && m.Enabled(cfg, step) && JobInv(m.Perform(cfg, step))
    ensures Serial(m, step, m.Perform(cfg, step))
  {
    var m' := m.Perform(cfg, step);
    if m.worker.Busy? {
      if !step.Resume? {
        BusyStays(cfg, m, step);
      } else {
        assert !m'.worker.Busy? by { ResumeEnds(cfg, m, step.wrap); }
      }
    } else if m'.worker.Busy? {
      CallBegins(cfg, m, step);
    }
  }

  lemma ResumeEnds(cfg: Config, m: State, w: Wrap)
    requires JobInv(m) && m.Enabled(cfg, Resume(w))
    ensures m.Resumed(cfg, w).worker.Parked?
  {
    assert m.worker.id in LedgerOf(m).hand;
    J.ConcludeFacts(cfg, m.core, m.worker.id, m.core.task.value.outcome, m.now, w);
  }

  lemma BusyStays(cfg: Config, m: State, step: Step)
    requires GateInv(cfg, m) && m.worker.Busy? && m.Enabled(cfg, step) && !step.Resume?
    ensures m.Perform(cfg, step).worker == m.worker
  {
    assert m.At(Worker).Out?;
    if !WorkerStep(step) && !step.Submit? && !step.Cancel? && !step.Tick? {
      P.OthersLeaveWorker(cfg, m, step);
    }
  }

  lemma CallBegins(cfg: Config, m: State, step: Step)
    requires JobInv(m) && GateInv(cfg, m) && !m.worker.Busy? && m.Enabled(cfg, step)
             && m.Perform(cfg, step).worker.Busy?
    requires JobInv(m.Perform(cfg, step))
    ensures var m' := m.Perform(cfg, step);
            && m'.core.task == Some(InFlight(false))
            && HasStatus(m', m'.worker.id, Running, Running) && m'.worker.id !in m'.core.cancelled
            && HasStatus(m, m'.worker.id, Queued, Queued)
  {
    var m' := m.Perform(cfg, step);
    var id := m'.worker.id;
    CallIsFresh(cfg, m, step);
    D.QuietStep(cfg, m, step);
    BusyIsRunning(m');
    WasQueued(m, m', id);
  }

  lemma BusyIsRunning(s: State)
    requires JobInv(s) && s.worker.Busy? && s.core.task == Some(InFlight(false))
    ensures HasStatus(s, s.worker.id, Running, Running) && s.worker.id !in s.core.cancelled
  {
    assert s.worker.id in LedgerOf(s).hand;
  }

  lemma WasQueued(m: State, m': State, id: JobId)
    requires JobInv(m) && !m.worker.Busy? && D.Calm(m.core, m'.core) && HasStatus(m', id, Running, Running)
    ensures HasStatus(m, id, Queued, Queued)
  {
    assert Forward(m.core.store.records[id], m'.core.store.records[id]);
    if m.core.store.records[id].status.Running? {
      P.Unfinished(m, id);
      var l := LedgerOf(m);
      if id in l.queue {
        assert false;
      }
    }
  }

  lemma AdvanceFresh(m: State, next: Next, wall: string)
    requires !m.worker.Busy? && m.Advance(Worker, next, wall).worker.Busy?
    ensures m.Advance(Worker, next, wall).core.task == Some(InFlight(false))
  {
  }

  lemma EnterFresh(cfg: Config, m: State, wall: string)
    requires !m.worker.Busy? && m.Enter(cfg, Worker, wall).worker.Busy?
    ensures m.Enter(cfg, Worker, wall).core.task == Some(InFlight(false))
  {
  }

  /** An engine call begins in one of the worker's own steps, as a new task. */
  lemma CallIsFresh(cfg: Config, m: State, step: Step)
    requires GateInv(cfg, m) && !m.worker.Busy? && m.Enabled(cfg, step) && m.Perform(cfg, step).worker.Busy?
    ensures m.Perform(cfg, step).core.task == Some(InFlight(false))
    ensures !step.Submit? && !step.Resume?
  {
    if !WorkerStep(step) && !step.Submit? && !step.Cancel? && !step.Tick? {
      P.OthersLeaveWorker(cfg, m, step);
      assert false;
    }
    match step
    case Take(wall) =>
      EnterFresh(cfg, m.(core := m.core.(queue := m.core.queue[1..]), worker := Gating(m.core.queue[0])), wall);
    case Acquire(who, wall) =>
      var (gate, next) := m.core.gate.Enlock(cfg.settings, who, m.now);
      var held := if next.Returned? then m.Guard(gate).Write(FastReady(who, m.core.gate.lastCause)) else m.Guard(gate);
      AdvanceFresh(held, next, wall);
    case ProbeReturns(who, outcome, wall) =>
      var (gate, next) :=
        if m.At(who).Probing? then m.core.gate.FirstProbe(cfg.settings, outcome, m.At(who).deadline, m.now)
        else m.core.gate.Polled(cfg.settings, outcome, m.At(who).deadline, m.now);
      var news := if outcome.ModelsAvailable? then Available else NotAvailable;
      var told := m.Guard(gate).Write(Told(who, ProbeCall, news));
      AdvanceFresh(if outcome.ModelsAvailable? then told.Write(Activity(who)) else told, next, wall);
    case StatusReturns(who, seen, wall) =>
      var told := m.Write(Told(who, StatusCall, if seen.Answer? then Saw(seen.value) else Broke));
      var (gate, next) := m.core.gate.Inspected(seen, m.At(who).deadline);
      AdvanceFresh(told.Guard(gate), next, wall);
    case StartReturns(who, reply, took, wall) =>
      AdvanceFresh(m.StartHeard(who, reply, took), m.core.gate.Started(reply, m.At(who).deadline).1, wall);
    case _ =>
  }

  // ---- the life of a job ----

  /** Each log is queued, optional running, at most one terminal event, numbered from 1, and the record agrees. */
  lemma LivesOfJobs(cfg: Config, s: State, steps: seq<Step>)
    requires Init(cfg, s) && cfg.settings.Valid() && Allowed(cfg, s, steps)
    ensures var store := Run(cfg, s, steps).core.store;
            && store.logs.Keys == store.records.Keys
            && forall id <- store.records :: Grammar(store.logs[id]) && Reflects(store.records[id], store.logs[id])
  {
    Always(cfg, s, steps);
  }

  lemma EvolvedTransitive(a: Store, b: Store, c: Store)
    requires Evolved(a, b) && Evolved(b, c) && a.Coherent() && b.Coherent()
    ensures Evolved(a, c)
  {
    forall id | id in a.records
      ensures id in c.records && Forward(a.records[id], c.records[id])
      ensures id in a.logs && id in c.logs && a.logs[id] <= c.logs[id]
      ensures a.records[id] == c.records[id] ==> a.logs[id] == c.logs[id]
    {
      assert Forward(a.records[id], b.records[id]) && Forward(b.records[id], c.records[id]);
    }
  }

  /** Between any two points of a run records only move forward and logs only grow. */
  lemma {:induction false} RunsEvolve(cfg: Config, s: State, steps: seq<Step>, k: nat)
    requires Init(cfg, s) && cfg.settings.Valid() && Allowed(cfg, s, steps) && k <= |steps|
    ensures Allowed(cfg, s, steps[..k])
    ensures Evolved(Run(cfg, s, steps[..k]).core.store, Run(cfg, s, steps).core.store)
  {
    if k == |steps| {
      assert steps[..k] == steps;
      Always(cfg, s, steps);
    } else {
      var init, step := steps[..|steps| - 1], steps[|steps| - 1];
      RunsEvolve(cfg, s, init, k);
      assert init[..k] == steps[..k];
      Always(cfg, s, init);
      Always(cfg, s, init[..k]);
      var m := Run(cfg, s, init);
      D.StepKeeps(cfg, s.core.disk, m, step);
      EvolvedTransitive(Run(cfg, s, init[..k]).core.store, m.core.store, Run(cfg, s, steps).core.store);
    }
  }

  /** A terminal record and its log never change again. */
  lemma TerminalForever(cfg: Config, s: State, steps: seq<Step>, k: nat, id: JobId)
    requires Init(cfg, s) && cfg.settings.Valid() && Allowed(cfg, s, steps) && k <= |steps|
             && Allowed(cfg, s, steps[..k])
    requires var before := Run(cfg, s, steps[..k]).core.store;
             id in before.records && before.records[id].status.Terminal()
    ensures var before := Run(cfg, s, steps[..k]).core.store; var now := Run(cfg, s, steps).core.store;
            && id in now.records && now.records[id] == before.records[id]
            && id in now.logs && id in before.logs && now.logs[id] == before.logs[id]
  {
    RunsEvolve(cfg, s, steps, k);
    Always(cfg, s, steps[..k]);
    TerminalStays(Run(cfg, s, steps[..k]).core.store, Run(cfg, s, steps).core.store, id);
  }

  lemma TerminalStays(a: Store, b: Store, id: JobId)
    requires Evolved(a, b) && a.Coherent() && id in a.records && a.records[id].status.Terminal()
    ensures id in b.records && b.records[id] == a.records[id]
    ensures id in a.logs && id in b.logs && b.logs[id] == a.logs[id]
  {
    assert Forward(a.records[id], b.records[id]);
  }

  /**
   An accepted cancel is never lost or undone: from then on the record is the one cancel() returned, and if
   the worker is still awaiting the job's engine call, that call has been told to stop or has ended.
   */
  lemma CancelSticks(cfg: Config, s: State, steps: seq<Step>, k: nat, id: JobId, wall: string)
    requires Init(cfg, s) && cfg.settings.Valid() && Allowed(cfg, s, steps) && k < |steps|
    requires Allowed(cfg, s, steps[..k]) && steps[k] == Cancel(id, wall)
    requires Run(cfg, s, steps[..k]).core.Cancel(id, wall).1.Ok?
    ensures var m := Run(cfg, s, steps);
            && id in m.core.store.records
            && Ok(m.core.store.records[id]) == Run(cfg, s, steps[..k]).core.Cancel(id, wall).1
            && m.core.store.records[id].status.Cancelled? && m.core.store.records[id].endedAt == Some(wall)
            && id in m.core.cancelled
            && (m.core.current == Some(id) ==> m.core.task.Some? && m.core.task.value != InFlight(false))
  {
    Always(cfg, s, steps[..k]);
    CancelNow(Run(cfg, s, steps[..k]).core, id, wall);
    RunsEvolve(cfg, s, steps, k + 1);
    Always(cfg, s, steps[..k + 1]);
    StepAt(cfg, s, steps, k);
    TerminalStays(Run(cfg, s, steps[..k + 1]).core.store, Run(cfg, s, steps).core.store, id);
    Always(cfg, s, steps);
    CancelledAwaits(Run(cfg, s, steps), id);
  }

  /** The state after the first k + 1 steps is the one the step at k makes of the state before it. */
  lemma StepAt(cfg: Config, s: State, steps: seq<Step>, k: nat)
    requires k < |steps| && Allowed(cfg, s, steps[..k + 1])
    ensures Allowed(cfg, s, steps[..k]) && Run(cfg, s, steps[..k]).Enabled(cfg, steps[k])
    ensures Run(cfg, s, steps[..k + 1]) == Run(cfg, s, steps[..k]).Perform(cfg, steps[k])
  {
    var upto := steps[..k + 1];
    assert upto[..|upto| - 1] == steps[..k] && upto[|upto| - 1] == steps[k];
  }

  lemma CancelNow(core: Core, id: JobId, wall: string)
    requires Lives(core.store) && core.Cancel(id, wall).1.Ok?
    ensures var (after, r) := core.Cancel(id, wall);
            id in after.store.records && r == Ok(after.store.records[id])
            && r.value.status.Cancelled? && r.value.endedAt == Some(wall)
  {
    J.CancelFacts(core, id, wall);
    assert core.Cancel(id, wall).1 == ToCancelled(core.store.records[id], wall);
  }

  lemma CancelledAwaits(m: State, id: JobId)
    requires JobInv(m) && id in m.core.store.records && m.core.store.records[id].status.Cancelled?
    ensures id in m.core.cancelled
    ensures m.core.current == Some(id) ==> m.core.task.Some? && m.core.task.value != InFlight(false)
  {
    assert id in LedgerOf(m).status;
  }

  // ---- conservation and progress ----

  /**
   Every submitted id is in exactly one of processed, hand and queue; together, in that order, they are the
   submissions in order; processed jobs are terminal, so jobs end in the order in which they were submitted.
   */
  lemma NothingLost(cfg: Config, s: State, steps: seq<Step>, id: JobId)
    requires Init(cfg, s) && cfg.settings.Valid() && Allowed(cfg, s, steps)
    ensures var m := Run(cfg, s, steps); var hand := Hand(m.worker);
            && m.submitted == m.processed + hand + m.core.queue
            && (id in m.core.store.records <==> id in m.submitted)
            && multiset(m.processed)[id] + multiset(hand)[id] + multiset(m.core.queue)[id]
               == (if id in m.submitted then 1 else 0)
            && (id in m.processed ==> id in m.core.store.records && m.core.store.records[id].status.Terminal())
  {
    Always(cfg, s, steps);
    L.ExactlyOnePlace(LedgerOf(Run(cfg, s, steps)), id);
  }

  lemma OneMoreStep(cfg: Config, s: State, steps: seq<Step>, step: Step)
    requires Allowed(cfg, s, steps) && Run(cfg, s, steps).Enabled(cfg, step)
    ensures Allowed(cfg, s, steps + [step]) && Run(cfg, s, steps + [step]) == Run(cfg, s, steps).Perform(cfg, step)
  {
    assert (steps + [step])[..|steps|] == steps;
  }

  lemma {:induction false} AllowedSplit(cfg: Config, s: State, steps: seq<Step>, more: seq<Step>)
    requires Allowed(cfg, s, steps) && Allowed(cfg, Run(cfg, s, steps), more)
    ensures Allowed(cfg, s, steps + more) && Run(cfg, s, steps + more) == Run(cfg, Run(cfg, s, steps), more)
  {
    if more == [] {
      assert steps + more == steps;
    } else {
      AllowedSplit(cfg, s, steps, more[..|more| - 1]);
      SplitStep(cfg, s, Run(cfg, s, steps), steps + more[..|more| - 1], more);
      Regroup(steps, more);
    }
  }

  lemma Regroup(a: seq<Step>, b: seq<Step>)
    requires b != []
    ensures a + b == (a + b[..|b| - 1]) + [b[|b| - 1]]
  {
  }

  /** Two runs that have reached one state go on alike. */
  lemma SplitStep(cfg: Config, s: State, t: State, a: seq<Step>, b: seq<Step>)
    requires b != [] && Allowed(cfg, s, a) && Allowed(cfg, t, b) && Run(cfg, s, a) == Run(cfg, t, b[..|b| - 1])
    ensures Allowed(cfg, s, a + [b[|b| - 1]]) && Run(cfg, s, a + [b[|b| - 1]]) == Run(cfg, t, b)
  {
    OneMoreStep(cfg, s, a, b[|b| - 1]);
  }

  /**
   From any reachable state, without new submissions, the worker takes at most Cost more steps, whatever the
   other actors do in between; when it can take no more, every job is terminal.
   */
  lemma {:induction false} EveryJobEnds(cfg: Config, s: State, steps: seq<Step>, more: seq<Step>)
    requires Init(cfg, s) && cfg.settings.Valid() && Allowed(cfg, s, steps)
    requires Allowed(cfg, Run(cfg, s, steps), more) && NoSubmissions(more)
    ensures var a := Run(cfg, s, steps); var b := Run(cfg, a, more);
            && WorkerSteps(more) + Cost(cfg, b) <= Cost(cfg, a)
            && (WorkerSteps(more) == Cost(cfg, a)
                ==> forall id <- b.core.store.records :: b.core.store.records[id].status.Terminal())
  {
    var a := Run(cfg, s, steps);
    if more != [] {
      var init, step := more[..|more| - 1], more[|more| - 1];
      EveryJobEnds(cfg, s, steps, init);
      AllowedSplit(cfg, s, steps, init);
      Always(cfg, s, steps + init);
      var m := Run(cfg, a, init);
      assert step in more;
      if WorkerStep(step) {
        P.WorkerStepCosts(cfg, m, step);
      } else {
        P.OtherStepCosts(cfg, m, step);
      }
    }
    AllowedSplit(cfg, s, steps, more);
    Always(cfg, s, steps + more);
    var b := Run(cfg, a, more);
    if Cost(cfg, b) == 0 {
      P.DoneMeansDone(cfg, b);
    }
  }

  /** And it can: an unfinished job always leaves a step to take, by the worker or by the holder of the lock. */
  lemma NoDeadlock(cfg: Config, s: State, steps: seq<Step>, id: JobId) returns (step: Step, dt: real)
    requires Init(cfg, s) && cfg.settings.Valid() && Allowed(cfg, s, steps)
    requires var m := Run(cfg, s, steps); id in m.core.store.records && !m.core.store.records[id].status.Terminal()
    ensures CanMove(cfg, Run(cfg, s, steps), step, dt)
  {
    Always(cfg, s, steps);
    step, dt := P.NeverStuck(cfg, Run(cfg, s, steps), id);
  }

  // ---- artifacts ----

  /**
   With a root configured, a succeeded job's directory holds exactly its record's audio and the sidecar built
   from that record; a queued, running or cancelled job has changed nothing under its name; a failed one has
   left at most an interrupted write; and nothing else on the disk is touched, in any run.
   */
  lemma ArtifactsMatchRecords(cfg: Config, s: State, steps: seq<Step>, id: JobId)
    requires Init(cfg, s) && cfg.settings.Valid() && Allowed(cfg, s, steps)
    ensures var m := Run(cfg, s, steps); var records := m.core.store.records;
            && (id in records ==> Kept(cfg, s.core.disk, m.core.disk, id, records[id]))
            && (id in records && records[id].status.Succeeded? && cfg.persist ==> Complete(m.core.disk, id))
            && (id !in records ==> SameAt(s.core.disk, m.core.disk, id))
            && (!cfg.persist ==> m.core.disk == s.core.disk)
  {
    Always(cfg, s, steps);
  }

  /** A sidecar that says of a record what happened: who, what was asked and sent, when, and what came of it. */
  ghost predicate Tells(cfg: Config, record: Record, sidecar: Sidecar) {
    var sub, sent, t := record.submission, sidecar.request.translated.request, sidecar.timings;
    && sidecar.traceId == sidecar.jobId == record.id
    && sidecar.request.cloud == sub.cloud
    && sent.input == sidecar.request.input == sub.input
    && sent.instructions == sidecar.request.instructions == sub.instructions
    && sent.seed == sidecar.request.seed == sub.seed
    && sent.maxNewTokens == sidecar.request.maxNewTokens == sub.maxNewTokens
    && record.audio.Some? && sidecar.output.byteSize == |record.audio.value|
    && sidecar.output.contentHash == cfg.media.sha(record.audio.value)
    && t.submittedAt == record.submittedAt && record.startedAt.Some? && record.endedAt.Some?
    && t.startedAt == record.startedAt && t.endedAt == record.endedAt && t.generationSeconds == record.generationSeconds
    && t.queueSeconds == Between(cfg.media, record.submittedAt, record.startedAt.value)
    && t.totalSeconds == Between(cfg.media, record.submittedAt, record.endedAt.value)
    && sent.model == cfg.model && sidecar.request.translated.responseFormat == "wav"
    && !sidecar.request.translated.stream
    && sidecar.engine == record.engine && sidecar.model == record.model && sidecar.contentType == record.contentType
    && sidecar.deployment == cfg.media.deployment
    && Measures(cfg.media, record.audio.value, sidecar.output)
  }

  /** The seconds from one instant to another; none if either is missing. */
  function Between(m: Media, begin: string, end: string): Option<real> {
    if begin == "" || end == "" then None else Some(m.instant(end) - m.instant(begin))
  }

  /** The facts are those of the audio's header, and the duration is its frames at its rate. */
  predicate Measures(m: Media, audio: seq<byte>, facts: WavFacts) {
    && m.header(audio).Some?
    && var h := m.header(audio).value;
       && facts.sampleRate == h.sampleRate && facts.channels == h.channels
       && facts.durationSeconds == (if h.sampleRate == 0 then 0.0 else h.frames as real / h.sampleRate as real)
       && facts.byteSize == |audio| && facts.contentHash == m.sha(audio)
  }

  /** The two files of a succeeded job are its record's audio and one sidecar that tells of that record. */
  lemma SidecarTells(cfg: Config, s: State, steps: seq<Step>, id: JobId)
    requires Init(cfg, s) && cfg.settings.Valid() && cfg.persist && Allowed(cfg, s, steps)
    requires var records := Run(cfg, s, steps).core.store.records; id in records && records[id].status.Succeeded?
    ensures var core := Run(cfg, s, steps).core;
            && core.store.records[id].audio.Some? && id in core.disk && core.disk[id].Directory?
            && exists sidecar :: Tells(cfg, core.store.records[id], sidecar)
                 && core.disk[id].members == map[AUDIO := Regular(core.store.records[id].audio.value),
                                                 SIDECAR := Regular(cfg.media.dumps(sidecar))]
  {
    Always(cfg, s, steps);
    var m := Run(cfg, s, steps);
    StoredSidecarTells(cfg, s.core.disk, m, id);
  }

  lemma StoredSidecarTells(cfg: Config, start: Disk, m: State, id: JobId)
    requires DiskInv(cfg, start, m) && JobInv(m) && cfg.persist
    requires id in m.core.store.records && m.core.store.records[id].status.Succeeded?
    ensures var record := m.core.store.records[id];
            && record.audio.Some? && id in m.core.disk && m.core.disk[id].Directory?
            && exists sidecar :: Tells(cfg, record, sidecar)
                 && m.core.disk[id].members == map[AUDIO := Regular(record.audio.value),
                                                   SIDECAR := Regular(cfg.media.dumps(sidecar))]
  {
    var record := m.core.store.records[id];
    assert Kept(cfg, start, m.core.disk, id, record);
    RanAndEnded(record, m.core.store.logs[id]);
    BuiltTells(cfg, record);
    var sidecar := BuildSidecar(cfg.media, record, MeasureWav(cfg.media, record.audio.value).value,
                                BodyOf(cfg, record));
    assert Tells(cfg, record, sidecar);
  }

  lemma RanAndEnded(record: Record, log: seq<Event>)
    requires Grammar(log) && Reflects(record, log) && record.status.Succeeded?
    ensures record.startedAt.Some? && record.endedAt.Some?
  {
  }

  lemma BuiltTells(cfg: Config, record: Record)
    requires record.startedAt.Some? && record.endedAt.Some?
    requires record.audio.Some? && MeasureWav(cfg.media, record.audio.value).Some?
    ensures Tells(cfg, record, BuildSidecar(cfg.media, record, MeasureWav(cfg.media, record.audio.value).value,
                                            BodyOf(cfg, record)))
  {
  }

  // ---- the conversation with the container ----

  /** Every note of every run is lawful by the notes before it. */
  lemma EveryNoteLawful(cfg: Config, s: State, steps: seq<Step>, k: nat)
    requires Init(cfg, s) && cfg.settings.Valid() && Allowed(cfg, s, steps) && k < |Run(cfg, s, steps).trace|
    ensures Lawful(cfg.settings, Run(cfg, s, steps).trace[..k], Run(cfg, s, steps).trace[k])
  {
    Always(cfg, s, steps);
    T.LegalMeans(cfg.settings, Run(cfg, s, steps).trace, k);
  }

  predicate Exclusive(steps: seq<Step>) {
    forall step <- steps :: !step.ContainerChanges?
  }

  lemma {:induction false} TallyAlways(cfg: Config, s: State, steps: seq<Step>)
    requires Init(cfg, s) && cfg.settings.Valid() && Allowed(cfg, s, steps) && Exclusive(steps)
    ensures TallyInv(s.container, Run(cfg, s, steps))
  {
    if steps == [] {
      InitHolds(cfg, s);
    } else {
      var init, step := steps[..|steps| - 1], steps[|steps| - 1];
      TallyAlways(cfg, s, init);
      Always(cfg, s, init);
      assert step in steps;
      B.StepKeeps(cfg, s.container, Run(cfg, s, init), step);
    }
  }

  /**
   If only this controller changes the container, calls that changed it alternate between start and stop,
   for any number of concurrent callers; successful starts never exceed stops that took effect plus one, nor
   successful stops plus one as long as no more stops than starts were lost behind a reported failure.
   */
  lemma StartsAlternate(cfg: Config, s: State, steps: seq<Step>)
    requires Init(cfg, s) && cfg.settings.Valid() && Allowed(cfg, s, steps) && Exclusive(steps)
    ensures var m := Run(cfg, s, steps);
            && Up(s.container) + m.tally.starts + m.tally.lostStarts
               == Up(m.container) + m.tally.stops + m.tally.lostStops
            && m.tally.starts <= m.tally.stops + m.tally.lostStops + 1
            && (m.tally.lostStops <= m.tally.lostStarts ==> m.tally.starts <= m.tally.stops + 1)
            && (m.tally.starts <= m.tally.stops + 1 <==>
                  Up(m.container) + m.tally.lostStops <= Up(s.container) + m.tally.lostStarts + 1)
  {
    TallyAlways(cfg, s, steps);
  }
}
