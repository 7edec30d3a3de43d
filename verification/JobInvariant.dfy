/** The job side of the invariant: records, logs, queue and slot agree at every suspension. */
module JobInvariant {
  import opened Prelude
  import opened Jobs
  import opened Lifecycle
  import opened Artifacts
  import opened Runner
  import opened Machine
  import L = Ledger

  /** queued, then optionally running, then at most one terminal event; ids 1, 2, 3; no success unstarted. */
  ghost predicate Grammar(log: seq<Event>) {
    && 1 <= |log| <= 3
    && (forall k :: 0 <= k < |log| ==> log[k].id == k + 1)
    && log[0].kind.Queued?
    && (|log| == 2 ==> !log[1].kind.Queued? && !log[1].kind.Succeeded?)
    && (|log| == 3 ==> log[1].kind.Running? && log[2].kind.Terminal())
  }

  /** The record says what the log says. */
  ghost predicate Reflects(record: Record, log: seq<Event>)
    requires Grammar(log)
  {
    var last := log[|log| - 1];
    && record.status == last.kind
    && (record.startedAt.Some? <==> |log| > 1 && log[1].kind.Running?)
    && (record.endedAt.Some? <==> last.kind.Terminal())
    && (record.audio.Some? <==> last.kind.Succeeded?)
    && (record.error.Some? <==> last.kind.Failed?)
    && last.data == (if record.error.Some? then Failure(record.error.value) else NoData)
  }

  ghost predicate Lives(store: Store) {
    && store.Coherent()
    && forall id <- store.records :: Grammar(store.logs[id]) && Reflects(store.records[id], store.logs[id])
  }

  function Hand(worker: WorkerAt): seq<JobId> {
    if worker.Parked? then [] else [worker.id]
  }

  function Statuses(store: Store): map<JobId, Status> {
    map id | id in store.records :: store.records[id].status
  }

  function LedgerOf(s: State): L.Ledger {
    L.Ledger(Statuses(s.core.store), s.core.cancelled, s.core.queue, Hand(s.worker), s.worker.Busy?,
             s.submitted, s.processed)
  }

  /** One slot: the engine task, the current job and the lease exist exactly while the worker awaits. */
  ghost predicate Slot(s: State) {
    && s.core.current == (if s.worker.Busy? then Some(s.worker.id) else None)
    && s.core.task.Some? == s.worker.Busy?
    && s.core.gate.leases == (if s.worker.Busy? then 1 else 0)
    && (s.core.task == Some(InFlight(false)) ==> s.worker.id !in s.core.cancelled)
    && (s.core.task == Some(InFlight(true)) || s.core.task == Some(Done(Aborted)) ==> s.worker.id in s.core.cancelled)
  }

  ghost predicate JobInv(s: State) {
    && Lives(s.core.store)
    && LedgerOf(s).Valid()
    && Slot(s)
    && s.escaped == 0
  }

  // ---- what the stretches of runner code do to the store ----

  /** A legal move of one record with its event keeps every record in step with its log. */
  lemma MoveFacts(core: Core, id: JobId, fn: Record -> Result<Record, StoreError>, kind: Status, data: Payload)
    requires Lives(core.store) && id in core.store.records
    requires var log := core.store.logs[id] + [Event(|core.store.logs[id]| + 1, kind, data)];
             var r := fn(core.store.records[id]);
             r.Ok? && r.value.id == id && Grammar(log) && Reflects(r.value, log)
    ensures var (moved, e) := core.Move(id, fn, kind, data);
            && e.None? && Lives(moved.store) && moved == core.(store := moved.store)
            && moved.store.records == core.store.records[id := fn(core.store.records[id]).value]
            && Statuses(moved.store) == Statuses(core.store)[id := kind]
  {
  }

  lemma FirstEvent(store: Store, sub: Submission, wall: string, id: JobId)
    ensures store.Create(sub, wall, id).Append(id, Queued, NoData)
         == Store(store.records[id := NewRecord(id, sub, wall)], store.logs[id := [Event(1, Queued, NoData)]])
  {
    var created := store.Create(sub, wall, id);
    assert created.logs[id] == [];
    assert [] + [Event(1, Queued, NoData)] == [Event(1, Queued, NoData)];
    assert store.logs[id := []][id := [Event(1, Queued, NoData)]] == store.logs[id := [Event(1, Queued, NoData)]];
  }

  lemma InsertFacts(store: Store, id: JobId, record: Record, log: seq<Event>)
    requires Lives(store) && record.id == id && Grammar(log) && Reflects(record, log)
    ensures Lives(Store(store.records[id := record], store.logs[id := log]))
    ensures Statuses(Store(store.records[id := record], store.logs[id := log])) == Statuses(store)[id := record.status]
  {
  }

  lemma CreateFacts(core: Core, sub: Submission, wall: string, id: JobId)
    requires Lives(core.store) && id !in core.store.records
    ensures var after := core.Submit(sub, wall, id);
            && Lives(after.store) && Statuses(after.store) == Statuses(core.store)[id := Queued]
            && after == core.(store := after.store, queue := core.queue + [id])
            && after.store.records == core.store.records[id := NewRecord(id, sub, wall)]
  {
    FirstEvent(core.store, sub, wall, id);
    InsertFacts(core.store, id, NewRecord(id, sub, wall), [Event(1, Queued, NoData)]);
  }

  lemma FailFacts(core: Core, id: JobId, message: string, wall: string)
    requires Lives(core.store) && id in core.store.records && !core.store.records[id].status.Terminal()
    ensures var (after, p) := core.Fail(id, message, wall);
            && p.Processed? && Lives(after.store) && after == core.(store := after.store)
            && after.store.records.Keys == core.store.records.Keys
            && Statuses(after.store) == Statuses(core.store)[id := Failed]
  {
    MoveFacts(core, id, r => ToFailed(r, message, wall), Failed, Failure(message));
  }

  lemma CancelFacts(core: Core, id: JobId, wall: string)
    requires Lives(core.store) && id in core.store.records && !core.store.records[id].status.Terminal()
    ensures var (after, r) := core.Cancel(id, wall);
            && r.Ok? && r.value == after.store.records[id] && r.value.status.Cancelled?
            && Lives(after.store) && Statuses(after.store) == Statuses(core.store)[id := Cancelled]
            && after == core.(store := after.store, cancelled := core.cancelled + {id}, task := after.task)
            && after.store.records == core.store.records[id := r.value]
            && after.task == (if core.store.records[id].status.Running? && core.current == Some(id)
                                 && core.task.Some? && core.task.value.InFlight?
                              then Some(InFlight(true)) else core.task)
  {
    var marked := core.(cancelled := core.cancelled + {id}, task := core.Cancel(id, wall).0.task);
    MoveFacts(marked, id, r => ToCancelled(r, wall), Cancelled, NoData);
  }

  lemma AdmitFacts(core: Core, id: JobId, state: ReadinessState, wall: string)
    requires Lives(core.store) && id in core.store.records
    requires id in core.cancelled ==> core.store.records[id].status.Cancelled?
    requires id !in core.cancelled ==> core.store.records[id].status.Queued?
    ensures var (after, p) := core.Admit(id, state, wall);
            && Lives(after.store)
            && (id in core.cancelled ==> after == core && p.Processed?)
            && (id !in core.cancelled && !state.Ready? ==>
                  && p.Processed? && after == core.(store := after.store)
                  && Statuses(after.store) == Statuses(core.store)[id := Failed])
            && (id !in core.cancelled && state.Ready? ==>
                  && p.Generating?
                  && after == core.(store := after.store, current := Some(id), task := Some(InFlight(false)),
                                    gate := core.gate.Lease())
                  && Statuses(after.store) == Statuses(core.store)[id := Running])
  {
    if id !in core.cancelled {
      if state.Ready? {
        MoveFacts(core, id, r => ToRunning(r, wall), Running, NoData);
      } else {
        FailFacts(core, id, NotReadyMessage(state, core.gate.lastCause), wall);
      }
    }
  }

  /** _persist_and_succeed after the attempt at writing. */
  function Persisted(stored: Core, id: JobId, result: EngineResult, written: Result<string, string>,
                     w: Wrap): (Core, Progress) {
    if written.Err? then stored.Fail(id, WriteFailedMessage(written.error), w.wallFail)
    else
      var (moved, e) := stored.Move(id, r => ToSucceeded(r, result, w.wall), Succeeded, NoData);
      (moved, if e.None? then Processed else Escaped(e.value))
  }

  lemma PersistedFacts(stored: Core, id: JobId, result: EngineResult, written: Result<string, string>, w: Wrap)
    requires Lives(stored.store) && id in stored.store.records && stored.store.records[id].status.Running?
    ensures var (after, p) := Persisted(stored, id, result, written, w);
            && p.Processed? && Lives(after.store) && after == stored.(store := after.store)
            && (Statuses(after.store) == Statuses(stored.store)[id := Failed]
                || Statuses(after.store) == Statuses(stored.store)[id := Succeeded])
  {
    if written.Err? {
      FailFacts(stored, id, WriteFailedMessage(written.error), w.wallFail);
    } else {
      MoveFacts(stored, id, r => ToSucceeded(r, result, w.wall), Succeeded, NoData);
    }
  }

  lemma PersistFacts(cfg: Config, core: Core, id: JobId, result: EngineResult, w: Wrap)
    requires Lives(core.store) && id in core.store.records && core.store.records[id].status.Running?
    ensures var (after, p) := core.PersistAndSucceed(cfg, id, result, w);
            && p.Processed? && Lives(after.store) && after == core.(store := after.store, disk := after.disk)
            && (Statuses(after.store) == Statuses(core.store)[id := Failed]
                || Statuses(after.store) == Statuses(core.store)[id := Succeeded])
  {
    var succeeded := ToSucceeded(core.store.records[id], result, w.wall).value;
    var request := RequestOf(cfg, core.store.records[id].submission);
    var (disk', written) :=
      if cfg.persist then Written(cfg.media, core.disk, succeeded, BuildBody(request), w.t, w.fault)
      else (core.disk, Ok(""));
    PersistedFacts(core.(disk := disk'), id, result, written, w);
    assert core.PersistAndSucceed(cfg, id, result, w) == Persisted(core.(disk := disk'), id, result, written, w);
  }

  lemma ConcludeFacts(cfg: Config, core: Core, id: JobId, outcome: Outcome, now: real, w: Wrap)
    requires Lives(core.store) && id in core.store.records
    requires id in core.cancelled ==> core.store.records[id].status.Cancelled?
    requires id !in core.cancelled ==> core.store.records[id].status.Running? && !outcome.Aborted?
    ensures var (after, p) := core.Conclude(cfg, id, outcome, now, w);
            && p.Processed? && Lives(after.store)
            && after == core.(store := after.store, disk := after.disk, gate := core.gate.Release(now),
                              current := None, task := None)
            && (id in core.cancelled ==> after.store == core.store && after.disk == core.disk)
            && (id !in core.cancelled ==>
                  || Statuses(after.store) == Statuses(core.store)[id := Failed]
                  || Statuses(after.store) == Statuses(core.store)[id := Succeeded])
  {
    var released := core.(gate := core.gate.Release(now));
    if id !in core.cancelled {
      match outcome
      case Errored(message) => FailFacts(released, id, message, w.wall);
      case Finished(result) => PersistFacts(cfg, released, id, result, w);
    }
  }

  // ---- each step keeps the invariant ----

  lemma SubmitKeeps(s: State, sub: Submission, wall: string, id: JobId)
    requires JobInv(s) && id !in s.core.store.records
    ensures JobInv(s.Submitted(sub, wall, id))
  {
    CreateFacts(s.core, sub, wall, id);
    L.SubmitKeeps(LedgerOf(s), id);
    assert LedgerOf(s.Submitted(sub, wall, id)) == LedgerOf(s).Submit(id);
  }

  lemma CancelKeeps(s: State, id: JobId, wall: string)
    requires JobInv(s)
    ensures JobInv(s.(core := s.core.Cancel(id, wall).0))
  {
    if id in s.core.store.records && !s.core.store.records[id].status.Terminal() {
      CancelFacts(s.core, id, wall);
      L.CancelKeeps(LedgerOf(s), id);
      var s' := s.(core := s.core.Cancel(id, wall).0);
      assert LedgerOf(s') == LedgerOf(s).Cancel(id);
      if s.worker.Busy? {
        assert s.worker.id in Hand(s.worker);
      }
    }
  }

  /** ensure_ready returning to anyone; the gate may have changed, but not its lease count. */
  lemma GatedReturnKeeps(s: State, state: ReadinessState, wall: string)
    requires JobInv(s) && s.worker.Gating?
    ensures JobInv(s.Return(Worker, state, wall))
  {
    var id := s.worker.id;
    assert id in LedgerOf(s).hand;
    AdmitFacts(s.core, id, state, wall);
    var s' := s.Return(Worker, state, wall);
    if id in s.core.cancelled {
      L.DropKeeps(LedgerOf(s));
      assert LedgerOf(s') == LedgerOf(s).Drop();
    } else if state.Ready? {
      L.RunKeeps(LedgerOf(s), id);
      assert LedgerOf(s') == LedgerOf(s).Move(id, Running).(running := true);
    } else {
      L.EndKeeps(LedgerOf(s), id, Failed);
      assert LedgerOf(s') == LedgerOf(s).Move(id, Failed).Drop();
    }
  }

  lemma ReturnKeeps(s: State, who: Actor, state: ReadinessState, wall: string)
    requires JobInv(s)
    ensures JobInv(s.Return(who, state, wall))
  {
    if who.Worker? && s.worker.Gating? {
      GatedReturnKeeps(s, state, wall);
    } else {
      assert LedgerOf(s.Return(who, state, wall)) == LedgerOf(s);
    }
  }

  /** Nothing but the gate's other fields, phases, clock, container and notes changed. */
  lemma IdleKeeps(s: State, s': State)
    requires JobInv(s)
    requires s'.core == s.core.(gate := s'.core.gate) && s'.core.gate.leases == s.core.gate.leases
    requires s'.worker == s.worker && s'.submitted == s.submitted && s'.processed == s.processed
             && s'.escaped == s.escaped
    ensures JobInv(s')
  {
    assert LedgerOf(s') == LedgerOf(s);
  }

  lemma EnterKeeps(cfg: Config, s: State, who: Actor, wall: string)
    requires JobInv(s)
    ensures JobInv(s.Enter(cfg, who, wall))
  {
    var gate := s.core.gate.Enter(cfg.settings, s.now);
    var entered := s.Guard(gate).Write(Activity(who));
    var armed := if gate.armed && !s.core.gate.armed then entered.Put(IdleLoop, Dozing(s.now, s.now)) else entered;
    match s.core.gate.Fresh(cfg.settings, s.now)
    case Some(state) =>
      var hit := armed.Write(FastReady(who, s.core.gate.lastCause));
      IdleKeeps(s, hit);
      ReturnKeeps(hit, who, state, wall);
    case None =>
      IdleKeeps(s, armed.Put(who, Waiting));
  }

  lemma TakeKeeps(cfg: Config, s: State, wall: string)
    requires JobInv(s) && s.worker.Parked? && s.core.queue != []
    ensures JobInv(s.Took(cfg, wall))
  {
    var id := s.core.queue[0];
    var popped := s.(core := s.core.(queue := s.core.queue[1..]));
    var held := popped.(worker := Gating(id));
    L.PopKeeps(LedgerOf(s));
    assert LedgerOf(held) == LedgerOf(s).Pop();
    assert id in s.core.queue;
    if id in s.core.cancelled {
      assert popped.core.EnsureCancelled(id, wall) == popped.core;
      L.DropKeeps(LedgerOf(held));
      assert LedgerOf(s.Took(cfg, wall)) == LedgerOf(held).Drop();
    } else {
      EnterKeeps(cfg, held, Worker, wall);
    }
  }

  lemma AdvanceKeeps(s: State, m: State, who: Actor, next: Next, wall: string)
    requires JobInv(s)
    requires m.core == s.core.(gate := m.core.gate) && m.core.gate.leases == s.core.gate.leases
    requires m.worker == s.worker && m.submitted == s.submitted && m.processed == s.processed && m.escaped == s.escaped
    ensures JobInv(m.Advance(who, next, wall))
  {
    IdleKeeps(s, m);
    match next
    case Returned(state) => ReturnKeeps(m, who, state, wall);
    case Suspended(p) => IdleKeeps(s, m.Suspend(who, p));
  }

  lemma ResumeKeeps(cfg: Config, s: State, w: Wrap)
    requires JobInv(s) && s.Enabled(cfg, Resume(w))
    ensures JobInv(s.Resumed(cfg, w))
  {
    var id := s.worker.id;
    assert id in LedgerOf(s).hand;
    ConcludeFacts(cfg, s.core, id, s.core.task.value.outcome, s.now, w);
    var s' := s.Resumed(cfg, w);
    if id in s.core.cancelled {
      L.DropKeeps(LedgerOf(s));
      assert LedgerOf(s') == LedgerOf(s).Drop();
    } else {
      var to := if Statuses(s'.core.store) == Statuses(s.core.store)[id := Failed] then Failed else Succeeded;
      L.EndKeeps(LedgerOf(s), id, to);
      assert LedgerOf(s') == LedgerOf(s).Move(id, to).Drop();
    }
  }

  /** Every step keeps the job side of the invariant. */
  lemma StepKeeps(cfg: Config, s: State, step: Step)
    requires JobInv(s) && s.Enabled(cfg, step)
    ensures JobInv(s.Perform(cfg, step))
  {
    match step
    case Submit(sub, wall, id) => SubmitKeeps(s, sub, wall, id);
    case Cancel(id, wall) => CancelKeeps(s, id, wall);
    case Take(wall) => TakeKeeps(cfg, s, wall);
    case CallerEnters(n) => EnterKeeps(cfg, s, Caller(n), "");
    case Resume(w) => ResumeKeeps(cfg, s, w);
    case EngineSettles(_) => assert LedgerOf(s.Perform(cfg, step)) == LedgerOf(s);
    case Acquire(who, wall) => AcquireKeeps(cfg, s, who, wall);
    case ProbeReturns(who, outcome, wall) => ProbeKeeps(cfg, s, who, outcome, wall);
    case StatusReturns(who, seen, wall) => StatusKeeps(cfg, s, who, seen, wall);
    case StartReturns(who, reply, took, wall) => StartKeeps(cfg, s, step);
    case StopReturns(_, _) => IdleKeeps(s, s.Perform(cfg, step));
    case Wakes(who) => IdleKeeps(s, s.Perform(cfg, step));
    case Tick(_) => IdleKeeps(s, s.Perform(cfg, step));
    case ContainerChanges(_) => IdleKeeps(s, s.Perform(cfg, step));
  }

  lemma AcquireKeeps(cfg: Config, s: State, who: Actor, wall: string)
    requires JobInv(s)
    ensures JobInv(s.Acquired(cfg, who, wall))
  {
    if s.At(who).IdleWaiting? {
      IdleKeeps(s, s.Acquired(cfg, who, wall));
    } else {
      var (gate, next) := s.core.gate.Enlock(cfg.settings, who, s.now);
      if next.Returned? {
        AdvanceKeeps(s, s.Guard(gate).Write(FastReady(who, s.core.gate.lastCause)), who, next, wall);
      } else {
        AdvanceKeeps(s, s.Guard(gate), who, next, wall);
      }
    }
  }

  lemma ProbeKeeps(cfg: Config, s: State, who: Actor, outcome: ProbeOutcome, wall: string)
    requires JobInv(s) && (s.At(who).Probing? || s.At(who).Polling?)
    ensures JobInv(s.Probed(cfg, who, outcome, wall))
  {
    var deadline := s.At(who).deadline;
    var (gate, next) :=
      if s.At(who).Probing? then s.core.gate.FirstProbe(cfg.settings, outcome, deadline, s.now)
      else s.core.gate.Polled(cfg.settings, outcome, deadline, s.now);
    var told := s.Guard(gate).Write(Told(who, ProbeCall, if outcome.ModelsAvailable? then Available else NotAvailable));
    AdvanceKeeps(s, if outcome.ModelsAvailable? then told.Write(Activity(who)) else told, who, next, wall);
  }

  lemma StatusKeeps(cfg: Config, s: State, who: Actor, seen: Reply<Container>, wall: string)
    requires JobInv(s) && (s.At(who).Inspecting? || s.At(who).IdleInspecting?)
    ensures JobInv(s.Inspected(cfg, who, seen, wall))
  {
    var told := s.Write(Told(who, StatusCall, if seen.Answer? then Saw(seen.value) else Broke));
    if s.At(who).IdleInspecting? {
      IdleKeeps(s, s.Inspected(cfg, who, seen, wall));
    } else {
      var (gate, next) := s.core.gate.Inspected(seen, s.At(who).deadline);
      AdvanceKeeps(s, told.Guard(gate), who, next, wall);
    }
  }

  lemma StartKeeps(cfg: Config, s: State, step: Step)
    requires JobInv(s) && step.StartReturns? && s.Enabled(cfg, step)
    ensures JobInv(s.Perform(cfg, step))
  {
    AdvanceKeeps(s, s.StartHeard(step.who, step.reply, step.took), step.who,
                 s.core.gate.Started(step.reply, s.At(step.who).deadline).1, step.wall);
  }
}
