/**
 How records, logs and the artifacts root evolve: step by step a record only moves forward, a terminal one
 never, and the disk holds a job's directory exactly as its record promises.
 */
module DiskInvariant {
  import opened Prelude
  import opened Jobs
  import opened Lifecycle
  import opened Artifacts
  import opened ArtifactSafety
  import opened Runner
  import opened Machine
  import opened J = JobInvariant

  function Rank(status: Status): nat {
    if status.Queued? then 0 else if status.Running? then 1 else 2
  }

  /** Unchanged, or strictly further with identity, request and submission time kept. */
  predicate Forward(a: Record, b: Record) {
    a == b || (Rank(a.status) < Rank(b.status) && b.id == a.id && b.submission == a.submission
               && b.submittedAt == a.submittedAt)
  }

  /** Every record moved forward and every log grew at its end, both or neither. */
  ghost predicate Evolved(a: Store, b: Store) {
    && (forall id <- a.records :: id in b.records && Forward(a.records[id], b.records[id]))
    && (forall id <- a.logs :: id in b.logs && a.logs[id] <= b.logs[id])
    && (forall id <- a.records ::
          id in a.logs && id in b.logs && a.records[id] == b.records[id] ==> a.logs[id] == b.logs[id])
  }

  /**
   What every stretch but the conclusion of an engine call does: no job is new, none succeeds, and the disk
   stays as it is.
   */
  ghost predicate Calm(a: Core, b: Core) {
    && Evolved(a.store, b.store)
    && b.disk == a.disk
    && b.store.records.Keys == a.store.records.Keys
    && (forall id <- b.store.records ::
          b.store.records[id].status.Succeeded? ==> a.store.records[id] == b.store.records[id])
  }

  lemma MoveEvolves(core: Core, id: JobId, fn: Record -> Result<Record, StoreError>, kind: Status, data: Payload)
    requires core.store.Coherent()
    requires id in core.store.records && fn(core.store.records[id]).Ok? ==>
               && Forward(core.store.records[id], fn(core.store.records[id]).value)
               && core.store.records[id] != fn(core.store.records[id]).value
    ensures var moved := core.Move(id, fn, kind, data).0;
            && Evolved(core.store, moved.store) && moved == core.(store := moved.store)
            && (id in core.store.records && fn(core.store.records[id]).Ok?
                && !fn(core.store.records[id]).value.status.Succeeded? ==>
                  Calm(core, moved))
            && (id !in core.store.records || fn(core.store.records[id]).Err? ==> moved == core)
  {
  }

  lemma FailEvolves(core: Core, id: JobId, message: string, wall: string)
    requires core.store.Coherent()
    ensures Calm(core, core.Fail(id, message, wall).0)
  {
    MoveEvolves(core, id, r => ToFailed(r, message, wall), Failed, Failure(message));
  }

  lemma CancelEvolves(core: Core, id: JobId, wall: string)
    requires core.store.Coherent()
    ensures Calm(core, core.Cancel(id, wall).0)
  {
    MoveEvolves(core.(cancelled := core.cancelled + {id}, task := core.Cancel(id, wall).0.task),
                id, r => ToCancelled(r, wall), Cancelled, NoData);
  }

  lemma EnsureCancelledEvolves(core: Core, id: JobId, wall: string)
    requires core.store.Coherent()
    ensures Calm(core, core.EnsureCancelled(id, wall))
  {
    MoveEvolves(core, id, r => ToCancelled(r, wall), Cancelled, NoData);
  }

  lemma AdmitEvolves(core: Core, id: JobId, state: ReadinessState, wall: string)
    requires core.store.Coherent()
    ensures Calm(core, core.Admit(id, state, wall).0)
  {
    if id in core.cancelled {
      EnsureCancelledEvolves(core, id, wall);
    } else if !state.Ready? {
      FailEvolves(core, id, NotReadyMessage(state, core.gate.lastCause), wall);
    } else {
      MoveEvolves(core, id, r => ToRunning(r, wall), Running, NoData);
    }
  }

  lemma ReturnEvolves(s: State, who: Actor, state: ReadinessState, wall: string)
    requires s.core.store.Coherent()
    ensures Calm(s.core, s.Return(who, state, wall).core)
  {
    if s.worker.Gating? {
      AdmitEvolves(s.core, s.worker.id, state, wall);
    }
  }

  lemma EnterEvolves(cfg: Config, s: State, who: Actor, wall: string)
    requires s.core.store.Coherent()
    ensures Calm(s.core, s.Enter(cfg, who, wall).core)
  {
    var gate := s.core.gate.Enter(cfg.settings, s.now);
    var entered := s.Guard(gate).Write(Activity(who));
    var armed := if gate.armed && !s.core.gate.armed then entered.Put(IdleLoop, Dozing(s.now, s.now)) else entered;
    if s.core.gate.Fresh(cfg.settings, s.now).Some? {
      ReturnEvolves(armed.Write(FastReady(who, s.core.gate.lastCause)), who,
                    s.core.gate.Fresh(cfg.settings, s.now).value, wall);
    }
  }

  lemma TakeEvolves(cfg: Config, s: State, wall: string)
    requires s.core.store.Coherent() && s.core.queue != []
    ensures Calm(s.core, s.Took(cfg, wall).core)
  {
    var id := s.core.queue[0];
    var popped := s.(core := s.core.(queue := s.core.queue[1..]));
    if id in s.core.cancelled {
      EnsureCancelledEvolves(popped.core, id, wall);
    } else {
      EnterEvolves(cfg, popped.(worker := Gating(id)), Worker, wall);
    }
  }

  lemma AdvanceEvolves(s: State, who: Actor, next: Next, wall: string)
    requires s.core.store.Coherent()
    ensures Calm(s.core, s.Advance(who, next, wall).core)
  {
    if next.Returned? {
      ReturnEvolves(s, who, next.state, wall);
    }
  }

  lemma AcquireEvolves(cfg: Config, s: State, who: Actor, wall: string)
    requires s.core.store.Coherent()
    ensures Calm(s.core, s.Acquired(cfg, who, wall).core)
  {
    if !s.At(who).IdleWaiting? {
      var (gate, next) := s.core.gate.Enlock(cfg.settings, who, s.now);
      var held := if next.Returned? then s.Guard(gate).Write(FastReady(who, s.core.gate.lastCause)) else s.Guard(gate);
      AdvanceEvolves(held, who, next, wall);
    }
  }

  lemma ProbeEvolves(cfg: Config, s: State, who: Actor, outcome: ProbeOutcome, wall: string)
    requires s.core.store.Coherent() && (s.At(who).Probing? || s.At(who).Polling?)
    ensures Calm(s.core, s.Probed(cfg, who, outcome, wall).core)
  {
    var (gate, next) :=
      if s.At(who).Probing? then s.core.gate.FirstProbe(cfg.settings, outcome, s.At(who).deadline, s.now)
      else s.core.gate.Polled(cfg.settings, outcome, s.At(who).deadline, s.now);
    var told := s.Guard(gate).Write(Told(who, ProbeCall, if outcome.ModelsAvailable? then Available else NotAvailable));
    AdvanceEvolves(if outcome.ModelsAvailable? then told.Write(Activity(who)) else told, who, next, wall);
  }

  lemma StatusEvolves(cfg: Config, s: State, who: Actor, seen: Reply<Container>, wall: string)
    requires s.core.store.Coherent() && (s.At(who).Inspecting? || s.At(who).IdleInspecting?)
    ensures Calm(s.core, s.Inspected(cfg, who, seen, wall).core)
  {
    if !s.At(who).IdleInspecting? {
      var told := s.Write(Told(who, StatusCall, if seen.Answer? then Saw(seen.value) else Broke));
      var (gate, next) := s.core.gate.Inspected(seen, s.At(who).deadline);
      AdvanceEvolves(told.Guard(gate), who, next, wall);
    }
  }

  lemma StartEvolves(s: State, who: Actor, reply: Reply<()>, took: bool, wall: string)
    requires s.core.store.Coherent() && s.At(who).Starting?
    ensures Calm(s.core, s.Started(who, reply, took, wall).core)
  {
    AdvanceEvolves(s.StartHeard(who, reply, took), who, s.core.gate.Started(reply, s.At(who).deadline).1, wall);
  }

  lemma QuietStep(cfg: Config, s: State, step: Step)
    requires s.core.store.Coherent() && s.Enabled(cfg, step) && !step.Resume? && !step.Submit?
    ensures Calm(s.core, s.Perform(cfg, step).core)
  {
    match step
    case Cancel(id, wall) => CancelEvolves(s.core, id, wall);
    case Take(wall) => TakeEvolves(cfg, s, wall);
    case CallerEnters(n) => EnterEvolves(cfg, s, Caller(n), "");
    case Acquire(who, wall) => AcquireEvolves(cfg, s, who, wall);
    case ProbeReturns(who, outcome, wall) => ProbeEvolves(cfg, s, who, outcome, wall);
    case StatusReturns(who, seen, wall) => StatusEvolves(cfg, s, who, seen, wall);
    case StartReturns(who, reply, took, wall) => StartEvolves(s, who, reply, took, wall);
    case StopReturns(reply, took) => StandStill(s.core, s.Stopped(cfg, reply, took).core);
    case Wakes(who) => StandStill(s.core, s.Woken(cfg, who).core);
    case EngineSettles(_) => StandStill(s.core, s.Perform(cfg, step).core);
    case Tick(_) => StandStill(s.core, s.Perform(cfg, step).core);
    case ContainerChanges(_) => StandStill(s.core, s.Perform(cfg, step).core);
  }

  lemma StandStill(a: Core, b: Core)
    requires b.store == a.store && b.disk == a.disk
    ensures Calm(a, b)
  {
  }

  // ---- the artifacts root ----

  predicate SameAt(a: Disk, b: Disk, name: string) {
    (name in a <==> name in b) && (name in a ==> a[name] == b[name])
  }

  function BodyOf(cfg: Config, record: Record): Translated {
    BuildBody(RequestOf(cfg, record.submission))
  }

  /** Some interrupted write for this job, at most. */
  ghost predicate Leftover(cfg: Config, id: JobId, record: Record, entry: Entry) {
    exists a: Attempt :: a.record.id == id && a.record.submission == record.submission && Whole(cfg.media, a, entry)
  }

  /** What the root holds under a job's name, against the root the process started with. */
  ghost predicate Kept(cfg: Config, start: Disk, disk: Disk, id: JobId, record: Record) {
    match record.status
    case Queued => SameAt(start, disk, id)
    case Running => SameAt(start, disk, id)
    case Cancelled => SameAt(start, disk, id)
    case Failed => SameAt(start, disk, id) || (id !in start && id in disk && Leftover(cfg, id, record, disk[id]))
    case Succeeded =>
      cfg.persist ==> id !in start && id in disk && Exact(cfg.media, record, BodyOf(cfg, record), disk[id])
  }

  ghost predicate DiskInv(cfg: Config, start: Disk, s: State) {
    && (forall id <- s.core.store.records :: Kept(cfg, start, s.core.disk, id, s.core.store.records[id]))
    && (forall id <- s.core.store.records :: !(id in start && start[id].LinkTo?))
    && (forall name: string :: name !in s.core.store.records ==> SameAt(start, s.core.disk, name))
    && (!cfg.persist ==> s.core.disk == start)
  }

  lemma QuietKeeps(cfg: Config, start: Disk, s: State, s': State)
    requires DiskInv(cfg, start, s) && Calm(s.core, s'.core) && JobInv(s')
    ensures DiskInv(cfg, start, s')
  {
    forall id | id in s'.core.store.records
      ensures Kept(cfg, start, s'.core.disk, id, s'.core.store.records[id])
    {
      assert Forward(s.core.store.records[id], s'.core.store.records[id]);
    }
  }

  lemma SubmitEvolves(s: State, sub: Submission, wall: string, id: JobId)
    requires JobInv(s) && id !in s.core.store.records
    ensures Evolved(s.core.store, s.Submitted(sub, wall, id).core.store)
    ensures s.Submitted(sub, wall, id).core.disk == s.core.disk
  {
    J.CreateFacts(s.core, sub, wall, id);
    J.FirstEvent(s.core.store, sub, wall, id);
  }

  lemma SubmitKeeps(cfg: Config, start: Disk, s: State, sub: Submission, wall: string, id: JobId)
    requires DiskInv(cfg, start, s) && JobInv(s) && s.Enabled(cfg, Submit(sub, wall, id))
    ensures DiskInv(cfg, start, s.Submitted(sub, wall, id))
            && Evolved(s.core.store, s.Submitted(sub, wall, id).core.store)
  {
    SubmitEvolves(s, sub, wall, id);
    J.CreateFacts(s.core, sub, wall, id);
  }

  /** What _persist_and_succeed does to a running job's record and to the disk. */
  lemma PersistShape(cfg: Config, core: Core, id: JobId, result: EngineResult, w: Wrap)
    requires Lives(core.store) && id in core.store.records && core.store.records[id].status.Running?
    ensures var after := core.PersistAndSucceed(cfg, id, result, w).0;
            var succeeded := ToSucceeded(core.store.records[id], result, w.wall).value;
            var (disk', written) :=
              if cfg.persist then Attempted(cfg.media, core.disk, AttemptOf(cfg, succeeded, w))
              else (core.disk, Ok(""));
            && after.disk == disk'
            && after.store.records == core.store.records[id :=
                 if written.Err?
                 then ToFailed(core.store.records[id], WriteFailedMessage(written.error), w.wallFail).value
                 else succeeded]
  {
    var succeeded := ToSucceeded(core.store.records[id], result, w.wall).value;
    var (disk', written) :=
      if cfg.persist then Attempted(cfg.media, core.disk, AttemptOf(cfg, succeeded, w)) else (core.disk, Ok(""));
    var stored := core.(disk := disk');
    if written.Err? {
      var message := WriteFailedMessage(written.error);
      MoveFacts(stored, id, r => ToFailed(r, message, w.wallFail), Failed, Failure(message));
    } else {
      MoveFacts(stored, id, r => ToSucceeded(r, result, w.wall), Succeeded, NoData);
    }
  }

  function AttemptOf(cfg: Config, succeeded: Record, w: Wrap): Attempt {
    Attempt(succeeded, BodyOf(cfg, succeeded), w.t, w.fault)
  }

  /** The write and the record are one: the sidecar on disk is built from the record that then succeeds. */
  lemma PersistWrites(cfg: Config, start: Disk, core: Core, id: JobId, result: EngineResult, w: Wrap)
    requires Lives(core.store) && id in core.store.records && core.store.records[id].status.Running?
    requires SameAt(start, core.disk, id) && !(id in start && start[id].LinkTo?)
    ensures var after := core.PersistAndSucceed(cfg, id, result, w).0;
            && after.store.records.Keys == core.store.records.Keys
            && (forall name: string :: name != id ==> SameAt(core.disk, after.disk, name))
            && (!cfg.persist ==> after.disk == core.disk)
            && Kept(cfg, start, after.disk, id, after.store.records[id])
  {
    PersistShape(cfg, core, id, result, w);
    if cfg.persist {
      var record := core.store.records[id];
      var succeeded := ToSucceeded(record, result, w.wall).value;
      var a := AttemptOf(cfg, succeeded, w);
      WriteKeepsOrLeaves(cfg, core.disk, a);
    }
  }

  lemma WriteKeepsOrLeaves(cfg: Config, disk: Disk, a: Attempt)
    requires !(a.record.id in disk && disk[a.record.id].LinkTo?)
    ensures var (after, r) := Attempted(cfg.media, disk, a);
            && (forall name: string :: name != a.record.id ==> SameAt(disk, after, name))
            && (r.Ok? ==>
                  a.record.id !in disk && a.record.id in after
                  && Exact(cfg.media, a.record, a.translated, after[a.record.id]))
            && (SameAt(disk, after, a.record.id)
                || (a.record.id !in disk && a.record.id in after && Whole(cfg.media, a, after[a.record.id])))
  {
    CrashSafe(cfg.media, disk, a);
  }

  lemma PersistEvolves(cfg: Config, core: Core, id: JobId, result: EngineResult, w: Wrap)
    requires core.store.Coherent() && id in core.store.records && core.store.records[id].status.Running?
    ensures var after := core.PersistAndSucceed(cfg, id, result, w).0;
            && Evolved(core.store, after.store)
            && forall x <- core.store.records :: x != id ==>
                 x in after.store.records && after.store.records[x] == core.store.records[x]
  {
    var record := core.store.records[id];
    var succeeded := ToSucceeded(record, result, w.wall).value;
    var body := BuildBody(RequestOf(cfg, record.submission));
    var (disk', written) :=
      if cfg.persist then Written(cfg.media, core.disk, succeeded, body, w.t, w.fault) else (core.disk, Ok(""));
    var stored := core.(disk := disk');
    if written.Err? {
      var message := WriteFailedMessage(written.error);
      MoveEvolves(stored, id, r => ToFailed(r, message, w.wallFail), Failed, Failure(message));
    } else {
      MoveEvolves(stored, id, r => ToSucceeded(r, result, w.wall), Succeeded, NoData);
    }
  }

  lemma KeptFrame(cfg: Config, start: Disk, a: Disk, b: Disk, id: JobId, record: Record)
    requires Kept(cfg, start, a, id, record) && SameAt(a, b, id)
    ensures Kept(cfg, start, b, id, record)
  {
  }

  /** One job's record and directory changed together; everybody else's stayed. */
  lemma OneJobKeeps(cfg: Config, start: Disk, s: State, s': State, id: JobId)
    requires DiskInv(cfg, start, s) && id in s.core.store.records
    requires s'.core.store.records.Keys == s.core.store.records.Keys
    requires forall x <- s.core.store.records :: x != id ==> s'.core.store.records[x] == s.core.store.records[x]
    requires forall name: string :: name != id ==> SameAt(s.core.disk, s'.core.disk, name)
    requires !cfg.persist ==> s'.core.disk == s.core.disk
    requires Kept(cfg, start, s'.core.disk, id, s'.core.store.records[id])
    ensures DiskInv(cfg, start, s')
  {
    forall x | x in s'.core.store.records && x != id
      ensures Kept(cfg, start, s'.core.disk, x, s'.core.store.records[x])
    {
      KeptFrame(cfg, start, s.core.disk, s'.core.disk, x, s.core.store.records[x]);
    }
    forall name: string | name !in s'.core.store.records
      ensures SameAt(start, s'.core.disk, name)
    {
      assert SameAt(start, s.core.disk, name) && SameAt(s.core.disk, s'.core.disk, name);
    }
  }

  lemma ResumeKeeps(cfg: Config, start: Disk, s: State, w: Wrap)
    requires DiskInv(cfg, start, s) && JobInv(s) && s.Enabled(cfg, Resume(w)) && JobInv(s.Resumed(cfg, w))
    ensures DiskInv(cfg, start, s.Resumed(cfg, w)) && Evolved(s.core.store, s.Resumed(cfg, w).core.store)
  {
    var id := s.worker.id;
    assert id in LedgerOf(s).hand;
    var outcome := s.core.task.value.outcome;
    var released := s.core.(gate := s.core.gate.Release(s.now));
    var resolved := released.Resolve(cfg, id, outcome, w).0;
    var s' := s.Resumed(cfg, w);
    assert s'.core == resolved.(current := None, task := None);
    if id in s.core.cancelled {
      EnsureCancelledEvolves(released, id, w.wall);
      QuietKeeps(cfg, start, s, s');
    } else if outcome.Errored? {
      FailEvolves(released, id, outcome.message, w.wall);
      QuietKeeps(cfg, start, s, s');
    } else {
      assert Kept(cfg, start, s.core.disk, id, s.core.store.records[id]);
      PersistEvolves(cfg, released, id, outcome.result, w);
      PersistWrites(cfg, start, released, id, outcome.result, w);
      OneJobKeeps(cfg, start, s, s', id);
    }
  }

  /** Every step keeps the disk in step with the records, and moves records only forward. */
  lemma StepKeeps(cfg: Config, start: Disk, s: State, step: Step)
    requires DiskInv(cfg, start, s) && JobInv(s) && s.Enabled(cfg, step)
    ensures DiskInv(cfg, start, s.Perform(cfg, step)) && Evolved(s.core.store, s.Perform(cfg, step).core.store)
  {
    J.StepKeeps(cfg, s, step);
    if step.Submit? {
      SubmitKeeps(cfg, start, s, step.sub, step.wall, step.id);
    } else if step.Resume? {
      ResumeKeeps(cfg, start, s, step.wrap);
    } else {
      QuietStep(cfg, s, step);
      QuietKeeps(cfg, start, s, s.Perform(cfg, step));
    }
  }
}
