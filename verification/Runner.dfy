/**
 The single-slot job runner (api/jobs/runner.py).

 Core is everything a stretch of runner code can touch: the store, the runner's own fields, the readiness
 fields and the artifacts root. Its functions say what each stretch between two awaits does; the methods of
 class JobRunner are those stretches, statement by statement, on the real objects.
 */
module Runner {
  import opened Prelude
  import opened Jobs
  import opened Lifecycle
  import opened Artifacts

  /** persist is whether an artifacts root is configured. */
  datatype Config = Config(settings: Settings, model: string, persist: bool, media: Media)

  /** How the engine's child task ended. Aborted is CancelledError. */
  datatype Outcome = Finished(result: EngineResult) | Errored(message: string) | Aborted

  datatype Task = InFlight(cancelRequested: bool) | Done(outcome: Outcome)

  /** How a stretch of _process ends. Escaped is an exception leaving _process. */
  datatype Progress = Processed | Generating | Escaped(error: StoreError)

  /** The instants read from the clock, the directory time stamp and the write fault of one conclusion. */
  datatype Wrap = Wrap(wall: string, wallFail: string, t: real, fault: Fault)

  function NotReadyMessage(state: ReadinessState, cause: string): string {
    "engine not ready: " + Name(state) + (if cause != "" then " (" + cause + ")" else "")
  }

  function WriteFailedMessage(error: string): string {
    "artifact write failed: " + error
  }

  function RequestOf(cfg: Config, sub: Submission): EngineRequest {
    EngineRequest(cfg.model, sub.input, sub.instructions, sub.seed, sub.maxNewTokens)
  }

  datatype Core = Core(
    store: Store, queue: seq<JobId>, cancelled: set<JobId>, current: Option<JobId>, task: Option<Task>,
    gate: Gate, disk: Disk)
  {
    /** update then append_event: both, or neither and the error. */
    function Move(id: JobId, fn: Record -> Result<Record, StoreError>, kind: Status,
                  data: Payload): (Core, Option<StoreError>) {
      var (moved, r) := store.Update(id, fn);
      match r
      case Ok(_) => (this.(store := moved.Append(id, kind, data)), None)
      case Err(e) => (this, Some(e))
    }

    function Submit(sub: Submission, wall: string, id: JobId): Core {
      this.(store := store.Create(sub, wall, id).Append(id, Queued, NoData), queue := queue + [id])
    }

    /** cancel(): 404, 409, or the record moves and a running job's engine call is told to stop. */
    function Cancel(id: JobId, wall: string): (Core, Result<Record, StoreError>) {
      if id !in store.records then (this, Err(NotFound))
      else
        var record := store.records[id];
        if record.status.Terminal() then (this, Err(Illegal(record.status, Cancelled)))
        else
          var hit := record.status.Running? && current == Some(id) && task.Some? && task.value.InFlight?;
          var marked := this.(cancelled := cancelled + {id},
                              task := if hit then Some(InFlight(true)) else task);
          var moved := marked.Move(id, r => ToCancelled(r, wall), Cancelled, NoData).0;
          (moved, moved.store.Find(id))
    }

    function EnsureCancelled(id: JobId, wall: string): Core {
      if id in store.records && !store.records[id].status.Terminal()
      then Move(id, r => ToCancelled(r, wall), Cancelled, NoData).0
      else this
    }

    function Fail(id: JobId, message: string, wall: string): (Core, Progress) {
      var (moved, e) := Move(id, r => ToFailed(r, message, wall), Failed, Failure(message));
      (moved, if e.None? then Processed else Escaped(e.value))
    }

    /** From ensure_ready's return to the engine call: no await in between. */
    function Admit(id: JobId, state: ReadinessState, wall: string): (Core, Progress) {
      if id in cancelled then (EnsureCancelled(id, wall), Processed)
      else if !state.Ready? then Fail(id, NotReadyMessage(state, gate.lastCause), wall)
      else
        var (moved, e) := Move(id, r => ToRunning(r, wall), Running, NoData);
        if e.Some? then (moved, Escaped(e.value))
        else (moved.(current := Some(id), task := Some(InFlight(false)), gate := gate.Lease()), Generating)
    }

    function PersistAndSucceed(cfg: Config, id: JobId, result: EngineResult, w: Wrap): (Core, Progress) {
      if id !in store.records then (this, Escaped(NotFound))
      else
        var succeeded := ToSucceeded(store.records[id], result, w.wall);
        if cfg.persist && succeeded.Err? then (this, Escaped(succeeded.error))
        else
          var request := RequestOf(cfg, store.records[id].submission);
          var (disk', written) :=
            if cfg.persist then Written(cfg.media, disk, succeeded.value, BuildBody(request), w.t, w.fault)
            else (disk, Ok(""));
          var stored := this.(disk := disk');
          if written.Err? then stored.Fail(id, WriteFailedMessage(written.error), w.wallFail)
          else
            var (moved, e) := stored.Move(id, r => ToSucceeded(r, result, w.wall), Succeeded, NoData);
            (moved, if e.None? then Processed else Escaped(e.value))
    }

    /**
     From queue.get() to the first suspension: a job cancelled while queued is passed over; otherwise
     ensure_ready is entered, and its fast path leads straight into the engine call. None means suspended.
     */
    function Take(cfg: Config, now: real, wall: string): (Core, Option<Progress>)
      requires queue != []
    {
      var id := queue[0];
      var popped := this.(queue := queue[1..]);
      if id in cancelled then (popped.EnsureCancelled(id, wall), Some(Processed))
      else
        var entered := popped.(gate := gate.Enter(cfg.settings, now));
        match gate.Fresh(cfg.settings, now)
        case Some(state) => (var (c, p) := entered.Admit(id, state, wall); (c, Some(p)))
        case None => (entered, None)
    }

    /** The except and else branches of _process; cancel() wins every race with the engine. */
    function Resolve(cfg: Config, id: JobId, outcome: Outcome, w: Wrap): (Core, Progress) {
      if id in cancelled then (EnsureCancelled(id, w.wall), Processed)
      else match outcome
        case Errored(message) => Fail(id, message, w.wall)
        case Finished(result) => PersistAndSucceed(cfg, id, result, w)
        case Aborted => (this, Escaped(NotFound))
    }

    /** From the engine call's end to the end of _process: lease released, branch taken, finally clause run. */
    function Conclude(cfg: Config, id: JobId, outcome: Outcome, now: real, w: Wrap): (Core, Progress) {
      var (ended, progress) := this.(gate := gate.Release(now)).Resolve(cfg, id, outcome, w);
      (ended.(current := None, task := None), progress)
    }
  }

  class JobRunner {
    const cfg: Config
    const store: JobStore
    const readiness: Readiness
    const fs: FileSystem
    var queue: seq<JobId>
    var cancelled: set<JobId>
    var current: Option<JobId>
    var currentTask: Option<Task>

    ghost predicate Valid()
      reads this, store
    {
      store.Valid() && readiness.cfg == cfg.settings
    }

    ghost function View(): Core
      reads this, store, readiness, fs
    {
      Core(store.View(), queue, cancelled, current, currentTask, readiness.View(), fs.disk)
    }

    constructor (cfg: Config, store: JobStore, readiness: Readiness, fs: FileSystem)
      requires store.Valid() && readiness.cfg == cfg.settings
      ensures Valid()
      ensures View() == Core(store.View(), [], {}, None, None, readiness.View(), fs.disk)
      ensures this.cfg == cfg && this.store == store && this.readiness == readiness && this.fs == fs
    {
      this.cfg, this.store, this.readiness, this.fs := cfg, store, readiness, fs;
      queue, cancelled, current, currentTask := [], {}, None, None;
    }

    method Submit(sub: Submission, wall: string, id: JobId) returns (record: Record)
      requires Valid()
      modifies this, store
      ensures Valid() && View() == old(View()).Submit(sub, wall, id)
      ensures record == NewRecord(id, sub, wall)
    {
      record := store.Create(sub, wall, id);
      var _ := store.AppendEvent(record.id, Queued, NoData);
      queue := queue + [record.id];
    }

    method Cancel(id: JobId, wall: string) returns (r: Result<Record, StoreError>)
      requires Valid()
      modifies this, store
      ensures Valid() && (View(), r) == old(View()).Cancel(id, wall)
    {
      var found := store.Get(id);
      if found.Err? {
        return found;
      }
      var record := found.value;
      if record.status.Terminal() {
        return Err(Illegal(record.status, Cancelled));
      }
      cancelled := cancelled + {id};
      if record.status.Running? && current == Some(id) && currentTask.Some? && currentTask.value.InFlight? {
        currentTask := Some(InFlight(true));
      }
      var _ := Move(id, r => ToCancelled(r, wall), Cancelled, NoData);
      r := store.Get(id);
    }

    method EnsureCancelled(id: JobId, wall: string)
      requires Valid() && id in store.View().records
      modifies store
      ensures Valid() && View() == old(View()).EnsureCancelled(id, wall)
    {
      var found := store.Get(id);
      if !found.value.status.Terminal() {
        var _ := store.Update(id, r => ToCancelled(r, wall));
        var _ := store.AppendEvent(id, Cancelled, NoData);
      }
    }

    /** update, then the event only if the update did not raise. */
    method Move(id: JobId, fn: Record -> Result<Record, StoreError>, kind: Status, data: Payload)
      returns (e: Option<StoreError>)
      requires Valid()
      modifies store
      ensures Valid() && (View(), e) == old(View()).Move(id, fn, kind, data)
    {
      var r := store.Update(id, fn);
      if r.Err? {
        return Some(r.error);
      }
      var _ := store.AppendEvent(id, kind, data);
      e := None;
    }

    method Fail(id: JobId, message: string, wall: string) returns (progress: Progress)
      requires Valid()
      modifies store
      ensures Valid() && (View(), progress) == old(View()).Fail(id, message, wall)
    {
      var e := Move(id, r => ToFailed(r, message, wall), Failed, Failure(message));
      progress := if e.None? then Processed else Escaped(e.value);
    }

    method Admit(id: JobId, state: ReadinessState, wall: string) returns (progress: Progress)
      requires Valid() && id in store.View().records
      modifies this, store, readiness
      ensures Valid() && (View(), progress) == old(View()).Admit(id, state, wall)
    {
      if id in cancelled {
        EnsureCancelled(id, wall);
        return Processed;
      }
      if !state.Ready? {
        progress := Fail(id, NotReadyMessage(state, readiness.lastCause), wall);
        return;
      }
      var e := Move(id, r => ToRunning(r, wall), Running, NoData);
      if e.Some? {
        return Escaped(e.value);
      }
      current := Some(id);
      currentTask := Some(InFlight(false));
      readiness.EnterLease();
      progress := Generating;
    }

    method Take(now: real, wall: string) returns (id: JobId, progress: Option<Progress>)
      requires Valid() && queue != [] && queue[0] in store.View().records
      modifies this, store, readiness
      ensures Valid() && id == old(queue[0]) && (View(), progress) == old(View()).Take(cfg, now, wall)
    {
      id, queue := queue[0], queue[1..];
      if id in cancelled {
        EnsureCancelled(id, wall);
        return id, Some(Processed);
      }
      ghost var popped := View();
      var hit := readiness.EnsureReady(now);
      assert View() == popped.(gate := popped.gate.Enter(cfg.settings, now));
      if hit.None? {
        return id, None;
      }
      var p := Admit(id, hit.value, wall);
      progress := Some(p);
    }

    method PersistAndSucceed(id: JobId, result: EngineResult, w: Wrap) returns (progress: Progress)
      requires Valid() && id in store.View().records
      modifies store, fs`disk
      ensures Valid() && (View(), progress) == old(View()).PersistAndSucceed(cfg, id, result, w)
    {
      if cfg.persist {
        var found := store.Get(id);
        var succeeded := ToSucceeded(found.value, result, w.wall);
        if succeeded.Err? {
          return Escaped(succeeded.error);
        }
        var translated := BuildBody(RequestOf(cfg, found.value.submission));
        var written := fs.WriteArtifact(cfg.media, succeeded.value, translated, w.t, w.fault);
        if written.Err? {
          progress := Fail(id, WriteFailedMessage(written.error), w.wallFail);
          return;
        }
      }
      var e := Move(id, r => ToSucceeded(r, result, w.wall), Succeeded, NoData);
      progress := if e.None? then Processed else Escaped(e.value);
    }

    method Resolve(id: JobId, outcome: Outcome, w: Wrap) returns (progress: Progress)
      requires Valid() && id in store.View().records
      requires outcome.Aborted? ==> id in cancelled  // nothing but cancel() aborts the call
      modifies store, fs`disk
      ensures Valid() && (View(), progress) == old(View()).Resolve(cfg, id, outcome, w)
    {
      match outcome
      case Aborted =>
        EnsureCancelled(id, w.wall);
        progress := Processed;
      case Errored(message) =>
        if id in cancelled {
          EnsureCancelled(id, w.wall);
          progress := Processed;
        } else {
          progress := Fail(id, message, w.wall);
        }
      case Finished(result) =>
        if id in cancelled {
          EnsureCancelled(id, w.wall);
          progress := Processed;
        } else {
          progress := PersistAndSucceed(id, result, w);
        }
    }

    method Conclude(id: JobId, outcome: Outcome, now: real, w: Wrap) returns (progress: Progress)
      requires Valid() && id in store.View().records
      requires outcome.Aborted? ==> id in cancelled
      modifies this, store, readiness, fs`disk
      ensures Valid() && (View(), progress) == old(View()).Conclude(cfg, id, outcome, now, w)
    {
      readiness.ExitLease(now);
      assert View() == old(View()).(gate := old(View()).gate.Release(now));
      progress := Resolve(id, outcome, w);
      current := None;
      currentTask := None;
    }
  }
}
