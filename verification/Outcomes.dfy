/** What the end of an engine call does to its job, and where the contents of a succeeded record come from. */
module Outcomes {
  import opened Prelude
  import opened Jobs
  import opened Lifecycle
  import opened Artifacts
  import opened ArtifactSafety
  import opened Runner
  import opened Machine
  import opened J = JobInvariant
  import opened G = GateInvariant
  import opened Table
  import D = DiskInvariant
  import Theorems

  /** The record has succeeded with the result of its engine call. */
  predicate Carries(record: Record, result: EngineResult) {
    && record.status.Succeeded?
    && record.audio == Some(result.audio) && record.contentType == Some(result.contentType)
    && record.engine == Some(result.engine) && record.model == Some(result.model)
    && record.generationSeconds == Some(result.generationSeconds)
  }

  function Succeeding(record: Record, result: EngineResult, wall: string): Record {
    record.(status := Succeeded, endedAt := Some(wall), engine := Some(result.engine), model := Some(result.model),
            audio := Some(result.audio), contentType := Some(result.contentType),
            generationSeconds := Some(result.generationSeconds))
  }

  /** Failed with the message at the time, and nothing else changed. */
  predicate Fails(a: Store, b: Store, id: JobId, message: string, wall: string) {
    && id in a.records
    && Moved(a, b, id, a.records[id].(status := Failed, endedAt := Some(wall), error := Some(message)),
             Failed, Failure(message))
  }

  /** The result can be kept: nothing is to be written, or nothing stands in the way. */
  predicate Keepable(cfg: Config, disk: Disk, id: JobId, audio: seq<byte>, w: Wrap) {
    cfg.persist ==> Writable(cfg.media, disk, id, audio, w.fault)
  }

  lemma SucceedMoves(core: Core, id: JobId, result: EngineResult, w: Wrap)
    requires Lives(core.store) && id in core.store.records && core.store.records[id].status.Running?
    ensures var (after, e) := core.Move(id, r => ToSucceeded(r, result, w.wall), Succeeded, NoData);
            && e.None? && after == core.(store := after.store)
            && Moved(core.store, after.store, id, Succeeding(core.store.records[id], result, w.wall), Succeeded, NoData)
  {
  }

  lemma PersistTells(cfg: Config, core: Core, id: JobId, result: EngineResult, w: Wrap)
    requires Lives(core.store) && id in core.store.records && core.store.records[id].status.Running?
    ensures var (after, p) := core.PersistAndSucceed(cfg, id, result, w);
            && p.Processed? && after == core.(store := after.store, disk := after.disk)
            && (!cfg.persist ==> after.disk == core.disk)
            && (if Keepable(cfg, core.disk, id, result.audio, w) then
                  Moved(core.store, after.store, id,
                        Succeeding(core.store.records[id], result, w.wall), Succeeded, NoData)
                else
                  exists why :: Fails(core.store, after.store, id, "artifact write failed: " + why, w.wallFail))
  {
    var record := Succeeding(core.store.records[id], result, w.wall);
    var request := RequestOf(cfg, core.store.records[id].submission);
    assert ToSucceeded(core.store.records[id], result, w.wall) == Ok(record);
    var (disk', written) :=
      if cfg.persist then Written(cfg.media, core.disk, record, BuildBody(request), w.t, w.fault)
      else (core.disk, Ok(""));
    WrittenExactly(cfg.media, core.disk, record, BuildBody(request), w.t, w.fault);
    assert record.id == id;
    var stored := core.(disk := disk');
    if written.Err? {
      FailMoves(stored, id, WriteFailedMessage(written.error), w.wallFail);
      assert Fails(core.store, stored.Fail(id, WriteFailedMessage(written.error), w.wallFail).0.store, id,
                   "artifact write failed: " + written.error, w.wallFail);
    } else {
      SucceedMoves(stored, id, result, w);
    }
  }

  lemma BusyJob(s: State)
    requires JobInv(s) && s.worker.Busy?
    ensures var id := s.worker.id;
            && id in s.core.store.records && id in s.core.store.logs && s.core.current == Some(id)
            && (if id in s.core.cancelled then s.core.store.records[id].status.Cancelled?
                else s.core.store.records[id].status.Running?)
  {
    assert s.worker.id in LedgerOf(s).hand;
  }

  /**
   The end of an engine call, seen by the worker: the slot and the lease are free. A cancelled job stays as it is; an
   engine error fails the job with its message; a result makes it succeed with that result, if it can be kept, and
   otherwise fails it as a failed write.
   */
  lemma ResumeTells(cfg: Config, s: State, w: Wrap)
    requires JobInv(s) && s.Enabled(cfg, Resume(w))
    ensures var s' := s.Perform(cfg, Resume(w)); var id := s.worker.id; var a, b := s.core.store, s'.core.store;
            && s'.worker.Parked? && s'.core.current.None? && s'.core.task.None? && s'.processed == s.processed + [id]
            && s'.core.gate == s.core.gate.(leases := s.core.gate.leases - 1, lastActivity := s.now)
            && s'.core.queue == s.core.queue && s'.core.cancelled == s.core.cancelled
            && (id in s.core.cancelled ==> b == a && s'.core.disk == s.core.disk)
            && (id !in s.core.cancelled ==>
                  match s.core.task.value.outcome
                  case Errored(message) => Fails(a, b, id, message, w.wall) && s'.core.disk == s.core.disk
                  case Finished(result) =>
                    && id in a.records
                    && (if Keepable(cfg, s.core.disk, id, result.audio, w)
                        then Moved(a, b, id, Succeeding(a.records[id], result, w.wall), Succeeded, NoData)
                        else exists why :: Fails(a, b, id, "artifact write failed: " + why, w.wallFail))
                  case Aborted => false)
  {
    BusyJob(s);
    var id := s.worker.id;
    var core := s.core.(gate := s.core.gate.Release(s.now));
    if id !in s.core.cancelled {
      match s.core.task.value.outcome
      case Errored(message) => FailMoves(core, id, message, w.wall);
      case Finished(result) => PersistTells(cfg, core, id, result, w);
    }
  }

  // ---- over runs ----

  /** The result of a finished call ends up in its job's record, if nobody cancelled it, exactly if it can be kept. */
  lemma FinishedSucceeds(cfg: Config, s: State, steps: seq<Step>, w: Wrap, result: EngineResult)
    requires Init(cfg, s) && cfg.settings.Valid() && Allowed(cfg, s, steps)
    requires var m := Run(cfg, s, steps);
             && m.Enabled(cfg, Resume(w)) && m.core.task == Some(Done(Finished(result)))
             && m.worker.id !in m.core.cancelled
    ensures var m := Run(cfg, s, steps); var end := m.Perform(cfg, Resume(w)); var id := m.worker.id;
            && id in end.core.store.records
            && (if Keepable(cfg, m.core.disk, id, result.audio, w)
                then Carries(end.core.store.records[id], result) && end.core.store.records[id].endedAt == Some(w.wall)
                else
                  && end.core.store.records[id].status.Failed?
                  && end.core.store.records[id].endedAt == Some(w.wallFail))
  {
    Theorems.Always(cfg, s, steps);
    ResumeTells(cfg, Run(cfg, s, steps), w);
  }

  /** An engine error fails its job with its message, if nobody cancelled it. */
  lemma ErroredFails(cfg: Config, s: State, steps: seq<Step>, w: Wrap, message: string)
    requires Init(cfg, s) && cfg.settings.Valid() && Allowed(cfg, s, steps)
    requires var m := Run(cfg, s, steps);
             && m.Enabled(cfg, Resume(w)) && m.core.task == Some(Done(Errored(message)))
             && m.worker.id !in m.core.cancelled
    ensures var m := Run(cfg, s, steps); var end := m.Perform(cfg, Resume(w)); var id := m.worker.id;
            && id in end.core.store.records && end.core.store.records[id].status.Failed?
            && end.core.store.records[id].error == Some(message) && end.core.store.records[id].endedAt == Some(w.wall)
  {
    Theorems.Always(cfg, s, steps);
    ResumeTells(cfg, Run(cfg, s, steps), w);
  }

  /** The engine delivered this outcome at a step at which the job was the current one. */
  ghost predicate Delivered(cfg: Config, s: State, steps: seq<Step>, id: JobId, outcome: Outcome) {
    exists k: nat :: DeliveredAt(cfg, s, steps, k, id, outcome)
  }

  ghost predicate DeliveredAt(cfg: Config, s: State, steps: seq<Step>, k: nat, id: JobId, outcome: Outcome) {
    && k < |steps| && steps[k] == EngineSettles(outcome)
    && Allowed(cfg, s, steps[..k]) && Run(cfg, s, steps[..k]).core.current == Some(id)
  }

  lemma DeliveredStays(cfg: Config, s: State, steps: seq<Step>, step: Step, id: JobId, outcome: Outcome)
    requires Delivered(cfg, s, steps, id, outcome)
    ensures Delivered(cfg, s, steps + [step], id, outcome)
  {
    var k: nat :| DeliveredAt(cfg, s, steps, k, id, outcome);
    assert (steps + [step])[..k] == steps[..k];
    assert DeliveredAt(cfg, s, steps + [step], k, id, outcome);
  }

  /** The answer of a call is kept, with its job, until the worker resumes. */
  predicate KeepsAnswer(m: State, m': State) {
    m'.core.task.Some? && m'.core.task.value.Done? ==> m'.core.task == m.core.task && m'.core.current == m.core.current
  }

  lemma ReadinessKeepsAnswer(cfg: Config, m: State, step: Step)
    requires JobInv(m) && GateInv(cfg, m) && m.Enabled(cfg, step)
    requires step.ProbeReturns? || (step.StatusReturns? && m.At(step.who).Inspecting?)
    ensures KeepsAnswer(m, m.Perform(cfg, step))
  {
    if step.ProbeReturns? {
      ProbeTells(cfg, m, step.who, step.outcome, step.wall);
    } else {
      StatusTells(cfg, m, step.who, step.seen, step.wall);
    }
  }

  lemma LockKeepsAnswer(cfg: Config, m: State, step: Step)
    requires JobInv(m) && GateInv(cfg, m) && m.Enabled(cfg, step)
    requires step.StartReturns? || (step.Acquire? && !step.who.IdleLoop?)
    ensures KeepsAnswer(m, m.Perform(cfg, step))
  {
    if step.StartReturns? {
      StartTells(cfg, m, step.who, step.reply, step.took, step.wall);
    } else {
      AcquireTells(cfg, m, step.who, step.wall);
    }
  }

  lemma RunnerKeepsAnswer(cfg: Config, m: State, step: Step)
    requires JobInv(m) && GateInv(cfg, m) && m.Enabled(cfg, step)
    requires step.Submit? || step.Cancel? || step.Take? || step.CallerEnters? || step.Resume?
    ensures KeepsAnswer(m, m.Perform(cfg, step))
  {
    match step
    case Submit(sub, wall, id) => SubmitTells(cfg, m, sub, wall, id);
    case Cancel(id, wall) => CancelTells(cfg, m, id, wall);
    case Take(wall) => TakeTells(cfg, m, wall);
    case CallerEnters(n) => EnterTells(cfg, m, m, Caller(n), "");
    case Resume(w) => ResumeTells(cfg, m, w);
  }

  lemma AnswerStays(cfg: Config, m: State, step: Step)
    requires JobInv(m) && GateInv(cfg, m) && m.Enabled(cfg, step) && !step.EngineSettles?
    ensures KeepsAnswer(m, m.Perform(cfg, step))
  {
    if step.ProbeReturns? || (step.StatusReturns? && m.At(step.who).Inspecting?) {
      ReadinessKeepsAnswer(cfg, m, step);
    } else if step.StartReturns? || (step.Acquire? && !step.who.IdleLoop?) {
      LockKeepsAnswer(cfg, m, step);
    } else if step.Submit? || step.Cancel? || step.Take? || step.CallerEnters? || step.Resume? {
      RunnerKeepsAnswer(cfg, m, step);
    }
  }

  lemma {:induction false} AnswersAreDelivered(cfg: Config, s: State, steps: seq<Step>)
    requires Init(cfg, s) && cfg.settings.Valid() && Allowed(cfg, s, steps)
    ensures var core := Run(cfg, s, steps).core;
            core.task.Some? && core.task.value.Done? ==>
              core.current.Some? && Delivered(cfg, s, steps, core.current.value, core.task.value.outcome)
  {
    if steps != [] {
      var init, step := steps[..|steps| - 1], steps[|steps| - 1];
      var m := Run(cfg, s, init);
      assert steps == init + [step];
      AnswersAreDelivered(cfg, s, init);
      Theorems.Always(cfg, s, init);
      if step.EngineSettles? {
        assert m.core.current.Some?;
        assert DeliveredAt(cfg, s, steps, |init|, m.core.current.value, step.ended);
      } else {
        AnswerStays(cfg, m, step);
        var core := Run(cfg, s, steps).core;
        if core.task.Some? && core.task.value.Done? {
          DeliveredStays(cfg, s, init, step, core.current.value, core.task.value.outcome);
        }
      }
    }
  }

  /** A record that succeeds in a step does so because the worker resumes from its finished call. */
  lemma SucceedsByResume(cfg: Config, m: State, step: Step, id: JobId)
    requires JobInv(m) && GateInv(cfg, m) && m.Enabled(cfg, step)
    requires var records := m.Perform(cfg, step).core.store.records;
             && id in records && records[id].status.Succeeded?
             && !(id in m.core.store.records && records[id] == m.core.store.records[id])
    ensures m.core.current == Some(id) && m.core.task.Some? && m.core.task.value.Done?
    ensures var outcome := m.core.task.value.outcome;
            outcome.Finished? && Carries(m.Perform(cfg, step).core.store.records[id], outcome.result)
  {
    if step.Resume? {
      BusyJob(m);
      ResumeTells(cfg, m, step.wrap);
    } else if step.Submit? {
      SubmitTells(cfg, m, step.sub, step.wall, step.id);
    } else {
      D.QuietStep(cfg, m, step);
    }
  }

  /** Every succeeded record carries a result that the engine delivered for it. */
  lemma {:induction false} SucceededWasDelivered(cfg: Config, s: State, steps: seq<Step>, id: JobId)
    requires Init(cfg, s) && cfg.settings.Valid() && Allowed(cfg, s, steps)
    requires var records := Run(cfg, s, steps).core.store.records; id in records && records[id].status.Succeeded?
    ensures exists result ::
              && Delivered(cfg, s, steps, id, Finished(result))
              && Carries(Run(cfg, s, steps).core.store.records[id], result)
  {
    var init, step := steps[..|steps| - 1], steps[|steps| - 1];
    assert steps == init + [step];
    var m := Run(cfg, s, init);
    var record := Run(cfg, s, steps).core.store.records[id];
    Theorems.Always(cfg, s, init);
    if id in m.core.store.records && m.core.store.records[id] == record {
      SucceededWasDelivered(cfg, s, init, id);
      var result :| Delivered(cfg, s, init, id, Finished(result)) && Carries(record, result);
      DeliveredStays(cfg, s, init, step, id, Finished(result));
    } else {
      SucceedsByResume(cfg, m, step, id);
      AnswersAreDelivered(cfg, s, init);
      var result := m.core.task.value.outcome.result;
      DeliveredStays(cfg, s, init, step, id, Finished(result));
    }
  }

  // ---- a job that succeeds ----

  lemma Next(cfg: Config, s: State, steps: seq<Step>, step: Step)
    requires Init(cfg, s) && cfg.settings.Valid() && Allowed(cfg, s, steps) && Run(cfg, s, steps).Enabled(cfg, step)
    ensures Allowed(cfg, s, steps + [step])
    ensures Run(cfg, s, steps + [step]) == Run(cfg, s, steps).Perform(cfg, step)
    ensures JobInv(Run(cfg, s, steps + [step])) && GateInv(cfg, Run(cfg, s, steps + [step]))
  {
    Theorems.OneMoreStep(cfg, s, steps, step);
    Theorems.Always(cfg, s, steps + [step]);
  }

  /** The lock and the cache are as in a fresh process, and so is the disk. */
  predicate Untouched(s: State, m: State) {
    m.core.gate.owner.None? && m.core.gate.cached.None? && m.core.disk == s.core.disk && m.core.cancelled == {}
  }

  lemma Queues(cfg: Config, s: State, sub: Submission, id: JobId, wall: string) returns (steps: seq<Step>)
    requires Init(cfg, s) && cfg.settings.Valid() && s.Enabled(cfg, Submit(sub, wall, id))
    ensures Allowed(cfg, s, steps) && Untouched(s, Run(cfg, s, steps))
    ensures Run(cfg, s, steps).worker.Parked? && Run(cfg, s, steps).core.queue == [id]
  {
    Theorems.Always(cfg, s, []);
    steps := [] + [Submit(sub, wall, id)];
    Next(cfg, s, [], Submit(sub, wall, id));
    SubmitTells(cfg, s, sub, wall, id);
  }

  lemma Gates(cfg: Config, s: State, steps: seq<Step>, id: JobId, wall: string) returns (more: seq<Step>)
    requires Init(cfg, s) && cfg.settings.Valid() && Allowed(cfg, s, steps) && Untouched(s, Run(cfg, s, steps))
    requires Run(cfg, s, steps).worker.Parked? && Run(cfg, s, steps).core.queue == [id]
    ensures Allowed(cfg, s, more) && Untouched(s, Run(cfg, s, more))
    ensures Run(cfg, s, more).worker == Gating(id) && Run(cfg, s, more).At(Worker).Waiting?
  {
    Theorems.Always(cfg, s, steps);
    more := steps + [Take(wall)];
    Next(cfg, s, steps, Take(wall));
    TakeTells(cfg, Run(cfg, s, steps), wall);
  }

  lemma Probes(cfg: Config, s: State, steps: seq<Step>, id: JobId, wall: string) returns (more: seq<Step>)
    requires Init(cfg, s) && cfg.settings.Valid() && Allowed(cfg, s, steps) && Untouched(s, Run(cfg, s, steps))
    requires Run(cfg, s, steps).worker == Gating(id) && Run(cfg, s, steps).At(Worker).Waiting?
    ensures Allowed(cfg, s, more) && Run(cfg, s, more).core.disk == s.core.disk
            && Run(cfg, s, more).core.cancelled == {}
    ensures Run(cfg, s, more).worker == Gating(id) && Run(cfg, s, more).At(Worker).Probing?
  {
    Theorems.Always(cfg, s, steps);
    more := steps + [Acquire(Worker, wall)];
    Next(cfg, s, steps, Acquire(Worker, wall));
    AcquireTells(cfg, Run(cfg, s, steps), Worker, wall);
  }

  /** Submitted to a fresh process, taken and found ready: the engine call of the job is under way. */
  lemma Underway(cfg: Config, s: State, sub: Submission, id: JobId, wall: string) returns (steps: seq<Step>)
    requires Init(cfg, s) && cfg.settings.Valid() && s.Enabled(cfg, Submit(sub, wall, id))
    ensures Allowed(cfg, s, steps)
    ensures var m := Run(cfg, s, steps);
            && m.worker == Busy(id) && m.core.task == Some(InFlight(false)) && id !in m.core.cancelled
            && m.core.disk == s.core.disk
  {
    steps := Queues(cfg, s, sub, id, wall);
    steps := Gates(cfg, s, steps, id, wall);
    steps := Probes(cfg, s, steps, id, wall);
    Theorems.Always(cfg, s, steps);
    Next(cfg, s, steps, ProbeReturns(Worker, ModelsAvailable, wall));
    ProbeTells(cfg, Run(cfg, s, steps), Worker, ModelsAvailable, wall);
    steps := steps + [ProbeReturns(Worker, ModelsAvailable, wall)];
  }

  /** A job succeeds: from any fresh process there is a run in which a submitted job ends with the engine's result. */
  lemma AJobSucceeds(cfg: Config, s: State, sub: Submission, id: JobId, wall: string, result: EngineResult, w: Wrap)
    returns (steps: seq<Step>)
    requires Init(cfg, s) && cfg.settings.Valid() && s.Enabled(cfg, Submit(sub, wall, id))
    requires Keepable(cfg, s.core.disk, id, result.audio, w)
    ensures Allowed(cfg, s, steps)
    ensures var records := Run(cfg, s, steps).core.store.records; id in records && Carries(records[id], result)
  {
    steps := Underway(cfg, s, sub, id, wall);
    Next(cfg, s, steps, EngineSettles(Finished(result)));
    steps := steps + [EngineSettles(Finished(result))];
    FinishedSucceeds(cfg, s, steps, w, result);
    Next(cfg, s, steps, Resume(w));
    steps := steps + [Resume(w)];
  }
}
