/** The cloud edge over a whole run: from an accepted body to the two deliveries of its song. */
module Parity {
  import opened Prelude
  import opened Jobs
  import opened Artifacts
  import opened Runner
  import opened Machine
  import Cloud
  import opened Delivery
  import DiskInvariant
  import Theorems

  /** A submission is kept as it was from the step that took it in. */
  lemma SubmissionKept(cfg: Config, s: State, steps: seq<Step>, k: nat, sub: Submission, wall: string, id: JobId)
    requires Init(cfg, s) && cfg.settings.Valid() && Allowed(cfg, s, steps)
    requires k < |steps| && steps[k] == Submit(sub, wall, id)
    ensures var records := Run(cfg, s, steps).core.store.records; id in records && records[id].submission == sub
  {
    Theorems.RunsEvolve(cfg, s, steps, k + 1);
    Theorems.StepAt(cfg, s, steps, k);
    var before, now := Run(cfg, s, steps[..k + 1]).core.store, Run(cfg, s, steps).core.store;
    assert DiskInvariant.Forward(before.records[id], now.records[id]);
  }

  /**
   In every run, whatever else happens in it: once the job of an accepted body has succeeded, both routes deliver
   its artifact alike, at any later moment.
   */
  lemma BothDeliveriesOfARun(cfg: Config, s: State, steps: seq<Step>, k: nat, wall: string, id: JobId,
                             tools: Tools, body: Json, ceiling: int, local: Cloud.LocalRequest)
    requires Init(cfg, s) && cfg.settings.Valid() && cfg.persist && Allowed(cfg, s, steps) && ValidJobId(id)
    requires Cloud.Translate(body, ceiling) == Ok(local)
    requires k < |steps| && steps[k] == Submit(SubmissionOf(local), wall, id)
    requires var records := Run(cfg, s, steps).core.store.records; id in records && records[id].status.Succeeded?
    requires forall sidecar :: tools.loads(cfg.media.dumps(sidecar)) == Some(sidecar)
    ensures var m := Run(cfg, s, steps).core;
            m.store.records[id].audio.Some? && Agreement(tools, m.disk, m.store.records[id], local)
  {
    SubmissionKept(cfg, s, steps, k, SubmissionOf(local), wall, id);
    Theorems.Always(cfg, s, steps);
    StoredDeliveries(cfg, s, Run(cfg, s, steps), id, tools, body, ceiling, local);
  }

  /**
   In every run, the sidecar of a succeeded job tells that the engine was asked to sing the body's lyrics to its
   prompt, with its seed and length, or the defaults.
   */
  lemma WhatWasSung(cfg: Config, s: State, steps: seq<Step>, k: nat, wall: string, id: JobId,
                    body: Cloud.Members, ceiling: int, local: Cloud.LocalRequest)
    requires Init(cfg, s) && cfg.settings.Valid() && cfg.persist && Allowed(cfg, s, steps)
    requires Cloud.Translate(Obj(body), ceiling) == Ok(local)
    requires k < |steps| && steps[k] == Submit(SubmissionOf(local), wall, id)
    requires var records := Run(cfg, s, steps).core.store.records; id in records && records[id].status.Succeeded?
    ensures var disk := Run(cfg, s, steps).core.disk;
            && id in disk && disk[id].Directory? && SIDECAR in disk[id].members
            && exists sidecar ::
                 && disk[id].members[SIDECAR] == Regular(cfg.media.dumps(sidecar))
                 && AsksFor(sidecar.request.translated.request, body)
  {
    SubmissionKept(cfg, s, steps, k, SubmissionOf(local), wall, id);
    SubmittedSays(body, ceiling);
    Theorems.SidecarTells(cfg, s, steps, id);
    var core := Run(cfg, s, steps).core;
    var sidecar :| Theorems.Tells(cfg, core.store.records[id], sidecar)
                   && core.disk[id].members == map[AUDIO := Regular(core.store.records[id].audio.value),
                                                   SIDECAR := Regular(cfg.media.dumps(sidecar))];
    assert AsksFor(sidecar.request.translated.request, body);
  }

  /** The engine's request has what the body says, or the defaults. */
  predicate AsksFor(request: EngineRequest, body: Cloud.Members) {
    && "lyrics" in body && body["lyrics"] == Str(request.input)
    && "prompt" in body && body["prompt"] == Str(request.instructions)
    && (if "seed" in body then body["seed"] == Int(request.seed) else request.seed == 0)
    && (if "max_new_tokens" in body then body["max_new_tokens"] == Int(request.maxNewTokens)
        else request.maxNewTokens == 9000)
  }

  lemma StoredDeliveries(cfg: Config, s: State, m: State, id: JobId, tools: Tools, body: Json, ceiling: int,
                         local: Cloud.LocalRequest)
    requires Theorems.Inv(cfg, s.core.disk, m) && cfg.persist && ValidJobId(id)
             && Cloud.Translate(body, ceiling) == Ok(local)
    requires id in m.core.store.records && m.core.store.records[id].status.Succeeded?
    requires m.core.store.records[id].submission == SubmissionOf(local)
    requires forall sidecar :: tools.loads(cfg.media.dumps(sidecar)) == Some(sidecar)
    ensures m.core.store.records[id].audio.Some? && Agreement(tools, m.core.disk, m.core.store.records[id], local)
  {
    var record := m.core.store.records[id];
    assert DiskInvariant.Kept(cfg, s.core.disk, m.core.disk, id, record);
    assert record.id == id;
    DeliveriesAgree(tools, cfg.media, m.core.disk, record, DiskInvariant.BodyOf(cfg, record), body, ceiling, local);
  }
}
