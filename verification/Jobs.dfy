/** Job records, their pure transitions and the in-memory store (api/jobs/store.py, api/jobs/events.py). */
module Jobs {
  import opened Prelude

  type JobId = string

  datatype Status = Queued | Running | Succeeded | Failed | Cancelled {
    predicate Terminal() {
      Succeeded? || Failed? || Cancelled?
    }
  }

  datatype Submission = Submission(
    input: string, instructions: string, seed: int, maxNewTokens: int, cloud: Option<Json>)

  datatype EngineRequest = EngineRequest(
    model: string, input: string, instructions: string, seed: int, maxNewTokens: int)

  datatype EngineResult = EngineResult(
    audio: seq<byte>, contentType: string, engine: string, model: string, generationSeconds: real)

  datatype Record = Record(
    id: JobId,
    submission: Submission,
    status: Status,
    submittedAt: string,
    startedAt: Option<string>,
    endedAt: Option<string>,
    engine: Option<string>,
    model: Option<string>,
    audio: Option<seq<byte>>,
    contentType: Option<string>,
    generationSeconds: Option<real>,
    error: Option<string>)

  /** An event's payload: empty, or the failure message. */
  datatype Payload = NoData | Failure(message: string)

  datatype Event = Event(id: nat, kind: Status, data: Payload)

  datatype StoreError = NotFound | Illegal(from: Status, to: Status)

  function NewRecord(id: JobId, submission: Submission, now: string): Record {
    Record(id, submission, Queued, now, None, None, None, None, None, None, None, None)
  }

  function ToRunning(job: Record, now: string): Result<Record, StoreError> {
    if !job.status.Queued? then Err(Illegal(job.status, Running))
    else Ok(job.(status := Running, startedAt := Some(now)))
  }

  function ToSucceeded(job: Record, result: EngineResult, now: string): Result<Record, StoreError> {
    if !job.status.Running? then Err(Illegal(job.status, Succeeded))
    else Ok(job.(
      status := Succeeded,
      endedAt := Some(now),
      engine := Some(result.engine),
      model := Some(result.model),
      audio := Some(result.audio),
      contentType := Some(result.contentType),
      generationSeconds := Some(result.generationSeconds)))
  }

  function ToFailed(job: Record, error: string, now: string): Result<Record, StoreError> {
    if job.status.Terminal() then Err(Illegal(job.status, Failed))
    else Ok(job.(status := Failed, endedAt := Some(now), error := Some(error)))
  }

  function ToCancelled(job: Record, now: string): Result<Record, StoreError> {
    if job.status.Terminal() then Err(Illegal(job.status, Cancelled))
    else Ok(job.(status := Cancelled, endedAt := Some(now)))
  }

  /** The store as a value: the records, and for each job every event ever appended. */
  datatype Store = Store(records: map<JobId, Record>, logs: map<JobId, seq<Event>>) {

    ghost predicate Coherent() {
      && logs.Keys == records.Keys
      && forall id <- records :: records[id].id == id
    }

    function Create(submission: Submission, now: string, id: JobId): Store {
      Store(records[id := NewRecord(id, submission, now)], logs[id := []])
    }

    function Find(id: JobId): Result<Record, StoreError> {
      if id in records then Ok(records[id]) else Err(NotFound)
    }

    function Update(id: JobId, fn: Record -> Result<Record, StoreError>): (Store, Result<Record, StoreError>) {
      if id !in records then (this, Err(NotFound))
      else match fn(records[id])
        case Ok(updated) => (this.(records := records[id := updated]), Ok(updated))
        case Err(e) => (this, Err(e))
    }

    function Append(id: JobId, kind: Status, data: Payload): Store {
      if id !in logs then this
      else this.(logs := logs[id := logs[id] + [Event(|logs[id]| + 1, kind, data)]])
    }
  }

  /** Each deque holds the last events of its job's history. */
  ghost predicate Retained(limit: nat, events: map<JobId, seq<Event>>, history: map<JobId, seq<Event>>) {
    events.Keys == history.Keys && forall id <- history :: events[id] == Suffix(history[id], limit)
  }

  lemma AppendRetains(limit: nat, events: map<JobId, seq<Event>>, history: map<JobId, seq<Event>>, id: JobId,
                      event: Event)
    requires limit >= 1 && Retained(limit, events, history) && id in history
    ensures Retained(limit, events[id := Push(events[id], event, limit)], history[id := history[id] + [event]])
  {
    PushKeepsSuffix(history[id], event, limit);
  }

  /** JobStore: records, a bounded event log per job, and a per-job sequence number. */
  class JobStore {
    const eventLogLimit: nat
    var jobs: map<JobId, Record>
    var events: map<JobId, seq<Event>>
    var sequence: map<JobId, nat>
    /** Every event ever appended; the deque keeps only its last eventLogLimit elements. */
    ghost var history: map<JobId, seq<Event>>

    ghost predicate Valid()
      reads this
    {
      && eventLogLimit >= 1
      && jobs.Keys == events.Keys == sequence.Keys == history.Keys
      && Retained(eventLogLimit, events, history)
      && (forall id <- history :: sequence[id] == |history[id]|)
    }

    ghost function View(): Store
      reads this
    {
      Store(jobs, history)
    }

    constructor (limit: nat)
      requires limit >= 1
      ensures Valid() && View() == Store(map[], map[]) && eventLogLimit == limit
    {
      eventLogLimit := limit;
      jobs, events, sequence, history := map[], map[], map[], map[];
    }

    method Create(submission: Submission, now: string, id: JobId) returns (record: Record)
      requires Valid()
      modifies this
      ensures Valid()
      ensures View() == old(View()).Create(submission, now, id)
      ensures record == NewRecord(id, submission, now)
    {
      record := NewRecord(id, submission, now);
      jobs := jobs[id := record];
      events := events[id := []];
      sequence := sequence[id := 0];
      history := history[id := []];
    }

    method Get(id: JobId) returns (r: Result<Record, StoreError>)
      ensures r == View().Find(id)
    {
      if id in jobs {
        r := Ok(jobs[id]);
      } else {
        r := Err(NotFound);
      }
    }

    /** One atomic read, transition and store; the record is left alone when the transition is illegal. */
    method Update(id: JobId, fn: Record -> Result<Record, StoreError>) returns (r: Result<Record, StoreError>)
      requires Valid()
      modifies this
      ensures Valid()
      ensures (View(), r) == old(View()).Update(id, fn)
    {
      var found := Get(id);
      match found
      case Err(e) =>
        r := found;
      case Ok(record) =>
        r := fn(record);
        if r.Ok? {
          jobs := jobs[id := r.value];
        }
    }

    /** Appends with the next per-job id; a full deque drops its oldest event. */
    method AppendEvent(id: JobId, kind: Status, data: Payload) returns (r: Result<Event, StoreError>)
      requires Valid()
      modifies this
      ensures Valid()
      ensures View() == old(View()).Append(id, kind, data)
      ensures id in old(jobs) ==> r == Ok(View().logs[id][|View().logs[id]| - 1])
      ensures id !in old(jobs) ==> r == Err(NotFound)
    {
      if id !in events {
        return Err(NotFound);
      }
      sequence := sequence[id := sequence[id] + 1];
      var event := Event(sequence[id], kind, data);
      AppendRetains(eventLogLimit, events, history, id, event);
      events := events[id := Push(events[id], event, eventLogLimit)];
      history := history[id := history[id] + [event]];
      r := Ok(event);
    }

    method Log(id: JobId) returns (r: Result<seq<Event>, StoreError>)
      requires Valid()
      ensures r == if id in View().logs then Ok(Suffix(View().logs[id], eventLogLimit)) else Err(NotFound)
    {
      if id !in events {
        return Err(NotFound);
      }
      r := Ok(events[id]);
    }
  }

  /** JobStore(event_log_limit): a limit below one is rejected rather than losing terminal events. */
  method OpenStore(limit: int) returns (store: JobStore?)
    ensures store == null <==> limit < 1
    ensures store != null ==> fresh(store) && store.Valid() && store.View() == Store(map[], map[])
                              && store.eventLogLimit == limit
  {
    if limit < 1 {
      return null;
    }
    store := new JobStore(limit);
  }
}
