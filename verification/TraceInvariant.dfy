/**
 What a bystander's notes look like in every run: the law of the conversation with the engine container.

 Lawful judges one note by the notes before it, without looking into any state.
 */
module TraceInvariant {
  import opened Prelude
  import opened Lifecycle
  import opened Runner
  import opened Machine
  import JobInvariant
  import opened G = GateInvariant

  predicate IsTalk(n: Note) {
    n.what.Asked? || n.what.Told?
  }

  /** The last thing asked or told. */
  function LastTalk(pre: seq<Note>): Option<What> {
    if pre == [] then None
    else if IsTalk(pre[|pre| - 1]) then Some(pre[|pre| - 1].what)
    else LastTalk(pre[..|pre| - 1])
  }

  predicate IsStop(n: Note) {
    n.what.Asked? && n.what.call.StopCall?
  }

  /** The k-th note is a successful probe, and no stop has been asked for since. */
  ghost predicate ReadySince(pre: seq<Note>, k: nat) {
    && k < |pre|
    && pre[k].what.Told? && pre[k].what.call.ProbeCall? && pre[k].what.news.Available?
    && forall j :: k < j < |pre| ==> !IsStop(pre[j])
  }

  ghost predicate ReadyAt(pre: seq<Note>, at: real) {
    exists k: nat :: ReadySince(pre, k) && pre[k].at == at
  }

  /**
   - Calls are answered before the next is made, by any actor: probe, status, start and stop exclude each other.
   - A start directly follows the same actor's reading of a stopped container.
   - A stop is the idle loop's, directly follows its reading of a running container, and comes at least one
     idle interval after every ensure_ready entry, READY completion and lease release before it.
   - READY from the cache rests on a successful probe less than cache_seconds old with no stop since, and
     leaves no failure cause behind.
   */
  ghost predicate Lawful(cfg: Settings, pre: seq<Note>, n: Note) {
    && (forall k :: 0 <= k < |pre| ==> pre[k].at <= n.at)
    && match n.what
       case Asked(who, call) =>
         && !(LastTalk(pre).Some? && LastTalk(pre).value.Asked?)
         && (call.StartCall? ==> LastTalk(pre) == Some(Told(who, StatusCall, Saw(ContainerStopped))))
         && (call.StopCall? ==>
               && who.IdleLoop?
               && LastTalk(pre) == Some(Told(who, StatusCall, Saw(ContainerRunning)))
               && forall k :: 0 <= k < |pre| && pre[k].what.Activity? ==> n.at - pre[k].at >= cfg.idleInterval)
       case Told(who, call, _) => LastTalk(pre) == Some(Asked(who, call))
       case FastReady(_, cause) =>
         && cause == ""
         && exists k: nat :: ReadySince(pre, k) && n.at - pre[k].at < cfg.cacheSeconds
       case Activity(_) => true
  }

  ghost predicate Legal(cfg: Settings, trace: seq<Note>) {
    trace == [] ||
    (Legal(cfg, trace[..|trace| - 1]) && Lawful(cfg, trace[..|trace| - 1], trace[|trace| - 1]))
  }

  lemma LegalAppend(cfg: Settings, trace: seq<Note>, n: Note)
    requires Legal(cfg, trace) && Lawful(cfg, trace, n)
    ensures Legal(cfg, trace + [n])
  {
    assert (trace + [n])[..|trace|] == trace;
  }

  /** Every single note is lawful by the notes before it. */
  lemma {:induction false} LegalMeans(cfg: Settings, trace: seq<Note>, k: nat)
    requires Legal(cfg, trace) && k < |trace|
    ensures Lawful(cfg, trace[..k], trace[k])
  {
    if k < |trace| - 1 {
      LegalMeans(cfg, trace[..|trace| - 1], k);
      assert trace[..|trace| - 1][..k] == trace[..k];
    }
  }

  /** The call whose answer the lock's holder awaits. */
  function Open(s: State): Option<What> {
    match s.core.gate.owner
    case None => None
    case Some(who) =>
      match CallOf(s.At(who))
      case None => None
      case Some(call) => Some(Asked(who, call))
  }

  /** The notes know what is being awaited. */
  ghost predicate Awaits(trace: seq<Note>, open: Option<What>) {
    if open.Some? then LastTalk(trace) == open
    else !(LastTalk(trace).Some? && LastTalk(trace).value.Asked?)
  }

  ghost predicate DatedBy(trace: seq<Note>, now: real, lastActivity: real, cached: Option<Stamp>) {
    && (forall k :: 0 <= k < |trace| ==> trace[k].at <= now)
    && (forall k :: 0 <= k < |trace| && trace[k].what.Activity? ==> trace[k].at <= lastActivity)
    && (cached.Some? ==> ReadyAt(trace, cached.value.at))
  }

  ghost predicate Dated(s: State) {
    DatedBy(s.trace, s.now, s.core.gate.lastActivity, s.core.gate.cached)
  }

  ghost predicate TraceInv(cfg: Config, s: State) {
    Legal(cfg.settings, s.trace) && Awaits(s.trace, Open(s)) && Dated(s)
  }

  // ---- writing one note ----

  lemma WriteKeeps(cfg: Config, s: State, what: What)
    requires Legal(cfg.settings, s.trace) && Dated(s)
    requires Lawful(cfg.settings, s.trace, Note(s.now, what))
    requires what.Activity? ==> s.core.gate.lastActivity == s.now
    requires what.Asked? && what.call.StopCall? ==> s.core.gate.cached.None?
    ensures Legal(cfg.settings, s.Write(what).trace) && Dated(s.Write(what))
    ensures LastTalk(s.Write(what).trace) == (if what.Asked? || what.Told? then Some(what) else LastTalk(s.trace))
    ensures what == Told(what.who, ProbeCall, Available) ==> ReadyAt(s.Write(what).trace, s.now)
  {
    var n := Note(s.now, what);
    LegalAppend(cfg.settings, s.trace, n);
    var longer := s.trace + [n];
    assert longer[..|s.trace|] == s.trace;
    if s.core.gate.cached.Some? {
      var k: nat :| ReadySince(s.trace, k) && s.trace[k].at == s.core.gate.cached.value.at;
      assert ReadySince(longer, k) && longer[k].at == s.core.gate.cached.value.at;
    }
    if what == Told(what.who, ProbeCall, Available) {
      assert ReadySince(longer, |s.trace|) && longer[|s.trace|].at == s.now;
    }
  }

  lemma ReturnKeeps(cfg: Config, s: State, who: Actor, state: ReadinessState, wall: string)
    requires TraceInv(cfg, s) && s.core.gate.owner != Some(who)
    ensures TraceInv(cfg, s.Return(who, state, wall))
  {
    ReturnFacts(s, who, state, wall);
    assert Open(s.Return(who, state, wall)) == Open(s);
  }

  /** A cached READY handed out: the note about it is lawful. */
  lemma FastKeeps(cfg: Config, s: State, who: Actor, cause: string, state: ReadinessState, wall: string)
    requires TraceInv(cfg, s) && s.core.gate.owner != Some(who)
    requires s.core.gate.cached.Some? && s.now - s.core.gate.cached.value.at < cfg.settings.cacheSeconds && cause == ""
    ensures TraceInv(cfg, s.Write(FastReady(who, cause)).Return(who, state, wall))
  {
    WriteKeeps(cfg, s, FastReady(who, cause));
    assert Open(s.Write(FastReady(who, cause))) == Open(s);
    ReturnKeeps(cfg, s.Write(FastReady(who, cause)), who, state, wall);
  }

  lemma EnterKeeps(cfg: Config, s: State, who: Actor, wall: string)
    requires TraceInv(cfg, s) && Section(cfg, s) && s.At(who).Out? && !who.IdleLoop?
    ensures TraceInv(cfg, s.Enter(cfg, who, wall))
  {
    var gate := s.core.gate.Enter(cfg.settings, s.now);
    WriteKeeps(cfg, s.Guard(gate), Activity(who));
    var entered := s.Guard(gate).Write(Activity(who));
    var armed := if gate.armed && !s.core.gate.armed then entered.Put(IdleLoop, Dozing(s.now, s.now)) else entered;
    assert Open(armed) == Open(s);
    match s.core.gate.Fresh(cfg.settings, s.now)
    case Some(state) => FastKeeps(cfg, armed, who, s.core.gate.lastCause, state, wall);
    case None => assert Open(armed.Put(who, Waiting)) == Open(s);
  }

  lemma TakeKeeps(cfg: Config, s: State, wall: string)
    requires TraceInv(cfg, s) && GateInv(cfg, s) && s.worker.Parked? && s.core.queue != []
    ensures TraceInv(cfg, s.Took(cfg, wall))
  {
    var id := s.core.queue[0];
    var popped := s.(core := s.core.(queue := s.core.queue[1..]));
    if id in s.core.cancelled {
      assert Open(s.Took(cfg, wall)) == Open(s);
    } else {
      var held := popped.(worker := Gating(id));
      assert forall a: Actor :: held.At(a) == s.At(a);
      assert Open(held) == Open(s);
      EnterKeeps(cfg, held, Worker, wall);
    }
  }

  lemma AskKeeps(cfg: Config, s: State, who: Actor, call: Call)
    requires Legal(cfg.settings, s.trace) && Dated(s) && Awaits(s.trace, None)
    requires call.StartCall? ==> LastTalk(s.trace) == Some(Told(who, StatusCall, Saw(ContainerStopped)))
    requires call.StopCall? ==>
               && who.IdleLoop? && s.core.gate.cached.None?
               && LastTalk(s.trace) == Some(Told(who, StatusCall, Saw(ContainerRunning)))
               && s.now - s.core.gate.lastActivity >= cfg.settings.idleInterval
    ensures var s' := s.Write(Asked(who, call));
            Legal(cfg.settings, s'.trace) && Dated(s') && LastTalk(s'.trace) == Some(Asked(who, call))
  {
    assert Lawful(cfg.settings, s.trace, Note(s.now, Asked(who, call)));
    WriteKeeps(cfg, s, Asked(who, call));
  }

  /** Asking for the next call, or sleeping, when nothing is awaited. */
  lemma SuspendKeeps(cfg: Config, s: State, who: Actor, p: Phase)
    requires Legal(cfg.settings, s.trace) && Dated(s) && Awaits(s.trace, None)
    requires s.core.gate.owner == (if p.Locked() then Some(who) else None)
    requires p.Starting? ==> LastTalk(s.trace) == Some(Told(who, StatusCall, Saw(ContainerStopped)))
    requires p.Stopping? ==>
               && who.IdleLoop? && s.core.gate.cached.None?
               && LastTalk(s.trace) == Some(Told(who, StatusCall, Saw(ContainerRunning)))
               && s.now - s.core.gate.lastActivity >= cfg.settings.idleInterval
    ensures TraceInv(cfg, s.Suspend(who, p))
  {
    if CallOf(p).Some? {
      AskKeeps(cfg, s.Put(who, p), who, CallOf(p).value);
    }
    assert s.Suspend(who, p).At(who) == p;
  }

  lemma AdvanceKeeps(cfg: Config, s: State, who: Actor, next: Next, wall: string)
    requires Legal(cfg.settings, s.trace) && Dated(s) && Awaits(s.trace, None)
    requires next.Returned? ==> s.core.gate.owner.None?
    requires next.Suspended? ==> next.phase.Locked() && s.core.gate.owner == Some(who) && !next.phase.Stopping?
    requires next.Suspended? && next.phase.Starting? ==>
               LastTalk(s.trace) == Some(Told(who, StatusCall, Saw(ContainerStopped)))
    ensures TraceInv(cfg, s.Advance(who, next, wall))
  {
    match next
    case Returned(state) => ReturnKeeps(cfg, s, who, state, wall);
    case Suspended(p) => SuspendKeeps(cfg, s, who, p);
  }

  lemma AcquireKeeps(cfg: Config, s: State, who: Actor, wall: string)
    requires TraceInv(cfg, s) && GateInv(cfg, s) && s.Enabled(cfg, Acquire(who, wall))
    ensures TraceInv(cfg, s.Acquired(cfg, who, wall))
  {
    if s.At(who).IdleWaiting? {
      SuspendKeeps(cfg, s.Guard(s.core.gate.(owner := Some(who))), who, IdleInspecting);
    } else {
      var (gate, next) := s.core.gate.Enlock(cfg.settings, who, s.now);
      if next.Returned? {
        FastKeeps(cfg, s.Guard(gate), who, s.core.gate.lastCause, next.state, wall);
      } else {
        SuspendKeeps(cfg, s.Guard(gate), who, next.phase);
      }
    }
  }

  /** The answer the lock's holder awaited: noted lawfully, whatever it does to the gate. */
  lemma AnswerKeeps(cfg: Config, s: State, m: State, who: Actor, call: Call, news: News)
    requires TraceInv(cfg, s) && s.core.gate.owner == Some(who) && CallOf(s.At(who)) == Some(call)
    requires m.trace == s.trace && m.now == s.now && s.core.gate.lastActivity <= m.core.gate.lastActivity <= s.now
    requires m.core.gate.cached in {s.core.gate.cached, None}
             || (m.core.gate.cached == Some(Stamp(Ready, s.now)) && call.ProbeCall? && news.Available?)
    ensures var told := m.Write(Told(who, call, news));
            && Legal(cfg.settings, told.trace) && Dated(told)
            && LastTalk(told.trace) == Some(Told(who, call, news))
  {
    assert Open(s) == Some(Asked(who, call));
    WriteKeeps(cfg, s, Told(who, call, news));
    assert m.Write(Told(who, call, news)).trace == s.Write(Told(who, call, news)).trace;
  }

  lemma ProbeKeeps(cfg: Config, s: State, who: Actor, outcome: ProbeOutcome, wall: string)
    requires TraceInv(cfg, s) && GateInv(cfg, s) && s.Enabled(cfg, ProbeReturns(who, outcome, wall))
    ensures TraceInv(cfg, s.Probed(cfg, who, outcome, wall))
  {
    assert s.At(who).Locked();
    var deadline := s.At(who).deadline;
    var (gate, next) :=
      if s.At(who).Probing? then s.core.gate.FirstProbe(cfg.settings, outcome, deadline, s.now)
      else s.core.gate.Polled(cfg.settings, outcome, deadline, s.now);
    var news := if outcome.ModelsAvailable? then Available else NotAvailable;
    var told := s.Guard(gate).Write(Told(who, ProbeCall, news));
    AnswerKeeps(cfg, s, s.Guard(gate), who, ProbeCall, news);
    if outcome.ModelsAvailable? {
      WriteKeeps(cfg, told, Activity(who));
    }
    AdvanceKeeps(cfg, if outcome.ModelsAvailable? then told.Write(Activity(who)) else told, who, next, wall);
    ProbedAdvances(cfg, s, who, outcome, wall);
  }

  lemma ProbedAdvances(cfg: Config, s: State, who: Actor, outcome: ProbeOutcome, wall: string)
    requires s.At(who).Probing? || s.At(who).Polling?
    ensures var deadline := s.At(who).deadline;
            var (gate, next) :=
              if s.At(who).Probing? then s.core.gate.FirstProbe(cfg.settings, outcome, deadline, s.now)
              else s.core.gate.Polled(cfg.settings, outcome, deadline, s.now);
            var news := if outcome.ModelsAvailable? then Available else NotAvailable;
            var told := s.Guard(gate).Write(Told(who, ProbeCall, news));
            s.Probed(cfg, who, outcome, wall)
            == (if outcome.ModelsAvailable? then told.Write(Activity(who)) else told).Advance(who, next, wall)
  {
  }

  lemma StatusKeeps(cfg: Config, s: State, who: Actor, seen: Reply<Container>, wall: string)
    requires TraceInv(cfg, s) && GateInv(cfg, s) && s.At(who).Inspecting?
    ensures TraceInv(cfg, s.Inspected(cfg, who, seen, wall))
  {
    assert s.At(who).Locked();
    var news := if seen.Answer? then Saw(seen.value) else Broke;
    var (gate, next) := s.core.gate.Inspected(seen, s.At(who).deadline);
    AnswerKeeps(cfg, s, s.Guard(gate), who, StatusCall, news);
    AdvanceKeeps(cfg, s.Guard(gate).Write(Told(who, StatusCall, news)), who, next, wall);
    InspectedAdvances(cfg, s, who, seen, wall);
  }

  lemma InspectedAdvances(cfg: Config, s: State, who: Actor, seen: Reply<Container>, wall: string)
    requires s.At(who).Inspecting?
    ensures var (gate, next) := s.core.gate.Inspected(seen, s.At(who).deadline);
            var told := s.Guard(gate).Write(Told(who, StatusCall, if seen.Answer? then Saw(seen.value) else Broke));
            s.Inspected(cfg, who, seen, wall) == told.Advance(who, next, wall)
  {
  }

  lemma IdleStatusKeeps(cfg: Config, s: State, seen: Reply<Container>, wall: string)
    requires TraceInv(cfg, s) && GateInv(cfg, s) && s.At(IdleLoop).IdleInspecting?
    ensures TraceInv(cfg, s.Inspected(cfg, IdleLoop, seen, wall))
  {
    assert s.At(IdleLoop).Locked();
    var news := if seen.Answer? then Saw(seen.value) else Broke;
    var (gate, p) := s.core.gate.IdleInspected(cfg.settings, seen, s.now);
    AnswerKeeps(cfg, s, s.Guard(gate), IdleLoop, StatusCall, news);
    var told := s.Guard(gate).Write(Told(IdleLoop, StatusCall, news));
    SuspendKeeps(cfg, told, IdleLoop, p);
    assert s.Inspected(cfg, IdleLoop, seen, wall) == told.Suspend(IdleLoop, p);
  }

  lemma StartKeeps(cfg: Config, s: State, step: Step)
    requires TraceInv(cfg, s) && GateInv(cfg, s) && step.StartReturns? && s.Enabled(cfg, step)
    ensures TraceInv(cfg, s.Perform(cfg, step))
  {
    assert s.At(step.who).Locked();
    var heard := s.StartHeard(step.who, step.reply, step.took);
    AnswerKeeps(cfg, s, heard.(trace := s.trace), step.who, StartCall, NewsOf(step.reply));
    AdvanceKeeps(cfg, heard, step.who, s.core.gate.Started(step.reply, s.At(step.who).deadline).1, step.wall);
  }

  lemma StopKeeps(cfg: Config, s: State, reply: Reply<()>, took: bool)
    requires TraceInv(cfg, s) && GateInv(cfg, s) && s.Enabled(cfg, StopReturns(reply, took))
    ensures TraceInv(cfg, s.Stopped(cfg, reply, took))
  {
    assert s.At(IdleLoop).Locked();
    var (gate, p) := s.core.gate.IdleDone(cfg.settings, s.now);
    var after := s.Stopped(cfg, reply, took);
    var m := s.Guard(gate).(tally := after.tally, container := if took then ContainerStopped else s.container);
    AnswerKeeps(cfg, s, m, IdleLoop, StopCall, NewsOf(reply));
    var told := m.Write(Told(IdleLoop, StopCall, NewsOf(reply)));
    SuspendKeeps(cfg, told, IdleLoop, p);
    assert after == told.Suspend(IdleLoop, p);
  }

  lemma WakeKeeps(cfg: Config, s: State, who: Actor)
    requires TraceInv(cfg, s) && GateInv(cfg, s) && s.Enabled(cfg, Wakes(who))
    ensures TraceInv(cfg, s.Woken(cfg, who))
  {
    if s.At(who).Dozing? {
      assert who.IdleLoop?;
      assert Open(s.Woken(cfg, who)) == Open(s);
    } else {
      assert s.At(who).Locked();
      SuspendKeeps(cfg, s, who, Polling(s.At(who).deadline));
    }
  }

  lemma ResumeKeeps(cfg: Config, s: State, w: Wrap)
    requires TraceInv(cfg, s) && JobInvariant.JobInv(s) && s.Enabled(cfg, Resume(w))
    ensures TraceInv(cfg, s.Resumed(cfg, w))
  {
    ConcludeReleases(cfg, s, w);
    ReleaseKeeps(cfg, s, s.Resumed(cfg, w));
  }

  /** Giving a lease back touches the activity clock, and the note says so. */
  lemma ReleaseKeeps(cfg: Config, s: State, s': State)
    requires TraceInv(cfg, s)
    requires s'.core.gate == s.core.gate.Release(s.now) && s'.phase == s.phase && s'.now == s.now
    requires s'.trace == s.trace + [Note(s.now, Activity(Worker))]
    ensures TraceInv(cfg, s')
  {
    WriteKeeps(cfg, s.Guard(s'.core.gate), Activity(Worker));
    assert Open(s') == Open(s);
  }

  lemma ConcludeReleases(cfg: Config, s: State, w: Wrap)
    requires JobInvariant.JobInv(s) && s.Enabled(cfg, Resume(w))
    ensures s.core.Conclude(cfg, s.worker.id, s.core.task.value.outcome, s.now, w).0.gate == s.core.gate.Release(s.now)
  {
    assert s.worker.id in JobInvariant.LedgerOf(s).hand;
    JobInvariant.ConcludeFacts(cfg, s.core, s.worker.id, s.core.task.value.outcome, s.now, w);
  }

  lemma OthersKeep(cfg: Config, s: State, s': State)
    requires TraceInv(cfg, s)
    requires s'.core.gate == s.core.gate && s'.phase == s.phase && s'.trace == s.trace && s'.now >= s.now
    ensures TraceInv(cfg, s')
  {
    assert Open(s') == Open(s);
  }

  /** Every step keeps the notes lawful. */
  lemma StepKeeps(cfg: Config, s: State, step: Step)
    requires TraceInv(cfg, s) && GateInv(cfg, s) && JobInvariant.JobInv(s) && s.Enabled(cfg, step)
    ensures TraceInv(cfg, s.Perform(cfg, step))
  {
    match step
    case Take(wall) => TakeKeeps(cfg, s, wall);
    case CallerEnters(n) => EnterKeeps(cfg, s, Caller(n), "");
    case Resume(w) => ResumeKeeps(cfg, s, w);
    case Acquire(who, wall) => AcquireKeeps(cfg, s, who, wall);
    case ProbeReturns(who, outcome, wall) => ProbeKeeps(cfg, s, who, outcome, wall);
    case StatusReturns(who, seen, wall) =>
      if who.IdleLoop? {
        IdleStatusKeeps(cfg, s, seen, wall);
      } else {
        StatusKeeps(cfg, s, who, seen, wall);
      }
    case StartReturns(_, _, _, _) => StartKeeps(cfg, s, step);
    case StopReturns(reply, took) => StopKeeps(cfg, s, reply, took);
    case Wakes(who) => WakeKeeps(cfg, s, who);
    case Submit(_, _, _) => OthersKeep(cfg, s, s.Perform(cfg, step));
    case Cancel(_, _) => OthersKeep(cfg, s, s.Perform(cfg, step));
    case EngineSettles(_) => OthersKeep(cfg, s, s.Perform(cfg, step));
    case Tick(_) => OthersKeep(cfg, s, s.Perform(cfg, step));
    case ContainerChanges(_) => OthersKeep(cfg, s, s.Perform(cfg, step));
  }
}
