/**
 The cold-start wait as one undisturbed coroutine: _drive_readiness and _poll_until_ready run from end
 to end on the stretches of class Readiness, against a world that answers each call in its own time.
 */
module ColdStart {
  import opened Prelude
  import opened Lifecycle

  /** Outcome and duration of the n-th poll-loop probe, and of the sleep after it. */
  datatype Polls = Polls(outcome: nat -> ProbeOutcome, takes: nat -> real, sleeps: nat -> real)

  /** Each call's answer and duration on the way to the poll loop. */
  datatype World = World(
    probe: ProbeOutcome, probeTakes: real,
    status: Reply<Container>, statusTakes: real,
    start: Reply<()>, startTakes: real,
    polls: Polls)

  ghost predicate Forward(p: Polls, poll: real) {
    && (forall n :: p.takes(n) >= 0.0)
    && (forall n :: p.sleeps(n) >= poll)
  }

  /** Sleeps are exact and no probe takes longer than the bound. */
  ghost predicate Punctual(p: Polls, poll: real, bound: real) {
    && (forall n :: p.takes(n) <= bound)
    && (forall n :: p.sleeps(n) == poll)
  }

  function Ceil(x: real): int {
    -((-x).Floor)
  }

  /** How many whole or partial poll intervals fit into the remaining budget. */
  function Rounds(budget: real, poll: real): (r: nat)
    requires poll > 0.0
  {
    if budget <= 0.0 then 0 else
      assert budget / poll > 0.0;
      Ceil(budget / poll)
  }

  lemma Cancel(a: real, b: real, p: real)
    requires p > 0.0 && a * p < b * p
    ensures a < b
  {
    assert (b - a) * p > 0.0;
  }

  lemma TimesBack(x: real, p: real)
    requires p > 0.0
    ensures x / p * p == x
  {
  }

  lemma OrderedQuotients(q: real, r: real, a: real, b: real, p: real)
    requires p > 0.0 && q * p == a && r * p == b && a < b
    ensures q < r
  {
    Cancel(q, r, p);
  }

  lemma RoundsBound(n: nat, budget: real, poll: real)
    requires poll > 0.0 && n > 0
    requires (n - 1) as real * poll < budget
    ensures n <= Rounds(budget, poll)
  {
    TimesBack(budget, poll);
    Cancel((n - 1) as real, budget / poll, poll);
    assert (n - 1) as real * poll >= 0.0;
  }

  /** Rounds is the budget in polls, rounded up. */
  lemma RoundsAreCeiling(budget: real, poll: real)
    requires poll > 0.0 && budget > 0.0
    ensures (Rounds(budget, poll) - 1) as real * poll < budget <= Rounds(budget, poll) as real * poll
  {
    var q, n := budget / poll, Rounds(budget, poll);
    TimesBack(budget, poll);
    assert (n - 1) as real < q <= n as real;
    TimesKeeps((n - 1) as real, q, poll);
    TimesKeeps(q, n as real, poll);
  }

  lemma TimesKeeps(a: real, b: real, p: real)
    requires p > 0.0
    ensures (a < b ==> a * p < b * p) && (a <= b ==> a * p <= b * p)
  {
    if a < b {
      assert (b - a) * p > 0.0;
    }
  }

  function Max(a: real, b: real): real {
    if a >= b then a else b
  }

  /** The state that a probe's outcome stands for. */
  predicate Means(outcome: ProbeOutcome, state: ReadinessState) {
    && (outcome.ModelsAvailable? <==> state.Ready?)
    && (outcome.Loading? <==> state.Warming?)
    && (outcome.Unreachable? <==> state.Unavailable?)
  }

  /** The container is up, or has just been started: all that is left to do is to wait for the models. */
  predicate WorthPolling(w: World) {
    && !w.probe.ModelsAvailable?
    && (w.status == Answer(ContainerRunning) || (w.status == Answer(ContainerStopped) && w.start.Answer?))
  }

  /** The message with which the controller refused, if it did. */
  function Refused(w: World): Option<string> {
    if w.status.Refusal? then Some(w.status.message)
    else if w.status.value.ContainerStopped? && w.start.Refusal? then Some(w.start.message)
    else None
  }

  /** The cause tells an absent container from a refused call and from a timeout. */
  lemma CausesDiffer(cfg: Settings, state: ReadinessState, message: string)
    ensures TimeoutCause(cfg, state) != ABSENT_CAUSE && ControllerCause(message) != ABSENT_CAUSE
  {
    var absent := "engine " + ("container is absent (not defined by " + "compose); cannot start");
    assert ABSENT_CAUSE == absent && absent[7] == 'c' && absent[0] == 'e';
    assert TimeoutCause(cfg, state)[7] == 'd';
    assert ControllerCause(message)[0] == 'l';
  }

  method PollUntilReady(r: Readiness, deadline: real, begin: real, p: Polls, ghost bound: real)
    returns (state: ReadinessState, finish: real, probes: nat)
    requires r.cfg.pollSeconds > 0.0 && Forward(p, r.cfg.pollSeconds)
    modifies r
    ensures 1 <= probes <= 1 + Rounds(deadline - begin, r.cfg.pollSeconds)
    ensures Means(p.outcome(probes - 1), state)
    ensures forall k: nat :: k < probes - 1 ==> !p.outcome(k).ModelsAvailable?
    ensures !state.Ready? ==> finish >= deadline
    ensures Punctual(p, r.cfg.pollSeconds, bound) ==> finish <= Max(deadline + r.cfg.pollSeconds, begin) + bound
    ensures r.leases == old(r.leases) && r.lockOwner.None?
    ensures state.Ready? ==> r.cached == Some(Stamp(Ready, finish)) && r.lastCause == ""
    ensures !state.Ready? ==> r.cached == old(r.cached) && r.lastCause == TimeoutCause(r.cfg, state)
  {
    var now := begin;
    var n := 0;
    ghost var poll := r.cfg.pollSeconds;
    while true
      invariant now >= begin + n as real * poll
      invariant n > 0 ==> (n - 1) as real * poll < deadline - begin
      invariant n <= Rounds(deadline - begin, poll)
      invariant forall k: nat :: k < n ==> !p.outcome(k).ModelsAvailable?
      invariant Punctual(p, poll, bound) ==> now <= Max(deadline + poll, begin)
      invariant r.View() == old(r.View())
      decreases Rounds(deadline - begin, poll) - n
    {
      now := now + p.takes(n);
      var next := r.Polled(p.outcome(n), deadline, now);
      if next.Returned? {
        return next.state, now, n + 1;
      }
      ghost var before := n;
      now := now + p.sleeps(n);
      n := n + 1;
      assert n as real * poll == before as real * poll + poll;
      RoundsBound(n, deadline - begin, poll);
    }
  }

  /**
   The whole cold path under the lock. With exact sleeps and each kind of call bounded, it takes at most
   max(timeout + poll, probe + status + start) + probe; a caller that is not told READY finds a cause.

   What it answers: a first probe that finds the models ends it, and so does any without a controller. Otherwise an
   absent container and a refused status or start call end it with that cause, and in every other case it polls
   until a probe finds the models or the deadline is over; the last probe's answer is the answer.
   */
  method DriveReadiness(r: Readiness, begin: real, w: World,
                        ghost probeBound: real, ghost statusBound: real, ghost startBound: real)
    returns (state: ReadinessState, finish: real, probes: nat)
    requires r.cfg.Valid() && Forward(w.polls, r.cfg.pollSeconds)
    requires w.probeTakes >= 0.0 && w.statusTakes >= 0.0 && w.startTakes >= 0.0
    modifies r
    ensures 1 <= probes <= 2 + Rounds(r.cfg.readinessTimeout, r.cfg.pollSeconds)
    ensures (Punctual(w.polls, r.cfg.pollSeconds, probeBound)
             && w.probeTakes <= probeBound && w.statusTakes <= statusBound && w.startTakes <= startBound)
            ==> finish - begin <= Max(r.cfg.readinessTimeout + r.cfg.pollSeconds,
                                      probeBound + statusBound + startBound) + probeBound
    ensures r.leases == old(r.leases) && r.lockOwner.None?
    ensures state.Ready? ==> r.cached == Some(Stamp(Ready, finish)) && r.lastCause == ""
    ensures !state.Ready? ==> r.cached == old(r.cached)
    ensures !state.Ready? && r.cfg.controlled ==> r.lastCause != ""
    ensures w.probe.ModelsAvailable? || !r.cfg.controlled ==>
              Means(w.probe, state) && probes == 1 && finish == begin + w.probeTakes
    ensures !w.probe.ModelsAvailable? && !r.cfg.controlled ==> r.lastCause == old(r.lastCause)
    ensures !w.probe.ModelsAvailable? && r.cfg.controlled ==>
              && (w.status == Answer(ContainerAbsent) ==>
                    state.Unavailable? && probes == 1 && r.lastCause == ABSENT_CAUSE)
              && (Refused(w).Some? ==>
                    && state.Unavailable? && probes == 1
                    && r.lastCause == "lifecycle controller unavailable: " + Refused(w).value)
    ensures WorthPolling(w) && r.cfg.controlled ==>
              && probes >= 2 && Means(w.polls.outcome(probes - 2), state)
              && (state.Ready? <==> exists k: nat :: k < probes - 1 && w.polls.outcome(k).ModelsAvailable?)
              && (!state.Ready? ==>
                    finish >= begin + r.cfg.readinessTimeout && r.lastCause == TimeoutCause(r.cfg, state))
  {
    var deadline := begin + r.cfg.readinessTimeout;
    var now := begin + w.probeTakes;
    var next := r.FirstProbe(w.probe, deadline, now);
    if next.Returned? {
      return next.state, now, 1;
    }
    now := now + w.statusTakes;
    next := r.Inspected(w.status, deadline, now);
    if next.Returned? {
      return next.state, now, 1;
    }
    if next.phase.Starting? {
      now := now + w.startTakes;
      next := r.Started(w.start, deadline, now);
      if next.Returned? {
        return next.state, now, 1;
      }
    }
    MoreBudgetMoreRounds(deadline - now, r.cfg.readinessTimeout, r.cfg.pollSeconds);
    state, finish, probes := PollUntilReady(r, deadline, now, w.polls, probeBound);
    probes := probes + 1;
  }

  lemma MoreBudgetMoreRounds(a: real, b: real, poll: real)
    requires poll > 0.0 && a <= b
    ensures Rounds(a, poll) <= Rounds(b, poll)
  {
    if a > 0.0 {
      if a < b {
        TimesBack(a, poll);
        TimesBack(b, poll);
        OrderedQuotients(a / poll, b / poll, a, b, poll);
      }
    }
  }
}
