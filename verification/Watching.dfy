/** Listeners of a job in a run: what they are promised of the log that the run makes. */
module Watching {
  import opened Prelude
  import opened Jobs
  import opened Runner
  import opened Machine
  import Sse
  import opened SseReplay
  import opened Listener
  import JobInvariant
  import Theorems

  /**
   A listener whose history is the log of a job of the run, or a beginning of it, with a log limit of three or more:
   if it keeps the id of its last message it has seen that history from its first event on, each event once; the
   standard's client has exactly if no connection rewound it.
   */
  lemma ListenersOfARun(cfg: Config, s: State, steps: seq<Step>, id: JobId,
                        kind: Kind, limit: nat, moves: seq<Move>, dumps: Payload -> string)
    requires Init(cfg, s) && cfg.settings.Valid() && Allowed(cfg, s, steps) && id in Run(cfg, s, steps).core.store.logs
    requires limit >= 3 && Sse.Renders(dumps) && Possible(NewListener(kind, limit), moves, dumps)
    requires Played(NewListener(kind, limit), moves, dumps).history <= Run(cfg, s, steps).core.store.logs[id]
    ensures var end := Played(NewListener(kind, limit), moves, dumps);
            && (kind.Careful? ==> Exact(end, dumps))
            && (Exact(end, dumps) <==> Steady(end.visits))
  {
    Theorems.LivesOfJobs(cfg, s, steps);
    var log := Run(cfg, s, steps).core.store.logs[id];
    var end := Played(NewListener(kind, limit), moves, dumps);
    GrammarIsNumbered(log);
    assert end.history == log[..|end.history|];
    BeginningIsNumbered(log, |end.history|);
    AlwaysSound(kind, limit, moves, dumps);
    ExactIsInOrder(end, dumps);
  }

  /**
   Once a job of the run is terminal, a sweep from a cursor before its last event yields the terminal event, which
   ends the stream, for every limit of at least one; from any other cursor it yields nothing.
   */
  lemma TerminalOfARun(cfg: Config, s: State, steps: seq<Step>, id: JobId, limit: nat, cursor: Option<nat>)
    requires Init(cfg, s) && cfg.settings.Valid() && Allowed(cfg, s, steps) && limit >= 1
    requires var records := Run(cfg, s, steps).core.store.records; id in records && records[id].status.Terminal()
    ensures var store := Run(cfg, s, steps).core.store;
            && id in store.logs
            && var log := store.logs[id]; var out := Yielded(Sse.EventsSince(Suffix(log, limit), cursor));
               if At(cursor) < |log| then out != [] && out[|out| - 1] == log[|log| - 1] && TerminalKind(log[|log| - 1])
               else out == []
  {
    Theorems.LivesOfJobs(cfg, s, steps);
    var store := Run(cfg, s, steps).core.store;
    assert JobInvariant.Reflects(store.records[id], store.logs[id]);
    GrammarIsNumbered(store.logs[id]);
    TerminalIsReached(store.logs[id], limit, cursor);
  }
}
