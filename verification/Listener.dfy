/**
 One job's listener over any schedule of appended events, polls, heartbeats, connections cut at any character and
 reconnections with Last-Event-ID (api/app/routes/jobs.py:74-75, 128-157). Two clients resume differently: one keeps
 the id of the last message it got, the other the last event ID string of the WHATWG HTML Living Standard, sections
 9.2.4 and 9.2.6, as the browser's EventSource does (api/app/static/app.js:359-367).
 */
module Listener {
  import opened Prelude
  import opened Jobs
  import opened Sse
  import opened SseReplay

  datatype Kind = Careful | Standard

  /** A connection that is over: messages seen before it, the cursor it was opened with, messages it delivered. */
  datatype Visit = Visit(had: nat, entry: Option<nat>, got: nat)

  /** limit is the retained log's length; memory what the client sends on resuming, nothing if it is empty. */
  datatype Session = Session(
    kind: Kind, history: seq<Event>, limit: nat,
    open: bool, running: bool, entry: Option<nat>, cursor: Option<nat>, pending: seq<Event>, sent: seq<Item>,
    seen: seq<Message>, memory: string, visits: seq<Visit>)

  datatype Move =
    | Log(event: Event)      // the job's log grows
    | Connect                // with Last-Event-ID, if the client remembers one
    | Poll                   // a snapshot of the retained log
    | Emit                   // one frame is yielded
    | Pulse                  // a heartbeat
    | Cut(n: nat)            // the client has received n characters, and the connection ends

  predicate Can(s: Session, move: Move, dumps: Payload -> string) {
    match move
    case Log(_) => true
    case Connect => !s.open
    case Poll => s.running && s.pending == []
    case Emit => s.running && s.pending != []
    case Pulse => s.running && s.pending == []
    case Cut(n) => s.open && n <= |Text(s.sent, dumps)|
  }

  function Resume(memory: string): Option<nat> {
    var cursor := ParseLastEventId(if memory == "" then None else Some(memory));
    if cursor.After? then Some(cursor.n) else None
  }

  /** The client at the end of a connection of which n characters came. */
  function Received(s: Session, n: nat, dumps: Payload -> string): Client
    requires n <= |Text(s.sent, dumps)|
  {
    Connected(s.memory).Feed(Text(s.sent, dumps)[..n])
  }

  function Finished(s: Session, c: Client): Session {
    s.(open := false, running := false, sent := [], pending := [], seen := s.seen + c.got,
       memory := if s.kind.Standard? then c.lastEventId
                 else if c.got == [] then s.memory else c.got[|c.got| - 1].lastEventId,
       visits := s.visits + [Visit(|s.seen|, s.entry, |c.got|)])
  }

  function Do(s: Session, move: Move, dumps: Payload -> string): Session
    requires Can(s, move, dumps)
  {
    match move
    case Log(e) => s.(history := s.history + [e])
    case Connect =>
      var from := Resume(s.memory);
      s.(open := true, running := true, entry := from, cursor := from, pending := [], sent := [])
    case Poll => s.(pending := EventsSince(Suffix(s.history, s.limit), s.cursor))
    case Emit =>
      var e := s.pending[0];
      s.(cursor := Some(e.id), pending := s.pending[1..], sent := s.sent + [Frame(e)], running := !TerminalKind(e))
    case Pulse => s.(sent := s.sent + [Beat])
    case Cut(n) => Finished(s, Received(s, n, dumps))
  }

  predicate Possible(s: Session, moves: seq<Move>, dumps: Payload -> string)
    decreases |moves|, 0
  {
    moves == [] || (Possible(s, moves[..|moves| - 1], dumps)
                    && Can(Played(s, moves[..|moves| - 1], dumps), moves[|moves| - 1], dumps))
  }

  function Played(s: Session, moves: seq<Move>, dumps: Payload -> string): Session
    requires Possible(s, moves, dumps)
    decreases |moves|, 1
  {
    if moves == [] then s else Do(Played(s, moves[..|moves| - 1], dumps), moves[|moves| - 1], dumps)
  }

  function NewListener(kind: Kind, limit: nat): Session {
    Session(kind, [], limit, false, false, None, None, [], [], [], "", [])
  }

  // ---- what can be promised ----

  /** What was seen is the history from its first event on: in order, none missing, none twice. */
  predicate Exact(s: Session, dumps: Payload -> string) {
    |s.seen| <= |s.history| && s.seen == Messages(s.history[..|s.seen|], dumps)
  }

  /** A connection that delivered an event was opened with no cursor although something had been seen. */
  predicate Rewinds(v: Visit) {
    v.had > 0 && v.entry.None? && v.got > 0
  }

  predicate Steady(visits: seq<Visit>) {
    forall v <- visits :: !Rewinds(v)
  }

  // ---- the numbers of what was seen ----

  function Number(m: Message): nat {
    if Digits(m.lastEventId) then Value(m.lastEventId) else 0
  }

  lemma NumberIsId(e: Event, dumps: Payload -> string)
    ensures Number(MessageOf(e, dumps)) == e.id
  {
    DecRoundTrip(e.id);
  }

  predicate InOrder(seen: seq<Message>) {
    forall k :: 0 <= k < |seen| ==> Number(seen[k]) == k + 1
  }

  /** The message is that of the event with its number. */
  predicate Tells(history: seq<Event>, m: Message, dumps: Payload -> string) {
    1 <= Number(m) <= |history| && m == MessageOf(history[Number(m) - 1], dumps)
  }

  predicate Honest(history: seq<Event>, seen: seq<Message>, dumps: Payload -> string) {
    forall k :: 0 <= k < |seen| ==> Tells(history, seen[k], dumps)
  }

  lemma ExactIsInOrder(s: Session, dumps: Payload -> string)
    requires Numbered(s.history) && Honest(s.history, s.seen, dumps)
    ensures Exact(s, dumps) <==> InOrder(s.seen)
  {
    var n := |s.seen|;
    if InOrder(s.seen) {
      if n > 0 {
        assert Tells(s.history, s.seen[n - 1], dumps);
      }
      MessagesAt(s.history[..n], dumps);
      forall k | 0 <= k < n ensures s.seen[k] == Messages(s.history[..n], dumps)[k] {
        assert Tells(s.history, s.seen[k], dumps);
      }
    }
    if Exact(s, dumps) {
      MessagesAt(s.history[..n], dumps);
      forall k | 0 <= k < n ensures Number(s.seen[k]) == k + 1 {
        NumberIsId(s.history[k], dumps);
      }
    }
  }

  /** More of the history, from the event after the one numbered from on. */
  lemma GotIsHonest(history: seq<Event>, from: nat, to: nat, dumps: Payload -> string)
    requires Numbered(history) && from <= to <= |history|
    ensures var got := Messages(history[from..to], dumps);
            && |got| == to - from && Honest(history, got, dumps)
            && forall k :: 0 <= k < |got| ==> Number(got[k]) == from + k + 1
  {
    var got := Messages(history[from..to], dumps);
    MessagesAt(history[from..to], dumps);
    forall k | 0 <= k < |got| ensures Number(got[k]) == from + k + 1 && Tells(history, got[k], dumps) {
      NumberIsId(history[from + k], dumps);
    }
  }

  /** Going on is in order exactly from where one was. */
  lemma OrderGoesOn(seen: seq<Message>, got: seq<Message>, from: nat)
    requires forall k :: 0 <= k < |got| ==> Number(got[k]) == from + k + 1
    ensures InOrder(seen + got) <==> InOrder(seen) && (got == [] || from == |seen|)
  {
    var all := seen + got;
    if InOrder(all) {
      forall k | 0 <= k < |seen| ensures Number(seen[k]) == k + 1 {
        assert all[k] == seen[k];
      }
      if got != [] {
        assert all[|seen|] == got[0];
      }
    }
  }

  // ---- every move ----

  /** The client remembers nothing, or the last it saw. */
  predicate Remembers(s: Session) {
    s.memory == "" || (s.seen != [] && s.memory == Dec(Number(s.seen[|s.seen| - 1])))
  }

  predicate Streams(s: Session) {
    && (s.running ==> s.open)
    && (s.open ==> s.entry == Resume(s.memory) && Stretch(s.history, EventsOf(s.sent), At(s.entry), At(s.cursor)))
    && (s.running ==> Stretch(s.history, s.pending, At(s.cursor), At(s.cursor) + |s.pending|))
  }

  ghost predicate Sound(s: Session, dumps: Payload -> string) {
    && Numbered(s.history) && Honest(s.history, s.seen, dumps)
    && Remembers(s) && (s.kind.Careful? && s.seen != [] ==> s.memory != "")
    && Streams(s)
    && (InOrder(s.seen) <==> Steady(s.visits)) && (s.kind.Careful? ==> Steady(s.visits))
  }

  lemma ResumeReadsBack(s: Session, dumps: Payload -> string)
    requires Numbered(s.history) && Honest(s.history, s.seen, dumps) && Remembers(s)
    ensures Resume(s.memory) ==
            if s.memory == "" then None else Some(Number(s.seen[|s.seen| - 1]))
    ensures At(Resume(s.memory)) <= |s.history|
  {
    if s.memory != "" {
      var n := Number(s.seen[|s.seen| - 1]);
      assert Tells(s.history, s.seen[|s.seen| - 1], dumps);
      LongerNumbers(n, |s.history|);
      DecRoundTrip(n);
      assert forall c <- s.memory :: IsDigit(c);
    }
  }

  lemma PollReads(history: seq<Event>, limit: nat, cursor: Option<nat>)
    requires Numbered(history) && |history| <= limit
    ensures EventsSince(Suffix(history, limit), cursor) == if At(cursor) <= |history| then history[At(cursor)..] else []
  {
    SinceIsTail(history, 0, cursor);
  }

  lemma EmitStreams(s: Session, dumps: Payload -> string)
    requires Streams(s) && Numbered(s.history) && s.running && s.pending != []
    ensures Streams(Do(s, Emit, dumps))
  {
    var at := At(s.cursor);
    PendingNext(s.history, s.pending, at);
    EventsOfAppend(s.sent, Frame(s.pending[0]));
    StretchGrows(s.history, EventsOf(s.sent), At(s.entry), at);
  }

  lemma PendingNext(history: seq<Event>, pending: seq<Event>, at: nat)
    requires Numbered(history) && pending != [] && Stretch(history, pending, at, at + |pending|)
    ensures pending[0] == history[at] && pending[0].id == at + 1
    ensures Stretch(history, pending[1..], at + 1, at + |pending|)
  {
  }

  lemma StretchGrows(history: seq<Event>, events: seq<Event>, lo: nat, hi: nat)
    requires Stretch(history, events, lo, hi) && hi < |history|
    ensures Stretch(history, events + [history[hi]], lo, hi + 1)
  {
  }

  lemma LogStreams(s: Session, e: Event, dumps: Payload -> string)
    requires Streams(s)
    ensures Streams(Do(s, Log(e), dumps))
  {
    var longer := s.history + [e];
    if s.open {
      assert longer[At(s.entry)..At(s.cursor)] == s.history[At(s.entry)..At(s.cursor)];
    }
    if s.running {
      var at := At(s.cursor);
      assert longer[at..at + |s.pending|] == s.history[at..at + |s.pending|];
    }
  }

  /** A cut connection has delivered the events among its whole items. */
  lemma CutHears(s: Session, n: nat, dumps: Payload -> string)
    requires Renders(dumps) && n <= |Text(s.sent, dumps)|
    ensures var events := EventsOf(s.sent[..Whole(s.sent, n, dumps)]); var c := Received(s, n, dumps);
            && c.got == Messages(events, dumps)
            && c.lastEventId == if events != [] then Dec(events[|events| - 1].id)
                                else if Whole(s.sent, n, dumps) > 0 then "" else s.memory
  {
    var whole := s.sent[..Whole(s.sent, n, dumps)];
    CutAnywhere(Connected(s.memory), s.sent, dumps, n);
    HearAllIsMessages(Connected(s.memory), whole, dumps);
    HearAllCursor(Connected(s.memory), whole, dumps);
  }

  lemma StretchBegins(history: seq<Event>, events: seq<Event>, lo: nat, hi: nat, some: seq<Event>)
    requires Stretch(history, events, lo, hi) && some <= events
    ensures Stretch(history, some, lo, lo + |some|)
    ensures some != [] ==> some[|some| - 1] == history[lo + |some| - 1]
  {
    assert some == events[..|some|];
  }

  lemma HeardEvents(s: Session, n: nat, dumps: Payload -> string) returns (c: Client, events: seq<Event>)
    requires Renders(dumps) && n <= |Text(s.sent, dumps)|
    ensures c == Received(s, n, dumps) && events <= EventsOf(s.sent) && c.got == Messages(events, dumps)
    ensures if events != [] then c.lastEventId == Dec(events[|events| - 1].id)
            else c.lastEventId == "" || c.lastEventId == s.memory
  {
    c := Received(s, n, dumps);
    events := EventsOf(s.sent[..Whole(s.sent, n, dumps)]);
    CutHears(s, n, dumps);
    EventsOfPrefix(s.sent, Whole(s.sent, n, dumps));
  }

  /** What a connection delivers goes on from where it was opened. */
  lemma CutReads(s: Session, n: nat, dumps: Payload -> string) returns (c: Client, to: nat)
    requires Numbered(s.history) && Stretch(s.history, EventsOf(s.sent), At(s.entry), At(s.cursor))
    requires Renders(dumps) && n <= |Text(s.sent, dumps)|
    ensures c == Received(s, n, dumps) && Reads(s, c, to, dumps)
  {
    var events: seq<Event>;
    c, events := HeardEvents(s, n, dumps);
    StretchBegins(s.history, EventsOf(s.sent), At(s.entry), At(s.cursor), events);
    to := At(s.entry) + |events|;
    EventsAreRead(s, c, events, to, dumps);
  }

  lemma LastOfStretch(history: seq<Event>, events: seq<Event>, lo: nat, hi: nat)
    requires Numbered(history) && Stretch(history, events, lo, hi) && events != []
    ensures events[|events| - 1].id == hi
  {
  }

  lemma EventsAreRead(s: Session, c: Client, events: seq<Event>, to: nat, dumps: Payload -> string)
    requires Numbered(s.history) && to == At(s.entry) + |events| && Stretch(s.history, events, At(s.entry), to)
    requires c.got == Messages(events, dumps)
    requires if events != [] then c.lastEventId == Dec(events[|events| - 1].id)
             else c.lastEventId == "" || c.lastEventId == s.memory
    ensures Reads(s, c, to, dumps)
  {
    if events != [] {
      LastOfStretch(s.history, events, At(s.entry), to);
    }
  }

  /** What was had before, and where the connection was opened, decide whether its messages are in order. */
  lemma OpenedBehind(s: Session, dumps: Payload -> string)
    requires Sound(s, dumps) && s.open && InOrder(s.seen)
    ensures At(s.entry) == |s.seen| <==> !(|s.seen| > 0 && s.entry.None?)
  {
    ResumeReadsBack(s, dumps);
  }

  lemma SteadyGrows(visits: seq<Visit>, v: Visit)
    ensures Steady(visits + [v]) <==> Steady(visits) && !Rewinds(v)
  {
    assert v in visits + [v];
    assert forall w <- visits :: w in visits + [v];
  }

  lemma JoinedHonest(history: seq<Event>, seen: seq<Message>, got: seq<Message>, dumps: Payload -> string)
    requires Honest(history, seen, dumps) && Honest(history, got, dumps)
    ensures Honest(history, seen + got, dumps)
  {
  }

  /** c is a client at the end of the session's connection, after its events up to the one numbered to. */
  predicate Reads(s: Session, c: Client, to: nat, dumps: Payload -> string) {
    && At(s.entry) <= to <= |s.history| && c.got == Messages(s.history[At(s.entry)..to], dumps)
    && (if to > At(s.entry) then c.lastEventId == Dec(to) else c.lastEventId == "" || c.lastEventId == s.memory)
  }

  /** The order of what was seen, and the visits that it depends on. */
  lemma CutOrders(s: Session, c: Client, to: nat, dumps: Payload -> string)
    requires Sound(s, dumps) && s.open && Reads(s, c, to, dumps)
    ensures Honest(s.history, s.seen + c.got, dumps)
    ensures InOrder(s.seen + c.got) <==> Steady(s.visits + [Visit(|s.seen|, s.entry, |c.got|)])
    ensures s.kind.Careful? ==> Steady(s.visits + [Visit(|s.seen|, s.entry, |c.got|)])
  {
    GotIsHonest(s.history, At(s.entry), to, dumps);
    JoinedHonest(s.history, s.seen, c.got, dumps);
    OrderGoesOn(s.seen, c.got, At(s.entry));
    SteadyGrows(s.visits, Visit(|s.seen|, s.entry, |c.got|));
    if InOrder(s.seen) {
      OpenedBehind(s, dumps);
    }
    ResumeReadsBack(s, dumps);
  }

  lemma LastGot(history: seq<Event>, from: nat, to: nat, dumps: Payload -> string)
    requires Numbered(history) && from < to <= |history|
    ensures var got := Messages(history[from..to], dumps);
            |got| == to - from && got[|got| - 1].lastEventId == Dec(to) && Number(got[|got| - 1]) == to
  {
    MessagesAt(history[from..to], dumps);
    NumberIsId(history[to - 1], dumps);
  }

  lemma CutRemembers(s: Session, c: Client, to: nat, dumps: Payload -> string)
    requires Numbered(s.history) && Reads(s, c, to, dumps)
    requires Remembers(s) && (s.kind.Careful? && s.seen != [] ==> s.memory != "")
    ensures var end := Finished(s, c); Remembers(end) && (s.kind.Careful? && end.seen != [] ==> end.memory != "")
  {
    if to > At(s.entry) {
      LastGot(s.history, At(s.entry), to, dumps);
      GotRemembers(s, c, to);
    } else {
      assert c.got == [];
      NothingRemembers(s, c);
    }
  }

  lemma NothingRemembers(s: Session, c: Client)
    requires c.got == [] && (c.lastEventId == "" || c.lastEventId == s.memory)
    requires Remembers(s) && (s.kind.Careful? && s.seen != [] ==> s.memory != "")
    ensures var end := Finished(s, c); Remembers(end) && (s.kind.Careful? && end.seen != [] ==> end.memory != "")
  {
    assert s.seen + c.got == s.seen;
  }

  lemma GotRemembers(s: Session, c: Client, to: nat)
    requires c.got != [] && c.lastEventId == c.got[|c.got| - 1].lastEventId == Dec(to)
             && Number(c.got[|c.got| - 1]) == to
    ensures Remembers(Finished(s, c)) && Finished(s, c).memory != ""
  {
    assert (s.seen + c.got)[|s.seen + c.got| - 1] == c.got[|c.got| - 1];
  }

  lemma FinishedSound(s: Session, c: Client, to: nat, dumps: Payload -> string)
    requires Sound(s, dumps) && s.open && Reads(s, c, to, dumps)
    ensures Sound(Finished(s, c), dumps)
  {
    CutOrders(s, c, to, dumps);
    CutRemembers(s, c, to, dumps);
  }

  lemma CutKeeps(s: Session, n: nat, dumps: Payload -> string)
    requires Sound(s, dumps) && Renders(dumps) && s.open && n <= |Text(s.sent, dumps)|
    ensures Sound(Finished(s, Received(s, n, dumps)), dumps)
  {
    var c, to := CutReads(s, n, dumps);
    FinishedSound(s, c, to, dumps);
  }

  /** Nothing changes but the connection. */
  lemma StreamKeeps(s: Session, s': Session, dumps: Payload -> string)
    requires Sound(s, dumps) && Streams(s')
    requires s'.kind == s.kind && s'.history == s.history && s'.seen == s.seen && s'.memory == s.memory
             && s'.visits == s.visits
    ensures Sound(s', dumps)
  {
  }

  lemma PollStreams(s: Session, dumps: Payload -> string)
    requires Streams(s) && Numbered(s.history) && s.running && s.pending == [] && |s.history| <= s.limit
    ensures Streams(Do(s, Poll, dumps))
  {
    PollStretches(s.history, s.limit, s.cursor);
  }

  lemma PollStretches(history: seq<Event>, limit: nat, cursor: Option<nat>)
    requires Numbered(history) && |history| <= limit && At(cursor) <= |history|
    ensures var pending := EventsSince(Suffix(history, limit), cursor);
            Stretch(history, pending, At(cursor), At(cursor) + |pending|)
  {
    PollReads(history, limit, cursor);
  }

  lemma ConnectStreams(s: Session, dumps: Payload -> string)
    requires Sound(s, dumps) && !s.open
    ensures Streams(Do(s, Connect, dumps))
  {
    ResumeReadsBack(s, dumps);
  }

  lemma PulseStreams(s: Session, dumps: Payload -> string)
    requires Streams(s) && s.running && s.pending == []
    ensures Streams(Do(s, Pulse, dumps))
  {
    EventsOfAppend(s.sent, Beat);
  }

  lemma MoveKeeps(s: Session, move: Move, dumps: Payload -> string)
    requires Sound(s, dumps) && Renders(dumps) && Can(s, move, dumps) && |s.history| <= s.limit
    requires Numbered(Do(s, move, dumps).history)
    ensures Sound(Do(s, move, dumps), dumps)
  {
    match move
    case Log(e) =>
      LogStreams(s, e, dumps);
      HonestGrows(s.history, e, s.seen, dumps);
    case Connect =>
      ConnectStreams(s, dumps);
      StreamKeeps(s, Do(s, move, dumps), dumps);
    case Poll =>
      PollStreams(s, dumps);
      StreamKeeps(s, Do(s, move, dumps), dumps);
    case Emit =>
      EmitStreams(s, dumps);
      StreamKeeps(s, Do(s, move, dumps), dumps);
    case Pulse =>
      PulseStreams(s, dumps);
      StreamKeeps(s, Do(s, move, dumps), dumps);
    case Cut(n) => CutKeeps(s, n, dumps);
  }

  lemma HonestGrows(history: seq<Event>, e: Event, seen: seq<Message>, dumps: Payload -> string)
    requires Honest(history, seen, dumps)
    ensures Honest(history + [e], seen, dumps)
  {
    forall k | 0 <= k < |seen| ensures Tells(history + [e], seen[k], dumps) {
      assert Tells(history, seen[k], dumps);
    }
  }

  lemma {:induction false} AlwaysSound(kind: Kind, limit: nat, moves: seq<Move>, dumps: Payload -> string)
    requires Renders(dumps) && Possible(NewListener(kind, limit), moves, dumps)
    requires var end := Played(NewListener(kind, limit), moves, dumps); Numbered(end.history) && |end.history| <= limit
    ensures var end := Played(NewListener(kind, limit), moves, dumps);
            Sound(end, dumps) && end.limit == limit && end.kind == kind
  {
    if moves != [] {
      var init, move := moves[..|moves| - 1], moves[|moves| - 1];
      var s := Played(NewListener(kind, limit), init, dumps);
      var end := Do(s, move, dumps);
      assert s.history == end.history[..|s.history|];
      BeginningIsNumbered(end.history, |s.history|);
      AlwaysSound(kind, limit, init, dumps);
      MoveKeeps(s, move, dumps);
    }
  }

  // ---- exactly once ----

  /**
   A client that resumes with the id of its last message, and a log that retains the whole history (three events
   suffice for every job): however appends, polls, heartbeats, cuts at any character and reconnections interleave,
   what it has dispatched over all its connections is the history from its first event on.
   */
  lemma ExactlyOnce(limit: nat, moves: seq<Move>, dumps: Payload -> string)
    requires Renders(dumps) && Possible(NewListener(Careful, limit), moves, dumps)
    requires var end := Played(NewListener(Careful, limit), moves, dumps);
             Numbered(end.history) && |end.history| <= limit
    ensures Exact(Played(NewListener(Careful, limit), moves, dumps), dumps)
  {
    AlwaysSound(Careful, limit, moves, dumps);
    ExactIsInOrder(Played(NewListener(Careful, limit), moves, dumps), dumps);
  }

  /**
   The standard's client, under the same conditions: what it has dispatched is the history from its first event on
   if and only if no connection that delivered an event was opened with an empty cursor after something was seen.
   */
  lemma StandardExactly(limit: nat, moves: seq<Move>, dumps: Payload -> string)
    requires Renders(dumps) && Possible(NewListener(Standard, limit), moves, dumps)
    requires var end := Played(NewListener(Standard, limit), moves, dumps);
             Numbered(end.history) && |end.history| <= limit
    ensures var end := Played(NewListener(Standard, limit), moves, dumps); Exact(end, dumps) <==> Steady(end.visits)
  {
    AlwaysSound(Standard, limit, moves, dumps);
    ExactIsInOrder(Played(NewListener(Standard, limit), moves, dumps), dumps);
  }

  /** A resumed connection that brings a heartbeat and no event: there the standard's client forgets its place. */
  predicate Forgets(s: Session, move: Move, dumps: Payload -> string) {
    && move.Cut? && s.kind.Standard? && s.memory != "" && move.n <= |Text(s.sent, dumps)|
    && var k := Whole(s.sent, move.n, dumps); k > 0 && EventsOf(s.sent[..k]) == []
  }

  predicate NeverForgets(s: Session, moves: seq<Move>, dumps: Payload -> string)
    requires Possible(s, moves, dumps)
  {
    moves == [] || (NeverForgets(s, moves[..|moves| - 1], dumps)
                    && !Forgets(Played(s, moves[..|moves| - 1], dumps), moves[|moves| - 1], dumps))
  }

  /** A connection that leaves the standard's client with nothing to resume with had an event or forgot. */
  lemma EmptyMeans(s: Session, n: nat, dumps: Payload -> string)
    requires Renders(dumps) && n <= |Text(s.sent, dumps)| && s.kind.Standard?
    requires Received(s, n, dumps).lastEventId == ""
    ensures (s.memory == "" && Received(s, n, dumps).got == []) || Forgets(s, Cut(n), dumps)
  {
    CutHears(s, n, dumps);
  }

  lemma ForgetsNothing(s: Session, n: nat, dumps: Payload -> string)
    requires Sound(s, dumps) && Renders(dumps) && s.kind.Standard? && s.open && n <= |Text(s.sent, dumps)|
    requires s.seen != [] ==> s.memory != ""
    requires !Forgets(s, Cut(n), dumps)
    ensures var end := Do(s, Cut(n), dumps);
            (end.seen != [] ==> end.memory != "") && (Steady(s.visits) ==> Steady(end.visits))
  {
    var c := Received(s, n, dumps);
    if c.lastEventId == "" {
      EmptyMeans(s, n, dumps);
    }
    ResumeReadsBack(s, dumps);
    SteadyGrows(s.visits, Visit(|s.seen|, s.entry, |c.got|));
  }

  /** So while that never happens, the standard's client too gets every event exactly once. */
  lemma {:induction false} RemembersExactly(limit: nat, moves: seq<Move>, dumps: Payload -> string)
    requires Renders(dumps) && Possible(NewListener(Standard, limit), moves, dumps)
    requires NeverForgets(NewListener(Standard, limit), moves, dumps)
    requires var end := Played(NewListener(Standard, limit), moves, dumps);
             Numbered(end.history) && |end.history| <= limit
    ensures var end := Played(NewListener(Standard, limit), moves, dumps);
            Exact(end, dumps) && Steady(end.visits) && (end.seen != [] ==> end.memory != "")
  {
    if moves != [] {
      var init, move := moves[..|moves| - 1], moves[|moves| - 1];
      var s := Played(NewListener(Standard, limit), init, dumps);
      var end := Do(s, move, dumps);
      assert s.history == end.history[..|s.history|];
      BeginningIsNumbered(end.history, |s.history|);
      RemembersExactly(limit, init, dumps);
      AlwaysSound(Standard, limit, init, dumps);
      if move.Cut? {
        ForgetsNothing(s, move.n, dumps);
      }
    }
    StandardExactly(limit, moves, dumps);
  }

  // ---- and twice ----

  lemma OneMore(s: Session, moves: seq<Move>, move: Move, dumps: Payload -> string)
    requires Possible(s, moves, dumps) && Can(Played(s, moves, dumps), move, dumps)
    ensures Possible(s, moves + [move], dumps)
    ensures Played(s, moves + [move], dumps) == Do(Played(s, moves, dumps), move, dumps)
  {
    assert (moves + [move])[..|moves|] == moves;
  }

  lemma {:induction false} AllWhole(items: seq<Item>, dumps: Payload -> string)
    ensures Whole(items, |Text(items, dumps)|, dumps) == |items|
  {
    if items != [] {
      AllWhole(items[1..], dumps);
    }
  }

  const QUEUED := Event(1, Queued, NoData)

  /** Connected with nothing pending, the log being one event: it is polled, yielded and received. */
  lemma HearsQueued(s: Session, moves: seq<Move>, dumps: Payload -> string) returns (more: seq<Move>)
    requires Renders(dumps) && Possible(s, moves, dumps)
    requires var m := Played(s, moves, dumps);
             !m.open && m.history == [QUEUED] && m.limit == 3 && m.memory == "" && m.kind.Standard?
    ensures Possible(s, more, dumps)
    ensures var m := Played(s, moves, dumps); var end := Played(s, more, dumps);
            && !end.open && end.history == m.history && end.limit == m.limit && end.kind == m.kind
            && end.seen == m.seen + [MessageOf(QUEUED, dumps)] && end.memory == Dec(1)
  {
    var m := Played(s, moves, dumps);
    OneMore(s, moves, Connect, dumps);
    OneMore(s, moves + [Connect], Poll, dumps);
    LongerNumbers(1, 9);
    PollReads(m.history, m.limit, None);
    assert Do(Do(m, Connect, dumps), Poll, dumps).pending == [QUEUED];
    OneMore(s, moves + [Connect] + [Poll], Emit, dumps);
    var last := Do(Do(Do(m, Connect, dumps), Poll, dumps), Emit, dumps);
    assert last.sent == [Frame(QUEUED)];
    WholeReceived(last, dumps);
    more := moves + [Connect] + [Poll] + [Emit] + [Cut(|Text(last.sent, dumps)|)];
    OneMore(s, moves + [Connect] + [Poll] + [Emit], Cut(|Text(last.sent, dumps)|), dumps);
  }

  lemma WholeReceived(s: Session, dumps: Payload -> string)
    requires Renders(dumps) && |s.sent| == 1
    ensures var c := Received(s, |Text(s.sent, dumps)|, dumps);
            match s.sent[0]
            case Frame(e) => c.got == [MessageOf(e, dumps)] && c.lastEventId == Dec(e.id)
            case Beat => c.got == [] && c.lastEventId == ""
  {
    AllWhole(s.sent, dumps);
    assert s.sent[..1] == s.sent;
    CutAnywhere(Connected(s.memory), s.sent, dumps, |Text(s.sent, dumps)|);
    assert HearAll(Connected(s.memory), s.sent, dumps) == Hear(Connected(s.memory), s.sent[0], dumps);
  }

  /** A resumed connection on which a heartbeat comes and nothing else. */
  lemma HearsBeat(s: Session, moves: seq<Move>, dumps: Payload -> string) returns (more: seq<Move>)
    requires Renders(dumps) && Possible(s, moves, dumps)
    requires !Played(s, moves, dumps).open && Played(s, moves, dumps).kind.Standard?
    ensures Possible(s, more, dumps)
    ensures var m := Played(s, moves, dumps); var end := Played(s, more, dumps);
            && !end.open && end.history == m.history && end.limit == m.limit && end.kind == m.kind
            && end.seen == m.seen && end.memory == ""
  {
    var m := Played(s, moves, dumps);
    OneMore(s, moves, Connect, dumps);
    OneMore(s, moves + [Connect], Pulse, dumps);
    var last := Do(Do(m, Connect, dumps), Pulse, dumps);
    assert last.sent == [Beat];
    WholeReceived(last, dumps);
    more := moves + [Connect] + [Pulse] + [Cut(|Text(last.sent, dumps)|)];
    OneMore(s, moves + [Connect] + [Pulse], Cut(|Text(last.sent, dumps)|), dumps);
  }

  /** The standard's client can see an event twice: a second connection brings a heartbeat, a third the event again. */
  lemma StandardRepeats(dumps: Payload -> string) returns (moves: seq<Move>)
    requires Renders(dumps)
    ensures Possible(NewListener(Standard, 3), moves, dumps)
    ensures var end := Played(NewListener(Standard, 3), moves, dumps);
            && end.history == [QUEUED] && Numbered(end.history)
            && end.seen == [MessageOf(QUEUED, dumps), MessageOf(QUEUED, dumps)]
            && !Exact(end, dumps)
  {
    var s := NewListener(Standard, 3);
    OneMore(s, [], Log(QUEUED), dumps);
    moves := HearsQueued(s, [] + [Log(QUEUED)], dumps);
    moves := HearsBeat(s, moves, dumps);
    moves := HearsQueued(s, moves, dumps);
  }
}
