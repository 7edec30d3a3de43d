/**
 Replay and resume: one job's listener over any schedule of appended events, polls, heartbeats, connections
 cut at any character, and reconnections with the last id seen (api/app/routes/jobs.py:74-75, 128-157).
 */
module SseReplay {
  import opened Prelude
  import opened Jobs
  import opened Sse
  import J = JobInvariant

  // ---- any prefix of the wire ----

  datatype Item = Frame(event: Event) | Beat

  function TextOf(item: Item, dumps: Payload -> string): string {
    match item
    case Frame(e) => RenderSse(e, dumps)
    case Beat => BEAT
  }

  function Text(items: seq<Item>, dumps: Payload -> string): string {
    if items == [] then "" else TextOf(items[0], dumps) + Text(items[1..], dumps)
  }

  /** How many items lie wholly within the first n characters. */
  function Whole(items: seq<Item>, n: nat, dumps: Payload -> string): (k: nat)
    ensures k <= |items|
  {
    if items == [] || n < |TextOf(items[0], dumps)| then 0
    else 1 + Whole(items[1..], n - |TextOf(items[0], dumps)|, dumps)
  }

  function Hear(c: Client, item: Item, dumps: Payload -> string): Client {
    match item
    case Frame(e) => Heard(c, e, dumps)
    case Beat => c.(lastEventId := c.id)
  }

  function HearAll(c: Client, items: seq<Item>, dumps: Payload -> string): Client
    decreases |items|
  {
    if items == [] then c else HearAll(Hear(c, items[0], dumps), items[1..], dumps)
  }

  function Join(lines: seq<string>): string {
    if lines == [] then "" else lines[0] + "\n" + Join(lines[1..])
  }

  /** Without a blank line nothing is dispatched, wherever the text ends. */
  lemma {:induction false} NoBlankNoMessage(c: Client, lines: seq<string>, text: string)
    requires forall line <- lines :: line != "" && OneLine(line)
    requires text <= Join(lines)
    ensures c.Feed(text).got == c.got && c.Feed(text).lastEventId == c.lastEventId
    decreases |lines|
  {
    if lines != [] {
      assert lines[0] in lines;
      if |text| > |lines[0]| {
        var rest := text[|lines[0]| + 1..];
        SplitLine(lines, text);
        FeedLine(c, lines[0], rest);
        LineIsQuiet(c, lines[0]);
        assert forall line <- lines[1..] :: line in lines;
        NoBlankNoMessage(c.Line(lines[0]), lines[1..], rest);
      } else {
        assert text <= lines[0];
        NoBreakNoLine(c, lines[0], text);
      }
    }
  }

  lemma SplitLine(lines: seq<string>, text: string)
    requires lines != [] && text <= Join(lines) && |text| > |lines[0]|
    ensures text == lines[0] + "\n" + text[|lines[0]| + 1..]
    ensures text[|lines[0]| + 1..] <= Join(lines[1..])
  {
    var joined := lines[0] + "\n" + Join(lines[1..]);
    assert text == joined[..|text|];
    assert text[..|lines[0]|] == lines[0];
    assert joined[|lines[0]| + 1..] == Join(lines[1..]);
  }

  lemma LineIsQuiet(c: Client, line: string)
    requires line != ""
    ensures c.Line(line).got == c.got && c.Line(line).lastEventId == c.lastEventId
  {
  }

  lemma NoBreakNoLine(c: Client, line: string, text: string)
    requires OneLine(line) && text <= line
    ensures c.Feed(text) == c
  {
    assert forall i :: 0 <= i < |text| ==> text[i] == line[i];
    assert forall i :: 0 <= i < |text| ==> line[i] in line;
    assert First(text, ch => Break(ch)) == |text|;
  }

  lemma TornItemIsSilent(c: Client, item: Item, dumps: Payload -> string, text: string)
    requires Renders(dumps) && text <= TextOf(item, dumps) && text != TextOf(item, dumps)
    ensures c.Feed(text).got == c.got && c.Feed(text).lastEventId == c.lastEventId
  {
    match item
    case Frame(e) =>
      LinesOf(e, dumps);
      var lines := [IdLine(e), KindLine(e), DataLine(e, dumps)];
      JoinThree(lines[0], lines[1], lines[2]);
      assert TextOf(item, dumps) == Join(lines) + "\n";
      assert text <= Join(lines);
      NoBlankNoMessage(c, lines, text);
    case Beat =>
      var lines := [": heartbeat"];
      assert Join(lines) == ": heartbeat" + "\n" + Join(lines[1..]);
      assert BEAT == Join(lines) + "\n";
      assert text <= Join(lines);
      NoBlankNoMessage(c, lines, text);
  }

  lemma JoinThree(a: string, b: string, c: string)
    ensures Join([a, b, c]) == a + "\n" + (b + "\n" + (c + "\n"))
  {
    assert [a, b, c][1..] == [b, c];
    assert [b, c][1..] == [c];
    assert Join([c]) == c + "\n";
  }

  predicate Clean(c: Client) {
    c.data == "" && c.kind == ""
  }

  lemma ItemHeard(c: Client, item: Item, dumps: Payload -> string, rest: string)
    requires Renders(dumps) && Clean(c)
    ensures c.Feed(TextOf(item, dumps) + rest) == Hear(c, item, dumps).Feed(rest)
  {
    match item
    case Frame(e) => FrameIsOneMessage(c, e, dumps, rest);
    case Beat => BeatIsNoMessage(c, rest);
  }

  lemma HearsFirst(c: Client, items: seq<Item>, k: nat, dumps: Payload -> string)
    requires 1 <= k <= |items|
    ensures HearAll(c, items[..k], dumps) == HearAll(Hear(c, items[0], dumps), items[1..][..k - 1], dumps)
  {
    assert items[..k][1..] == items[1..][..k - 1];
  }

  lemma CutText(items: seq<Item>, dumps: Payload -> string, n: nat)
    requires items != [] && n <= |Text(items, dumps)|
    ensures var t := TextOf(items[0], dumps);
            Text(items, dumps)[..n] == if n < |t| then t[..n] else t + Text(items[1..], dumps)[..n - |t|]
  {
    TakeOfJoined(TextOf(items[0], dumps), Text(items[1..], dumps), n);
  }

  lemma TakeOfJoined(t: string, rest: string, n: nat)
    requires n <= |t + rest|
    ensures (t + rest)[..n] == if n < |t| then t[..n] else t + rest[..n - |t|]
  {
  }

  /** A stream cut after any number of characters delivers exactly its whole items. */
  lemma {:induction false} CutAnywhere(c: Client, items: seq<Item>, dumps: Payload -> string, n: nat)
    requires Renders(dumps) && Clean(c) && n <= |Text(items, dumps)|
    ensures var heard := c.Feed(Text(items, dumps)[..n]);
            var whole := HearAll(c, items[..Whole(items, n, dumps)], dumps);
            heard.got == whole.got && heard.lastEventId == whole.lastEventId
    decreases |items|
  {
    if items != [] {
      var item, tail := items[0], items[1..];
      var t := TextOf(item, dumps);
      CutText(items, dumps, n);
      if n < |t| {
        TornItemIsSilent(c, item, dumps, t[..n]);
      } else {
        ItemHeard(c, item, dumps, Text(tail, dumps)[..n - |t|]);
        CutAnywhere(Hear(c, item, dumps), tail, dumps, n - |t|);
        HearsFirst(c, items, Whole(items, n, dumps), dumps);
      }
    }
  }

  function EventsOf(items: seq<Item>): seq<Event> {
    if items == [] then [] else (if items[0].Frame? then [items[0].event] else []) + EventsOf(items[1..])
  }

  function Messages(events: seq<Event>, dumps: Payload -> string): seq<Message> {
    if events == [] then [] else [MessageOf(events[0], dumps)] + Messages(events[1..], dumps)
  }

  lemma {:induction false} HearAllIsMessages(c: Client, items: seq<Item>, dumps: Payload -> string)
    ensures HearAll(c, items, dumps).got == c.got + Messages(EventsOf(items), dumps)
    decreases |items|
  {
    if items != [] {
      HearAllIsMessages(Hear(c, items[0], dumps), items[1..], dumps);
      if items[0].Frame? {
        assert EventsOf(items) == [items[0].event] + EventsOf(items[1..]);
        assert EventsOf(items)[1..] == EventsOf(items[1..]);
        assert Messages(EventsOf(items), dumps)
               == [MessageOf(items[0].event, dumps)] + Messages(EventsOf(items[1..]), dumps);
      } else {
        assert EventsOf(items) == EventsOf(items[1..]);
      }
    }
  }

  lemma {:induction false} EventsOfPrefix(items: seq<Item>, k: nat)
    requires k <= |items|
    ensures EventsOf(items[..k]) <= EventsOf(items)
  {
    if k > 0 {
      EventsOfPrefix(items[1..], k - 1);
      assert items[..k][1..] == items[1..][..k - 1];
    } else {
      assert items[..k] == [];
    }
  }

  lemma {:induction false} EventsOfAppend(items: seq<Item>, item: Item)
    ensures EventsOf(items + [item]) == EventsOf(items) + (if item.Frame? then [item.event] else [])
  {
    if items == [] {
      assert [item][1..] == [];
    } else {
      EventsOfAppend(items[1..], item);
      assert (items + [item])[1..] == items[1..] + [item];
    }
  }

  // ---- the standard's own cursor ----

  /**
   The event source's last event ID string after a connection. A blank line adopts the stream's id buffer,
   which a new stream starts empty: a heartbeat before any event makes the client forget its position.
   */
  function StandardCursor(before: string, items: seq<Item>): string {
    var events := EventsOf(items);
    if events != [] then Dec(events[|events| - 1].id)
    else if items != [] then "" else before
  }

  lemma {:induction false} HearAllCursor(c: Client, items: seq<Item>, dumps: Payload -> string)
    ensures HearAll(c, items, dumps).lastEventId ==
              (if EventsOf(items) != [] then Dec(EventsOf(items)[|EventsOf(items)| - 1].id)
               else if items != [] then c.id else c.lastEventId)
    decreases |items|
  {
    if items != [] {
      HearAllCursor(Hear(c, items[0], dumps), items[1..], dumps);
    }
  }

  /**
   The standard's cursor survives a connection with its position exactly if the position was empty, an event
   arrived, or not even a heartbeat did; then it is the last id seen. Otherwise it is empty: replay from start.
   */
  lemma StandardForgets(before: string, items: seq<Item>, dumps: Payload -> string, n: nat)
    requires Renders(dumps) && n <= |Text(items, dumps)|
    ensures var whole := items[..Whole(items, n, dumps)]; var events := EventsOf(whole);
            var heard := Connected(before).Feed(Text(items, dumps)[..n]);
            var lastSeen := if events != [] then Dec(events[|events| - 1].id) else before;
            && heard.lastEventId == StandardCursor(before, whole)
            && (heard.lastEventId == lastSeen <==> before == "" || events != [] || whole == [])
            && (heard.lastEventId != lastSeen ==> heard.lastEventId == "")
  {
    CutAnywhere(Connected(before), items, dumps, n);
    HearAllCursor(Connected(before), items[..Whole(items, n, dumps)], dumps);
  }

  // ---- the server's generator ----

  predicate TerminalKind(e: Event) {
    e.kind.Terminal()
  }

  /** What one sweep over the retained log yields: the events past the cursor, up to a terminal one. */
  function Yielded(events: seq<Event>): seq<Event> {
    if events == [] then []
    else if TerminalKind(events[0]) then [events[0]]
    else [events[0]] + Yielded(events[1..])
  }

  lemma {:induction false} YieldedSplit(events: seq<Event>, k: nat)
    requires k <= |events| && forall j :: 0 <= j < k ==> !TerminalKind(events[j])
    ensures Yielded(events) == events[..k] + Yielded(events[k..])
  {
    if k > 0 {
      YieldedSplit(events[1..], k - 1);
      assert events[..k] == [events[0]] + events[1..][..k - 1];
      assert events[1..][k - 1..] == events[k..];
    }
  }

  function OneMore(events: seq<Event>, k: nat, out: seq<Event>): (more: seq<Event>)
    requires k < |events| && out == events[..k]
    ensures more == events[..k + 1] && |more| == k + 1 && more[k] == events[k]
  {
    out + [events[k]]
  }

  /** A sweep that went n events far, to the end or to the first terminal one, has yielded just those. */
  lemma SweptTo(events: seq<Event>, n: nat)
    requires n <= |events| && forall j :: 0 <= j < n - 1 ==> !TerminalKind(events[j])
    requires if n > 0 && TerminalKind(events[n - 1]) then true else n == |events|
    ensures Yielded(events) == events[..n]
  {
    if n > 0 {
      YieldedSplit(events, n - 1);
      assert events[n - 1..][0] == events[n - 1];
      if n == |events| && !TerminalKind(events[n - 1]) {
        assert events[n - 1..][1..] == [];
      }
      assert events[..n] == events[..n - 1] + [events[n - 1]];
    }
  }

  class EventStream {
    var lastId: Option<nat>
    var lastBeat: real
    const heartbeatSeconds: real

    constructor (lastId: Option<nat>, now: real, heartbeatSeconds: real)
      ensures this.lastId == lastId && lastBeat == now && this.heartbeatSeconds == heartbeatSeconds
    {
      this.lastId, lastBeat, this.heartbeatSeconds := lastId, now, heartbeatSeconds;
    }

    /** The for loop of _event_stream on one snapshot: yields, moves the cursor, returns after a terminal event. */
    method Sweep(log: seq<Event>) returns (out: seq<Event>, ended: bool)
      modifies this`lastId
      ensures out == Yielded(EventsSince(log, old(lastId)))
      ensures lastId == if out == [] then old(lastId) else Some(out[|out| - 1].id)
      ensures ended <==> out != [] && TerminalKind(out[|out| - 1])
    {
      var events := EventsSince(log, lastId);
      out, ended := [], false;
      for k := 0 to |events|
        invariant out == events[..k] && !ended
        invariant forall j :: 0 <= j < k ==> !TerminalKind(events[j])
        invariant lastId == if out == [] then old(lastId) else Some(out[|out| - 1].id)
      {
        lastId := Some(events[k].id);
        out := OneMore(events, k, out);
        if TerminalKind(events[k]) {
          SweptTo(events, k + 1);
          ended := true;
          return;
        }
      }
      SweptTo(events, |events|);
    }

    /** One turn of the while loop. */
    method Turn(t: Turn) returns (sent: seq<Item>, beats: seq<real>, ended: bool)
      modifies this`lastId, this`lastBeat
      ensures Turned(sent, beats, lastId, lastBeat, ended) == TurnOf(old(lastId), old(lastBeat), heartbeatSeconds, t)
    {
      var out, terminal := Sweep(t.log);
      sent, beats, ended := Frames(out), [], terminal || t.gone;
      if !ended && t.now - lastBeat >= heartbeatSeconds {
        sent := sent + [Beat];
        beats := [t.now];
        lastBeat := t.now;
      }
    }

    /** _event_stream over the turns that the world gives it. */
    method Follow(turns: seq<Turn>) returns (trail: Trail)
      modifies this`lastId, this`lastBeat
      ensures trail == Trailed(old(lastId), old(lastBeat), heartbeatSeconds, turns)
    {
      var sent, beats := [], [];
      var k := 0;
      assert turns[0..] == turns;
      while k < |turns|
        invariant 0 <= k <= |turns|
        invariant Trailed(old(lastId), old(lastBeat), heartbeatSeconds, turns)
               == Joined(sent, beats, Trailed(lastId, lastBeat, heartbeatSeconds, turns[k..]))
      {
        NextTurn(lastId, lastBeat, heartbeatSeconds, turns, k, sent, beats);
        var more, later, ended := Turn(turns[k]);
        sent, beats := sent + more, beats + later;
        if ended {
          return Trail(sent, beats, true);
        }
        k := k + 1;
      }
      trail := Trail(sent, beats, false);
    }
  }

  /** One turn of the loop: the log it reads, whether the client is found gone, and the clock after that. */
  datatype Turn = Turn(log: seq<Event>, gone: bool, now: real)

  /** What a stream yields, the instants of its heartbeats, and whether it has ended. */
  datatype Trail = Trail(sent: seq<Item>, beats: seq<real>, ended: bool)

  function Frames(events: seq<Event>): seq<Item> {
    seq(|events|, i requires 0 <= i < |events| => Frame(events[i]))
  }

  function Joined(sent: seq<Item>, beats: seq<real>, rest: Trail): Trail {
    Trail(sent + rest.sent, beats + rest.beats, rest.ended)
  }

  /** What one turn yields, and cursor and beat clock after it. */
  datatype Turned = Turned(sent: seq<Item>, beats: seq<real>, lastId: Option<nat>, lastBeat: real, ended: bool)

  function TurnOf(lastId: Option<nat>, lastBeat: real, every: real, turn: Turn): Turned {
    AfterSweep(Yielded(EventsSince(turn.log, lastId)), lastId, lastBeat, every, turn)
  }

  /** The turn, when its sweep has yielded out. */
  function AfterSweep(out: seq<Event>, lastId: Option<nat>, lastBeat: real, every: real, turn: Turn): Turned {
    var next := if out == [] then lastId else Some(out[|out| - 1].id);
    if (out != [] && TerminalKind(out[|out| - 1])) || turn.gone then Turned(Frames(out), [], next, lastBeat, true)
    else if turn.now - lastBeat >= every then Turned(Frames(out) + [Beat], [turn.now], next, turn.now, false)
    else Turned(Frames(out), [], next, lastBeat, false)
  }

  function Trailed(lastId: Option<nat>, lastBeat: real, every: real, turns: seq<Turn>): Trail
    decreases |turns|
  {
    if turns == [] then Trail([], [], false)
    else
      var t := TurnOf(lastId, lastBeat, every, turns[0]);
      if t.ended then Trail(t.sent, t.beats, true)
      else Joined(t.sent, t.beats, Trailed(t.lastId, t.lastBeat, every, turns[1..]))
  }

  lemma JoinedTwice(sent: seq<Item>, beats: seq<real>, more: seq<Item>, later: seq<real>, rest: Trail)
    ensures Joined(sent, beats, Joined(more, later, rest)) == Joined(sent + more, beats + later, rest)
  {
  }

  /** The turn at k, after what was yielded before it. */
  lemma NextTurn(lastId: Option<nat>, lastBeat: real, every: real, turns: seq<Turn>, k: nat,
                 sent: seq<Item>, beats: seq<real>)
    requires k < |turns|
    ensures var t := TurnOf(lastId, lastBeat, every, turns[k]);
            Joined(sent, beats, Trailed(lastId, lastBeat, every, turns[k..]))
            == (if t.ended then Trail(sent + t.sent, beats + t.beats, true)
                else Joined(sent + t.sent, beats + t.beats, Trailed(t.lastId, t.lastBeat, every, turns[k + 1..])))
  {
    var t := TurnOf(lastId, lastBeat, every, turns[k]);
    var here := turns[k..];
    assert here[0] == turns[k] && here[1..] == turns[k + 1..];
    if !t.ended {
      JoinedTwice(sent, beats, t.sent, t.beats, Trailed(t.lastId, t.lastBeat, every, turns[k + 1..]));
    }
  }

  /** The clock does not run back, and from one turn to the next it runs no further than a poll. */
  ghost predicate Ticks(from: real, turns: seq<Turn>, poll: real)
    decreases |turns|
  {
    turns == [] || (from <= turns[0].now <= from + poll && Ticks(turns[0].now, turns[1..], poll))
  }

  /** The instants follow last, and one another, no closer than every and no further apart than longest. */
  ghost predicate Paced(last: real, beats: seq<real>, every: real, longest: real)
    decreases |beats|
  {
    beats == [] || (last + every <= beats[0] <= last + longest && Paced(beats[0], beats[1..], every, longest))
  }

  function LastOf(last: real, beats: seq<real>): real {
    if beats == [] then last else beats[|beats| - 1]
  }

  /** every, or nothing for an interval of nothing or less, and one poll. */
  function Longest(every: real, poll: real): real {
    (if every > 0.0 then every else 0.0) + poll
  }

  lemma {:induction false} Beating(lastId: Option<nat>, last: real, every: real, turns: seq<Turn>, at: real, poll: real)
    requires Ticks(at, turns, poll) && last <= at && (at == last || at - last < every)
    ensures var trail := Trailed(lastId, last, every, turns);
            && Paced(last, trail.beats, every, Longest(every, poll))
            && (!trail.ended ==> Recent(last, trail.beats, every, at, turns))
    decreases |turns|
  {
    if turns != [] {
      var t := TurnOf(lastId, last, every, turns[0]);
      if !t.ended {
        var now := turns[0].now;
        Beating(t.lastId, t.lastBeat, every, turns[1..], now, poll);
        var later := Trailed(t.lastId, t.lastBeat, every, turns[1..]);
        Paces(last, t.beats, later.beats, now, every, Longest(every, poll));
        assert Trailed(lastId, last, every, turns).beats == t.beats + later.beats;
      }
    }
  }

  lemma Paces(last: real, now: seq<real>, later: seq<real>, at: real, every: real, longest: real)
    requires now == [] || (now == [at] && last + every <= at <= last + longest)
    requires Paced(LastOf(last, now), later, every, longest)
    ensures Paced(last, now + later, every, longest) && LastOf(last, now + later) == LastOf(LastOf(last, now), later)
  {
    if now == [] {
      assert now + later == later;
    } else {
      assert (now + later)[1..] == later;
    }
  }

  /** The last beat, or the opening, is the last turn or less than an interval before it. */
  predicate Recent(last: real, beats: seq<real>, every: real, at: real, turns: seq<Turn>) {
    var now := if turns == [] then at else turns[|turns| - 1].now;
    now == LastOf(last, beats) || now - LastOf(last, beats) < every
  }

  /**
   Heartbeats are never closer than the interval and, where the clock advances by at most a poll from turn to
   turn, never further apart than the interval and one poll; and a stream that has not ended has had one, or was
   opened, less than an interval before its last turn. Other frames neither cause nor delay them.
   */
  lemma NeverSilent(cursor: Option<nat>, begin: real, every: real, turns: seq<Turn>, poll: real)
    requires Ticks(begin, turns, poll)
    ensures var trail := Trailed(cursor, begin, every, turns);
            && Paced(begin, trail.beats, every, Longest(every, poll))
            && (!trail.ended ==> Recent(begin, trail.beats, every, begin, turns))
  {
    Beating(cursor, begin, every, turns, begin, poll);
  }

  // ---- what the job's log looks like ----

  /** Numbered from one, by numbers that int() reads; nothing after a terminal event. */
  ghost predicate Numbered(history: seq<Event>) {
    && (forall k :: 0 <= k < |history| ==> history[k].id == k + 1)
    && (forall k :: 0 <= k < |history| - 1 ==> !TerminalKind(history[k]))
    && |Dec(|history|)| <= MAX_INT_DIGITS
  }

  lemma {:induction false} LongerNumbers(a: nat, b: nat)
    requires a <= b
    ensures |Dec(a)| <= |Dec(b)|
  {
    if a >= 10 {
      LongerNumbers(a / 10, b / 10);
    }
  }

  lemma BeginningIsNumbered(history: seq<Event>, n: nat)
    requires Numbered(history) && n <= |history|
    ensures Numbered(history[..n])
  {
    LongerNumbers(n, |history|);
  }

  /** Every log of the job store is numbered that way, and has at most three events. */
  lemma GrammarIsNumbered(log: seq<Event>)
    requires J.Grammar(log)
    ensures Numbered(log) && |log| <= 3
  {
    LongerNumbers(|log|, 3);
  }

  /** A stretch of the history: the events numbered lo + 1 to hi. */
  predicate Stretch(history: seq<Event>, events: seq<Event>, lo: nat, hi: nat) {
    lo <= hi <= |history| && events == history[lo..hi]
  }

  function At(cursor: Option<nat>): nat {
    if cursor.None? then 0 else cursor.value
  }

  lemma {:induction false} SinceIsTail(log: seq<Event>, first: nat, cursor: Option<nat>)
    requires forall k :: 0 <= k < |log| ==> log[k].id == first + k + 1
    ensures EventsSince(log, cursor) ==
              (if At(cursor) <= first then log else if At(cursor) <= first + |log| then log[At(cursor) - first..]
               else [])
  {
    if log != [] {
      SinceIsTail(log[1..], first + 1, cursor);
    }
  }

  /**
   A listener before the terminal event gets everything retained past its cursor and then, whatever the limit,
   the terminal event, which ends the sweep; a listener at or past the terminal event gets nothing, forever.
   */
  lemma TerminalIsReached(history: seq<Event>, limit: nat, cursor: Option<nat>)
    requires Numbered(history) && history != [] && TerminalKind(history[|history| - 1]) && limit >= 1
    ensures var out := Yielded(EventsSince(Suffix(history, limit), cursor));
            var first := if |history| > limit then |history| - limit else 0;
            && (At(cursor) < |history| ==> out == history[if At(cursor) > first then At(cursor) else first..])
            && (At(cursor) < |history| <==> out != [])
            && (At(cursor) < |history| <==> out != [] && TerminalKind(out[|out| - 1]))
  {
    RetainedSince(history, limit, cursor);
    if At(cursor) < |history| {
      var first := if |history| > limit then |history| - limit else 0;
      TailEnds(history, if At(cursor) > first then At(cursor) else first);
    }
  }

  lemma TailEnds(history: seq<Event>, from: nat)
    requires Numbered(history) && from < |history| && TerminalKind(history[|history| - 1])
    ensures Yielded(history[from..]) == history[from..]
  {
    var tail := history[from..];
    forall k | 0 <= k < |tail| - 1 ensures !TerminalKind(tail[k]) {
      assert tail[k] == history[from + k];
    }
    YieldedToTheEnd(tail);
  }

  lemma RetainedSince(history: seq<Event>, limit: nat, cursor: Option<nat>)
    requires Numbered(history)
    ensures var first := if |history| > limit then |history| - limit else 0;
            EventsSince(Suffix(history, limit), cursor) ==
            (if At(cursor) >= |history| then [] else history[if At(cursor) > first then At(cursor) else first..])
  {
    var first := if |history| > limit then |history| - limit else 0;
    var log := Suffix(history, limit);
    assert log == history[first..];
    SinceIsTail(log, first, cursor);
    if first < At(cursor) < |history| {
      assert log[At(cursor) - first..] == history[At(cursor)..];
    }
  }

  lemma YieldedToTheEnd(events: seq<Event>)
    requires events != [] && TerminalKind(events[|events| - 1])
    requires forall k :: 0 <= k < |events| - 1 ==> !TerminalKind(events[k])
    ensures Yielded(events) == events
  {
    var last := [events[|events| - 1]];
    YieldedSplit(events, |events| - 1);
    assert events[|events| - 1..] == last;
    assert Yielded(last) == last;
  }

  lemma {:induction false} MessagesAppend(a: seq<Event>, b: seq<Event>, dumps: Payload -> string)
    ensures Messages(a + b, dumps) == Messages(a, dumps) + Messages(b, dumps)
  {
    if a == [] {
      assert a + b == b;
    } else {
      var whole := a + b;
      assert whole[1..] == a[1..] + b;
      MessagesAppend(a[1..], b, dumps);
      assert Messages(whole, dumps) == [MessageOf(a[0], dumps)] + Messages(whole[1..], dumps);
    }
  }

  lemma {:induction false} MessagesAt(events: seq<Event>, dumps: Payload -> string)
    ensures |Messages(events, dumps)| == |events|
    ensures forall k :: 0 <= k < |events| ==> Messages(events, dumps)[k] == MessageOf(events[k], dumps)
  {
    if events != [] {
      MessagesAt(events[1..], dumps);
    }
  }

  // ---- what the loop delivers ----

  /** The logs of the turns are beginnings of one history, each at least as long as the one before. */
  predicate Grows(turns: seq<Turn>, sizes: seq<nat>, history: seq<Event>, limit: nat, from: nat)
    decreases |turns|
  {
    && |sizes| == |turns|
    && (turns == [] ||
        (from <= sizes[0] <= |history| && turns[0].log == Suffix(history[..sizes[0]], limit)
         && Grows(turns[1..], sizes[1..], history, limit, sizes[0])))
  }

  lemma {:induction false} FramesAreEvents(events: seq<Event>)
    ensures EventsOf(Frames(events)) == events && EventsOf(Frames(events) + [Beat]) == events
  {
    if events != [] {
      FramesAreEvents(events[1..]);
      assert Frames(events) == [Frame(events[0])] + Frames(events[1..]);
      assert Frames(events)[1..] == Frames(events[1..]);
    }
    EventsOfAppend(Frames(events), Beat);
  }

  lemma {:induction false} EventsOfJoined(a: seq<Item>, b: seq<Item>)
    ensures EventsOf(a + b) == EventsOf(a) + EventsOf(b)
  {
    if a == [] {
      assert a + b == b;
    } else {
      TailJoined(a, b);
      EventsOfJoined(a[1..], b);
      Associates(if a[0].Frame? then [a[0].event] else [], EventsOf(a[1..]), EventsOf(b));
    }
  }

  lemma TailJoined(a: seq<Item>, b: seq<Item>)
    requires a != []
    ensures a + b != [] && (a + b)[0] == a[0] && (a + b)[1..] == a[1..] + b
  {
  }

  lemma Associates<T>(x: seq<T>, y: seq<T>, z: seq<T>)
    ensures x + y + z == x + (y + z)
  {
  }

  lemma {:induction false} YieldedWhole(events: seq<Event>)
    requires forall k :: 0 <= k < |events| - 1 ==> !TerminalKind(events[k])
    ensures Yielded(events) == events
  {
    if |events| > 1 {
      YieldedWhole(events[1..]);
    }
  }

  lemma NoEarlyEnd(history: seq<Event>, c: nat, n: nat)
    requires Numbered(history) && c <= n <= |history|
    ensures Yielded(history[c..n]) == history[c..n]
  {
    var events := history[c..n];
    forall k | 0 <= k < |events| - 1 ensures !TerminalKind(events[k]) {
      assert events[k] == history[c + k];
    }
    YieldedWhole(events);
  }

  /** A sweep over a log without an early terminal event yields all of it that is new. */
  lemma SweepYields(history: seq<Event>, n: nat, limit: nat, lastId: Option<nat>)
    requires Numbered(history) && n <= |history| <= limit
    ensures var c := At(lastId);
            Yielded(EventsSince(Suffix(history[..n], limit), lastId)) == if c <= n then history[c..n] else []
  {
    NewOnes(history, n, limit, lastId);
    if At(lastId) <= n {
      NoEarlyEnd(history, At(lastId), n);
    }
  }

  lemma NewOnes(history: seq<Event>, n: nat, limit: nat, lastId: Option<nat>)
    requires Numbered(history) && n <= |history| <= limit
    ensures var c := At(lastId);
            EventsSince(Suffix(history[..n], limit), lastId) == if c <= n then history[c..n] else []
  {
    BeginningIsNumbered(history, n);
    SinceIsTail(history[..n], 0, lastId);
    if At(lastId) <= n {
      assert history[..n][At(lastId)..] == history[At(lastId)..n];
    }
  }

  function Later(c: nat, n: nat): nat {
    if n > c then n else c
  }

  lemma StretchEnds(history: seq<Event>, c: nat, n: nat, out: seq<Event>)
    requires Numbered(history) && c <= |history| && n <= |history| && out == if c <= n then history[c..n] else []
    ensures out == history[c..Later(c, n)] && (out != [] <==> n > c)
    ensures out != [] ==> out[|out| - 1] == history[n - 1] && out[|out| - 1].id == n
  {
  }

  /** What a turn yields of the history, from the cursor to the end of the log, and where the cursor is then. */
  lemma TurnYields(lastId: Option<nat>, lastBeat: real, every: real, turn: Turn, history: seq<Event>, n: nat,
                   limit: nat)
    requires Numbered(history) && n <= |history| <= limit && turn.log == Suffix(history[..n], limit)
    requires At(lastId) <= |history|
    ensures var t := TurnOf(lastId, lastBeat, every, turn); var to := Later(At(lastId), n);
            && EventsOf(t.sent) == history[At(lastId)..to] && At(t.lastId) == to
            && (t.ended <==> turn.gone || (n > At(lastId) && TerminalKind(history[n - 1])))
  {
    var out := SweptOut(lastId, turn, history, n, limit);
    AfterYields(out, lastId, lastBeat, every, turn, history, n);
  }

  lemma AfterYields(out: seq<Event>, lastId: Option<nat>, lastBeat: real, every: real, turn: Turn,
                    history: seq<Event>, n: nat)
    requires n <= |history| && At(lastId) <= |history|
    requires out == history[At(lastId)..Later(At(lastId), n)] && (out != [] <==> n > At(lastId))
    requires out != [] ==> out[|out| - 1] == history[n - 1] && out[|out| - 1].id == n
    ensures var t := AfterSweep(out, lastId, lastBeat, every, turn); var to := Later(At(lastId), n);
            && EventsOf(t.sent) == history[At(lastId)..to] && At(t.lastId) == to
            && (t.ended <==> turn.gone || (n > At(lastId) && TerminalKind(history[n - 1])))
  {
    FramesAreEvents(out);
  }

  lemma SweptOut(lastId: Option<nat>, turn: Turn, history: seq<Event>, n: nat, limit: nat) returns (out: seq<Event>)
    requires Numbered(history) && n <= |history| <= limit && turn.log == Suffix(history[..n], limit)
    requires At(lastId) <= |history|
    ensures out == Yielded(EventsSince(turn.log, lastId))
    ensures out == history[At(lastId)..Later(At(lastId), n)] && (out != [] <==> n > At(lastId))
    ensures out != [] ==> out[|out| - 1] == history[n - 1] && out[|out| - 1].id == n
  {
    out := Yielded(EventsSince(turn.log, lastId));
    SweepYields(history, n, limit, lastId);
    StretchEnds(history, At(lastId), n, out);
  }

  /** Where the loop has got, of a history: the last log's end if it goes on, and a reason to end if it does not. */
  ghost predicate Delivers(history: seq<Event>, c: nat, to: nat, trail: Trail, turns: seq<Turn>, sizes: seq<nat>)
    requires |sizes| == |turns|
  {
    && c <= to <= |history| && EventsOf(trail.sent) == history[c..to]
    && (!trail.ended && turns != [] ==> to >= sizes[|turns| - 1])
    && (trail.ended ==> Gone(turns) || (to > c && TerminalKind(history[to - 1])))
  }

  predicate Gone(turns: seq<Turn>) {
    exists k :: 0 <= k < |turns| && turns[k].gone
  }

  lemma DeliversOn(history: seq<Event>, c: nat, mid: nat, to: nat, first: seq<Item>, beats: seq<real>, rest: Trail,
                   turns: seq<Turn>, sizes: seq<nat>)
    requires turns != [] && |sizes| == |turns| && c <= mid && mid >= sizes[0] && mid <= |history|
    requires EventsOf(first) == history[c..mid] && Delivers(history, mid, to, rest, turns[1..], sizes[1..])
    ensures Delivers(history, c, to, Joined(first, beats, rest), turns, sizes)
  {
    EventsOfJoined(first, rest.sent);
    assert history[c..mid] + history[mid..to] == history[c..to];
    if Gone(turns[1..]) {
      var k :| 0 <= k < |turns[1..]| && turns[1..][k].gone;
      assert turns[k + 1].gone;
    }
  }

  /**
   With a log that retains the history, the loop sends the history from its cursor on, each event once and in order:
   up to the end of the last log it read, as long as it goes on; and it ends only after the terminal event, or when
   the client is gone.
   */
  lemma {:induction false} FollowDelivers(lastId: Option<nat>, lastBeat: real, every: real, turns: seq<Turn>,
                                          sizes: seq<nat>, history: seq<Event>, limit: nat, from: nat)
    returns (to: nat, trail: Trail)
    requires Numbered(history) && |history| <= limit && At(lastId) <= |history|
    requires Grows(turns, sizes, history, limit, from)
    ensures trail == Trailed(lastId, lastBeat, every, turns)
    ensures Delivers(history, At(lastId), to, trail, turns, sizes)
    decreases |turns|
  {
    if turns == [] {
      to, trail := At(lastId), Trail([], [], false);
    } else {
      var t := TurnOf(lastId, lastBeat, every, turns[0]);
      TurnYields(lastId, lastBeat, every, turns[0], history, sizes[0], limit);
      if t.ended {
        to, trail := At(t.lastId), Trail(t.sent, t.beats, true);
        DeliversAtEnd(history, At(lastId), to, trail, turns, sizes);
      } else {
        to, trail := FollowDelivers(t.lastId, t.lastBeat, every, turns[1..], sizes[1..], history, limit, sizes[0]);
        DeliversOn(history, At(lastId), At(t.lastId), to, t.sent, t.beats, trail, turns, sizes);
        trail := Joined(t.sent, t.beats, trail);
      }
    }
  }

  lemma DeliversAtEnd(history: seq<Event>, c: nat, to: nat, trail: Trail, turns: seq<Turn>, sizes: seq<nat>)
    requires turns != [] && |sizes| == |turns| && trail.ended
    requires c <= to <= |history| && EventsOf(trail.sent) == history[c..to]
    requires turns[0].gone || (to > c && TerminalKind(history[to - 1]))
    ensures Delivers(history, c, to, trail, turns, sizes)
  {
    assert turns[0].gone ==> Gone(turns);
  }
}
