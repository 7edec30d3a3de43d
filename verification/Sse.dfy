/**
 Progress events on the wire (api/jobs/events.py, api/app/routes/jobs.py) and the client that reads them:
 the event-stream parser of the WHATWG HTML Living Standard, sections 9.2.5 and 9.2.6.
 */
module Sse {
  import opened Prelude
  import opened Jobs

  // ---- decimal numbers ----

  const DIGITS := "0123456789"

  function Dec(n: nat): (s: string)
    ensures |s| > 0
    ensures Digits(s)
  {
    if n < 10 then [DIGITS[n]] else Dec(n / 10) + [DIGITS[n % 10]]
  }

  predicate Digits(s: string) {
    forall k :: 0 <= k < |s| ==> '0' <= s[k] <= '9'
  }

  function Value(s: string): nat
    requires Digits(s)
  {
    if s == "" then 0 else 10 * Value(s[..|s| - 1]) + (s[|s| - 1] as int - '0' as int)
  }

  lemma {:induction false} DecRoundTrip(n: nat)
    ensures Value(Dec(n)) == n
  {
    if n >= 10 {
      DecRoundTrip(n / 10);
      assert Dec(n)[..|Dec(n)| - 1] == Dec(n / 10);
    } else {
      assert Dec(n)[..0] == "";
    }
  }

  /** What a Last-Event-ID header asks for; Rejected is the ValueError of int(). */
  datatype Cursor = FromStart | After(n: nat) | Rejected

  /** str.isdigit on header text: also true of the superscripts two, three and one, which int() refuses. */
  predicate IsDigit(c: char) {
    '0' <= c <= '9' || c == '\U{B2}' || c == '\U{B3}' || c == '\U{B9}'
  }

  /** int() refuses longer texts. */
  const MAX_INT_DIGITS := 4300

  function ParseLastEventId(raw: Option<string>): Cursor {
    if raw.None? || raw.value == "" || !(forall c <- raw.value :: IsDigit(c)) then FromStart
    else if Digits(raw.value) && |raw.value| <= MAX_INT_DIGITS then After(Value(raw.value))
    else Rejected
  }

  // ---- the server's side ----

  function KindName(kind: Status): string {
    match kind
    case Queued => "queued"
    case Running => "running"
    case Succeeded => "succeeded"
    case Failed => "failed"
    case Cancelled => "cancelled"
  }

  predicate Past(e: Event, last: Option<nat>) {
    last.None? || e.id > last.value
  }

  function EventsSince(log: seq<Event>, last: Option<nat>): seq<Event> {
    if log == [] then [] else
      (if Past(log[0], last) then [log[0]] else []) + EventsSince(log[1..], last)
  }

  const BEAT := ": heartbeat\n\n"

  function RenderSse(e: Event, dumps: Payload -> string): string {
    "id: " + Dec(e.id) + "\n" + "event: " + KindName(e.kind) + "\n" + "data: " + dumps(e.data) + "\n" + "\n"
  }

  predicate Break(c: char) {
    c == '\n' || c == '\r'
  }

  predicate OneLine(s: string) {
    forall c <- s :: !Break(c)
  }

  /** json.dumps of an event's data: never empty, never broken over lines. */
  ghost predicate Renders(dumps: Payload -> string) {
    forall p :: OneLine(dumps(p)) && dumps(p) != ""
  }

  // ---- the client's side: section 9.2.6 ----

  datatype Message = Message(kind: string, data: string, lastEventId: string)

  /** The three buffers of a stream, the last event ID string of the event source, and what was dispatched. */
  datatype Client = Client(data: string, kind: string, id: string, lastEventId: string, got: seq<Message>)
  {
    function Dispatch(): Client {
      var noted := this.(lastEventId := id);
      if data == "" then noted.(kind := "")
      else
        var text := if data[|data| - 1] == '\n' then data[..|data| - 1] else data;
        var message := Message(if kind == "" then "message" else kind, text, id);
        noted.(data := "", kind := "", got := got + [message])
    }

    function Field(name: string, value: string): Client {
      if name == "event" then this.(kind := value)
      else if name == "data" then this.(data := data + value + "\n")
      else if name == "id" && '\0' !in value then this.(id := value)
      else this
    }

    function Line(line: string): Client {
      if line == "" then Dispatch()
      else if line[0] == ':' then this
      else
        var k := First(line, c => c == ':');
        if k == |line| then Field(line, "")
        else
          var value := line[k + 1..];
          Field(line[..k], if value != "" && value[0] == ' ' then value[1..] else value)
    }

    /** All complete lines of the text; an unfinished last line is discarded with the stream. */
    function Feed(text: string): Client
      decreases |text|
    {
      var k := First(text, c => Break(c));
      if k == |text| then this
      else
        var skip := if text[k] == '\r' && k + 1 < |text| && text[k + 1] == '\n' then 2 else 1;
        Line(text[..k]).Feed(text[k + skip..])
    }
  }

  /** Index of the first character with the property, or the length. */
  function First(s: string, p: char -> bool): (k: nat)
    ensures k <= |s|
    ensures k < |s| ==> p(s[k])
    ensures forall i :: 0 <= i < k ==> !p(s[i])
  {
    if s == "" || p(s[0]) then 0 else 1 + First(s[1..], p)
  }

  /** Each stream starts with empty buffers; the event source keeps its last event ID string. */
  function Connected(lastEventId: string): Client {
    Client("", "", "", lastEventId, [])
  }

  function MessageOf(e: Event, dumps: Payload -> string): Message {
    Message(KindName(e.kind), dumps(e.data), Dec(e.id))
  }

  // ---- reading what was rendered ----

  lemma FeedLine(c: Client, line: string, rest: string)
    requires OneLine(line)
    ensures c.Feed(line + "\n" + rest) == c.Line(line).Feed(rest)
  {
    var text := line + "\n" + rest;
    var k := First(text, ch => Break(ch));
    forall i | 0 <= i < |line|
      ensures !Break(text[i])
    {
      assert text[i] == line[i];
      assert line[i] in line;
    }
    assert text[|line|] == '\n';
    assert text[..k] == line && text[k + 1..] == rest;
  }

  lemma FieldLine(c: Client, name: string, value: string)
    requires name != "" && ':' !in name
    ensures c.Line(name + ": " + value) == c.Field(name, value)
  {
    var line := name + ": " + value;
    var k := First(line, ch => ch == ':');
    assert line[0] == name[0];
    forall i | 0 <= i < |name|
      ensures line[i] != ':'
    {
      assert line[i] == name[i];
      assert name[i] in name;
    }
    assert line[|name|] == ':';
    assert line[..k] == name && line[k + 1..] == " " + value;
    assert (" " + value)[1..] == value;
  }

  function IdLine(e: Event): string { "id" + ": " + Dec(e.id) }
  function KindLine(e: Event): string { "event" + ": " + KindName(e.kind) }
  function DataLine(e: Event, dumps: Payload -> string): string { "data" + ": " + dumps(e.data) }

  lemma LinesOf(e: Event, dumps: Payload -> string)
    requires Renders(dumps)
    ensures RenderSse(e, dumps) == IdLine(e) + "\n" + (KindLine(e) + "\n" + (DataLine(e, dumps) + "\n" + "\n"))
    ensures OneLine(IdLine(e)) && OneLine(KindLine(e)) && OneLine(DataLine(e, dumps))
  {
    assert OneLine(dumps(e.data));
    assert Digits(Dec(e.id));
    assert OneLine(Dec(e.id)) && OneLine(KindName(e.kind));
  }

  lemma FrameText(e: Event, dumps: Payload -> string, rest: string)
    requires Renders(dumps)
    ensures RenderSse(e, dumps) + rest
         == IdLine(e) + "\n" + (KindLine(e) + "\n" + (DataLine(e, dumps) + "\n" + ("" + "\n" + rest)))
  {
    LinesOf(e, dumps);
  }

  /** With clean buffers, a whole frame is one message and leaves the buffers clean. */
  lemma FrameIsOneMessage(c: Client, e: Event, dumps: Payload -> string, rest: string)
    requires Renders(dumps) && c.data == "" && c.kind == ""
    ensures c.Feed(RenderSse(e, dumps) + rest) == Heard(c, e, dumps).Feed(rest)
  {
    LinesOf(e, dumps);
    FrameText(e, dumps, rest);
    var r3 := "" + "\n" + rest;
    var r2 := DataLine(e, dumps) + "\n" + r3;
    var r1 := KindLine(e) + "\n" + r2;
    FeedLine(c, IdLine(e), r1);
    FieldLine(c, "id", Dec(e.id));
    var c1 := c.Field("id", Dec(e.id));
    FeedLine(c1, KindLine(e), r2);
    FieldLine(c1, "event", KindName(e.kind));
    var c2 := c1.Field("event", KindName(e.kind));
    FeedLine(c2, DataLine(e, dumps), r3);
    FieldLine(c2, "data", dumps(e.data));
    var c3 := c2.Field("data", dumps(e.data));
    FeedLine(c3, "", rest);
    FieldsThenBlank(c, e, dumps);
  }

  function Heard(c: Client, e: Event, dumps: Payload -> string): Client {
    c.(id := Dec(e.id), lastEventId := Dec(e.id), got := c.got + [MessageOf(e, dumps)])
  }

  lemma FieldsThenBlank(c: Client, e: Event, dumps: Payload -> string)
    requires Renders(dumps) && c.data == "" && c.kind == ""
    ensures c.Field("id", Dec(e.id)).Field("event", KindName(e.kind)).Field("data", dumps(e.data)).Line("")
            == Heard(c, e, dumps)
  {
    assert '\0' !in Dec(e.id);
    var c3 := c.Field("id", Dec(e.id)).Field("event", KindName(e.kind)).Field("data", dumps(e.data));
    assert c3.data == dumps(e.data) + "\n";
    assert c3.data[..|c3.data| - 1] == dumps(e.data);
  }

  /** A heartbeat is no message; its blank line makes the event source adopt the stream's id buffer. */
  lemma BeatIsNoMessage(c: Client, rest: string)
    requires c.data == "" && c.kind == ""
    ensures c.Feed(BEAT + rest) == c.(lastEventId := c.id).Feed(rest)
  {
    var beat := ": heartbeat";
    assert BEAT + rest == beat + "\n" + ("" + "\n" + rest);
    FeedLine(c, beat, "" + "\n" + rest);
    FeedLine(c, "", rest);
  }

  // ---- what the names and headers say ----

  /** The event types that the browser listens for, and the states they stand for. */
  function StatusNamed(name: string): Option<Status> {
    if name == "queued" then Some(Queued)
    else if name == "running" then Some(Running)
    else if name == "succeeded" then Some(Succeeded)
    else if name == "failed" then Some(Failed)
    else if name == "cancelled" then Some(Cancelled)
    else None
  }

  /** A message's type is the event's, its data the event's as dumped, and its id the event's in decimal. */
  lemma MessageTells(e: Event, dumps: Payload -> string)
    ensures var m := MessageOf(e, dumps);
            && StatusNamed(m.kind) == Some(e.kind) && m.data == dumps(e.data)
            && Digits(m.lastEventId) && Value(m.lastEventId) == e.id
            && (e.kind.Terminal() <==> m.kind in {"succeeded", "failed", "cancelled"})
  {
    DecRoundTrip(e.id);
  }

  lemma DigitsTells(s: string)
    ensures Digits(s) <==> forall c <- s :: '0' <= c <= '9'
  {
    if forall c <- s :: '0' <= c <= '9' {
      forall k | 0 <= k < |s| ensures '0' <= s[k] <= '9' {
        assert s[k] in s;
      }
    }
  }

  /**
   A number that the stream has sent resumes behind it. No header, and one with any character but digits and the three
   superscripts, starts from the beginning; of the others int() refuses those with a superscript and the long ones.
   */
  lemma CursorTells(raw: Option<string>)
    ensures raw.None? || raw.value == "" ==> ParseLastEventId(raw).FromStart?
    ensures forall n: nat :: raw == Some(Dec(n)) && |Dec(n)| <= 4300 ==> ParseLastEventId(raw) == After(n)
    ensures raw.Some? && raw.value != "" ==>
              && (ParseLastEventId(raw).FromStart? <==>
                    exists c <- raw.value :: !('0' <= c <= '9') && c !in {'\U{B2}', '\U{B3}', '\U{B9}'})
              && (ParseLastEventId(raw).After? <==> |raw.value| <= 4300 && forall c <- raw.value :: '0' <= c <= '9')
  {
    forall n: nat | raw == Some(Dec(n)) && |Dec(n)| <= 4300 ensures ParseLastEventId(raw) == After(n) {
      DecRoundTrip(n);
      assert forall c <- raw.value :: IsDigit(c);
    }
    if raw.Some? {
      DigitsTells(raw.value);
    }
  }
}
