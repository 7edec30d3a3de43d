/**
 The JSON text of a delivered song (api/compat/minimax.py:163-173, api/transcode/ffmpeg.py:194-202) and the split of
 it around the audio, by which the hex is streamed (api/app/routes/music.py:371-372).
 */
module Envelopes {
  import opened Prelude
  import Sse

  const HEX := "0123456789abcdef"

  /** What is measured of the delivered file; the duration as json.dumps writes the float. */
  datatype Info = Info(duration: string, sampleRate: nat, channel: nat, bitrate: nat, size: nat)

  const PLACEHOLDER := "S4HEXAUDIOPLACEHOLDER"

  // ---- json.dumps ----

  /** JSON data as it is written: members in order, numbers and null as they stand, texts that need no escape. */
  datatype Layout = Bare(text: string) | Quoted(text: string) | Object(fields: seq<Field>)

  datatype Field = Field(key: string, value: Layout)

  function LaidOut(v: Layout): string
    decreases v, 0
  {
    match v
    case Bare(text) => text
    case Quoted(text) => "\"" + text + "\""
    case Object(fields) => "{" + FieldsOut(fields) + "}"
  }

  /** Separated by a comma and a space, each key followed by a colon and a space. */
  function FieldsOut(fields: seq<Field>): string
    decreases fields, 1
  {
    if fields == [] then ""
    else
      "\"" + fields[0].key + "\": " + LaidOut(fields[0].value)
      + (if |fields| == 1 then "" else ", " + FieldsOut(fields[1..]))
  }

  // ---- the envelope ----

  function Data(audio: string): seq<Field> {
    [Field("audio", Quoted(audio)), Field("status", Bare("2"))]
  }

  function ExtraInfo(info: Info): seq<Field> {
    [Field("music_duration", Bare(info.duration)), Field("music_sample_rate", Bare(Sse.Dec(info.sampleRate))),
     Field("music_channel", Bare(Sse.Dec(info.channel))), Field("bitrate", Bare(Sse.Dec(info.bitrate))),
     Field("music_size", Bare(Sse.Dec(info.size)))]
  }

  function BaseResp(): seq<Field> {
    [Field("status_code", Bare("0")), Field("status_msg", Quoted("success"))]
  }

  /** All members of the envelope but the first. */
  function Others(trace: string, info: Info): seq<Field> {
    [Field("trace_id", Quoted(trace)), Field("extra_info", Object(ExtraInfo(info))),
     Field("analysis_info", Bare("null")),
     Field("base_resp", Object(BaseResp()))]
  }

  function ResponseEnvelope(trace: string, audio: string, info: Info): seq<Field> {
    [Field("data", Object(Data(audio)))] + Others(trace, info)
  }

  /** json.dumps of the success envelope around an audio text. */
  function Envelope(trace: string, audio: string, info: Info): string {
    LaidOut(Object(ResponseEnvelope(trace, audio, info)))
  }

  /** A number under a key. */
  predicate HasNumber(fields: seq<Field>, key: string, n: nat) {
    exists k :: 0 <= k < |fields| && NumberField(fields[k], key, n)
  }

  predicate NumberField(f: Field, key: string, n: nat) {
    f.key == key && f.value.Bare? && Sse.Digits(f.value.text) && Sse.Value(f.value.text) == n
  }

  /** The envelope says what the cloud's does: audio and status, trace, what was measured, and success. */
  lemma EnvelopeTells(trace: string, audio: string, info: Info)
    ensures var all := ResponseEnvelope(trace, audio, info);
            && |all| == 5
            && Field("data", Object(Data(audio))) in all && Field("trace_id", Quoted(trace)) in all
            && Field("extra_info", Object(ExtraInfo(info))) in all && Field("analysis_info", Bare("null")) in all
            && Field("base_resp", Object(BaseResp())) in all
    ensures |Data(audio)| == 2 && Field("audio", Quoted(audio)) in Data(audio) && HasNumber(Data(audio), "status", 2)
    ensures |ExtraInfo(info)| == 5 && Field("music_duration", Bare(info.duration)) in ExtraInfo(info)
    ensures HasNumber(ExtraInfo(info), "music_sample_rate", info.sampleRate)
    ensures HasNumber(ExtraInfo(info), "music_channel", info.channel)
    ensures HasNumber(ExtraInfo(info), "bitrate", info.bitrate) && HasNumber(ExtraInfo(info), "music_size", info.size)
    ensures |BaseResp()| == 2 && HasNumber(BaseResp(), "status_code", 0)
    ensures Field("status_msg", Quoted("success")) in BaseResp()
  {
    var all, data, extra, base := ResponseEnvelope(trace, audio, info), Data(audio), ExtraInfo(info), BaseResp();
    assert all[0].key == "data" && all[1].key == "trace_id" && all[2].key == "extra_info"
           && all[3].key == "analysis_info" && all[4].key == "base_resp";
    Sse.DecRoundTrip(info.sampleRate);
    Sse.DecRoundTrip(info.channel);
    Sse.DecRoundTrip(info.bitrate);
    Sse.DecRoundTrip(info.size);
    ReadsDigit("0", 0);
    ReadsDigit("2", 2);
    assert data[0].key == "audio" && NumberField(data[1], "status", 2);
    assert extra[0].key == "music_duration" && NumberField(extra[1], "music_sample_rate", info.sampleRate)
           && NumberField(extra[2], "music_channel", info.channel) && NumberField(extra[3], "bitrate", info.bitrate)
           && NumberField(extra[4], "music_size", info.size);
    assert NumberField(base[0], "status_code", 0) && base[1].key == "status_msg";
  }

  lemma ReadsDigit(text: string, n: nat)
    requires |text| == 1 && n < 10 && text[0] == Sse.DIGITS[n]
    ensures Sse.Digits(text) && Sse.Value(text) == n
  {
    assert text[..0] == "";
  }

  // ---- what stands before and behind the audio ----

  function Before(): string {
    "{" + "\"data\": " + "{" + "\"audio\": " + "\""
  }

  function Behind(trace: string, info: Info): string {
    "\", " + FieldsOut(Data("")[1..]) + "}, " + FieldsOut(Others(trace, info)) + "}"
  }

  lemma FirstField(key: string, v: Layout, rest: seq<Field>)
    requires rest != []
    ensures FieldsOut([Field(key, v)] + rest) == "\"" + key + "\": " + LaidOut(v) + ", " + FieldsOut(rest)
  {
    var all := [Field(key, v)] + rest;
    assert all[1..] == rest;
  }

  lemma EnvelopeAround(trace: string, audio: string, info: Info)
    ensures Envelope(trace, audio, info) == Before() + audio + Behind(trace, info)
  {
    var data := Data(audio);
    assert data == [Field("audio", Quoted(audio))] + data[1..] && data[1..] == Data("")[1..];
    FirstField("audio", Quoted(audio), data[1..]);
    FirstField("data", Object(data), Others(trace, info));
    Around(audio, FieldsOut(data[1..]), FieldsOut(Others(trace, info)));
  }

  lemma Around(audio: string, data: string, others: string)
    ensures "{" + ("\"" + "data" + "\": "
                   + ("{" + ("\"" + "audio" + "\": " + ("\"" + audio + "\"") + ", " + data) + "}")
                   + ", " + others) + "}"
         == Before() + audio + ("\", " + data + "}, " + others + "}")
  {
  }

  // ---- the split ----

  /** Free of the placeholder's first letter. */
  predicate Clean(s: string) {
    'S' !in s
  }

  /** A number has no S in it, and a trace id is lower-case hex. */
  predicate Rendered(trace: string, info: Info) {
    Clean(info.duration) && forall c <- trace :: c in HEX
  }

  function Find(s: string, sep: string): Option<nat> {
    if |s| < |sep| then None
    else if s[..|sep|] == sep then Some(0)
    else if s == "" then None
    else match Find(s[1..], sep) case None => None case Some(i) => Some(i + 1)
  }

  lemma FoundInside(s: string, sep: string)
    ensures Find(s, sep).Some? ==> Find(s, sep).value + |sep| <= |s|
  {
  }

  /** str.split with a separator. */
  function Split(s: string, sep: string): seq<string>
    requires sep != ""
  {
    FoundInside(s, sep);
    match Find(s, sep)
    case None => [s]
    case Some(i) => [s[..i]] + Split(s[i + |sep|..], sep)
  }

  lemma {:induction false} CleanHasNone(b: string)
    requires Clean(b)
    ensures Find(b, PLACEHOLDER).None?
  {
    if |b| >= |PLACEHOLDER| {
      assert b[..|PLACEHOLDER|][0] == b[0] != PLACEHOLDER[0];
      CleanHasNone(b[1..]);
    }
  }

  lemma {:induction false} FoundBehindClean(a: string, b: string)
    requires Clean(a)
    ensures Find(a + PLACEHOLDER + b, PLACEHOLDER) == Some(|a|)
  {
    var s := a + PLACEHOLDER + b;
    if a == "" {
      assert s[..|PLACEHOLDER|] == PLACEHOLDER;
    } else {
      assert s[..|PLACEHOLDER|][0] == a[0] != PLACEHOLDER[0];
      assert s[1..] == a[1..] + PLACEHOLDER + b;
      FoundBehindClean(a[1..], b);
    }
  }

  lemma SplitOnce(a: string, b: string)
    requires Clean(a) && Clean(b)
    ensures Split(a + PLACEHOLDER + b, PLACEHOLDER) == [a, b]
  {
    var s := a + PLACEHOLDER + b;
    FoundBehindClean(a, b);
    assert s[..|a|] == a && s[|a| + |PLACEHOLDER|..] == b;
    CleanHasNone(b);
  }

  predicate CleanLayout(v: Layout)
    decreases v, 0
  {
    match v
    case Bare(text) => Clean(text)
    case Quoted(text) => Clean(text)
    case Object(fields) => CleanFields(fields)
  }

  predicate CleanFields(fields: seq<Field>)
    decreases fields, 1
  {
    forall k :: 0 <= k < |fields| ==> Clean(fields[k].key) && CleanLayout(fields[k].value)
  }

  lemma {:induction false} LayoutIsClean(v: Layout)
    requires CleanLayout(v)
    ensures Clean(LaidOut(v))
    decreases v, 0
  {
    if v.Object? {
      FieldsAreClean(v.fields);
    }
  }

  lemma {:induction false} FieldsAreClean(fields: seq<Field>)
    requires CleanFields(fields)
    ensures Clean(FieldsOut(fields))
    decreases fields, 1
  {
    if fields != [] {
      LayoutIsClean(fields[0].value);
      FieldsAreClean(fields[1..]);
    }
  }

  lemma DecIsClean(n: nat)
    ensures Clean(Sse.Dec(n))
  {
  }

  lemma KeysAreClean()
    ensures Clean("music_duration") && Clean("music_sample_rate") && Clean("music_channel") && Clean("bitrate")
    ensures Clean("music_size")
  {
  }

  lemma InfoIsClean(info: Info)
    requires Clean(info.duration)
    ensures CleanFields(ExtraInfo(info))
  {
    DecIsClean(info.sampleRate);
    DecIsClean(info.channel);
    DecIsClean(info.bitrate);
    DecIsClean(info.size);
    KeysAreClean();
    var rate, channel, bitrate, size :=
      Sse.Dec(info.sampleRate), Sse.Dec(info.channel), Sse.Dec(info.bitrate), Sse.Dec(info.size);
    FiveAreClean(
      Field("music_duration", Bare(info.duration)), Field("music_sample_rate", Bare(rate)),
      Field("music_channel", Bare(channel)), Field("bitrate", Bare(bitrate)), Field("music_size", Bare(size)));
  }

  lemma FiveAreClean(a: Field, b: Field, c: Field, d: Field, e: Field)
    requires CleanField(a) && CleanField(b) && CleanField(c) && CleanField(d) && CleanField(e)
    ensures CleanFields([a, b, c, d, e])
  {
  }

  predicate CleanField(f: Field) {
    Clean(f.key) && CleanLayout(f.value)
  }

  lemma BaseIsClean()
    ensures CleanFields(BaseResp()) && CleanFields(Data("")[1..]) && Clean(HEX)
  {
  }

  lemma OthersAreClean(trace: string, info: Info)
    requires Rendered(trace, info)
    ensures CleanFields(Others(trace, info))
  {
    BaseIsClean();
    InfoIsClean(info);
    assert Clean(trace) by {
      assert 'S' !in HEX;
    }
  }

  lemma SidesAreClean(trace: string, info: Info)
    requires Rendered(trace, info)
    ensures Clean(Before()) && Clean(Behind(trace, info))
  {
    BaseIsClean();
    OthersAreClean(trace, info);
    FieldsAreClean(Data("")[1..]);
    FieldsAreClean(Others(trace, info));
  }

  /** The placeholder is nowhere else in the envelope, so the split gives exactly the two sides of it. */
  lemma EnvelopeSplits(trace: string, info: Info)
    requires Rendered(trace, info)
    ensures Split(Envelope(trace, PLACEHOLDER, info), PLACEHOLDER) == [Before(), Behind(trace, info)]
  {
    SidesAreClean(trace, info);
    EnvelopeAround(trace, PLACEHOLDER, info);
    SplitOnce(Before(), Behind(trace, info));
  }
}
