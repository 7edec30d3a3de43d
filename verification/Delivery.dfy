/**
 Delivery (api/app/routes/music.py): the request body and its cap, the hex envelope and the file streamed in
 chunks, and the url route that transcodes the stored audio again from the recorded request.
 */
module Delivery {
  import opened Prelude
  import opened Jobs
  import opened Artifacts
  import ArtifactSafety
  import opened Cloud
  import opened Envelopes

  // ---- chunks ----

  function Flatten<T>(pieces: seq<seq<T>>): seq<T> {
    if pieces == [] then [] else pieces[0] + Flatten(pieces[1..])
  }

  lemma {:induction false} FlattenJoins<T>(a: seq<seq<T>>, b: seq<seq<T>>)
    ensures Flatten(a + b) == Flatten(a) + Flatten(b)
  {
    if a == [] {
      assert a + b == b;
    } else {
      assert (a + b)[1..] == a[1..] + b;
      FlattenJoins(a[1..], b);
    }
  }

  function First<T>(s: seq<T>, n: nat): seq<T> {
    if |s| <= n then s else s[..n]
  }

  /** What reading a file chunk by chunk yields. */
  function Chunks(data: seq<byte>, chunk: nat): seq<seq<byte>>
    requires chunk >= 1
    decreases |data|
  {
    if data == [] then [] else [First(data, chunk)] + Chunks(data[|First(data, chunk)|..], chunk)
  }

  /** The chunks are the file, in order; none is empty or too long. */
  lemma {:induction false} ChunksAreTheFile(data: seq<byte>, chunk: nat)
    requires chunk >= 1
    ensures Flatten(Chunks(data, chunk)) == data
    ensures forall piece <- Chunks(data, chunk) :: 1 <= |piece| <= chunk
    decreases |data|
  {
    if data != [] {
      var piece := First(data, chunk);
      ChunksAreTheFile(data[|piece|..], chunk);
      assert data == piece + data[|piece|..];
    }
  }

  // ---- the request body ----

  const MAX_REQUEST_BODY_BYTES := 1024 * 1024
  const NULL: seq<byte> := [0x6e, 0x75, 0x6c, 0x6c]

  /**
   Reads a body that comes in chunks. However it is cut up, it is the whole body that is parsed, and it is
   refused exactly if the declared or the received length is over the cap, or if it is no JSON.
   */
  method ReadJsonBody(declared: Option<nat>, stream: seq<seq<byte>>, loads: seq<byte> -> Option<Json>)
    returns (body: Result<Json, Refusal>)
    ensures var whole := Flatten(stream);
            var text := if whole == [] then NULL else whole;
            body == if (declared.Some? && declared.value > MAX_REQUEST_BODY_BYTES) || |whole| > MAX_REQUEST_BODY_BYTES
                       || loads(text).None? then Err(Refusal(None))
                    else Ok(loads(text).value)
  {
    if declared.Some? && declared.value > MAX_REQUEST_BODY_BYTES {
      return Err(Refusal(None));
    }
    var chunks: seq<byte>, total := [], 0;
    for i := 0 to |stream|
      invariant total == |chunks| <= MAX_REQUEST_BODY_BYTES
      invariant chunks == Flatten(stream[..i])
    {
      FlattenJoins(stream[..i], [stream[i]]);
      assert stream[..i + 1] == stream[..i] + [stream[i]];
      FlattenJoins(stream[..i + 1], stream[i + 1..]);
      assert stream == stream[..i + 1] + stream[i + 1..];
      assert Flatten([stream[i]]) == stream[i];
      total := total + |stream[i]|;
      if total > MAX_REQUEST_BODY_BYTES {
        return Err(Refusal(None));
      }
      chunks := chunks + stream[i];
    }
    assert stream[..|stream|] == stream;
    var parsed := loads(if chunks == [] then NULL else chunks);
    body := if parsed.None? then Err(Refusal(None)) else Ok(parsed.value);
  }

  // ---- hex ----


  function Hexlify(data: seq<byte>): (h: string)
    ensures |h| == 2 * |data|
  {
    if data == [] then "" else [HEX[data[0] as int / 16], HEX[data[0] as int % 16]] + Hexlify(data[1..])
  }

  function Nibble(c: char): Option<nat> {
    if '0' <= c <= '9' then Some(c as int - '0' as int)
    else if 'a' <= c <= 'f' then Some(c as int - 'a' as int + 10)
    else None
  }

  function Unhex(h: string): Option<seq<byte>> {
    if h == "" then Some([])
    else if |h| == 1 || Nibble(h[0]).None? || Nibble(h[1]).None? || Unhex(h[2..]).None? then None
    else Some([(16 * Nibble(h[0]).value + Nibble(h[1]).value) as byte] + Unhex(h[2..]).value)
  }

  lemma NibbleReads(n: nat)
    requires n < 16
    ensures Nibble(HEX[n]) == Some(n)
  {
  }

  lemma {:induction false} UnhexUndoesHexlify(data: seq<byte>)
    ensures Unhex(Hexlify(data)) == Some(data)
  {
    if data != [] {
      var h := Hexlify(data);
      UnhexUndoesHexlify(data[1..]);
      NibbleReads(data[0] as int / 16);
      NibbleReads(data[0] as int % 16);
      assert h[2..] == Hexlify(data[1..]);
      assert data == [data[0]] + data[1..];
    }
  }

  lemma {:induction false} HexlifyJoins(a: seq<byte>, b: seq<byte>)
    ensures Hexlify(a + b) == Hexlify(a) + Hexlify(b)
  {
    if a == [] {
      assert a + b == b;
    } else {
      assert (a + b)[1..] == a[1..] + b;
      HexlifyJoins(a[1..], b);
    }
  }

  function HexAll(pieces: seq<seq<byte>>): seq<string> {
    if pieces == [] then [] else [Hexlify(pieces[0])] + HexAll(pieces[1..])
  }

  lemma {:induction false} HexChunkByChunk(pieces: seq<seq<byte>>)
    ensures Flatten(HexAll(pieces)) == Hexlify(Flatten(pieces)) && |HexAll(pieces)| == |pieces|
  {
    if pieces != [] {
      HexChunkByChunk(pieces[1..]);
      HexlifyJoins(pieces[0], Flatten(pieces[1..]));
    }
  }

  // ---- the two streams ----

  /** The directory of temp files. */
  class Temps {
    var files: map<string, seq<byte>>

    constructor ()
      ensures files == map[]
    {
      files := map[];
    }

    method Unlink(path: string)
      modifies this
      ensures files == old(files) - {path}
    {
      files := files - {path};
    }
  }

  function HexPieces(data: seq<byte>, prefix: string, suffix: string, chunk: nat): seq<string>
    requires chunk >= 1
  {
    [prefix] + HexAll(Chunks(data, chunk)) + [suffix]
  }

  /** The generator from its first yield on: the pieces taken until it is closed, or all of them. */
  method Emit(temps: Temps, path: string, prefix: string, suffix: string, chunk: nat, pulls: nat)
    returns (sent: seq<string>)
    requires path in temps.files && chunk >= 1 && pulls >= 1
    modifies temps
    ensures sent == First(HexPieces(old(temps.files[path]), prefix, suffix, chunk), pulls)
    ensures temps.files == old(temps.files) - {path}
  {
    var rest := temps.files[path];
    ghost var all := HexPieces(rest, prefix, suffix, chunk);
    sent := [prefix];
    while |sent| < pulls && rest != []
      invariant temps.files == old(temps.files) && |sent| <= pulls
      invariant all == sent + (HexAll(Chunks(rest, chunk)) + [suffix])
      decreases |rest|
    {
      var piece := First(rest, chunk);
      rest := rest[|piece|..];
      sent := sent + [Hexlify(piece)];
    }
    if |sent| < pulls {
      sent := sent + [suffix];
    }
    temps.Unlink(path);
  }

  /**
   The hex stream. What was sent is the beginning of the pieces, and the temp file is gone, unless the generator
   was closed before it ever ran.
   */
  method HexBody(temps: Temps, path: string, trace: string, info: Info, chunk: nat, pulls: nat)
    returns (sent: seq<string>)
    requires path in temps.files && chunk >= 1 && Rendered(trace, info)
    modifies temps
    ensures sent == First(HexPieces(old(temps.files[path]), Before(), Behind(trace, info), chunk), pulls)
    ensures temps.files == if pulls == 0 then old(temps.files) else old(temps.files) - {path}
  {
    if pulls == 0 {
      return [];
    }
    var parts := Split(Envelope(trace, PLACEHOLDER, info), PLACEHOLDER);
    EnvelopeSplits(trace, info);
    sent := Emit(temps, path, parts[0], parts[1], chunk, pulls);
  }

  /** The same for the file itself. */
  method FileBody(temps: Temps, path: string, chunk: nat, pulls: nat) returns (sent: seq<seq<byte>>)
    requires path in temps.files && chunk >= 1
    modifies temps
    ensures sent == First(Chunks(old(temps.files[path]), chunk), pulls)
    ensures temps.files == if pulls == 0 then old(temps.files) else old(temps.files) - {path}
  {
    sent := [];
    if pulls == 0 {
      return;
    }
    var rest := temps.files[path];
    ghost var all := Chunks(rest, chunk);
    while |sent| < pulls && rest != []
      invariant temps.files == old(temps.files) && |sent| <= pulls
      invariant all == sent + Chunks(rest, chunk)
      decreases |rest|
    {
      var piece := First(rest, chunk);
      rest := rest[|piece|..];
      sent := sent + [piece];
    }
    temps.Unlink(path);
  }

  lemma HexPiecesJoin(data: seq<byte>, prefix: string, suffix: string, chunk: nat)
    requires chunk >= 1
    ensures Flatten(HexPieces(data, prefix, suffix, chunk)) == prefix + Hexlify(data) + suffix
  {
    var middle := HexAll(Chunks(data, chunk));
    ChunksAreTheFile(data, chunk);
    HexChunkByChunk(Chunks(data, chunk));
    FlattenJoins([prefix] + middle, [suffix]);
    FlattenJoins([prefix], middle);
    assert Flatten([prefix]) == prefix && Flatten([suffix]) == suffix;
  }

  lemma HexPiecesShort(data: seq<byte>, prefix: string, suffix: string, chunk: nat)
    requires chunk >= 1
    ensures var pieces := HexPieces(data, prefix, suffix, chunk);
            forall k :: 0 < k < |pieces| - 1 ==> 2 <= |pieces[k]| <= 2 * chunk
  {
    ChunksAreTheFile(data, chunk);
    HexAllAt(Chunks(data, chunk));
  }

  lemma {:induction false} HexAllAt(pieces: seq<seq<byte>>)
    ensures |HexAll(pieces)| == |pieces|
    ensures forall k :: 0 <= k < |pieces| ==> |HexAll(pieces)[k]| == 2 * |pieces[k]|
  {
    if pieces != [] {
      HexAllAt(pieces[1..]);
    }
  }

  /**
   Whatever the length of the file and the size of the chunks, the streamed pieces are together the JSON envelope
   with the hex of the whole file, which decodes to the file; and no piece between the sides is over two
   characters a byte of one chunk.
   */
  lemma HexStreamIsTheEnvelope(data: seq<byte>, trace: string, info: Info, chunk: nat)
    requires chunk >= 1
    ensures var pieces := HexPieces(data, Before(), Behind(trace, info), chunk);
            && Flatten(pieces) == Envelope(trace, Hexlify(data), info)
            && (forall k :: 0 < k < |pieces| - 1 ==> 2 <= |pieces[k]| <= 2 * chunk)
    ensures Unhex(Hexlify(data)) == Some(data) && Flatten(Chunks(data, chunk)) == data
  {
    var before, behind := Before(), Behind(trace, info);
    HexPiecesJoin(data, before, behind, chunk);
    EnvelopeAround(trace, Hexlify(data), info);
    HexPiecesShort(data, before, behind, chunk);
    HexOfTheFile(data, chunk);
  }

  lemma HexOfTheFile(data: seq<byte>, chunk: nat)
    requires chunk >= 1
    ensures Unhex(Hexlify(data)) == Some(data) && Flatten(Chunks(data, chunk)) == data
  {
    ChunksAreTheFile(data, chunk);
    UnhexUndoesHexlify(data);
  }

  // ---- the routes ----

  /** ffmpeg and ffprobe: None where they fail. Equal bytes and plans give equal output. */
  datatype Tools = Tools(
    transcode: (seq<byte>, Plan) -> Option<seq<byte>>,
    measure: (seq<byte>, Plan) -> Option<Info>,
    loads: seq<byte> -> Option<Sidecar>)

  datatype Reply =
    | NotFound
    | LocalFailure
    | HexJson(body: string)
    | Linked(trace: string, info: Info)
    | Audio(bytes: seq<byte>, length: nat, mediaType: string)

  function MediaType(plan: Plan): string {
    if plan.container == "mp3" then "audio/mpeg"
    else if plan.container == "wav" then "audio/wav" else "application/octet-stream"
  }

  /** What open_member serves. */
  function Served(disk: Disk, id: string, name: string): Option<seq<byte>>
    requires name in {AUDIO, SIDECAR}
  {
    if ValidJobId(id) && Complete(disk, id) then Some(disk[id].members[name].data) else None
  }

  /** The rest of POST once the job is terminal. */
  function AfterTerminal(tools: Tools, root: bool, disk: Disk, id: string, status: Status, local: LocalRequest): Reply {
    if status != Succeeded || !root || Served(disk, id, AUDIO).None? then LocalFailure
    else
      match tools.transcode(Served(disk, id, AUDIO).value, local.plan)
      case None => LocalFailure
      case Some(bytes) =>
        match tools.measure(bytes, local.plan)
        case None => LocalFailure
        case Some(info) =>
          if local.outputFormat == "url" then Linked(id, info) else HexJson(Envelope(id, Hexlify(bytes), info))
  }

  /** The recorded setting; None stands for the 404. */
  function RecordedAudioSetting(tools: Tools, disk: Disk, id: string): Option<Json> {
    match Served(disk, id, SIDECAR)
    case None => None
    case Some(text) =>
      match tools.loads(text)
      case None => None
      case Some(sidecar) =>
        if sidecar.request.cloud.None? || !sidecar.request.cloud.value.Obj? then None
        else Some(Get(sidecar.request.cloud.value.members, "audio_setting", Null))
  }

  function MusicResult(tools: Tools, root: bool, disk: Disk, id: string): Reply {
    if !root || RecordedAudioSetting(tools, disk, id).None? then Reply.NotFound
    else
      match ResolveTranscode(RecordedAudioSetting(tools, disk, id).value)
      case Err(_) => LocalFailure
      case Ok(plan) =>
        if Served(disk, id, AUDIO).None? then Reply.NotFound
        else
          match tools.transcode(Served(disk, id, AUDIO).value, plan)
          case None => LocalFailure
          case Some(bytes) => Audio(bytes, |bytes|, MediaType(plan))
  }

  /** A stored artifact: a valid id whose directory has both files. */
  predicate Stored(root: bool, disk: Disk, id: string) {
    root && ValidJobId(id) && Complete(disk, id)
  }

  /** The recorded cloud request, if the sidecar can be read and has one. */
  function RecordedCloud(tools: Tools, disk: Disk, id: string): Option<Members>
    requires Complete(disk, id)
  {
    match tools.loads(disk[id].members[SIDECAR].data)
    case Some(sidecar) =>
      if sidecar.request.cloud.Some? && sidecar.request.cloud.value.Obj? then Some(sidecar.request.cloud.value.members)
      else None
    case None => None
  }

  /**
   The url route knows only stored artifacts of cloud requests. It fails for a recorded setting that cannot be
   resolved and for a refused transcode, and otherwise sends the stored audio transcoded.
   */
  lemma ResultReplies(tools: Tools, root: bool, disk: Disk, id: string)
    ensures var reply := MusicResult(tools, root, disk, id);
            if !Stored(root, disk, id) || RecordedCloud(tools, disk, id).None? then reply == Reply.NotFound
            else
              var cloud := RecordedCloud(tools, disk, id).value;
              var setting := if "audio_setting" in cloud then cloud["audio_setting"] else Null;
              match ResolveTranscode(setting)
              case Err(_) => reply == LocalFailure
              case Ok(plan) =>
                match tools.transcode(disk[id].members[AUDIO].data, plan)
                case None => reply == LocalFailure
                case Some(bytes) => reply.Audio? && reply.bytes == bytes && reply.length == |bytes|
  {
  }

  /** POST fails where nothing is stored, and for every end of the job but success. */
  lemma PostFails(tools: Tools, root: bool, disk: Disk, id: string, status: Status, local: LocalRequest)
    requires !Stored(root, disk, id) || !status.Succeeded?
    ensures AfterTerminal(tools, root, disk, id, status, local) == LocalFailure
  {
  }

  /** What the route submits for a translated request. */
  function SubmissionOf(local: LocalRequest): Submission {
    Submission(local.input, local.instructions, local.seed, local.maxNewTokens, Some(Obj(local.cloud)))
  }

  /** The job gets the body's lyrics to sing and its prompt to follow, its seed and length, and the recorded copy. */
  lemma SubmittedSays(m: Members, ceiling: int)
    requires Translate(Obj(m), ceiling).Ok?
    ensures var sub := SubmissionOf(Translate(Obj(m), ceiling).value);
            && "lyrics" in m && m["lyrics"] == Str(sub.input) && "prompt" in m && m["prompt"] == Str(sub.instructions)
            && (if "seed" in m then m["seed"] == Int(sub.seed) else sub.seed == 0)
            && (if "max_new_tokens" in m then m["max_new_tokens"] == Int(sub.maxNewTokens)
                else sub.maxNewTokens == 9000)
            && sub.cloud == Some(Obj(Translate(Obj(m), ceiling).value.cloud))
  {
    AcceptedSays(m, ceiling);
  }

  /**
   The two deliveries of a record's artifact agree: the url route sends the record's audio transcoded by the plan
   that POST resolved, and the audio in the hex envelope decodes to the very bytes of the url delivery. Both fail
   when the transcoder does; only POST measures, and fails when it cannot.
   */
  ghost predicate Agreement(tools: Tools, disk: Disk, record: Record, local: LocalRequest)
    requires record.audio.Some?
  {
    var got := MusicResult(tools, true, disk, record.id);
    var posted := AfterTerminal(tools, true, disk, record.id, record.status, local);
    match tools.transcode(record.audio.value, local.plan)
    case None => got == LocalFailure && posted == LocalFailure
    case Some(bytes) =>
      && got.Audio? && got.bytes == bytes && got.length == |bytes|
      && (local.plan.container == "mp3" ==> got.mediaType == "audio/mpeg")
      && (local.plan.container == "wav" ==> got.mediaType == "audio/wav")
      && (local.plan.container == "pcm" ==> got.mediaType == "application/octet-stream")
      && match tools.measure(bytes, local.plan)
         case None => posted == LocalFailure
         case Some(info) =>
           && local.outputFormat in {"hex", "url"}
           && (local.outputFormat == "url" ==> posted == Linked(record.id, info))
           && (local.outputFormat == "hex" ==>
                 && posted == HexJson(Envelope(record.id, Hexlify(bytes), info))
                 && Unhex(Hexlify(bytes)) == Some(bytes))
  }

  lemma DeliveriesAgree(tools: Tools, m: Media, disk: Disk, record: Record, translated: Translated,
                        body: Json, ceiling: int, local: LocalRequest)
    requires Translate(body, ceiling) == Ok(local) && record.submission == SubmissionOf(local)
    requires record.status.Succeeded? && ValidJobId(record.id) && record.id in disk
    requires ArtifactSafety.Exact(m, record, translated, disk[record.id])
    requires forall sidecar :: tools.loads(m.dumps(sidecar)) == Some(sidecar)
    ensures RecordedAudioSetting(tools, disk, record.id) == Some(Get(local.cloud, "audio_setting", Null))
    ensures Agreement(tools, disk, record, local)
  {
    RecordedReplays(body, ceiling);
    var posted := AfterTerminal(tools, true, disk, record.id, Succeeded, local);
    if posted.HexJson? {
      UnhexUndoesHexlify(tools.transcode(record.audio.value, local.plan).value);
    }
    ResultReplies(tools, true, disk, record.id);
  }
}
