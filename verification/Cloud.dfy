/** The cloud request envelope (api/compat/minimax.py) and the plan resolver (api/transcode/ffmpeg.py). */
module Cloud {
  import opened Prelude

  type Members = map<string, Json>

  // ---- the plan resolver ----

  const NATIVE_SAMPLE_RATE := 32000
  const NATIVE_CHANNELS := 2
  const BYTES_PER_SAMPLE := 2
  const SAMPLE_RATES := {16000, 24000, 32000, 44100}
  const BITRATES := {32000, 64000, 128000, 256000}
  const FORMATS := {"mp3", "wav", "pcm"}
  const DEFAULT_MP3_BITRATE := 128000

  /** A refusal (2013) naming the field; None for a body that is no JSON object. */
  datatype Refusal = Refusal(field: Option<string>)

  datatype Plan = Plan(container: string, sampleRate: int, channels: int, bitrate: Option<int>)

  function Refuse<T>(field: string): Result<T, Refusal> {
    Err(Refusal(Some(field)))
  }

  /** dict.get with a default. */
  function Get(m: Members, key: string, default: Json): Json {
    if key in m then m[key] else default
  }

  predicate IntIn(value: Json, allowed: set<int>) {
    value.Int? && value.i in allowed
  }

  /** An absent setting comes as null. */
  function ResolveTranscode(setting: Json): Result<Plan, Refusal> {
    if !setting.Null? && !setting.Obj? then Refuse("audio_setting")
    else
      var m := if setting.Null? then map[] else setting.members;
      var format := Get(m, "format", Str("wav"));
      var rate := Get(m, "sample_rate", Int(NATIVE_SAMPLE_RATE));
      if !format.Str? || format.s !in FORMATS then Refuse("format")
      else if !IntIn(rate, SAMPLE_RATES) then Refuse("sample_rate")
      else if format.s in {"wav", "pcm"} then
        if "bitrate" in m then Refuse("bitrate") else Ok(Plan(format.s, rate.i, NATIVE_CHANNELS, None))
      else
        var bitrate := Get(m, "bitrate", Int(DEFAULT_MP3_BITRATE));
        if !IntIn(bitrate, BITRATES) then Refuse("bitrate")
        else Ok(Plan(format.s, rate.i, NATIVE_CHANNELS, Some(bitrate.i)))
  }

  /** The plans of the combination matrix: a bitrate for mp3 and for nothing else. */
  predicate InMatrix(p: Plan) {
    && p.container in FORMATS && p.sampleRate in SAMPLE_RATES && p.channels == NATIVE_CHANNELS
    && (p.bitrate.Some? <==> p.container == "mp3")
    && (p.bitrate.Some? ==> p.bitrate.value in BITRATES)
  }

  /** A setting that asks for a plan. */
  function SettingFor(p: Plan): Json {
    var m := map["format" := Str(p.container), "sample_rate" := Int(p.sampleRate)];
    Obj(if p.bitrate.Some? then m["bitrate" := Int(p.bitrate.value)] else m)
  }

  /** The plans resolved to are those of the matrix, all of them: nothing else gets through. */
  lemma ResolvesToTheMatrix(p: Plan)
    ensures InMatrix(p) <==> exists setting :: ResolveTranscode(setting) == Ok(p)
    ensures InMatrix(p) ==> ResolveTranscode(SettingFor(p)) == Ok(p)
  {
    if InMatrix(p) {
      assert ResolveTranscode(SettingFor(p)) == Ok(p);
    }
  }

  // ---- translation ----

  const MODEL_ID := "music-3.0"
  const MAX_PROMPT_CHARS := 2000
  const MAX_LYRICS_CHARS := 3500
  const DEFAULT_SEED := 0
  const DEFAULT_MAX_NEW_TOKENS := 9000
  const MAX_NEW_TOKENS_CEILING := 9000
  const FRAMES_PER_SECOND := 25
  const HEX_MAX_BODY_BYTES := 200 * 1024 * 1024

  const RECORDED := {
    "model", "prompt", "lyrics", "stream", "lyrics_optimizer", "is_instrumental",
    "output_format", "seed", "max_new_tokens", "audio_setting"}

  const COVERS := {"cover_feature_id", "audio_url", "audio_base64"}

  datatype LocalRequest = LocalRequest(
    input: string, instructions: string, seed: int, maxNewTokens: int,
    outputFormat: string, plan: Plan, cloud: Members)

  /** What Python takes for true. */
  predicate Truthy(value: Json) {
    match value
    case Null => false
    case Bool(b) => b
    case Int(i) => i != 0
    case Float(r) => r != 0.0
    case Str(s) => s != ""
    case Arr(items) => items != []
    case Obj(members) => members != map[]
  }

  function ValidateInt(body: Members, name: string, default: int, low: int, high: Option<int>): Result<int, Refusal> {
    var value := Get(body, name, Int(default));
    if !value.Int? || value.i < low || (high.Some? && value.i > high.value) then Refuse(name) else Ok(value.i)
  }

  /** The hex body of maxNewTokens frames at 25 a second, two characters a byte. */
  function EstimateHexBytes(maxNewTokens: int, plan: Plan): int {
    var duration := maxNewTokens as real / FRAMES_PER_SECOND as real;
    var audio := if plan.container == "mp3" && plan.bitrate.Some? then plan.bitrate.value as real / 8.0 * duration
                 else duration * plan.sampleRate as real * plan.channels as real * BYTES_PER_SAMPLE as real;
    (audio * 2.0).Floor
  }

  predicate Text(value: Json, longest: nat) {
    value.Str? && 1 <= |value.s| <= longest
  }

  /** The checks before the integer fields. */
  function RefusedEarly(body: Members): Option<string> {
    if Get(body, "model", Null) != Str(MODEL_ID) then Some("model")
    else if Truthy(Get(body, "stream", Null)) then Some("stream")
    else if Truthy(Get(body, "lyrics_optimizer", Null)) then Some("lyrics_optimizer")
    else if Truthy(Get(body, "is_instrumental", Null)) then Some("is_instrumental")
    else if "cover_feature_id" in body then Some("cover_feature_id")
    else if "audio_url" in body then Some("audio_url")
    else if "audio_base64" in body then Some("audio_base64")
    else if !Text(Get(body, "prompt", Null), MAX_PROMPT_CHARS) then Some("prompt")
    else if !Text(Get(body, "lyrics", Null), MAX_LYRICS_CHARS) then Some("lyrics")
    else if Get(body, "output_format", Str("hex")) !in {Str("hex"), Str("url")} then Some("output_format")
    else None
  }

  function Recorded(body: Members): Members {
    map key | key in body && key in RECORDED :: body[key]
  }

  function Translate(body: Json, ceiling: int): Result<LocalRequest, Refusal> {
    if !body.Obj? then Err(Refusal(None))
    else
      var m := body.members;
      if RefusedEarly(m).Some? then Refuse(RefusedEarly(m).value)
      else
        var seed := ValidateInt(m, "seed", DEFAULT_SEED, 0, None);
        var tokens := ValidateInt(m, "max_new_tokens", DEFAULT_MAX_NEW_TOKENS, 1, Some(MAX_NEW_TOKENS_CEILING));
        var plan := ResolveTranscode(Get(m, "audio_setting", Null));
        var format := Get(m, "output_format", Str("hex")).s;
        if seed.Err? then Err(seed.error)
        else if tokens.Err? then Err(tokens.error)
        else if plan.Err? then Err(plan.error)
        else if format == "hex" && EstimateHexBytes(tokens.value, plan.value) > ceiling then Refuse("output_format")
        else Ok(LocalRequest(m["lyrics"].s, m["prompt"].s, seed.value, tokens.value, format, plan.value, Recorded(m)))
  }

  // ---- the refusal set ----

  /** The order in which fields are looked at. */
  const ORDER := [
    "model", "stream", "lyrics_optimizer", "is_instrumental", "cover_feature_id", "audio_url", "audio_base64",
    "prompt", "lyrics", "output_format", "seed", "max_new_tokens", "audio_setting", "format", "sample_rate", "bitrate"]

  function Settings(body: Members): Members {
    var setting := Get(body, "audio_setting", Null);
    if setting.Obj? then setting.members else map[]
  }

  /** The local engine can honour what the body says of one field. */
  predicate Honoured(body: Members, field: string) {
    if field == "model" then "model" in body && body["model"] == Str(MODEL_ID)
    else if field in {"stream", "lyrics_optimizer", "is_instrumental"} then field in body ==> !Truthy(body[field])
    else if field in COVERS then field !in body
    else if field == "prompt" then field in body && body[field].Str? && 1 <= |body[field].s| <= 2000
    else if field == "lyrics" then field in body && body[field].Str? && 1 <= |body[field].s| <= 3500
    else if field == "output_format" then field in body ==> body[field] == Str("hex") || body[field] == Str("url")
    else if field == "seed" then field in body ==> body[field].Int? && body[field].i >= 0
    else if field == "max_new_tokens" then field in body ==> body[field].Int? && 1 <= body[field].i <= 9000
    else if field == "audio_setting" then field in body ==> body[field].Null? || body[field].Obj?
    else if field == "format" then
      "format" in Settings(body) ==> Settings(body)["format"] in {Str("mp3"), Str("wav"), Str("pcm")}
    else if field == "sample_rate" then
      "sample_rate" in Settings(body) ==> IntIn(Settings(body)["sample_rate"], SAMPLE_RATES)
    else if field == "bitrate" then
      "bitrate" in Settings(body) ==>
        && Get(Settings(body), "format", Str("wav")) == Str("mp3") && IntIn(Settings(body)["bitrate"], BITRATES)
    else true
  }

  /** The first field from position k on that cannot be honoured. */
  function FirstBad(body: Members, k: nat): Option<string>
    decreases |ORDER| - k
  {
    if k >= |ORDER| then None else if !Honoured(body, ORDER[k]) then Some(ORDER[k]) else FirstBad(body, k + 1)
  }

  /** The ten checks before the integers and four of the plan, as FirstBad makes them. */
  lemma EarlyIsFirst(body: Members)
    ensures RefusedEarly(body) == if RefusedEarly(body).Some? then FirstBad(body, 0) else None
    ensures RefusedEarly(body).None? ==> FirstBad(body, 0) == FirstBad(body, 10)
  {
  }

  lemma PlanIsFirst(body: Members)
    ensures match FirstBad(body, 12)
            case Some(field) => ResolveTranscode(Get(body, "audio_setting", Null)) == Refuse(field)
            case None => ResolveTranscode(Get(body, "audio_setting", Null)).Ok?
  {
  }

  /** The refusal names the first field that cannot be honoured; with none, only the ceiling can refuse. */
  lemma RefusesTheFirst(body: Members, ceiling: int)
    ensures var tokens := Get(body, "max_new_tokens", Int(DEFAULT_MAX_NEW_TOKENS));
            var plan := ResolveTranscode(Get(body, "audio_setting", Null));
            match FirstBad(body, 0)
            case Some(field) => Translate(Obj(body), ceiling) == Refuse(field)
            case None =>
              && tokens.Int? && plan.Ok?
              && (Translate(Obj(body), ceiling).Err? <==>
                    && Get(body, "output_format", Str("hex")) == Str("hex")
                    && EstimateHexBytes(tokens.i, plan.value) > ceiling)
              && (Translate(Obj(body), ceiling).Err? ==> Translate(Obj(body), ceiling) == Refuse("output_format"))
  {
    EarlyIsFirst(body);
    PlanIsFirst(body);
  }

  lemma SongBytes(tokens: int, rate: int)
    requires 1 <= tokens <= 9000 && rate <= 44100
    ensures tokens as real / 25.0 * rate as real * 2.0 * 2.0 * 2.0 <= 127008000.0
  {
    assert (tokens * rate) as real == tokens as real * rate as real;
    assert tokens * rate <= 9000 * 44100;
  }

  lemma Mp3Bytes(tokens: int, bitrate: int)
    requires 1 <= tokens <= 9000 && bitrate <= 256000
    ensures bitrate as real / 8.0 * (tokens as real / 25.0) * 2.0 <= 127008000.0
  {
    assert (tokens * bitrate) as real == tokens as real * bitrate as real;
    assert tokens * bitrate <= 9000 * 256000;
  }

  /** A full-length song in any plan stays under the default ceiling, which therefore never refuses. */
  lemma FullSongFits(tokens: int, plan: Plan)
    requires 1 <= tokens <= MAX_NEW_TOKENS_CEILING && InMatrix(plan)
    ensures EstimateHexBytes(tokens, plan) <= 127008000 < HEX_MAX_BODY_BYTES
  {
    if plan.container == "mp3" {
      Mp3Bytes(tokens, plan.bitrate.value);
    } else {
      SongBytes(tokens, plan.sampleRate);
    }
  }

  /** With the default ceiling a body is accepted exactly if every field can be honoured. */
  lemma AcceptedExactly(body: Members)
    ensures Translate(Obj(body), HEX_MAX_BODY_BYTES).Ok? <==> FirstBad(body, 0).None?
  {
    RefusesTheFirst(body, HEX_MAX_BODY_BYTES);
    if FirstBad(body, 0).None? {
      EarlyIsFirst(body);
      var tokens := Get(body, "max_new_tokens", Int(DEFAULT_MAX_NEW_TOKENS));
      var plan := ResolveTranscode(Get(body, "audio_setting", Null)).value;
      assert Honoured(body, ORDER[11]);
      ResolvesToTheMatrix(plan);
      FullSongFits(tokens.i, plan);
    }
  }

  // ---- what an accepted request says ----

  /** A flag is refused unless Python takes its value for false. */
  lemma FalseValues(value: Json)
    ensures !Truthy(value) <==>
            value in {Null, Bool(false), Int(0), Float(0.0), Str(""), Arr([]), Obj(map[])}
  {
  }

  /** The plan is what the setting asks for, field by field, with the documented defaults. */
  predicate PlanSays(setting: Members, plan: Plan) {
    && (if "format" in setting then setting["format"] == Str(plan.container) else plan.container == "wav")
    && (if "sample_rate" in setting then setting["sample_rate"] == Int(plan.sampleRate) else plan.sampleRate == 32000)
    && plan.channels == 2
    && (if plan.container != "mp3" then plan.bitrate.None?
        else plan.bitrate.Some?
             && if "bitrate" in setting then setting["bitrate"] == Int(plan.bitrate.value)
                  else plan.bitrate.value == 128000)
  }

  /**
   An accepted request has the lyrics for the engine's input and the prompt for its instructions, and every other
   field as the body gives it or by its default.
   */
  lemma AcceptedSays(m: Members, ceiling: int)
    requires Translate(Obj(m), ceiling).Ok?
    ensures var local := Translate(Obj(m), ceiling).value;
            && "lyrics" in m && m["lyrics"] == Str(local.input)
            && "prompt" in m && m["prompt"] == Str(local.instructions)
            && (if "seed" in m then m["seed"] == Int(local.seed) else local.seed == 0)
            && (if "max_new_tokens" in m then m["max_new_tokens"] == Int(local.maxNewTokens)
                else local.maxNewTokens == 9000)
            && (if "output_format" in m then m["output_format"] == Str(local.outputFormat)
                else local.outputFormat == "hex")
            && PlanSays(if "audio_setting" in m && m["audio_setting"].Obj? then m["audio_setting"].members else map[],
                        local.plan)
  {
  }

  /** The estimate, in whole numbers: two characters for each byte of a second, for the seconds of the frames. */
  lemma EstimateIs(tokens: nat, plan: Plan)
    requires InMatrix(plan)
    ensures var estimate := EstimateHexBytes(tokens, plan);
            if plan.container == "mp3" then 100 * estimate <= tokens * plan.bitrate.value < 100 * (estimate + 1)
            else 25 * estimate <= 8 * (tokens * plan.sampleRate) < 25 * (estimate + 1)
  {
    if plan.container == "mp3" {
      Mp3Exactly(tokens, plan.bitrate.value);
    } else {
      RawExactly(tokens, plan.sampleRate);
    }
  }

  lemma FloorOfHundredths(x: real, n: int)
    requires x * 100.0 == n as real
    ensures 100 * x.Floor <= n < 100 * (x.Floor + 1)
  {
    assert x.Floor as real <= x < x.Floor as real + 1.0;
  }

  lemma FloorOfFrames(x: real, n: int)
    requires x * 25.0 == n as real
    ensures 25 * x.Floor <= n < 25 * (x.Floor + 1)
  {
    assert x.Floor as real <= x < x.Floor as real + 1.0;
  }

  lemma Mp3Exactly(tokens: nat, bitrate: int)
    ensures var x := bitrate as real / 8.0 * (tokens as real / 25.0) * 2.0;
            100 * x.Floor <= tokens * bitrate < 100 * (x.Floor + 1)
  {
    assert (tokens * bitrate) as real == tokens as real * bitrate as real;
    FloorOfHundredths(bitrate as real / 8.0 * (tokens as real / 25.0) * 2.0, tokens * bitrate);
  }

  lemma RawExactly(tokens: nat, rate: int)
    ensures var x := tokens as real / 25.0 * rate as real * 2.0 * 2.0 * 2.0;
            25 * x.Floor <= 8 * (tokens * rate) < 25 * (x.Floor + 1)
  {
    assert (tokens * rate) as real == tokens as real * rate as real;
    FloorOfFrames(tokens as real / 25.0 * rate as real * 2.0 * 2.0 * 2.0, 8 * (tokens * rate));
  }

  // ---- the recorded copy ----

  /** Only the recorded fields and the cover fields decide. */
  lemma OnlyKnownFieldsCount(a: Members, b: Members, ceiling: int)
    requires forall key :: key in RECORDED + COVERS ==> (key in a <==> key in b) && (key in a ==> a[key] == b[key])
    ensures Translate(Obj(a), ceiling) == Translate(Obj(b), ceiling)
  {
    Agree(a, b);
    assert Recorded(a) == Recorded(b);
  }

  lemma Agree(a: Members, b: Members)
    requires forall key :: key in RECORDED + COVERS ==> (key in a <==> key in b) && (key in a ==> a[key] == b[key])
    ensures RefusedEarly(a) == RefusedEarly(b)
    ensures forall key, default :: key in RECORDED ==> Get(a, key, default) == Get(b, key, default)
  {
    assert forall key :: key in RECORDED ==> key in RECORDED + COVERS;
    assert forall key :: key in COVERS ==> key in RECORDED + COVERS;
    assert "cover_feature_id" in COVERS && "audio_url" in COVERS && "audio_base64" in COVERS;
    assert "model" in RECORDED && "stream" in RECORDED && "lyrics_optimizer" in RECORDED
           && "is_instrumental" in RECORDED;
    assert "prompt" in RECORDED && "lyrics" in RECORDED && "output_format" in RECORDED;
  }

  /**
   The copy in the sidecar is the body as received, without what is not known; and it is itself an accepted
   body that translates to the same request, so the url route resolves the plan that POST resolved.
   */
  lemma RecordedReplays(body: Json, ceiling: int)
    requires Translate(body, ceiling).Ok?
    ensures var local := Translate(body, ceiling).value;
            && Translate(Obj(local.cloud), ceiling) == Ok(local)
            && ResolveTranscode(Get(local.cloud, "audio_setting", Null)) == Ok(local.plan)
            && InMatrix(local.plan) && local.outputFormat in {"hex", "url"}
            && (forall key <- local.cloud :: key in body.members && local.cloud[key] == body.members[key])
            && (forall key <- body.members :: key in RECORDED ==> key in local.cloud)
            && (forall key <- body.members :: key !in COVERS)
  {
    var a, b := body.members, Recorded(body.members);
    forall key | key in RECORDED + COVERS
      ensures (key in a <==> key in b) && (key in a ==> a[key] == b[key])
    {
    }
    OnlyKnownFieldsCount(a, b, ceiling);
    var local := Translate(body, ceiling).value;
    assert ResolveTranscode(Get(a, "audio_setting", Null)) == Ok(local.plan);
    ResolvesToTheMatrix(local.plan);
  }
}
