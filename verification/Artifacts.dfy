/**
 The artifact directory: sidecar, write protocol, serving and listing (api/jobs/artifacts.py).

 A Disk is the artifacts root. WriteArtifact performs the protocol's operating-system calls one by one
 and any of them may be the last, so a process crash and an OSError are the same thing: the disk as the
 completed calls left it. Members gives that disk in closed form.
 */
module Artifacts {
  import opened Prelude
  import opened Jobs

  // ---- measurement and sidecar ----

  datatype WavHeader = WavHeader(sampleRate: int, channels: int, frames: int)

  datatype WavFacts = WavFacts(
    sampleRate: int, channels: int, durationSeconds: real, byteSize: nat, contentHash: string)

  datatype Deployment = Deployment(version: string, imageDigest: Option<string>, modelPath: Option<string>)

  datatype Translated = Translated(request: EngineRequest, responseFormat: string, stream: bool)

  datatype SidecarRequest = SidecarRequest(
    input: string, instructions: string, seed: int, maxNewTokens: int,
    translated: Translated, cloud: Option<Json>)

  datatype Timings = Timings(
    submittedAt: string, startedAt: Option<string>, endedAt: Option<string>,
    generationSeconds: Option<real>, queueSeconds: Option<real>, totalSeconds: Option<real>)

  datatype Sidecar = Sidecar(
    jobId: JobId, traceId: JobId,
    engine: Option<string>, deployment: Deployment, model: Option<string>,
    request: SidecarRequest, timings: Timings, output: WavFacts, contentType: Option<string>)

  /** What lies outside the model: the wave parser, SHA-256, ISO instants, json.dumps, the environment. */
  datatype Media = Media(
    header: seq<byte> -> Option<WavHeader>,
    sha: seq<byte> -> string,
    instant: string -> real,
    dumps: Sidecar -> seq<byte>,
    deployment: Deployment)

  function MeasureWav(m: Media, audio: seq<byte>): Option<WavFacts> {
    match m.header(audio)
    case None => None
    case Some(h) =>
      var duration := if h.sampleRate != 0 then h.frames as real / h.sampleRate as real else 0.0;
      Some(WavFacts(h.sampleRate, h.channels, duration, |audio|, m.sha(audio)))
  }

  function DeltaSeconds(m: Media, begin: Option<string>, end: Option<string>): Option<real> {
    if begin.None? || end.None? || begin.value == "" || end.value == "" then None
    else Some(m.instant(end.value) - m.instant(begin.value))
  }

  function BuildBody(request: EngineRequest): Translated {
    Translated(request, "wav", false)
  }

  function BuildSidecar(m: Media, record: Record, facts: WavFacts, translated: Translated): Sidecar {
    var sub := record.submission;
    Sidecar(
      record.id, record.id, record.engine, m.deployment, record.model,
      SidecarRequest(sub.input, sub.instructions, sub.seed, sub.maxNewTokens, translated, sub.cloud),
      Timings(record.submittedAt, record.startedAt, record.endedAt, record.generationSeconds,
              DeltaSeconds(m, Some(record.submittedAt), record.startedAt),
              DeltaSeconds(m, Some(record.submittedAt), record.endedAt)),
      facts, record.contentType)
  }

  // ---- the disk ----

  const AUDIO := "audio.wav"
  const SIDECAR := "sidecar.json"
  const AUDIO_TMP := "audio.wav.tmp"
  const SIDECAR_TMP := "sidecar.json.tmp"

  datatype Node = Regular(data: seq<byte>) | Link | Odd

  /** A name under the root: a job directory, a symlink (to a name inside the root or elsewhere), or a file. */
  datatype Entry = Directory(members: map<string, Node>, mtime: real) | LinkTo(inside: Option<string>) | Plain

  type Disk = map<string, Entry>

  predicate JobIdChar(c: char) {
    'A' <= c <= 'Z' || 'a' <= c <= 'z' || '0' <= c <= '9' || c == '_' || c == '-'
  }

  predicate ValidJobId(id: string) {
    1 <= |id| <= 128 && forall c <- id :: JobIdChar(c)
  }

  /** Where <root>/<id> really is; None when it leaves the root. */
  function ResolveWithin(disk: Disk, id: string): Option<string> {
    if id in disk && disk[id].LinkTo? then disk[id].inside else Some(id)
  }

  /** Both canonical members are there as regular files. */
  predicate Complete(disk: Disk, id: string) {
    && id in disk && disk[id].Directory?
    && AUDIO in disk[id].members && disk[id].members[AUDIO].Regular?
    && SIDECAR in disk[id].members && disk[id].members[SIDECAR].Regular?
  }

  // ---- the write protocol in closed form ----

  const CALLS := 11  // mkdir; open, write, fsync, rename twice; open and fsync the directory

  /** The call-th operating-system call fails (or the process dies in it), a write after torn bytes. */
  datatype Fault = Fault(call: nat, torn: nat) {
    predicate Hits() { 1 <= call <= CALLS }
  }

  function Torn(data: seq<byte>, torn: nat): seq<byte> {
    if torn < |data| then data[..torn] else data
  }

  /** The directory after done completed calls, the first being mkdir. */
  function Members(audio: seq<byte>, sidecar: seq<byte>, done: nat, torn: nat): map<string, Node> {
    if done <= 1 then map[]
    else if done == 2 then map[AUDIO_TMP := Regular(Torn(audio, torn))]
    else if done <= 4 then map[AUDIO_TMP := Regular(audio)]
    else if done == 5 then map[AUDIO := Regular(audio)]
    else if done == 6 then map[AUDIO := Regular(audio), SIDECAR_TMP := Regular(Torn(sidecar, torn))]
    else if done <= 8 then map[AUDIO := Regular(audio), SIDECAR_TMP := Regular(sidecar)]
    else map[AUDIO := Regular(audio), SIDECAR := Regular(sidecar)]
  }

  function After(disk: Disk, dir: string, audio: seq<byte>, sidecar: seq<byte>, t: real, done: nat, torn: nat): Disk {
    if done == 0 then disk else disk[dir := Directory(Members(audio, sidecar, done, torn), t)]
  }

  /** What write_artifact leaves on the disk and whether it returns: Ok with the directory's name, or Err. */
  function Written(m: Media, disk: Disk, record: Record, translated: Translated, t: real, fault: Fault)
    : (Disk, Result<string, string>)
  {
    if record.audio.None? || record.audio.value == [] then (disk, Err("no audio to write"))
    else if !ValidJobId(record.id) then (disk, Err("invalid job id"))
    else match (ResolveWithin(disk, record.id), MeasureWav(m, record.audio.value))
      case (None, _) => (disk, Err("outside the artifacts root"))
      case (_, None) => (disk, Err("not a parseable WAV"))
      case (Some(dir), Some(facts)) =>
        var sidecar := m.dumps(BuildSidecar(m, record, facts, translated));
        if fault.call == 1 || dir in disk then (disk, Err("mkdir failed"))
        else if fault.Hits() then
          (After(disk, dir, record.audio.value, sidecar, t, fault.call - 1, fault.torn), Err("write failed"))
        else (After(disk, dir, record.audio.value, sidecar, t, CALLS, 0), Ok(dir))
  }

  // ---- the file system, one call at a time ----

  /** An open descriptor: the root, a job directory, or a member's inode. */
  datatype Handle = RootHandle | DirHandle(name: string) | FileHandle(node: Node)

  class FileSystem {
    const rootPresent: bool
    var disk: Disk
    var handles: map<nat, Handle>
    var nextFd: nat

    ghost predicate Valid()
      reads this
    {
      forall fd <- handles :: fd < nextFd
    }

    constructor (disk: Disk, rootPresent: bool)
      ensures Valid() && this.disk == disk && this.rootPresent == rootPresent && handles == map[]
    {
      this.disk, this.rootPresent := disk, rootPresent;
      handles, nextFd := map[], 0;
    }

    method Mkdir(dir: string, t: real, refused: bool) returns (ok: bool)
      modifies this`disk
      ensures ok == (!refused && dir !in old(disk))
      ensures disk == if ok then old(disk)[dir := Directory(map[], t)] else old(disk)
    {
      ok := !refused && dir !in disk;
      if ok {
        disk := disk[dir := Directory(map[], t)];
      }
    }

    method SetMember(dir: string, name: string, node: Node, t: real)
      requires dir in disk && disk[dir].Directory?
      modifies this`disk
      ensures disk == old(disk)[dir := Directory(old(disk)[dir].members[name := node], t)]
    {
      disk := disk[dir := Directory(disk[dir].members[name := node], t)];
    }

    /** os.replace: atomic, and gone is the old name. */
    method Replace(dir: string, tmp: string, name: string, t: real)
      requires dir in disk && disk[dir].Directory? && tmp in disk[dir].members && tmp != name
      modifies this`disk
      ensures var members := old(disk)[dir].members;
              disk == old(disk)[dir := Directory((members - {tmp})[name := members[tmp]], t)]
    {
      var members := disk[dir].members;
      disk := disk[dir := Directory((members - {tmp})[name := members[tmp]], t)];
    }

    /** Temporary file, write, fsync, rename: calls base .. base + 3. */
    method AtomicWriteBytes(dir: string, name: string, tmp: string, data: seq<byte>, t: real, base: nat, fault: Fault)
      returns (ok: bool)
      requires dir in disk && disk[dir].Directory?
      requires tmp != name && (tmp in disk[dir].members ==> disk[dir].members[tmp].Regular?)
      requires name in disk[dir].members ==> !disk[dir].members[name].Odd?
      modifies this`disk
      ensures ok == !(base <= fault.call < base + 4)
      ensures dir in disk && disk == old(disk)[dir := disk[dir]] && disk[dir].Directory?
      ensures fault.call == base ==> disk == old(disk)
      ensures fault.call != base ==> disk[dir].mtime == t
      ensures fault.call == base + 1 ==>
                disk[dir].members == old(disk)[dir].members[tmp := Regular(Torn(data, fault.torn))]
      ensures base + 2 <= fault.call < base + 4 ==> disk[dir].members == old(disk)[dir].members[tmp := Regular(data)]
      ensures ok ==> disk[dir].members == (old(disk)[dir].members - {tmp})[name := Regular(data)]
    {
      if fault.call == base {
        return false;
      }
      SetMember(dir, tmp, Regular([]), t);
      if fault.call == base + 1 {
        SetMember(dir, tmp, Regular(Torn(data, fault.torn)), t);
        return false;
      }
      SetMember(dir, tmp, Regular(data), t);
      if fault.call == base + 2 || fault.call == base + 3 {
        return false;
      }
      Replace(dir, tmp, name, t);
      assert old(disk)[dir].members[tmp := Regular(data)] - {tmp} == old(disk)[dir].members - {tmp};
      ok := true;
    }

    method WriteArtifact(m: Media, record: Record, translated: Translated, t: real, fault: Fault)
      returns (r: Result<string, string>)
      modifies this`disk
      ensures (disk, r) == Written(m, old(disk), record, translated, t, fault)
    {
      if record.audio.None? || record.audio.value == [] {
        return Err("no audio to write");
      }
      if !ValidJobId(record.id) {
        return Err("invalid job id");
      }
      var resolved := ResolveWithin(disk, record.id);
      if resolved.None? {
        return Err("outside the artifacts root");
      }
      var facts := MeasureWav(m, record.audio.value);
      if facts.None? {
        return Err("not a parseable WAV");
      }
      var sidecar := m.dumps(BuildSidecar(m, record, facts.value, translated));
      var dir := resolved.value;
      ghost var before := disk;
      var ok := Mkdir(dir, t, fault.call == 1);
      if !ok {
        return Err("mkdir failed");
      }
      ok := AtomicWriteBytes(dir, AUDIO, AUDIO_TMP, record.audio.value, t, 2, fault);
      if !ok {
        assert disk == After(before, dir, record.audio.value, sidecar, t, fault.call - 1, fault.torn);
        return Err("write failed");
      }
      assert disk[dir].members == map[AUDIO := Regular(record.audio.value)];
      assert map[AUDIO := Regular(record.audio.value)] - {SIDECAR_TMP} == map[AUDIO := Regular(record.audio.value)];
      ok := AtomicWriteBytes(dir, SIDECAR, SIDECAR_TMP, sidecar, t, 6, fault);
      if !ok {
        assert disk == After(before, dir, record.audio.value, sidecar, t, fault.call - 1, fault.torn);
        return Err("write failed");
      }
      assert disk == After(before, dir, record.audio.value, sidecar, t, CALLS, 0);
      if fault.call == 10 || fault.call == 11 {  // opening or fsyncing the directory
        return Err("write failed");
      }
      r := Ok(dir);
    }

    // ---- serving ----

    method Open(handle: Handle) returns (fd: nat)
      requires Valid()
      modifies this`handles, this`nextFd
      ensures Valid() && fd !in old(handles)
      ensures handles == old(handles)[fd := handle]
    {
      fd := nextFd;
      handles := handles[fd := handle];
      nextFd := nextFd + 1;
    }

    method Close(fd: nat)
      requires Valid() && fd in handles
      modifies this`handles
      ensures Valid() && handles == old(handles) - {fd}
    {
      handles := handles - {fd};
    }

    /** Opens the job directory without following a symlink; refuse(n) makes the n-th call fail. */
    method OpenJobDir(id: string, refuse: nat -> bool) returns (r: Result<Option<nat>, string>)
      requires Valid()
      modifies this`handles, this`nextFd
      ensures Valid()
      ensures r.Err? <==> !ValidJobId(id)
      ensures r.Err? || r.value.None? ==> handles == old(handles)
      ensures r.Ok? && r.value.Some? ==>
                && rootPresent && id in disk && disk[id].Directory?
                && r.value.value !in old(handles)
                && handles == old(handles)[r.value.value := DirHandle(id)]
      ensures r.Ok? && !refuse(0) && !refuse(1) ==>
                (r.value.Some? <==> rootPresent && id in disk && disk[id].Directory?)
    {
      if !ValidJobId(id) {
        return Err("invalid job id");
      }
      if refuse(0) || !rootPresent {
        return Ok(None);
      }
      var rootFd := Open(RootHandle);
      if refuse(1) || id !in disk || !disk[id].Directory? {
        Close(rootFd);
        assert handles == old(handles);
        return Ok(None);
      }
      var fd := Open(DirHandle(id));
      Close(rootFd);
      assert handles == old(handles)[fd := DirHandle(id)];
      r := Ok(Some(fd));
    }

    /** Opens a member without following a symlink and keeps it only if it is a regular file. */
    method OpenRegularMember(dirFd: nat, name: string, openRefused: bool, statRefused: bool)
      returns (r: Option<(nat, nat)>)
      requires Valid() && dirFd in handles && handles[dirFd].DirHandle?
      requires handles[dirFd].name in disk && disk[handles[dirFd].name].Directory?
      modifies this`handles, this`nextFd
      ensures Valid()
      ensures var members := disk[old(handles)[dirFd].name].members;
              && (r.None? ==> handles == old(handles))
              && (r.Some? ==>
                    && name in members && members[name].Regular?
                    && r.value.0 !in old(handles) && r.value.1 == |members[name].data|
                    && handles == old(handles)[r.value.0 := FileHandle(members[name])])
              && (!openRefused && !statRefused ==> (r.Some? <==> name in members && members[name].Regular?))
    {
      var members := disk[handles[dirFd].name].members;
      if openRefused || name !in members || members[name].Link? {
        return None;
      }
      var fd := Open(FileHandle(members[name]));
      if statRefused || !members[name].Regular? {
        Close(fd);
        assert handles == old(handles);
        return None;
      }
      r := Some((fd, |members[name].data|));
    }

    /**
     The accessor behind every served byte. Ok(Some((fd, size))) hands over one descriptor on a member of a
     complete pair and holds no other; every other outcome, whichever call failed, holds none.
     */
    method OpenMember(id: string, name: string, refuse: nat -> bool) returns (r: Result<Option<(nat, nat)>, string>)
      requires Valid()
      modifies this`handles, this`nextFd
      ensures Valid()
      ensures r.Err? <==> name in {AUDIO, SIDECAR} && !ValidJobId(id)
      ensures r.Err? || r.value.None? ==> handles == old(handles)
      ensures r.Ok? && r.value.Some? ==>
                && name in {AUDIO, SIDECAR} && Complete(disk, id) && rootPresent
                && r.value.value.0 !in old(handles)
                && r.value.value.1 == |disk[id].members[name].data|
                && handles == old(handles)[r.value.value.0 := FileHandle(disk[id].members[name])]
      ensures r.Ok? && (forall n: nat :: !refuse(n)) ==>
                (r.value.Some? <==> name in {AUDIO, SIDECAR} && rootPresent && Complete(disk, id))
    {
      if name != AUDIO && name != SIDECAR {
        return Ok(None);
      }
      var dir := OpenJobDir(id, refuse);
      if dir.Err? {
        return Err(dir.error);
      }
      if dir.value.None? {
        return Ok(None);
      }
      var dirFd := dir.value.value;
      ghost var within := handles;
      var audio := OpenRegularMember(dirFd, AUDIO, refuse(2), refuse(3));
      var sidecar := OpenRegularMember(dirFd, SIDECAR, refuse(4), refuse(5));
      if audio.None? || sidecar.None? {
        if audio.Some? {
          Close(audio.value.0);
        }
        if sidecar.Some? {
          Close(sidecar.value.0);
        }
        assert handles == within;
        Close(dirFd);
        return Ok(None);
      }
      ghost var files := disk[id].members;
      Taken(old(handles), dirFd, DirHandle(id), audio.value.0, FileHandle(files[AUDIO]), sidecar.value.0,
            FileHandle(files[SIDECAR]));
      var wanted, other := if name == AUDIO then audio.value else sidecar.value,
                           if name == AUDIO then sidecar.value else audio.value;
      Close(other.0);
      Close(dirFd);
      r := Ok(Some(wanted));
    }

    // ---- listing ----

    /** Reads a held sidecar and closes it. */
    method ReadAndClose(fd: nat) returns (data: seq<byte>)
      requires Valid() && fd in handles && handles[fd].FileHandle? && handles[fd].node.Regular?
      modifies this`handles
      ensures Valid() && data == old(handles)[fd].node.data && handles == old(handles) - {fd}
    {
      data := handles[fd].node.data;
      Close(fd);
    }

    /** upset(name, 0) makes is_dir raise on an entry, upset(name, 1) its stat; neither is caught. */
    method CollectCandidates(entries: seq<string>, upset: (string, nat) -> bool)
      returns (candidates: seq<Candidate>, raised: bool)
      requires forall name <- entries :: name in disk
      ensures raised <==> exists name <- entries :: Upsets(disk, name, upset)
      ensures !raised ==> candidates == Candidates(disk, entries)
    {
      candidates, raised := [], false;
      for k := 0 to |entries|
        invariant candidates == Candidates(disk, entries[..k])
        invariant forall name <- entries[..k] :: !Upsets(disk, name, upset)
      {
        var name := entries[k];
        assert entries[..k + 1][..k] == entries[..k];
        if Upsets(disk, name, upset) {
          return candidates, true;
        }
        if disk[name].Directory? && ValidJobId(name) {
          candidates := candidates + [Candidate(disk[name].mtime, name)];
        }
      }
      assert entries[..|entries|] == entries;
    }

    /** One candidate's row, if both its members open; no descriptor survives. */
    method ListOne(c: Candidate, refuse: (string, nat) -> bool) returns (rows: seq<Row>)
      requires Valid() && rootPresent && ValidJobId(c.id)
      modifies this`handles, this`nextFd
      ensures Valid() && handles == old(handles)
      ensures rows == [] || (Complete(disk, c.id) && rows == [RowOf(disk, c)])
      ensures (forall n: nat :: !refuse(c.id, n)) && Complete(disk, c.id) ==> rows == [RowOf(disk, c)]
    {
      var held := OpenMember(c.id, SIDECAR, (n: nat) => refuse(c.id, n));
      if held.Err? || held.value.None? {
        return [];
      }
      var data := ReadAndClose(held.value.value.0);
      assert handles == old(handles);
      rows := [Row(c.id, c.mtime, data)];
    }

    method ListAll(ordered: seq<Candidate>, refuse: (string, nat) -> bool) returns (rows: seq<Row>)
      requires Valid() && rootPresent && forall c <- ordered :: ValidJobId(c.id)
      modifies this`handles, this`nextFd
      ensures Valid() && handles == old(handles)
      ensures Healthy(refuse) ==> rows == Rows(disk, ordered)
      ensures forall row <- rows :: ValidJobId(row.id) && Complete(disk, row.id)
    {
      rows := [];
      for k := 0 to |ordered|
        invariant Valid() && handles == old(handles)
        invariant Healthy(refuse) ==> rows == Rows(disk, ordered[..k])
        invariant forall row <- rows :: ValidJobId(row.id) && Complete(disk, row.id)
      {
        var c := ordered[k];
        assert ordered[..k + 1][..k] == ordered[..k];
        var row := ListOne(c, refuse);
        rows := rows + row;
      }
      assert ordered[..|ordered|] == ordered;
    }

    /** The rows of GET /artifacts; entries is the order in which scandir happens to yield the names. */
    method ScanListing(entries: seq<string>, scanRefused: bool, upset: (string, nat) -> bool,
                       refuse: (string, nat) -> bool)
      returns (r: Result<seq<Row>, string>)
      requires Valid()
      requires forall name <- entries :: name in disk
      modifies this`handles, this`nextFd
      ensures Valid() && handles == old(handles)
      ensures r.Err? <==> rootPresent && (scanRefused || exists name <- entries :: Upsets(disk, name, upset))
      ensures !rootPresent ==> r == Ok([])
      ensures r.Ok? && rootPresent && Healthy(refuse) ==>
                r.value == Rows(disk, NewestFirst(Candidates(disk, entries)))
      ensures r.Ok? ==> forall row <- r.value :: ValidJobId(row.id) && Complete(disk, row.id)
    {
      if !rootPresent {
        return Ok([]);
      }
      if scanRefused {
        return Err("scandir failed");
      }
      var candidates, raised := CollectCandidates(entries, upset);
      if raised {
        return Err("an entry cannot be read");
      }
      CandidatesAreValid(disk, entries);
      NewestFirstSorts(candidates);
      var rows := ListAll(NewestFirst(candidates), refuse);
      r := Ok(rows);
    }
  }

  /** An entry that makes the scan raise: stat is asked of directories with valid names only. */
  predicate Upsets(disk: Disk, name: string, upset: (string, nat) -> bool)
    requires name in disk
  {
    upset(name, 0) || (disk[name].Directory? && ValidJobId(name) && upset(name, 1))
  }

  /** Of three descriptors taken one after another, two are given back. */
  lemma Taken(held: map<nat, Handle>, d: nat, dir: Handle, a: nat, first: Handle, b: nat, second: Handle)
    requires d !in held && a !in held[d := dir] && b !in held[d := dir][a := first]
    ensures held[d := dir][a := first][b := second] - {b} - {d} == held[a := first]
    ensures held[d := dir][a := first][b := second] - {a} - {d} == held[b := second]
  {
  }

  /** No operating-system call is refused. */
  ghost predicate Healthy(refuse: (string, nat) -> bool) {
    forall id: string, n: nat :: !refuse(id, n)
  }

  datatype Candidate = Candidate(mtime: real, id: string)

  /** A listing row; the summary shown is a projection of the sidecar read here. */
  datatype Row = Row(id: string, mtime: real, sidecar: seq<byte>)

  function Candidates(disk: Disk, entries: seq<string>): seq<Candidate>
    requires forall name <- entries :: name in disk
  {
    if entries == [] then [] else
      var name := entries[|entries| - 1];
      var rest := Candidates(disk, entries[..|entries| - 1]);
      if disk[name].Directory? && ValidJobId(name) then rest + [Candidate(disk[name].mtime, name)] else rest
  }

  function RowOf(disk: Disk, c: Candidate): Row
    requires Complete(disk, c.id)
  {
    Row(c.id, c.mtime, disk[c.id].members[SIDECAR].data)
  }

  function Rows(disk: Disk, cs: seq<Candidate>): seq<Row> {
    if cs == [] then [] else
      var c := cs[|cs| - 1];
      var rest := Rows(disk, cs[..|cs| - 1]);
      if Complete(disk, c.id) then rest + [RowOf(disk, c)] else rest
  }

  /** Python's stable sort with reverse=True on the modification time. */
  function NewestFirst(cs: seq<Candidate>): seq<Candidate> {
    if cs == [] then [] else Insert(NewestFirst(cs[..|cs| - 1]), cs[|cs| - 1])
  }

  function Insert(sorted: seq<Candidate>, c: Candidate): seq<Candidate> {
    if sorted == [] || sorted[|sorted| - 1].mtime >= c.mtime then sorted + [c]
    else Insert(sorted[..|sorted| - 1], c) + [sorted[|sorted| - 1]]
  }

  predicate Descending(cs: seq<Candidate>) {
    forall i, j :: 0 <= i < j < |cs| ==> cs[i].mtime >= cs[j].mtime
  }

  lemma {:induction false} InsertAdds(sorted: seq<Candidate>, c: Candidate)
    ensures multiset(Insert(sorted, c)) == multiset(sorted) + multiset{c}
  {
    if !(sorted == [] || sorted[|sorted| - 1].mtime >= c.mtime) {
      InsertAdds(sorted[..|sorted| - 1], c);
      assert sorted == sorted[..|sorted| - 1] + [sorted[|sorted| - 1]];
    }
  }

  lemma LastFollows(cs: seq<Candidate>, last: Candidate)
    requires Descending(cs) && forall x <- cs :: x.mtime >= last.mtime
    ensures Descending(cs + [last])
  {
    forall i | 0 <= i < |cs| ensures cs[i].mtime >= last.mtime {
      assert cs[i] in cs;
    }
  }

  lemma {:induction false} InsertKeepsOrder(sorted: seq<Candidate>, c: Candidate)
    requires Descending(sorted)
    ensures Descending(Insert(sorted, c)) && multiset(Insert(sorted, c)) == multiset(sorted) + multiset{c}
    ensures forall x <- Insert(sorted, c) :: x == c || x in sorted
  {
    var kept := Insert(sorted, c);
    InsertAdds(sorted, c);
    if !(sorted == [] || sorted[|sorted| - 1].mtime >= c.mtime) {
      var init, last := sorted[..|sorted| - 1], sorted[|sorted| - 1];
      InsertKeepsOrder(init, c);
      LastFollows(Insert(init, c), last);
    }
    forall x | x in kept ensures x == c || x in sorted {
      assert x in multiset(kept);
    }
  }

  lemma {:induction false} NewestFirstSorts(cs: seq<Candidate>)
    ensures Descending(NewestFirst(cs)) && multiset(NewestFirst(cs)) == multiset(cs)
    ensures forall x <- NewestFirst(cs) :: x in cs
  {
    if cs != [] {
      NewestFirstSorts(cs[..|cs| - 1]);
      assert cs == cs[..|cs| - 1] + [cs[|cs| - 1]];
      InsertKeepsOrder(NewestFirst(cs[..|cs| - 1]), cs[|cs| - 1]);
    }
  }

  lemma {:induction false} CandidatesAreValid(disk: Disk, entries: seq<string>)
    requires forall name <- entries :: name in disk
    ensures forall c <- Candidates(disk, entries) ::
              c.id in entries && ValidJobId(c.id) && disk[c.id].Directory? && c.mtime == disk[c.id].mtime
    ensures forall name <- entries :: disk[name].Directory? && ValidJobId(name) ==>
              Candidate(disk[name].mtime, name) in Candidates(disk, entries)
  {
    if entries != [] {
      CandidatesAreValid(disk, entries[..|entries| - 1]);
    }
  }
}
