/** What is observable of the artifacts root whatever call the writer was stopped in. */
module ArtifactSafety {
  import opened Prelude
  import opened Jobs
  import opened Artifacts

  /** One call of write_artifact: its arguments, its time stamp and the call it was stopped in. */
  datatype Attempt = Attempt(record: Record, translated: Translated, t: real, fault: Fault)

  /** The sidecar of a record with measurable audio: built from that record and measured from that audio. */
  function SidecarBytes(m: Media, record: Record, translated: Translated): seq<byte>
    requires record.audio.Some? && MeasureWav(m, record.audio.value).Some?
  {
    m.dumps(BuildSidecar(m, record, MeasureWav(m, record.audio.value).value, translated))
  }

  /** A directory that the attempt may have left: nothing canonical is ever partial or unpaired. */
  ghost predicate Whole(m: Media, a: Attempt, entry: Entry) {
    && entry.Directory?
    && a.record.audio.Some?
    && MeasureWav(m, a.record.audio.value).Some?
    && (AUDIO in entry.members ==> entry.members[AUDIO] == Regular(a.record.audio.value))
    && (SIDECAR in entry.members ==>
          && AUDIO in entry.members
          && entry.members[SIDECAR] == Regular(SidecarBytes(m, a.record, a.translated)))
  }

  /** The pair of files that a finished write leaves, and nothing else. */
  ghost predicate Exact(m: Media, record: Record, translated: Translated, entry: Entry) {
    && entry.Directory?
    && record.audio.Some?
    && MeasureWav(m, record.audio.value).Some?
    && entry.members == map[
         AUDIO := Regular(record.audio.value),
         SIDECAR := Regular(SidecarBytes(m, record, translated))]
  }

  function Attempted(m: Media, disk: Disk, a: Attempt): (Disk, Result<string, string>) {
    Written(m, disk, a.record, a.translated, a.t, a.fault)
  }

  /**
   One write, stopped anywhere: existing entries are untouched, at most one directory is new, its canonical
   members are whole, and it is servable exactly if the second rename happened. Success means exactly the pair.
   */
  lemma CrashSafe(m: Media, disk: Disk, a: Attempt)
    ensures var (after, r) := Attempted(m, disk, a);
            && (forall name <- disk :: name in after && after[name] == disk[name])
            && (forall name <- after :: name !in disk ==>
                  && ResolveWithin(disk, a.record.id) == Some(name)
                  && Whole(m, a, after[name])
                  && (Complete(after, name) <==> !(1 <= a.fault.call <= 9)))
            && (r.Ok? ==> r.value in after && r.value !in disk && Exact(m, a.record, a.translated, after[r.value]))
            && (r.Ok? ==> !a.fault.Hits() && Complete(after, r.value))
  {
  }

  /** The name under which a job's directory is made: the target, if it is a link; none outside the root. */
  function Place(disk: Disk, id: string): Option<string> {
    if id !in disk then Some(id) else match disk[id] case LinkTo(inside) => inside case _ => Some(id)
  }

  /** Nothing stands in the way of a write. */
  predicate Writable(m: Media, disk: Disk, id: string, audio: seq<byte>, fault: Fault) {
    && audio != [] && m.header(audio).Some? && ValidJobId(id)
    && Place(disk, id).Some? && Place(disk, id).value !in disk
    && !(1 <= fault.call <= 11)
  }

  /**
   A write succeeds exactly if there is audio with a readable header, the id is valid, its place is in the root and
   free, and no call is refused; and then it returns that place.
   */
  lemma WrittenExactly(m: Media, disk: Disk, record: Record, translated: Translated, t: real, fault: Fault)
    ensures var (after, r) := Written(m, disk, record, translated, t, fault);
            && (r.Ok? <==> record.audio.Some? && Writable(m, disk, record.id, record.audio.value, fault))
            && (r.Ok? ==> Some(r.value) == Place(disk, record.id) && r.value in after && after[r.value].Directory?
                          && AUDIO in after[r.value].members
                          && after[r.value].members[AUDIO] == Regular(record.audio.value))
  {
  }

  /** The attempts of several processes, one after another, each possibly cut short. */
  function AllAttempted(m: Media, disk: Disk, attempts: seq<Attempt>): Disk {
    if attempts == [] then disk
    else Attempted(m, AllAttempted(m, disk, attempts[..|attempts| - 1]), attempts[|attempts| - 1]).0
  }

  /** Across any sequence of crashes nothing old changes and everything new is whole and one attempt's own. */
  lemma {:induction false} CrashesSafe(m: Media, disk: Disk, attempts: seq<Attempt>)
    ensures var after := AllAttempted(m, disk, attempts);
            && (forall name <- disk :: name in after && after[name] == disk[name])
            && (forall name <- after :: name !in disk ==> exists a <- attempts :: Whole(m, a, after[name]))
  {
    if attempts != [] {
      var before := attempts[..|attempts| - 1];
      var last := attempts[|attempts| - 1];
      CrashesSafe(m, disk, before);
      CrashSafe(m, AllAttempted(m, disk, before), last);
      assert forall a <- before :: a in attempts;
      assert last in attempts;
    }
  }

  // ---- listing ----

  lemma {:induction false} RowsAreComplete(disk: Disk, cs: seq<Candidate>)
    requires Descending(cs)
    ensures forall i, j :: 0 <= i < j < |Rows(disk, cs)| ==> Rows(disk, cs)[i].mtime >= Rows(disk, cs)[j].mtime
    ensures forall row <- Rows(disk, cs) :: Candidate(row.mtime, row.id) in cs && Complete(disk, row.id)
                                            && row == RowOf(disk, Candidate(row.mtime, row.id))
    ensures forall c <- cs :: Complete(disk, c.id) ==> RowOf(disk, c) in Rows(disk, cs)
  {
    if cs != [] {
      RowsAreComplete(disk, cs[..|cs| - 1]);
    }
  }

  lemma {:induction false} CandidatesDistinct(disk: Disk, entries: seq<string>)
    requires NoDuplicates(entries) && forall name <- entries :: name in disk
    ensures forall c :: multiset(Candidates(disk, entries))[c] <= 1
  {
    if entries != [] {
      var init, name := entries[..|entries| - 1], entries[|entries| - 1];
      CandidatesDistinct(disk, init);
      CandidatesAreValid(disk, init);
      var c := Candidate(if disk[name].Directory? then disk[name].mtime else 0.0, name);
      assert c !in Candidates(disk, init);
    }
  }

  lemma {:induction false} RowsDistinct(disk: Disk, cs: seq<Candidate>)
    requires forall c :: multiset(cs)[c] <= 1
    requires forall c, d :: c in cs && d in cs && c.id == d.id ==> c == d
    requires Descending(cs)
    ensures forall i, j :: 0 <= i < j < |Rows(disk, cs)| ==> Rows(disk, cs)[i].id != Rows(disk, cs)[j].id
  {
    if cs != [] {
      var init, c := cs[..|cs| - 1], cs[|cs| - 1];
      assert cs == init + [c];
      assert forall d :: multiset(init)[d] <= multiset(cs)[d];
      RowsDistinct(disk, init);
      RowsAreComplete(disk, init);
      assert c !in init by {
        assert multiset(cs)[c] == multiset(init)[c] + 1;
      }
    }
  }

  /**
   With no refused call, GET /artifacts lists each complete directory with a valid name exactly once, newest
   first, with the sidecar bytes that serving hands out: exactly the directories open_member serves.
   */
  lemma ListingExact(disk: Disk, entries: seq<string>)
    requires NoDuplicates(entries) && forall name :: name in entries <==> name in disk
    ensures var rows := Rows(disk, NewestFirst(Candidates(disk, entries)));
            && (forall i, j :: 0 <= i < j < |rows| ==> rows[i].mtime >= rows[j].mtime && rows[i].id != rows[j].id)
            && (forall row <- rows :: ValidJobId(row.id) && Complete(disk, row.id)
                                      && row == Row(row.id, disk[row.id].mtime, disk[row.id].members[SIDECAR].data))
            && (forall id :: ValidJobId(id) && Complete(disk, id) ==>
                               Row(id, disk[id].mtime, disk[id].members[SIDECAR].data) in rows)
  {
    var cs := Candidates(disk, entries);
    var ordered := NewestFirst(cs);
    CandidatesAreValid(disk, entries);
    CandidatesDistinct(disk, entries);
    NewestFirstSorts(cs);
    RowsAreComplete(disk, ordered);
    assert forall c <- ordered :: c in multiset(ordered) && c in cs;
    RowsDistinct(disk, ordered);
    forall id | ValidJobId(id) && Complete(disk, id)
      ensures Row(id, disk[id].mtime, disk[id].members[SIDECAR].data) in Rows(disk, ordered)
    {
      var c := Candidate(disk[id].mtime, id);
      assert c in cs;
      assert c in multiset(cs);
      assert c in multiset(ordered);
      assert RowOf(disk, c) in Rows(disk, ordered);
    }
  }
}
