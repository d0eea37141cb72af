/** The Bulk Query worker: a scan exported part by part, resumable after a crash anywhere.

    A part reaches the disk in three durable writes: its file, the manifest that names it and its
    checkpoint.  A resumed run trusts the manifest, drops files it does not name, runs the scan again
    and skips as many rows as the manifest holds. */
module BulkQuery {
  import opened Ordering
  import opened QueryScans

  datatype Part = Part(number: nat, start: nat, end: int, count: nat)

  datatype Outcome = Finished(processed: nat, written: nat) | Crashed | PartMissing | CheckpointAhead

  function Public(rows: seq<Row>): (r: seq<Cells>)
    ensures |r| == |rows| && forall i :: 0 <= i < |r| ==> r[i] == rows[i].cells
  {
    seq(|rows|, i requires 0 <= i < |rows| => rows[i].cells)
  }

  function Total(parts: seq<Part>): nat {
    if |parts| == 0 then 0 else Total(parts[..|parts| - 1]) + parts[|parts| - 1].count
  }

  lemma TotalAppend(parts: seq<Part>, p: Part)
    ensures Total(parts + [p]) == Total(parts) + p.count
  {
    assert (parts + [p])[..|parts|] == parts;
  }

  /** Parts numbered from 0, each non-empty and starting where the one before it ends. */
  predicate Contiguous(parts: seq<Part>) {
    forall i :: 0 <= i < |parts| ==>
      && parts[i].number == i && parts[i].count > 0
      && parts[i].start == Total(parts[..i]) && parts[i].end == parts[i].start + parts[i].count - 1
  }

  /** The rows a manifest stands for. */
  function Exported(files: map<nat, seq<Cells>>, parts: seq<Part>): seq<Cells>
    requires forall i :: 0 <= i < |parts| ==> parts[i].number in files
  {
    if |parts| == 0 then []
    else Exported(files, parts[..|parts| - 1]) + files[parts[|parts| - 1].number]
  }

  predicate Present(files: map<nat, seq<Cells>>, parts: seq<Part>) {
    forall i :: 0 <= i < |parts| ==> parts[i].number in files && |files[parts[i].number]| == parts[i].count
  }

  lemma {:induction false} ExportedDependsOnItsFiles(a: map<nat, seq<Cells>>, b: map<nat, seq<Cells>>, parts: seq<Part>)
    requires Present(a, parts)
    requires forall i :: 0 <= i < |parts| ==> parts[i].number in b && b[parts[i].number] == a[parts[i].number]
    ensures Present(b, parts) && Exported(a, parts) == Exported(b, parts)
    ensures |Exported(a, parts)| == Total(parts)
  {
    if |parts| > 0 { ExportedDependsOnItsFiles(a, b, parts[..|parts| - 1]); }
  }

  lemma ExportedAppend(files: map<nat, seq<Cells>>, parts: seq<Part>, p: Part)
    requires Present(files, parts + [p])
    ensures p.number in files && Present(files, parts)
        && Exported(files, parts + [p]) == Exported(files, parts) + files[p.number]
  {
    assert (parts + [p])[..|parts|] == parts;
    assert forall i :: 0 <= i < |parts| ==> (parts + [p])[i] == parts[i];
    assert (parts + [p])[|parts|] == p;
  }

  /** The maximum of the checkpoints' record counts, 0 without any. */
  function LatestRecords(checkpoints: seq<nat>): nat {
    if |checkpoints| == 0 then 0
    else
      var before := LatestRecords(checkpoints[..|checkpoints| - 1]);
      if checkpoints[|checkpoints| - 1] > before then checkpoints[|checkpoints| - 1] else before
  }

  /** What every durable state of a job meets. */
  ghost predicate Sound(files: map<nat, seq<Cells>>, parts: seq<Part>, checkpoints: seq<nat>) {
    && Contiguous(parts) && Present(files, parts)
    && LatestRecords(checkpoints) <= Total(parts)
  }

  lemma StaysContiguous(parts: seq<Part>, p: Part)
    requires Contiguous(parts) && p.count > 0
    requires p.number == |parts| && p.start == Total(parts) && p.end == p.start + p.count - 1
    ensures Contiguous(parts + [p])
  {
    var all := parts + [p];
    forall i | 0 <= i < |all|
      ensures all[i].number == i && all[i].count > 0 && all[i].start == Total(all[..i])
          && all[i].end == all[i].start + all[i].count - 1
    {
      assert all[..i] == parts[..i];
    }
  }

  function NextPart(parts: seq<Part>, rows: seq<Cells>): Part {
    Part(|parts|, Total(parts), Total(parts) + |rows| - 1, |rows|)
  }

  /** Writing the next part's file leaves what is committed alone. */
  lemma FileIsWritten(files: map<nat, seq<Cells>>, parts: seq<Part>, checkpoints: seq<nat>, rows: seq<Cells>)
    requires Sound(files, parts, checkpoints)
    ensures Sound(files[|parts| := rows], parts, checkpoints)
    ensures Exported(files[|parts| := rows], parts) == Exported(files, parts)
  {
    ExportedDependsOnItsFiles(files, files[|parts| := rows], parts);
  }

  predicate Names(parts: seq<Part>, n: nat) {
    exists i :: 0 <= i < |parts| && parts[i].number == n
  }

  function Unnamed(files: map<nat, seq<Cells>>, parts: seq<Part>): set<nat> {
    set n | n in files && !Names(parts, n)
  }

  lemma StraysAfterFile(files: map<nat, seq<Cells>>, parts: seq<Part>, n: nat, rows: seq<Cells>)
    ensures |Unnamed(files[n := rows], parts)| <= |Unnamed(files, parts)| + 1
  {
    var was, now := Unnamed(files, parts), Unnamed(files[n := rows], parts);
    assert now <= was + {n};
    FewerAreCounted(now, was + {n});
  }

  lemma StraysAfterManifest(files: map<nat, seq<Cells>>, parts: seq<Part>, p: Part, rows: seq<Cells>)
    ensures |Unnamed(files[p.number := rows], parts + [p])| <= |Unnamed(files, parts)|
  {
    var was, now := Unnamed(files, parts), Unnamed(files[p.number := rows], parts + [p]);
    assert (parts + [p])[|parts|].number == p.number;
    assert forall i :: 0 <= i < |parts| ==> (parts + [p])[i] == parts[i];
    assert forall n :: Names(parts, n) ==> Names(parts + [p], n);
    assert now <= was;
    FewerAreCounted(now, was);
  }

  lemma StrayIsDropped(files: map<nat, seq<Cells>>, parts: seq<Part>, checkpoints: seq<nat>, n: nat)
    requires Sound(files, parts, checkpoints) && !Names(parts, n)
    ensures Sound(files - {n}, parts, checkpoints) && Exported(files - {n}, parts) == Exported(files, parts)
  {
    ExportedDependsOnItsFiles(files, files - {n}, parts);
  }

  /** Naming it in the manifest adds its rows. */
  lemma PartIsCommitted(files: map<nat, seq<Cells>>, parts: seq<Part>, checkpoints: seq<nat>, rows: seq<Cells>)
    requires Sound(files, parts, checkpoints) && |rows| > 0 && |parts| in files && files[|parts|] == rows
    ensures Sound(files, parts + [NextPart(parts, rows)], checkpoints)
    ensures Exported(files, parts + [NextPart(parts, rows)]) == Exported(files, parts) + rows
    ensures Total(parts + [NextPart(parts, rows)]) == Total(parts) + |rows|
  {
    var p := NextPart(parts, rows);
    TotalAppend(parts, p);
    StaysContiguous(parts, p);
    ExportedAppend(files, parts, p);
  }

  /** The durable state of one job. */
  class BulkQueryJob {
    var files: map<nat, seq<Cells>>
    var manifest: seq<Part>
    var checkpoints: seq<nat>

    ghost predicate Valid()
      reads this
    {
      Sound(files, manifest, checkpoints)
    }

    ghost function Rows(): seq<Cells>
      requires Valid()
      reads this
    {
      Exported(files, manifest)
    }

    /** How many files the manifest does not name. */
    ghost function Strays(): nat
      reads this
    {
      |Unnamed(files, manifest)|
    }

    constructor ()
      ensures Valid() && Rows() == [] && manifest == [] && checkpoints == [] && Strays() == 0
    {
      files, manifest, checkpoints := map[], [], [];
    }

    lemma RowsAreCounted()
      requires Valid()
      ensures |Rows()| == Total(manifest)
    {
      ExportedDependsOnItsFiles(files, files, manifest);
    }

    /** Drop the files no part of the manifest names. */
    method DiscardUncommitted(budget: nat) returns (left: nat, crashed: bool)
      requires Valid()
      modifies this`files
      ensures Valid() && Rows() == old(Rows())
      ensures if crashed then budget < old(Strays()) else left == budget - old(Strays())
      ensures Strays() <= old(Strays())
      ensures !crashed ==> Strays() == 0 && forall n :: n in files ==> Names(manifest, n)
    {
      hide Sound, Exported, Names;
      var stray := Unnamed(files, manifest);
      left, crashed := budget, false;
      while stray != {}
        invariant Valid() && Rows() == old(Rows())
        invariant stray == Unnamed(files, manifest) && left + old(Strays()) == budget + |stray|
        invariant |stray| <= old(Strays())
        decreases |stray|
      {
        if left == 0 { return left, true; }
        var n :| n in stray;
        StrayIsDropped(files, manifest, checkpoints, n);
        files := files - {n};
        stray, left := stray - {n}, left - 1;
      }
      forall n | n in files ensures Names(manifest, n) { assert n !in stray; }
    }

    /** Write a part's file, then the manifest that names it, then its checkpoint. */
    method AddPart(rows: seq<Cells>, budget: nat) returns (left: nat, crashed: bool)
      requires Valid() && |rows| > 0
      modifies this
      ensures Valid() && Strays() <= old(Strays()) + (if crashed then 1 else 0)
      ensures crashed <==> budget < 3
      ensures !crashed ==> left == budget - 3 && checkpoints == old(checkpoints) + [Total(manifest)]
      ensures Rows() == if budget < 2 then old(Rows()) else old(Rows()) + rows
    {
      hide Contiguous, Present, Exported, Total, Unnamed;
      if budget == 0 { return 0, true; }
      FileIsWritten(files, manifest, checkpoints, rows);
      StraysAfterFile(files, manifest, |manifest|, rows);
      StraysAfterManifest(files, manifest, NextPart(manifest, rows), rows);
      files := files[|manifest| := rows];
      if budget == 1 { return 0, true; }
      PartIsCommitted(files, manifest, checkpoints, rows);
      var processed := Total(manifest) + |rows|;
      manifest := manifest + [NextPart(manifest, rows)];
      if budget == 2 { return 0, true; }
      assert (checkpoints + [processed])[..|checkpoints|] == checkpoints;
      checkpoints := checkpoints + [processed];
      return budget - 3, false;
    }

    /** One run of the export, over the scan as it comes back this time. */
    method Stream(scan: seq<Row>, partSize: nat, budget: nat) returns (outcome: Outcome)
      requires Valid() && partSize > 0
      modifies this
      ensures Valid() && (outcome.Finished? || outcome.Crashed?)
      ensures Extends(old(Rows()), Public(scan), Rows())
      ensures outcome.Finished? ==> Rows() == Resumed(old(Rows()), Public(scan)) && outcome.processed == |Rows()|
      ensures Strays() <= old(Strays()) + 1
      ensures outcome.Crashed? && old(Strays()) <= budget ==>
        Progressed(|Rows()| - |old(Rows())|, budget - old(Strays()), partSize)
      ensures outcome.Finished? ==> old(Strays()) + 3 * outcome.written <= budget
      ensures outcome.Finished? ==> |Rows()| <= |old(Rows())| + outcome.written * partSize
    {
      hide Contiguous, Present, Exported, Total, LatestRecords, Public, Unnamed, Names;
      hide Sound, Spent, Progressed, Past, Extends, Resumed, BulkQueryJob.Rows, BulkQueryJob.Strays;
      NothingMissing();
      if exists i :: 0 <= i < |manifest| && manifest[i].number !in files { return PartMissing; }
      RowsAreCounted();
      ghost var before := Rows();
      PastStart(before, Public(scan));
      var left, crashed := DiscardUncommitted(budget);
      if crashed { return Crashed; }
      CheckpointsStayBehind();
      if LatestRecords(checkpoints) > Total(manifest) { return CheckpointAhead; }
      RowsAreCounted();
      var resume := Total(manifest);
      var skipped, written := 0, 0;
      var pending: seq<Cells> := [];
      ghost var rows, writes := Public(scan), budget - old(Strays());
      NothingSpent(left, partSize);
      for seen := 0 to |scan|
        invariant Valid() && |pending| < partSize && Strays() == 0
        invariant Spent(|Rows()| - |before|, left, written, writes, partSize)
        invariant skipped == (if seen < resume then seen else resume)
        invariant before <= Rows() && Rows() + pending == before + Past(rows, resume, seen)
      {
        PastNext(rows, resume, seen);
        SoFarExtends(before, rows, Rows(), pending, seen);
        if skipped < resume {
          skipped := skipped + 1;
          continue;
        }
        ghost var was := Rows() + pending;
        pending := pending + [scan[seen].cells];
        assert Rows() + pending == was + [rows[seen]];
        SoFarExtends(before, rows, Rows(), pending, seen + 1);
        if |pending| >= partSize {
          SoFarExtends(before, rows, Rows() + pending, [], seen + 1);
          PartIsPaid(|Rows()| - |before|, left, written, writes, |pending|, partSize);
          left, crashed := AddPart(pending, left);
          if crashed { return Crashed; }
          written := written + 1;
          pending := [];
        }
      }
      SpentSoFar(|Rows()| - |before|, left, written, writes, partSize);
      PastAll(before, rows);
      SoFarExtends(before, rows, Rows(), pending, |scan|);
      SoFarExtends(before, rows, Rows() + pending, [], |scan|);
      if |pending| > 0 {
        PartIsPaid(|Rows()| - |before|, left, written, writes, |pending|, partSize);
        left, crashed := AddPart(pending, left);
        if crashed { return Crashed; }
        written := written + 1;
      }
      assert 3 * written <= writes && |Rows()| - |before| <= written * partSize;
      RowsAreCounted();
      outcome := Finished(Total(manifest), written);
    }

    lemma CheckpointsStayBehind()
      requires Valid()
      ensures LatestRecords(checkpoints) <= Total(manifest)
    {
    }

    lemma NothingMissing()
      requires Valid()
      ensures forall i :: 0 <= i < |manifest| ==> manifest[i].number in files
    {
    }
  }

  /** A crashed run has every part whose three writes it survived, and at most the one it had named. */
  predicate Progressed(rows: int, writes: nat, partSize: nat) {
    writes / 3 * partSize <= rows <= (writes + 1) / 3 * partSize
  }

  /** After `written` full parts, each of three writes. */
  predicate Spent(rows: int, left: nat, written: nat, writes: int, partSize: nat) {
    left + 3 * written == writes && rows == written * partSize
  }

  lemma NothingSpent(left: nat, partSize: nat)
    ensures Spent(0, left, 0, left, partSize)
  {
  }

  lemma SpentSoFar(rows: int, left: nat, written: nat, writes: int, partSize: nat)
    requires Spent(rows, left, written, writes, partSize)
    ensures 3 * written <= writes && rows == written * partSize
  {
  }

  lemma PartIsPaid(rows: int, left: nat, written: nat, writes: int, pending: nat, partSize: nat)
    requires Spent(rows, left, written, writes, partSize) && 0 < pending <= partSize
    ensures left < 3 ==> writes >= 0 && Progressed(rows + (if left < 2 then 0 else pending), writes, partSize)
    ensures left >= 3 && pending == partSize ==> Spent(rows + pending, left - 3, written + 1, writes, partSize)
    ensures left >= 3 ==> 3 * (written + 1) <= writes && rows + pending <= (written + 1) * partSize
  {
    assert (written + 1) * partSize == written * partSize + partSize;
    if left < 3 {
      assert writes / 3 == written;
      assert (writes + 1) / 3 == if left < 2 then written else written + 1;
    }
  }

  /** The rows past the resume point among the first `seen`. */
  function Past(rows: seq<Cells>, resume: nat, seen: nat): seq<Cells>
    requires seen <= |rows|
  {
    if seen < resume then [] else rows[resume..seen]
  }

  lemma PastStart(before: seq<Cells>, rows: seq<Cells>)
    ensures before == before + Past(rows, |before|, 0)
    ensures Extends(before, rows, before)
  {
  }

  lemma PastNext(rows: seq<Cells>, resume: nat, seen: nat)
    requires seen < |rows|
    ensures Past(rows, resume, seen + 1) == Past(rows, resume, seen) + if seen < resume then [] else [rows[seen]]
  {
  }

  lemma PastAll(before: seq<Cells>, rows: seq<Cells>)
    ensures Resumed(before, rows) == before + Past(rows, |before|, |rows|)
  {
  }

  lemma SoFarExtends(before: seq<Cells>, rows: seq<Cells>, now: seq<Cells>, pending: seq<Cells>, seen: nat)
    requires seen <= |rows| && before <= now && now + pending == before + Past(rows, |before|, seen)
    ensures Extends(before, rows, now)
  {
    assert before + Past(rows, |before|, seen) <= Resumed(before, rows);
  }

  /** What a finished run leaves: the rows committed before it, then the scan past that many rows. */
  function Resumed(before: seq<Cells>, rows: seq<Cells>): seq<Cells> {
    if |rows| <= |before| then before else before + rows[|before|..]
  }

  ghost predicate Extends(before: seq<Cells>, rows: seq<Cells>, now: seq<Cells>) {
    before <= now <= Resumed(before, rows)
  }
}
