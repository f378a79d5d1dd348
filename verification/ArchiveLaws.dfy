/** What an archive run writes, row by row and field by field (app/beatmaps/manager.py:151-344). */
module ArchiveLaws {
  import opened Options
  import opened Sequences
  import opened BeatmapArchive

  /** The last, and the first, beatmap of the payload with this checksum. */
  predicate LastFor(dicts: seq<BeatmapDict>, checksum: string, k: nat) {
    && k < |dicts| && dicts[k].checksum == checksum
    && forall m :: k < m < |dicts| ==> dicts[m].checksum != checksum
  }

  predicate FirstFor(dicts: seq<BeatmapDict>, checksum: string, k: nat) {
    && k < |dicts| && dicts[k].checksum == checksum
    && forall m :: 0 <= m < k ==> dicts[m].checksum != checksum
  }

  // ---------------------------------------------------------------- the update path

  /** Each row of a checksum of the payload carries the last info given for it, and nothing else
      changed. */
  ghost predicate Rewritten(rows: seq<BeatmapRow>, dicts: seq<BeatmapDict>, r: seq<BeatmapRow>) {
    && |r| == |rows|
    && (forall j :: 0 <= j < |rows| ==> r[j].beatmap == rows[j].beatmap && r[j].checksum == rows[j].checksum)
    && (forall j, k: nat :: 0 <= j < |rows| && LastFor(dicts, rows[j].checksum, k) ==> r[j].info == dicts[k].info)
    && (forall j :: 0 <= j < |rows| && (forall d <- dicts :: d.checksum != rows[j].checksum) ==> r[j] == rows[j])
  }

  lemma LastOfMore(before: seq<BeatmapDict>, d: BeatmapDict, checksum: string, k: nat)
    requires LastFor(before + [d], checksum, k)
    ensures if d.checksum == checksum then k == |before| else LastFor(before, checksum, k)
  {
    var all := before + [d];
    assert all[|before|] == d;
    assert forall m :: 0 <= m < |before| ==> all[m] == before[m];
  }

  lemma OneRewrite(rows: seq<BeatmapRow>, before: seq<BeatmapDict>, d: BeatmapDict, r: seq<BeatmapRow>, i: nat)
    requires OnePerChecksum(rows) && Rewritten(rows, before, r) && i < |rows| && r[i].checksum == d.checksum
    ensures Rewritten(rows, before + [d], r[i := r[i].(info := d.info)])
  {
    var all, next := before + [d], r[i := r[i].(info := d.info)];
    assert all[|before|] == d && d in all && forall x <- before :: x in all;
    forall j, k: nat | 0 <= j < |rows| && LastFor(all, rows[j].checksum, k) ensures next[j].info == all[k].info {
      LastOfMore(before, d, rows[j].checksum, k);
    }
  }

  lemma {:induction false} UpdateRewrites(rows: seq<BeatmapRow>, dicts: seq<BeatmapDict>)
    requires OnePerChecksum(rows) && UpdateBeatmaps(rows, dicts).Some?
    ensures Rewritten(rows, dicts, UpdateBeatmaps(rows, dicts).value)
  {
    if dicts != [] {
      var before, d := dicts[..|dicts| - 1], dicts[|dicts| - 1];
      UpdateRewrites(rows, before);
      var r := UpdateBeatmaps(rows, before).value;
      OneRewrite(rows, before, d, r, FindBeatmap(r, d.checksum).value);
      assert dicts == before + [d];
    }
  }

  // ---------------------------------------------------------------- the create path

  /** The old rows are as they were, and each new one carries the beatmap and the info of the first
      entry of the payload with its checksum. */
  ghost predicate Extended(rows: seq<BeatmapRow>, dicts: seq<BeatmapDict>, r: seq<BeatmapRow>) {
    && rows <= r
    && forall j :: |rows| <= j < |r| ==>
         exists k: nat :: FirstFor(dicts, r[j].checksum, k)
             && r[j] == BeatmapRow(dicts[k].beatmap, r[j].checksum, dicts[k].info)
  }

  lemma FirstOfMore(before: seq<BeatmapDict>, d: BeatmapDict, checksum: string, k: nat)
    requires FirstFor(before, checksum, k)
    ensures FirstFor(before + [d], checksum, k) && (before + [d])[k] == before[k]
  {
  }

  lemma OneExtension(rows: seq<BeatmapRow>, s: Snapshots, before: seq<BeatmapDict>, d: BeatmapDict)
    requires Snapped(rows, s, Checksums(before)) && Extended(rows, before, s.rows)
    ensures Extended(rows, before + [d], SnapshotOne(s, d).rows)
  {
    var r := SnapshotOne(s, d).rows;
    forall j | |rows| <= j < |r|
      ensures exists k: nat :: FirstFor(before + [d], r[j].checksum, k)
                               && r[j] == BeatmapRow((before + [d])[k].beatmap, r[j].checksum, (before + [d])[k].info)
    {
      if j < |s.rows| {
        var k: nat :| FirstFor(before, s.rows[j].checksum, k)
                      && s.rows[j] == BeatmapRow(before[k].beatmap, s.rows[j].checksum, before[k].info);
        FirstOfMore(before, d, s.rows[j].checksum, k);
      } else {
        FoundIsOldOrCreated(rows, s, d.checksum);
        forall m | 0 <= m < |before| ensures before[m].checksum != d.checksum {
          assert Checksums(before)[m] == before[m].checksum;
        }
        assert FirstFor(before + [d], d.checksum, |before|);
      }
    }
  }

  lemma {:induction false} ExtendsByOne(rows: seq<BeatmapRow>, s: Snapshots, before: seq<BeatmapDict>, d: BeatmapDict,
                                        dicts: seq<BeatmapDict>)
    requires dicts == before + [d] && s == SnapshotBeatmaps(rows, before)
    requires Snapped(rows, s, Checksums(before)) && Extended(rows, before, s.rows)
    ensures Extended(rows, dicts, SnapshotBeatmaps(rows, dicts).rows)
  {
    OneExtension(rows, s, before, d);
    assert dicts[..|dicts| - 1] == before && dicts[|dicts| - 1] == d;
  }

  lemma {:induction false} SnapshotExtends(rows: seq<BeatmapRow>, dicts: seq<BeatmapDict>)
    requires OnePerChecksum(rows)
    ensures Extended(rows, dicts, SnapshotBeatmaps(rows, dicts).rows)
  {
    if dicts != [] {
      var before, d := dicts[..|dicts| - 1], dicts[|dicts| - 1];
      assert dicts == before + [d];
      SnapshotExtends(rows, before);
      SnapshotsExactlyNew(rows, before);
      ExtendsByOne(rows, SnapshotBeatmaps(rows, before), before, d, dicts);
    }
  }

  // ---------------------------------------------------------------- one archive run

  /** A payload whose combined checksum is new gets a set row with its beatmapset and info, linked to
      its beatmaps in order, and rows for the checksums that were missing. Otherwise, if the run
      succeeds, the row of that combined checksum takes the payload's info, and the rows of its
      beatmaps take theirs; all other rows, and all other fields, stay. */
  lemma ArchiveWrites(digest: Digest, db: Db, p: Payload)
    requires Invariant(digest, db) && Archive(digest, db, p).Archived?
    ensures var checksum := digest(Flatten(Checksums(p.beatmaps)));
            var after := Archive(digest, db, p).db;
            if forall s <- db.sets :: s.checksum != checksum then
              && Extended(db.beatmaps, p.beatmaps, after.beatmaps)
              && |after.sets| == |db.sets| + 1 && after.sets[..|db.sets|] == db.sets
              && var made := after.sets[|db.sets|];
                 && made.beatmapset == p.beatmapset && made.checksum == checksum && made.info == p.info
                 && Leads(after.beatmaps, made.links, Checksums(p.beatmaps))
            else
              && Rewritten(db.beatmaps, p.beatmaps, after.beatmaps)
              && |after.sets| == |db.sets|
              && forall i :: 0 <= i < |db.sets| ==>
                   after.sets[i] == if db.sets[i].checksum == checksum then db.sets[i].(info := p.info) else db.sets[i]
  {
    var found := FindSet(db.sets, Combine(digest, Checksums(p.beatmaps)));
    if found.None? {
      SnapshotsExactlyNew(db.beatmaps, p.beatmaps);
      SnapshotExtends(db.beatmaps, p.beatmaps);
    } else {
      assert db.sets[found.value] in db.sets;
      UpdateRewrites(db.beatmaps, p.beatmaps);
    }
  }
}
