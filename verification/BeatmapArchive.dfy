/** Content-addressed snapshots of beatmaps and beatmapsets (app/beatmaps/manager.py:151-344,
    app/utils.py:33-39). A row's id is its place in the table; rows are never deleted. */
module BeatmapArchive {
  import opened Options
  import opened Sequences

  /** One beatmap of an osu! payload: `info` stands for the fields that may change under one checksum. */
  datatype BeatmapDict = BeatmapDict(beatmap: int, checksum: string, info: int)

  datatype Payload = Payload(beatmapset: int, beatmaps: seq<BeatmapDict>, info: int)

  datatype BeatmapRow = BeatmapRow(beatmap: int, checksum: string, info: int)

  datatype SetRow = SetRow(beatmapset: int, checksum: string, links: seq<nat>, info: int)

  datatype Db = Db(beatmaps: seq<BeatmapRow>, sets: seq<SetRow>)

  datatype Outcome = Archived(db: Db) | MissingSnapshot

  type Digest = string -> string

  function Checksums(dicts: seq<BeatmapDict>): (r: seq<string>) {
    seq(|dicts|, i requires 0 <= i < |dicts| => dicts[i].checksum)
  }

  /** `combine_checksums`: one digest over the checksums written one after the other. */
  function Combine(digest: Digest, checksums: seq<string>): string { digest(Flatten(checksums)) }

  /** The row with this checksum, if there is one. */
  function Find<T>(rows: seq<T>, checksumOf: T -> string, checksum: string): (r: Option<nat>)
    ensures r.Some? ==> r.value < |rows| && checksumOf(rows[r.value]) == checksum
    ensures r.None? ==> forall x <- rows :: checksumOf(x) != checksum
  {
    if rows == [] then None
    else if checksumOf(rows[|rows| - 1]) == checksum then Some(|rows| - 1)
    else Find(rows[..|rows| - 1], checksumOf, checksum)
  }

  function FindBeatmap(rows: seq<BeatmapRow>, checksum: string): (r: Option<nat>)
    ensures r.Some? ==> r.value < |rows| && rows[r.value].checksum == checksum
    ensures r.None? ==> forall x <- rows :: x.checksum != checksum
  {
    Find(rows, (row: BeatmapRow) => row.checksum, checksum)
  }

  function FindSet(rows: seq<SetRow>, checksum: string): (r: Option<nat>)
    ensures r.Some? ==> r.value < |rows| && rows[r.value].checksum == checksum
    ensures r.None? ==> forall x <- rows :: x.checksum != checksum
  {
    Find(rows, (row: SetRow) => row.checksum, checksum)
  }

  // ---------------------------------------------------------------- what an archive run does

  /** The rows after snapshotting, the snapshot linked for each beatmap, and the checksums that were new. */
  datatype Snapshots = Snapshots(rows: seq<BeatmapRow>, links: seq<nat>, created: seq<string>)

  function SnapshotOne(s: Snapshots, d: BeatmapDict): Snapshots {
    match FindBeatmap(s.rows, d.checksum)
    case Some(i) => s.(links := s.links + [i])
    case None =>
      Snapshots(s.rows + [BeatmapRow(d.beatmap, d.checksum, d.info)], s.links + [|s.rows|], s.created + [d.checksum])
  }

  function SnapshotBeatmaps(rows: seq<BeatmapRow>, dicts: seq<BeatmapDict>): Snapshots {
    if dicts == [] then Snapshots(rows, [], [])
    else SnapshotOne(SnapshotBeatmaps(rows, dicts[..|dicts| - 1]), dicts[|dicts| - 1])
  }

  /** The update path; a beatmap without a snapshot makes it fail. */
  function UpdateBeatmaps(rows: seq<BeatmapRow>, dicts: seq<BeatmapDict>): Option<seq<BeatmapRow>> {
    if dicts == [] then Some(rows)
    else
      var d := dicts[|dicts| - 1];
      match UpdateBeatmaps(rows, dicts[..|dicts| - 1])
      case None => None
      case Some(updated) =>
        match FindBeatmap(updated, d.checksum)
        case None => None
        case Some(i) => Some(updated[i := updated[i].(info := d.info)])
  }

  function Archive(digest: Digest, db: Db, p: Payload): Outcome {
    var checksum := Combine(digest, Checksums(p.beatmaps));
    match FindSet(db.sets, checksum)
    case None =>
      var s := SnapshotBeatmaps(db.beatmaps, p.beatmaps);
      Archived(Db(s.rows, db.sets + [SetRow(p.beatmapset, checksum, s.links, p.info)]))
    case Some(i) =>
      match UpdateBeatmaps(db.beatmaps, p.beatmaps)
      case None => MissingSnapshot
      case Some(rows) => Archived(Db(rows, db.sets[i := db.sets[i].(info := p.info)]))
  }

  /** A failed run is rolled back as a whole. */
  function Run(digest: Digest, db: Db, payloads: seq<Payload>): Db {
    if payloads == [] then db
    else
      var before := Run(digest, db, payloads[..|payloads| - 1]);
      match Archive(digest, before, payloads[|payloads| - 1])
      case Archived(after) => after
      case MissingSnapshot => before
  }

  // ---------------------------------------------------------------- the invariant

  ghost predicate OnePerChecksum(rows: seq<BeatmapRow>) {
    forall i, j :: 0 <= i < j < |rows| ==> rows[i].checksum != rows[j].checksum
  }

  ghost predicate OneSetPerChecksum(rows: seq<SetRow>) {
    forall i, j :: 0 <= i < j < |rows| ==> rows[i].checksum != rows[j].checksum
  }

  /** The links lead to snapshots with exactly these checksums, in this order. */
  predicate Leads(rows: seq<BeatmapRow>, links: seq<nat>, checksums: seq<string>) {
    && |links| == |checksums|
    && forall i :: 0 <= i < |links| ==> links[i] < |rows| && rows[links[i]].checksum == checksums[i]
  }

  predicate InRange(rows: seq<BeatmapRow>, links: seq<nat>) {
    forall i :: 0 <= i < |links| ==> links[i] < |rows|
  }

  function LinkedChecksums(rows: seq<BeatmapRow>, links: seq<nat>): seq<string>
    requires InRange(rows, links)
  {
    seq(|links|, i requires 0 <= i < |links| => rows[links[i]].checksum)
  }

  /** A set snapshot links exactly the beatmap snapshots its checksum was built from. */
  ghost predicate Linked(digest: Digest, rows: seq<BeatmapRow>, s: SetRow) {
    && InRange(rows, s.links)
    && s.checksum == Combine(digest, LinkedChecksums(rows, s.links))
  }

  ghost predicate Invariant(digest: Digest, db: Db) {
    && OnePerChecksum(db.beatmaps) && OneSetPerChecksum(db.sets)
    && forall s <- db.sets :: Linked(digest, db.beatmaps, s)
  }

  /** Rows keep their place and their checksum; more may be appended. */
  predicate Extends(before: seq<BeatmapRow>, after: seq<BeatmapRow>) {
    |before| <= |after| && forall i :: 0 <= i < |before| ==> after[i].checksum == before[i].checksum
  }

  lemma LinkedSurvives(digest: Digest, before: seq<BeatmapRow>, after: seq<BeatmapRow>, s: SetRow)
    requires Linked(digest, before, s) && Extends(before, after)
    ensures Linked(digest, after, s)
  {
    assert LinkedChecksums(after, s.links) == LinkedChecksums(before, s.links);
  }

  /** The checksums of a table. */
  function Stored(rows: seq<BeatmapRow>): set<string> { set r <- rows :: r.checksum }

  /** The new rows are the created checksums, and only checksums that were not stored. */
  ghost predicate NewRows(rows: seq<BeatmapRow>, s: Snapshots) {
    && rows <= s.rows && |s.rows| == |rows| + |s.created|
    && (forall i :: 0 <= i < |s.created| ==> s.rows[|rows| + i].checksum == s.created[i])
    && (forall c <- s.created :: c !in Stored(rows))
  }

  lemma FoundIsOldOrCreated(rows: seq<BeatmapRow>, s: Snapshots, checksum: string)
    requires NewRows(rows, s)
    ensures FindBeatmap(s.rows, checksum).Some? <==> checksum in Stored(rows) || checksum in s.created
  {
    var found := FindBeatmap(s.rows, checksum);
    if found.Some? {
      var i := found.value;
      if i < |rows| { assert rows[i] in rows; } else { assert s.created[i - |rows|] == checksum; }
    }
    if checksum in s.created {
      var i :| 0 <= i < |s.created| && s.created[i] == checksum;
      assert s.rows[|rows| + i] in s.rows;
    }
    if checksum in Stored(rows) {
      var r :| r in rows && r.checksum == checksum;
      assert r in s.rows;
    }
  }

  /** The rows, links and new checksums after snapshotting these checksums. */
  ghost predicate Snapped(rows: seq<BeatmapRow>, s: Snapshots, checksums: seq<string>) {
    && OnePerChecksum(s.rows) && NewRows(rows, s)
    && Leads(s.rows, s.links, checksums)
    && (forall c :: c in s.created <==> c in checksums && c !in Stored(rows))
  }

  lemma OneMore(rows: seq<BeatmapRow>, s: Snapshots, checksums: seq<string>, d: BeatmapDict)
    requires Snapped(rows, s, checksums)
    ensures Snapped(rows, SnapshotOne(s, d), checksums + [d.checksum])
  {
    FoundIsOldOrCreated(rows, s, d.checksum);
  }

  /** Snapshotting reuses what is stored, creates each missing checksum once and links every beatmap
      of the payload, in order. */
  lemma {:induction false} SnapshotsExactlyNew(rows: seq<BeatmapRow>, dicts: seq<BeatmapDict>)
    requires OnePerChecksum(rows)
    ensures var s := SnapshotBeatmaps(rows, dicts);
            Snapped(rows, s, Checksums(dicts))
  {
    if dicts != [] {
      var before, d := dicts[..|dicts| - 1], dicts[|dicts| - 1];
      SnapshotsExactlyNew(rows, before);
      assert Checksums(dicts) == Checksums(before) + [d.checksum];
      OneMore(rows, SnapshotBeatmaps(rows, before), Checksums(before), d);
    }
  }

  /** The update path changes no checksum, and fails exactly when some beatmap is not stored. */
  lemma {:induction false} UpdatesExactlyStored(rows: seq<BeatmapRow>, dicts: seq<BeatmapDict>)
    ensures var r := UpdateBeatmaps(rows, dicts);
            && (r.Some? <==> forall d <- dicts :: d.checksum in Stored(rows))
            && (r.Some? ==> Extends(rows, r.value) && |r.value| == |rows|)
  {
    if dicts != [] {
      var before, d := dicts[..|dicts| - 1], dicts[|dicts| - 1];
      UpdatesExactlyStored(rows, before);
      assert dicts == before + [d];
      var r := UpdateBeatmaps(rows, before);
      if r.Some? {
        FindKeeps(rows, r.value, d.checksum);
      }
    }
  }

  lemma FindKeeps(before: seq<BeatmapRow>, after: seq<BeatmapRow>, checksum: string)
    requires Extends(before, after) && |before| == |after|
    ensures FindBeatmap(after, checksum).Some? <==> checksum in Stored(before)
  {
    if FindBeatmap(after, checksum).Some? {
      assert before[FindBeatmap(after, checksum).value] in before;
    }
    if checksum in Stored(before) {
      var i :| 0 <= i < |before| && before[i].checksum == checksum;
      assert after[i] in after;
    }
  }

  lemma ExtendsKeepsUnique(before: seq<BeatmapRow>, after: seq<BeatmapRow>)
    requires OnePerChecksum(before) && Extends(before, after) && |before| == |after|
    ensures OnePerChecksum(after)
  {
  }

  lemma CreateKeeps(digest: Digest, db: Db, p: Payload)
    requires Invariant(digest, db) && FindSet(db.sets, Combine(digest, Checksums(p.beatmaps))).None?
    ensures var s := SnapshotBeatmaps(db.beatmaps, p.beatmaps);
            var made := SetRow(p.beatmapset, Combine(digest, Checksums(p.beatmaps)), s.links, p.info);
            Invariant(digest, Db(s.rows, db.sets + [made]))
  {
    SnapshotsExactlyNew(db.beatmaps, p.beatmaps);
    var s := SnapshotBeatmaps(db.beatmaps, p.beatmaps);
    var made := SetRow(p.beatmapset, Combine(digest, Checksums(p.beatmaps)), s.links, p.info);
    assert LinkedChecksums(s.rows, s.links) == Checksums(p.beatmaps);
    forall x | x in db.sets + [made] ensures Linked(digest, s.rows, x) {
      if x in db.sets { LinkedSurvives(digest, db.beatmaps, s.rows, x); }
    }
  }

  lemma UpdateKeeps(digest: Digest, db: Db, rows: seq<BeatmapRow>, i: nat, info: int)
    requires Invariant(digest, db) && Extends(db.beatmaps, rows) && |rows| == |db.beatmaps| && i < |db.sets|
    ensures Invariant(digest, Db(rows, db.sets[i := db.sets[i].(info := info)]))
  {
    ExtendsKeepsUnique(db.beatmaps, rows);
    var sets := db.sets[i := db.sets[i].(info := info)];
    forall x | x in sets ensures Linked(digest, rows, x) {
      var j :| 0 <= j < |sets| && sets[j] == x;
      LinkedSurvives(digest, db.beatmaps, rows, db.sets[j]);
      assert LinkedChecksums(rows, x.links) == LinkedChecksums(rows, db.sets[j].links);
    }
  }

  lemma ArchiveKeeps(digest: Digest, db: Db, p: Payload)
    requires Invariant(digest, db)
    ensures Archive(digest, db, p).Archived? ==> Invariant(digest, Archive(digest, db, p).db)
  {
    var found := FindSet(db.sets, Combine(digest, Checksums(p.beatmaps)));
    if found.None? {
      CreateKeeps(digest, db, p);
    } else {
      UpdatesExactlyStored(db.beatmaps, p.beatmaps);
      var rows := UpdateBeatmaps(db.beatmaps, p.beatmaps);
      if rows.Some? { UpdateKeeps(digest, db, rows.value, found.value, p.info); }
    }
  }

  /** A run looks up a missing snapshot if and only if the combined checksum is known and some
      beatmap's is not. */
  lemma MissingExactly(digest: Digest, db: Db, p: Payload)
    ensures Archive(digest, db, p) == MissingSnapshot <==>
            && FindSet(db.sets, Combine(digest, Checksums(p.beatmaps))).Some?
            && exists d <- p.beatmaps :: d.checksum !in Stored(db.beatmaps)
  {
    UpdatesExactlyStored(db.beatmaps, p.beatmaps);
  }

  /** Over every sequence of runs: one beatmap snapshot per checksum, one set snapshot per combined
      checksum, and each set snapshot links exactly the beatmaps its checksum was built from. */
  lemma {:induction false} RunKeeps(digest: Digest, db: Db, payloads: seq<Payload>)
    requires Invariant(digest, db)
    ensures Invariant(digest, Run(digest, db, payloads))
  {
    if payloads != [] {
      RunKeeps(digest, db, payloads[..|payloads| - 1]);
      ArchiveKeeps(digest, Run(digest, db, payloads[..|payloads| - 1]), payloads[|payloads| - 1]);
    }
  }

  // ---------------------------------------------------------------- no missing snapshot

  const CHECKSUM_LENGTH := 32

  predicate FixedWidth(checksums: seq<string>) { forall c <- checksums :: |c| == CHECKSUM_LENGTH }

  /** No two of these texts have the same digest. */
  ghost predicate CollisionFree(digest: Digest, texts: set<string>) {
    forall x <- texts, y <- texts :: digest(x) == digest(y) ==> x == y
  }

  /** What a sequence of runs computes digests of. */
  function Texts(payloads: seq<Payload>): set<string> { set p <- payloads :: Flatten(Checksums(p.beatmaps)) }

  lemma {:induction false} FlattenLength(parts: seq<string>)
    requires FixedWidth(parts)
    ensures |Flatten(parts)| == CHECKSUM_LENGTH * |parts|
  {
    if parts != [] {
      assert parts[|parts| - 1] in parts;
      FlattenLength(parts[..|parts| - 1]);
    }
  }

  lemma {:induction false} FlattenInjective(a: seq<string>, b: seq<string>)
    requires FixedWidth(a) && FixedWidth(b) && Flatten(a) == Flatten(b)
    ensures a == b
  {
    FlattenLength(a);
    FlattenLength(b);
    if a != [] {
      var front, last := a[..|a| - 1], a[|a| - 1];
      var front', last' := b[..|b| - 1], b[|b| - 1];
      assert last in a && last' in b;
      var n := |Flatten(a)| - CHECKSUM_LENGTH;
      assert last == Flatten(a)[n..] == last';
      assert Flatten(front) == Flatten(a)[..n] == Flatten(front');
      FlattenInjective(front, front');
      assert a == front + [last] && b == front' + [last'];
    }
  }

  /** All stored checksums have the length of an MD5 digest. */
  ghost predicate Uniform(rows: seq<BeatmapRow>) { forall r <- rows :: |r.checksum| == CHECKSUM_LENGTH }

  /** When the combined checksum is known, so is every checksum that went into it. */
  lemma KnownSetKnowsBeatmaps(digest: Digest, rows: seq<BeatmapRow>, s: SetRow, dicts: seq<BeatmapDict>)
    requires Uniform(rows) && FixedWidth(Checksums(dicts)) && Linked(digest, rows, s)
    requires s.checksum == Combine(digest, Checksums(dicts))
    requires CollisionFree(digest, {Flatten(LinkedChecksums(rows, s.links)), Flatten(Checksums(dicts))})
    ensures forall d <- dicts :: d.checksum in Stored(rows)
  {
    var linked, checksums := LinkedChecksums(rows, s.links), Checksums(dicts);
    assert FixedWidth(linked);
    FlattenInjective(linked, checksums);
    forall i | 0 <= i < |dicts| ensures dicts[i].checksum in Stored(rows) {
      assert checksums[i] == dicts[i].checksum && linked[i] == rows[s.links[i]].checksum;
      assert rows[s.links[i]] in rows;
    }
  }

  /** Every set snapshot was made from one of these texts. */
  ghost predicate Traced(db: Db, texts: set<string>) {
    forall s <- db.sets :: InRange(db.beatmaps, s.links) && Flatten(LinkedChecksums(db.beatmaps, s.links)) in texts
  }

  lemma SnapshotsUniform(rows: seq<BeatmapRow>, dicts: seq<BeatmapDict>)
    requires OnePerChecksum(rows) && Uniform(rows) && FixedWidth(Checksums(dicts))
    ensures Uniform(SnapshotBeatmaps(rows, dicts).rows)
  {
    SnapshotsExactlyNew(rows, dicts);
    var s := SnapshotBeatmaps(rows, dicts);
    forall i | 0 <= i < |s.rows| ensures |s.rows[i].checksum| == CHECKSUM_LENGTH {
      if i >= |rows| { assert s.created[i - |rows|] in Checksums(dicts); } else { assert s.rows[i] in rows; }
    }
  }

  lemma ExtendsUniform(before: seq<BeatmapRow>, after: seq<BeatmapRow>)
    requires Uniform(before) && Extends(before, after) && |before| == |after|
    ensures Uniform(after)
  {
    forall i | 0 <= i < |after| ensures |after[i].checksum| == CHECKSUM_LENGTH { assert before[i] in before; }
  }

  lemma TraceSurvives(before: seq<BeatmapRow>, after: seq<BeatmapRow>, links: seq<nat>)
    requires Extends(before, after) && InRange(before, links)
    ensures InRange(after, links) && LinkedChecksums(after, links) == LinkedChecksums(before, links)
  {
  }

  lemma CreateTraces(digest: Digest, db: Db, p: Payload, texts: set<string>)
    requires Invariant(digest, db) && Traced(db, texts) && Flatten(Checksums(p.beatmaps)) in texts
    ensures var s := SnapshotBeatmaps(db.beatmaps, p.beatmaps);
            var made := SetRow(p.beatmapset, Combine(digest, Checksums(p.beatmaps)), s.links, p.info);
            Traced(Db(s.rows, db.sets + [made]), texts)
  {
    SnapshotsExactlyNew(db.beatmaps, p.beatmaps);
    var s := SnapshotBeatmaps(db.beatmaps, p.beatmaps);
    assert LinkedChecksums(s.rows, s.links) == Checksums(p.beatmaps);
    forall x | x in db.sets
      ensures InRange(s.rows, x.links) && LinkedChecksums(s.rows, x.links) == LinkedChecksums(db.beatmaps, x.links)
    {
      TraceSurvives(db.beatmaps, s.rows, x.links);
    }
  }

  lemma UpdateTraces(db: Db, rows: seq<BeatmapRow>, i: nat, info: int, texts: set<string>)
    requires Traced(db, texts) && Extends(db.beatmaps, rows) && i < |db.sets|
    ensures Traced(Db(rows, db.sets[i := db.sets[i].(info := info)]), texts)
  {
    var sets := db.sets[i := db.sets[i].(info := info)];
    forall x | x in sets ensures InRange(rows, x.links) && Flatten(LinkedChecksums(rows, x.links)) in texts {
      var j :| 0 <= j < |sets| && sets[j] == x;
      assert db.sets[j] in db.sets && x.links == db.sets[j].links;
      TraceSurvives(db.beatmaps, rows, x.links);
    }
  }

  lemma ArchiveSucceeds(digest: Digest, db: Db, p: Payload, texts: set<string>)
    requires CollisionFree(digest, texts) && Traced(db, texts) && Flatten(Checksums(p.beatmaps)) in texts
    requires Invariant(digest, db) && Uniform(db.beatmaps) && FixedWidth(Checksums(p.beatmaps))
    ensures var r := Archive(digest, db, p);
            r.Archived? && Uniform(r.db.beatmaps) && Traced(r.db, texts)
  {
    var found := FindSet(db.sets, Combine(digest, Checksums(p.beatmaps)));
    if found.None? {
      SnapshotsUniform(db.beatmaps, p.beatmaps);
      CreateTraces(digest, db, p, texts);
    } else {
      assert db.sets[found.value] in db.sets;
      KnownSetKnowsBeatmaps(digest, db.beatmaps, db.sets[found.value], p.beatmaps);
      UpdatesExactlyStored(db.beatmaps, p.beatmaps);
      var rows := UpdateBeatmaps(db.beatmaps, p.beatmaps).value;
      ExtendsUniform(db.beatmaps, rows);
      UpdateTraces(db, rows, found.value, p.info, texts);
    }
  }

  lemma {:induction false} RunUniform(digest: Digest, payloads: seq<Payload>, texts: set<string>)
    requires CollisionFree(digest, texts) && Texts(payloads) <= texts
    requires forall p <- payloads :: FixedWidth(Checksums(p.beatmaps))
    ensures var db := Run(digest, Db([], []), payloads);
            Invariant(digest, db) && Uniform(db.beatmaps) && Traced(db, texts)
  {
    RunKeeps(digest, Db([], []), payloads);
    if payloads != [] {
      var before, last := payloads[..|payloads| - 1], payloads[|payloads| - 1];
      assert last in payloads && forall p <- before :: p in payloads;
      assert Texts(before) <= Texts(payloads);
      RunUniform(digest, before, texts);
      ArchiveSucceeds(digest, Run(digest, Db([], []), before), last, texts);
    }
  }

  /** When no two payloads of the runs collide and checksums have one length, no run of any sequence
      looks up a snapshot that is missing. */
  lemma NeverMissing(digest: Digest, payloads: seq<Payload>, p: Payload)
    requires CollisionFree(digest, Texts(payloads + [p]))
    requires forall q <- payloads + [p] :: FixedWidth(Checksums(q.beatmaps))
    ensures Archive(digest, Run(digest, Db([], []), payloads), p).Archived?
  {
    var all := payloads + [p];
    assert p in all && forall q <- payloads :: q in all;
    assert Texts(payloads) <= Texts(all);
    RunUniform(digest, payloads, Texts(all));
    ArchiveSucceeds(digest, Run(digest, Db([], []), payloads), p, Texts(all));
  }

  const SPLIT_ONE := Payload(1, [BeatmapDict(1, "ab", 0), BeatmapDict(2, "c", 0)], 0)
  const SPLIT_TWO := Payload(2, [BeatmapDict(3, "a", 0), BeatmapDict(4, "bc", 0)], 0)

  lemma SplitsCombineAlike(digest: Digest)
    ensures Checksums(SPLIT_ONE.beatmaps) == ["ab", "c"]
    ensures Combine(digest, Checksums(SPLIT_ONE.beatmaps)) == Combine(digest, Checksums(SPLIT_TWO.beatmaps))
  {
    assert Checksums(SPLIT_ONE.beatmaps) == ["ab", "c"] && Checksums(SPLIT_TWO.beatmaps) == ["a", "bc"];
    assert ["ab", "c"] == ["ab"] + ["c"] && ["a", "bc"] == ["a"] + ["bc"];
    FlattenJoins(["ab"], ["c"]);
    FlattenJoins(["a"], ["bc"]);
    FlattenOne("ab");
    FlattenOne("c");
    FlattenOne("a");
    FlattenOne("bc");
    assert "ab" + "c" == "abc" == "a" + "bc";
  }

  /** With checksums of different lengths, even a collision-free digest is not enough: "ab", "c" and
      "a", "bc" combine to the same checksum, and the second archive fails. */
  lemma MixedLengthsCollide(digest: Digest)
    ensures Archive(digest, Db([], []), SPLIT_ONE).Archived?
    ensures Archive(digest, Archive(digest, Db([], []), SPLIT_ONE).db, SPLIT_TWO) == MissingSnapshot
  {
    SplitsCombineAlike(digest);
    SplitIsUnknown();
    MissingExactly(digest, Archive(digest, Db([], []), SPLIT_ONE).db, SPLIT_TWO);
    assert SPLIT_TWO.beatmaps[0] in SPLIT_TWO.beatmaps;
  }

  lemma SplitIsUnknown()
    ensures "a" !in Stored(SnapshotBeatmaps([], SPLIT_ONE.beatmaps).rows)
  {
    var s := SnapshotBeatmaps([], SPLIT_ONE.beatmaps);
    SnapshotsExactlyNew([], SPLIT_ONE.beatmaps);
    assert Checksums(SPLIT_ONE.beatmaps) == ["ab", "c"];
    FoundIsOldOrCreated([], s, "a");
  }

  // ---------------------------------------------------------------- the manager as it runs

  class Manager {
    const digest: Digest
    var beatmaps: seq<BeatmapRow>
    var sets: seq<SetRow>
    var changelog: seq<string>

    constructor (digest: Digest)
      ensures this.digest == digest && Contents() == Db([], []) && Invariant(digest, Contents())
    {
      this.digest := digest;
      beatmaps, sets, changelog := [], [], [];
    }

    function Contents(): Db
      reads this
    {
      Db(beatmaps, sets)
    }

    /** Looks up each beatmap, adds the missing ones and logs them. */
    method TakeSnapshots(dicts: seq<BeatmapDict>) returns (links: seq<nat>)
      modifies `beatmaps, `changelog
      ensures Snapshots(beatmaps, links, changelog) == SnapshotBeatmaps(old(beatmaps), dicts)
    {
      links, changelog := [], [];
      for i := 0 to |dicts|
        invariant Snapshots(beatmaps, links, changelog) == SnapshotBeatmaps(old(beatmaps), dicts[..i])
      {
        var found := FindBeatmap(beatmaps, dicts[i].checksum);
        assert dicts[..i + 1][..i] == dicts[..i];
        if found.Some? {
          links := links + [found.value];
        } else {
          links := links + [|beatmaps|];
          beatmaps := beatmaps + [BeatmapRow(dicts[i].beatmap, dicts[i].checksum, dicts[i].info)];
          changelog := changelog + [dicts[i].checksum];
        }
      }
      assert dicts[..|dicts|] == dicts;
    }

    /** The rows after the field updates, or nothing when a snapshot is missing. */
    method ApplyUpdates(dicts: seq<BeatmapDict>) returns (rows: Option<seq<BeatmapRow>>)
      ensures rows == UpdateBeatmaps(beatmaps, dicts)
    {
      rows := Some(beatmaps);
      for i := 0 to |dicts|
        invariant rows == UpdateBeatmaps(beatmaps, dicts[..i])
      {
        assert dicts[..i + 1][..i] == dicts[..i];
        if rows.Some? {
          var found := FindBeatmap(rows.value, dicts[i].checksum);
          if found.None? {
            rows := None;
          } else if rows.value[found.value].info != dicts[i].info {
            rows := Some(rows.value[found.value := rows.value[found.value].(info := dicts[i].info)]);
          } else {
            assert rows.value == rows.value[found.value := rows.value[found.value].(info := dicts[i].info)];
          }
        }
      }
      assert dicts[..|dicts|] == dicts;
    }

    /** One archive run: a new set snapshot, or updates to the one there is; a failure changes nothing. */
    method ArchiveSet(p: Payload) returns (ok: bool)
      modifies this
      ensures ok <==> Archive(digest, old(Contents()), p).Archived?
      ensures Contents() == if ok then Archive(digest, old(Contents()), p).db else old(Contents())
      ensures old(Invariant(digest, Contents())) ==> Invariant(digest, Contents())
    {
      if Invariant(digest, Contents()) { ArchiveKeeps(digest, Contents(), p); }
      var checksum := Combine(digest, Checksums(p.beatmaps));
      var found := FindSet(sets, checksum);
      if found.None? {
        var links := TakeSnapshots(p.beatmaps);
        sets := sets + [SetRow(p.beatmapset, checksum, links, p.info)];
        return true;
      }
      var rows := ApplyUpdates(p.beatmaps);
      if rows.None? {
        return false;
      }
      beatmaps := rows.value;
      sets := sets[found.value := sets[found.value].(info := p.info)];
      ok := true;
    }
  }
}
