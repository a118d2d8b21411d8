/**
 Source bytes, their catalogue, and the maintenance sweep that prunes them.

 A digest stands for the bytes it addresses, so `files` is the set of digests
 whose bytes are on disk. Digests are compared as the SELECT orders them.
 */
module AssetLibrary {
  import opened Base
  import opened JobTable

  datatype Asset = Asset(active: bool, orphanedAt: Option<int>)

  datatype MediaRow = MediaRow(googleId: MediaId, digest: Digest, active: bool, lastUsed: int)

  datatype Operation = Operation(active: bool, lastUsed: int)

  datatype Character = Character(deleted: bool, hashes: set<Digest>)

  datatype Library = Library(
    assets: map<Digest, Asset>,
    files: set<Digest>,
    media: map<nat, MediaRow>,
    operations: map<nat, Operation>,
    characters: map<nat, Character>,
    assetCursor: int,
    mediaCursor: int)

  datatype Retention = Retention(operationDays: int, mediaDays: int, assetDays: int, jobDays: int, batch: int)

  function BatchSize(keep: Retention): nat { Max(1, Min(keep.batch, 5000)) }

  // ----- persist_asset, record_asset, touch_assets ---------------------------

  function Persisted(lib: Library, d: Digest): Library {
    Recorded(lib.(files := lib.files + {d}), d)
  }

  function Recorded(lib: Library, d: Digest): Library {
    lib.(assets := lib.assets[d := Asset(true, None)])
  }

  function Touched(lib: Library, ds: set<Digest>): Library {
    lib.(assets := map d | d in lib.assets :: if d in ds then Asset(true, None) else lib.assets[d])
  }

  // ----- prune ---------------------------------------------------------------

  /** SELECT key FROM candidates WHERE key > after ORDER BY key LIMIT n. */
  function Batch(candidates: set<nat>, after: int, n: nat): (batch: seq<nat>)
    decreases n
  {
    var rest := set x | x in candidates && x > after;
    if n == 0 || rest == {} then []
    else [Least(rest)] + Batch(candidates, Least(rest), n - 1)
  }

  function ActiveAssets(assets: map<Digest, Asset>): set<Digest> {
    set d | d in assets && assets[d].active
  }

  function AssetBatch(lib: Library, n: nat): seq<Digest> {
    Batch(ActiveAssets(lib.assets), lib.assetCursor, n)
  }

  /** A short batch means the end was reached: start over. */
  function NextCursor(batch: seq<nat>, n: nat, start: int): int {
    if |batch| < n || batch == [] then start else batch[|batch| - 1]
  }

  /** The cursor before the first asset; digests are compared as strings and "" sorts first. */
  const ASSET_START := -1

  /** rowid starts at 1. */
  const MEDIA_START := 0

  function LiveMediaIds(jobs: Jobs): set<MediaId> {
    set id, m | id in jobs && Active(jobs[id]) && m in jobs[id].sub.mediaRefs :: m
  }

  function JobDigests(jobs: Jobs): set<Digest> {
    set id, d | id in jobs && Active(jobs[id]) && d in jobs[id].sub.hashes :: d
  }

  function CharacterDigests(characters: map<nat, Character>): set<Digest> {
    set c, d | c in characters && !characters[c].deleted && d in characters[c].hashes :: d
  }

  function MediaDigests(media: map<nat, MediaRow>, ids: set<MediaId>): set<Digest> {
    set m | m in media && media[m].googleId in ids :: media[m].digest
  }

  function Referenced(jobs: Jobs, lib: Library): set<Digest> {
    CharacterDigests(lib.characters) + JobDigests(jobs) + MediaDigests(lib.media, LiveMediaIds(jobs))
  }

  predicate MediaStale(m: MediaRow, keep: Retention, now: int) {
    !m.active || m.lastUsed < now - keep.mediaDays * DAY
  }

  function StaleMedia(lib: Library, keep: Retention, now: int): set<nat> {
    set m | m in lib.media && MediaStale(lib.media[m], keep, now)
  }

  function MediaBatch(lib: Library, keep: Retention, now: int): seq<nat> {
    Batch(StaleMedia(lib, keep, now), lib.mediaCursor, BatchSize(keep))
  }

  /** The candidates that no live job names. */
  function Unused(candidates: seq<nat>, media: map<nat, MediaRow>, live: set<MediaId>): set<nat> {
    set m | m in candidates && m in media && media[m].googleId !in live
  }

  function MediaDropped(lib: Library, jobs: Jobs, keep: Retention, now: int): set<nat> {
    Unused(MediaBatch(lib, keep, now), lib.media, LiveMediaIds(jobs))
  }

  /** Referenced assets lose their orphan mark; the others get one if they had none. */
  function Marked(a: Asset, referenced: bool, now: int): Asset {
    if referenced then a.(orphanedAt := None)
    else if a.orphanedAt.None? then a.(orphanedAt := Some(now))
    else a
  }

  predicate GraceOver(a: Asset, keep: Retention, now: int) {
    a.active && a.orphanedAt.Some? && a.orphanedAt.value <= now - Max(1, keep.assetDays) * DAY
  }

  function AllMarked(rows: seq<Digest>, assets: map<Digest, Asset>, referenced: set<Digest>, now: int): map<Digest, Asset> {
    map d | d in assets :: if d in rows then Marked(assets[d], d in referenced, now) else assets[d]
  }

  function AssetsMarked(lib: Library, jobs: Jobs, keep: Retention, now: int): map<Digest, Asset> {
    AllMarked(AssetBatch(lib, BatchSize(keep)), lib.assets, Referenced(jobs, lib), now)
  }

  function OverAged(rows: seq<Digest>, assets: map<Digest, Asset>, keep: Retention, now: int): set<Digest> {
    set d | d in rows && d in assets && GraceOver(assets[d], keep, now)
  }

  function Retired(assets: map<Digest, Asset>, doomed: set<Digest>): map<Digest, Asset> {
    map d | d in assets :: if d in doomed then assets[d].(active := false) else assets[d]
  }

  /** The digests whose bytes this sweep deletes. */
  function Doomed(lib: Library, jobs: Jobs, keep: Retention, now: int): set<Digest> {
    OverAged(AssetBatch(lib, BatchSize(keep)), AssetsMarked(lib, jobs, keep, now), keep, now)
  }

  ghost predicate IsOperationSweep(lib: Library, keep: Retention, now: int, drop: set<nat>) {
    var stale := set o | o in lib.operations &&
      (!lib.operations[o].active || lib.operations[o].lastUsed < now - keep.operationDays * DAY);
    drop <= stale && |drop| <= BatchSize(keep) && (drop != stale ==> |drop| == BatchSize(keep))
  }

  function Pruned(lib: Library, jobs: Jobs, keep: Retention, now: int, operationsDropped: set<nat>): Library {
    var marked := AssetsMarked(lib, jobs, keep, now);
    var doomed := Doomed(lib, jobs, keep, now);
    var n := BatchSize(keep);
    lib.(operations := Without(lib.operations, operationsDropped),
         media := Without(lib.media, MediaDropped(lib, jobs, keep, now)),
         assets := Retired(marked, doomed),
         files := lib.files - doomed,
         assetCursor := NextCursor(AssetBatch(lib, n), n, ASSET_START),
         mediaCursor := NextCursor(MediaBatch(lib, keep, now), n, MEDIA_START))
  }

  // ----- what one sweep does -------------------------------------------------

  /** A batch is sorted, comes from the candidates, and leaves no gap. */
  lemma {:induction false} BatchIsPrefix(c: set<nat>, after: int, n: nat)
    ensures |Batch(c, after, n)| <= n
    ensures forall i, j | 0 <= i < j < |Batch(c, after, n)| :: Batch(c, after, n)[i] < Batch(c, after, n)[j]
    ensures forall i | 0 <= i < |Batch(c, after, n)| :: Batch(c, after, n)[i] in c && Batch(c, after, n)[i] > after
    ensures forall x | x in c && x > after && x !in Batch(c, after, n) ::
              |Batch(c, after, n)| == n && forall y | y in Batch(c, after, n) :: y < x
    decreases n
  {
    if n == 0 || (forall x | x in c :: x <= after) {
      BatchEnds(c, after, n);
      hide Batch;
    } else {
      var m, tail := BatchSplits(c, after, n);
      BatchIsPrefix(c, m, n - 1);
      hide Batch;
      BatchGrows(c, after, n, m, tail);
    }
  }

  lemma BatchEnds(c: set<nat>, after: int, n: nat)
    requires n == 0 || forall x | x in c :: x <= after
    ensures Batch(c, after, n) == []
  {
  }

  lemma BatchSplits(c: set<nat>, after: int, n: nat) returns (m: nat, tail: seq<nat>)
    requires n > 0 && exists x :: x in c && x > after
    ensures m in c && m > after && forall x | x in c && x > after :: m <= x
    ensures tail == Batch(c, m, n - 1) && Batch(c, after, n) == [m] + tail
  {
    var rest := set x | x in c && x > after;
    assert forall x | x in c && x > after :: x in rest;
    m := Least(rest);
    tail := Batch(c, m, n - 1);
    assert m in rest;
  }

  /** Putting the least candidate in front of the batch behind it. */
  lemma BatchGrows(c: set<nat>, after: int, n: nat, m: nat, tail: seq<nat>)
    requires n > 0 && m in c && m > after && (forall x | x in c && x > after :: m <= x) && |tail| <= n - 1
    requires forall i, j | 0 <= i < j < |tail| :: tail[i] < tail[j]
    requires forall i | 0 <= i < |tail| :: tail[i] in c && tail[i] > m
    requires forall x | x in c && x > m && x !in tail :: |tail| == n - 1 && forall y | y in tail :: y < x
    ensures var b := [m] + tail;
            && |b| <= n
            && (forall i, j | 0 <= i < j < |b| :: b[i] < b[j])
            && (forall i | 0 <= i < |b| :: b[i] in c && b[i] > after)
            && forall x | x in c && x > after && x !in b :: |b| == n && forall y | y in b :: y < x
  {
    var b := [m] + tail;
    assert forall i | 0 < i < |b| :: b[i] == tail[i - 1];
    forall x | x in c && x > after && x !in b ensures |b| == n && forall y | y in b :: y < x {
      assert x != m by { assert b[0] == m; }
      assert x !in tail by { assert forall y | y in tail :: y in b; }
    }
  }

  /** A named digest keeps its bytes, and its orphan clock stops if it was examined. */
  lemma SweepSparesReferenced(lib: Library, jobs: Jobs, keep: Retention, now: int, ops: set<nat>, d: Digest)
    requires IsNamed(jobs, lib, d)
    ensures d !in Doomed(lib, jobs, keep, now)
    ensures d in lib.files ==> d in Pruned(lib, jobs, keep, now, ops).files
    ensures d in lib.assets && d in AssetBatch(lib, BatchSize(keep)) ==>
              Pruned(lib, jobs, keep, now, ops).assets[d].orphanedAt == None
  {
    ReferencedExactly(jobs, lib, d);
    hide Referenced, IsNamed;
    var marked := AssetsMarked(lib, jobs, keep, now);
    if d in AssetBatch(lib, BatchSize(keep)) && d in lib.assets {
      assert marked[d] == Marked(lib.assets[d], true, now);
    }
  }

  /**
   Exactly the examined, unreferenced assets whose grace period ended before
   this sweep lose their bytes; being marked and being deleted never coincide.
   */
  lemma SweepDeletesExactly(lib: Library, jobs: Jobs, keep: Retention, now: int, d: Digest)
    ensures d in Doomed(lib, jobs, keep, now) <==>
              && d in AssetBatch(lib, BatchSize(keep))
              && d in lib.assets
              && d !in Referenced(jobs, lib)
              && GraceOver(lib.assets[d], keep, now)
  {
    hide Referenced, AssetBatch;
  }

  /** A mapping some live job names is never deleted, however old it is. */
  lemma SweepKeepsLiveMappings(lib: Library, jobs: Jobs, keep: Retention, now: int, ops: set<nat>, m: nat)
    requires m in lib.media && lib.media[m].googleId in LiveMediaIds(jobs)
    ensures m in Pruned(lib, jobs, keep, now, ops).media
    ensures Pruned(lib, jobs, keep, now, ops).media[m] == lib.media[m]
  {
  }

  // ----- the same without the sweep's own functions -----------------------------

  /** A Character that is not deleted lists the digest. */
  ghost predicate InCharacter(characters: map<nat, Character>, d: Digest) {
    exists c :: c in characters && !characters[c].deleted && d in characters[c].hashes
  }

  /** An unfinished job lists the digest. */
  ghost predicate InJob(jobs: Jobs, d: Digest) {
    exists id :: id in jobs && jobs[id].status in {Queued, Dispatching, Running} && d in jobs[id].sub.hashes
  }

  /** An unfinished job names this media id. */
  ghost predicate InUse(jobs: Jobs, media: MediaId) {
    exists id :: id in jobs && jobs[id].status in {Queued, Dispatching, Running} && media in jobs[id].sub.mediaRefs
  }

  /** A mapping ties the digest to a media id that an unfinished job names. */
  ghost predicate InMedia(jobs: Jobs, media: map<nat, MediaRow>, d: Digest) {
    exists m :: m in media && media[m].digest == d && InUse(jobs, media[m].googleId)
  }

  ghost predicate IsNamed(jobs: Jobs, lib: Library, d: Digest) {
    InCharacter(lib.characters, d) || InJob(jobs, d) || InMedia(jobs, lib.media, d)
  }

  /** What the sweep takes for referenced is what is named. */
  lemma ReferencedExactly(jobs: Jobs, lib: Library, d: Digest)
    ensures d in Referenced(jobs, lib) <==> IsNamed(jobs, lib, d)
  {
    InUseExactly(jobs);
    assert d in CharacterDigests(lib.characters) <==> InCharacter(lib.characters, d);
    assert d in JobDigests(jobs) <==> InJob(jobs, d);
    hide LiveMediaIds, InUse;
    assert d in MediaDigests(lib.media, LiveMediaIds(jobs)) <==> InMedia(jobs, lib.media, d);
  }

  lemma InUseExactly(jobs: Jobs)
    ensures forall m :: m in LiveMediaIds(jobs) <==> InUse(jobs, m)
  {
  }

  /** x is one of the first n candidates after the cursor. */
  ghost predicate InWindow(c: set<nat>, after: int, n: nat, x: nat) {
    x in c && after < x && |set y | y in c && after < y < x| < n
  }

  /** ORDER BY key LIMIT n, by counting: nothing but the cursor and the number of smaller candidates decides. */
  lemma BatchIsWindow(c: set<nat>, after: int, n: nat, x: nat)
    ensures x in Batch(c, after, n) <==> InWindow(c, after, n, x)
  {
    hide Batch;
    var b := Batch(c, after, n);
    var less := set y | y in c && after < y < x;
    BatchIsPrefix(c, after, n);
    if x in b {
      var i :| 0 <= i < |b| && b[i] == x;
      forall y | y in less ensures y in b[..i] {
        var j :| 0 <= j < |b| && b[j] == y;
        assert j < i;
      }
      MembersFit(b[..i], less);
    } else if x in c && x > after {
      DistinctSize(b);
      Cardinality(Elements(b), less);
    }
  }

  /** Everything one sweep does to one asset and its bytes. */
  lemma SweepsAsset(lib: Library, jobs: Jobs, keep: Retention, now: int, ops: set<nat>, d: Digest)
    ensures var p := Pruned(lib, jobs, keep, now, ops);
            var seen := InWindow((set x | x in lib.assets && lib.assets[x].active), lib.assetCursor,
                                 Max(1, Min(keep.batch, 5000)), d);
            var expired := d in lib.assets && lib.assets[d].orphanedAt.Some?
                           && lib.assets[d].orphanedAt.value <= now - Max(1, keep.assetDays) * 86400;
            && (d in p.assets <==> d in lib.assets)
            && (d in lib.assets ==>
                  p.assets[d] == if !seen then lib.assets[d]
                                 else if IsNamed(jobs, lib, d) then Asset(true, None)
                                 else if lib.assets[d].orphanedAt.None? then Asset(true, Some(now))
                                 else if expired then Asset(false, lib.assets[d].orphanedAt)
                                 else lib.assets[d])
            && (d in p.files <==> d in lib.files && !(seen && !IsNamed(jobs, lib, d) && expired))
  {
    hide Batch, Referenced, IsNamed, InWindow;
    ReferencedExactly(jobs, lib, d);
    assert ActiveAssets(lib.assets) == set x | x in lib.assets && lib.assets[x].active;
    BatchIsWindow(ActiveAssets(lib.assets), lib.assetCursor, BatchSize(keep), d);
    WindowIsInside(ActiveAssets(lib.assets), lib.assetCursor, BatchSize(keep), d);
    hide BatchSize, MediaDropped, MediaBatch, NextCursor;
  }

  lemma WindowIsInside(c: set<nat>, after: int, n: nat, x: nat)
    ensures InWindow(c, after, n, x) ==> x in c
  {
  }

  /** Everything one sweep does to one media mapping. */
  lemma SweepsMapping(lib: Library, jobs: Jobs, keep: Retention, now: int, ops: set<nat>, m: nat)
    ensures var p := Pruned(lib, jobs, keep, now, ops);
            var seen := InWindow((set x | x in lib.media && (!lib.media[x].active || lib.media[x].lastUsed < now - keep.mediaDays * 86400)),
                                 lib.mediaCursor, Max(1, Min(keep.batch, 5000)), m);
            && (m in p.media <==> m in lib.media && !(seen && !InUse(jobs, lib.media[m].googleId)))
            && (m in p.media ==> p.media[m] == lib.media[m])
  {
    InUseExactly(jobs);
    hide Batch, InUse, LiveMediaIds, InWindow;
    var rows := set x | x in lib.media && (!lib.media[x].active || lib.media[x].lastUsed < now - keep.mediaDays * 86400);
    var dropped := MediaDropped(lib, jobs, keep, now);
    assert rows == StaleMedia(lib, keep, now);
    BatchIsWindow(rows, lib.mediaCursor, BatchSize(keep), m);
    WindowIsInside(rows, lib.mediaCursor, BatchSize(keep), m);
    hide AssetsMarked, Doomed, AssetBatch, NextCursor, StaleMedia;
    assert BatchSize(keep) == Max(1, Min(keep.batch, 5000));
    if m in lib.media {
      assert m in dropped <==> m in MediaBatch(lib, keep, now) && lib.media[m].googleId !in LiveMediaIds(jobs);
    }
    hide MediaDropped;
  }

  /** Each of the three ways of being named. */
  lemma NamedBy(lib: Library, jobs: Jobs)
    ensures forall c, d | c in lib.characters && !lib.characters[c].deleted && d in lib.characters[c].hashes :: IsNamed(jobs, lib, d)
    ensures forall id, d | id in jobs && jobs[id].status in {Queued, Dispatching, Running} && d in jobs[id].sub.hashes ::
              IsNamed(jobs, lib, d)
    ensures forall id, m | id in jobs && jobs[id].status in {Queued, Dispatching, Running} && m in lib.media
                           && lib.media[m].googleId in jobs[id].sub.mediaRefs ::
              IsNamed(jobs, lib, lib.media[m].digest)
  {
  }

  lemma PrunedLeavesCharacters(lib: Library, jobs: Jobs, keep: Retention, now: int, ops: set<nat>)
    ensures Pruned(lib, jobs, keep, now, ops).characters == lib.characters
    ensures Pruned(lib, jobs, keep, now, ops).assets.Keys == lib.assets.Keys
  {
    hide Doomed, AssetBatch, MediaDropped, Marked, NextCursor;
  }

  /** The next cursor is the last candidate of a full window, and the start behind a short one. */
  lemma CursorMoves(c: set<nat>, after: int, n: nat, start: int)
    requires n > 0
    ensures var window := set x | x in c && InWindow(c, after, n, x);
            var next := NextCursor(Batch(c, after, n), n, start);
            && |window| <= n
            && (|window| < n ==> next == start)
            && (|window| == n ==> next >= 0 && next in window && forall x | x in window :: x <= next)
  {
    var b := Batch(c, after, n);
    var window := set x | x in c && InWindow(c, after, n, x);
    BatchIsPrefix(c, after, n);
    DistinctSize(b);
    assert window == Elements(b) by {
      forall x ensures x in window <==> x in b { BatchIsWindow(c, after, n, x); }
    }
    if |b| == n {
      assert b[n - 1] in b;
    }
  }

  lemma CursorsMove(lib: Library, jobs: Jobs, keep: Retention, now: int, ops: set<nat>)
    ensures var n := Max(1, Min(keep.batch, 5000));
            var active := set x | x in lib.assets && lib.assets[x].active;
            var window := set x | x in active && InWindow(active, lib.assetCursor, n, x);
            var next := Pruned(lib, jobs, keep, now, ops).assetCursor;
            && (|window| < n ==> next == -1)
            && (|window| >= n ==> next >= 0 && next in window && forall x | x in window :: x <= next)
    ensures var n := Max(1, Min(keep.batch, 5000));
            var stale := set x | x in lib.media && (!lib.media[x].active || lib.media[x].lastUsed < now - keep.mediaDays * 86400);
            var window := set x | x in stale && InWindow(stale, lib.mediaCursor, n, x);
            var next := Pruned(lib, jobs, keep, now, ops).mediaCursor;
            && (|window| < n ==> next == 0)
            && (|window| >= n ==> next >= 0 && next in window && forall x | x in window :: x <= next)
  {
    hide Batch, InWindow, NextCursor, MediaDropped, AssetsMarked, Doomed;
    var active := set x | x in lib.assets && lib.assets[x].active;
    var stale := set x | x in lib.media && (!lib.media[x].active || lib.media[x].lastUsed < now - keep.mediaDays * 86400);
    assert ActiveAssets(lib.assets) == active && StaleMedia(lib, keep, now) == stale;
    assert BatchSize(keep) == Max(1, Min(keep.batch, 5000));
    CursorMoves(active, lib.assetCursor, BatchSize(keep), ASSET_START);
    CursorMoves(stale, lib.mediaCursor, BatchSize(keep), MEDIA_START);
  }

  /** A sweep changes at most one batch in every category. */
  lemma SweepIsBounded(lib: Library, jobs: Jobs, keep: Retention, now: int, ops: set<nat>)
    requires IsOperationSweep(lib, keep, now, ops)
    ensures |ops| <= BatchSize(keep)
    ensures |MediaDropped(lib, jobs, keep, now)| <= BatchSize(keep)
    ensures |Doomed(lib, jobs, keep, now)| <= BatchSize(keep)
  {
    var n := BatchSize(keep);
    BatchIsPrefix(StaleMedia(lib, keep, now), lib.mediaCursor, n);
    BatchIsPrefix(ActiveAssets(lib.assets), lib.assetCursor, n);
    MembersFit(MediaBatch(lib, keep, now), MediaDropped(lib, jobs, keep, now));
    MembersFit(AssetBatch(lib, n), Doomed(lib, jobs, keep, now));
  }

  lemma {:induction false} MembersFit(s: seq<nat>, members: set<nat>)
    requires forall m | m in members :: m in s
    ensures |members| <= |s|
  {
    if s == [] {
      assert members == {};
    } else {
      MembersFit(s[1..], members - {s[0]});
      assert |members| <= |members - {s[0]}| + 1;
    }
  }

  // ----- rotation: no asset waits for ever -----------------------------------

  /** What k consecutive sweeps examine while the catalogue stays the same and its end leads back to `start`. */
  function Examined(catalogue: set<nat>, start: int, cursor: int, n: nat, sweeps: nat): set<nat>
    requires n > 0
    decreases sweeps
  {
    if sweeps == 0 then {}
    else
      var batch := Batch(catalogue, cursor, n);
      (set d | d in batch) + Examined(catalogue, start, NextCursor(batch, n, start), n, sweeps - 1)
  }

  /** The assets after `low` up to and including `high`. */
  function Window(catalogue: set<nat>, low: int, high: int): set<nat> {
    set x | x in catalogue && low < x <= high
  }

  /** Taking the least asset out of a window shrinks it by one. */
  lemma WindowStep(c: set<nat>, low: int, high: int, m: nat)
    requires m in c && low < m <= high
    requires forall x | x in c && low < x :: m <= x
    ensures |Window(c, low, high)| == 1 + |Window(c, m, high)|
  {
    assert Window(c, low, high) == {m} + Window(c, m, high);
  }

  /** A batch inside the window moves its lower end up by |batch| assets. */
  lemma {:induction false} BatchCount(c: set<nat>, low: int, high: int, n: nat)
    requires forall x | x in c :: x <= high
    ensures |Batch(c, low, n)| == Min(n, |Window(c, low, high)|)
    ensures var b := Batch(c, low, n);
            b != [] ==> |Window(c, b[|b| - 1], high)| == |Window(c, low, high)| - |b|
    decreases n
  {
    var rest := set x | x in c && x > low;
    if rest == {} {
      assert forall x | x in c && x > low :: x in rest;
      assert Window(c, low, high) == {};
    } else if n != 0 {
      var m := Least(rest);
      assert m in rest;
      assert forall x | x in c && low < x :: x in rest;
      WindowStep(c, low, high, m);
      BatchCount(c, m, high, n - 1);
    }
  }

  /** The same for a window that ends at a mark inside the catalogue. */
  lemma {:induction false} BatchTowards(c: set<nat>, low: int, mark: int, n: nat)
    ensures var b := Batch(c, low, n);
            |b| == n && b != [] && b[|b| - 1] < mark ==> |Window(c, b[|b| - 1], mark)| == |Window(c, low, mark)| - n
    decreases n
  {
    var rest := set x | x in c && x > low;
    if n != 0 && rest != {} {
      var m := Least(rest);
      assert m in rest;
      assert forall x | x in c && low < x :: x in rest;
      BatchIsPrefix(c, m, n - 1);
      BatchTowards(c, m, mark, n - 1);
      if m <= mark {
        WindowStep(c, low, mark, m);
      } else {
        assert Batch(c, m, n - 1) != [] ==> Batch(c, m, n - 1)[|Batch(c, m, n - 1)| - 1] > m;
      }
    }
  }

  /** k / n by repeated subtraction. */
  function FullBatches(k: nat, n: nat): nat
    requires n > 0
  {
    if k < n then 0 else 1 + FullBatches(k - n, n)
  }

  lemma {:induction false} FullBatchesIsDivision(k: nat, n: nat)
    requires n > 0
    ensures FullBatches(k, n) == k / n
  {
    if k < n {
      assert k / n == 0;
    } else {
      FullBatchesIsDivision(k - n, n);
      QuotientUnique(k, n, (k - n) / n + 1);
    }
  }

  lemma QuotientUnique(k: nat, n: nat, q: nat)
    requires n > 0 && k >= n && q == (k - n) / n + 1
    ensures k / n == q
  {
    var p := k / n;
    assert n * p <= k < n * p + n;
    assert n * (q - 1) <= k - n < n * (q - 1) + n;
    assert n * (q - 1) == n * q - n;
    Squeeze(n, p, q);
    Squeeze(n, q, p);
  }

  lemma {:induction false} Squeeze(n: nat, p: nat, q: nat)
    requires n * p < n * q + n
    ensures p <= q
  {
    if p > 0 {
      assert n * p == n * (p - 1) + n;
      if q > 0 {
        assert n * (q - 1) == n * q - n;
        Squeeze(n, p - 1, q - 1);
      }
    }
  }

  /** ceil(m / n). */
  function Batches(m: nat, n: nat): nat
    requires n > 0
  {
    if m == 0 then 0 else if m <= n then 1 else 1 + Batches(m - n, n)
  }

  lemma {:induction false} BatchesSplit(k: nat, m: nat, n: nat)
    requires n > 0
    ensures FullBatches(k, n) + Batches(m, n) <= FullBatches(k + m, n) + 1
    decreases k + m
  {
    if k >= n {
      BatchesSplit(k - n, m, n);
    } else if m > n {
      BatchesSplit(k, m - n, n);
    }
  }

  /** From the start, Batches(m) sweeps examine every asset of a window that holds m of them. */
  lemma {:induction false} WindowIsExamined(c: set<nat>, start: int, low: int, mark: int, n: nat, sweeps: nat, x: nat)
    requires n > 0 && x in Window(c, low, mark)
    requires sweeps >= Batches(|Window(c, low, mark)|, n)
    ensures x in Examined(c, start, low, n, sweeps)
    decreases sweeps
  {
    var b := Batch(c, low, n);
    BatchIsPrefix(c, low, n);
    BatchTowards(c, low, mark, n);
    assert |Window(c, low, mark)| > 0;
    if x !in b {
      assert |b| == n && b[|b| - 1] in b && b[|b| - 1] < x;
      var next := b[|b| - 1];
      assert x in Window(c, next, mark);
      assert |Window(c, next, mark)| > 0;
      WindowIsExamined(c, start, next, mark, n, sweeps - 1, x);
    }
  }

  /** From a cursor with k assets after it, the sweeps start over within k / n + 1 steps. */
  lemma {:induction false} SweepsStartOver(c: set<nat>, start: int, cursor: int, high: int, n: nat, sweeps: nat, x: nat)
    requires n > 0 && forall y | y in c :: y <= high
    requires sweeps >= FullBatches(|Window(c, cursor, high)|, n) + 1
    requires x in Examined(c, start, start, n, sweeps - (FullBatches(|Window(c, cursor, high)|, n) + 1))
    ensures x in Examined(c, start, cursor, n, sweeps)
    decreases sweeps
  {
    BatchCount(c, cursor, high, n);
    if |Window(c, cursor, high)| >= n {
      var next := NextCursor(Batch(c, cursor, n), n, start);
      SweepsStartOver(c, start, next, high, n, sweeps - 1, x);
    }
  }

  /** A digest is examined within |catalogue| / n + 2 sweeps, so protected assets cannot keep it from being looked at. */
  lemma EveryAssetIsExamined(c: set<nat>, cursor: int, n: nat, x: nat)
    requires n > 0 && x in c
    ensures x in Examined(c, -1, cursor, n, |c| / n + 2)
  {
    EveryEntryIsExamined(c, ASSET_START, cursor, n, x);
  }

  /** So is a stale mapping: rowids start at 1, and the sweeps start over behind 0. */
  lemma EveryMappingIsExamined(c: set<nat>, cursor: int, n: nat, x: nat)
    requires n > 0 && x in c && 0 !in c
    ensures x in Examined(c, 0, cursor, n, |c| / n + 2)
  {
    EveryEntryIsExamined(c, MEDIA_START, cursor, n, x);
  }

  /** Whatever the cursor, |catalogue| / n + 2 consecutive sweeps examine every entry. */
  lemma EveryEntryIsExamined(c: set<nat>, start: int, cursor: int, n: nat, x: nat)
    requires n > 0 && x in c && forall y | y in c :: start < y
    ensures x in Examined(c, start, cursor, n, |c| / n + 2)
  {
    var high := Greatest(c);
    var after, upTo := Window(c, cursor, high), Window(c, start, cursor);
    var k, m := |after|, |upTo|;
    assert |c| == k + m by {
      assert after + upTo == c && after !! upTo;
    }
    var sweeps := |c| / n + 2;
    FullBatchesIsDivision(|c|, n);
    BatchesSplit(k, m, n);
    if x in upTo {
      WindowIsExamined(c, start, start, cursor, n, sweeps - (FullBatches(k, n) + 1), x);
      SweepsStartOver(c, start, cursor, high, n, sweeps, x);
    } else {
      BatchesSplit(0, k, n);
      BatchesGrow(k, k + m, n);
      BatchesSplit(0, k + m, n);
      WindowIsExamined(c, start, cursor, high, n, sweeps, x);
    }
  }

  lemma {:induction false} BatchesGrow(k: nat, m: nat, n: nat)
    requires n > 0 && k <= m
    ensures Batches(k, n) <= Batches(m, n)
  {
    if k > n {
      BatchesGrow(k - n, m - n, n);
    }
  }

  /** `libs[i]` is the library when sweep i starts: same catalogue, and the cursor the previous sweep left. */
  ghost predicate IsRotation(libs: seq<Library>, catalogue: set<nat>, n: nat) {
    && (forall i | 0 <= i < |libs| :: ActiveAssets(libs[i].assets) == catalogue)
    && forall i | 0 < i < |libs| ::
         libs[i].assetCursor == NextCursor(AssetBatch(libs[i - 1], n), n, ASSET_START)
  }

  lemma {:induction false} RotationExamines(libs: seq<Library>, catalogue: set<nat>, n: nat, x: nat)
    requires n > 0 && IsRotation(libs, catalogue, n) && libs != []
    requires x in Examined(catalogue, ASSET_START, libs[0].assetCursor, n, |libs|)
    ensures exists i :: 0 <= i < |libs| && x in AssetBatch(libs[i], n)
  {
    if x !in AssetBatch(libs[0], n) {
      assert |libs| > 1;
      RotationExamines(libs[1..], catalogue, n, x);
      var i :| 0 <= i < |libs[1..]| && x in AssetBatch(libs[1..][i], n);
      assert x in AssetBatch(libs[i + 1], n);
    }
  }

  /** Over real sweeps: with a fixed catalogue every active asset is examined within |catalogue| / n + 2 of them. */
  lemma NoAssetStarves(libs: seq<Library>, catalogue: set<nat>, n: nat, x: nat)
    requires n > 0 && IsRotation(libs, catalogue, n) && |libs| == |catalogue| / n + 2
    requires x in catalogue
    ensures exists i :: 0 <= i < |libs| && x in AssetBatch(libs[i], n)
  {
    EveryAssetIsExamined(catalogue, libs[0].assetCursor, n, x);
    RotationExamines(libs, catalogue, n, x);
  }

  /** The first |catalogue| / n + 2 sweeps of a longer rotation are enough. */
  lemma RotationReaches(libs: seq<Library>, catalogue: set<nat>, n: nat, x: nat)
    requires n > 0 && IsRotation(libs, catalogue, n) && |libs| >= |catalogue| / n + 2 && x in catalogue
    ensures exists i :: 0 <= i < |catalogue| / n + 2 && x in AssetBatch(libs[i], n)
  {
    hide AssetBatch, ActiveAssets, NextCursor;
    var k := |catalogue| / n + 2;
    NoAssetStarves(libs[..k], catalogue, n, x);
    var i :| 0 <= i < k && x in AssetBatch(libs[..k][i], n);
    assert x in AssetBatch(libs[i], n);
  }
}
