/**
 ProjectStore: the tables as fields, each method one transaction under the lock.
 Every method is proved to do what its statement in JobTable or AssetLibrary
 says, to the whole store. The clock and fresh names come in as parameters.
 */
module ProjectStore {
  import opened Base
  import opened JobTable
  import opened AssetLibrary
  import VideoResult

  datatype EnqueueResult = Created(id: JobId) | Replayed(existing: JobId) | Refused

  datatype Counts = Counts(operations: nat, media: nat, assets: nat, jobs: nat)

  ghost predicate RowidsDistinct(jobs: Jobs) {
    forall a, b | a in jobs && b in jobs && a != b :: jobs[a].rowid != jobs[b].rowid
  }

  /** get_job: lease expiry everywhere, age expiry for the job that is read. */
  function StatusRead(jobs: Jobs, id: JobId, lease: int, limits: Limits, now: int): Jobs {
    Expired(Abandoned(jobs, lease, now), limits, Some(id), now)
  }

  /** No row becomes completed, and completed rows stay as they are. */
  predicate CompletesNothing(before: Jobs, after: Jobs) {
    forall id | id in after && after[id].status == Completed :: id in before && after[id] == before[id]
  }

  /** The claims a lease-expiry pass fails. */
  function Lapsing(jobs: Jobs, lease: int, now: int): set<JobId> {
    set id | id in jobs && LeaseOver(jobs[id], lease, now)
  }

  predicate InScope(only: Option<JobId>, id: JobId) { only.None? || only.value == id }

  /** The rows an age-expiry pass fails. */
  function Overdue(jobs: Jobs, limits: Limits, only: Option<JobId>, now: int): set<JobId> {
    set id | id in jobs && InScope(only, id)
             && (QueueOver(jobs[id], limits, now) || RunOver(jobs[id], limits, now))
  }

  // ----- bulk updates, row by row --------------------------------------------------------

  /** The lease pass after it has visited `done`. */
  ghost function AbandonedIn(jobs: Jobs, lease: int, now: int, done: set<JobId>): Jobs {
    map id | id in jobs :: if id in done && LeaseOver(jobs[id], lease, now) then Abandon(jobs[id], now) else jobs[id]
  }

  lemma AbandonEnds(jobs: Jobs, lease: int, now: int)
    ensures AbandonedIn(jobs, lease, now, {}) == jobs && |Lapsing(jobs, lease, now) * {}| == 0
    ensures AbandonedIn(jobs, lease, now, jobs.Keys) == Abandoned(jobs, lease, now)
    ensures Lapsing(jobs, lease, now) * jobs.Keys == Lapsing(jobs, lease, now)
  {
    hide LeaseOver, Abandon;
  }

  lemma AbandonOne(jobs: Jobs, lease: int, now: int, done: set<JobId>, id: JobId)
    requires id in jobs && id !in done
    ensures var before := AbandonedIn(jobs, lease, now, done);
            && id in before && before[id] == jobs[id]
            && AbandonedIn(jobs, lease, now, done + {id}) ==
               (if LeaseOver(jobs[id], lease, now) then before[id := Abandon(jobs[id], now)] else before)
    ensures |Lapsing(jobs, lease, now) * (done + {id})| ==
            |Lapsing(jobs, lease, now) * done| + (if LeaseOver(jobs[id], lease, now) then 1 else 0)
  {
    hide LeaseOver, Abandon;
    assert Lapsing(jobs, lease, now) * (done + {id}) ==
           Lapsing(jobs, lease, now) * done + (if LeaseOver(jobs[id], lease, now) then {id} else {});
  }

  lemma AbandonedRows(jobs: Jobs, lease: int, now: int)
    ensures Abandoned(jobs, lease, now).Keys == jobs.Keys
    ensures forall id | id in jobs && !LeaseOver(jobs[id], lease, now) :: Abandoned(jobs, lease, now)[id] == jobs[id]
    ensures forall id | id in jobs && LeaseOver(jobs[id], lease, now) ::
              var a, b := jobs[id], Abandoned(jobs, lease, now)[id];
              && b.status == Failed && b.outcomeUnknown && !b.retryable
              && b.claimedAt.None? && b.token.None? && b.completedAt == Some(now)
              && SameIdentity(a, b) && SameRoute(a, b) && (RowOk(a) ==> RowOk(b))
    ensures RowidsDistinct(jobs) ==> RowidsDistinct(Abandoned(jobs, lease, now))
    ensures CompletesNothing(jobs, Abandoned(jobs, lease, now))
  {
  }

  /** Row by row: a claim at least `lease` old fails with its medium's unclear outcome, and nothing else changes. */
  lemma AbandonedExactly(jobs: Jobs, lease: int, now: int)
    ensures forall id | id in jobs ::
              && id in Abandoned(jobs, lease, now)
              && Abandoned(jobs, lease, now)[id] ==
                 var a := jobs[id];
                 if a.status == Dispatching && a.claimedAt.Some? && a.claimedAt.value <= now - Max(1, lease)
                 then a.(status := Failed, claimedAt := None, token := None, retryable := false, outcomeUnknown := true,
                         code := Some(if a.sub.media == Image then ImageOutcomeUnknown else VideoOutcomeUnknown),
                         completedAt := Some(now))
                 else a
  {
  }

  lemma LapsingChange(jobs: Jobs, lease: int, now: int)
    ensures Lapsing(jobs, lease, now) ==
            set id | id in jobs && id in Abandoned(jobs, lease, now) && Abandoned(jobs, lease, now)[id] != jobs[id]
  {
  }

  /** The age pass after it has visited `done`. */
  ghost function ExpiredIn(jobs: Jobs, limits: Limits, only: Option<JobId>, now: int, done: set<JobId>): Jobs {
    map id | id in jobs :: if id in done && InScope(only, id) then ExpireRow(jobs[id], limits, now) else jobs[id]
  }

  lemma ExpireEnds(jobs: Jobs, limits: Limits, only: Option<JobId>, now: int)
    ensures ExpiredIn(jobs, limits, only, now, {}) == jobs && |Overdue(jobs, limits, only, now) * {}| == 0
    ensures ExpiredIn(jobs, limits, only, now, jobs.Keys) == Expired(jobs, limits, only, now)
    ensures Overdue(jobs, limits, only, now) * jobs.Keys == Overdue(jobs, limits, only, now)
  {
    hide QueueOver, RunOver, ExpireRow;
  }

  predicate Over(jobs: Jobs, limits: Limits, only: Option<JobId>, now: int, id: JobId)
    requires id in jobs
  {
    InScope(only, id) && (QueueOver(jobs[id], limits, now) || RunOver(jobs[id], limits, now))
  }

  lemma ExpireOne(jobs: Jobs, limits: Limits, only: Option<JobId>, now: int, done: set<JobId>, id: JobId)
    requires id in jobs && id !in done
    ensures var before := ExpiredIn(jobs, limits, only, now, done);
            && id in before && before[id] == jobs[id]
            && ExpiredIn(jobs, limits, only, now, done + {id}) ==
               (if InScope(only, id) then before[id := ExpireRow(jobs[id], limits, now)] else before)
  {
    hide ExpireRow, InScope;
  }

  lemma OverdueOne(jobs: Jobs, limits: Limits, only: Option<JobId>, now: int, done: set<JobId>, id: JobId)
    requires id in jobs && id !in done
    ensures |Overdue(jobs, limits, only, now) * (done + {id})| ==
            |Overdue(jobs, limits, only, now) * done| + (if Over(jobs, limits, only, now, id) then 1 else 0)
    ensures !Over(jobs, limits, only, now, id) && InScope(only, id) ==> ExpireRow(jobs[id], limits, now) == jobs[id]
  {
    assert id in Overdue(jobs, limits, only, now) <==> Over(jobs, limits, only, now, id);
    hide Overdue, Over;
    assert Overdue(jobs, limits, only, now) * (done + {id}) ==
           Overdue(jobs, limits, only, now) * done + (if Over(jobs, limits, only, now, id) then {id} else {});
  }

  lemma ExpireRowCases(r: Row, limits: Limits, now: int)
    ensures QueueOver(r, limits, now) ==>
              ExpireRow(r, limits, now) ==
              r.(status := Failed, code := Some(if r.sub.media == Image then ImageTimeout else QueueTimeout),
                 retryable := false, outcomeUnknown := false, completedAt := Some(now))
    ensures !QueueOver(r, limits, now) && RunOver(r, limits, now) ==>
              ExpireRow(r, limits, now) ==
              r.(status := Failed, code := Some(VideoPollTimeout), retryable := false, outcomeUnknown := true,
                 completedAt := Some(now))
  {
    hide QueueOver, RunOver;
  }

  /** What expiry leaves alone, and what it says. */
  predicate ExpiredFrom(a: Row, b: Row, now: int) {
    && b.status == Failed && b.completedAt == Some(now) && !b.retryable
    && (b.outcomeUnknown <==> a.status == Running) && b.token == a.token
    && SameIdentity(a, b) && SameRoute(a, b) && SamePolling(a, b) && (RowOk(a) ==> RowOk(b))
  }

  lemma ExpiredRow(r: Row, limits: Limits, now: int)
    ensures QueueOver(r, limits, now) || RunOver(r, limits, now) ==> ExpiredFrom(r, ExpireRow(r, limits, now), now)
    ensures !QueueOver(r, limits, now) && !RunOver(r, limits, now) ==> ExpireRow(r, limits, now) == r
    ensures ExpireRow(r, limits, now).rowid == r.rowid
    ensures ExpireRow(r, limits, now).status == Completed ==> ExpireRow(r, limits, now) == r
  {
  }

  lemma ExpiredRows(jobs: Jobs, limits: Limits, only: Option<JobId>, now: int)
    ensures Expired(jobs, limits, only, now).Keys == jobs.Keys
    ensures forall id | id in jobs && id !in Overdue(jobs, limits, only, now) ::
              Expired(jobs, limits, only, now)[id] == jobs[id]
    ensures forall id | id in Overdue(jobs, limits, only, now) ::
              id in jobs && ExpiredFrom(jobs[id], Expired(jobs, limits, only, now)[id], now)
  {
    hide ExpireRow, ExpiredFrom, QueueOver, RunOver;
    forall id | id in jobs {
      ExpiredRow(jobs[id], limits, now);
    }
  }

  lemma ExpiryIsSound(jobs: Jobs, limits: Limits, only: Option<JobId>, now: int)
    ensures RowidsDistinct(jobs) ==> RowidsDistinct(Expired(jobs, limits, only, now))
    ensures CompletesNothing(jobs, Expired(jobs, limits, only, now))
  {
    hide ExpireRow, ExpiredFrom, QueueOver, RunOver;
    forall id | id in jobs {
      ExpiredRow(jobs[id], limits, now);
    }
  }

  /** Which limit is for which row, and what the row then says. */
  lemma ExpireRowExactly(a: Row, limits: Limits, now: int)
    ensures ExpireRow(a, limits, now) ==
            if a.status == Queued && a.sub.media == Image && a.createdAt <= now - Max(1, limits.image)
            then a.(status := Failed, code := Some(ImageTimeout), retryable := false, outcomeUnknown := false,
                    completedAt := Some(now))
            else if a.status == Queued && a.sub.media == Video && a.createdAt <= now - Max(1, limits.videoQueue)
            then a.(status := Failed, code := Some(QueueTimeout), retryable := false, outcomeUnknown := false,
                    completedAt := Some(now))
            else if a.status == Running && a.sub.media == Video
                    && (if a.runningAt.Some? then a.runningAt.value else a.createdAt) <= now - Max(1, limits.videoRunning)
            then a.(status := Failed, code := Some(VideoPollTimeout), retryable := false, outcomeUnknown := true,
                    completedAt := Some(now))
            else a
  {
  }

  lemma ExpiredExactly(jobs: Jobs, limits: Limits, only: Option<JobId>, now: int)
    ensures forall id | id in jobs ::
              && id in Expired(jobs, limits, only, now)
              && Expired(jobs, limits, only, now)[id] ==
                 if only.None? || only.value == id then ExpireRow(jobs[id], limits, now) else jobs[id]
    ensures Overdue(jobs, limits, only, now) ==
            set id | id in jobs && id in Expired(jobs, limits, only, now) && Expired(jobs, limits, only, now)[id] != jobs[id]
  {
    hide ExpireRow, QueueOver, RunOver;
    forall id | id in jobs ensures ExpireRow(jobs[id], limits, now) != jobs[id] <==> Over(jobs, limits, None, now, id) {
      ExpiredDiffers(jobs[id], limits, now);
    }
    var after := Expired(jobs, limits, only, now);
    forall id | id in jobs ensures id in Overdue(jobs, limits, only, now) <==> after[id] != jobs[id] {
      assert Over(jobs, limits, None, now, id) <==> ExpireRow(jobs[id], limits, now) != jobs[id];
    }
  }

  lemma AgedExactly(jobs: Jobs, limits: Limits, only: Option<JobId>, now: int)
    ensures forall id | id in jobs :: id in Expired(jobs, limits, only, now)
    ensures forall id | id in jobs && (only.None? || only == Some(id)) :: Expired(jobs, limits, only, now)[id] ==
              var a := jobs[id];
              if a.status == Queued && a.sub.media == Image && a.createdAt <= now - Max(1, limits.image)
              then a.(status := Failed, code := Some(ImageTimeout), retryable := false, outcomeUnknown := false,
                      completedAt := Some(now))
              else if a.status == Queued && a.sub.media == Video && a.createdAt <= now - Max(1, limits.videoQueue)
              then a.(status := Failed, code := Some(QueueTimeout), retryable := false, outcomeUnknown := false,
                      completedAt := Some(now))
              else if a.status == Running && a.sub.media == Video
                      && (if a.runningAt.Some? then a.runningAt.value else a.createdAt) <= now - Max(1, limits.videoRunning)
              then a.(status := Failed, code := Some(VideoPollTimeout), retryable := false, outcomeUnknown := true,
                      completedAt := Some(now))
              else a
    ensures forall id | id in jobs && only.Some? && only != Some(id) :: Expired(jobs, limits, only, now)[id] == jobs[id]
  {
    hide ExpireRow;
    forall id | id in jobs {
      ExpireRowExactly(jobs[id], limits, now);
    }
  }

  lemma ExpiredDiffers(r: Row, limits: Limits, now: int)
    ensures ExpireRow(r, limits, now) != r <==> QueueOver(r, limits, now) || RunOver(r, limits, now)
  {
  }

  /** Writing one row under its own rowid. */
  lemma RowReplaced(jobs: Jobs, id: JobId, row: Row)
    requires id in jobs && row.rowid == jobs[id].rowid
    ensures RowidsDistinct(jobs) ==> RowidsDistinct(jobs[id := row])
    ensures OnlyRow(jobs, jobs[id := row], id)
    ensures row.status != Completed ==> CompletesNothing(jobs, jobs[id := row])
  {
  }

  lemma ChainCompletesNothing(a: Jobs, b: Jobs, c: Jobs)
    requires CompletesNothing(b, c)
    ensures CompletesNothing(a, b) ==> CompletesNothing(a, c)
    ensures CompletesNothing(a, a)
  {
  }

  lemma NothingReplaced(jobs: Jobs)
    ensures CompletesNothing(jobs, jobs)
  {
  }

  // ----- choosing rows ---------------------------------------------------------------

  ghost predicate IsFirst(jobs: Jobs, s: set<JobId>, id: JobId)
    requires s <= jobs.Keys
  {
    id in s && forall o | o in s && o != id :: Before(jobs[id], jobs[o])
  }

  /** The ORDER BY of a claim is a total order, so a non-empty selection has a first row. */
  lemma FirstExists(jobs: Jobs, s: set<JobId>)
    requires s <= jobs.Keys && s != {} && RowidsDistinct(jobs)
    ensures exists id :: IsFirst(jobs, s, id)
    decreases |s|
  {
    var x :| x in s;
    var rest := s - {x};
    if rest == {} {
      assert forall o | o in s :: o == x || o in rest;
      assert IsFirst(jobs, s, x);
    } else {
      FirstExists(jobs, rest);
      var y :| IsFirst(jobs, rest, y);
      assert forall o | o in s :: o == x || o in rest;
      assert IsFirst(jobs, s, if Before(jobs[x], jobs[y]) then x else y);
    }
  }

  ghost predicate IsOldest(key: map<JobId, int>, s: set<JobId>, id: JobId)
    requires s <= key.Keys
  {
    id in s && forall o | o in s :: key[id] <= key[o]
  }

  lemma OldestExists(key: map<JobId, int>, s: set<JobId>)
    requires s <= key.Keys && s != {}
    ensures exists id :: IsOldest(key, s, id)
    decreases |s|
  {
    var x :| x in s;
    var rest := s - {x};
    if rest == {} {
      assert forall o | o in s :: o == x || o in rest;
      assert IsOldest(key, s, x);
    } else {
      OldestExists(key, rest);
      var y :| IsOldest(key, rest, y);
      assert forall o | o in s :: o == x || o in rest;
      assert IsOldest(key, s, if key[x] <= key[y] then x else y);
    }
  }

  /** ORDER BY key LIMIT n: take the oldest of what is left, n times or until nothing is left. */
  method OldestFew(key: map<JobId, int>, s: set<JobId>, n: nat) returns (few: seq<JobId>)
    requires s <= key.Keys
    ensures |few| <= n
    ensures forall i | 0 <= i < |few| :: few[i] in s
    ensures forall i, j | 0 <= i < j < |few| :: few[i] != few[j] && key[few[i]] <= key[few[j]]
    ensures forall o | o in s && o !in few :: |few| == n && forall i | 0 <= i < |few| :: key[few[i]] <= key[o]
  {
    few := [];
    var rest := s;
    while |few| < n && rest != {}
      invariant |few| <= n && rest <= s
      invariant forall i | 0 <= i < |few| :: few[i] in s && few[i] !in rest
      invariant forall i, j | 0 <= i < j < |few| :: few[i] != few[j] && key[few[i]] <= key[few[j]]
      invariant forall o | o in s :: o in rest || o in few
      invariant forall i, o | 0 <= i < |few| && o in rest :: key[few[i]] <= key[o]
      decreases |rest|
    {
      OldestExists(key, rest);
      var next :| next in rest && forall o | o in rest :: key[next] <= key[o];
      few := few + [next];
      rest := rest - {next};
    }
  }

  // ----- what each loop of the sweep selects -------------------------------------------

  lemma UnusedSnoc(s: seq<nat>, m: nat, media: map<nat, MediaRow>, live: set<MediaId>)
    ensures Unused(s + [m], media, live) ==
            Unused(s, media, live) + (if m in media && media[m].googleId !in live then {m} else {})
  {
  }

  lemma OverAgedSnoc(s: seq<Digest>, d: Digest, assets: map<Digest, Asset>, keep: Retention, now: int)
    ensures OverAged(s + [d], assets, keep, now) ==
            OverAged(s, assets, keep, now) + (if d in assets && GraceOver(assets[d], keep, now) then {d} else {})
  {
  }

  /** A poll batch in plain terms: due, outside the excluded set, and nothing older left out. */
  lemma PollBatchExactly(jobs: Jobs, now: int, excluded: set<JobId>, n: nat, ids: set<JobId>)
    requires IsPollBatch(jobs, now, excluded, n, ids)
    ensures forall id | id in ids :: id in jobs && id !in excluded &&
              jobs[id].status == Running && jobs[id].sub.media == Video
              && (jobs[id].nextPollAt.Some? ==> jobs[id].nextPollAt.value <= now)
    ensures |ids| <= n
    ensures forall o | o in jobs && o !in ids && o !in excluded && jobs[o].status == Running && jobs[o].sub.media == Video
                       && (jobs[o].nextPollAt.Some? ==> jobs[o].nextPollAt.value <= now) ::
              && |ids| == n
              && forall id | id in ids :: id in jobs &&
                   var a, b := jobs[id], jobs[o];
                   (if a.nextPollAt.Some? then a.nextPollAt.value else if a.runningAt.Some? then a.runningAt.value else a.createdAt)
                   <= (if b.nextPollAt.Some? then b.nextPollAt.value else if b.runningAt.Some? then b.runningAt.value else b.createdAt)
  {
  }

  lemma LeasedExactly(jobs: Jobs, ids: set<JobId>, lease: int, now: int)
    requires forall id | id in ids :: id in jobs && jobs[id].status == Running
    ensures var after := PollsLeased(jobs, ids, lease, now);
            && after.Keys == jobs.Keys
            && (forall id | id in ids :: id in jobs && after[id] == jobs[id].(nextPollAt := Some(now + Max(1, lease))))
            && (forall o | o in jobs && o !in ids :: after[o] == jobs[o])
            && (RowidsDistinct(jobs) ==> RowidsDistinct(after)) && CompletesNothing(jobs, after)
  {
  }

  lemma JobSweepExactly(jobs: Jobs, keep: Retention, now: int, drop: set<JobId>)
    requires IsJobSweep(jobs, keep.jobDays, BatchSize(keep), now, drop)
    ensures |drop| <= Max(1, Min(keep.batch, 5000)) && (keep.jobDays <= 0 ==> drop == {})
    ensures forall id | id in drop :: id in jobs &&
              var a := jobs[id];
              && a.status in {Completed, Failed} && a.sub.key.None? && !a.outcomeUnknown
              && a.completedAt.Some? && a.completedAt.value <= now - keep.jobDays * 86400
    ensures forall o | keep.jobDays > 0 && o in jobs && o !in drop && jobs[o].status in {Completed, Failed} && jobs[o].sub.key.None?
                       && !jobs[o].outcomeUnknown && jobs[o].completedAt.Some?
                       && jobs[o].completedAt.value <= now - keep.jobDays * 86400 ::
              && |drop| == Max(1, Min(keep.batch, 5000))
              && forall id | id in drop :: id in jobs && jobs[id].completedAt.Some?
                                           && jobs[id].completedAt.value <= jobs[o].completedAt.value
  {
  }

  lemma JobSweepIsBounded(jobs: Jobs, keep: Retention, now: int, drop: set<JobId>)
    requires IsJobSweep(jobs, keep.jobDays, BatchSize(keep), now, drop)
    ensures |drop| <= BatchSize(keep)
  {
  }

  class ProjectStore {
    var jobs: Jobs
    /** The result_json column. */
    var results: map<JobId, VideoResult.Json>
    var assets: map<Digest, Asset>
    var files: set<Digest>
    var media: map<nat, MediaRow>
    var operations: map<nat, Operation>
    var characters: map<nat, Character>
    var assetCursor: int
    var mediaCursor: int
    const dispatchLease: int

    ghost predicate Valid()
      reads this
    {
      RowidsDistinct(jobs)
    }

    ghost function Lib(): Library
      reads this
    {
      Library(assets, files, media, operations, characters, assetCursor, mediaCursor)
    }

    constructor (dispatchLease: int)
      ensures Valid() && jobs == map[] && results == map[]
      ensures Lib() == Library(map[], {}, map[], map[], map[], ASSET_START, MEDIA_START)
      ensures this.dispatchLease == Max(1, dispatchLease)
    {
      this.dispatchLease := Max(1, dispatchLease);
      jobs, results := map[], map[];
      assets, files, media, operations, characters := map[], {}, map[], map[], map[];
      assetCursor, mediaCursor := ASSET_START, MEDIA_START;
    }

    method EnqueueJob(id: JobId, sub: Submission, limits: Limits, now: int) returns (r: EnqueueResult)
      requires Valid()
      modifies this`jobs
      ensures Valid()
      ensures CompletesNothing(old(jobs), jobs)
      ensures r.Created? <==> id !in old(jobs) && !KeyTaken(old(jobs), sub.key)
      ensures r.Created? ==> r.id == id && jobs == StatusRead(Inserted(old(jobs), id, sub, now), id, dispatchLease, limits, now)
      ensures !r.Created? ==> jobs == Inserted(old(jobs), id, sub, now) == old(jobs)
      ensures r.Replayed? <==> !r.Created? && KeyTaken(old(jobs), sub.key)
      ensures r.Replayed? ==> r.existing in jobs && jobs[r.existing].sub.key == sub.key
      ensures r.Replayed? <==> sub.key.Some? && exists o :: o in old(jobs) && old(jobs)[o].sub.key == sub.key
      ensures r.Refused? <==> !r.Replayed? && id in old(jobs)
      ensures r.Created? ==> id in jobs && id !in old(jobs) && forall o | o in old(jobs) :: old(jobs)[o].rowid < jobs[id].rowid
      ensures r.Created? ==>
                jobs[id] == Row(jobs[id].rowid, sub, Queued, now, None, None, None, sub.account, sub.project,
                                None, None, None, 0, 0, None, false, false, None)
      ensures r.Created? ==> jobs.Keys == old(jobs).Keys + {id}
      ensures r.Created? ==> forall o | o in old(jobs) && !(old(jobs)[o].status == Dispatching && old(jobs)[o].claimedAt.Some?
                                                            && old(jobs)[o].claimedAt.value <= now - Max(1, dispatchLease)) ::
                jobs[o] == old(jobs)[o]
    {
      if id in jobs || KeyTaken(jobs, sub.key) {
        if KeyTaken(jobs, sub.key) {
          var existing := Lookup(sub.key);
          return Replayed(existing);
        }
        return Refused;
      }
      hide StatusRead, Inserted, KeyTaken, CompletesNothing, RowidsDistinct;
      CreateJob(id, sub, limits, now);
      r := Created(id);
    }

    /** The INSERT and the status read behind it. */
    method CreateJob(id: JobId, sub: Submission, limits: Limits, now: int)
      requires Valid() && id !in jobs && !KeyTaken(jobs, sub.key)
      modifies this`jobs
      ensures Valid() && CompletesNothing(old(jobs), jobs)
      ensures jobs == StatusRead(Inserted(old(jobs), id, sub, now), id, dispatchLease, limits, now)
      ensures jobs.Keys == old(jobs).Keys + {id} && forall o | o in old(jobs) :: old(jobs)[o].rowid < jobs[id].rowid
      ensures jobs[id] == Row(jobs[id].rowid, sub, Queued, now, None, None, None, sub.account, sub.project,
                              None, None, None, 0, 0, None, false, false, None)
      ensures forall o | o in old(jobs) && !(old(jobs)[o].status == Dispatching && old(jobs)[o].claimedAt.Some?
                                             && old(jobs)[o].claimedAt.value <= now - Max(1, dispatchLease)) ::
                jobs[o] == old(jobs)[o]
    {
      hide StatusRead, Inserted, KeyTaken, CompletesNothing, RowidsDistinct;
      ghost var before := jobs;
      Insert(id, sub, now);
      ghost var inserted := jobs;
      var _ := GetJob(id, limits, now);
      ChainCompletesNothing(before, inserted, jobs);
    }

    /** INSERT of an id and key that are new; rowids count upwards. */
    method Insert(id: JobId, sub: Submission, now: int)
      requires Valid() && id !in jobs && !KeyTaken(jobs, sub.key)
      modifies this`jobs
      ensures Valid() && jobs == Inserted(old(jobs), id, sub, now)
      ensures CompletesNothing(old(jobs), jobs)
      ensures jobs.Keys == old(jobs).Keys + {id} && forall o | o in old(jobs) :: jobs[o] == old(jobs)[o]
      ensures forall o | o in old(jobs) :: old(jobs)[o].rowid < jobs[id].rowid
      ensures jobs[id] == Row(jobs[id].rowid, sub, Queued, now, None, None, None, sub.account, sub.project,
                              None, None, None, 0, 0, None, false, false, None)
    {
      forall o | o in jobs ensures jobs[o].rowid < NextRowid(jobs) {
        assert jobs[o].rowid in Rowids(jobs);
      }
      hide NextRowid;
      jobs := jobs[id := NewRow(NextRowid(jobs), sub, now)];
    }

    /** get_job_by_idempotency_key, for a key that is there. */
    method Lookup(key: Option<Key>) returns (id: JobId)
      requires KeyTaken(jobs, key)
      ensures id in jobs && jobs[id].sub.key == key
    {
      var found :| found in jobs && jobs[found].sub.key == key;
      id := found;
    }

    method GetJob(id: JobId, limits: Limits, now: int) returns (row: Option<Row>)
      requires Valid()
      modifies this`jobs
      ensures Valid()
      ensures CompletesNothing(old(jobs), jobs)
      ensures jobs == StatusRead(old(jobs), id, dispatchLease, limits, now)
      ensures row.Some? <==> id in old(jobs)
      ensures row.Some? ==> id in jobs && row.value == jobs[id]
      ensures jobs.Keys == old(jobs).Keys
      ensures forall o | o in jobs :: jobs[o] ==
                var a := old(jobs)[o];
                if a.status == Dispatching && a.claimedAt.Some? && a.claimedAt.value <= now - Max(1, dispatchLease)
                then a.(status := Failed, claimedAt := None, token := None, retryable := false, outcomeUnknown := true,
                        code := Some(if a.sub.media == Image then ImageOutcomeUnknown else VideoOutcomeUnknown),
                        completedAt := Some(now))
                else if o == id && a.status == Queued && a.sub.media == Image && a.createdAt <= now - Max(1, limits.image)
                then a.(status := Failed, code := Some(ImageTimeout), retryable := false, outcomeUnknown := false,
                        completedAt := Some(now))
                else if o == id && a.status == Queued && a.sub.media == Video && a.createdAt <= now - Max(1, limits.videoQueue)
                then a.(status := Failed, code := Some(QueueTimeout), retryable := false, outcomeUnknown := false,
                        completedAt := Some(now))
                else if o == id && a.status == Running && a.sub.media == Video
                        && (if a.runningAt.Some? then a.runningAt.value else a.createdAt) <= now - Max(1, limits.videoRunning)
                then a.(status := Failed, code := Some(VideoPollTimeout), retryable := false, outcomeUnknown := true,
                        completedAt := Some(now))
                else a
    {
      hide Abandoned, Expired, Overdue, Lapsing, LeaseOver, ExpiredFrom, RowOk, SameIdentity, SameRoute, RowidsDistinct,
           CompletesNothing;
      ghost var before := jobs;
      var _ := FailAbandonedDispatches(dispatchLease, now);
      ChainCompletesNothing(before, before, jobs);
      ghost var between := jobs;
      var _ := FailExpiredJobs(limits, Some(id), now);
      ChainCompletesNothing(before, between, jobs);
      row := if id in jobs then Some(jobs[id]) else None;
    }

    /** The UPDATE row by row: those past the lease fail as unknown, the others are not touched. */
    method FailAbandonedDispatches(lease: int, now: int) returns (updated: nat)
      requires Valid()
      modifies this`jobs
      ensures Valid() && jobs == Abandoned(old(jobs), lease, now)
      ensures CompletesNothing(old(jobs), jobs)
      ensures jobs.Keys == old(jobs).Keys
      ensures forall id | id in jobs && !LeaseOver(old(jobs)[id], lease, now) :: jobs[id] == old(jobs)[id]
      ensures forall id | id in jobs && LeaseOver(old(jobs)[id], lease, now) ::
                && jobs[id].status == Failed && jobs[id].outcomeUnknown && !jobs[id].retryable
                && jobs[id].claimedAt.None? && jobs[id].token.None? && jobs[id].completedAt == Some(now)
                && SameIdentity(old(jobs)[id], jobs[id]) && SameRoute(old(jobs)[id], jobs[id])
                && (RowOk(old(jobs)[id]) ==> RowOk(jobs[id]))
      ensures forall id | id in jobs :: jobs[id] ==
                var a := old(jobs)[id];
                if a.status == Dispatching && a.claimedAt.Some? && a.claimedAt.value <= now - Max(1, lease)
                then a.(status := Failed, claimedAt := None, token := None, retryable := false, outcomeUnknown := true,
                        code := Some(if a.sub.media == Image then ImageOutcomeUnknown else VideoOutcomeUnknown),
                        completedAt := Some(now))
                else a
      ensures updated == |set id | id in jobs && jobs[id] != old(jobs)[id]|
    {
      hide Abandoned, Lapsing, LeaseOver, RowOk, SameIdentity, SameRoute, RowidsDistinct, CompletesNothing;
      updated := AbandonEach(lease, now);
      AbandonedRows(old(jobs), lease, now);
      AbandonedExactly(old(jobs), lease, now);
      LapsingChange(old(jobs), lease, now);
      assert Lapsing(old(jobs), lease, now) == set id | id in jobs && jobs[id] != old(jobs)[id];
    }

    /** The loop over the rows, one claim after the other. */
    method AbandonEach(lease: int, now: int) returns (updated: nat)
      modifies this`jobs
      ensures jobs == Abandoned(old(jobs), lease, now) && updated == |Lapsing(old(jobs), lease, now)|
    {
      hide AbandonedIn, Abandoned, Lapsing, LeaseOver, Abandon;
      updated := 0;
      var todo := jobs.Keys;
      ghost var done: set<JobId> := {};
      AbandonEnds(jobs, lease, now);
      while todo != {}
        invariant todo !! done && todo + done == old(jobs).Keys
        invariant jobs == AbandonedIn(old(jobs), lease, now, done)
        invariant updated == |Lapsing(old(jobs), lease, now) * done|
        decreases |todo|
      {
        var id :| id in todo;
        AbandonOne(old(jobs), lease, now, done, id);
        if LeaseOver(jobs[id], lease, now) {
          jobs := jobs[id := Abandon(jobs[id], now)];
          updated := updated + 1;
        }
        todo := todo - {id};
        done := done + {id};
      }
      assert done == old(jobs).Keys;
    }

    /** The three UPDATEs row by row: queued rows expire with a known outcome, running videos without. */
    method FailExpiredJobs(limits: Limits, only: Option<JobId>, now: int) returns (total: nat)
      requires Valid()
      modifies this`jobs
      ensures Valid() && jobs == Expired(old(jobs), limits, only, now)
      ensures CompletesNothing(old(jobs), jobs)
      ensures jobs.Keys == old(jobs).Keys
      ensures forall id | id in jobs && id !in Overdue(old(jobs), limits, only, now) :: jobs[id] == old(jobs)[id]
      ensures forall id | id in Overdue(old(jobs), limits, only, now) ::
                id in old(jobs) && id in jobs && ExpiredFrom(old(jobs)[id], jobs[id], now)
      ensures forall id | id in jobs && (only.None? || only == Some(id)) :: jobs[id] ==
                var a := old(jobs)[id];
                if a.status == Queued && a.sub.media == Image && a.createdAt <= now - Max(1, limits.image)
                then a.(status := Failed, code := Some(ImageTimeout), retryable := false, outcomeUnknown := false,
                        completedAt := Some(now))
                else if a.status == Queued && a.sub.media == Video && a.createdAt <= now - Max(1, limits.videoQueue)
                then a.(status := Failed, code := Some(QueueTimeout), retryable := false, outcomeUnknown := false,
                        completedAt := Some(now))
                else if a.status == Running && a.sub.media == Video
                        && (if a.runningAt.Some? then a.runningAt.value else a.createdAt) <= now - Max(1, limits.videoRunning)
                then a.(status := Failed, code := Some(VideoPollTimeout), retryable := false, outcomeUnknown := true,
                        completedAt := Some(now))
                else a
      ensures forall id | id in jobs && only.Some? && only != Some(id) :: jobs[id] == old(jobs)[id]
      ensures total == |set id | id in jobs && jobs[id] != old(jobs)[id]|
    {
      hide Expired, Overdue, ExpiredFrom, RowidsDistinct, CompletesNothing;
      total := ExpireEach(limits, only, now);
      ExpiredRows(old(jobs), limits, only, now);
      ExpiryIsSound(old(jobs), limits, only, now);
      ExpiredExactly(old(jobs), limits, only, now);
      assert Overdue(old(jobs), limits, only, now) == set id | id in jobs && jobs[id] != old(jobs)[id];
      AgedExactly(old(jobs), limits, only, now);
    }

    /** The loop over the rows in scope. */
    method ExpireEach(limits: Limits, only: Option<JobId>, now: int) returns (total: nat)
      modifies this`jobs
      ensures jobs == Expired(old(jobs), limits, only, now) && total == |Overdue(old(jobs), limits, only, now)|
    {
      hide ExpiredIn, Expired, ExpireRow, Overdue, QueueOver, RunOver;
      total := 0;
      var todo := jobs.Keys;
      ghost var done: set<JobId> := {};
      ExpireEnds(jobs, limits, only, now);
      while todo != {}
        invariant todo !! done && todo + done == old(jobs).Keys
        invariant jobs == ExpiredIn(old(jobs), limits, only, now, done)
        invariant total == |Overdue(old(jobs), limits, only, now) * done|
        decreases |todo|
      {
        var id :| id in todo;
        ExpireOne(old(jobs), limits, only, now, done, id);
        OverdueOne(old(jobs), limits, only, now, done, id);
        ExpireRowCases(jobs[id], limits, now);
        if InScope(only, id) && QueueOver(jobs[id], limits, now) {
          var code := if jobs[id].sub.media == Image then ImageTimeout else QueueTimeout;
          jobs := jobs[id := jobs[id].(status := Failed, code := Some(code), retryable := false,
                                       outcomeUnknown := false, completedAt := Some(now))];
          total := total + 1;
        } else if InScope(only, id) && RunOver(jobs[id], limits, now) {
          jobs := jobs[id := jobs[id].(status := Failed, code := Some(VideoPollTimeout), retryable := false,
                                       outcomeUnknown := true, completedAt := Some(now))];
          total := total + 1;
        }
        todo := todo - {id};
        done := done + {id};
      }
      assert done == old(jobs).Keys;
    }

    method ClaimNextQueuedJob(token: Token, now: int) returns (r: Option<JobId>)
      requires Valid()
      modifies this`jobs
      ensures Valid()
      ensures CompletesNothing(old(jobs), jobs)
      ensures r.None? ==> jobs == old(jobs) && forall id | id in jobs :: !Due(jobs[id], now)
      ensures r.Some? ==> IsNext(old(jobs), now, r.value) && jobs == Claimed(old(jobs), r.value, token, now)
      ensures r.None? ==> forall o | o in jobs :: jobs[o].status == Queued ==>
                jobs[o].nextDispatchAt.Some? && now < jobs[o].nextDispatchAt.value
      ensures r.Some? ==>
                && r.value in old(jobs) && old(jobs)[r.value].status == Queued
                && (old(jobs)[r.value].nextDispatchAt.Some? ==> old(jobs)[r.value].nextDispatchAt.value <= now)
                && jobs == old(jobs)[r.value := old(jobs)[r.value].(status := Dispatching, claimedAt := Some(now), token := Some(token))]
      ensures forall o | r.Some? && o in old(jobs) && o != r.value && old(jobs)[o].status == Queued
                         && (old(jobs)[o].nextDispatchAt.Some? ==> old(jobs)[o].nextDispatchAt.value <= now) ::
                var a, b := old(jobs)[r.value], old(jobs)[o];
                var mine := if a.nextDispatchAt.Some? then a.nextDispatchAt.value else a.createdAt;
                var its := if b.nextDispatchAt.Some? then b.nextDispatchAt.value else b.createdAt;
                || mine < its
                || (mine == its && a.sub.media == Image && b.sub.media == Video)
                || (mine == its && a.sub.media == b.sub.media && a.rowid < b.rowid)
    {
      var due := set id | id in jobs && Due(jobs[id], now);
      if due == {} {
        assert forall id | id in jobs && Due(jobs[id], now) :: id in due;
        return None;
      }
      FirstExists(jobs, due);
      var first :| first in due && forall o | o in due && o != first :: Before(jobs[first], jobs[o]);
      jobs := jobs[first := jobs[first].(status := Dispatching, claimedAt := Some(now), token := Some(token))];
      r := Some(first);
    }

    /** Back to the queue for the owner of the claim, for nobody else. */
    method ReleaseJobClaim(id: JobId, token: Token, delay: int, now: int) returns (ok: bool)
      requires Valid()
      modifies this`jobs
      ensures Valid() && jobs == Released(old(jobs), id, token, delay, now)
      ensures CompletesNothing(old(jobs), jobs)
      ensures ok <==> id in old(jobs) && old(jobs)[id].status == Dispatching && old(jobs)[id].token == Some(token)
      ensures !ok ==> jobs == old(jobs)
      ensures ok ==> OnlyRow(old(jobs), jobs, id)
      ensures ok ==> var a, b := old(jobs)[id], jobs[id];
                     && b.status == Queued && b.claimedAt.None? && b.token.None?
                     && b.nextDispatchAt.Some? && b.nextDispatchAt.value >= now
                     && b.nextDispatchAt.value == now + (if delay > 0 then delay else 0)
                     && SameIdentity(a, b) && SameRoute(a, b) && SamePolling(a, b) && SameOutcome(a, b)
                     && (RowOk(a) ==> RowOk(b))
    {
      hide RowidsDistinct, OnlyRow, CompletesNothing;
      NothingReplaced(jobs);
      ok := id in jobs && jobs[id].status == Dispatching && jobs[id].token == Some(token);
      if ok {
        var wait := if delay < 0 then 0 else delay;
        var row := jobs[id].(status := Queued, claimedAt := None, token := None, nextDispatchAt := Some(now + wait));
        RowReplaced(jobs, id, row);
        jobs := jobs[id := row];
      }
    }

    /** Dispatching to running, under the caller's token if it gives one; the token stays on the row. */
    method UpdateJobRunning(id: JobId, token: Option<Token>, account: Account, project: Project,
                            pollName: PollName, pollDelay: int, now: int) returns (ok: bool)
      requires Valid()
      modifies this`jobs
      ensures Valid() && jobs == MarkedRunning(old(jobs), id, token, account, project, pollName, pollDelay, now)
      ensures CompletesNothing(old(jobs), jobs)
      ensures ok <==> && id in old(jobs) && old(jobs)[id].status == Dispatching
                      && (token.Some? ==> old(jobs)[id].token == token)
      ensures !ok ==> jobs == old(jobs)
      ensures ok ==> OnlyRow(old(jobs), jobs, id)
      ensures ok ==> var a, b := old(jobs)[id], jobs[id];
                     && b.status == Running && b.claimedAt.None? && b.token == a.token
                     && b.account == Some(account) && b.project == Some(project) && b.pollName == Some(pollName)
                     && b.runningAt == Some(now) && b.pollAttempts == 0 == b.pollErrors
                     && b.nextPollAt == Some(if pollDelay > 0 then now + pollDelay else now)
                     && SameIdentity(a, b) && SameOutcome(a, b) && b.nextDispatchAt == a.nextDispatchAt
                     && (RowOk(a) && a.sub.media == Video ==> RowOk(b))
    {
      hide RowidsDistinct, OnlyRow, CompletesNothing;
      NothingReplaced(jobs);
      ok := false;
      if id in jobs && jobs[id].status == Dispatching {
        var row := jobs[id];
        if token.None? || row.token == token {
          row := row.(status := Running, claimedAt := None, runningAt := Some(now));
          row := row.(account := Some(account), project := Some(project), pollName := Some(pollName));
          row := row.(nextPollAt := Some(if pollDelay > 0 then now + pollDelay else now), pollAttempts := 0, pollErrors := 0);
          RowReplaced(jobs, id, row);
          jobs := jobs[id := row];
          ok := true;
        }
      }
    }

    /** Dispatching or running to completed, with the result; a missing route keeps the one on the row. */
    method UpdateJobCompleted(id: JobId, data: VideoResult.Json, token: Option<Token>, account: Option<Account>,
                              project: Option<Project>, now: int) returns (ok: bool)
      requires Valid()
      modifies this`jobs, this`results
      ensures Valid() && jobs == MarkedCompleted(old(jobs), id, token, account, project, now)
      ensures ok <==> && id in old(jobs) && old(jobs)[id].status in {Dispatching, Running}
                      && (token.Some? ==> old(jobs)[id].token == token)
      ensures !ok ==> jobs == old(jobs) && results == old(results)
      ensures ok ==> OnlyRow(old(jobs), jobs, id) && results == old(results)[id := data]
      ensures ok ==> var a, b := old(jobs)[id], jobs[id];
                     && b.status == Completed && b.claimedAt.None? && b.token.None? && b.nextPollAt.None?
                     && b.completedAt == Some(now) && SameIdentity(a, b)
                     && (account.Some? ==> b.account == account) && (account.None? ==> b.account == a.account)
                     && (project.Some? ==> b.project == project) && (project.None? ==> b.project == a.project)
                     && b.code == a.code && b.outcomeUnknown == a.outcomeUnknown && b.retryable == a.retryable
                     && b.pollName == a.pollName && b.runningAt == a.runningAt && b.nextDispatchAt == a.nextDispatchAt
                     && b.pollAttempts == a.pollAttempts && b.pollErrors == a.pollErrors
                     && (RowOk(a) ==> RowOk(b))
    {
      hide RowidsDistinct, OnlyRow, CompletesNothing;
      NothingReplaced(jobs);
      ok := false;
      if id in jobs && (jobs[id].status == Dispatching || jobs[id].status == Running) {
        var row := jobs[id];
        if token.None? || row.token == token {
          row := row.(status := Completed, claimedAt := None, token := None, nextPollAt := None, completedAt := Some(now));
          if account.Some? { row := row.(account := account); }
          if project.Some? { row := row.(project := project); }
          RowReplaced(jobs, id, row);
          jobs := jobs[id := row];
          results := results[id := data];
          ok := true;
        }
      }
    }

    /** Any active status to failed, saying whether the outcome is known; a finished row is never overwritten. */
    method UpdateJobFailed(id: JobId, token: Option<Token>, code: Code, retryable: bool, unknown: bool, now: int)
      returns (ok: bool)
      requires Valid()
      modifies this`jobs
      ensures Valid() && jobs == MarkedFailed(old(jobs), id, token, code, retryable, unknown, now)
      ensures CompletesNothing(old(jobs), jobs)
      ensures ok <==> && id in old(jobs) && old(jobs)[id].status !in {Completed, Failed}
                      && (token.Some? ==> old(jobs)[id].token == token)
      ensures !ok ==> jobs == old(jobs)
      ensures ok ==> OnlyRow(old(jobs), jobs, id)
      ensures ok ==> var a, b := old(jobs)[id], jobs[id];
                     && b.status == Failed && b.claimedAt.None? && b.token.None? && b.nextPollAt.None?
                     && b.code == Some(code) && b.retryable == retryable && b.outcomeUnknown == unknown
                     && b.completedAt == Some(now) && SameIdentity(a, b) && SameRoute(a, b)
                     && b.pollAttempts == a.pollAttempts && b.pollErrors == a.pollErrors
                     && b.nextDispatchAt == a.nextDispatchAt
                     && (RowOk(a) ==> RowOk(b))
    {
      hide RowidsDistinct, OnlyRow, CompletesNothing;
      NothingReplaced(jobs);
      ok := false;
      if id in jobs && jobs[id].status != Completed && jobs[id].status != Failed {
        var row := jobs[id];
        if token.None? || row.token == token {
          row := row.(status := Failed, claimedAt := None, token := None, nextPollAt := None, completedAt := Some(now));
          row := row.(code := Some(code), retryable := retryable, outcomeUnknown := unknown);
          RowReplaced(jobs, id, row);
          jobs := jobs[id := row];
          ok := true;
        }
      }
    }

    /** The next poll of a running row; errors count up one by one and any answer sets them back. */
    method ScheduleJobPoll(id: JobId, delay: int, error: bool, attempted: bool, now: int) returns (ok: bool)
      requires Valid()
      modifies this`jobs
      ensures Valid() && jobs == PollScheduled(old(jobs), id, delay, error, attempted, now)
      ensures CompletesNothing(old(jobs), jobs)
      ensures ok <==> id in old(jobs) && old(jobs)[id].status == Running
      ensures !ok ==> jobs == old(jobs)
      ensures ok ==> OnlyRow(old(jobs), jobs, id)
      ensures ok ==> var a, b := old(jobs)[id], jobs[id];
                     && b.status == Running && b.nextPollAt == Some(if delay > 0 then now + delay else now)
                     && (error ==> b.pollErrors == a.pollErrors + 1) && (!error ==> b.pollErrors == 0)
                     && b.pollAttempts == a.pollAttempts + (if attempted then 1 else 0)
                     && SameIdentity(a, b) && SameRoute(a, b) && SameOutcome(a, b)
                     && b.token == a.token && b.claimedAt == a.claimedAt && b.nextDispatchAt == a.nextDispatchAt
                     && (RowOk(a) && (error ==> a.pollErrors < 10) ==> RowOk(b))
    {
      hide RowidsDistinct, OnlyRow, CompletesNothing;
      NothingReplaced(jobs);
      ok := id in jobs && jobs[id].status == Running;
      if ok {
        var row := jobs[id];
        row := row.(nextPollAt := Some(if delay > 0 then now + delay else now));
        if attempted { row := row.(pollAttempts := row.pollAttempts + 1); }
        row := row.(pollErrors := if error then row.pollErrors + 1 else 0);
        RowReplaced(jobs, id, row);
        jobs := jobs[id := row];
      }
    }

    method RecordJobPollAttempt(id: JobId) returns (ok: bool)
      requires Valid()
      modifies this`jobs
      ensures Valid() && jobs == PollAttempted(old(jobs), id)
      ensures CompletesNothing(old(jobs), jobs)
      ensures ok == (id in old(jobs) && old(jobs)[id].status == Running)
      ensures jobs == if ok then old(jobs)[id := old(jobs)[id].(pollAttempts := old(jobs)[id].pollAttempts + 1)] else old(jobs)
    {
      hide RowidsDistinct, OnlyRow, CompletesNothing;
      NothingReplaced(jobs);
      ok := id in jobs && jobs[id].status == Running;
      if ok {
        var row := jobs[id].(pollAttempts := jobs[id].pollAttempts + 1);
        RowReplaced(jobs, id, row);
        jobs := jobs[id := row];
      }
    }

    method ClaimDueRunningJobs(limit: int, lease: int, excluded: set<JobId>, now: int) returns (claimed: seq<JobId>)
      requires Valid()
      modifies this`jobs
      ensures Valid()
      ensures CompletesNothing(old(jobs), jobs)
      ensures forall i, j | 0 <= i < j < |claimed| :: claimed[i] != claimed[j]
      ensures var ids := Elements(claimed);
              && IsPollBatch(old(jobs), now, excluded, Max(1, limit), ids)
              && jobs == PollsLeased(old(jobs), ids, lease, now)
      ensures forall i, j | 0 <= i < j < |claimed| ::
                && claimed[i] in old(jobs) && claimed[j] in old(jobs)
                && PollKey(old(jobs)[claimed[i]]) <= PollKey(old(jobs)[claimed[j]])
      ensures forall i | 0 <= i < |claimed| :: claimed[i] in old(jobs) && claimed[i] !in excluded &&
                var a := old(jobs)[claimed[i]];
                && a.status == Running && a.sub.media == Video
                && (a.nextPollAt.Some? ==> a.nextPollAt.value <= now)
                && claimed[i] in jobs && jobs[claimed[i]] == a.(nextPollAt := Some(now + Max(1, lease)))
      ensures jobs.Keys == old(jobs).Keys && forall o | o in jobs && o !in claimed :: jobs[o] == old(jobs)[o]
      ensures |claimed| <= Max(1, limit)
      ensures forall o | o in old(jobs) && o !in claimed && o !in excluded ::
                old(jobs)[o].status == Running && old(jobs)[o].sub.media == Video
                && (old(jobs)[o].nextPollAt.Some? ==> old(jobs)[o].nextPollAt.value <= now) ==>
                  && |claimed| == Max(1, limit)
                  && forall i | 0 <= i < |claimed| :: claimed[i] in old(jobs) &&
                       var a, b := old(jobs)[claimed[i]], old(jobs)[o];
                       (if a.nextPollAt.Some? then a.nextPollAt.value else if a.runningAt.Some? then a.runningAt.value else a.createdAt)
                       <= (if b.nextPollAt.Some? then b.nextPollAt.value else if b.runningAt.Some? then b.runningAt.value else b.createdAt)
    {
      var due := set id | id in jobs && PollDue(jobs[id], now) && id !in excluded;
      var key := map id | id in jobs :: PollKey(jobs[id]);
      claimed := OldestFew(key, due, Max(1, limit));
      var ids := Elements(claimed);
      DistinctSize(claimed);
      assert forall id | id in ids :: id in due;
      forall o | o in jobs && PollDue(jobs[o], now) && o !in excluded && o !in ids
        ensures |ids| == Max(1, limit) && forall id | id in ids :: PollKey(jobs[id]) <= PollKey(jobs[o])
      {
        assert o in due && o !in claimed;
      }
      PollBatchExactly(jobs, now, excluded, Max(1, limit), ids);
      LeasedExactly(jobs, ids, lease, now);
      hide IsPollBatch, PollsLeased, PollDue;
      assert forall o :: o in ids <==> o in claimed;
      assert forall i | 0 <= i < |claimed| :: claimed[i] in ids;
      jobs := PollsLeased(jobs, ids, lease, now);
    }

    method PersistAsset(d: Digest)
      modifies this`assets, this`files
      ensures Lib() == Persisted(old(Lib()), d)
      ensures files == old(files) + {d} && assets == old(assets)[d := Asset(true, None)]
    {
      files := files + {d};
      RecordAsset(d);
    }

    method RecordAsset(d: Digest)
      modifies this`assets
      ensures Lib() == Recorded(old(Lib()), d)
      ensures assets == old(assets)[d := Asset(true, None)]
    {
      assets := assets[d := Asset(true, None)];
    }

    /** The UPDATE over the listed digests: those on record become active and unorphaned, the others stay unknown. */
    method TouchAssets(ds: seq<Digest>)
      modifies this`assets
      ensures Lib() == Touched(old(Lib()), set d | d in ds)
      ensures assets.Keys == old(assets).Keys
      ensures forall d | d in assets ::
                if d in ds then assets[d].active && assets[d].orphanedAt.None? else assets[d] == old(assets)[d]
    {
      for i := 0 to |ds|
        invariant assets.Keys == old(assets).Keys
        invariant forall d | d in assets :: assets[d] == if d in ds[..i] then Asset(true, None) else old(assets)[d]
      {
        assert ds[..i + 1] == ds[..i] + [ds[i]];
        if ds[i] in assets {
          assets := assets[ds[i] := assets[ds[i]].(active := true, orphanedAt := None)];
        }
      }
      assert ds[..|ds|] == ds;
    }

    // ----- prune ---------------------------------------------------------------------

    /** DELETE ... LIMIT n over stale operations; SQLite may take any n of them. */
    method PruneOperations(keep: Retention, now: int) returns (dropped: set<nat>)
      modifies this`operations
      ensures IsOperationSweep(old(Lib()), keep, now, dropped)
      ensures operations == Without(old(operations), dropped)
      ensures operations == old(operations) - dropped && |dropped| <= Max(1, Min(keep.batch, 5000))
      ensures forall o | o in dropped :: o in old(operations)
                && (!old(operations)[o].active || old(operations)[o].lastUsed < now - keep.operationDays * 86400)
      ensures |dropped| < Max(1, Min(keep.batch, 5000)) ==>
                forall o | o in operations :: operations[o].active && now - keep.operationDays * 86400 <= operations[o].lastUsed
    {
      var stale := set o | o in operations &&
        (!operations[o].active || operations[o].lastUsed < now - keep.operationDays * DAY);
      dropped := {};
      while |dropped| < BatchSize(keep) && dropped != stale
        invariant dropped <= stale && |dropped| <= BatchSize(keep)
        decreases |stale - dropped|
      {
        var o :| o in stale - dropped;
        assert stale - (dropped + {o}) == (stale - dropped) - {o};
        dropped := dropped + {o};
      }
      ghost var before := operations;
      operations := operations - dropped;
      forall o | |dropped| < BatchSize(keep) && o in operations
        ensures operations[o].active && now - keep.operationDays * 86400 <= operations[o].lastUsed
      {
        assert o in before && operations[o] == before[o] && o !in stale;
      }
    }

    /** The loop over media candidates: delete those no live job names. */
    method PruneMedia(candidates: seq<nat>, live: set<MediaId>) returns (deleted: nat)
      requires forall i, j | 0 <= i < j < |candidates| :: candidates[i] != candidates[j]
      modifies this`media
      ensures media == Without(old(media), Unused(candidates, old(media), live))
      ensures deleted == |Unused(candidates, old(media), live)|
    {
      deleted := 0;
      for i := 0 to |candidates|
        invariant media == Without(old(media), Unused(candidates[..i], old(media), live))
        invariant deleted == |Unused(candidates[..i], old(media), live)|
      {
        var c := candidates[i];
        assert candidates[..i + 1] == candidates[..i] + [c];
        UnusedSnoc(candidates[..i], c, old(media), live);
        if c in media && media[c].googleId !in live {
          media := media - {c};
          deleted := deleted + 1;
        }
      }
      assert candidates[..|candidates|] == candidates;
    }

    /** The loop over the examined assets: clear or start their orphan clocks. */
    method MarkAssets(rows: seq<Digest>, referenced: set<Digest>, now: int)
      requires forall i, j | 0 <= i < j < |rows| :: rows[i] != rows[j]
      requires forall d | d in rows :: d in assets
      modifies this`assets
      ensures assets == AllMarked(rows, old(assets), referenced, now)
    {
      for i := 0 to |rows|
        invariant assets == AllMarked(rows[..i], old(assets), referenced, now)
      {
        var d := rows[i];
        assert d in rows && d !in rows[..i];
        assert rows[..i + 1] == rows[..i] + [d];
        if d in referenced {
          assets := assets[d := assets[d].(orphanedAt := None)];
        } else if assets[d].orphanedAt.None? {
          assets := assets[d := assets[d].(orphanedAt := Some(now))];
        }
      }
      assert rows[..|rows|] == rows;
    }

    /** The loop over expired orphans: delete the bytes, keep the row as deleted. */
    method SweepAssets(rows: seq<Digest>, keep: Retention, now: int) returns (deleted: nat)
      requires forall i, j | 0 <= i < j < |rows| :: rows[i] != rows[j]
      modifies this`assets, this`files
      ensures var doomed := OverAged(rows, old(assets), keep, now);
              && files == old(files) - doomed
              && assets == Retired(old(assets), doomed)
              && deleted == |doomed|
    {
      deleted := 0;
      for i := 0 to |rows|
        invariant files == old(files) - OverAged(rows[..i], old(assets), keep, now)
        invariant assets == Retired(old(assets), OverAged(rows[..i], old(assets), keep, now))
        invariant deleted == |OverAged(rows[..i], old(assets), keep, now)|
      {
        var d := rows[i];
        assert rows[..i + 1] == rows[..i] + [d];
        OverAgedSnoc(rows[..i], d, old(assets), keep, now);
        if d in assets && GraceOver(assets[d], keep, now) {
          files := files - {d};
          assets := assets[d := assets[d].(active := false)];
          deleted := deleted + 1;
        }
      }
      assert rows[..|rows|] == rows;
    }

    /** DELETE ... ORDER BY completed_at LIMIT n over forgettable jobs, when retention is on. */
    method PruneJobs(keep: Retention, now: int) returns (dropped: set<JobId>)
      requires Valid()
      modifies this`jobs, this`results
      ensures Valid()
      ensures CompletesNothing(old(jobs), jobs)
      ensures IsJobSweep(old(jobs), keep.jobDays, BatchSize(keep), now, dropped)
      ensures jobs == Without(old(jobs), dropped) && results == Without(old(results), dropped)
      ensures jobs == old(jobs) - dropped && results == old(results) - dropped
      ensures |dropped| <= Max(1, Min(keep.batch, 5000)) && (keep.jobDays <= 0 ==> dropped == {})
      ensures forall id | id in dropped :: id in old(jobs) &&
                var a := old(jobs)[id];
                && a.status in {Completed, Failed} && a.sub.key.None? && !a.outcomeUnknown
                && a.completedAt.Some? && a.completedAt.value <= now - keep.jobDays * 86400
      ensures forall o | keep.jobDays > 0 && o in jobs && jobs[o].status in {Completed, Failed} && jobs[o].sub.key.None?
                         && !jobs[o].outcomeUnknown && jobs[o].completedAt.Some?
                         && jobs[o].completedAt.value <= now - keep.jobDays * 86400 ::
                && |dropped| == Max(1, Min(keep.batch, 5000))
                && forall id | id in dropped :: id in old(jobs) && old(jobs)[id].completedAt.Some?
                                                && old(jobs)[id].completedAt.value <= jobs[o].completedAt.value
    {
      dropped := {};
      if keep.jobDays > 0 {
        var old_ := set id | id in jobs && Prunable(jobs[id], keep.jobDays, now);
        var key := map id | id in old_ :: jobs[id].completedAt.value;
        var few := OldestFew(key, old_, BatchSize(keep));
        dropped := Elements(few);
        DistinctSize(few);
        assert forall id | id in dropped :: id in old_;
        forall o | o in jobs && Prunable(jobs[o], keep.jobDays, now) && o !in dropped
          ensures |dropped| == BatchSize(keep)
          ensures forall id | id in dropped :: jobs[id].completedAt.value <= jobs[o].completedAt.value
        {
          assert o in old_ && o !in few;
        }
      }
      assert IsJobSweep(jobs, keep.jobDays, BatchSize(keep), now, dropped);
      JobSweepExactly(jobs, keep, now, dropped);
      hide IsJobSweep, Prunable;
      jobs := jobs - dropped;
      results := results - dropped;
    }

    /** Both candidate batches and every reference, resolved before anything is deleted. */
    method Candidates(keep: Retention, now: int)
      returns (rows: seq<Digest>, candidates: seq<nat>, live: set<MediaId>, referenced: set<Digest>)
      ensures rows == AssetBatch(Lib(), BatchSize(keep)) && candidates == MediaBatch(Lib(), keep, now)
      ensures live == LiveMediaIds(jobs) && referenced == Referenced(jobs, Lib())
      ensures forall i, j | 0 <= i < j < |rows| :: rows[i] != rows[j]
      ensures forall i, j | 0 <= i < j < |candidates| :: candidates[i] != candidates[j]
      ensures forall d | d in rows :: d in assets
    {
      hide Batch, CharacterDigests, JobDigests, MediaDigests, LiveMediaIds, BatchSize;
      var n := BatchSize(keep);
      rows := Batch(ActiveAssets(assets), assetCursor, n);
      live := LiveMediaIds(jobs);
      referenced := CharacterDigests(characters) + JobDigests(jobs) + MediaDigests(media, live);
      var stale := set m | m in media && MediaStale(media[m], keep, now);
      candidates := Batch(stale, mediaCursor, n);
      BatchIsPrefix(ActiveAssets(assets), assetCursor, n);
      BatchIsPrefix(stale, mediaCursor, n);
      assert stale == StaleMedia(Lib(), keep, now);
      assert forall d | d in rows :: d in ActiveAssets(assets) && d in assets;
    }

    /** The whole sweep, in the source's order. */
    method Prune(keep: Retention, now: int)
      returns (operationsDropped: set<nat>, jobsDropped: set<JobId>, counts: Counts)
      requires Valid()
      modifies this
      ensures Valid()
      ensures CompletesNothing(old(jobs), jobs)
      ensures IsOperationSweep(old(Lib()), keep, now, operationsDropped)
      ensures IsJobSweep(old(jobs), keep.jobDays, BatchSize(keep), now, jobsDropped)
      ensures Lib() == Pruned(old(Lib()), old(jobs), keep, now, operationsDropped)
      ensures jobs == Without(old(jobs), jobsDropped) && results == Without(old(results), jobsDropped)
      ensures counts == Counts(|operationsDropped|, |MediaDropped(old(Lib()), old(jobs), keep, now)|,
                               |Doomed(old(Lib()), old(jobs), keep, now)|, |jobsDropped|)
      ensures counts.operations <= BatchSize(keep) && counts.media <= BatchSize(keep)
      ensures counts.assets <= BatchSize(keep) && counts.jobs <= BatchSize(keep)
      // What is named keeps its bytes: by a Character, by an unfinished job, or by a media id of one.
      ensures forall c, d | c in characters && !characters[c].deleted && d in characters[c].hashes && d in old(files) ::
                d in files
      ensures forall id, d | id in old(jobs) && old(jobs)[id].status in {Queued, Dispatching, Running}
                             && d in old(jobs)[id].sub.hashes && d in old(files) ::
                d in files
      ensures forall id, m | id in old(jobs) && old(jobs)[id].status in {Queued, Dispatching, Running} && m in old(media)
                             && old(media)[m].googleId in old(jobs)[id].sub.mediaRefs && old(media)[m].digest in old(files) ::
                old(media)[m].digest in files
      // Every asset: left alone outside the window, cleared when named, else marked, retired past its grace, or waiting.
      ensures assets.Keys == old(assets).Keys && characters == old(characters)
      ensures forall d | d in assets ::
                assets[d] == if !InWindow((set x | x in old(assets) && old(assets)[x].active), old(assetCursor),
                                          Max(1, Min(keep.batch, 5000)), d) then old(assets)[d]
                             else if IsNamed(old(jobs), old(Lib()), d) then Asset(true, None)
                             else if old(assets)[d].orphanedAt.None? then Asset(true, Some(now))
                             else if old(assets)[d].orphanedAt.value <= now - Max(1, keep.assetDays) * 86400
                             then Asset(false, old(assets)[d].orphanedAt)
                             else old(assets)[d]
      ensures forall d :: (d in files <==>
                && d in old(files)
                && !(&& InWindow((set x | x in old(assets) && old(assets)[x].active), old(assetCursor),
                                 Max(1, Min(keep.batch, 5000)), d)
                     && !IsNamed(old(jobs), old(Lib()), d)
                     && d in old(assets) && old(assets)[d].orphanedAt.Some?
                     && old(assets)[d].orphanedAt.value <= now - Max(1, keep.assetDays) * 86400))
      // Every mapping: gone exactly if stale, in the window and named by no unfinished job.
      ensures forall m | m in media :: m in old(media) && media[m] == old(media)[m]
      ensures forall m :: (m in media <==>
                && m in old(media)
                && !(&& InWindow((set x | x in old(media) && (!old(media)[x].active
                                                              || old(media)[x].lastUsed < now - keep.mediaDays * 86400)),
                                 old(mediaCursor), Max(1, Min(keep.batch, 5000)), m)
                     && !InUse(old(jobs), old(media)[m].googleId)))
      // The cursors: behind a full window its last entry, behind a short one the start.
      ensures var n := Max(1, Min(keep.batch, 5000));
              var active := set x | x in old(assets) && old(assets)[x].active;
              var window := set x | x in active && InWindow(active, old(assetCursor), n, x);
              && (|window| < n ==> assetCursor == -1)
              && (|window| >= n ==> assetCursor >= 0 && assetCursor in window && forall x | x in window :: x <= assetCursor)
      ensures var n := Max(1, Min(keep.batch, 5000));
              var stale := set x | x in old(media) && (!old(media)[x].active || old(media)[x].lastUsed < now - keep.mediaDays * 86400);
              var window := set x | x in stale && InWindow(stale, old(mediaCursor), n, x);
              && (|window| < n ==> mediaCursor == 0)
              && (|window| >= n ==> mediaCursor >= 0 && mediaCursor in window && forall x | x in window :: x <= mediaCursor)
    {
      ghost var lib, before := Lib(), jobs;
      hide Pruned, IsNamed, InWindow, InUse, MediaDropped, Doomed, IsOperationSweep, IsJobSweep, RowidsDistinct, CompletesNothing,
           BatchSize;
      operationsDropped, jobsDropped, counts := Sweep(keep, now);
      forall d {
        SweepsAsset(lib, before, keep, now, operationsDropped, d);
      }
      forall m {
        SweepsMapping(lib, before, keep, now, operationsDropped, m);
      }
      NamedBy(lib, before);
      PrunedLeavesCharacters(lib, before, keep, now, operationsDropped);
      CursorsMove(lib, before, keep, now, operationsDropped);
    }

    /** The sweep, table by table. */
    method Sweep(keep: Retention, now: int)
      returns (operationsDropped: set<nat>, jobsDropped: set<JobId>, counts: Counts)
      requires Valid()
      modifies this
      ensures Valid()
      ensures CompletesNothing(old(jobs), jobs)
      ensures IsOperationSweep(old(Lib()), keep, now, operationsDropped)
      ensures IsJobSweep(old(jobs), keep.jobDays, BatchSize(keep), now, jobsDropped)
      ensures Lib() == Pruned(old(Lib()), old(jobs), keep, now, operationsDropped)
      ensures jobs == Without(old(jobs), jobsDropped) && results == Without(old(results), jobsDropped)
      ensures counts == Counts(|operationsDropped|, |MediaDropped(old(Lib()), old(jobs), keep, now)|,
                               |Doomed(old(Lib()), old(jobs), keep, now)|, |jobsDropped|)
      ensures counts.operations <= BatchSize(keep) && counts.media <= BatchSize(keep)
      ensures counts.assets <= BatchSize(keep) && counts.jobs <= BatchSize(keep)
    {
      hide IsOperationSweep, IsJobSweep, Unused, OverAged, AllMarked, Retired, RowidsDistinct, CompletesNothing, BatchSize,
           NextCursor, Batch, LiveMediaIds, JobDigests, MediaDigests, CharacterDigests, MediaStale;
      operationsDropped := PruneOperations(keep, now);
      var rows, candidates, live, referenced := Candidates(keep, now);
      var mediaDeleted := PruneMedia(candidates, live);
      MarkAssets(rows, referenced, now);
      var assetsDeleted := SweepAssets(rows, keep, now);
      jobsDropped := PruneJobs(keep, now);
      SweepIsBounded(old(Lib()), old(jobs), keep, now, operationsDropped);
      JobSweepIsBounded(old(jobs), keep, now, jobsDropped);
      assetCursor := NextCursor(rows, BatchSize(keep), ASSET_START);
      mediaCursor := NextCursor(candidates, BatchSize(keep), MEDIA_START);
      counts := Counts(|operationsDropped|, mediaDeleted, assetsDeleted, |jobsDropped|);
    }
  }
}
