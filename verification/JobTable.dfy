/**
 The provider_jobs table and the SQL statements that change it.

 A table is a map from job id to row; a statement is a function from the old
 table to the new one. Times are whole seconds, the resolution of
 CURRENT_TIMESTAMP. Identifiers are only ever compared, so they are naturals;
 rowid keeps SQLite's insertion order.
 */
module JobTable {
  import opened Base

  type JobId = nat
  type Token = nat
  type Key = nat
  type Digest = nat
  type MediaId = nat
  type Account = nat
  type Project = nat
  type PollName = nat

  datatype Media = Image | Video

  datatype Status = Queued | Dispatching | Running | Completed | Failed

  datatype Code =
    | ImageTimeout
    | QueueTimeout
    | VideoPollTimeout
    | ImageOutcomeUnknown
    | VideoOutcomeUnknown
    | PollMaxErrors
    | CreditExhausted
    | DispatchFailed(tag: nat)
    | PollFailed(tag: nat)

  /** What a caller hands to enqueue_job and the row keeps for good. */
  datatype Submission = Submission(
    media: Media,
    key: Option<Key>,
    hashes: set<Digest>,
    mediaRefs: set<MediaId>,
    account: Option<Account>,
    project: Option<Project>)

  datatype Row = Row(
    rowid: nat,
    sub: Submission,
    status: Status,
    createdAt: int,
    claimedAt: Option<int>,
    token: Option<Token>,
    nextDispatchAt: Option<int>,
    account: Option<Account>,
    project: Option<Project>,
    pollName: Option<PollName>,
    runningAt: Option<int>,
    nextPollAt: Option<int>,
    pollAttempts: nat,
    pollErrors: nat,
    code: Option<Code>,
    retryable: bool,
    outcomeUnknown: bool,
    completedAt: Option<int>)

  type Jobs = map<JobId, Row>

  predicate Terminal(r: Row) { r.status == Completed || r.status == Failed }

  predicate Active(r: Row) { !Terminal(r) }

  /** What every stored row keeps: claim, token, route, outcome and times agree with the status. */
  predicate RowOk(r: Row) {
    && (r.claimedAt.Some? <==> r.status == Dispatching)
    && (r.status == Queued || r.status == Completed ==> r.token.None?)
    && (r.status == Dispatching ==> r.token.Some?)
    && (r.status == Running ==>
          && r.sub.media == Video && r.token.Some?
          && r.account.Some? && r.pollName.Some? && r.runningAt.Some?)
    && (Terminal(r) <==> r.completedAt.Some?)
    && (r.outcomeUnknown ==> r.status == Failed)
    && r.pollErrors <= 10
  }

  // ----- what an update leaves alone ---------------------------------------

  predicate SameIdentity(a: Row, b: Row) {
    a.rowid == b.rowid && a.sub == b.sub && a.createdAt == b.createdAt
  }

  predicate SameRoute(a: Row, b: Row) {
    a.account == b.account && a.project == b.project && a.pollName == b.pollName && a.runningAt == b.runningAt
  }

  predicate SamePolling(a: Row, b: Row) {
    a.nextPollAt == b.nextPollAt && a.pollAttempts == b.pollAttempts && a.pollErrors == b.pollErrors
  }

  predicate SameOutcome(a: Row, b: Row) {
    && a.code == b.code && a.retryable == b.retryable && a.outcomeUnknown == b.outcomeUnknown
    && a.completedAt == b.completedAt
  }

  /** Row id may have changed; no row appeared, vanished or changed beside it. */
  predicate OnlyRow(before: Jobs, after: Jobs, id: JobId) {
    after.Keys == before.Keys && forall o | o in after && o != id :: after[o] == before[o]
  }

  /** The statuses that still consume queue and worker capacity. */
  function ActiveIds(jobs: Jobs): set<JobId> {
    set id | id in jobs && Active(jobs[id])
  }

  // ----- enqueue_job -------------------------------------------------------

  predicate KeyTaken(jobs: Jobs, key: Option<Key>) {
    key.Some? && exists id :: id in jobs && jobs[id].sub.key == key
  }

  function Rowids(jobs: Jobs): set<nat> { set id | id in jobs :: jobs[id].rowid }

  function NextRowid(jobs: Jobs): nat { Greatest(Rowids(jobs)) + 1 }

  function NewRow(rowid: nat, sub: Submission, now: int): Row {
    Row(rowid, sub, Queued, now, None, None, None, sub.account, sub.project, None, None, None,
        0, 0, None, false, false, None)
  }

  /** INSERT: an id or key already present leaves the table alone (IntegrityError, rollback). */
  function Inserted(jobs: Jobs, id: JobId, sub: Submission, now: int): Jobs {
    if id in jobs || KeyTaken(jobs, sub.key) then jobs
    else jobs[id := NewRow(NextRowid(jobs), sub, now)]
  }

  // ----- claim_next_queued_job ---------------------------------------------

  predicate Due(r: Row, now: int) {
    r.status == Queued && (r.nextDispatchAt.None? || r.nextDispatchAt.value <= now)
  }

  /** COALESCE(next_dispatch_at, created_at). */
  function QueueKey(r: Row): int {
    if r.nextDispatchAt.Some? then r.nextDispatchAt.value else r.createdAt
  }

  function Rank(m: Media): nat { if m == Image then 0 else 1 }

  /** The claim's ORDER BY: queue key, images first, then rowid. */
  predicate Before(a: Row, b: Row) {
    || QueueKey(a) < QueueKey(b)
    || (QueueKey(a) == QueueKey(b) && Rank(a.sub.media) < Rank(b.sub.media))
    || (QueueKey(a) == QueueKey(b) && a.sub.media == b.sub.media && a.rowid < b.rowid)
  }

  /** The row that SELECT ... ORDER BY ... LIMIT 1 returns. */
  ghost predicate IsNext(jobs: Jobs, now: int, id: JobId) {
    && id in jobs
    && Due(jobs[id], now)
    && forall o | o in jobs && o != id && Due(jobs[o], now) :: Before(jobs[id], jobs[o])
  }

  function Taken(r: Row, token: Token, now: int): Row {
    r.(status := Dispatching, claimedAt := Some(now), token := Some(token))
  }

  function Claimed(jobs: Jobs, id: JobId, token: Token, now: int): Jobs {
    if id in jobs && jobs[id].status == Queued then jobs[id := Taken(jobs[id], token, now)] else jobs
  }

  // ----- release_job_claim, update_job_* -----------------------------------

  /** The WHERE clause of a worker's own update: the right status and its own token. */
  predicate Owns(jobs: Jobs, id: JobId, token: Token) {
    id in jobs && jobs[id].status == Dispatching && jobs[id].token == Some(token)
  }

  predicate TokenMatches(r: Row, token: Option<Token>) {
    token.None? || r.token == token
  }

  function Released(jobs: Jobs, id: JobId, token: Token, delay: int, now: int): Jobs {
    if Owns(jobs, id, token)
    then jobs[id := jobs[id].(status := Queued, claimedAt := None, token := None,
                              nextDispatchAt := Some(now + Max(0, delay)))]
    else jobs
  }

  function MarkedRunning(jobs: Jobs, id: JobId, token: Option<Token>, account: Account, project: Project,
                         pollName: PollName, pollDelay: int, now: int): Jobs {
    if id in jobs && jobs[id].status == Dispatching && TokenMatches(jobs[id], token)
    then jobs[id := jobs[id].(status := Running, claimedAt := None,
                              account := Some(account), project := Some(project),
                              pollName := Some(pollName), runningAt := Some(now),
                              nextPollAt := Some(PollTime(now, pollDelay)),
                              pollAttempts := 0, pollErrors := 0)]
    else jobs
  }

  /** A positive delay is at least one second away; otherwise the poll is due now. */
  function PollTime(now: int, delay: int): int {
    if delay > 0 then now + Max(1, delay) else now
  }

  /** int(delay), but never less than a second for a positive one. */
  function WholeSeconds(delay: real): (s: nat)
    ensures delay <= 0.0 ==> s == 0
    ensures delay > 0.0 ==> s >= 1 && (s as real <= delay || s == 1) && delay < s as real + 1.0
  {
    if delay <= 0.0 then 0 else Max(1, delay.Floor)
  }

  predicate Completable(r: Row) { r.status == Dispatching || r.status == Running }

  function MarkedCompleted(jobs: Jobs, id: JobId, token: Option<Token>, account: Option<Account>,
                           project: Option<Project>, now: int): Jobs {
    if id in jobs && Completable(jobs[id]) && TokenMatches(jobs[id], token)
    then jobs[id := jobs[id].(status := Completed, claimedAt := None, token := None,
                              account := if account.Some? then account else jobs[id].account,
                              project := if project.Some? then project else jobs[id].project,
                              nextPollAt := None, completedAt := Some(now))]
    else jobs
  }

  function MarkedFailed(jobs: Jobs, id: JobId, token: Option<Token>, code: Code, retryable: bool,
                        unknown: bool, now: int): Jobs {
    if id in jobs && Active(jobs[id]) && TokenMatches(jobs[id], token)
    then jobs[id := jobs[id].(status := Failed, claimedAt := None, token := None,
                              code := Some(code), retryable := retryable,
                              outcomeUnknown := unknown,
                              nextPollAt := None, completedAt := Some(now))]
    else jobs
  }

  // ----- fail_abandoned_dispatches, fail_expired_jobs ----------------------

  predicate LeaseOver(r: Row, lease: int, now: int) {
    r.status == Dispatching && r.claimedAt.Some? && r.claimedAt.value <= now - Max(1, lease)
  }

  function Abandon(r: Row, now: int): Row {
    r.(status := Failed, claimedAt := None, token := None,
       code := Some(if r.sub.media == Image then ImageOutcomeUnknown else VideoOutcomeUnknown),
       retryable := false, outcomeUnknown := true, completedAt := Some(now))
  }

  function Abandoned(jobs: Jobs, lease: int, now: int): Jobs {
    map id | id in jobs ::
      if LeaseOver(jobs[id], lease, now) then Abandon(jobs[id], now) else jobs[id]
  }

  datatype Limits = Limits(image: int, videoQueue: int, videoRunning: int)

  predicate QueueOver(r: Row, limits: Limits, now: int) {
    && r.status == Queued
    && r.createdAt <= now - Max(1, if r.sub.media == Image then limits.image else limits.videoQueue)
  }

  predicate RunOver(r: Row, limits: Limits, now: int) {
    && r.status == Running && r.sub.media == Video
    && (if r.runningAt.Some? then r.runningAt.value else r.createdAt) <= now - Max(1, limits.videoRunning)
  }

  /** Age expiry leaves the claim token of a running row where it is. */
  function ExpireRow(r: Row, limits: Limits, now: int): Row {
    if QueueOver(r, limits, now) then
      r.(status := Failed, code := Some(if r.sub.media == Image then ImageTimeout else QueueTimeout),
         retryable := false, outcomeUnknown := false, completedAt := Some(now))
    else if RunOver(r, limits, now) then
      r.(status := Failed, code := Some(VideoPollTimeout),
         retryable := false, outcomeUnknown := true, completedAt := Some(now))
    else r
  }

  function Expired(jobs: Jobs, limits: Limits, only: Option<JobId>, now: int): Jobs {
    map id | id in jobs ::
      if only.None? || only.value == id then ExpireRow(jobs[id], limits, now) else jobs[id]
  }

  // ----- polling ------------------------------------------------------------

  predicate PollDue(r: Row, now: int) {
    && r.status == Running && r.sub.media == Video
    && (r.nextPollAt.None? || r.nextPollAt.value <= now)
  }

  /** COALESCE(next_poll_at, running_at, created_at). */
  function PollKey(r: Row): int {
    if r.nextPollAt.Some? then r.nextPollAt.value
    else if r.runningAt.Some? then r.runningAt.value
    else r.createdAt
  }

  /** SELECT ... ORDER BY PollKey LIMIT n over the due rows outside `excluded`; ties may fall either way. */
  ghost predicate IsPollBatch(jobs: Jobs, now: int, excluded: set<JobId>, n: nat, ids: set<JobId>) {
    && (forall id | id in ids :: id in jobs && PollDue(jobs[id], now) && id !in excluded)
    && |ids| <= n
    && forall o | o in jobs && PollDue(jobs[o], now) && o !in excluded && o !in ids ::
         |ids| == n && forall id | id in ids :: PollKey(jobs[id]) <= PollKey(jobs[o])
  }

  function PollsLeased(jobs: Jobs, ids: set<JobId>, lease: int, now: int): Jobs {
    map id | id in jobs ::
      if id in ids && jobs[id].status == Running
      then jobs[id].(nextPollAt := Some(now + Max(1, lease)))
      else jobs[id]
  }

  /** schedule_job_poll: an error adds one to the consecutive count, its absence clears it. */
  function PollScheduled(jobs: Jobs, id: JobId, delay: int, error: bool, attempted: bool, now: int): Jobs {
    if id in jobs && jobs[id].status == Running
    then jobs[id := jobs[id].(nextPollAt := Some(PollTime(now, delay)),
                              pollAttempts := jobs[id].pollAttempts + (if attempted then 1 else 0),
                              pollErrors := if error then jobs[id].pollErrors + 1 else 0)]
    else jobs
  }

  function PollAttempted(jobs: Jobs, id: JobId): Jobs {
    if id in jobs && jobs[id].status == Running
    then jobs[id := jobs[id].(pollAttempts := jobs[id].pollAttempts + 1)]
    else jobs
  }

  // ----- prune: job history --------------------------------------------------

  const DAY: int := 86400

  predicate Prunable(r: Row, days: int, now: int) {
    && Terminal(r) && r.sub.key.None? && !r.outcomeUnknown
    && r.completedAt.Some? && r.completedAt.value <= now - days * DAY
  }

  /** DELETE ... ORDER BY completed_at LIMIT batch; nothing at all while retention is off. */
  ghost predicate IsJobSweep(jobs: Jobs, days: int, batch: nat, now: int, drop: set<JobId>) {
    if days <= 0 then drop == {} else
      && (forall id | id in drop :: id in jobs && Prunable(jobs[id], days, now))
      && |drop| <= batch
      && forall o | o in jobs && Prunable(jobs[o], days, now) && o !in drop ::
           && |drop| == batch
           && forall id | id in drop :: jobs[id].completedAt.value <= jobs[o].completedAt.value
  }

  function Without<K, V>(m: map<K, V>, drop: set<K>): map<K, V> { m - drop }
}
