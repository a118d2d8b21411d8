/**
 The job store, the worker's dispatch and poll coroutines, and the clock, as one
 state machine.

 Every store method holds the lock for one transaction, so it is one step. A
 dispatch coroutine is cut at its awaits: it holds a claim, then a reservation,
 then it has sent its one generation request and waits for the answer. Answers,
 delays, fresh ids and the interleaving are inputs, carried by the events.
 A run is any sequence of events; an event that is not enabled changes nothing.
 */
module Protocol {
  import opened Base
  import opened JobTable
  import opened AssetLibrary

  datatype Config = Config(lease: int, limits: Limits, pollCapacity: nat, pollLease: int, keep: Retention)

  /** Where a dispatch coroutine stands. `Sent` is the source's paid_attempted, for either medium. */
  datatype Pc = Holding | Reserved | Sent

  datatype Task = Task(job: JobId, media: Media, pc: Pc)

  /** The fields of the job object a poll coroutine was started with. */
  datatype Snapshot = Snapshot(account: Option<Account>, pollName: Option<PollName>, errors: nat)

  /** A generation answer as the worker reads it. `raisesAfter`: recording the alias raises after the row was updated. */
  datatype Reply = Reply(
    status: Option<int>,
    hasError: bool,
    quotaText: bool,
    pollName: Option<PollName>,
    mediaValid: bool,
    raisesAfter: bool)

  datatype Answer = Raised | Got(reply: Reply)

  /**
   How one poll ends. `NotAnswered` is every branch that schedules another poll
   with an error: no connection, busy, failed call, missing data or URL, exception.
   `Lost` is a cancelled coroutine.
   */
  datatype PollResult =
    | NotAnswered(recorded: bool, attempted: bool)
    | StillRunning
    | ReportedFailure(tag: nat, retryable: bool)
    | Finished
    | Lost

  /** What has happened so far; nothing in the store reads it. */
  datatype History = History(
    usedIds: set<JobId>,
    usedTokens: set<Token>,
    sent: multiset<JobId>,
    sentKeys: multiset<Key>,
    answers: map<JobId, Answer>,
    pollVerdicts: set<JobId>)

  datatype State = State(
    cfg: Config,
    now: int,
    jobs: Jobs,
    lib: Library,
    tasks: map<Token, Task>,
    polls: map<JobId, Snapshot>,
    h: History)

  datatype Event =
    | Tick(seconds: nat)
    | Enqueue(id: JobId, sub: Submission)
    | Claim(id: JobId, token: Token)
    | Release(token: Token, delay: int)
    | Reject(token: Token, tag: nat, retryable: bool)
    | Reserve(token: Token)
    | Send(token: Token)
    | Respond(token: Token, answer: Answer, account: Account, project: Project, pollDelay: int)
    | Cancel(token: Token)
    | Crash
    | FailAbandoned
    | FailExpired(only: Option<JobId>)
    | StartPolls(limit: Option<nat>, ids: set<JobId>)
    | EndPoll(id: JobId, result: PollResult, delay: int)
    | PersistAsset(digest: Digest)
    | TouchAssets(digests: set<Digest>)
    | ChangeCatalogue(media: map<nat, MediaRow>, operations: map<nat, Operation>, characters: map<nat, Character>)
    | Prune(dropJobs: set<JobId>, dropOperations: set<nat>)

  // ----- reading an answer ---------------------------------------------------

  /** Statuses after which the upstream may still have accepted the request. */
  predicate Ambiguous(status: int) { status in {408, 425, 500, 502, 503, 504} }

  predicate LooksRejected(r: Reply) {
    r.status.None? || r.status.value >= 400 || r.hasError
  }

  /** _credit_exhaustion: a deterministic no-credit rejection. */
  predicate NoCredit(r: Reply) {
    r.status.Some? && (r.status.value == 402 || (r.status.value in {400, 403, 429} && r.quotaText))
  }

  predicate OutcomeUnclear(r: Reply) { r.status.None? || Ambiguous(r.status.value) }

  /** The upstream said no and could not have accepted the request. */
  predicate DefiniteNo(a: Answer) {
    && a.Got? && a.reply.status.Some? && !Ambiguous(a.reply.status.value)
    && (a.reply.status.value >= 400 || a.reply.hasError)
  }

  const DISPATCH := 0
  const MISSING_ROUTE := 1
  const REPORTED := 2

  /** The row after a video answer: _dispatch_job from the status check to its except clause. */
  function VideoSettled(jobs: Jobs, job: JobId, token: Token, a: Answer, account: Account, project: Project,
                        pollDelay: int, now: int): Jobs {
    match a
    case Raised => MarkedFailed(jobs, job, Some(token), VideoOutcomeUnknown, false, true, now)
    case Got(r) =>
      if LooksRejected(r) then
        if NoCredit(r) then MarkedFailed(jobs, job, Some(token), CreditExhausted, false, false, now)
        else if OutcomeUnclear(r) then MarkedFailed(jobs, job, Some(token), VideoOutcomeUnknown, false, true, now)
        else MarkedFailed(jobs, job, Some(token), DispatchFailed(DISPATCH), false, false, now)
      else if r.pollName.None? then
        MarkedFailed(jobs, job, Some(token), VideoOutcomeUnknown, false, true, now)
      else
        var running := MarkedRunning(jobs, job, Some(token), account, project, r.pollName.value, pollDelay, now);
        if r.raisesAfter && Owns(jobs, job, token)
        then MarkedFailed(running, job, Some(token), VideoOutcomeUnknown, false, true, now)
        else running
  }

  /** The row after an image answer. paid_attempted is never set for an image. */
  function ImageSettled(jobs: Jobs, job: JobId, token: Token, a: Answer, account: Account, project: Project,
                        now: int): Jobs {
    match a
    case Raised => MarkedFailed(jobs, job, Some(token), DispatchFailed(DISPATCH), false, false, now)
    case Got(r) =>
      if LooksRejected(r) then
        if OutcomeUnclear(r) then MarkedFailed(jobs, job, Some(token), ImageOutcomeUnknown, false, true, now)
        else MarkedFailed(jobs, job, Some(token), DispatchFailed(DISPATCH), false, false, now)
      else if !r.mediaValid then
        MarkedFailed(jobs, job, Some(token), ImageOutcomeUnknown, false, true, now)
      else
        MarkedCompleted(jobs, job, Some(token), Some(account), Some(project), now)
  }

  function Settled(jobs: Jobs, t: Task, token: Token, a: Answer, account: Account, project: Project,
                   pollDelay: int, now: int): Jobs {
    if t.media == Video then VideoSettled(jobs, t.job, token, a, account, project, pollDelay, now)
    else ImageSettled(jobs, t.job, token, a, account, project, now)
  }

  /** _poll_job: which branch runs is decided by the snapshot first, then by the upstream. */
  function PollSettled(jobs: Jobs, id: JobId, snap: Snapshot, result: PollResult, delay: int, now: int): Jobs {
    if snap.account.None? || snap.pollName.None? then
      MarkedFailed(jobs, id, None, PollFailed(MISSING_ROUTE), false, false, now)
    else if snap.errors >= 10 then
      MarkedFailed(jobs, id, None, PollMaxErrors, false, true, now)
    else match result
      case NotAnswered(recorded, attempted) =>
        PollScheduled(if recorded then PollAttempted(jobs, id) else jobs, id, delay, true, attempted, now)
      case StillRunning => PollScheduled(PollAttempted(jobs, id), id, delay, false, false, now)
      case ReportedFailure(tag, retryable) =>
        MarkedFailed(PollAttempted(jobs, id), id, None, PollFailed(REPORTED + tag), retryable, false, now)
      case Finished => MarkedCompleted(PollAttempted(jobs, id), id, None, None, None, now)
      case Lost => jobs
  }

  /** The poll got far enough to hear a definite failure from the upstream. */
  predicate HeardFailure(snap: Snapshot, result: PollResult) {
    snap.account.Some? && snap.pollName.Some? && snap.errors < 10 && result.ReportedFailure?
  }

  // ----- steps ----------------------------------------------------------------

  predicate AtPc(s: State, token: Token, pc: Pc) { token in s.tasks && s.tasks[token].pc == pc }

  predicate BeforeSending(s: State, token: Token) {
    token in s.tasks && s.tasks[token].pc != Sent
  }

  /** poll_running_jobs: only free slots, never more than asked for. */
  function PollSlots(s: State, limit: Option<nat>): int {
    var free := Max(1, s.cfg.pollCapacity) - |s.polls|;
    Min(free, if limit.None? then Max(1, s.cfg.pollCapacity) else Max(1, limit.value))
  }

  ghost predicate Enabled(s: State, e: Event) {
    match e
    case Enqueue(id, _) => id !in s.h.usedIds
    case Claim(id, token) => IsNext(s.jobs, s.now, id) && token !in s.h.usedTokens
    case Release(token, _) => AtPc(s, token, Holding)
    case Reject(token, _, _) => BeforeSending(s, token)
    case Reserve(token) => AtPc(s, token, Holding)
    case Send(token) => AtPc(s, token, Reserved)
    case Respond(token, _, _, _, _) => AtPc(s, token, Sent)
    case Cancel(token) => token in s.tasks
    case StartPolls(limit, ids) =>
      PollSlots(s, limit) > 0 && IsPollBatch(s.jobs, s.now, s.polls.Keys, PollSlots(s, limit), ids)
    case EndPoll(id, _, _) => id in s.polls
    case Prune(dropJobs, dropOperations) =>
      && IsJobSweep(s.jobs, s.cfg.keep.jobDays, BatchSize(s.cfg.keep), s.now, dropJobs)
      && IsOperationSweep(s.lib, s.cfg.keep, s.now, dropOperations)
    case _ => true
  }

  function Finish(s: State, token: Token): map<Token, Task> { Without(s.tasks, {token}) }

  function Snap(r: Row): Snapshot { Snapshot(r.account, r.pollName, r.pollErrors) }

  ghost function Effect(s: State, e: Event): State
    requires Enabled(s, e)
  {
    match e
    case Tick(seconds) => s.(now := s.now + seconds)
    case Enqueue(id, sub) =>
      s.(jobs := Inserted(s.jobs, id, sub, s.now), h := s.h.(usedIds := s.h.usedIds + {id}))
    case Claim(id, token) =>
      s.(jobs := Claimed(s.jobs, id, token, s.now),
         tasks := s.tasks[token := Task(id, s.jobs[id].sub.media, Holding)],
         h := s.h.(usedTokens := s.h.usedTokens + {token}))
    case Release(token, delay) =>
      s.(jobs := Released(s.jobs, s.tasks[token].job, token, delay, s.now), tasks := Finish(s, token))
    case Reject(token, tag, retryable) =>
      s.(jobs := MarkedFailed(s.jobs, s.tasks[token].job, Some(token), DispatchFailed(tag), retryable, false, s.now),
         tasks := Finish(s, token))
    case Reserve(token) =>
      s.(tasks := s.tasks[token := s.tasks[token].(pc := Reserved)])
    case Send(token) =>
      var job := s.tasks[token].job;
      s.(tasks := s.tasks[token := s.tasks[token].(pc := Sent)],
         h := s.h.(sent := s.h.sent + multiset{job},
                   sentKeys := if job in s.jobs && s.jobs[job].sub.key.Some?
                               then s.h.sentKeys + multiset{s.jobs[job].sub.key.value} else s.h.sentKeys))
    case Respond(token, a, account, project, pollDelay) =>
      s.(jobs := Settled(s.jobs, s.tasks[token], token, a, account, project, pollDelay, s.now),
         tasks := Finish(s, token),
         h := s.h.(answers := s.h.answers[s.tasks[token].job := a]))
    case Cancel(token) => s.(tasks := Finish(s, token))
    case Crash => s.(tasks := map[], polls := map[])
    case FailAbandoned => s.(jobs := Abandoned(s.jobs, s.cfg.lease, s.now))
    case FailExpired(only) => s.(jobs := Expired(s.jobs, s.cfg.limits, only, s.now))
    case StartPolls(_, ids) =>
      var leased := PollsLeased(s.jobs, ids, s.cfg.pollLease, s.now);
      s.(jobs := leased, polls := s.polls + map id | id in ids && id in leased :: Snap(leased[id]))
    case EndPoll(id, result, delay) =>
      s.(jobs := PollSettled(s.jobs, id, s.polls[id], result, delay, s.now),
         polls := Without(s.polls, {id}),
         h := if HeardFailure(s.polls[id], result)
              then s.h.(pollVerdicts := s.h.pollVerdicts + {id}) else s.h)
    case PersistAsset(digest) => s.(lib := Persisted(s.lib, digest))
    case TouchAssets(digests) => s.(lib := Touched(s.lib, digests))
    case ChangeCatalogue(media, operations, characters) =>
      s.(lib := s.lib.(media := media, operations := operations, characters := characters))
    case Prune(dropJobs, dropOperations) =>
      s.(lib := Pruned(s.lib, s.jobs, s.cfg.keep, s.now, dropOperations), jobs := Without(s.jobs, dropJobs))
  }

  ghost function Step(s: State, e: Event): State {
    if Enabled(s, e) then Effect(s, e) else s
  }

  ghost function Run(s: State, es: seq<Event>): State
    decreases |es|
  {
    if es == [] then s else Run(Step(s, es[0]), es[1..])
  }

  /** A fresh installation: no rows, no coroutines, nothing on disk. */
  function Init(cfg: Config, now: int): State {
    State(cfg, now, map[],
          Library(map[], {}, map[], map[], map[], ASSET_START, MEDIA_START),
          map[], map[],
          History({}, {}, multiset{}, multiset{}, map[], {}))
  }

  lemma {:induction false} RunConcat(s: State, es: seq<Event>, fs: seq<Event>)
    ensures Run(s, es + fs) == Run(Run(s, es), fs)
    decreases |es|
  {
    if es == [] {
      assert es + fs == fs;
    } else {
      assert (es + fs)[0] == es[0] && (es + fs)[1..] == es[1..] + fs;
      RunConcat(Step(s, es[0]), es[1..], fs);
    }
  }

  // ----- single steps -----------------------------------------------------------

  lemma OneStep(s: State, e: Event)
    ensures Run(s, [e]) == Step(s, e)
  {
    hide Step;
    assert [e][1..] == [];
  }

  lemma TwoSteps(s: State, d: Event, e: Event)
    ensures Run(s, [d, e]) == Step(Step(s, d), e)
  {
    hide Step;
    assert [d, e][1..] == [e];
    OneStep(Step(s, d), e);
  }

  lemma ThreeSteps(s: State, c: Event, d: Event, e: Event)
    ensures Run(s, [c, d, e]) == Step(Step(Step(s, c), d), e)
  {
    hide Step;
    assert [c, d, e][1..] == [d, e];
    TwoSteps(Step(s, c), d, e);
  }

  lemma HoldingStep(s: State, token: Token, e: Event)
    requires AtPc(s, token, Holding) && (e.Release? || e.Reject?) && e.token == token
    ensures var t := Step(s, e);
            && t.h.sent == s.h.sent && t.tasks == Finish(s, token)
            && t.jobs == if e.Release? then Released(s.jobs, s.tasks[token].job, token, e.delay, s.now)
                         else MarkedFailed(s.jobs, s.tasks[token].job, Some(token), DispatchFailed(e.tag), e.retryable, false, s.now)
  {
    hide Released, MarkedFailed, Finish;
  }

  lemma ReserveStep(s: State, token: Token)
    requires AtPc(s, token, Holding)
    ensures Step(s, Reserve(token)) == s.(tasks := s.tasks[token := s.tasks[token].(pc := Pc.Reserved)])
  {
  }

  lemma RejectStep(s: State, token: Token, tag: nat, retryable: bool)
    requires AtPc(s, token, Pc.Reserved)
    ensures var t := Step(s, Reject(token, tag, retryable));
            && t.h.sent == s.h.sent && t.tasks == Finish(s, token)
            && t.jobs == MarkedFailed(s.jobs, s.tasks[token].job, Some(token), DispatchFailed(tag), retryable, false, s.now)
  {
    hide MarkedFailed, Finish;
  }

  lemma SendStep(s: State, token: Token)
    requires AtPc(s, token, Pc.Reserved)
    ensures var t := Step(s, Send(token));
            && t.h.sent == s.h.sent + multiset{s.tasks[token].job} && t.jobs == s.jobs && t.now == s.now
            && t.tasks == s.tasks[token := s.tasks[token].(pc := Sent)]
  {
  }

  lemma RespondStep(s: State, token: Token, a: Answer, account: Account, project: Project, pollDelay: int)
    requires AtPc(s, token, Sent)
    ensures var t := Step(s, Respond(token, a, account, project, pollDelay));
            && t.h.sent == s.h.sent && t.tasks == Finish(s, token)
            && t.jobs == Settled(s.jobs, s.tasks[token], token, a, account, project, pollDelay, s.now)
  {
    hide Settled, Finish;
  }
}
