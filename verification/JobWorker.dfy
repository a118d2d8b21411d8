/**
 The worker's own code: the claim loop, one dispatch, the poll slots and one
 poll, as methods over the store and the runtime. Each is proved to do what the
 protocol's steps do, so everything proved about runs applies to it; executed
 without interruption a dispatch is one particular run.
 */
module JobWorker {
  import opened Base
  import opened JobTable
  import opened AssetLibrary
  import opened Protocol
  import opened Outcomes
  import Polling
  import Store = ProjectStore
  import Books = Runtime
  import Routing = MediaTransfer
  import VideoResult

  /** How far the coroutine gets between its reservation and its request; `data` is what the answer carries. */
  datatype Preparation = Ready(answer: Answer, data: VideoResult.Json) | NotReady(tag: nat, retryable: bool) | Broke

  /** What the connection search came to: a connection, a later try, or a definite end. */
  datatype Plan =
    | Wait
    | GiveUp(tag: nat)
    | Go(want: Books.Reservation, balance: Option<int>, pending: nat, prepared: Preparation,
         account: Account, project: Project, pollDelay: int)

  const RETRY_DELAY := 1

  /** The row after a dispatch; `admitted` is what reserve_connection said. */
  function Dispatched(jobs: Jobs, id: JobId, token: Token, media: Media, plan: Plan, admitted: bool, now: int): Jobs {
    match plan
    case Wait => Released(jobs, id, token, RETRY_DELAY, now)
    case GiveUp(tag) => MarkedFailed(jobs, id, Some(token), DispatchFailed(tag), false, false, now)
    case Go(_, _, _, prepared, account, project, pollDelay) =>
      if !admitted then Released(jobs, id, token, RETRY_DELAY, now)
      else match prepared
        case NotReady(tag, retryable) => MarkedFailed(jobs, id, Some(token), DispatchFailed(tag), retryable, false, now)
        case Broke => MarkedFailed(jobs, id, Some(token), DispatchFailed(DISPATCH), false, false, now)
        case Ready(answer, _) => Settled(jobs, Task(id, media, Sent), token, answer, account, project, pollDelay, now)
  }

  function Steps(token: Token, plan: Plan, admitted: bool): seq<Event> {
    match plan
    case Wait => [Release(token, RETRY_DELAY)]
    case GiveUp(tag) => [Reject(token, tag, false)]
    case Go(_, _, _, prepared, account, project, pollDelay) =>
      if !admitted then [Release(token, RETRY_DELAY)]
      else match prepared
        case NotReady(tag, retryable) => [Reserve(token), Reject(token, tag, retryable)]
        case Broke => [Reserve(token), Reject(token, DISPATCH, false)]
        case Ready(answer, _) => [Reserve(token), Send(token), Respond(token, answer, account, project, pollDelay)]
  }

  /** An uninterrupted dispatch is a run of the protocol, with at most one request sent in it. */
  lemma DispatchIsARun(s: State, token: Token, plan: Plan, admitted: bool)
    requires AtPc(s, token, Holding)
    ensures var job := s.tasks[token].job;
            var t := Run(s, Steps(token, plan, admitted));
            && t.jobs == Dispatched(s.jobs, job, token, s.tasks[token].media, plan, admitted, s.now)
            && t.tasks == Without(s.tasks, {token})
            && t.h.sent == s.h.sent + (if plan.Go? && admitted && plan.prepared.Ready? then multiset{job} else multiset{})
  {
    hide Step, Run, Settled, Released, MarkedFailed;
    match plan
    case Wait =>
      OneStep(s, Release(token, RETRY_DELAY));
      HoldingStep(s, token, Release(token, RETRY_DELAY));
    case GiveUp(tag) =>
      OneStep(s, Reject(token, tag, false));
      HoldingStep(s, token, Reject(token, tag, false));
    case Go(_, _, _, prepared, account, project, pollDelay) =>
      if !admitted {
        OneStep(s, Release(token, RETRY_DELAY));
        HoldingStep(s, token, Release(token, RETRY_DELAY));
      } else {
        var r := Step(s, Reserve(token));
        ReserveStep(s, token);
        match prepared
        case NotReady(tag, retryable) =>
          TwoSteps(s, Reserve(token), Reject(token, tag, retryable));
          RejectStep(r, token, tag, retryable);
        case Broke =>
          TwoSteps(s, Reserve(token), Reject(token, DISPATCH, false));
          RejectStep(r, token, DISPATCH, false);
        case Ready(answer, _) =>
          ThreeSteps(s, Reserve(token), Send(token), Respond(token, answer, account, project, pollDelay));
          SendStep(r, token);
          RespondStep(Step(r, Send(token)), token, answer, account, project, pollDelay);
      }
  }

  /** The project a job is sent with: its own, unless it has none or another account is known to own it. */
  function SentProject(job: Job, c: Routing.Connection, managed: Project): Project {
    if job.route.project.None? then managed
    else if job.route.project.value in job.owners && job.owners[job.route.project.value] != c.key then managed
    else job.route.project.value
  }

  /** Every way a dispatch can end, on its own row. */
  lemma DispatchedExactly(jobs: Jobs, id: JobId, token: Token, media: Media, choice: Choice, job: Job, managed: Project,
                          prepared: Preparation, pollDelay: int, now: int)
    ensures var after := Dispatched(jobs, id, token, media, PlanOf(choice, job, managed, prepared, pollDelay), true, now);
            && OnlyRow(jobs, after, id)
            && (!(id in jobs && Active(jobs[id]) && jobs[id].token == Some(token)) ==> after == jobs)
            && (Holds(jobs, id, token) ==>
                  var a, b := jobs[id], after[id];
                  && (choice.Later? ==> GoesBack(a, b, 1, now))
                  && (choice.Ended? ==> EndsFailed(a, b, DispatchFailed(choice.tag), false, false, now))
                  && (choice.Use? && prepared.NotReady? ==>
                        EndsFailed(a, b, DispatchFailed(prepared.tag), prepared.retryable, false, now))
                  && (choice.Use? && prepared.Broke? ==> EndsFailed(a, b, DispatchFailed(0), false, false, now))
                  && (choice.Use? && prepared.Ready? && media == Video ==>
                        VideoAnswered(a, b, prepared.answer, choice.offer.c.key, SentProject(job, choice.offer.c, managed), pollDelay, now))
                  && (choice.Use? && prepared.Ready? && media == Image ==>
                        ImageAnswered(a, b, prepared.answer, choice.offer.c.key, SentProject(job, choice.offer.c, managed), now)))
  {
    if choice.Use? {
      Routing.ChosenProjectExactly(job.route, job.owners, choice.offer.c, managed);
    }
    hide VideoSettled, ImageSettled, VideoAnswered, ImageAnswered, Routing.ChosenProject;
    if choice.Use? && prepared.Ready? {
      VideoAnswers(jobs, id, token, prepared.answer, choice.offer.c.key, SentProject(job, choice.offer.c, managed), pollDelay, now);
      ImageAnswers(jobs, id, token, prepared.answer, choice.offer.c.key, SentProject(job, choice.offer.c, managed), now);
    }
  }

  /** enqueue_job ends with a status read: a new row passes lease and age expiry at once. */
  lemma EnqueueIsARun(s: State, id: JobId, sub: Submission)
    requires id !in s.h.usedIds
    ensures Run(s, [Enqueue(id, sub), FailAbandoned, FailExpired(Some(id))]).jobs ==
            Store.StatusRead(Inserted(s.jobs, id, sub, s.now), id, s.cfg.lease, s.cfg.limits, s.now)
  {
    ThreeSteps(s, Enqueue(id, sub), FailAbandoned, FailExpired(Some(id)));
    EnqueueStep(s, id, sub);
    hide Inserted;
    ReadSteps(Step(s, Enqueue(id, sub)), id);
  }

  lemma EnqueueStep(s: State, id: JobId, sub: Submission)
    requires id !in s.h.usedIds
    ensures var t := Step(s, Enqueue(id, sub));
            t.jobs == Inserted(s.jobs, id, sub, s.now) && t.now == s.now && t.cfg == s.cfg
  {
    hide Inserted;
  }

  lemma ReadSteps(s: State, id: JobId)
    ensures var t := Step(s, FailAbandoned);
            Step(t, FailExpired(Some(id))).jobs == Store.StatusRead(s.jobs, id, s.cfg.lease, s.cfg.limits, s.now)
  {
    hide Abandoned, Expired;
  }

  /** A claim, as ClaimNextQueuedJob makes it, is a step; it starts a coroutine for the row's medium. */
  lemma ClaimIsAStep(s: State, id: JobId, token: Token)
    requires IsNext(s.jobs, s.now, id) && token !in s.h.usedTokens
    ensures var t := Step(s, Claim(id, token));
            && t.jobs == s.jobs[id := s.jobs[id].(status := Dispatching, claimedAt := Some(s.now), token := Some(token))]
            && t.tasks == s.tasks[token := Task(id, s.jobs[id].sub.media, Holding)]
            && t.h.sent == s.h.sent
  {
  }

  /** Filling the free slots, as PollRunningJobs does it, is a step; each poll starts from the row it was leased with. */
  lemma PollStartIsAStep(s: State, limit: Option<nat>, ids: set<JobId>)
    requires var n := Min(Max(1, s.cfg.pollCapacity) - |s.polls|,
                          if limit.None? then Max(1, s.cfg.pollCapacity) else Max(1, limit.value));
             n > 0 && IsPollBatch(s.jobs, s.now, s.polls.Keys, n, ids)
    ensures var t := Step(s, StartPolls(limit, ids));
            && t.jobs == PollsLeased(s.jobs, ids, s.cfg.pollLease, s.now)
            && t.polls.Keys == s.polls.Keys + ids
            && (forall id | id in ids :: id in t.jobs &&
                  t.polls[id] == Snapshot(t.jobs[id].account, t.jobs[id].pollName, t.jobs[id].pollErrors))
            && forall id | id in s.polls && id !in ids :: t.polls[id] == s.polls[id]
  {
    assert ids <= s.jobs.Keys;
    hide IsPollBatch;
    PollStartEffect(s, limit, ids);
    hide Step;
    LeasedKeys(s.jobs, ids, s.cfg.pollLease, s.now);
    hide PollsLeased;
    Merged(s.polls, ids, map id | id in ids && id in PollsLeased(s.jobs, ids, s.cfg.pollLease, s.now) ::
      Snapshot(PollsLeased(s.jobs, ids, s.cfg.pollLease, s.now)[id].account,
               PollsLeased(s.jobs, ids, s.cfg.pollLease, s.now)[id].pollName,
               PollsLeased(s.jobs, ids, s.cfg.pollLease, s.now)[id].pollErrors));
  }

  lemma Merged(polls: map<JobId, Snapshot>, ids: set<JobId>, more: map<JobId, Snapshot>)
    requires more.Keys == ids
    ensures (polls + more).Keys == polls.Keys + ids
    ensures forall id | id in ids :: (polls + more)[id] == more[id]
    ensures forall id | id in polls && id !in ids :: (polls + more)[id] == polls[id]
  {
  }

  lemma PollStartEffect(s: State, limit: Option<nat>, ids: set<JobId>)
    requires var n := Min(Max(1, s.cfg.pollCapacity) - |s.polls|,
                          if limit.None? then Max(1, s.cfg.pollCapacity) else Max(1, limit.value));
             n > 0 && IsPollBatch(s.jobs, s.now, s.polls.Keys, n, ids)
    ensures var leased := PollsLeased(s.jobs, ids, s.cfg.pollLease, s.now);
            Step(s, StartPolls(limit, ids)) ==
            s.(jobs := leased, polls := s.polls + map id | id in ids && id in leased ::
                                                    Snapshot(leased[id].account, leased[id].pollName, leased[id].pollErrors))
  {
    hide IsPollBatch, PollsLeased;
    var e := StartPolls(limit, ids);
    assert PollSlots(s, limit) > 0 && IsPollBatch(s.jobs, s.now, s.polls.Keys, PollSlots(s, limit), ids);
    hide PollSlots;
    assert Enabled(s, e);
    hide Enabled;
    assert Step(s, e) == Effect(s, e);
    hide Step;
    StartEffect(s, limit, ids);
  }

  lemma StartEffect(s: State, limit: Option<nat>, ids: set<JobId>)
    requires Enabled(s, StartPolls(limit, ids))
    ensures var leased := PollsLeased(s.jobs, ids, s.cfg.pollLease, s.now);
            Effect(s, StartPolls(limit, ids)) ==
            s.(jobs := leased, polls := s.polls + map id | id in ids && id in leased ::
                                                    Snapshot(leased[id].account, leased[id].pollName, leased[id].pollErrors))
  {
    hide Enabled, PollsLeased;
    var leased := PollsLeased(s.jobs, ids, s.cfg.pollLease, s.now);
    assert (map id | id in ids && id in leased :: Snap(leased[id])) ==
           map id | id in ids && id in leased :: Snapshot(leased[id].account, leased[id].pollName, leased[id].pollErrors);
  }

  lemma LeasedKeys(jobs: Jobs, ids: set<JobId>, lease: int, now: int)
    ensures PollsLeased(jobs, ids, lease, now).Keys == jobs.Keys
  {
  }

  /** The end of a poll, as PollJob writes it, is a step that frees its slot. */
  lemma PollIsAStep(s: State, id: JobId, heard: Heard, base: real, maximum: real)
    requires id in s.polls && (heard.Data? ==> VideoResult.Shaped(heard.data) && heard.data.Obj?)
    ensures var snap := s.polls[id];
            var pause := PollPause(snap, heard, base, maximum);
            var t := Step(s, EndPoll(id, ResultOf(heard), pause));
            && t.jobs == PollSettled(s.jobs, id, snap, ResultOf(heard), pause, s.now)
            && t.polls == s.polls - {id}
  {
    hide PollSettled, ResultOf, PollPause;
  }

  /** A crash or a cancelled coroutine leaves the store as it is. */
  lemma LossKeepsTheStore(s: State, token: Token)
    ensures Step(s, Crash) == s.(tasks := map[], polls := map[])
    ensures token in s.tasks ==> Step(s, Cancel(token)) == s.(tasks := s.tasks - {token})
  {
  }

  /** The sweep, lease and age expiry, and both ways of registering bytes are steps as the store's methods do them. */
  lemma MaintenanceIsSteps(s: State, dropJobs: set<JobId>, dropOperations: set<nat>, only: Option<JobId>,
                           digest: Digest, digests: set<Digest>)
    ensures IsJobSweep(s.jobs, s.cfg.keep.jobDays, BatchSize(s.cfg.keep), s.now, dropJobs)
            && IsOperationSweep(s.lib, s.cfg.keep, s.now, dropOperations) ==>
              Step(s, Event.Prune(dropJobs, dropOperations)) ==
              s.(lib := Pruned(s.lib, s.jobs, s.cfg.keep, s.now, dropOperations), jobs := s.jobs - dropJobs)
    ensures Step(s, FailAbandoned).jobs == Abandoned(s.jobs, s.cfg.lease, s.now)
    ensures Step(s, FailExpired(only)).jobs == Expired(s.jobs, s.cfg.limits, only, s.now)
    ensures Step(s, Event.PersistAsset(digest)).lib == Persisted(s.lib, digest)
    ensures Step(s, Event.TouchAssets(digests)).lib == Touched(s.lib, digests)
  {
    hide IsJobSweep, IsOperationSweep, Pruned, Abandoned, Expired, Persisted, Touched;
    SweepIsAStep(s, dropJobs, dropOperations);
  }

  lemma SweepIsAStep(s: State, dropJobs: set<JobId>, dropOperations: set<nat>)
    ensures IsJobSweep(s.jobs, s.cfg.keep.jobDays, BatchSize(s.cfg.keep), s.now, dropJobs)
            && IsOperationSweep(s.lib, s.cfg.keep, s.now, dropOperations) ==>
              Step(s, Event.Prune(dropJobs, dropOperations)) ==
              s.(lib := Pruned(s.lib, s.jobs, s.cfg.keep, s.now, dropOperations), jobs := s.jobs - dropJobs)
  {
    hide IsJobSweep, IsOperationSweep, Pruned;
  }

  lemma RaiseThenLower(m: map<Books.Conn, int>, id: Books.Conn, n: nat)
    requires n > 0 && (id in m ==> m[id] > 0)
    ensures Books.Lowered(Books.Raised(m, id, n), id, n) == m
  {
  }

  /** Reserving and releasing again leaves balanced counters exactly as they were. */
  lemma ReserveThenRelease(c: Books.Counters, out: seq<Books.Reservation>, r: Books.Reservation)
    requires Books.Balanced(c, out)
    ensures Books.Released(Books.Reserved(c, r), r) == c
  {
    hide Books.TableOf, Books.Reserved, Books.Released, Books.Total, Books.Worth, Books.Raised, Books.Lowered;
    forall t: Books.Table ensures Books.TableOf(Books.Released(Books.Reserved(c, r), r), t) == Books.TableOf(c, t) {
      Books.TablesMove(c, r, t);
      Books.TablesMove(Books.Reserved(c, r), r, t);
      if Books.Worth(r, t) > 0 {
        assert Books.Get(Books.TableOf(c, t), r.conn) == Books.Total(out, t, r.conn);
        RaiseThenLower(Books.TableOf(c, t), r.conn, Books.Worth(r, t));
      }
    }
    SameTables(Books.Released(Books.Reserved(c, r), r), c);
  }

  lemma SameTables(a: Books.Counters, b: Books.Counters)
    requires forall t: Books.Table :: Books.TableOf(a, t) == Books.TableOf(b, t)
    ensures a == b
  {
    assert Books.TableOf(a, Books.Jobs) == Books.TableOf(b, Books.Jobs);
    assert Books.TableOf(a, Books.Images) == Books.TableOf(b, Books.Images);
    assert Books.TableOf(a, Books.Videos) == Books.TableOf(b, Books.Videos);
    assert Books.TableOf(a, Books.Credits) == Books.TableOf(b, Books.Credits);
  }

  // ----- the connection search ----------------------------------------------------------------

  /** A ready connection as the search sees it. */
  datatype Offer = Offer(c: Routing.Connection, balance: Option<int>, pending: nat, since: int, name: nat)

  /** What the search reads of a job; `inferred` is the route of its media, `age` its seconds in the queue. */
  datatype Job = Job(route: Routing.Route, inferred: Option<Routing.Inferred>, owners: map<Project, Account>,
                     cost: nat, kind: Books.JobKind, age: int)

  datatype Choice = Use(offer: Offer) | Later | Ended(tag: nat)

  const NO_CONNECTED_ACCOUNTS := 1
  const INSUFFICIENT_CREDITS := 2
  const QUEUE_TIMEOUT := 3

  /** Seconds after which an unlocked job stops waiting for a free slot. */
  const SLOT_PATIENCE := 300

  function View(o: Offer): Books.Candidate { Books.Candidate(o.c.id, o.balance, o.pending, o.since, o.name) }

  predicate Fits(books: Books.Counters, caps: Books.Conn -> Books.Capacity, job: Job, o: Offer) {
    Books.CanReserve(books, caps(o.c.id), o.c.id, o.balance, o.pending, job.cost, job.kind)
  }

  predicate Suitable(job: Job, o: Offer) { Routing.Suits(o.c, job.route, job.inferred, job.owners) }

  /** A suitable offer that fits; for an unlocked job any that fits, once no suitable one does. */
  predicate Usable(books: Books.Counters, caps: Books.Conn -> Books.Capacity, job: Job, ready: seq<Offer>, o: Offer) {
    && o in ready && Fits(books, caps, job, o)
    && (Suitable(job, o)
        || (!Routing.Locked(job.route) && forall p | p in ready && Fits(books, caps, job, p) :: !Suitable(job, p)))
  }

  predicate Short(books: Books.Counters, job: Job, o: Offer) {
    var credit := Books.AvailableCredits(books, o.c.id, o.balance);
    credit.Some? && credit.value < job.cost
  }

  predicate AllShort(books: Books.Counters, job: Job, ready: seq<Offer>) {
    job.cost > 0 && forall o | o in ready :: Short(books, job, o)
  }

  /** The decision the search has to come to. */
  predicate IsChoice(books: Books.Counters, caps: Books.Conn -> Books.Capacity, job: Job, ready: seq<Offer>, choice: Choice) {
    match choice
    case Use(o) =>
      && Usable(books, caps, job, ready, o)
      && forall p | p in ready && Usable(books, caps, job, ready, p) ::
           !Books.LexLess(Books.SortKey(books, View(p)), Books.SortKey(books, View(o)))
    case Later =>
      && (forall o | o in ready :: !Usable(books, caps, job, ready, o))
      && (Routing.Locked(job.route) || (ready != [] && !AllShort(books, job, ready) && job.age <= SLOT_PATIENCE))
    case Ended(tag) =>
      && (forall o | o in ready :: !Usable(books, caps, job, ready, o)) && !Routing.Locked(job.route)
      && tag == (if ready == [] then NO_CONNECTED_ACCOUNTS
                 else if AllShort(books, job, ready) then INSUFFICIENT_CREDITS else QUEUE_TIMEOUT)
      && (tag == QUEUE_TIMEOUT ==> job.age > SLOT_PATIENCE)
  }

  function PlanOf(choice: Choice, job: Job, managed: Project, prepared: Preparation, pollDelay: int): Plan {
    match choice
    case Later => Wait
    case Ended(tag) => GiveUp(tag)
    case Use(o) =>
      Go(Books.Reservation(o.c.id, job.cost, job.kind), o.balance, o.pending, prepared,
         o.c.key, Routing.ChosenProject(job.route, job.owners, o.c, managed), pollDelay)
  }

  // ----- the search in plain terms --------------------------------------------------------------

  /** The flag says so, or there is no flag and the job names an account or a project. */
  predicate RoutingLocked(route: Routing.Route) {
    route.lockedFlag == Some(true) || (route.lockedFlag.None? && (route.account.Some? || route.project.Some?))
  }

  /** The connection belongs to the account asked for and to the owner of the project asked for. */
  predicate Preferred(job: Job, o: Offer) {
    && (job.route.account.Some? ==> job.route.account.value in {o.c.key, o.c.installation})
    && (job.route.account.None? && job.inferred.Some? ==> job.inferred.value.account in {o.c.key, o.c.installation})
    && (job.route.project.Some? && job.route.project.value in job.owners ==>
          job.owners[job.route.project.value] in {o.c.key, o.c.installation})
    && (job.route.project.None? && job.inferred.Some? && job.inferred.value.project in job.owners ==>
          job.owners[job.inferred.value.project] in {o.c.key, o.c.installation})
  }

  predicate CanServe(books: Books.Counters, caps: Books.Conn -> Books.Capacity, job: Job, o: Offer) {
    Books.CanReserve(books, caps(o.c.id), o.c.id, o.balance, o.pending, job.cost, job.kind)
  }

  /** Its balance is known, and what is left of it does not cover the job. */
  predicate TooPoor(books: Books.Counters, job: Job, o: Offer) {
    o.balance.Some? && o.balance.value - (if o.c.id in books.credits then books.credits[o.c.id] else 0) < job.cost
  }

  lemma OfferExactly(books: Books.Counters, caps: Books.Conn -> Books.Capacity, job: Job, o: Offer)
    ensures Suitable(job, o) <==> Preferred(job, o)
    ensures Fits(books, caps, job, o) <==> CanServe(books, caps, job, o)
    ensures Short(books, job, o) <==> TooPoor(books, job, o)
    ensures Routing.Locked(job.route) <==> RoutingLocked(job.route)
  {
    Routing.SuitsExactly(o.c, job.route, job.inferred, job.owners);
    Routing.LockedExactly(job.route);
    hide Routing.Suits, Books.CanReserve;
  }

  lemma OffersExactly(books: Books.Counters, caps: Books.Conn -> Books.Capacity, job: Job, ready: seq<Offer>)
    ensures forall o :: Suitable(job, o) <==> Preferred(job, o)
    ensures forall o :: Fits(books, caps, job, o) <==> CanServe(books, caps, job, o)
    ensures forall o :: Short(books, job, o) <==> TooPoor(books, job, o)
    ensures Routing.Locked(job.route) <==> RoutingLocked(job.route)
    ensures forall o, p :: Books.LexLess(Books.SortKey(books, View(o)), Books.SortKey(books, View(p))) <==>
                           Books.Beats(books, Plain(o), Plain(p))
  {
    hide Suitable, Preferred, Fits, CanServe, Short, TooPoor, Routing.Locked, RoutingLocked, Books.LexLess, Books.SortKey, Books.Beats;
    forall o ensures (Suitable(job, o) <==> Preferred(job, o)) && (Fits(books, caps, job, o) <==> CanServe(books, caps, job, o))
                     && (Short(books, job, o) <==> TooPoor(books, job, o))
                     && (Routing.Locked(job.route) <==> RoutingLocked(job.route))
    {
      OfferExactly(books, caps, job, o);
    }
    OfferExactly(books, caps, job, Offer(Routing.Connection(0, 0, 0), None, 0, 0, 0));
    forall o, p ensures Books.LexLess(Books.SortKey(books, View(o)), Books.SortKey(books, View(p))) <==>
                        Books.Beats(books, Plain(o), Plain(p))
    {
      Books.KeyOrderExactly(books, View(o), View(p));
    }
  }

  function Plain(o: Offer): Books.Candidate { Books.Candidate(o.c.id, o.balance, o.pending, o.since, o.name) }

  /**
   What the search must come to, said without its own rules: the best connection
   that can serve the job, among those it prefers if there is one and, unless the
   job is locked, among all; otherwise wait or stop, for the first reason that applies.
   */
  ghost predicate RightChoice(books: Books.Counters, caps: Books.Conn -> Books.Capacity, job: Job, ready: seq<Offer>, choice: Choice) {
    match choice
    case Use(o) =>
      && o in ready && CanServe(books, caps, job, o)
      && (RoutingLocked(job.route) ==> Preferred(job, o))
      && (!Preferred(job, o) ==> forall p | p in ready && CanServe(books, caps, job, p) :: !Preferred(job, p))
      && forall p | p in ready && CanServe(books, caps, job, p) && (Preferred(job, p) <==> Preferred(job, o)) ::
           !Books.Beats(books, Plain(p), Plain(o))
    case Later =>
      if RoutingLocked(job.route) then forall o | o in ready && CanServe(books, caps, job, o) :: !Preferred(job, o)
      else && ready != [] && (forall o | o in ready :: !CanServe(books, caps, job, o))
           && (job.cost == 0 || exists o :: o in ready && !TooPoor(books, job, o))
           && job.age <= 300
    case Ended(tag) =>
      && !RoutingLocked(job.route) && (forall o | o in ready :: !CanServe(books, caps, job, o))
      && (tag == 1 <==> ready == [])
      && (tag == 2 <==> ready != [] && job.cost > 0 && forall o | o in ready :: TooPoor(books, job, o))
      && (tag == 3 <==> ready != [] && (job.cost == 0 || exists o :: o in ready && !TooPoor(books, job, o)))
      && (tag == 3 ==> job.age > 300) && tag in {1, 2, 3}
  }

  lemma ChoiceIsRight(books: Books.Counters, caps: Books.Conn -> Books.Capacity, job: Job, ready: seq<Offer>, choice: Choice)
    requires IsChoice(books, caps, job, ready, choice)
    ensures RightChoice(books, caps, job, ready, choice)
  {
    hide Suitable, Preferred, Fits, CanServe, Short, TooPoor, Routing.Locked, RoutingLocked, Books.LexLess, Books.SortKey, Books.Beats;
    OffersExactly(books, caps, job, ready);
  }

  /** A locked job is only ever sent through a connection of its account and of its project's owner. */
  lemma LockedChoiceServes(books: Books.Counters, caps: Books.Conn -> Books.Capacity, job: Job, ready: seq<Offer>, o: Offer)
    requires IsChoice(books, caps, job, ready, Use(o))
    requires job.route.lockedFlag == Some(true)
             || (job.route.lockedFlag.None? && (job.route.account.Some? || job.route.project.Some?))
    ensures job.route.account.Some? ==> job.route.account.value == o.c.key || job.route.account.value == o.c.installation
    ensures job.route.project.Some? && job.route.project.value in job.owners ==>
              job.owners[job.route.project.value] == o.c.key || job.owners[job.route.project.value] == o.c.installation
  {
    ChoiceIsRight(books, caps, job, ready, Use(o));
  }

  // ----- what a poll hears --------------------------------------------------------------------

  /** What happens between a poll's checks and its end; `recorded` says how far an exception came. */
  datatype Heard =
    | NoConnection
    | Busy
    | CallFailed
    | NoData
    | Broken(recorded: bool)
    | Data(data: VideoResult.Json, urls: VideoResult.Answers)

  function ResultOf(heard: Heard): PollResult
    requires heard.Data? ==> VideoResult.Shaped(heard.data) && heard.data.Obj?
  {
    match heard
    case NoConnection => NotAnswered(false, false)
    case Busy => NotAnswered(false, false)
    case CallFailed => NotAnswered(false, true)
    case NoData => NotAnswered(true, false)
    case Broken(recorded) => NotAnswered(recorded, true)
    case Data(data, urls) =>
      match VideoResult.Decide(data, urls)
      case Raises => NotAnswered(true, true)
      case Failure => ReportedFailure(0, false)
      case NotYet => NotAnswered(true, false)
      case Running => StillRunning
      case Completed(_) => Finished
  }

  /** The poll gets as far as looking for its account's connection. */
  predicate Asks(snap: Snapshot) { snap.account.Some? && snap.pollName.Some? && snap.errors < 10 }

  /** can_reserve for a poll: no cost and no kind. */
  predicate CanPoll(books: Books.Counters, caps: Books.Conn -> Books.Capacity, o: Offer) {
    && (if o.c.id in books.jobs then books.jobs[o.c.id] else 0) < caps(o.c.id).slots
    && o.pending < caps(o.c.id).slots
  }

  lemma PollFits(books: Books.Counters, caps: Books.Conn -> Books.Capacity, o: Offer)
    ensures CanPoll(books, caps, o) <==>
            Books.CanReserve(books, caps(o.c.id), o.c.id, o.balance, o.pending, 0, Books.Unspecified)
  {
    Books.CanReserveExactly(books, caps(o.c.id), o.c.id, o.balance, o.pending, 0, Books.Unspecified);
    hide Books.CanReserve;
  }

  /** Seconds to the next poll: the backoff after an error, the plain interval while the video is being made. */
  function PollPause(snap: Snapshot, got: Heard, base: real, maximum: real): nat
    requires got.Data? ==> VideoResult.Shaped(got.data) && got.data.Obj?
  {
    WholeSeconds(Polling.PollDelay(base, maximum, if ResultOf(got).StillRunning? then 0 else snap.errors))
  }

  /**
   What a poll does to the running row a: `retry` and `again` are the seconds to the
   next poll after an error and without one.
   */
  ghost predicate PollEnds(a: Row, b: Row, snap: Snapshot, got: Heard, retry: int, again: int, now: int) {
    if snap.account.None? || snap.pollName.None? then EndsFailed(a, b, PollFailed(1), false, false, now)
    else if snap.errors >= 10 then EndsFailed(a, b, PollMaxErrors, false, true, now)
    else match got
      case NoConnection => PolledAgain(a, b, retry, 0, a.pollErrors + 1, now)
      case Busy => PolledAgain(a, b, retry, 0, a.pollErrors + 1, now)
      case CallFailed => PolledAgain(a, b, retry, 1, a.pollErrors + 1, now)
      case NoData => PolledAgain(a, b, retry, 1, a.pollErrors + 1, now)
      case Broken(recorded) => PolledAgain(a, b, retry, if recorded then 2 else 1, a.pollErrors + 1, now)
      case Data(data, urls) =>
        var failed := VideoResult.FailedSomewhere(data) || VideoResult.OperationError(data);
        if VideoResult.BadOperations(data) then PolledAgain(a, b, retry, 2, a.pollErrors + 1, now)
        else
          && (failed ==> EndsFailed(a.(pollAttempts := a.pollAttempts + 1), b, PollFailed(2), false, false, now))
          && (!failed && (forall path :: !VideoResult.FinishedAt(data, path)) ==> PolledAgain(a, b, again, 1, 0, now))
          && (!failed && (exists path :: VideoResult.FinishedAt(data, path)
                                         && !VideoResult.HasUrl(VideoResult.At(data, path), urls)) ==>
                PolledAgain(a, b, retry, 1, a.pollErrors + 1, now))
          && (!failed && (exists path :: VideoResult.FinishedAt(data, path))
              && (forall path | VideoResult.FinishedAt(data, path) :: VideoResult.HasUrl(VideoResult.At(data, path), urls)) ==>
                EndsCompleted(a.(pollAttempts := a.pollAttempts + 1), b, a.account, a.project, now))
  }

  /** The protocol's poll step does exactly that. */
  lemma PollEndsExactly(jobs: Jobs, id: JobId, snap: Snapshot, got: Heard, retry: int, again: int, now: int)
    requires got.Data? ==> VideoResult.Shaped(got.data) && got.data.Obj?
    ensures var after := PollSettled(jobs, id, snap, ResultOf(got), if ResultOf(got).StillRunning? then again else retry, now);
            && OnlyRow(jobs, after, id)
            && (id in jobs && jobs[id].status == Running ==> PollEnds(jobs[id], after[id], snap, got, retry, again, now))
  {
    PollResultSettles(jobs, id, snap, ResultOf(got), if ResultOf(got).StillRunning? then again else retry, now);
    hide PollSettled, PolledAgain, EndsFailed, EndsCompleted, VideoResult.Decide, VideoResult.FailedSomewhere,
         VideoResult.OperationError, VideoResult.BadOperations, VideoResult.HasUrl, VideoResult.FinishedAt;
    if got.Data? {
      VideoResult.VerdictExactly(got.data, got.urls);
    }
  }

  lemma PollResultSettles(jobs: Jobs, id: JobId, snap: Snapshot, result: PollResult, delay: int, now: int)
    ensures var after := PollSettled(jobs, id, snap, result, delay, now);
            && OnlyRow(jobs, after, id)
            && (id in jobs && jobs[id].status == Running ==>
                  var a, b := jobs[id], after[id];
                  var tried := a.(pollAttempts := a.pollAttempts + 1);
                  if snap.account.None? || snap.pollName.None? then EndsFailed(a, b, PollFailed(1), false, false, now)
                  else if snap.errors >= 10 then EndsFailed(a, b, PollMaxErrors, false, true, now)
                  else match result
                    case NotAnswered(recorded, attempted) =>
                      PolledAgain(a, b, delay, (if recorded then 1 else 0) + (if attempted then 1 else 0), a.pollErrors + 1, now)
                    case StillRunning => PolledAgain(a, b, delay, 1, 0, now)
                    case ReportedFailure(tag, retryable) => EndsFailed(tried, b, PollFailed(2 + tag), retryable, false, now)
                    case Finished => EndsCompleted(tried, b, a.account, a.project, now)
                    case Lost => b == a)
  {
    var tried := PollAttempted(jobs, id);
    AttemptedRow(jobs, id);
    forall code: Code, retryable: bool, unknown: bool { FailedRow(jobs, id, code, retryable, unknown, now); }
    forall code: Code, retryable: bool, unknown: bool { FailedRow(tried, id, code, retryable, unknown, now); }
    CompletedRow(tried, id, now);
    forall attempted, error { ScheduledRow(jobs, id, delay, error, attempted, now); }
    forall attempted, error { ScheduledRow(tried, id, delay, error, attempted, now); }
    hide MarkedFailed, MarkedCompleted, PollScheduled, PollAttempted;
  }

  lemma AttemptedRow(jobs: Jobs, id: JobId)
    ensures OnlyRow(jobs, PollAttempted(jobs, id), id)
    ensures id in jobs && jobs[id].status == Running ==>
              PollAttempted(jobs, id)[id] == jobs[id].(pollAttempts := jobs[id].pollAttempts + 1)
  {
  }

  lemma FailedRow(jobs: Jobs, id: JobId, code: Code, retryable: bool, unknown: bool, now: int)
    ensures OnlyRow(jobs, MarkedFailed(jobs, id, None, code, retryable, unknown, now), id)
    ensures id in jobs && jobs[id].status == Running ==>
              EndsFailed(jobs[id], MarkedFailed(jobs, id, None, code, retryable, unknown, now)[id], code, retryable, unknown, now)
  {
  }

  lemma CompletedRow(jobs: Jobs, id: JobId, now: int)
    ensures OnlyRow(jobs, MarkedCompleted(jobs, id, None, None, None, now), id)
    ensures id in jobs && jobs[id].status == Running ==>
              EndsCompleted(jobs[id], MarkedCompleted(jobs, id, None, None, None, now)[id], jobs[id].account, jobs[id].project, now)
  {
  }

  lemma ScheduledRow(jobs: Jobs, id: JobId, delay: int, error: bool, attempted: bool, now: int)
    ensures OnlyRow(jobs, PollScheduled(jobs, id, delay, error, attempted, now), id)
    ensures id in jobs && jobs[id].status == Running ==>
              PolledAgain(jobs[id], PollScheduled(jobs, id, delay, error, attempted, now)[id], delay,
                          if attempted then 1 else 0, if error then jobs[id].pollErrors + 1 else 0, now)
  {
  }

  lemma NothingLeased(jobs: Jobs, lease: int, now: int)
    ensures PollsLeased(jobs, {}, lease, now) == jobs
  {
  }

  lemma OneRow(jobs: Jobs, after: Jobs, id: JobId)
    ensures OnlyRow(jobs, after, id) ==> (id in after <==> id in jobs)
  {
  }

  lemma PollEndsSay(jobs: Jobs, after: Jobs, id: JobId, snap: Snapshot, got: Heard, retry: int, again: int, now: int)
    requires OnlyRow(jobs, after, id) && id in jobs
    requires PollEnds(jobs[id], after[id], snap, got, retry, again, now)
    requires Asks(snap) && got.Data? && !VideoResult.BadOperations(got.data)
    ensures VideoResult.FailedSomewhere(got.data) || VideoResult.OperationError(got.data) ==>
              after[id].status == Failed && !after[id].outcomeUnknown
    ensures !VideoResult.FailedSomewhere(got.data) && !VideoResult.OperationError(got.data) ==>
              && ((exists path :: VideoResult.FinishedAt(got.data, path)
                                  && !VideoResult.HasUrl(VideoResult.At(got.data, path), got.urls)) ==>
                    PolledAgain(jobs[id], after[id], retry, 1, jobs[id].pollErrors + 1, now))
              && ((forall path :: !VideoResult.FinishedAt(got.data, path)) ==>
                    PolledAgain(jobs[id], after[id], again, 1, 0, now))
  {
    hide VideoResult.FailedSomewhere, VideoResult.OperationError, VideoResult.BadOperations, VideoResult.HasUrl, VideoResult.FinishedAt;
  }

  lemma OnlyFinishedCompletes(jobs: Jobs, id: JobId, snap: Snapshot, result: PollResult, delay: int, now: int)
    requires id in jobs && jobs[id].status != Completed
    requires var after := PollSettled(jobs, id, snap, result, delay, now);
             id in after && after[id].status == Completed
    ensures result.Finished?
  {
  }

  /**
   A job becomes completed by a poll only when no node of the answer reports a
   failure, and what is stored then holds a finished video and an https URL for
   every finished node.
   */
  lemma OnlyCompleteResultsAreStored(jobs: Jobs, id: JobId, snap: Snapshot, heard: Heard, delay: int, now: int)
    requires heard.Data? ==> VideoResult.Shaped(heard.data) && heard.data.Obj?
    requires id in jobs && jobs[id].status != Completed
    requires var after := PollSettled(jobs, id, snap, ResultOf(heard), delay, now);
             id in after && after[id].status == Completed
    ensures heard.Data? && VideoResult.Decide(heard.data, heard.urls).Completed?
    ensures !VideoResult.Reported(heard.data)
    ensures var stored := VideoResult.Decide(heard.data, heard.urls).stored;
            && VideoResult.CountFinished(stored, false) > 0
            && VideoResult.AllLinked(stored, false)
            && !VideoResult.Reported(stored)
  {
    hide VideoResult.Decide, VideoResult.Reported, VideoResult.CountFinished, VideoResult.AllLinked, VideoResult.AllAvailable,
         PollSettled;
    OnlyFinishedCompletes(jobs, id, snap, ResultOf(heard), delay, now);
    VideoResult.CompletedExactly(heard.data, heard.urls);
    VideoResult.StoredIsComplete(heard.data, heard.urls);
  }

  // ----- results in the store -------------------------------------------------------------------

  /** A result worth handing out. */
  ghost predicate Complete(data: VideoResult.Json) {
    && VideoResult.CountFinished(data, false) > 0
    && VideoResult.AllLinked(data, false)
    && !VideoResult.Reported(data)
  }

  /** Every completed video in the table has a complete result beside it. */
  ghost predicate VideosComplete(jobs: Jobs, results: map<JobId, VideoResult.Json>) {
    forall id | id in jobs && jobs[id].sub.media == Video && jobs[id].status == Completed ::
      id in results && Complete(results[id])
  }

  lemma KeepsVideos(before: Jobs, after: Jobs, results: map<JobId, VideoResult.Json>)
    requires Store.CompletesNothing(before, after)
    ensures VideosComplete(before, results) ==> VideosComplete(after, results)
  {
    hide Complete;
  }

  lemma ChosenFits(books: Books.Counters, caps: Books.Conn -> Books.Capacity, job: Job, ready: seq<Offer>, o: Offer)
    requires IsChoice(books, caps, job, ready, Use(o))
    ensures Books.CanReserve(books, caps(o.c.id), o.c.id, o.balance, o.pending, job.cost, job.kind)
  {
    hide Books.CanReserve;
  }

  lemma ChainCompletesNothing(a: Jobs, b: Jobs, c: Jobs)
    requires Store.CompletesNothing(a, b) && Store.CompletesNothing(b, c)
    ensures Store.CompletesNothing(a, c)
  {
  }

  /** One job completed with its result: a picture, or a video whose result is complete. */
  lemma OneCompleted(before: Jobs, after: Jobs, id: JobId, results: map<JobId, VideoResult.Json>, data: VideoResult.Json)
    requires VideosComplete(before, results) && OnlyRow(before, after, id)
    requires id in before && after[id].sub == before[id].sub
    requires before[id].sub.media == Video ==> Complete(data)
    ensures VideosComplete(after, results[id := data])
  {
    hide Complete;
  }

  // ----- a batch of claims -----------------------------------------------------------------------

  /** Distinct due rows, each taken under its own token, and none while a due row that stays was before it. */
  ghost predicate ClaimsMade(before: Jobs, after: Jobs, claimed: seq<JobId>, tokens: seq<Token>, times: seq<int>)
    requires |claimed| <= |tokens| && |claimed| <= |times|
  {
    && after.Keys == before.Keys
    && (forall i, j | 0 <= i < j < |claimed| :: claimed[i] != claimed[j])
    && (forall i | 0 <= i < |claimed| ::
          && claimed[i] in before && Due(before[claimed[i]], times[i])
          && after[claimed[i]] == Taken(before[claimed[i]], tokens[i], times[i]))
    && (forall o | o in before && o !in claimed :: after[o] == before[o])
    && forall i, o | 0 <= i < |claimed| && o in before && o !in claimed && Due(before[o], times[i]) ::
         Before(before[claimed[i]], before[o])
  }

  lemma NoClaims(jobs: Jobs, tokens: seq<Token>, times: seq<int>)
    ensures ClaimsMade(jobs, jobs, [], tokens, times)
  {
  }

  lemma OneMoreClaim(before: Jobs, mid: Jobs, claimed: seq<JobId>, id: JobId, tokens: seq<Token>, times: seq<int>)
    requires |claimed| < |tokens| && |claimed| < |times|
    requires ClaimsMade(before, mid, claimed, tokens, times)
    requires IsNext(mid, times[|claimed|], id)
    ensures ClaimsMade(before, Claimed(mid, id, tokens[|claimed|], times[|claimed|]), claimed + [id], tokens, times)
  {
    hide Before;
    forall i | 0 <= i < |claimed| ensures claimed[i] != id {
      assert mid[claimed[i]].status == Dispatching;
    }
    var after := Claimed(mid, id, tokens[|claimed|], times[|claimed|]);
    var all := claimed + [id];
    hide Due, IsNext;
    forall i | 0 <= i < |all| ensures all[i] in before && after[all[i]] == Taken(before[all[i]], tokens[i], times[i]) {
      if i < |claimed| {
        assert all[i] == claimed[i];
      }
    }
    NextIs(mid, times[|claimed|], id);
    forall i, o | 0 <= i < |all| && o in before && o !in all && Due(before[o], times[i])
      ensures Before(before[all[i]], before[o])
    {
      assert o !in claimed && o != id;
    }
  }

  lemma NextIs(jobs: Jobs, now: int, id: JobId)
    requires IsNext(jobs, now, id)
    ensures id in jobs && Due(jobs[id], now) && jobs[id].status == Queued
    ensures forall o | o in jobs && o != id && Due(jobs[o], now) :: Before(jobs[id], jobs[o])
  {
  }

  class JobWorker {
    const store: Store.ProjectStore
    const runtime: Books.Runtime
    const pollConcurrency: int
    const pollLease: int
    const pollSeconds: real
    const pollMaximum: real
    var pollingJobIds: set<JobId>

    constructor (store: Store.ProjectStore, runtime: Books.Runtime, pollConcurrency: int, pollLease: int,
                 pollSeconds: real, pollMaximum: real)
      ensures this.store == store && this.runtime == runtime && pollingJobIds == {}
      ensures this.pollConcurrency == pollConcurrency && this.pollLease == pollLease
      ensures this.pollSeconds == pollSeconds && this.pollMaximum == pollMaximum
    {
      this.store, this.runtime, this.pollConcurrency, this.pollLease := store, runtime, pollConcurrency, pollLease;
      this.pollSeconds, this.pollMaximum := pollSeconds, pollMaximum;
      pollingJobIds := {};
    }

    /**
     The claim loop; `times` are the clock at each claim. Distinct jobs, each under
     its own token and none behind a due job that stays; fewer than asked for only
     when nothing is due at the last look.
     */
    method ProcessQueuedJobs(maxConcurrent: nat, tokens: seq<Token>, times: seq<int>) returns (claimed: seq<JobId>)
      requires store.Valid() && |tokens| >= maxConcurrent && |times| >= maxConcurrent
      modifies store`jobs
      ensures store.Valid() && |claimed| <= maxConcurrent
      ensures Store.CompletesNothing(old(store.jobs), store.jobs)
      ensures ClaimsMade(old(store.jobs), store.jobs, claimed, tokens, times)
      ensures |claimed| < maxConcurrent ==> forall o | o in store.jobs :: !Due(store.jobs[o], times[|claimed|])
    {
      hide ClaimsMade, Due, Claimed, IsNext, Store.RowidsDistinct, Store.CompletesNothing;
      claimed := [];
      Store.NothingReplaced(store.jobs);
      NoClaims(store.jobs, tokens, times);
      while |claimed| < maxConcurrent
        invariant store.Valid() && |claimed| <= maxConcurrent
        invariant Store.CompletesNothing(old(store.jobs), store.jobs)
        invariant ClaimsMade(old(store.jobs), store.jobs, claimed, tokens, times)
        decreases maxConcurrent - |claimed|
      {
        label claim:
        var job := store.ClaimNextQueuedJob(tokens[|claimed|], times[|claimed|]);
        ChainCompletesNothing(old(store.jobs), old@claim(store.jobs), store.jobs);
        if job.None? {
          return;
        }
        OneMoreClaim(old(store.jobs), old@claim(store.jobs), claimed, job.value, tokens, times);
        claimed := claimed + [job.value];
      }
    }

    /** The list comprehensions over ready connections: those that fit and, unless any account will do, suit. */
    method Offers(job: Job, ready: seq<Offer>, anyAccount: bool) returns (offers: seq<Offer>)
      ensures forall o :: o in offers <==> o in ready && Fits(runtime.Books(), runtime.caps, job, o) && (anyAccount || Suitable(job, o))
    {
      offers := [];
      hide Fits, Suitable;
      for i := 0 to |ready|
        invariant forall o :: o in offers <==>
          o in ready[..i] && Fits(runtime.Books(), runtime.caps, job, o) && (anyAccount || Suitable(job, o))
      {
        assert ready[..i + 1] == ready[..i] + [ready[i]];
        if Fits(runtime.Books(), runtime.caps, job, ready[i]) && (anyAccount || Suitable(job, ready[i])) {
          offers := offers + [ready[i]];
        }
      }
      assert ready[..|ready|] == ready;
    }

    /** The search of _dispatch_job, up to its choice of connection or its reason to stop. */
    method Choose(job: Job, ready: seq<Offer>) returns (choice: Choice)
      ensures IsChoice(runtime.Books(), runtime.caps, job, ready, choice)
      ensures RightChoice(runtime.Books(), runtime.caps, job, ready, choice)
      // Whatever the flag, if any, does not unlock keeps its account and its project's owner.
      ensures choice.Use? && job.route.lockedFlag != Some(false) && job.route.account.Some? ==>
                job.route.account.value in {choice.offer.c.key, choice.offer.c.installation}
      ensures choice.Use? && job.route.lockedFlag != Some(false) && job.route.project.Some? && job.route.project.value in job.owners ==>
                job.owners[job.route.project.value] in {choice.offer.c.key, choice.offer.c.installation}
      // An unlocked job is sent whenever some ready connection can serve it.
      ensures job.route.lockedFlag == Some(false) || (job.route.lockedFlag.None? && job.route.account.None? && job.route.project.None?) ==>
                (choice.Use? <==> exists o ::
                   o in ready && Books.CanReserve(runtime.Books(), runtime.caps(o.c.id), o.c.id, o.balance, o.pending, job.cost, job.kind))
    {
      choice := Search(job, ready);
      ChoiceIsRight(runtime.Books(), runtime.caps, job, ready, choice);
      hide IsChoice, Books.CanReserve, Books.Beats;
    }

    /** The search itself. */
    method Search(job: Job, ready: seq<Offer>) returns (choice: Choice)
      ensures IsChoice(runtime.Books(), runtime.caps, job, ready, choice)
    {
      hide Fits, Suitable, Short, Books.LexLess, Books.SortKey;
      var locked := Routing.Locked(job.route);
      var available := Offers(job, ready, false);
      if available == [] {
        assert forall o :: o !in available;
        if locked {
          return Later;
        }
        available := Offers(job, ready, true);
      } else {
        assert available[0] in available;
      }
      assert forall o :: o in available <==> Usable(runtime.Books(), runtime.caps, job, ready, o);
      if available == [] {
        assert forall o :: o !in available;
        if ready == [] {
          return Ended(NO_CONNECTED_ACCOUNTS);
        }
        if AllShort(runtime.Books(), job, ready) {
          return Ended(INSUFFICIENT_CREDITS);
        }
        return if job.age > SLOT_PATIENCE then Ended(QUEUE_TIMEOUT) else Later;
      }
      var best := Best(available);
      choice := Use(best);
    }

    /** _dispatch_job. `prepared` is what happens to it between reservation and request; `refreshed` is the call of _refresh_paid_account. */
    method DispatchJob(id: JobId, token: Token, media: Media, job: Job, ready: seq<Offer>, managed: Project,
                       prepared: Preparation, now: int, ghost out: seq<Books.Reservation>)
      returns (choice: Choice, sent: nat, refreshed: bool)
      requires store.Valid() && Books.Balanced(runtime.Books(), out)
      requires id in store.jobs ==> store.jobs[id].sub.media == media
      modifies store`jobs, store`results
      modifies runtime`activeJobs, runtime`activeImageJobs, runtime`activeVideoJobs, runtime`reservedCredits
      ensures store.Valid()
      ensures RightChoice(old(runtime.Books()), runtime.caps, job, ready, choice)
      ensures runtime.Books() == old(runtime.Books())
      ensures sent == (if choice.Use? && prepared.Ready? then 1 else 0)
      ensures refreshed <==> sent == 1 && media == Video
      ensures VideosComplete(old(store.jobs), old(store.results)) ==> VideosComplete(store.jobs, store.results)
      // It is the protocol's steps that it takes.
      ensures store.jobs == Dispatched(old(store.jobs), id, token, media,
                                       PlanOf(choice, job, managed, prepared,
                                              WholeSeconds(Polling.PollDelay(pollSeconds, pollMaximum, 0))), true, now)
      // No other row changes, and its own only under its own claim.
      ensures OnlyRow(old(store.jobs), store.jobs, id)
      ensures !(id in old(store.jobs) && old(store.jobs)[id].status !in {Completed, Failed} && old(store.jobs)[id].token == Some(token)) ==>
                store.jobs == old(store.jobs)
      // Without a connection, or before the request.
      ensures Holds(old(store.jobs), id, token) && choice.Later? ==> GoesBack(old(store.jobs)[id], store.jobs[id], 1, now)
      ensures Holds(old(store.jobs), id, token) && choice.Ended? ==>
                EndsFailed(old(store.jobs)[id], store.jobs[id], DispatchFailed(choice.tag), false, false, now)
      ensures Holds(old(store.jobs), id, token) && choice.Use? && prepared.NotReady? ==>
                EndsFailed(old(store.jobs)[id], store.jobs[id], DispatchFailed(prepared.tag), prepared.retryable, false, now)
      ensures Holds(old(store.jobs), id, token) && choice.Use? && prepared.Broke? ==>
                EndsFailed(old(store.jobs)[id], store.jobs[id], DispatchFailed(0), false, false, now)
      // After the answer: account and project are those of the chosen connection.
      ensures Holds(old(store.jobs), id, token) && choice.Use? && prepared.Ready? && media == Video ==>
                VideoAnswered(old(store.jobs)[id], store.jobs[id], prepared.answer, choice.offer.c.key,
                              SentProject(job, choice.offer.c, managed),
                              WholeSeconds(Polling.PollDelay(pollSeconds, pollMaximum, 0)), now)
      ensures Holds(old(store.jobs), id, token) && choice.Use? && prepared.Ready? && media == Image ==>
                ImageAnswered(old(store.jobs)[id], store.jobs[id], prepared.answer, choice.offer.c.key,
                              SentProject(job, choice.offer.c, managed), now)
      ensures id in old(store.jobs) && old(store.jobs)[id].status == Dispatching && old(store.jobs)[id].token == Some(token)
              && media == Video && choice.Use? && prepared.Ready? && prepared.answer.Got?
              && prepared.answer.reply.status.Some? && prepared.answer.reply.status.value < 400
              && !prepared.answer.reply.hasError && prepared.answer.reply.pollName.Some? && !prepared.answer.reply.raisesAfter ==>
                && id in store.jobs && store.jobs[id].status == Running
                && store.jobs[id].account == Some(choice.offer.c.key)
                && store.jobs[id].project == Some(if job.route.project.Some?
                                                     && (job.route.project.value in job.owners ==>
                                                           job.owners[job.route.project.value] == choice.offer.c.key)
                                                  then job.route.project.value else managed)
                && store.jobs[id].pollName == prepared.answer.reply.pollName && store.jobs[id].runningAt == Some(now)
      ensures id in old(store.jobs) && old(store.jobs)[id].status == Dispatching && old(store.jobs)[id].token == Some(token)
              && media == Image && choice.Use? && prepared.Ready? && prepared.answer.Got?
              && prepared.answer.reply.status.Some? && prepared.answer.reply.status.value < 400
              && !prepared.answer.reply.hasError && prepared.answer.reply.mediaValid ==>
                && id in store.jobs && store.jobs[id].status == Completed && store.jobs[id].completedAt == Some(now)
                && store.jobs[id].account == Some(choice.offer.c.key)
                && store.jobs[id].project == Some(if job.route.project.Some?
                                                     && (job.route.project.value in job.owners ==>
                                                           job.owners[job.route.project.value] == choice.offer.c.key)
                                                  then job.route.project.value else managed)
                && store.results == old(store.results)[id := prepared.data]
    {
      hide Dispatched, VideosComplete, RightChoice, IsChoice, Books.Balanced, Polling.PollDelay;
      ghost var before := store.jobs;
      var pollDelay := WholeSeconds(Polling.PollDelay(pollSeconds, pollMaximum, 0));
      choice, sent, refreshed := Dispatch(id, token, media, job, ready, managed, prepared, pollDelay, now, out);
      DispatchedExactly(before, id, token, media, choice, job, managed, prepared, pollDelay, now);
    }

    /** The coroutine: search, reserve, send, record, and give the reservation back. */
    method Dispatch(id: JobId, token: Token, media: Media, job: Job, ready: seq<Offer>, managed: Project,
                    prepared: Preparation, pollDelay: int, now: int, ghost out: seq<Books.Reservation>)
      returns (choice: Choice, sent: nat, refreshed: bool)
      requires store.Valid() && Books.Balanced(runtime.Books(), out)
      requires id in store.jobs ==> store.jobs[id].sub.media == media
      modifies store`jobs, store`results
      modifies runtime`activeJobs, runtime`activeImageJobs, runtime`activeVideoJobs, runtime`reservedCredits
      ensures store.Valid()
      ensures RightChoice(old(runtime.Books()), runtime.caps, job, ready, choice)
      ensures runtime.Books() == old(runtime.Books())
      ensures store.jobs == Dispatched(old(store.jobs), id, token, media, PlanOf(choice, job, managed, prepared, pollDelay), true, now)
      ensures sent == (if choice.Use? && prepared.Ready? then 1 else 0)
      ensures refreshed <==> sent == 1 && media == Video
      ensures VideosComplete(old(store.jobs), old(store.results)) ==> VideosComplete(store.jobs, store.results)
      ensures media == Image && sent == 1 && id in store.jobs && store.jobs[id].status == Completed
              && id in old(store.jobs) && old(store.jobs)[id].status == Dispatching ==>
                store.results == old(store.results)[id := prepared.data]
    {
      hide Settled, Released, MarkedFailed, Books.CanReserve, Books.Reserved, Books.Released, Books.Balanced,
           Store.CompletesNothing, VideosComplete, IsChoice, RightChoice;
      sent, refreshed := 0, false;
      choice := Choose(job, ready);
      if !choice.Use? {
        if choice.Later? {
          var _ := store.ReleaseJobClaim(id, token, RETRY_DELAY, now);
        } else {
          var _ := store.UpdateJobFailed(id, Some(token), DispatchFailed(choice.tag), false, false, now);
        }
        KeepsVideos(old(store.jobs), store.jobs, store.results);
        return;
      }
      var o := choice.offer;
      var want := Books.Reservation(o.c.id, job.cost, job.kind);
      ReserveThenRelease(runtime.Books(), out, want);
      ChosenFits(runtime.Books(), runtime.caps, job, ready, o);
      // Nothing ran since the search, so this reservation cannot be refused.
      var admitted := runtime.ReserveConnection(want, o.balance, o.pending);
      assert admitted;
      var paidAttempted := false;
      match prepared {
        case NotReady(tag, retryable) =>
          var _ := store.UpdateJobFailed(id, Some(token), DispatchFailed(tag), retryable, false, now);
          KeepsVideos(old(store.jobs), store.jobs, store.results);
        case Broke =>
          var _ := store.UpdateJobFailed(id, Some(token), DispatchFailed(DISPATCH), false, false, now);
          KeepsVideos(old(store.jobs), store.jobs, store.results);
        case Ready(answer, data) =>
          paidAttempted := media == Video;
          sent := 1;
          var project := Routing.ChosenProject(job.route, job.owners, o.c, managed);
          if media == Video {
            RecordVideo(id, token, answer, o.c.key, project, pollDelay, now);
            KeepsVideos(old(store.jobs), store.jobs, store.results);
          } else {
            RecordImage(id, token, answer, data, o.c.key, project, now);
          }
          SettledByMedium(old(store.jobs), Task(id, media, Sent), token, answer, o.c.key, project, pollDelay, now);
      }
      refreshed := paidAttempted;
      runtime.ReleaseConnection(want);
    }

    lemma SettledByMedium(jobs: Jobs, t: Task, token: Token, a: Answer, account: Account, project: Project,
                          pollDelay: int, now: int)
      ensures Settled(jobs, t, token, a, account, project, pollDelay, now) ==
              if t.media == Video then VideoSettled(jobs, t.job, token, a, account, project, pollDelay, now)
              else ImageSettled(jobs, t.job, token, a, account, project, now)
    {
      hide VideoSettled, ImageSettled;
    }

    /** select_connection over the offers. */
    method Best(available: seq<Offer>) returns (best: Offer)
      requires available != []
      ensures best in available
      ensures forall p | p in available ::
                !Books.LexLess(Books.SortKey(runtime.Books(), View(p)), Books.SortKey(runtime.Books(), View(best)))
    {
      hide Books.LexLess;
      var views := seq(|available|, i requires 0 <= i < |available| => View(available[i]));
      var chosen := runtime.SelectConnection(views);
      var k :| 0 <= k < |views| && views[k] == chosen;
      best := available[k];
      forall p | p in available
        ensures !Books.LexLess(Books.SortKey(runtime.Books(), View(p)), Books.SortKey(runtime.Books(), View(best)))
      {
        var i :| 0 <= i < |available| && available[i] == p;
        assert views[i] in views;
      }
    }

    method RecordVideo(id: JobId, token: Token, answer: Answer, account: Account, project: Project,
                       pollDelay: int, now: int)
      requires store.Valid()
      modifies store`jobs
      ensures store.Valid()
      ensures store.jobs == VideoSettled(old(store.jobs), id, token, answer, account, project, pollDelay, now)
      ensures Store.CompletesNothing(old(store.jobs), store.jobs)
      ensures Holds(old(store.jobs), id, token) ==>
                id in store.jobs && VideoAnswered(old(store.jobs)[id], store.jobs[id], answer, account, project, pollDelay, now)
    {
      VideoAnswers(store.jobs, id, token, answer, account, project, pollDelay, now);
      hide Store.CompletesNothing, OnlyRow, RowOk, VideoAnswered;
      if answer.Raised? {
        var _ := store.UpdateJobFailed(id, Some(token), VideoOutcomeUnknown, false, true, now);
        return;
      }
      var r := answer.reply;
      if LooksRejected(r) {
        if NoCredit(r) {
          var _ := store.UpdateJobFailed(id, Some(token), CreditExhausted, false, false, now);
          return;
        }
        var unknown := OutcomeUnclear(r);
        var _ := store.UpdateJobFailed(id, Some(token), if unknown then VideoOutcomeUnknown else DispatchFailed(DISPATCH),
                                       false, unknown, now);
        return;
      }
      if r.pollName.None? {
        var _ := store.UpdateJobFailed(id, Some(token), VideoOutcomeUnknown, false, true, now);
        return;
      }
      var claimedRunning := store.UpdateJobRunning(id, Some(token), account, project, r.pollName.value, pollDelay, now);
      if claimedRunning && r.raisesAfter {
        label running:
        var _ := store.UpdateJobFailed(id, Some(token), VideoOutcomeUnknown, false, true, now);
        ChainCompletesNothing(old(store.jobs), old@running(store.jobs), store.jobs);
      }
    }

    method RecordImage(id: JobId, token: Token, answer: Answer, data: VideoResult.Json,
                       account: Account, project: Project, now: int)
      requires store.Valid() && (id in store.jobs ==> store.jobs[id].sub.media == Image)
      modifies store`jobs, store`results
      ensures store.Valid()
      ensures store.jobs == ImageSettled(old(store.jobs), id, token, answer, account, project, now)
      ensures VideosComplete(old(store.jobs), old(store.results)) ==> VideosComplete(store.jobs, store.results)
      ensures Holds(old(store.jobs), id, token) ==>
                id in store.jobs && ImageAnswered(old(store.jobs)[id], store.jobs[id], answer, account, project, now)
      ensures store.results == if id in store.jobs && store.jobs[id].status == Completed
                                  && id in old(store.jobs) && old(store.jobs)[id].status != Completed
                               then old(store.results)[id := data] else old(store.results)
    {
      ImageAnswers(store.jobs, id, token, answer, account, project, now);
      hide VideosComplete, Store.CompletesNothing, OnlyRow, ImageAnswered;
      if answer.Raised? {
        var _ := store.UpdateJobFailed(id, Some(token), DispatchFailed(DISPATCH), false, false, now);
        KeepsVideos(old(store.jobs), store.jobs, store.results);
        return;
      }
      var r := answer.reply;
      if LooksRejected(r) {
        var unknown := OutcomeUnclear(r);
        var _ := store.UpdateJobFailed(id, Some(token), if unknown then ImageOutcomeUnknown else DispatchFailed(DISPATCH),
                                       false, unknown, now);
        KeepsVideos(old(store.jobs), store.jobs, store.results);
      } else if !r.mediaValid {
        var _ := store.UpdateJobFailed(id, Some(token), ImageOutcomeUnknown, false, true, now);
        KeepsVideos(old(store.jobs), store.jobs, store.results);
      } else {
        var ok := store.UpdateJobCompleted(id, data, Some(token), Some(account), Some(project), now);
        if ok && VideosComplete(old(store.jobs), old(store.results)) {
          OneCompleted(old(store.jobs), store.jobs, id, old(store.results), data);
        }
      }
    }

    /** poll_running_jobs up to its gather: never more jobs than free slots, and none that is being polled. */
    method PollRunningJobs(limit: Option<nat>, now: int) returns (running: seq<JobId>)
      requires store.Valid() && |pollingJobIds| <= Max(1, pollConcurrency)
      modifies this`pollingJobIds, store`jobs
      ensures store.Valid() && |pollingJobIds| <= Max(1, pollConcurrency)
      ensures forall i | 0 <= i < |running| :: running[i] !in old(pollingJobIds)
      ensures forall i, j | 0 <= i < j < |running| :: running[i] != running[j]
      ensures pollingJobIds == old(pollingJobIds) + Elements(running)
      ensures limit.Some? ==> |running| <= Max(1, limit.value)
      ensures store.jobs == PollsLeased(old(store.jobs), Elements(running), pollLease, now)
      ensures forall i | 0 <= i < |running| :: running[i] in old(store.jobs) && running[i] in store.jobs &&
                var a := old(store.jobs)[running[i]];
                && a.status == Running && a.sub.media == Video && (a.nextPollAt.Some? ==> a.nextPollAt.value <= now)
                && store.jobs[running[i]] == a.(nextPollAt := Some(now + Max(1, pollLease)))
      ensures store.jobs.Keys == old(store.jobs).Keys
      ensures forall o | o in store.jobs && o !in running :: store.jobs[o] == old(store.jobs)[o]
      // A due job is left out only because the free slots, or the number asked for, are used up.
      ensures forall o | o in old(store.jobs) && o !in running && o !in old(pollingJobIds)
                         && old(store.jobs)[o].status == Running && old(store.jobs)[o].sub.media == Video
                         && (old(store.jobs)[o].nextPollAt.Some? ==> old(store.jobs)[o].nextPollAt.value <= now) ::
                |running| == Min(Max(1, pollConcurrency) - |old(pollingJobIds)|,
                                 if limit.None? then Max(1, pollConcurrency) else Max(1, limit.value))
    {
      hide Store.CompletesNothing, Store.RowidsDistinct, PollsLeased;
      var capacity := Max(1, pollConcurrency);
      var free := capacity - |pollingJobIds|;
      running := [];
      if free <= 0 {
        NothingLeased(store.jobs, pollLease, now);
        return;
      }
      var batch := Min(free, if limit.None? then capacity else Max(1, limit.value));
      running := StartBatch(batch, now);
    }

    /** Lease up to `batch` due jobs that are not being polled, and note them. */
    method StartBatch(batch: nat, now: int) returns (running: seq<JobId>)
      requires store.Valid() && batch > 0
      modifies this`pollingJobIds, store`jobs
      ensures store.Valid() && |running| <= batch && |Elements(running)| == |running|
      ensures pollingJobIds == old(pollingJobIds) + Elements(running) && |pollingJobIds| <= |old(pollingJobIds)| + |running|
      ensures forall i | 0 <= i < |running| :: running[i] !in old(pollingJobIds)
      ensures forall i, j | 0 <= i < j < |running| :: running[i] != running[j]
      ensures store.jobs == PollsLeased(old(store.jobs), Elements(running), pollLease, now)
      ensures forall i | 0 <= i < |running| :: running[i] in old(store.jobs) && running[i] in store.jobs &&
                var a := old(store.jobs)[running[i]];
                && a.status == Running && a.sub.media == Video && (a.nextPollAt.Some? ==> a.nextPollAt.value <= now)
                && store.jobs[running[i]] == a.(nextPollAt := Some(now + Max(1, pollLease)))
      ensures store.jobs.Keys == old(store.jobs).Keys
      ensures forall o | o in store.jobs && o !in running :: store.jobs[o] == old(store.jobs)[o]
      ensures forall o | o in old(store.jobs) && o !in running && o !in old(pollingJobIds)
                         && old(store.jobs)[o].status == Running && old(store.jobs)[o].sub.media == Video
                         && (old(store.jobs)[o].nextPollAt.Some? ==> old(store.jobs)[o].nextPollAt.value <= now) ::
                |running| == batch
    {
      hide Store.CompletesNothing, Store.RowidsDistinct, PollsLeased, IsPollBatch, PollKey;
      running := store.ClaimDueRunningJobs(batch, pollLease, pollingJobIds, now);
      DistinctSize(running);
      pollingJobIds := pollingJobIds + Elements(running);
    }

    /** The first ready connection of the account, by its key or its installation. */
    method AccountConnection(account: Account, ready: seq<Offer>) returns (found: Option<Offer>)
      ensures found.None? <==> forall i | 0 <= i < |ready| :: account !in {ready[i].c.key, ready[i].c.installation}
      ensures forall i | 0 <= i < |ready| && account in {ready[i].c.key, ready[i].c.installation}
                         && (forall j | 0 <= j < i :: account !in {ready[j].c.key, ready[j].c.installation}) ::
                found == Some(ready[i])
    {
      for i := 0 to |ready|
        invariant forall j | 0 <= j < i :: account !in {ready[j].c.key, ready[j].c.installation}
      {
        if ready[i].c.key == account || ready[i].c.installation == account {
          return Some(ready[i]);
        }
      }
      found := None;
    }

    /**
     _poll_job and the discard after it. `heard` is what the call would bring; `got`
     is that, or why there was no call. A completed video gets the tree with its
     URLs as result; the slot taken for the call is given back.
     */
    method PollJob(id: JobId, snap: Snapshot, ready: seq<Offer>, heard: Heard, now: int, ghost out: seq<Books.Reservation>)
      returns (got: Heard)
      requires store.Valid() && Books.Balanced(runtime.Books(), out)
      requires heard.Data? ==> VideoResult.Shaped(heard.data) && heard.data.Obj?
      requires !heard.NoConnection? && !heard.Busy?
      modifies this`pollingJobIds, store`jobs, store`results
      modifies runtime`activeJobs, runtime`activeImageJobs, runtime`activeVideoJobs, runtime`reservedCredits
      ensures store.Valid() && pollingJobIds == old(pollingJobIds) - {id} && runtime.Books() == old(runtime.Books())
      ensures VideosComplete(old(store.jobs), old(store.results)) ==> VideosComplete(store.jobs, store.results)
      // Whether there is a call at all.
      ensures got in {NoConnection, Busy, heard}
      ensures Asks(snap) && (forall i | 0 <= i < |ready| :: snap.account.value !in {ready[i].c.key, ready[i].c.installation}) ==>
                got == NoConnection
      ensures forall i | Asks(snap) && 0 <= i < |ready| && snap.account.value in {ready[i].c.key, ready[i].c.installation}
                         && (forall j | 0 <= j < i :: snap.account.value !in {ready[j].c.key, ready[j].c.installation}) ::
                got == if CanPoll(old(runtime.Books()), runtime.caps, ready[i]) then heard else Busy
      // It is the protocol's step that it takes.
      ensures store.jobs == PollSettled(old(store.jobs), id, snap, ResultOf(got), PollPause(snap, got, pollSeconds, pollMaximum), now)
      // No other row changes, and its own by the table.
      ensures OnlyRow(old(store.jobs), store.jobs, id)
      ensures id in old(store.jobs) && old(store.jobs)[id].status == Running ==>
                PollEnds(old(store.jobs)[id], store.jobs[id], snap, got,
                         WholeSeconds(Polling.PollDelay(pollSeconds, pollMaximum, snap.errors)),
                         WholeSeconds(Polling.PollDelay(pollSeconds, pollMaximum, 0)), now)
      // In particular: a failed node or an operation error fails the job, and says that the outcome is known.
      ensures id in old(store.jobs) && old(store.jobs)[id].status == Running
              && snap.account.Some? && snap.pollName.Some? && snap.errors < 10
              && got.Data? && !VideoResult.BadOperations(got.data)
              && (VideoResult.FailedSomewhere(got.data) || VideoResult.OperationError(got.data)) ==>
                id in store.jobs && store.jobs[id].status == Failed && !store.jobs[id].outcomeUnknown
      // Something finished without a URL costs one error; nothing finished clears them.
      ensures id in old(store.jobs) && old(store.jobs)[id].status == Running
              && snap.account.Some? && snap.pollName.Some? && snap.errors < 10
              && got.Data? && !VideoResult.BadOperations(got.data)
              && !VideoResult.FailedSomewhere(got.data) && !VideoResult.OperationError(got.data) ==>
                && id in store.jobs
                && ((exists path :: VideoResult.FinishedAt(got.data, path)
                                    && !VideoResult.HasUrl(VideoResult.At(got.data, path), got.urls)) ==>
                      store.jobs[id].status == Running && store.jobs[id].pollErrors == old(store.jobs)[id].pollErrors + 1)
                && ((forall path :: !VideoResult.FinishedAt(got.data, path)) ==>
                      store.jobs[id].status == Running && store.jobs[id].pollErrors == 0)
      ensures store.results == if id in store.jobs && store.jobs[id].status == Completed
                                  && id in old(store.jobs) && old(store.jobs)[id].status != Completed && got.Data?
                               then old(store.results)[id := VideoResult.Attached(got.data, false, got.urls)]
                               else old(store.results)
    {
      hide PollSettled, PollEnds, VideoResult.Decide, VideosComplete, Store.CompletesNothing, OnlyRow, RowOk,
           Polling.PollDelay, VideoResult.FailedSomewhere, VideoResult.OperationError, VideoResult.BadOperations, VideoResult.HasUrl,
           VideoResult.FinishedAt, Books.Balanced, CanPoll, Books.CanReserve, Books.Reserved, Books.Released, Books.Beats;
      ghost var before := store.jobs;
      var retry := WholeSeconds(Polling.PollDelay(pollSeconds, pollMaximum, snap.errors));
      var again := WholeSeconds(Polling.PollDelay(pollSeconds, pollMaximum, 0));
      pollingJobIds := pollingJobIds - {id};
      got := heard;
      var found := None;
      if Asks(snap) {
        found := AccountConnection(snap.account.value, ready);
        if found.None? {
          got := NoConnection;
        } else if !CanPoll(runtime.Books(), runtime.caps, found.value) {
          got := Busy;
          found := None;
        }
      }
      if found.Some? {
        var slot := Books.Reservation(found.value.c.id, 0, Books.Unspecified);
        PollFits(runtime.Books(), runtime.caps, found.value);
        ReserveThenRelease(runtime.Books(), out, slot);
        var _ := runtime.ReserveConnection(slot, found.value.balance, found.value.pending);
        Poll(id, snap, got, retry, again, now);
        runtime.ReleaseConnection(slot);
      } else {
        Poll(id, snap, got, retry, again, now);
      }
      PollEndsExactly(before, id, snap, got, retry, again, now);
      if id in before && before[id].status == Running && Asks(snap) && got.Data? && !VideoResult.BadOperations(got.data) {
        PollEndsSay(before, store.jobs, id, snap, got, retry, again, now);
      }
      OneRow(before, store.jobs, id);
    }

    /** The checks of _poll_job before the call, and the branches behind it. */
    method Poll(id: JobId, snap: Snapshot, heard: Heard, retry: int, again: int, now: int)
      requires store.Valid() && (heard.Data? ==> VideoResult.Shaped(heard.data) && heard.data.Obj?)
      modifies store`jobs, store`results
      ensures store.Valid()
      ensures store.jobs == PollSettled(old(store.jobs), id, snap, ResultOf(heard),
                                        if ResultOf(heard).StillRunning? then again else retry, now)
      ensures VideosComplete(old(store.jobs), old(store.results)) ==> VideosComplete(store.jobs, store.results)
      ensures store.results == if id in store.jobs && store.jobs[id].status == Completed
                                  && id in old(store.jobs) && old(store.jobs)[id].status != Completed && heard.Data?
                               then old(store.results)[id := VideoResult.Attached(heard.data, false, heard.urls)]
                               else old(store.results)
    {
      hide MarkedFailed, PollScheduled, PollAttempted, MarkedCompleted, VideoResult.Decide, VideosComplete,
           Store.CompletesNothing, OnlyRow, RowOk;
      if snap.account.None? || snap.pollName.None? {
        var _ := store.UpdateJobFailed(id, None, PollFailed(MISSING_ROUTE), false, false, now);
        KeepsVideos(old(store.jobs), store.jobs, store.results);
        return;
      }
      if snap.errors >= 10 {
        var _ := store.UpdateJobFailed(id, None, PollMaxErrors, false, true, now);
        KeepsVideos(old(store.jobs), store.jobs, store.results);
        return;
      }
      if heard.NoConnection? || heard.Busy? {
        var _ := store.ScheduleJobPoll(id, retry, true, false, now);
        KeepsVideos(old(store.jobs), store.jobs, store.results);
        return;
      }
      if heard.CallFailed? || (heard.Broken? && !heard.recorded) {
        var _ := store.ScheduleJobPoll(id, retry, true, true, now);
        KeepsVideos(old(store.jobs), store.jobs, store.results);
        return;
      }
      var _ := store.RecordJobPollAttempt(id);
      KeepsVideos(old(store.jobs), store.jobs, store.results);
      Interpret(id, heard, retry, again, now);
    }

    /** What _poll_job does with an answer, once the attempt is recorded. */
    method Interpret(id: JobId, heard: Heard, retry: int, again: int, now: int)
      requires store.Valid() && (heard.Data? ==> VideoResult.Shaped(heard.data) && heard.data.Obj?)
      requires heard.NoData? || heard.Broken? || heard.Data?
      modifies store`jobs, store`results
      ensures store.Valid()
      ensures heard.Broken? ==> store.jobs == PollScheduled(old(store.jobs), id, retry, true, true, now)
      ensures heard.NoData? ==> store.jobs == PollScheduled(old(store.jobs), id, retry, true, false, now)
      ensures heard.Data? ==> store.jobs == match VideoResult.Decide(heard.data, heard.urls)
                case Raises => PollScheduled(old(store.jobs), id, retry, true, true, now)
                case Failure => MarkedFailed(old(store.jobs), id, None, PollFailed(REPORTED), false, false, now)
                case NotYet => PollScheduled(old(store.jobs), id, retry, true, false, now)
                case Completed(_) => MarkedCompleted(old(store.jobs), id, None, None, None, now)
                case Running => PollScheduled(old(store.jobs), id, again, false, false, now)
      ensures VideosComplete(old(store.jobs), old(store.results)) ==> VideosComplete(store.jobs, store.results)
      ensures store.results == if id in store.jobs && store.jobs[id].status == Completed
                                  && id in old(store.jobs) && old(store.jobs)[id].status != Completed && heard.Data?
                               then old(store.results)[id := VideoResult.Attached(heard.data, false, heard.urls)]
                               else old(store.results)
    {
      hide MarkedFailed, PollScheduled, MarkedCompleted, VideoResult.Decide, VideosComplete,
           Store.CompletesNothing, OnlyRow, RowOk, VideoResult.Attached;
      if heard.Broken? {
        var _ := store.ScheduleJobPoll(id, retry, true, true, now);
      } else if heard.NoData? {
        var _ := store.ScheduleJobPoll(id, retry, true, false, now);
      } else {
        match VideoResult.Decide(heard.data, heard.urls) {
          case Raises => var _ := store.ScheduleJobPoll(id, retry, true, true, now);
          case Failure => var _ := store.UpdateJobFailed(id, None, PollFailed(REPORTED), false, false, now);
          case NotYet => var _ := store.ScheduleJobPoll(id, retry, true, false, now);
          case Running => var _ := store.ScheduleJobPoll(id, again, false, false, now);
          case Completed(_) =>
            StoreFinished(id, heard.data, heard.urls, now);
            return;
        }
      }
      KeepsVideos(old(store.jobs), store.jobs, store.results);
    }

    /** A finished answer: the row is completed and the tree with its URLs becomes its result. */
    method StoreFinished(id: JobId, data: VideoResult.Json, urls: VideoResult.Answers, now: int)
      requires store.Valid() && VideoResult.Shaped(data) && data.Obj? && VideoResult.Decide(data, urls).Completed?
      modifies store`jobs, store`results
      ensures store.Valid()
      ensures store.jobs == MarkedCompleted(old(store.jobs), id, None, None, None, now)
      ensures VideosComplete(old(store.jobs), old(store.results)) ==> VideosComplete(store.jobs, store.results)
      ensures store.results == if id in store.jobs && store.jobs[id].status == Completed
                                  && id in old(store.jobs) && old(store.jobs)[id].status != Completed
                               then old(store.results)[id := VideoResult.Attached(data, false, urls)]
                               else old(store.results)
    {
      hide MarkedCompleted, VideoResult.Decide, VideosComplete, Store.CompletesNothing, RowOk, VideoResult.Attached,
           VideoResult.Reported, VideoResult.AllLinked, VideoResult.CountFinished;
      var stored := VideoResult.Attached(data, false, urls);
      VideoResult.StoredIsAttached(data, urls);
      VideoResult.StoredIsComplete(data, urls);
      var ok := store.UpdateJobCompleted(id, stored, None, None, None, now);
      if ok && VideosComplete(old(store.jobs), old(store.results)) {
        OneCompleted(old(store.jobs), store.jobs, id, old(store.results), stored);
      }
    }
  }
}
