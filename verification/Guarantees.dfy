/**
 The promises of the dispatch protocol, stated over every reachable state and
 every continuation.
 */
module Guarantees {
  import opened Base
  import opened JobTable
  import opened AssetLibrary
  import opened Protocol
  import opened ProtocolSafety

  // ----- at most one submission ------------------------------------------------------

  /**
   However workers, crashes, leases, replays and pruning interleave, a job's
   generation request is sent at most once, and so is the request behind an
   idempotency key. A queued job has never been sent.
   */
  lemma SentAtMostOnce(s: State)
    requires Reachable(s)
    ensures forall id :: s.h.sent[id] <= 1
    ensures forall k :: s.h.sentKeys[k] <= 1
    ensures forall id | id in s.jobs && s.jobs[id].status == Queued :: s.h.sent[id] == 0
  {
    hide Reachable;
    ReachableOk(s);
    forall k ensures s.h.sentKeys[k] <= 1 {
      if k in s.h.sentKeys {
        assert KeyTaken(s.jobs, Some(k));
        var id :| id in s.jobs && s.jobs[id].sub.key == Some(k);
        assert s.h.sentKeys[k] == s.h.sent[id];
      }
    }
  }

  /** A coroutine about to send still has its row, so the send is booked on that row's key. */
  lemma SendIsBooked(s: State, token: Token)
    requires Reachable(s) && AtPc(s, token, Protocol.Reserved)
    ensures var job := s.tasks[token].job;
            && job in s.jobs
            && s.h.sent[job] == 0
            && Step(s, Send(token)).h.sent[job] == 1
            && (s.jobs[job].sub.key.Some? ==>
                  Step(s, Send(token)).h.sentKeys[s.jobs[job].sub.key.value] == s.h.sentKeys[s.jobs[job].sub.key.value] + 1)
  {
    hide Inv, Reachable;
    ReachableOk(s);
    TaskIs(s, token);
  }

  // ----- the row invariant -------------------------------------------------------------

  /** claimed_at, tokens, routes and outcome flags agree with the status; names are never shared. */
  lemma RowsAreWellFormed(s: State)
    requires Reachable(s)
    ensures forall id | id in s.jobs :: RowOk(s.jobs[id])
    ensures RowsDistinct(s.jobs)
  {
    hide Reachable;
    ReachableOk(s);
  }

  /** A wrong or stale token changes nothing, whichever update presents it. */
  lemma WrongTokenChangesNothing(jobs: Jobs, id: JobId, token: Token, now: int,
                                 delay: int, account: Account, project: Project, name: PollName,
                                 code: Code, retryable: bool, unknown: bool)
    requires id in jobs ==> jobs[id].token != Some(token)
    ensures Released(jobs, id, token, delay, now) == jobs
    ensures MarkedRunning(jobs, id, Some(token), account, project, name, delay, now) == jobs
    ensures MarkedCompleted(jobs, id, Some(token), Some(account), Some(project), now) == jobs
    ensures MarkedFailed(jobs, id, Some(token), code, retryable, unknown, now) == jobs
  {
  }

  /** A worker that lost its lease cannot change the store: not by any answer, rejection or release. */
  lemma LostLeaseIsFinal(s: State, token: Token, e: Event)
    requires Reachable(s) && token in s.tasks && !Owns(s.jobs, s.tasks[token].job, token)
    requires (e.Respond? || e.Reject? || e.Release?) && e.token == token
    ensures Step(s, e).jobs == s.jobs
    ensures s.tasks[token].job in s.jobs && Lapsed(s.jobs[s.tasks[token].job])
  {
    hide Inv, Reachable;
    ReachableOk(s);
    TaskIs(s, token);
  }

  // ----- what a failed row says -----------------------------------------------------------

  /**
   A failed video that claims a known outcome was never paid for, or the
   upstream answered a definite no, or a later poll reported a failure.
   */
  lemma KnownFailuresAreTrue(s: State, id: JobId)
    requires Reachable(s) && id in s.jobs && s.jobs[id].sub.media == Video
    requires s.jobs[id].status == Failed && !s.jobs[id].outcomeUnknown
    ensures || s.h.sent[id] == 0
            || (id in s.h.answers && DefiniteNo(s.h.answers[id]))
            || id in s.h.pollVerdicts
  {
    hide Inv, Reachable;
    ReachableOk(s);
    RowIs(s, id);
  }

  /**
   Crash, exception, unclear status, missing poll id, lease or poll timeout
   after a payment: if such a paid video has failed, its row says so.
   */
  lemma UnclearFailuresAreFlagged(s: State, id: JobId)
    requires Reachable(s) && id in s.jobs && s.jobs[id].sub.media == Video && s.jobs[id].status == Failed
    requires s.h.sent[id] > 0 && id !in s.h.pollVerdicts
    requires id in s.h.answers ==> !DefiniteNo(s.h.answers[id])
    ensures s.jobs[id].outcomeUnknown
  {
    hide Inv, Reachable;
    ReachableOk(s);
    RowIs(s, id);
  }

  /**
   For an image the flag can be wrong, and in exactly one way: a sent image
   with no definite no whose failure claims a known outcome ended in an exception.
   */
  lemma ImageGapIsAnException(s: State, id: JobId)
    requires Reachable(s) && id in s.jobs && s.jobs[id].sub.media == Image
    requires s.jobs[id].status == Failed && !s.jobs[id].outcomeUnknown
    requires s.h.sent[id] > 0
    ensures id in s.h.answers && (DefiniteNo(s.h.answers[id]) || s.h.answers[id].Raised?)
  {
    hide Inv, Reachable;
    ReachableOk(s);
    RowIs(s, id);
  }

  /** While the image coroutine owns its row, its failure claims a known outcome iff the answer was a definite no or it raised. */
  lemma ImageFlagExactly(s: State, token: Token, a: Answer, account: Account, project: Project)
    requires Reachable(s) && AtPc(s, token, Sent) && s.tasks[token].media == Image
    requires Owns(s.jobs, s.tasks[token].job, token)
    ensures var job := s.tasks[token].job;
            var after := Step(s, Respond(token, a, account, project, 0)).jobs;
            && job in after
            && (after[job].status == Failed && !after[job].outcomeUnknown <==> DefiniteNo(a) || a.Raised?)
  {
    hide Inv, Reachable;
    ReachableOk(s);
    TaskIs(s, token);
  }

  /** The first four steps of the run below: job 1 is claimed under token 7 and its image request is sent. */
  lemma ImageIsSent(cfg: Config, sub: Submission, t: State)
    requires sub == Submission(Image, None, {}, {}, None, None)
    requires t == Step(Step(Init(cfg, 0), Enqueue(1, sub)), Claim(1, 7))
    ensures t.jobs.Keys == {1} && t.jobs[1].status == Dispatching && t.jobs[1].token == Some(7) && t.jobs[1].sub == sub
    ensures t.tasks == map[7 := Task(1, Image, Holding)]
    ensures t.now == 0 && t.h.sent == multiset{}
  {
    hide NextRowid;
    var s := Step(Init(cfg, 0), Enqueue(1, sub));
    assert s.jobs == map[1 := NewRow(NextRowid(map[]), sub, 0)];
    assert IsNext(s.jobs, s.now, 1);
  }

  /** The gap is real: this run sends one image, the call raises, and the row claims a known outcome. */
  lemma ImageGapHappens(cfg: Config)
    ensures var sub := Submission(Image, None, {}, {}, None, None);
            var es := [Enqueue(1, sub), Claim(1, 7)] + [Reserve(7), Send(7)] + [Respond(7, Raised, 0, 0, 0)];
            var s := Run(Init(cfg, 0), es);
            && s.h.sent[1] == 1
            && 1 in s.jobs && s.jobs[1].status == Failed && !s.jobs[1].outcomeUnknown
  {
    var sub := Submission(Image, None, {}, {}, None, None);
    var s0 := Init(cfg, 0);
    var s2 := Step(Step(s0, Enqueue(1, sub)), Claim(1, 7));
    var s4 := Step(Step(s2, Reserve(7)), Send(7));
    ImageIsSent(cfg, sub, s2);
    TwoSteps(s0, Enqueue(1, sub), Claim(1, 7));
    TwoSteps(s2, Reserve(7), Send(7));
    RunConcat(s0, [Enqueue(1, sub), Claim(1, 7)], [Reserve(7), Send(7)]);
    RunConcat(s0, [Enqueue(1, sub), Claim(1, 7)] + [Reserve(7), Send(7)], [Respond(7, Raised, 0, 0, 0)]);
    SentImageRaises(s2);
    hide Init;
    OneStep(s4, Respond(7, Raised, 0, 0, 0));
  }

  lemma SentImageRaises(s: State)
    requires s.jobs.Keys == {1} && s.jobs[1].status == Dispatching && s.jobs[1].token == Some(7)
    requires s.tasks == map[7 := Task(1, Image, Holding)] && s.h.sent == multiset{}
    ensures var t := Step(Step(Step(s, Reserve(7)), Send(7)), Respond(7, Raised, 0, 0, 0));
            && t.h.sent[1] == 1
            && 1 in t.jobs && t.jobs[1].status == Failed && !t.jobs[1].outcomeUnknown
  {
    hide Step, VideoSettled;
    ReserveStep(s, 7);
    var a := Step(s, Reserve(7));
    SendStep(a, 7);
    RespondStep(Step(a, Send(7)), 7, Raised, 0, 0, 0);
  }

  // ----- how rows move -----------------------------------------------------------------------

  /** The status graph: one step leaves a row alone or follows an edge of it. */
  predicate Moves(a: Row, b: Row) {
    && a.sub == b.sub && a.rowid == b.rowid && a.createdAt == b.createdAt
    && (Terminal(a) ==> a == b)
    && (a.status == Queued && b != a ==> b.status == Dispatching || b.status == Failed)
    && (a.status == Dispatching ==> b == a || b.status != Dispatching)
    && (a.status == Running ==> b.status == Running || Terminal(b))
  }

  /** Only the sweep forgets a row, and never a keyed or an uncertain one. */
  predicate Forgettable(r: Row) { Terminal(r) && r.sub.key.None? && !r.outcomeUnknown }

  lemma SettledMoves(jobs: Jobs, t: Task, token: Token, a: Answer, account: Account, project: Project,
                     pollDelay: int, now: int, id: JobId)
    requires id in jobs
    ensures var after := Settled(jobs, t, token, a, account, project, pollDelay, now);
            id in after && Moves(jobs[id], after[id])
  {
  }

  lemma DispatchStepMoves(s: State, e: Event, id: JobId)
    requires Inv(s) && Enabled(s, e) && id in s.jobs
    requires e.Enqueue? || e.Claim? || e.Release? || e.Reject? || e.Reserve? || e.Send? || e.Respond?
    ensures id in Effect(s, e).jobs && Moves(s.jobs[id], Effect(s, e).jobs[id])
  {
    hide Inv, Settled, IsNext, NextRowid;
    RowIs(s, id);
    match e
    case Respond(token, a, account, project, pollDelay) =>
      SettledMoves(s.jobs, s.tasks[token], token, a, account, project, pollDelay, s.now, id);
    case Release(token, _) => TaskIs(s, token);
    case Reject(token, _, _) => TaskIs(s, token);
    case _ =>
  }

  lemma ExpiryMoves(jobs: Jobs, lease: int, limits: Limits, only: Option<JobId>, now: int, id: JobId)
    requires id in jobs
    ensures Moves(jobs[id], Abandoned(jobs, lease, now)[id])
    ensures Moves(jobs[id], Expired(jobs, limits, only, now)[id])
  {
  }

  lemma LeaseMoves(jobs: Jobs, ids: set<JobId>, lease: int, now: int, id: JobId)
    requires id in jobs
    ensures Moves(jobs[id], PollsLeased(jobs, ids, lease, now)[id])
  {
  }

  /** A poll writes running rows only: its own row is past dispatch. */
  lemma PollMoves(jobs: Jobs, polled: JobId, snap: Snapshot, result: PollResult, delay: int, now: int, id: JobId)
    requires id in jobs && (polled in jobs ==> PastDispatch(jobs[polled]))
    ensures var after := PollSettled(jobs, polled, snap, result, delay, now);
            id in after && Moves(jobs[id], after[id])
  {
  }

  lemma SweepForgets(jobs: Jobs, keep: Retention, now: int, drop: set<JobId>, id: JobId)
    requires IsJobSweep(jobs, keep.jobDays, BatchSize(keep), now, drop) && id in jobs && id in drop
    ensures Forgettable(jobs[id])
  {
  }

  lemma OtherStepMoves(s: State, e: Event, id: JobId)
    requires Inv(s) && Enabled(s, e) && id in s.jobs
    requires !(e.Enqueue? || e.Claim? || e.Release? || e.Reject? || e.Reserve? || e.Send? || e.Respond?)
    ensures id in Effect(s, e).jobs ==> Moves(s.jobs[id], Effect(s, e).jobs[id])
    ensures id !in Effect(s, e).jobs ==> Forgettable(s.jobs[id])
  {
    hide Inv, Pruned, Persisted, Touched, Abandoned, Expired, PollsLeased, PollSettled,
         Moves, Forgettable, IsPollBatch, IsJobSweep, IsOperationSweep;
    ExpiryMoves(s.jobs, s.cfg.lease, s.cfg.limits, None, s.now, id);
    Unmoved(s.jobs[id]);
    match e
    case FailAbandoned => KeysKept(s, e);
    case FailExpired(only) =>
      ExpiryMoves(s.jobs, s.cfg.lease, s.cfg.limits, only, s.now, id);
      KeysKept(s, e);
    case StartPolls(_, ids) =>
      LeaseMoves(s.jobs, ids, s.cfg.pollLease, s.now, id);
      KeysKept(s, e);
    case EndPoll(polled, result, delay) =>
      PollIs(s, polled);
      PollMoves(s.jobs, polled, s.polls[polled], result, delay, s.now, id);
    case Prune(dropJobs, _) =>
      if id in dropJobs { SweepForgets(s.jobs, s.cfg.keep, s.now, dropJobs, id); }
    case _ =>
  }

  lemma Unmoved(r: Row)
    ensures Moves(r, r)
  {
  }

  lemma KeysKept(s: State, e: Event)
    requires Enabled(s, e) && (e.FailAbandoned? || e.FailExpired? || e.StartPolls?)
    ensures Effect(s, e).jobs.Keys == s.jobs.Keys
  {
    hide IsPollBatch;
  }

  lemma StepMoves(s: State, e: Event, id: JobId)
    requires Inv(s) && id in s.jobs
    ensures id in Step(s, e).jobs ==> Moves(s.jobs[id], Step(s, e).jobs[id])
    ensures id !in Step(s, e).jobs ==> Forgettable(s.jobs[id])
  {
    hide Inv, Effect, Enabled;
    if Enabled(s, e) {
      if e.Enqueue? || e.Claim? || e.Release? || e.Reject? || e.Reserve? || e.Send? || e.Respond? {
        DispatchStepMoves(s, e, id);
      } else {
        OtherStepMoves(s, e, id);
      }
    }
  }

  lemma DispatchAddsNoRow(s: State, e: Event)
    requires Enabled(s, e)
    requires e.Claim? || e.Release? || e.Reject? || e.Reserve? || e.Send? || e.Respond?
    ensures Effect(s, e).jobs.Keys <= s.jobs.Keys
  {
    hide IsNext;
  }

  lemma BulkUpdatesKeepKeys(jobs: Jobs, lease: int, limits: Limits, only: Option<JobId>, ids: set<JobId>, now: int)
    ensures Abandoned(jobs, lease, now).Keys == jobs.Keys
    ensures Expired(jobs, limits, only, now).Keys == jobs.Keys
    ensures PollsLeased(jobs, ids, lease, now).Keys == jobs.Keys
  {
  }

  lemma OtherAddsNoRow(s: State, e: Event)
    requires Enabled(s, e)
    requires !(e.Enqueue? || e.Claim? || e.Release? || e.Reject? || e.Reserve? || e.Send? || e.Respond?)
    ensures Effect(s, e).jobs.Keys <= s.jobs.Keys
  {
    hide Pruned, Persisted, Touched, Abandoned, Expired, PollsLeased, PollSettled,
         IsPollBatch, IsJobSweep, IsOperationSweep;
    match e
    case FailAbandoned => BulkUpdatesKeepKeys(s.jobs, s.cfg.lease, s.cfg.limits, None, {}, s.now);
    case FailExpired(only) => BulkUpdatesKeepKeys(s.jobs, s.cfg.lease, s.cfg.limits, only, {}, s.now);
    case StartPolls(_, ids) => BulkUpdatesKeepKeys(s.jobs, s.cfg.pollLease, s.cfg.limits, None, ids, s.now);
    case EndPoll(polled, result, delay) => PollTouchesOne(s.jobs, polled, s.polls[polled], result, delay, s.now);
    case _ =>
  }

  /** Rows come from enqueues only. */
  lemma StepAddsNoRow(s: State, e: Event)
    requires !e.Enqueue?
    ensures Step(s, e).jobs.Keys <= s.jobs.Keys
  {
    hide Effect, Enabled;
    if Enabled(s, e) {
      if e.Claim? || e.Release? || e.Reject? || e.Reserve? || e.Send? || e.Respond? {
        DispatchAddsNoRow(s, e);
      } else {
        OtherAddsNoRow(s, e);
      }
    }
  }

  lemma EnqueueAddsOneRow(s: State, id: JobId, sub: Submission)
    ensures Step(s, Enqueue(id, sub)).jobs.Keys <= s.jobs.Keys + (if id in s.h.usedIds then {} else {id})
  {
    hide NextRowid;
  }

  /** A name once used and gone stays gone: ids are fresh. */
  lemma StepKeepsGone(s: State, e: Event, id: JobId)
    requires id in s.h.usedIds && id !in s.jobs
    ensures id !in Step(s, e).jobs
    ensures id in Step(s, e).h.usedIds
  {
    hide Step;
    StepUses(s, e, id);
    if e.Enqueue? {
      EnqueueAddsOneRow(s, e.id, e.sub);
    } else {
      StepAddsNoRow(s, e);
    }
  }

  lemma StepUses(s: State, e: Event, id: JobId)
    requires id in s.h.usedIds
    ensures id in Step(s, e).h.usedIds
  {
    hide Inserted, Claimed, Released, MarkedFailed, Settled, Abandoned, Expired, PollsLeased, PollSettled,
         Pruned, Persisted, Touched, Without;
  }

  lemma {:induction false} GoneStaysGone(s: State, es: seq<Event>, id: JobId)
    requires id in s.h.usedIds && id !in s.jobs
    ensures id !in Run(s, es).jobs
    decreases |es|
  {
    hide Step;
    if es != [] {
      StepKeepsGone(s, es[0], id);
      GoneStaysGone(Step(s, es[0]), es[1..], id);
    }
  }

  /** A completed or failed row never changes again, in any field, until it is deleted for good. */
  lemma {:induction false} TerminalRowsAreFinal(s: State, es: seq<Event>, id: JobId)
    requires Inv(s) && id in s.jobs && Terminal(s.jobs[id])
    ensures id in Run(s, es).jobs ==> Run(s, es).jobs[id] == s.jobs[id]
    ensures id !in Run(s, es).jobs ==> Forgettable(s.jobs[id])
    decreases |es|
  {
    hide Inv, Step;
    if es != [] {
      var t := Step(s, es[0]);
      RowIs(s, id);
      StepMoves(s, es[0], id);
      StepKeeps(s, es[0]);
      if id in t.jobs {
        TerminalRowsAreFinal(t, es[1..], id);
      } else {
        StepUses(s, es[0], id);
        GoneStaysGone(t, es[1..], id);
      }
    }
  }

  /** A keyed row is there for ever, with the submission it was created with. */
  lemma {:induction false} KeyedRowsStay(s: State, es: seq<Event>, id: JobId)
    requires Inv(s) && id in s.jobs && s.jobs[id].sub.key.Some?
    ensures id in Run(s, es).jobs && Run(s, es).jobs[id].sub == s.jobs[id].sub
    decreases |es|
  {
    hide Inv, Step;
    if es != [] {
      StepMoves(s, es[0], id);
      StepKeeps(s, es[0]);
      KeyedRowsStay(Step(s, es[0]), es[1..], id);
    }
  }

  /** So a replay can never insert a second row under the same key. */
  lemma ReplayInsertsNothing(s: State, es: seq<Event>, first: JobId, again: JobId, sub: Submission)
    requires Reachable(s) && first in s.jobs && s.jobs[first].sub.key.Some?
    requires sub.key == s.jobs[first].sub.key
    ensures Step(Run(s, es), Enqueue(again, sub)).jobs == Run(s, es).jobs
  {
    hide Inv, Reachable, Run;
    ReachableOk(s);
    KeyedRowsStay(s, es, first);
    var t := Run(s, es);
    assert t.jobs[first].sub.key == sub.key;
    assert KeyTaken(t.jobs, sub.key);
  }

  // ----- source bytes ---------------------------------------------------------------------------

  lemma StepSparesFiles(s: State, e: Event, id: JobId, d: Digest)
    requires id in s.jobs && Active(s.jobs[id]) && d in s.jobs[id].sub.hashes
    requires d in s.lib.files
    ensures d in Step(s, e).lib.files
  {
    hide Inserted, Claimed, Released, MarkedFailed, Settled, Abandoned, Expired, PollsLeased, PollSettled, Without,
         Pruned, IsNamed, IsJobSweep, IsOperationSweep, IsPollBatch, IsNext;
    if e.Prune? {
      JobHashIsNamed(s, id, d);
      SweepSparesReferenced(s.lib, s.jobs, s.cfg.keep, s.now, e.dropOperations, d);
    }
  }

  lemma JobHashIsNamed(s: State, id: JobId, d: Digest)
    requires id in s.jobs && Active(s.jobs[id]) && d in s.jobs[id].sub.hashes
    ensures IsNamed(s.jobs, s.lib, d)
  {
    assert InJob(s.jobs, d);
  }

  lemma {:induction false} BytesOutliveJob(s: State, es: seq<Event>, id: JobId, d: Digest)
    requires Inv(s) && id in s.jobs && Active(s.jobs[id]) && d in s.jobs[id].sub.hashes && d in s.lib.files
    requires id in Run(s, es).jobs && Active(Run(s, es).jobs[id])
    ensures d in Run(s, es).lib.files
    decreases |es|
  {
    hide Inv, Step;
    if es != [] {
      var t := Step(s, es[0]);
      RowIs(s, id);
      StepSparesFiles(s, es[0], id, d);
      StepMoves(s, es[0], id);
      StepKeeps(s, es[0]);
      StepUses(s, es[0], id);
      if Terminal(t.jobs[id]) {
        TerminalRowsAreFinal(t, es[1..], id);
      } else {
        BytesOutliveJob(t, es[1..], id, d);
      }
    }
  }

  /** Bytes on disk when a job that lists them is enqueued stay there until that job is terminal. */
  lemma EnqueuedBytesStay(s: State, id: JobId, sub: Submission, es: seq<Event>, d: Digest)
    requires Reachable(s) && id !in s.jobs && id in Step(s, Enqueue(id, sub)).jobs
    requires d in sub.hashes && d in s.lib.files
    requires var t := Run(Step(s, Enqueue(id, sub)), es); id in t.jobs && Active(t.jobs[id])
    ensures d in Run(Step(s, Enqueue(id, sub)), es).lib.files
  {
    hide Inv, Reachable, Run;
    ReachableOk(s);
    StepKeeps(s, Enqueue(id, sub));
    BytesOutliveJob(Step(s, Enqueue(id, sub)), es, id, d);
  }

  // ----- whatever is named keeps its bytes ------------------------------------------------------

  /** Something names the digest in every state of the run: a Character, an unfinished job, or a mapping of one. */
  ghost predicate StaysNamed(s: State, es: seq<Event>, d: Digest)
    decreases |es|
  {
    IsNamed(s.jobs, s.lib, d) && (es != [] ==> StaysNamed(Step(s, es[0]), es[1..], d))
  }

  lemma StepSparesNamed(s: State, e: Event, d: Digest)
    requires IsNamed(s.jobs, s.lib, d) && d in s.lib.files
    ensures d in Step(s, e).lib.files
  {
    hide Inserted, Claimed, Released, MarkedFailed, Settled, Abandoned, Expired, PollsLeased, PollSettled, Without,
         Pruned, IsNamed, IsJobSweep, IsOperationSweep, IsPollBatch, IsNext;
    if e.Prune? {
      SweepSparesReferenced(s.lib, s.jobs, s.cfg.keep, s.now, e.dropOperations, d);
    }
  }

  /** Bytes that are named all along outlive any run, with all its sweeps. */
  lemma {:induction false} NamedBytesStay(s: State, es: seq<Event>, d: Digest)
    requires d in s.lib.files && StaysNamed(s, es, d)
    ensures d in Run(s, es).lib.files
    decreases |es|
  {
    hide Step, IsNamed;
    if es != [] {
      StepSparesNamed(s, es[0], d);
      NamedBytesStay(Step(s, es[0]), es[1..], d);
    }
  }

  /** The Character is there, is not deleted and lists the digest, in every state of the run. */
  ghost predicate CharacterStays(s: State, es: seq<Event>, c: nat, d: Digest)
    decreases |es|
  {
    && c in s.lib.characters && !s.lib.characters[c].deleted && d in s.lib.characters[c].hashes
    && (es != [] ==> CharacterStays(Step(s, es[0]), es[1..], c, d))
  }

  lemma {:induction false} CharacterNames(s: State, es: seq<Event>, c: nat, d: Digest)
    requires CharacterStays(s, es, c, d)
    ensures StaysNamed(s, es, d)
    decreases |es|
  {
    hide Step;
    assert InCharacter(s.lib.characters, d);
    if es != [] {
      CharacterNames(Step(s, es[0]), es[1..], c, d);
    }
  }

  /** So the bytes a Character lists are there as long as the Character stays. */
  lemma CharacterBytesStay(s: State, es: seq<Event>, c: nat, d: Digest)
    requires d in s.lib.files && CharacterStays(s, es, c, d)
    ensures d in Run(s, es).lib.files
  {
    CharacterNames(s, es, c, d);
    NamedBytesStay(s, es, d);
  }

  /** A mapping ties the digest to a media id that this unfinished job names, in every state of the run. */
  ghost predicate TieStays(s: State, es: seq<Event>, id: JobId, m: nat, d: Digest)
    decreases |es|
  {
    && id in s.jobs && s.jobs[id].status in {Queued, Dispatching, Running}
    && m in s.lib.media && s.lib.media[m].digest == d && s.lib.media[m].googleId in s.jobs[id].sub.mediaRefs
    && (es != [] ==> TieStays(Step(s, es[0]), es[1..], id, m, d))
  }

  lemma {:induction false} TieNames(s: State, es: seq<Event>, id: JobId, m: nat, d: Digest)
    requires TieStays(s, es, id, m, d)
    ensures StaysNamed(s, es, d)
    decreases |es|
  {
    hide Step;
    NamedBy(s.lib, s.jobs);
    if es != [] {
      TieNames(Step(s, es[0]), es[1..], id, m, d);
    }
  }

  /** And so are those behind a mapping whose media id an unfinished job names. */
  lemma TiedBytesStay(s: State, es: seq<Event>, id: JobId, m: nat, d: Digest)
    requires d in s.lib.files && TieStays(s, es, id, m, d)
    ensures d in Run(s, es).lib.files
  {
    TieNames(s, es, id, m, d);
    NamedBytesStay(s, es, d);
  }

  function Grace(cfg: Config): int { Max(1, cfg.keep.assetDays) * DAY }

  /** Registered at or after `since`: the orphan clock, if it runs, started no earlier. */
  predicate Guarded(s: State, d: Digest, since: int) {
    && d in s.lib.files
    && d in s.lib.assets && s.lib.assets[d].active
    && (s.lib.assets[d].orphanedAt.Some? ==> since <= s.lib.assets[d].orphanedAt.value)
    && since <= s.now
  }

  lemma PruneHonoursGrace(s: State, dropOperations: set<nat>, d: Digest, since: int)
    requires Guarded(s, d, since) && s.now < since + Grace(s.cfg)
    ensures var lib := Pruned(s.lib, s.jobs, s.cfg.keep, s.now, dropOperations);
            && d in lib.files && d in lib.assets && lib.assets[d].active
            && (lib.assets[d].orphanedAt.Some? ==> since <= lib.assets[d].orphanedAt.value)
  {
    hide Referenced, AssetBatch, MediaBatch, MediaDropped;
  }

  lemma StepHonoursGrace(s: State, e: Event, d: Digest, since: int)
    requires Guarded(s, d, since) && s.now < since + Grace(s.cfg)
    ensures Guarded(Step(s, e), d, since) && Step(s, e).cfg == s.cfg && s.now <= Step(s, e).now
  {
    hide Inserted, Claimed, Released, MarkedFailed, Settled, Abandoned, Expired, PollsLeased, PollSettled, Without,
         Pruned, IsJobSweep, IsOperationSweep, IsPollBatch, IsNext;
    if e.Prune? {
      PruneHonoursGrace(s, e.dropOperations, d, since);
    }
  }

  lemma ClockOnlyAdvances(s: State, e: Event)
    ensures s.now <= Step(s, e).now && Step(s, e).cfg == s.cfg
  {
    hide Inserted, Claimed, Released, MarkedFailed, Settled, Abandoned, Expired, PollsLeased, PollSettled, Without,
         Pruned, Persisted, Touched, IsJobSweep, IsOperationSweep, IsPollBatch, IsNext;
  }

  lemma {:induction false} RunOnlyAdvances(s: State, es: seq<Event>)
    ensures s.now <= Run(s, es).now && Run(s, es).cfg == s.cfg
    decreases |es|
  {
    hide Step;
    if es != [] {
      ClockOnlyAdvances(s, es[0]);
      RunOnlyAdvances(Step(s, es[0]), es[1..]);
    }
  }

  lemma {:induction false} RunHonoursGrace(s: State, es: seq<Event>, d: Digest, since: int)
    requires Guarded(s, d, since) && Run(s, es).now < since + Grace(s.cfg)
    ensures Guarded(Run(s, es), d, since)
    decreases |es|
  {
    hide Step, Guarded, Grace;
    if es != [] {
      RunOnlyAdvances(s, es);
      StepHonoursGrace(s, es[0], d, since);
      RunHonoursGrace(Step(s, es[0]), es[1..], d, since);
    }
  }

  /**
   Bytes handed to persist_asset survive every sweep of the retention period,
   even if they had been orphaned long before; if a job that lists them is
   enqueued in that period they survive until the job is terminal.
   */
  lemma PersistedBytesReachTheirJob(s: State, d: Digest, es: seq<Event>, id: JobId, sub: Submission, fs: seq<Event>)
    requires Reachable(s)
    requires var b := Run(Step(s, PersistAsset(d)), es);
             && b.now < s.now + Grace(s.cfg)
             && id !in b.jobs && d in sub.hashes && id in Step(b, Enqueue(id, sub)).jobs
    ensures var b := Run(Step(s, PersistAsset(d)), es);
            var end := Run(Step(b, Enqueue(id, sub)), fs);
            && d in b.lib.files
            && (id in end.jobs && Active(end.jobs[id]) ==> d in end.lib.files)
  {
    hide Inv, Reachable, Run;
    var a := Step(s, PersistAsset(d));
    var b := Run(a, es);
    RunHonoursGrace(a, es, d, s.now);
    ReachableOk(s);
    StepKeeps(s, PersistAsset(d));
    RunKeeps(a, es);
    StepKeeps(b, Enqueue(id, sub));
    var c := Step(b, Enqueue(id, sub));
    if id in Run(c, fs).jobs && Active(Run(c, fs).jobs[id]) {
      BytesOutliveJob(c, fs, id, d);
    }
  }

  // ----- sweeps in a run ----------------------------------------------------------------------------

  predicate Sweeps(e: Event) { e.Prune? }

  /** The library as each enabled sweep of the run finds it. */
  ghost function Swept(s: State, es: seq<Event>): seq<Library>
    decreases |es|
  {
    if es == [] then []
    else (if Sweeps(es[0]) && Enabled(s, es[0]) then [s.lib] else []) + Swept(Step(s, es[0]), es[1..])
  }

  /** The active catalogue is the same before every step. */
  ghost predicate CatalogueStays(s: State, es: seq<Event>, catalogue: set<Digest>)
    decreases |es|
  {
    ActiveAssets(s.lib.assets) == catalogue && (es != [] ==> CatalogueStays(Step(s, es[0]), es[1..], catalogue))
  }

  lemma OnlySweepsMoveTheCursor(s: State, e: Event)
    ensures !(Sweeps(e) && Enabled(s, e)) ==> Step(s, e).lib.assetCursor == s.lib.assetCursor
    ensures Sweeps(e) && Enabled(s, e) ==>
              Step(s, e).lib.assetCursor ==
              NextCursor(AssetBatch(s.lib, BatchSize(s.cfg.keep)), BatchSize(s.cfg.keep), ASSET_START)
    ensures Step(s, e).cfg == s.cfg
  {
    hide Inserted, Claimed, Released, MarkedFailed, Settled, Abandoned, Expired, PollsLeased, PollSettled, Without,
         AssetsMarked, Doomed, Retired, MediaBatch, MediaDropped, AssetBatch, BatchSize, NextCursor,
         IsJobSweep, IsOperationSweep, IsPollBatch, IsNext;
  }

  /** Whatever happens between them, the sweeps of a run over a fixed catalogue rotate through it. */
  lemma {:induction false} SweepsRotate(s: State, es: seq<Event>, catalogue: set<Digest>)
    requires CatalogueStays(s, es, catalogue)
    ensures IsRotation(Swept(s, es), catalogue, BatchSize(s.cfg.keep))
    ensures Swept(s, es) != [] ==> Swept(s, es)[0].assetCursor == s.lib.assetCursor
    decreases |es|
  {
    hide Step, Enabled, NextCursor, AssetBatch, ActiveAssets, BatchSize;
    if es != [] {
      var t, n := Step(s, es[0]), BatchSize(s.cfg.keep);
      OnlySweepsMoveTheCursor(s, es[0]);
      SweepsRotate(t, es[1..], catalogue);
      var rest := Swept(t, es[1..]);
      if Sweeps(es[0]) && Enabled(s, es[0]) {
        var all := [s.lib] + rest;
        assert Swept(s, es) == all;
        forall i | 0 < i < |all|
          ensures all[i].assetCursor == NextCursor(AssetBatch(all[i - 1], n), n, ASSET_START)
        {
          assert i > 1 ==> all[i] == rest[i - 1] && all[i - 1] == rest[i - 2];
        }
      } else {
        assert Swept(s, es) == rest;
      }
    }
  }

  /**
   In any run with a fixed catalogue of active assets, however its sweeps are
   spread over it, every asset is examined by one of the first n / b + 2.
   */
  lemma SweepsReachEveryAsset(s: State, es: seq<Event>, catalogue: set<Digest>, d: Digest)
    requires CatalogueStays(s, es, catalogue) && d in catalogue
    requires |Swept(s, es)| >= |catalogue| / BatchSize(s.cfg.keep) + 2
    ensures exists i :: 0 <= i < |catalogue| / BatchSize(s.cfg.keep) + 2
                        && d in AssetBatch(Swept(s, es)[i], BatchSize(s.cfg.keep))
  {
    assert BatchSize(s.cfg.keep) > 0;
    hide CatalogueStays, AssetBatch, BatchSize, ActiveAssets, NextCursor, Swept, IsRotation;
    SweepsRotate(s, es, catalogue);
    RotationReaches(Swept(s, es), catalogue, BatchSize(s.cfg.keep), d);
  }

  // ----- how a video gets completed --------------------------------------------------------------------

  lemma DispatchCompletesNoVideo(s: State, e: Event, id: JobId)
    requires Inv(s) && Enabled(s, e) && id in s.jobs && s.jobs[id].sub.media == Video && Active(s.jobs[id])
    requires e.Enqueue? || e.Claim? || e.Release? || e.Reject? || e.Reserve? || e.Send? || e.Respond?
    ensures id in Effect(s, e).jobs ==> Effect(s, e).jobs[id].status != Completed
  {
    hide Inv, IsNext, NextRowid, VideoSettled, ImageSettled;
    match e
    case Respond(token, a, account, project, pollDelay) =>
      TaskIs(s, token);
      AnswerCompletesNoVideo(s.jobs, s.tasks[token], token, a, account, project, pollDelay, s.now, id);
    case _ =>
  }

  lemma AnswerCompletesNoVideo(jobs: Jobs, t: Task, token: Token, a: Answer, account: Account, project: Project,
                               pollDelay: int, now: int, id: JobId)
    requires id in jobs && jobs[id].sub.media == Video && Active(jobs[id])
    requires t.job in jobs && jobs[t.job].sub.media == t.media
    ensures var after := Settled(jobs, t, token, a, account, project, pollDelay, now);
            id in after ==> after[id].status != Completed
  {
  }

  lemma ExpiryCompletesNothing(jobs: Jobs, lease: int, limits: Limits, only: Option<JobId>, ids: set<JobId>, now: int, id: JobId)
    requires id in jobs && Active(jobs[id])
    ensures Abandoned(jobs, lease, now)[id].status != Completed
    ensures Expired(jobs, limits, only, now)[id].status != Completed
    ensures PollsLeased(jobs, ids, lease, now)[id].status != Completed
  {
  }

  lemma PollCompletes(jobs: Jobs, polled: JobId, snap: Snapshot, result: PollResult, delay: int, now: int, id: JobId)
    requires id in jobs && Active(jobs[id])
    ensures var after := PollSettled(jobs, polled, snap, result, delay, now);
            id in after && after[id].status == Completed ==> polled == id && result.Finished?
  {
  }

  /** A video becomes completed in one way only: a poll of it that found it finished. */
  lemma OnlyPollsCompleteVideos(s: State, e: Event, id: JobId)
    requires Inv(s) && id in s.jobs && s.jobs[id].sub.media == Video && Active(s.jobs[id])
    requires id in Step(s, e).jobs && Step(s, e).jobs[id].status == Completed
    ensures e.EndPoll? && e.id == id && e.result.Finished?
  {
    hide Inv, Pruned, Persisted, Touched, Abandoned, Expired, PollsLeased, PollSettled, Settled,
         IsPollBatch, IsJobSweep, IsOperationSweep, IsNext, Enabled, Effect;
    if Enabled(s, e) {
      if e.Enqueue? || e.Claim? || e.Release? || e.Reject? || e.Reserve? || e.Send? || e.Respond? {
        DispatchCompletesNoVideo(s, e, id);
      } else {
        OtherCompletesNoVideo(s, e, id);
      }
    }
  }

  lemma OtherCompletesNoVideo(s: State, e: Event, id: JobId)
    requires Enabled(s, e) && id in s.jobs && Active(s.jobs[id])
    requires !(e.Enqueue? || e.Claim? || e.Release? || e.Reject? || e.Reserve? || e.Send? || e.Respond?)
    requires id in Effect(s, e).jobs && Effect(s, e).jobs[id].status == Completed
    ensures e.EndPoll? && e.id == id && e.result.Finished?
  {
    hide Pruned, Persisted, Touched, Abandoned, Expired, PollsLeased, PollSettled,
         IsPollBatch, IsJobSweep, IsOperationSweep;
    match e
    case FailAbandoned => ExpiryCompletesNothing(s.jobs, s.cfg.lease, s.cfg.limits, None, {}, s.now, id);
    case FailExpired(only) => ExpiryCompletesNothing(s.jobs, s.cfg.lease, s.cfg.limits, only, {}, s.now, id);
    case StartPolls(_, ids) => ExpiryCompletesNothing(s.jobs, s.cfg.pollLease, s.cfg.limits, None, ids, s.now, id);
    case EndPoll(polled, result, delay) => PollCompletes(s.jobs, polled, s.polls[polled], result, delay, s.now, id);
    case _ =>
  }
}
