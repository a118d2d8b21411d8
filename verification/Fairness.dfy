/**
 No queued job starves: once the clock is past its queue key, the rows ordered
 before it only ever get fewer, and every claim of another job takes one away.
 */
module Fairness {
  import opened Base
  import opened JobTable
  import opened AssetLibrary
  import opened Protocol
  import opened ProtocolSafety
  import opened Guarantees

  predicate IsQueued(jobs: Jobs, id: JobId) { id in jobs && jobs[id].status == Queued }

  /** Queued rows the claim's ORDER BY puts before row id. */
  function Ahead(jobs: Jobs, id: JobId): set<JobId>
    requires id in jobs
  {
    set o | o in jobs && jobs[o].status == Queued && Before(jobs[o], jobs[id])
  }

  /** id stays queued through the whole run. */
  ghost predicate Waits(s: State, es: seq<Event>, id: JobId)
    decreases |es|
  {
    IsQueued(s.jobs, id) && (es != [] ==> Waits(Step(s, es[0]), es[1..], id))
  }

  /** Successful claims made along the run. */
  ghost function Claims(s: State, es: seq<Event>): nat
    decreases |es|
  {
    if es == [] then 0
    else (if es[0].Claim? && Enabled(s, es[0]) then 1 else 0) + Claims(Step(s, es[0]), es[1..])
  }

  /** Rows that enter the queue, new or released, carry a key no earlier than the clock. */
  lemma DispatchEntersBehind(s: State, e: Event, o: JobId)
    requires Inv(s) && Enabled(s, e) && !IsQueued(s.jobs, o) && IsQueued(Effect(s, e).jobs, o)
    requires e.Enqueue? || e.Claim? || e.Release? || e.Reject? || e.Reserve? || e.Send? || e.Respond?
    ensures s.now <= QueueKey(Effect(s, e).jobs[o])
  {
    hide Inv, IsNext, NextRowid;
    match e
    case Respond(token, a, account, project, pollDelay) => NeverRequeues(s, token, a, account, project, pollDelay, o);
    case _ =>
  }

  lemma NeverRequeues(s: State, token: Token, a: Answer, account: Account, project: Project, pollDelay: int, o: JobId)
    requires token in s.tasks
    requires IsQueued(Settled(s.jobs, s.tasks[token], token, a, account, project, pollDelay, s.now), o)
    ensures IsQueued(s.jobs, o)
  {
  }

  lemma ExpiryNeverQueues(jobs: Jobs, lease: int, limits: Limits, only: Option<JobId>, now: int, o: JobId)
    ensures IsQueued(Abandoned(jobs, lease, now), o) ==> IsQueued(jobs, o)
    ensures IsQueued(Expired(jobs, limits, only, now), o) ==> IsQueued(jobs, o)
  {
  }

  lemma PollsNeverQueue(jobs: Jobs, ids: set<JobId>, lease: int, id: JobId, snap: Snapshot, result: PollResult,
                        delay: int, now: int, o: JobId)
    ensures IsQueued(PollsLeased(jobs, ids, lease, now), o) ==> IsQueued(jobs, o)
    ensures IsQueued(PollSettled(jobs, id, snap, result, delay, now), o) ==> IsQueued(jobs, o)
  {
  }

  lemma OtherEntersBehind(s: State, e: Event, o: JobId)
    requires Enabled(s, e) && !IsQueued(s.jobs, o)
    requires !(e.Enqueue? || e.Claim? || e.Release? || e.Reject? || e.Reserve? || e.Send? || e.Respond?)
    ensures !IsQueued(Effect(s, e).jobs, o)
  {
    hide Pruned, Persisted, Touched, Abandoned, Expired, PollsLeased, PollSettled,
         IsPollBatch, IsJobSweep, IsOperationSweep;
    match e
    case FailAbandoned => ExpiryNeverQueues(s.jobs, s.cfg.lease, s.cfg.limits, None, s.now, o);
    case FailExpired(only) => ExpiryNeverQueues(s.jobs, s.cfg.lease, s.cfg.limits, only, s.now, o);
    case StartPolls(_, ids) =>
      PollsNeverQueue(s.jobs, ids, s.cfg.pollLease, o, Snapshot(None, None, 0), Lost, 0, s.now, o);
    case EndPoll(id, result, delay) =>
      PollsNeverQueue(s.jobs, {}, s.cfg.pollLease, id, s.polls[id], result, delay, s.now, o);
    case _ =>
  }

  /** A row that is queued before and after a step is the same row. */
  lemma QueuedRowUntouched(s: State, e: Event, o: JobId)
    requires Inv(s) && IsQueued(s.jobs, o) && IsQueued(Step(s, e).jobs, o)
    ensures Step(s, e).jobs[o] == s.jobs[o]
  {
    hide Inv, Step;
    StepMoves(s, e, o);
  }

  lemma StepEntersBehind(s: State, e: Event, o: JobId)
    requires Inv(s) && !IsQueued(s.jobs, o) && IsQueued(Step(s, e).jobs, o)
    ensures s.now <= QueueKey(Step(s, e).jobs[o])
  {
    hide Inv, Effect, Enabled;
    if e.Enqueue? || e.Claim? || e.Release? || e.Reject? || e.Reserve? || e.Send? || e.Respond? {
      DispatchEntersBehind(s, e, o);
    } else {
      OtherEntersBehind(s, e, o);
    }
  }

  /** Once the clock is strictly past id's key, nothing new gets ahead of it. */
  lemma AheadNeverGrows(s: State, e: Event, id: JobId)
    requires Inv(s) && IsQueued(s.jobs, id) && QueueKey(s.jobs[id]) < s.now
    requires IsQueued(Step(s, e).jobs, id)
    ensures Ahead(Step(s, e).jobs, id) <= Ahead(s.jobs, id)
  {
    hide Inv, Step;
    var t := Step(s, e);
    QueuedRowUntouched(s, e, id);
    forall o | o in Ahead(t.jobs, id) ensures o in Ahead(s.jobs, id) {
      if IsQueued(s.jobs, o) {
        QueuedRowUntouched(s, e, o);
      } else {
        StepEntersBehind(s, e, o);
      }
    }
  }

  /** Whoever is claimed instead of a due row was ahead of it. */
  lemma ClaimTakesFromAhead(s: State, e: Event, id: JobId)
    requires Inv(s) && e.Claim? && Enabled(s, e)
    requires IsQueued(s.jobs, id) && QueueKey(s.jobs[id]) < s.now && e.id != id
    ensures e.id in Ahead(s.jobs, id)
    ensures !IsQueued(Step(s, e).jobs, e.id)
  {
    hide Inv;
    RowIs(s, e.id);
    assert Due(s.jobs[id], s.now);
  }

  /** The row claimed by a claim that leaves id queued is another one. */
  lemma ClaimOfItselfDequeues(s: State, e: Event, id: JobId)
    requires Inv(s) && e.Claim? && Enabled(s, e) && IsQueued(Step(s, e).jobs, id)
    ensures e.id != id
  {
    hide Inv;
  }

  lemma KeyStaysPast(s: State, e: Event, id: JobId)
    requires Inv(s) && IsQueued(s.jobs, id) && QueueKey(s.jobs[id]) < s.now && IsQueued(Step(s, e).jobs, id)
    ensures QueueKey(Step(s, e).jobs[id]) < Step(s, e).now
  {
    hide Inv, Step;
    QueuedRowUntouched(s, e, id);
    ClockOnlyAdvances(s, e);
  }

  lemma ClaimShrinks(s: State, e: Event, id: JobId)
    requires Inv(s) && e.Claim? && Enabled(s, e)
    requires IsQueued(s.jobs, id) && QueueKey(s.jobs[id]) < s.now && IsQueued(Step(s, e).jobs, id)
    ensures |Ahead(Step(s, e).jobs, id)| < |Ahead(s.jobs, id)|
  {
    hide Inv, Step, Enabled;
    ClaimOfItselfDequeues(s, e, id);
    ClaimTakesFromAhead(s, e, id);
    AheadNeverGrows(s, e, id);
    assert e.id !in Ahead(Step(s, e).jobs, id);
    Cardinality(Ahead(Step(s, e).jobs, id), Ahead(s.jobs, id));
  }

  /**
   With k rows ahead of it, a due job that keeps waiting sees at most k
   successful claims: within k + 1 claims it has been claimed or left the queue.
   */
  lemma {:induction false} ClaimedWithinAhead(s: State, es: seq<Event>, id: JobId)
    requires Inv(s) && IsQueued(s.jobs, id) && QueueKey(s.jobs[id]) < s.now
    requires Waits(s, es, id)
    ensures Claims(s, es) <= |Ahead(s.jobs, id)|
    decreases |es|
  {
    hide Inv, Step, Enabled;
    if es != [] {
      var e := es[0];
      var t := Step(s, e);
      assert Waits(t, es[1..], id);
      StepKeeps(s, e);
      KeyStaysPast(s, e, id);
      ClaimedWithinAhead(t, es[1..], id);
      if e.Claim? && Enabled(s, e) {
        ClaimShrinks(s, e, id);
      } else {
        AheadNeverGrows(s, e, id);
        Cardinality(Ahead(t.jobs, id), Ahead(s.jobs, id));
      }
    }
  }

  /** The same on reachable states: no schedule of claims can keep a due job waiting for more than k of them. */
  lemma NoJobStarves(s: State, es: seq<Event>, id: JobId)
    requires Reachable(s) && IsQueued(s.jobs, id) && QueueKey(s.jobs[id]) < s.now && Waits(s, es, id)
    ensures Claims(s, es) <= |Ahead(s.jobs, id)|
  {
    hide Reachable, Inv, Waits, Claims, Ahead;
    ReachableOk(s);
    ClaimedWithinAhead(s, es, id);
  }

  // ----- exactly who gets ahead ----------------------------------------------------------------

  lemma InsertedRow(jobs: Jobs, id: JobId, sub: Submission, now: int)
    requires id !in jobs && !KeyTaken(jobs, sub.key)
    ensures var after := Inserted(jobs, id, sub, now);
            && id in after && after[id] == NewRow(NextRowid(jobs), sub, now)
            && forall o | o in jobs :: o in after && after[o] == jobs[o] && jobs[o].rowid < after[id].rowid
  {
    forall o | o in jobs ensures jobs[o].rowid < NextRowid(jobs) {
      assert jobs[o].rowid in Rowids(jobs);
    }
    hide NextRowid;
  }

  /**
   A new job goes ahead of a waiting one if and only if the waiting one's key
   still lies in the future, or it is this second and an image passes a video.
   */
  lemma NewcomerOvertakesExactly(s: State, id: JobId, newcomer: JobId, sub: Submission)
    requires Inv(s) && IsQueued(s.jobs, id) && newcomer !in s.jobs && !KeyTaken(s.jobs, sub.key)
    ensures var after := Inserted(s.jobs, newcomer, sub, s.now);
            && id in after
            && (newcomer in Ahead(after, id) <==>
                  || s.now < QueueKey(s.jobs[id])
                  || (s.now == QueueKey(s.jobs[id]) && sub.media == Image && s.jobs[id].sub.media == Video))
  {
    hide Inv, Inserted;
    InsertedRow(s.jobs, newcomer, sub, s.now);
    hide NextRowid;
    RowIs(s, id);
  }

  /**
   A job released with a delay goes ahead of a waiting one if and only if its new
   key is earlier, or equal and it wins the tie by medium or by age.
   */
  lemma ReleasedOvertakesExactly(s: State, token: Token, delay: int, id: JobId)
    requires Inv(s) && AtPc(s, token, Holding) && IsQueued(s.jobs, id)
    requires Owns(s.jobs, s.tasks[token].job, token)
    ensures var job := s.tasks[token].job;
            var after := Step(s, Release(token, delay)).jobs;
            var key := s.now + Max(0, delay);
            var a, b := s.jobs[job], s.jobs[id];
            && id in after
            && (job in Ahead(after, id) <==>
                  || key < QueueKey(b)
                  || (key == QueueKey(b) && a.sub.media == Image && b.sub.media == Video)
                  || (key == QueueKey(b) && a.sub.media == b.sub.media && a.rowid < b.rowid))
  {
    hide Inv, Step, Released;
    HoldingStep(s, token, Release(token, delay));
    ReleasedRow(s.jobs, s.tasks[token].job, token, delay, s.now);
  }

  lemma ReleasedRow(jobs: Jobs, id: JobId, token: Token, delay: int, now: int)
    requires Owns(jobs, id, token)
    ensures var after := Released(jobs, id, token, delay, now);
            && after.Keys == jobs.Keys && (forall o | o in jobs && o != id :: after[o] == jobs[o])
            && IsQueued(after, id) && QueueKey(after[id]) == now + Max(0, delay)
            && after[id].sub == jobs[id].sub && after[id].rowid == jobs[id].rowid
  {
  }

  /** In the same second as its key a waiting video is overtaken by every new image. */
  lemma SameSecondCanOvertake(s: State, id: JobId, newcomer: JobId, sub: Submission)
    requires Inv(s) && IsQueued(s.jobs, id) && s.jobs[id].sub.media == Video && QueueKey(s.jobs[id]) == s.now
    requires newcomer !in s.jobs && sub.media == Image && !KeyTaken(s.jobs, sub.key)
    ensures id in Inserted(s.jobs, newcomer, sub, s.now)
    ensures newcomer in Ahead(Inserted(s.jobs, newcomer, sub, s.now), id)
  {
    hide Inv, Inserted, Ahead;
    NewcomerOvertakesExactly(s, id, newcomer, sub);
  }
}
