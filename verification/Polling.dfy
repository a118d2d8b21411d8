/** Poll slots, the consecutive-error limit and the backoff. */
module Polling {
  import opened Base
  import opened JobTable
  import opened AssetLibrary
  import opened Protocol
  import opened ProtocolSafety
  import opened Guarantees

  // ----- slots -----------------------------------------------------------------------

  lemma BatchFitsSlots(s: State, limit: Option<nat>, ids: set<JobId>)
    requires Enabled(s, StartPolls(limit, ids))
    ensures ids !! s.polls.Keys && ids <= s.jobs.Keys && |ids| <= PollSlots(s, limit)
  {
  }

  lemma StartAddsBatch(s: State, limit: Option<nat>, ids: set<JobId>)
    requires Enabled(s, StartPolls(limit, ids)) && ids <= s.jobs.Keys
    ensures Step(s, StartPolls(limit, ids)).polls.Keys == s.polls.Keys + ids
  {
    hide IsPollBatch, PollSlots;
  }

  /**
   In every reachable state no more polls run than there are slots; a job has at
   most one, since a start only adds jobs that are not being polled.
   */
  lemma PollsAreBounded(s: State, limit: Option<nat>, ids: set<JobId>)
    requires Reachable(s)
    ensures |s.polls| <= Max(1, s.cfg.pollCapacity)
    ensures Enabled(s, StartPolls(limit, ids)) ==>
              && ids !! s.polls.Keys
              && Step(s, StartPolls(limit, ids)).polls.Keys == s.polls.Keys + ids
              && |s.polls| + |ids| <= Max(1, s.cfg.pollCapacity)
              && (limit.Some? ==> |ids| <= Max(1, limit.value))
  {
    hide Enabled, Step, Reachable, Core;
    ReachableOk(s);
    if Enabled(s, StartPolls(limit, ids)) {
      BatchFitsSlots(s, limit, ids);
      StartAddsBatch(s, limit, ids);
    }
  }

  // ----- the eleventh poll ---------------------------------------------------------------

  /** Polls of id that end along the run. */
  ghost function PollEnds(s: State, es: seq<Event>, id: JobId): nat
    decreases |es|
  {
    if es == [] then 0
    else (if EndsPoll(s, es[0], id) then 1 else 0) + PollEnds(Step(s, es[0]), es[1..], id)
  }

  predicate EndsPoll(s: State, e: Event, id: JobId) { e.EndPoll? && e.id == id && id in s.polls }

  /** Every poll of id that ends along the run ends without an answer. */
  ghost predicate NeverAnswered(s: State, es: seq<Event>, id: JobId)
    decreases |es|
  {
    es != [] ==>
      && (EndsPoll(s, es[0], id) ==> es[0].result.NotAnswered?)
      && NeverAnswered(Step(s, es[0]), es[1..], id)
  }

  predicate IsRunning(jobs: Jobs, id: JobId) { id in jobs && jobs[id].status == Running }

  lemma DispatchKeepsCount(s: State, e: Event, id: JobId)
    requires Inv(s) && Enabled(s, e) && IsRunning(s.jobs, id) && IsRunning(Effect(s, e).jobs, id)
    requires e.Enqueue? || e.Claim? || e.Release? || e.Reject? || e.Reserve? || e.Send? || e.Respond?
    ensures Effect(s, e).jobs[id].pollErrors == s.jobs[id].pollErrors
  {
    hide Inv, IsNext, NextRowid, Settled;
    match e
    case Respond(token, a, account, project, pollDelay) =>
      AnswerKeepsCount(s.jobs, s.tasks[token], token, a, account, project, pollDelay, s.now, id);
    case _ =>
  }

  lemma AnswerKeepsCount(jobs: Jobs, t: Task, token: Token, a: Answer, account: Account, project: Project,
                         pollDelay: int, now: int, id: JobId)
    requires IsRunning(jobs, id)
    ensures var after := Settled(jobs, t, token, a, account, project, pollDelay, now);
            IsRunning(after, id) ==> after[id].pollErrors == jobs[id].pollErrors
  {
  }

  lemma ExpiryKeepsCount(jobs: Jobs, lease: int, limits: Limits, only: Option<JobId>, ids: set<JobId>, now: int, id: JobId)
    requires id in jobs
    ensures Abandoned(jobs, lease, now)[id].pollErrors == jobs[id].pollErrors
    ensures Expired(jobs, limits, only, now)[id].pollErrors == jobs[id].pollErrors
    ensures PollsLeased(jobs, ids, lease, now)[id].pollErrors == jobs[id].pollErrors
  {
  }

  /** An unanswered poll that leaves its job running has counted one error. */
  lemma PollCounts(jobs: Jobs, polled: JobId, snap: Snapshot, result: PollResult, delay: int, now: int, id: JobId)
    requires IsRunning(jobs, id) && (polled == id ==> result.NotAnswered?)
    requires IsRunning(PollSettled(jobs, polled, snap, result, delay, now), id)
    ensures PollSettled(jobs, polled, snap, result, delay, now)[id].pollErrors ==
            jobs[id].pollErrors + (if polled == id then 1 else 0)
  {
  }

  lemma OtherKeepsCount(s: State, e: Event, id: JobId)
    requires Inv(s) && Enabled(s, e) && IsRunning(s.jobs, id) && IsRunning(Effect(s, e).jobs, id)
    requires !(e.Enqueue? || e.Claim? || e.Release? || e.Reject? || e.Reserve? || e.Send? || e.Respond?)
    requires EndsPoll(s, e, id) ==> e.result.NotAnswered?
    ensures Effect(s, e).jobs[id].pollErrors == s.jobs[id].pollErrors + (if EndsPoll(s, e, id) then 1 else 0)
  {
    hide Inv, Pruned, Persisted, Touched, Abandoned, Expired, PollsLeased, PollSettled,
         IsPollBatch, IsJobSweep, IsOperationSweep;
    match e
    case FailAbandoned => ExpiryKeepsCount(s.jobs, s.cfg.lease, s.cfg.limits, None, {}, s.now, id);
    case FailExpired(only) => ExpiryKeepsCount(s.jobs, s.cfg.lease, s.cfg.limits, only, {}, s.now, id);
    case StartPolls(_, ids) => ExpiryKeepsCount(s.jobs, s.cfg.pollLease, s.cfg.limits, None, ids, s.now, id);
    case EndPoll(polled, result, delay) =>
      PollCounts(s.jobs, polled, s.polls[polled], result, delay, s.now, id);
    case _ =>
  }

  lemma StepCounts(s: State, e: Event, id: JobId)
    requires Inv(s) && IsRunning(s.jobs, id) && IsRunning(Step(s, e).jobs, id)
    requires EndsPoll(s, e, id) ==> e.result.NotAnswered?
    ensures Step(s, e).jobs[id].pollErrors == s.jobs[id].pollErrors + (if EndsPoll(s, e, id) then 1 else 0)
  {
    hide Inv, Effect;
    if Enabled(s, e) {
      hide Enabled;
      if e.Enqueue? || e.Claim? || e.Release? || e.Reject? || e.Reserve? || e.Send? || e.Respond? {
        DispatchKeepsCount(s, e, id);
      } else {
        OtherKeepsCount(s, e, id);
      }
    }
  }

  /** Once out of `running` a row never comes back to it. */
  lemma NeverRunsAgain(s: State, e: Event, es: seq<Event>, id: JobId)
    requires Inv(s) && IsRunning(s.jobs, id) && IsRunning(Run(Step(s, e), es).jobs, id)
    ensures IsRunning(Step(s, e).jobs, id)
  {
    hide Inv, Step, Run;
    var t := Step(s, e);
    RowIs(s, id);
    StepMoves(s, e, id);
    StepKeeps(s, e);
    StepUses(s, e, id);
    if id !in t.jobs {
      GoneStaysGone(t, es, id);
    } else if Terminal(t.jobs[id]) {
      TerminalRowsAreFinal(t, es, id);
    }
  }

  /** While a job keeps running on failing polls, each of them costs exactly one of its ten errors. */
  lemma {:induction false} FailingPollsCount(s: State, es: seq<Event>, id: JobId)
    requires Inv(s) && IsRunning(s.jobs, id) && IsRunning(Run(s, es).jobs, id) && NeverAnswered(s, es, id)
    ensures Run(s, es).jobs[id].pollErrors == s.jobs[id].pollErrors + PollEnds(s, es, id)
    ensures PollEnds(s, es, id) <= 10
    decreases |es|
  {
    hide Step, Inv;
    if es == [] {
    } else {
      var t := Step(s, es[0]);
      NeverRunsAgain(s, es[0], es[1..], id);
      StepCounts(s, es[0], id);
      StepKeeps(s, es[0]);
      FailingPollsCount(t, es[1..], id);
    }
    RunKeeps(s, es);
    RowIs(Run(s, es), id);
  }

  /** The poll that follows ten consecutive errors fails the job with an unknown outcome, whatever it would have heard. */
  lemma EleventhPollGivesUp(s: State, id: JobId, result: PollResult, delay: int)
    requires Reachable(s) && id in s.polls && IsRunning(s.jobs, id) && s.jobs[id].pollErrors == 10
    ensures var after := Step(s, EndPoll(id, result, delay)).jobs;
            && id in after && after[id].status == Failed && after[id].outcomeUnknown
            && after[id].code == Some(PollMaxErrors)
  {
    hide Inv, Reachable;
    ReachableOk(s);
    PollIs(s, id);
  }

  /** A poll that hears the video is still being made clears the count, so only consecutive errors add up. */
  lemma AnswerClearsErrors(s: State, id: JobId, delay: int)
    requires Reachable(s) && id in s.polls && IsRunning(s.jobs, id) && s.jobs[id].pollErrors < 10
    ensures var after := Step(s, EndPoll(id, StillRunning, delay)).jobs;
            IsRunning(after, id) && after[id].pollErrors == 0 && after[id].pollAttempts == s.jobs[id].pollAttempts + 1
  {
    hide Inv, Reachable;
    ReachableOk(s);
    PollIs(s, id);
  }

  // ----- backoff -----------------------------------------------------------------------------

  function Pow2(n: nat): nat { if n == 0 then 1 else 2 * Pow2(n - 1) }

  function Grown(base: real, errors: int): real {
    base * (Pow2(Min(Max(0, errors), 8)) as real)
  }

  /** _poll_delay: the base doubled per error, at most eight times, under a maximum. */
  function PollDelay(base: real, maximum: real, errors: int): real {
    if base <= 0.0 then 0.0
    else if maximum < Grown(base, errors) then maximum
    else Grown(base, errors)
  }

  /** Nothing without a base; else the base times 1, 2, 4, ... 256 by the error count, or the maximum if that is less. */
  lemma PollDelayExactly(base: real, maximum: real, errors: int)
    ensures base <= 0.0 ==> PollDelay(base, maximum, errors) == 0.0
    ensures base > 0.0 ==>
              var grown := base * (if errors <= 0 then 1.0 else if errors == 1 then 2.0 else if errors == 2 then 4.0
                                   else if errors == 3 then 8.0 else if errors == 4 then 16.0 else if errors == 5 then 32.0
                                   else if errors == 6 then 64.0 else if errors == 7 then 128.0 else 256.0);
              PollDelay(base, maximum, errors) == if maximum < grown then maximum else grown
  {
    assert Pow2(4) == 16 && Pow2(8) == 256;
    assert Pow2(0) == 1 && Pow2(1) == 2 && Pow2(2) == 4 && Pow2(3) == 8 && Pow2(5) == 32 && Pow2(6) == 64 && Pow2(7) == 128;
  }

  lemma {:induction false} Pow2Grows(m: nat, n: nat)
    requires m <= n
    ensures Pow2(m) <= Pow2(n)
  {
    if m < n {
      Pow2Grows(m, n - 1);
    }
  }

  lemma Scale(x: real, a: real, b: real)
    requires 0.0 <= x && 0.0 <= a <= b
    ensures 0.0 <= x * a <= x * b
  {
    assert x * (b - a) >= 0.0;
  }

  lemma GrownIsMonotone(base: real, fewer: int, more: int)
    requires fewer <= more && 0.0 <= base
    ensures 0.0 <= Grown(base, fewer) <= Grown(base, more)
  {
    hide Pow2;
    var a, b := Pow2(Min(Max(0, fewer), 8)), Pow2(Min(Max(0, more), 8));
    Pow2Grows(Min(Max(0, fewer), 8), Min(Max(0, more), 8));
    Scale(base, a as real, b as real);
  }

  /** More errors never mean a shorter wait, and no wait exceeds the maximum. */
  lemma BackoffIsMonotoneAndCapped(base: real, maximum: real, fewer: int, more: int)
    requires fewer <= more && 0.0 <= maximum
    ensures 0.0 <= PollDelay(base, maximum, fewer) <= PollDelay(base, maximum, more) <= maximum
  {
    hide Grown;
    if base > 0.0 {
      GrownIsMonotone(base, fewer, more);
    }
  }

  /** Below the maximum the delay doubles with each of the first eight errors and then stays. */
  lemma BackoffDoublesEightTimes(base: real, maximum: real, errors: nat)
    requires 0.0 < base && PollDelay(base, maximum, errors + 1) < maximum
    ensures errors < 8 ==> PollDelay(base, maximum, errors + 1) == 2.0 * PollDelay(base, maximum, errors)
    ensures errors >= 8 ==> PollDelay(base, maximum, errors + 1) == PollDelay(base, maximum, errors) == 256.0 * base
  {
    GrownIsMonotone(base, errors, errors + 1);
    if errors < 8 {
      assert Pow2(errors + 1) == 2 * Pow2(errors);
    } else {
      assert Pow2(8) == 256;
    }
  }
}
