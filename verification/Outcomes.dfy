/**
 What answers and polls do to a row, as tables over literal statuses and fields.
 The tables are written apart from the functions that the protocol and the
 worker share, and proved to describe them.
 */
module Outcomes {
  import opened Base
  import opened JobTable
  import opened AssetLibrary
  import opened Protocol
  import opened ProtocolSafety

  // ----- how a row may end, start and go back -----------------------------------

  predicate EndsFailed(a: Row, b: Row, code: Code, retryable: bool, unknown: bool, now: int) {
    b == a.(status := Failed, claimedAt := None, token := None, nextPollAt := None, completedAt := Some(now),
            code := Some(code), retryable := retryable, outcomeUnknown := unknown)
  }

  predicate EndsCompleted(a: Row, b: Row, account: Option<Account>, project: Option<Project>, now: int) {
    b == a.(status := Completed, claimedAt := None, token := None, nextPollAt := None, completedAt := Some(now),
            account := account, project := project)
  }

  predicate StartsRunning(a: Row, b: Row, account: Account, project: Project, name: PollName, pollDelay: int, now: int) {
    b == a.(status := Running, claimedAt := None, account := Some(account), project := Some(project),
            pollName := Some(name), runningAt := Some(now), pollAttempts := 0, pollErrors := 0,
            nextPollAt := Some(if pollDelay > 0 then now + pollDelay else now))
  }

  predicate GoesBack(a: Row, b: Row, delay: nat, now: int) {
    b == a.(status := Queued, claimedAt := None, token := None, nextDispatchAt := Some(now + delay))
  }

  /** Polled again after `delay`: so many attempts more, and the error count as given. */
  predicate PolledAgain(a: Row, b: Row, delay: int, attempts: nat, errors: nat, now: int) {
    b == a.(nextPollAt := Some(if delay > 0 then now + delay else now),
            pollAttempts := a.pollAttempts + attempts, pollErrors := errors)
  }

  // ----- answers ------------------------------------------------------------------

  /** What becomes of a dispatching video row when the answer arrives. */
  predicate VideoAnswered(a: Row, b: Row, x: Answer, account: Account, project: Project, pollDelay: int, now: int) {
    if x.Raised? || x.reply.status.None? then
      EndsFailed(a, b, VideoOutcomeUnknown, false, true, now)
    else
      var status, r := x.reply.status.value, x.reply;
      && (status == 402 || (status in {400, 403, 429} && r.quotaText) ==>
            EndsFailed(a, b, CreditExhausted, false, false, now))
      && (status in {408, 425, 500, 502, 503, 504} ==> EndsFailed(a, b, VideoOutcomeUnknown, false, true, now))
      && (status >= 400 && status !in {402, 408, 425, 500, 502, 503, 504} && !(status in {400, 403, 429} && r.quotaText) ==>
            EndsFailed(a, b, DispatchFailed(0), false, false, now))
      && (status < 400 && r.hasError ==> EndsFailed(a, b, DispatchFailed(0), false, false, now))
      && (status < 400 && !r.hasError && r.pollName.None? ==> EndsFailed(a, b, VideoOutcomeUnknown, false, true, now))
      && (status < 400 && !r.hasError && r.pollName.Some? && !r.raisesAfter ==>
            StartsRunning(a, b, account, project, r.pollName.value, pollDelay, now))
      && (status < 400 && !r.hasError && r.pollName.Some? && r.raisesAfter ==>
            b == a.(status := Failed, claimedAt := None, token := None, account := Some(account), project := Some(project),
                    pollName := r.pollName, runningAt := Some(now), nextPollAt := None, pollAttempts := 0, pollErrors := 0,
                    code := Some(VideoOutcomeUnknown), retryable := false, outcomeUnknown := true, completedAt := Some(now)))
  }

  /** The same for an image: complete or failed at once. */
  predicate ImageAnswered(a: Row, b: Row, x: Answer, account: Account, project: Project, now: int) {
    if x.Raised? then
      EndsFailed(a, b, DispatchFailed(0), false, false, now)
    else if x.reply.status.None? || x.reply.status.value in {408, 425, 500, 502, 503, 504} then
      EndsFailed(a, b, ImageOutcomeUnknown, false, true, now)
    else if x.reply.status.value >= 400 || x.reply.hasError then
      EndsFailed(a, b, DispatchFailed(0), false, false, now)
    else if !x.reply.mediaValid then
      EndsFailed(a, b, ImageOutcomeUnknown, false, true, now)
    else
      EndsCompleted(a, b, Some(account), Some(project), now)
  }

  /** The claim a coroutine works under is still its own. */
  predicate Holds(jobs: Jobs, id: JobId, token: Token) {
    id in jobs && jobs[id].status == Dispatching && jobs[id].token == Some(token)
  }

  lemma VideoAnswers(jobs: Jobs, id: JobId, token: Token, x: Answer, account: Account, project: Project,
                     pollDelay: int, now: int)
    ensures var after := VideoSettled(jobs, id, token, x, account, project, pollDelay, now);
            && OnlyRow(jobs, after, id)
            && (Holds(jobs, id, token) ==> VideoAnswered(jobs[id], after[id], x, account, project, pollDelay, now))
            && (!(id in jobs && Active(jobs[id]) && jobs[id].token == Some(token)) ==> after == jobs)
  {
    forall code: Code, retryable, unknown { FailsOwn(jobs, id, token, code, retryable, unknown, now); }
    if x.Got? && x.reply.pollName.Some? {
      RunsOwn(jobs, id, token, account, project, x.reply.pollName.value, pollDelay, now);
    }
    hide MarkedFailed, MarkedRunning, OnlyRow;
  }

  lemma FailsOwn(jobs: Jobs, id: JobId, token: Token, code: Code, retryable: bool, unknown: bool, now: int)
    ensures var after := MarkedFailed(jobs, id, Some(token), code, retryable, unknown, now);
            && OnlyRow(jobs, after, id)
            && (Holds(jobs, id, token) ==> id in after && EndsFailed(jobs[id], after[id], code, retryable, unknown, now))
            && (!(id in jobs && Active(jobs[id]) && jobs[id].token == Some(token)) ==> after == jobs)
  {
  }

  /** Accepted, and then perhaps failed by an exception behind it. */
  lemma RunsOwn(jobs: Jobs, id: JobId, token: Token, account: Account, project: Project, name: PollName, pollDelay: int, now: int)
    ensures var running := MarkedRunning(jobs, id, Some(token), account, project, name, pollDelay, now);
            var failed := MarkedFailed(running, id, Some(token), VideoOutcomeUnknown, false, true, now);
            && OnlyRow(jobs, running, id) && OnlyRow(jobs, failed, id)
            && (Holds(jobs, id, token) ==>
                  && id in running && StartsRunning(jobs[id], running[id], account, project, name, pollDelay, now)
                  && id in failed && EndsFailed(running[id], failed[id], VideoOutcomeUnknown, false, true, now))
            && (!Holds(jobs, id, token) ==> running == jobs)
  {
  }

  lemma ImageAnswers(jobs: Jobs, id: JobId, token: Token, x: Answer, account: Account, project: Project, now: int)
    ensures var after := ImageSettled(jobs, id, token, x, account, project, now);
            && OnlyRow(jobs, after, id)
            && (Holds(jobs, id, token) ==> ImageAnswered(jobs[id], after[id], x, account, project, now))
            && (!(id in jobs && Active(jobs[id]) && jobs[id].token == Some(token)) ==> after == jobs)
  {
  }

  /**
   In every reachable state an answer changes the row of its own job only, by the
   table of its medium if the claim still holds and not at all otherwise.
   */
  lemma AnswersFollowTheTable(s: State, token: Token, x: Answer, account: Account, project: Project, pollDelay: int)
    requires Reachable(s) && AtPc(s, token, Sent)
    ensures var job := s.tasks[token].job;
            var after := Step(s, Respond(token, x, account, project, pollDelay)).jobs;
            && job in s.jobs && OnlyRow(s.jobs, after, job)
            && (!Holds(s.jobs, job, token) ==> after == s.jobs)
            && (Holds(s.jobs, job, token) && s.jobs[job].sub.media == Video ==>
                  VideoAnswered(s.jobs[job], after[job], x, account, project, pollDelay, s.now))
            && (Holds(s.jobs, job, token) && s.jobs[job].sub.media == Image ==>
                  ImageAnswered(s.jobs[job], after[job], x, account, project, s.now))
  {
    hide Reachable, Inv, Step, VideoSettled, ImageSettled, VideoAnswered, ImageAnswered, OnlyRow;
    ReachableOk(s);
    TaskIs(s, token);
    RespondStep(s, token, x, account, project, pollDelay);
    var job := s.tasks[token].job;
    VideoAnswers(s.jobs, job, token, x, account, project, pollDelay, s.now);
    ImageAnswers(s.jobs, job, token, x, account, project, s.now);
  }

  /** A video that was accepted runs under the account and project it was sent with, and is polled by its name. */
  lemma AcceptedVideoRuns(s: State, token: Token, name: PollName, status: int, account: Account, project: Project,
                          pollDelay: int, r: Reply)
    requires Reachable(s) && AtPc(s, token, Sent)
    requires var job := s.tasks[token].job;
             && job in s.jobs && s.jobs[job].status == Dispatching && s.jobs[job].token == Some(token)
             && s.jobs[job].sub.media == Video
    requires r.status == Some(status) && status < 400 && !r.hasError && r.pollName == Some(name) && !r.raisesAfter
    ensures var job := s.tasks[token].job;
            var after := Step(s, Respond(token, Got(r), account, project, pollDelay)).jobs;
            && job in after && after[job].status == Running
            && after[job].account == Some(account) && after[job].project == Some(project)
            && after[job].pollName == Some(name) && after[job].runningAt == Some(s.now)
            && after[job].nextPollAt == Some(if pollDelay > 0 then s.now + pollDelay else s.now)
            && after[job].token == Some(token) && after[job].claimedAt == None
            && after[job].pollAttempts == 0 && after[job].pollErrors == 0
  {
    hide Reachable, Inv, Step;
    AnswersFollowTheTable(s, token, Got(r), account, project, pollDelay);
  }

  /** A valid image answer completes the row with the account and project it was sent with. */
  lemma AcceptedImageCompletes(s: State, token: Token, status: int, account: Account, project: Project, pollDelay: int, r: Reply)
    requires Reachable(s) && AtPc(s, token, Sent)
    requires var job := s.tasks[token].job;
             && job in s.jobs && s.jobs[job].status == Dispatching && s.jobs[job].token == Some(token)
             && s.jobs[job].sub.media == Image
    requires r.status == Some(status) && status < 400 && !r.hasError && r.mediaValid
    ensures var job := s.tasks[token].job;
            var after := Step(s, Respond(token, Got(r), account, project, pollDelay)).jobs;
            && job in after && after[job].status == Completed
            && after[job].account == Some(account) && after[job].project == Some(project)
            && after[job].completedAt == Some(s.now) && after[job].token == None && after[job].claimedAt == None
  {
    hide Reachable, Inv, Step;
    AnswersFollowTheTable(s, token, Got(r), account, project, pollDelay);
  }

  /** What counts as a definite no: an integer status that is at least 400 or came with an error, and is not unclear. */
  lemma DefiniteNoExactly(x: Answer)
    ensures DefiniteNo(x) <==>
              && x.Got? && x.reply.status.Some?
              && (x.reply.status.value >= 400 || x.reply.hasError)
              && x.reply.status.value != 408 && x.reply.status.value != 425 && x.reply.status.value != 500
              && x.reply.status.value != 502 && x.reply.status.value != 503 && x.reply.status.value != 504
  {
  }

  /** While it owns its row, a video answer ends as a failure with a known outcome if and only if it was a definite no. */
  lemma VideoFlagExactly(s: State, token: Token, x: Answer, account: Account, project: Project, pollDelay: int)
    requires Reachable(s) && AtPc(s, token, Sent)
    requires var job := s.tasks[token].job; Holds(s.jobs, job, token) && s.jobs[job].sub.media == Video
    ensures var job := s.tasks[token].job;
            var after := Step(s, Respond(token, x, account, project, pollDelay)).jobs;
            && job in after
            && (after[job].status == Failed && !after[job].outcomeUnknown <==> DefiniteNo(x))
            && (after[job].status == Running <==>
                  x.Got? && x.reply.status.Some? && x.reply.status.value < 400 && !x.reply.hasError
                  && x.reply.pollName.Some? && !x.reply.raisesAfter)
            && after[job].status in {Failed, Running}
  {
    hide Reachable, Inv, Step;
    AnswersFollowTheTable(s, token, x, account, project, pollDelay);
    DefiniteNoExactly(x);
  }

  // ----- what the history records -----------------------------------------------------

  /**
   The records that the guarantees speak of are true to the steps: a send is one
   request of that coroutine's job, an answer is the one that came, and a poll
   verdict is a reported failure that a routed poll with errors to spare heard.
   */
  lemma HistoryIsExact(s: State, e: Event)
    ensures Step(s, e).h.sent ==
            if e.Send? && e.token in s.tasks && s.tasks[e.token].pc == Pc.Reserved
            then s.h.sent + multiset{s.tasks[e.token].job} else s.h.sent
    ensures Step(s, e).h.answers ==
            if e.Respond? && e.token in s.tasks && s.tasks[e.token].pc == Sent
            then s.h.answers[s.tasks[e.token].job := e.answer] else s.h.answers
    ensures Step(s, e).h.pollVerdicts ==
            if e.EndPoll? && e.id in s.polls && e.result.ReportedFailure?
               && s.polls[e.id].account.Some? && s.polls[e.id].pollName.Some? && s.polls[e.id].errors < 10
            then s.h.pollVerdicts + {e.id} else s.h.pollVerdicts
  {
    hide Inserted, Claimed, Released, MarkedFailed, Settled, Abandoned, Expired, PollsLeased, PollSettled,
         Pruned, Persisted, Touched, Without, IsJobSweep, IsOperationSweep, IsPollBatch, IsNext, PollSlots;
  }

  // ----- a video from start to end ------------------------------------------------------

  const CLIP := Submission(Video, None, {}, {}, None, None)

  const ACCEPTED := Got(Reply(Some(200), false, false, Some(5), true, false))

  lemma Enqueued(s: State)
    requires s.jobs == map[] && s.h.usedIds == {}
    ensures var t := Step(s, Enqueue(1, CLIP));
            && t.jobs.Keys == {1} && t.jobs[1].status == Queued && t.jobs[1].nextDispatchAt == None && t.jobs[1].sub == CLIP
            && t.h.usedTokens == s.h.usedTokens && t.h.sent == s.h.sent
            && t.tasks == s.tasks && t.polls == s.polls && t.now == s.now && t.cfg == s.cfg
  {
    hide NextRowid;
  }

  lemma ClaimedAndSent(s: State)
    requires s.jobs.Keys == {1} && s.jobs[1].status == Queued && s.jobs[1].nextDispatchAt == None && s.jobs[1].sub == CLIP
    requires s.h.usedTokens == {} && s.tasks == map[] && s.h.sent == multiset{}
    ensures var t := Step(Step(Step(s, Claim(1, 7)), Reserve(7)), Send(7));
            && t.jobs.Keys == {1} && t.jobs[1].status == Dispatching && t.jobs[1].token == Some(7) && t.jobs[1].sub == CLIP
            && t.tasks == map[7 := Task(1, Video, Sent)] && t.h.sent == multiset{1}
            && t.polls == s.polls && t.now == s.now && t.cfg == s.cfg
  {
    assert IsNext(s.jobs, s.now, 1);
    var a := Step(s, Claim(1, 7));
    assert a.jobs.Keys == {1} && a.jobs[1].status == Dispatching && a.jobs[1].token == Some(7) && a.jobs[1].sub == CLIP;
    assert a.tasks == map[7 := Task(1, Video, Holding)] && a.h.sent == multiset{};
    hide IsNext, Claimed;
    ReserveStep(a, 7);
    var b := Step(a, Reserve(7));
    SendStep(b, 7);
    assert Step(b, Send(7)).polls == s.polls && Step(b, Send(7)).cfg == s.cfg;
  }

  lemma Answered(s: State)
    requires s.jobs.Keys == {1} && s.jobs[1].status == Dispatching && s.jobs[1].token == Some(7) && s.jobs[1].sub == CLIP
    requires s.tasks == map[7 := Task(1, Video, Sent)] && s.polls == map[]
    ensures var t := Step(Step(s, Respond(7, ACCEPTED, 51, 9, 10)), Tick(10));
            && t.jobs.Keys == {1} && StartsRunning(s.jobs[1], t.jobs[1], 51, 9, 5, 10, s.now) && t.jobs[1].sub == CLIP
            && t.now == s.now + 10 && t.polls == map[] && t.h.sent == s.h.sent
  {
    RespondStep(s, 7, ACCEPTED, 51, 9, 10);
    VideoAnswers(s.jobs, 1, 7, ACCEPTED, 51, 9, 10, s.now);
    RespondKeepsPolls(s);
    var a := Step(s, Respond(7, ACCEPTED, 51, 9, 10));
    hide VideoSettled;
    assert a.jobs.Keys == {1} && StartsRunning(s.jobs[1], a.jobs[1], 51, 9, 5, 10, s.now);
    hide StartsRunning, Settled;
    Ticked(a);
  }

  lemma Ticked(s: State)
    ensures Step(s, Tick(10)) == s.(now := s.now + 10)
  {
  }

  lemma RespondKeepsPolls(s: State)
    ensures var t := Step(s, Respond(7, ACCEPTED, 51, 9, 10)); t.polls == s.polls && t.now == s.now
  {
    hide Settled;
  }

  lemma Polled(s: State)
    requires s.jobs.Keys == {1} && s.jobs[1].status == Running && s.jobs[1].sub == CLIP && s.polls == map[]
    requires s.jobs[1].account == Some(51) && s.jobs[1].project == Some(9) && s.jobs[1].pollName == Some(5)
    requires s.jobs[1].pollErrors == 0 && s.jobs[1].nextPollAt == Some(s.now)
    ensures var t := Step(s, StartPolls(None, {1}));
            && t.jobs.Keys == {1} && t.jobs[1].status == Running && t.jobs[1].account == Some(51) && t.jobs[1].project == Some(9)
            && t.polls.Keys == {1} && t.polls[1] == Snapshot(Some(51), Some(5), 0) && t.h.sent == s.h.sent
  {
    assert PollDue(s.jobs[1], s.now);
    assert PollSlots(s, None) >= 1;
    assert IsPollBatch(s.jobs, s.now, {}, PollSlots(s, None), {1});
    hide IsPollBatch, PollSlots;
  }

  /** Eight steps take a fresh video through claim, request, acceptance and polling to completion, sent once. */
  lemma VideoRunsToCompletion(cfg: Config)
    ensures var es := [Enqueue(1, CLIP), Claim(1, 7), Reserve(7), Send(7)]
                      + [Respond(7, ACCEPTED, 51, 9, 10), Tick(10), StartPolls(None, {1}), EndPoll(1, Finished, 0)];
            var s := Run(Init(cfg, 0), es);
            && s.h.sent == multiset{1} && s.polls == map[]
            && 1 in s.jobs && s.jobs[1].status == Completed && s.jobs[1].account == Some(51) && s.jobs[1].project == Some(9)
  {
    var s0 := Init(cfg, 0);
    var s1 := Step(s0, Enqueue(1, CLIP));
    Enqueued(s0);
    ClaimedAndSent(s1);
    var s4 := Step(Step(Step(s1, Claim(1, 7)), Reserve(7)), Send(7));
    Answered(s4);
    var s6 := Step(Step(s4, Respond(7, ACCEPTED, 51, 9, 10)), Tick(10));
    Polled(s6);
    var s7 := Step(s6, StartPolls(None, {1}));
    FinishedPoll(s7);
    hide Step, Init;
    var first := [Enqueue(1, CLIP), Claim(1, 7), Reserve(7), Send(7)];
    var rest := [Respond(7, ACCEPTED, 51, 9, 10), Tick(10), StartPolls(None, {1}), EndPoll(1, Finished, 0)];
    FourSteps(s0, Enqueue(1, CLIP), Claim(1, 7), Reserve(7), Send(7));
    FourSteps(s4, Respond(7, ACCEPTED, 51, 9, 10), Tick(10), StartPolls(None, {1}), EndPoll(1, Finished, 0));
    RunConcat(s0, first, rest);
  }

  lemma FourSteps(s: State, b: Event, c: Event, d: Event, e: Event)
    ensures Run(s, [b, c, d, e]) == Step(Step(Step(Step(s, b), c), d), e)
  {
    hide Step;
    assert [b, c, d, e][1..] == [c, d, e];
    ThreeSteps(Step(s, b), c, d, e);
  }

  lemma FinishedPoll(s: State)
    requires s.jobs.Keys == {1} && s.jobs[1].status == Running && s.jobs[1].account == Some(51) && s.jobs[1].project == Some(9)
    requires s.polls.Keys == {1} && s.polls[1] == Snapshot(Some(51), Some(5), 0)
    ensures var t := Step(s, EndPoll(1, Finished, 0));
            && t.h.sent == s.h.sent && t.polls == map[]
            && 1 in t.jobs && t.jobs[1].status == Completed && t.jobs[1].account == Some(51) && t.jobs[1].project == Some(9)
  {
  }
}
