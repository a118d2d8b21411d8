/**
 What every reachable state keeps, whatever the interleaving: rows are well
 formed, a generation request is sent at most once per job and per key, and a
 failure that claims a known outcome tells the truth.
 */
module ProtocolSafety {
  import opened Base
  import opened JobTable
  import opened AssetLibrary
  import opened Protocol

  // ----- the invariant ----------------------------------------------------------

  ghost predicate RowsOk(jobs: Jobs) {
    forall id | id in jobs :: RowOk(jobs[id])
  }

  /** No two rows share a rowid, a claim token or an idempotency key. */
  ghost predicate RowsDistinct(jobs: Jobs) {
    && (forall a, b | a in jobs && b in jobs && a != b :: jobs[a].rowid != jobs[b].rowid)
    && (forall a, b | a in jobs && b in jobs && a != b :: jobs[a].token.None? || jobs[a].token != jobs[b].token)
    && (forall a, b | a in jobs && b in jobs && a != b :: jobs[a].sub.key.None? || jobs[a].sub.key != jobs[b].sub.key)
  }

  ghost predicate NamesUsed(jobs: Jobs, h: History) {
    && (forall id | id in jobs :: id in h.usedIds)
    && (forall id | id in jobs && jobs[id].token.Some? :: jobs[id].token.value in h.usedTokens)
  }

  /** The lease ran out under a coroutine that is still alive. */
  predicate Lapsed(r: Row) { r.status == Failed && r.outcomeUnknown }

  ghost predicate TaskOk(jobs: Jobs, t: Task, token: Token, h: History) {
    && token in h.usedTokens
    && t.job in jobs
    && jobs[t.job].sub.media == t.media
    && (Owns(jobs, t.job, token) || Lapsed(jobs[t.job]))
    && h.sent[t.job] == (if t.pc == Sent then 1 else 0)
    && t.job !in h.answers
  }

  ghost predicate TasksOk(jobs: Jobs, tasks: map<Token, Task>, h: History) {
    && (forall token | token in tasks :: TaskOk(jobs, tasks[token], token, h))
    && forall a, b | a in tasks && b in tasks && a != b :: tasks[a].job != tasks[b].job
  }

  ghost predicate SentOk(jobs: Jobs, h: History) {
    && (forall id :: h.sent[id] <= 1)
    && (forall id | id in h.sent :: id in h.usedIds)
    && (forall id | id in h.answers :: id in h.sent)
    && (forall id | id in jobs && jobs[id].status == Queued :: id !in h.sent)
  }

  ghost predicate KeysOk(jobs: Jobs, h: History) {
    && (forall id | id in jobs && jobs[id].sub.key.Some? :: h.sentKeys[jobs[id].sub.key.value] == h.sent[id])
    && (forall k | k in h.sentKeys :: KeyTaken(jobs, Some(k)))
  }

  /** Why a failure may say that its outcome is known. */
  ghost predicate Justified(h: History, id: JobId, media: Media) {
    || id !in h.sent
    || (id in h.answers && DefiniteNo(h.answers[id]))
    || (media == Video && id in h.pollVerdicts)
    || (media == Image && id in h.answers && h.answers[id].Raised?)
  }

  predicate ClaimsKnown(r: Row) { r.status == Failed && !r.outcomeUnknown }

  ghost predicate HonestOk(jobs: Jobs, h: History) {
    forall id | id in jobs && ClaimsKnown(jobs[id]) :: Justified(h, id, jobs[id].sub.media)
  }

  predicate PastDispatch(r: Row) { r.status == Running || Terminal(r) }

  ghost predicate PollOk(jobs: Jobs, snap: Snapshot, id: JobId, h: History) {
    && id in h.usedIds
    && snap.account.Some? && snap.pollName.Some?
    && (id in jobs ==> PastDispatch(jobs[id]) && jobs[id].sub.media == Video)
    && (id in jobs && jobs[id].status == Running ==> snap.errors == jobs[id].pollErrors)
  }

  ghost predicate PollsOk(jobs: Jobs, polls: map<JobId, Snapshot>, h: History) {
    forall id | id in polls :: PollOk(jobs, polls[id], id, h)
  }

  ghost predicate Core(jobs: Jobs, tasks: map<Token, Task>, polls: map<JobId, Snapshot>, h: History) {
    && RowsOk(jobs) && RowsDistinct(jobs) && NamesUsed(jobs, h)
    && TasksOk(jobs, tasks, h) && SentOk(jobs, h) && KeysOk(jobs, h) && HonestOk(jobs, h)
    && PollsOk(jobs, polls, h)
  }

  ghost predicate Inv(s: State) {
    && Core(s.jobs, s.tasks, s.polls, s.h)
    && |s.polls| <= Max(1, s.cfg.pollCapacity)
  }

  // ----- changes that keep the rows in place ---------------------------------------

  /** The history may only learn more; what was sent stays the same. */
  ghost predicate Learns(h: History, k: History) {
    && h.usedIds <= k.usedIds && h.usedTokens <= k.usedTokens
    && h.sent == k.sent && h.sentKeys == k.sentKeys
    && (forall id | id in h.answers :: id in k.answers && k.answers[id] == h.answers[id])
    && (forall id | id in k.answers :: id in k.sent)
    && h.pollVerdicts <= k.pollVerdicts
  }

  /** Row id goes from a to b. `owner`: the live claim on it after the change, if any. */
  ghost predicate RowChange(a: Row, b: Row, id: JobId, polled: bool, k: History) {
    && RowOk(b) && b.sub == a.sub && b.rowid == a.rowid && (b.token == a.token || b.token.None?)
    && (b.status == Queued && a.status != Queued ==> id !in k.sent)
    && (ClaimsKnown(b) && a != b ==> Justified(k, id, b.sub.media))
    && (polled && PastDispatch(a) ==> PastDispatch(b))
    && (polled && b.status == Running ==> a.status == Running && b.pollErrors == a.pollErrors)
  }

  ghost predicate TableChange(jobs: Jobs, after: Jobs, polls: map<JobId, Snapshot>, k: History) {
    && after.Keys == jobs.Keys
    && forall id | id in after :: RowChange(jobs[id], after[id], id, id in polls, k)
  }

  ghost predicate TasksSurvive(after: Jobs, tasks: map<Token, Task>, rest: map<Token, Task>, k: History) {
    && (forall t | t in rest :: t in tasks && rest[t].job == tasks[t].job && rest[t].media == tasks[t].media)
    && (forall t | t in rest :: (rest[t].pc == Sent <==> tasks[t].pc == Sent) && rest[t].job !in k.answers)
    && (forall t | t in rest :: rest[t].job in after && (Owns(after, rest[t].job, t) || Lapsed(after[rest[t].job])))
  }

  lemma ChangeKeepsTable(jobs: Jobs, after: Jobs, polls: map<JobId, Snapshot>, h: History, k: History)
    requires RowsOk(jobs) && RowsDistinct(jobs) && NamesUsed(jobs, h)
    requires TableChange(jobs, after, polls, k) && Learns(h, k)
    ensures RowsOk(after) && RowsDistinct(after) && NamesUsed(after, k)
  {
    forall a, b | a in after && b in after && a != b
      ensures after[a].rowid != after[b].rowid
      ensures after[a].token.None? || after[a].token != after[b].token
      ensures after[a].sub.key.None? || after[a].sub.key != after[b].sub.key
    {
      assert RowChange(jobs[a], after[a], a, a in polls, k) && RowChange(jobs[b], after[b], b, b in polls, k);
    }
  }

  lemma ChangeKeepsSends(jobs: Jobs, after: Jobs, polls: map<JobId, Snapshot>, h: History, k: History)
    requires SentOk(jobs, h) && KeysOk(jobs, h) && HonestOk(jobs, h)
    requires TableChange(jobs, after, polls, k) && Learns(h, k)
    ensures SentOk(after, k) && KeysOk(after, k) && HonestOk(after, k)
  {
    forall id | id in k.sentKeys ensures KeyTaken(after, Some(id)) {
      var o :| o in jobs && jobs[o].sub.key == Some(id);
      assert RowChange(jobs[o], after[o], o, o in polls, k);
    }
    forall id | id in after && ClaimsKnown(after[id])
      ensures Justified(k, id, after[id].sub.media)
    {
      assert RowChange(jobs[id], after[id], id, id in polls, k);
      if after[id] == jobs[id] {
        assert Justified(h, id, jobs[id].sub.media);
      }
    }
  }

  lemma ChangeKeepsTasks(jobs: Jobs, after: Jobs, tasks: map<Token, Task>, rest: map<Token, Task>,
                         polls: map<JobId, Snapshot>, h: History, k: History)
    requires TasksOk(jobs, tasks, h)
    requires TableChange(jobs, after, polls, k) && Learns(h, k) && TasksSurvive(after, tasks, rest, k)
    ensures TasksOk(after, rest, k)
  {
    forall token | token in rest ensures TaskOk(after, rest[token], token, k) {
      assert TaskOk(jobs, tasks[token], token, h);
      assert RowChange(jobs[rest[token].job], after[rest[token].job], rest[token].job, rest[token].job in polls, k);
    }
  }

  lemma ChangeKeepsPolls(jobs: Jobs, after: Jobs, polls: map<JobId, Snapshot>, h: History, k: History)
    requires PollsOk(jobs, polls, h)
    requires TableChange(jobs, after, polls, k) && Learns(h, k)
    ensures PollsOk(after, polls, k)
  {
    forall id | id in polls ensures PollOk(after, polls[id], id, k) {
      assert PollOk(jobs, polls[id], id, h);
      if id in after {
        assert RowChange(jobs[id], after[id], id, true, k);
      }
    }
  }

  /** The workhorse: any such change keeps the whole invariant. */
  lemma ChangeKeeps(jobs: Jobs, after: Jobs, tasks: map<Token, Task>, rest: map<Token, Task>,
                    polls: map<JobId, Snapshot>, fewer: map<JobId, Snapshot>, h: History, k: History)
    requires Core(jobs, tasks, polls, h)
    requires forall id | id in fewer :: id in polls && fewer[id] == polls[id]
    requires TableChange(jobs, after, fewer, k) && Learns(h, k) && TasksSurvive(after, tasks, rest, k)
    ensures Core(after, rest, fewer, k)
  {
    ChangeKeepsTable(jobs, after, fewer, h, k);
    ChangeKeepsSends(jobs, after, fewer, h, k);
    ChangeKeepsTasks(jobs, after, tasks, rest, fewer, h, k);
    assert PollsOk(jobs, fewer, h);
    ChangeKeepsPolls(jobs, after, fewer, h, k);
  }

  /** One coroutine writes its own row and ends. */
  lemma OwnWriteKeeps(s: State, token: Token, after: Jobs, k: History)
    requires Inv(s) && token in s.tasks && Learns(s.h, k)
    requires after.Keys == s.jobs.Keys
    requires var job := s.tasks[token].job;
             && (forall id | id in after && id != job :: after[id] == s.jobs[id])
             && (forall id | id in k.answers :: id in s.h.answers || id == job)
             && (after[job] != s.jobs[job] ==>
                   Owns(s.jobs, job, token) && RowChange(s.jobs[job], after[job], job, false, k))
    ensures Core(after, Finish(s, token), s.polls, k)
  {
    var job := s.tasks[token].job;
    assert TaskOk(s.jobs, s.tasks[token], token, s.h);
    forall id | id in after ensures RowChange(s.jobs[id], after[id], id, id in s.polls, k) {
      assert RowOk(s.jobs[id]);
      if id in s.polls {
        assert PollOk(s.jobs, s.polls[id], id, s.h);
      }
    }
    forall t | t in Finish(s, token)
      ensures Owns(after, s.tasks[t].job, t) || Lapsed(after[s.tasks[t].job])
      ensures s.tasks[t].job in after && s.tasks[t].job !in k.answers
    {
      assert TaskOk(s.jobs, s.tasks[t], t, s.h);
      assert s.tasks[t].job != job;
    }
    ChangeKeeps(s.jobs, after, s.tasks, Finish(s, token), s.polls, s.polls, s.h, k);
  }

  // ----- preservation, event by event ------------------------------------------------

  lemma TaskIs(s: State, token: Token)
    requires Inv(s) && token in s.tasks
    ensures TaskOk(s.jobs, s.tasks[token], token, s.h)
    ensures RowOk(s.jobs[s.tasks[token].job])
    ensures Learns(s.h, s.h)
  {
  }

  lemma ReleaseKeeps(s: State, token: Token, delay: int)
    requires Inv(s) && AtPc(s, token, Holding)
    ensures Core(Released(s.jobs, s.tasks[token].job, token, delay, s.now), Finish(s, token), s.polls, s.h)
  {
    hide Core, Inv;
    TaskIs(s, token);
    OwnWriteKeeps(s, token, Released(s.jobs, s.tasks[token].job, token, delay, s.now), s.h);
  }

  lemma RejectKeeps(s: State, token: Token, code: Code, retryable: bool)
    requires Inv(s) && BeforeSending(s, token)
    ensures Core(MarkedFailed(s.jobs, s.tasks[token].job, Some(token), code, retryable, false, s.now),
                 Finish(s, token), s.polls, s.h)
  {
    hide Core, Inv;
    TaskIs(s, token);
    OwnWriteKeeps(s, token, MarkedFailed(s.jobs, s.tasks[token].job, Some(token), code, retryable, false, s.now), s.h);
  }

  function Answered(h: History, job: JobId, a: Answer): History { h.(answers := h.answers[job := a]) }

  /** What settling an answer may do to its row. */
  ghost predicate SettlesOwnRow(s: State, token: Token, after: Jobs, k: History)
    requires token in s.tasks
  {
    var job := s.tasks[token].job;
    && after.Keys == s.jobs.Keys
    && (forall id | id in after && id != job :: after[id] == s.jobs[id])
    && (job in after && after[job] != s.jobs[job] ==>
          Owns(s.jobs, job, token) && RowChange(s.jobs[job], after[job], job, false, k))
  }

  lemma VideoSettlesOwnRow(s: State, token: Token, a: Answer, account: Account, project: Project, pollDelay: int)
    requires Inv(s) && AtPc(s, token, Sent) && s.tasks[token].media == Video
    ensures var job := s.tasks[token].job;
            SettlesOwnRow(s, token, VideoSettled(s.jobs, job, token, a, account, project, pollDelay, s.now),
                          Answered(s.h, job, a))
  {
    hide Core, Inv;
    TaskIs(s, token);
  }

  lemma ImageSettlesOwnRow(s: State, token: Token, a: Answer, account: Account, project: Project)
    requires Inv(s) && AtPc(s, token, Sent) && s.tasks[token].media == Image
    ensures var job := s.tasks[token].job;
            SettlesOwnRow(s, token, ImageSettled(s.jobs, job, token, a, account, project, s.now), Answered(s.h, job, a))
  {
    hide Core, Inv;
    TaskIs(s, token);
  }

  lemma RespondKeeps(s: State, token: Token, a: Answer, account: Account, project: Project, pollDelay: int)
    requires Inv(s) && AtPc(s, token, Sent)
    ensures Core(Settled(s.jobs, s.tasks[token], token, a, account, project, pollDelay, s.now),
                 Finish(s, token), s.polls, Answered(s.h, s.tasks[token].job, a))
  {
    hide Core, Inv, VideoSettled, ImageSettled, RowChange;
    TaskIs(s, token);
    if s.tasks[token].media == Video {
      VideoSettlesOwnRow(s, token, a, account, project, pollDelay);
    } else {
      ImageSettlesOwnRow(s, token, a, account, project);
    }
    OwnWriteKeeps(s, token, Settled(s.jobs, s.tasks[token], token, a, account, project, pollDelay, s.now),
                  Answered(s.h, s.tasks[token].job, a));
  }

  /** Coroutines that disappear leave the rest as it was. */
  lemma FewerKeeps(jobs: Jobs, tasks: map<Token, Task>, rest: map<Token, Task>,
                   polls: map<JobId, Snapshot>, fewer: map<JobId, Snapshot>, h: History)
    requires Core(jobs, tasks, polls, h)
    requires forall t | t in rest :: t in tasks && rest[t] == tasks[t]
    requires forall id | id in fewer :: id in polls && fewer[id] == polls[id]
    ensures Core(jobs, rest, fewer, h)
  {
    hide RowsOk, RowsDistinct, NamesUsed, SentOk, KeysOk, HonestOk, TaskOk, PollOk;
  }

  lemma DropTasksKeeps(s: State, e: Event)
    requires Inv(s) && (e.Crash? || (e.Cancel? && e.token in s.tasks))
    ensures Inv(Effect(s, e))
  {
    hide Core;
    var t := Effect(s, e);
    FewerKeeps(s.jobs, s.tasks, t.tasks, s.polls, t.polls, s.h);
  }

  lemma ReserveKeeps(s: State, token: Token)
    requires Inv(s) && AtPc(s, token, Holding)
    ensures Inv(Effect(s, Reserve(token)))
  {
    var t := Effect(s, Reserve(token));
    forall x | x in t.tasks ensures TaskOk(t.jobs, t.tasks[x], x, t.h) {
      assert TaskOk(s.jobs, s.tasks[x], x, s.h);
    }
  }

  lemma RowIs(s: State, id: JobId)
    requires Inv(s) && id in s.jobs
    ensures RowOk(s.jobs[id])
    ensures id in s.h.usedIds
    ensures s.jobs[id].status == Queued ==> id !in s.h.sent
    ensures ClaimsKnown(s.jobs[id]) ==> Justified(s.h, id, s.jobs[id].sub.media)
  {
  }

  /** Both sweeps rewrite rows in place without touching the history. */
  lemma SweepKeeps(s: State, after: Jobs)
    requires Inv(s) && after.Keys == s.jobs.Keys
    requires forall id | id in after && after[id] != s.jobs[id] ::
               && RowChange(s.jobs[id], after[id], id, true, s.h)
               && (Lapsed(after[id]) || s.jobs[id].status == Queued)
    ensures Core(after, s.tasks, s.polls, s.h)
  {
    hide Core, Inv;
    InvIsCore(s);
    LearnsSelf(s);
    forall id | id in after ensures RowChange(s.jobs[id], after[id], id, id in s.polls, s.h) {
      RowIs(s, id);
    }
    forall token | token in s.tasks
      ensures s.tasks[token].job in after && s.tasks[token].job !in s.h.answers
      ensures Owns(after, s.tasks[token].job, token) || Lapsed(after[s.tasks[token].job])
    {
      TaskIs(s, token);
    }
    ChangeKeeps(s.jobs, after, s.tasks, s.tasks, s.polls, s.polls, s.h, s.h);
  }

  lemma AbandonKeeps(s: State)
    requires Inv(s)
    ensures Core(Abandoned(s.jobs, s.cfg.lease, s.now), s.tasks, s.polls, s.h)
  {
    hide Core, Inv;
    var after := Abandoned(s.jobs, s.cfg.lease, s.now);
    forall id | id in after && after[id] != s.jobs[id]
      ensures RowChange(s.jobs[id], after[id], id, true, s.h)
      ensures Lapsed(after[id]) || s.jobs[id].status == Queued
    {
      RowIs(s, id);
    }
    SweepKeeps(s, after);
  }

  lemma ExpireKeeps(s: State, only: Option<JobId>)
    requires Inv(s)
    ensures Core(Expired(s.jobs, s.cfg.limits, only, s.now), s.tasks, s.polls, s.h)
  {
    hide Core, Inv;
    var after := Expired(s.jobs, s.cfg.limits, only, s.now);
    forall id | id in after && after[id] != s.jobs[id]
      ensures RowChange(s.jobs[id], after[id], id, true, s.h)
      ensures Lapsed(after[id]) || s.jobs[id].status == Queued
    {
      RowIs(s, id);
    }
    SweepKeeps(s, after);
  }

  lemma PollIs(s: State, id: JobId)
    requires Inv(s) && id in s.polls
    ensures PollOk(s.jobs, s.polls[id], id, s.h)
  {
  }

  function Heard(h: History, id: JobId, snap: Snapshot, result: PollResult): History {
    if HeardFailure(snap, result) then h.(pollVerdicts := h.pollVerdicts + {id}) else h
  }

  /** A poll writes one running row, and only under its own snapshot's count. */
  lemma PolledRow(s: State, id: JobId, result: PollResult, delay: int)
    requires Inv(s) && id in s.polls
    ensures var after := PollSettled(s.jobs, id, s.polls[id], result, delay, s.now);
            && after.Keys == s.jobs.Keys
            && (forall o | o in after && o != id :: after[o] == s.jobs[o])
            && (id in after && after[id] != s.jobs[id] ==>
                  && s.jobs[id].status == Running
                  && RowChange(s.jobs[id], after[id], id, false, Heard(s.h, id, s.polls[id], result)))
  {
    hide Core, Inv, RowChange, PollSettled, RowOk;
    PollIs(s, id);
    if id in s.jobs {
      RowIs(s, id);
      PolledRowChange(s.jobs, id, s.polls[id], result, delay, s.now, s.h);
    }
    PollTouchesOne(s.jobs, id, s.polls[id], result, delay, s.now);
  }

  lemma PollTouchesOne(jobs: Jobs, id: JobId, snap: Snapshot, result: PollResult, delay: int, now: int)
    ensures var after := PollSettled(jobs, id, snap, result, delay, now);
            && after.Keys == jobs.Keys
            && (forall o | o in after && o != id :: after[o] == jobs[o])
            && (id in after && after[id] != jobs[id] ==> Active(jobs[id]))
  {
  }

  lemma PolledRowChange(jobs: Jobs, id: JobId, snap: Snapshot, result: PollResult, delay: int, now: int, h: History)
    requires id in jobs && RowOk(jobs[id]) && PollOk(jobs, snap, id, h)
    ensures var after := PollSettled(jobs, id, snap, result, delay, now);
            id in after && after[id] != jobs[id] ==>
              && jobs[id].status == Running
              && RowChange(jobs[id], after[id], id, false, Heard(h, id, snap, result))
  {
  }

  /** A write to one row that no live coroutine owns. */
  lemma PollWriteKeeps(s: State, id: JobId, after: Jobs, k: History)
    requires Inv(s) && id in s.polls && Learns(s.h, k) && k.answers == s.h.answers
    requires after.Keys == s.jobs.Keys
    requires forall o | o in after && o != id :: after[o] == s.jobs[o]
    requires id in after && after[id] != s.jobs[id] ==>
               s.jobs[id].status == Running && RowChange(s.jobs[id], after[id], id, false, k)
    ensures Core(after, s.tasks, Without(s.polls, {id}), k)
  {
    hide Core, Inv;
    InvIsCore(s);
    var fewer := Without(s.polls, {id});
    forall o | o in after ensures RowChange(s.jobs[o], after[o], o, o in fewer, k) {
      RowIs(s, o);
    }
    forall token | token in s.tasks
      ensures s.tasks[token].job in after && s.tasks[token].job !in k.answers
      ensures Owns(after, s.tasks[token].job, token) || Lapsed(after[s.tasks[token].job])
    {
      TaskIs(s, token);
    }
    ChangeKeeps(s.jobs, after, s.tasks, s.tasks, s.polls, fewer, s.h, k);
  }

  lemma EndPollKeeps(s: State, id: JobId, result: PollResult, delay: int)
    requires Inv(s) && id in s.polls
    ensures Core(PollSettled(s.jobs, id, s.polls[id], result, delay, s.now), s.tasks,
                 Without(s.polls, {id}), Heard(s.h, id, s.polls[id], result))
    ensures |Without(s.polls, {id})| <= |s.polls|
  {
    hide Core, PollSettled, RowChange;
    PolledRow(s, id, result, delay);
    assert Learns(s.h, Heard(s.h, id, s.polls[id], result)) by {
      LearnsSelf(s);
    }
    PollWriteKeeps(s, id, PollSettled(s.jobs, id, s.polls[id], result, delay, s.now),
                   Heard(s.h, id, s.polls[id], result));
    Cardinality(Without(s.polls, {id}).Keys, s.polls.Keys);
  }

  lemma LearnsSelf(s: State)
    requires Inv(s)
    ensures Learns(s.h, s.h)
  {
  }

  function Started(s: State, ids: set<JobId>): map<JobId, Snapshot> {
    var leased := PollsLeased(s.jobs, ids, s.cfg.pollLease, s.now);
    s.polls + map id | id in ids && id in leased :: Snap(leased[id])
  }

  /** Leasing a poll only moves the next poll time, so every row keeps its standing. */
  lemma LeaseKeeps(s: State, ids: set<JobId>)
    requires Inv(s)
    ensures Core(PollsLeased(s.jobs, ids, s.cfg.pollLease, s.now), s.tasks, s.polls, s.h)
  {
    hide Core, Inv;
    InvIsCore(s);
    LearnsSelf(s);
    var after := PollsLeased(s.jobs, ids, s.cfg.pollLease, s.now);
    forall id | id in after ensures RowChange(s.jobs[id], after[id], id, id in s.polls, s.h) {
      RowIs(s, id);
    }
    forall token | token in s.tasks
      ensures s.tasks[token].job in after && s.tasks[token].job !in s.h.answers
      ensures Owns(after, s.tasks[token].job, token) || Lapsed(after[s.tasks[token].job])
    {
      TaskIs(s, token);
    }
    ChangeKeeps(s.jobs, after, s.tasks, s.tasks, s.polls, s.polls, s.h, s.h);
  }

  lemma InvIsCore(s: State)
    requires Inv(s)
    ensures Core(s.jobs, s.tasks, s.polls, s.h)
  {
  }

  lemma StartPollsKeeps(s: State, limit: Option<nat>, ids: set<JobId>)
    requires Inv(s) && PollSlots(s, limit) > 0
    requires IsPollBatch(s.jobs, s.now, s.polls.Keys, PollSlots(s, limit), ids)
    ensures Core(PollsLeased(s.jobs, ids, s.cfg.pollLease, s.now), s.tasks, Started(s, ids), s.h)
    ensures |Started(s, ids)| <= Max(1, s.cfg.pollCapacity)
  {
    hide Core, PollsLeased, PollDue;
    LeaseKeeps(s, ids);
    StartedPollsOk(s, ids);
    CorePolls(PollsLeased(s.jobs, ids, s.cfg.pollLease, s.now), s.tasks, s.polls, Started(s, ids), s.h);
    StartedKeys(s, ids);
    hide Started;
    assert |Started(s, ids).Keys| == |s.polls.Keys| + |ids|;
  }

  lemma StartedKeys(s: State, ids: set<JobId>)
    requires ids <= s.jobs.Keys
    ensures Started(s, ids).Keys == s.polls.Keys + ids
  {
  }

  lemma CorePolls(jobs: Jobs, tasks: map<Token, Task>, polls: map<JobId, Snapshot>, more: map<JobId, Snapshot>, h: History)
    requires Core(jobs, tasks, polls, h) && PollsOk(jobs, more, h)
    ensures Core(jobs, tasks, more, h)
  {
  }

  lemma StartedPollsOk(s: State, ids: set<JobId>)
    requires Inv(s)
    requires forall id | id in ids :: id in s.jobs && PollDue(s.jobs[id], s.now) && id !in s.polls
    ensures PollsOk(PollsLeased(s.jobs, ids, s.cfg.pollLease, s.now), Started(s, ids), s.h)
  {
    hide Core, Inv;
    var after := PollsLeased(s.jobs, ids, s.cfg.pollLease, s.now);
    var polls := Started(s, ids);
    forall id | id in polls ensures PollOk(after, polls[id], id, s.h) {
      if id in s.polls {
        PollIs(s, id);
      } else {
        RowIs(s, id);
      }
    }
  }

  lemma NameClaim(h: History, token: Token, k: History)
    requires k == h.(usedTokens := h.usedTokens + {token})
    ensures forall id, m | Justified(h, id, m) :: Justified(k, id, m)
  {
  }

  lemma ClaimKeepsTable(s: State, id: JobId, token: Token, k: History)
    requires Inv(s) && id in s.jobs && s.jobs[id].status == Queued && token !in s.h.usedTokens
    requires k == s.h.(usedTokens := s.h.usedTokens + {token})
    ensures var after := Claimed(s.jobs, id, token, s.now);
            RowsOk(after) && RowsDistinct(after) && NamesUsed(after, k)
  {
    hide TasksOk, KeysOk, PollsOk, SentOk, HonestOk;
    assert RowOk(s.jobs[id]);
  }

  lemma ClaimKeepsTruth(s: State, id: JobId, token: Token, k: History)
    requires Inv(s) && id in s.jobs && s.jobs[id].status == Queued
    requires k == s.h.(usedTokens := s.h.usedTokens + {token})
    ensures SentOk(Claimed(s.jobs, id, token, s.now), k) && HonestOk(Claimed(s.jobs, id, token, s.now), k)
  {
    hide TasksOk, KeysOk, PollsOk, RowsOk, RowsDistinct, NamesUsed;
    NameClaim(s.h, token, k);
    var after := Claimed(s.jobs, id, token, s.now);
    forall o | o in after && ClaimsKnown(after[o]) ensures Justified(k, o, after[o].sub.media) {
      assert Justified(s.h, o, s.jobs[o].sub.media);
    }
  }

  function Dispatched(s: State, id: JobId, token: Token): map<Token, Task>
    requires id in s.jobs
  {
    s.tasks[token := Task(id, s.jobs[id].sub.media, Holding)]
  }

  lemma ClaimKeepsTasks(s: State, id: JobId, token: Token, k: History)
    requires Inv(s) && id in s.jobs && s.jobs[id].status == Queued && token !in s.h.usedTokens
    requires k == s.h.(usedTokens := s.h.usedTokens + {token})
    ensures TasksOk(Claimed(s.jobs, id, token, s.now), Dispatched(s, id, token), k)
  {
    hide RowsDistinct, NamesUsed, KeysOk, HonestOk, PollsOk;
    var after := Claimed(s.jobs, id, token, s.now);
    var tasks := Dispatched(s, id, token);
    forall a | a in tasks
      ensures TaskOk(after, tasks[a], a, k)
      ensures a != token ==> tasks[a].job != id
    {
      if a != token {
        assert TaskOk(s.jobs, s.tasks[a], a, s.h);
      }
    }
  }

  /** A key stays taken while no row loses its submission. */
  lemma KeyStaysTaken(jobs: Jobs, after: Jobs, key: Option<Key>)
    requires forall o | o in jobs :: o in after && after[o].sub == jobs[o].sub
    requires KeyTaken(jobs, key)
    ensures KeyTaken(after, key)
  {
    var o :| o in jobs && jobs[o].sub.key == key;
    assert after[o].sub.key == key;
  }

  lemma ClaimKeepsKeys(jobs: Jobs, id: JobId, token: Token, now: int, h: History, k: History)
    requires KeysOk(jobs, h) && k.sent == h.sent && k.sentKeys == h.sentKeys
    ensures KeysOk(Claimed(jobs, id, token, now), k)
  {
    hide KeyTaken;
    var after := Claimed(jobs, id, token, now);
    forall q | q in k.sentKeys ensures KeyTaken(after, Some(q)) {
      KeyStaysTaken(jobs, after, Some(q));
    }
  }

  lemma ClaimKeepsPolls(jobs: Jobs, id: JobId, token: Token, now: int, polls: map<JobId, Snapshot>, h: History, k: History)
    requires PollsOk(jobs, polls, h) && h.usedIds <= k.usedIds
    ensures PollsOk(Claimed(jobs, id, token, now), polls, k)
  {
    var after := Claimed(jobs, id, token, now);
    forall o | o in polls ensures PollOk(after, polls[o], o, k) {
      assert PollOk(jobs, polls[o], o, h);
    }
  }

  lemma ClaimKeeps(s: State, id: JobId, token: Token, k: History)
    requires Inv(s) && id in s.jobs && s.jobs[id].status == Queued && token !in s.h.usedTokens
    requires k == s.h.(usedTokens := s.h.usedTokens + {token})
    ensures Core(Claimed(s.jobs, id, token, s.now), Dispatched(s, id, token), s.polls, k)
  {
    hide RowsOk, RowsDistinct, NamesUsed, TasksOk, SentOk, KeysOk, HonestOk, PollsOk, Claimed, Dispatched;
    ClaimKeepsTable(s, id, token, k);
    ClaimKeepsTruth(s, id, token, k);
    ClaimKeepsTasks(s, id, token, k);
    ClaimKeepsKeys(s.jobs, id, token, s.now, s.h, k);
    ClaimKeepsPolls(s.jobs, id, token, s.now, s.polls, s.h, k);
  }

  function Sending(s: State, token: Token): map<Token, Task>
    requires token in s.tasks
  {
    s.tasks[token := s.tasks[token].(pc := Sent)]
  }

  function SentFor(s: State, job: JobId): History {
    s.h.(sent := s.h.sent + multiset{job},
         sentKeys := if job in s.jobs && s.jobs[job].sub.key.Some?
                     then s.h.sentKeys + multiset{s.jobs[job].sub.key.value} else s.h.sentKeys)
  }

  lemma SendKeepsTasks(s: State, token: Token)
    requires Inv(s) && AtPc(s, token, Reserved)
    ensures TasksOk(s.jobs, Sending(s, token), SentFor(s, s.tasks[token].job))
    ensures SentOk(s.jobs, SentFor(s, s.tasks[token].job))
    ensures PollsOk(s.jobs, s.polls, SentFor(s, s.tasks[token].job))
    ensures NamesUsed(s.jobs, SentFor(s, s.tasks[token].job))
  {
    hide RowsDistinct, KeysOk, HonestOk;
    var job := s.tasks[token].job;
    var k := SentFor(s, job);
    TaskIs(s, token);
    forall a | a in Sending(s, token) ensures TaskOk(s.jobs, Sending(s, token)[a], a, k) {
      assert TaskOk(s.jobs, s.tasks[a], a, s.h);
    }
    forall o | o in s.polls ensures PollOk(s.jobs, s.polls[o], o, k) {
      assert PollOk(s.jobs, s.polls[o], o, s.h);
    }
  }

  lemma SendKeepsTruth(s: State, token: Token)
    requires Inv(s) && AtPc(s, token, Reserved)
    ensures HonestOk(s.jobs, SentFor(s, s.tasks[token].job))
  {
    hide NamesUsed, TasksOk, PollsOk, KeysOk, RowsDistinct;
    var job := s.tasks[token].job;
    var k := SentFor(s, job);
    TaskIs(s, token);
    forall id | id in s.jobs && ClaimsKnown(s.jobs[id]) ensures Justified(k, id, s.jobs[id].sub.media) {
      assert Justified(s.h, id, s.jobs[id].sub.media);
    }
  }

  lemma SendKeepsKeys(s: State, token: Token)
    requires Inv(s) && AtPc(s, token, Reserved)
    ensures KeysOk(s.jobs, SentFor(s, s.tasks[token].job))
  {
    hide NamesUsed, TasksOk, PollsOk, HonestOk, SentOk, KeyTaken;
    var job := s.tasks[token].job;
    var k := SentFor(s, job);
    TaskIs(s, token);
    forall id | id in s.jobs && s.jobs[id].sub.key.Some?
      ensures k.sentKeys[s.jobs[id].sub.key.value] == k.sent[id]
    {
      assert id != job ==> s.jobs[job].sub.key.None? || s.jobs[id].sub.key != s.jobs[job].sub.key;
    }
    forall q | q in k.sentKeys ensures KeyTaken(s.jobs, Some(q)) {
      if q !in s.h.sentKeys {
        KeyIsTaken(s.jobs, job, q);
      }
    }
  }

  lemma KeyIsTaken(jobs: Jobs, id: JobId, q: Key)
    requires id in jobs && jobs[id].sub.key == Some(q)
    ensures KeyTaken(jobs, Some(q))
  {
  }

  lemma SendKeeps(s: State, token: Token)
    requires Inv(s) && AtPc(s, token, Reserved)
    ensures Core(s.jobs, Sending(s, token), s.polls, SentFor(s, s.tasks[token].job))
  {
    hide RowsOk, RowsDistinct, NamesUsed, TasksOk, SentOk, KeysOk, HonestOk, PollsOk, Sending, SentFor;
    SendKeepsTasks(s, token);
    SendKeepsTruth(s, token);
    SendKeepsKeys(s, token);
  }

  function Named(h: History, id: JobId): History { h.(usedIds := h.usedIds + {id}) }

  lemma EnqueueKeepsTable(s: State, id: JobId, sub: Submission)
    requires Inv(s) && id !in s.h.usedIds
    ensures var after := Inserted(s.jobs, id, sub, s.now);
            RowsOk(after) && RowsDistinct(after) && NamesUsed(after, Named(s.h, id))
  {
    hide TasksOk, SentOk, KeysOk, HonestOk, PollsOk;
    var after := Inserted(s.jobs, id, sub, s.now);
    assert id !in s.jobs;
    if id in after {
      forall o | o in s.jobs ensures s.jobs[o].rowid != after[id].rowid {
        assert s.jobs[o].rowid in Rowids(s.jobs);
      }
    }
  }

  lemma EnqueueKeepsHistory(s: State, id: JobId, sub: Submission)
    requires Inv(s) && id !in s.h.usedIds
    ensures var after := Inserted(s.jobs, id, sub, s.now);
            SentOk(after, Named(s.h, id)) && HonestOk(after, Named(s.h, id))
  {
    hide RowsOk, RowsDistinct, TasksOk, KeysOk, PollsOk, KeyTaken, NextRowid;
    var after := Inserted(s.jobs, id, sub, s.now);
    var k := Named(s.h, id);
    assert id !in s.h.sent;
    forall o | o in after && ClaimsKnown(after[o]) ensures Justified(k, o, after[o].sub.media) {
      assert Justified(s.h, o, s.jobs[o].sub.media);
    }
  }

  lemma EnqueueKeepsKeys(s: State, id: JobId, sub: Submission)
    requires Inv(s) && id !in s.h.usedIds
    ensures KeysOk(Inserted(s.jobs, id, sub, s.now), Named(s.h, id))
  {
    hide RowsOk, RowsDistinct, TasksOk, HonestOk, PollsOk, NextRowid;
    var after := Inserted(s.jobs, id, sub, s.now);
    var k := Named(s.h, id);
    assert id !in s.jobs && id !in s.h.sent;
    forall q | q in k.sentKeys ensures KeyTaken(after, Some(q)) {
      var o :| o in s.jobs && s.jobs[o].sub.key == Some(q);
      assert after[o].sub.key == Some(q);
    }
    assert sub.key.Some? && sub.key.value in s.h.sentKeys ==> KeyTaken(s.jobs, sub.key);
  }

  lemma EnqueueKeepsOthers(s: State, id: JobId, sub: Submission)
    requires Inv(s) && id !in s.h.usedIds
    ensures TasksOk(Inserted(s.jobs, id, sub, s.now), s.tasks, Named(s.h, id))
    ensures PollsOk(Inserted(s.jobs, id, sub, s.now), s.polls, Named(s.h, id))
  {
    hide RowsDistinct, KeysOk, HonestOk;
    var after := Inserted(s.jobs, id, sub, s.now);
    var k := Named(s.h, id);
    forall a | a in s.tasks ensures TaskOk(after, s.tasks[a], a, k) {
      assert TaskOk(s.jobs, s.tasks[a], a, s.h);
    }
    forall o | o in s.polls ensures PollOk(after, s.polls[o], o, k) {
      assert PollOk(s.jobs, s.polls[o], o, s.h);
    }
  }

  lemma EnqueueKeeps(s: State, id: JobId, sub: Submission)
    requires Inv(s) && id !in s.h.usedIds
    ensures Core(Inserted(s.jobs, id, sub, s.now), s.tasks, s.polls, Named(s.h, id))
  {
    hide RowsOk, RowsDistinct, NamesUsed, TasksOk, SentOk, KeysOk, HonestOk, PollsOk, Inserted, Named;
    EnqueueKeepsTable(s, id, sub);
    EnqueueKeepsHistory(s, id, sub);
    EnqueueKeepsKeys(s, id, sub);
    EnqueueKeepsOthers(s, id, sub);
  }

  /** Only rows without a key and with a known outcome can go; no coroutine and no key depends on them. */
  lemma DropKeepsTable(jobs: Jobs, drop: set<JobId>, h: History)
    requires RowsOk(jobs) && RowsDistinct(jobs) && NamesUsed(jobs, h) && HonestOk(jobs, h)
    ensures var after := Without(jobs, drop);
            RowsOk(after) && RowsDistinct(after) && NamesUsed(after, h) && HonestOk(after, h)
  {
    hide RowOk, Justified;
  }

  lemma DropKeepsTasks(jobs: Jobs, drop: set<JobId>, tasks: map<Token, Task>, polls: map<JobId, Snapshot>, h: History)
    requires TasksOk(jobs, tasks, h) && PollsOk(jobs, polls, h)
    requires forall id | id in drop && id in jobs :: ClaimsKnown(jobs[id]) || jobs[id].status == Completed
    ensures TasksOk(Without(jobs, drop), tasks, h) && PollsOk(Without(jobs, drop), polls, h)
  {
    var after := Without(jobs, drop);
    forall a | a in tasks ensures TaskOk(after, tasks[a], a, h) {
      assert TaskOk(jobs, tasks[a], a, h);
    }
    forall o | o in polls ensures PollOk(after, polls[o], o, h) {
      assert PollOk(jobs, polls[o], o, h);
    }
  }

  lemma DropKeepsSends(jobs: Jobs, drop: set<JobId>, h: History)
    requires SentOk(jobs, h) && KeysOk(jobs, h)
    requires forall id | id in drop && id in jobs :: jobs[id].sub.key.None?
    ensures SentOk(Without(jobs, drop), h) && KeysOk(Without(jobs, drop), h)
  {
    var after := Without(jobs, drop);
    forall q | q in h.sentKeys ensures KeyTaken(after, Some(q)) {
      var o :| o in jobs && jobs[o].sub.key == Some(q);
      assert o in after;
    }
  }

  lemma DropKeeps(s: State, drop: set<JobId>)
    requires Inv(s)
    requires forall id | id in drop && id in s.jobs :: ClaimsKnown(s.jobs[id]) || s.jobs[id].status == Completed
    requires forall id | id in drop && id in s.jobs :: s.jobs[id].sub.key.None?
    ensures Core(Without(s.jobs, drop), s.tasks, s.polls, s.h)
  {
    hide RowsOk, RowsDistinct, NamesUsed, HonestOk, TasksOk, PollsOk, SentOk, KeysOk, ClaimsKnown;
    DropKeepsTable(s.jobs, drop, s.h);
    DropKeepsTasks(s.jobs, drop, s.tasks, s.polls, s.h);
    DropKeepsSends(s.jobs, drop, s.h);
  }

  lemma SweepDrops(s: State, drop: set<JobId>)
    requires Inv(s) && IsJobSweep(s.jobs, s.cfg.keep.jobDays, BatchSize(s.cfg.keep), s.now, drop)
    ensures Core(Without(s.jobs, drop), s.tasks, s.polls, s.h)
  {
    hide Core, Inv;
    DropKeeps(s, drop);
  }

  // ----- one step, one run -------------------------------------------------------------

  lemma StepKeepsDispatch(s: State, e: Event)
    requires Inv(s) && Enabled(s, e)
    requires e.Enqueue? || e.Claim? || e.Release? || e.Reject? || e.Reserve? || e.Send? || e.Respond?
    ensures Inv(Effect(s, e))
  {
    hide Core, Inserted, Claimed, Released, MarkedFailed, Settled, Finish;
    match e
    case Enqueue(id, sub) => EnqueueKeeps(s, id, sub);
    case Claim(id, token) => ClaimKeeps(s, id, token, s.h.(usedTokens := s.h.usedTokens + {token}));
    case Release(token, delay) => ReleaseKeeps(s, token, delay);
    case Reject(token, tag, retryable) => RejectKeeps(s, token, DispatchFailed(tag), retryable);
    case Reserve(token) => ReserveKeeps(s, token);
    case Send(token) => SendKeeps(s, token);
    case Respond(token, a, account, project, pollDelay) => RespondKeeps(s, token, a, account, project, pollDelay);
    case _ =>
  }

  lemma StepKeepsOther(s: State, e: Event)
    requires Inv(s) && Enabled(s, e)
    requires !(e.Enqueue? || e.Claim? || e.Release? || e.Reject? || e.Reserve? || e.Send? || e.Respond?)
    ensures Inv(Effect(s, e))
  {
    hide Core, Abandoned, Expired, PollsLeased, PollSettled, Pruned, Without, Persisted, Touched;
    match e
    case Cancel(_) => DropTasksKeeps(s, e);
    case Crash => DropTasksKeeps(s, e);
    case FailAbandoned => AbandonKeeps(s);
    case FailExpired(only) => ExpireKeeps(s, only);
    case StartPolls(limit, ids) => StartPollsKeeps(s, limit, ids);
    case EndPoll(id, result, delay) => EndPollKeeps(s, id, result, delay);
    case Prune(dropJobs, dropOperations) => SweepDrops(s, dropJobs);
    case _ =>
  }

  lemma StepKeeps(s: State, e: Event)
    requires Inv(s)
    ensures Inv(Step(s, e))
  {
    hide Inv, Effect, Enabled;
    if Enabled(s, e) {
      if e.Enqueue? || e.Claim? || e.Release? || e.Reject? || e.Reserve? || e.Send? || e.Respond? {
        StepKeepsDispatch(s, e);
      } else {
        StepKeepsOther(s, e);
      }
    }
  }

  lemma {:induction false} RunKeeps(s: State, es: seq<Event>)
    requires Inv(s)
    ensures Inv(Run(s, es))
    decreases |es|
  {
    hide Inv, Step;
    if es != [] {
      StepKeeps(s, es[0]);
      RunKeeps(Step(s, es[0]), es[1..]);
    }
  }

  lemma InitOk(cfg: Config, now: int)
    ensures Inv(Init(cfg, now))
  {
    hide RowOk, TaskOk, PollOk, Justified;
  }

  /** A state some run reaches from a fresh installation. */
  ghost predicate Reachable(s: State) {
    exists cfg, now, es :: s == Run(Init(cfg, now), es)
  }

  lemma ReachableOk(s: State)
    requires Reachable(s)
    ensures Inv(s)
  {
    hide Inv;
    var cfg, now, es :| s == Run(Init(cfg, now), es);
    InitOk(cfg, now);
    RunKeeps(Init(cfg, now), es);
  }
}
