/**
 The upload cache: one Flow media id per account, project and image digest.
 Coroutines check it, take the lock of the one key they miss, check again,
 upload and store. Any number of them run interleaved, cut at their awaits.
 */
module MediaCache {
  import opened Base
  import opened JobTable

  datatype Place = Place(account: Account, project: Project, digest: Digest)

  type TaskId = nat

  /** Between images, waiting for the lock of the current image, holding it, or holding it with an upload sent. */
  datatype Pc = Between | Wanting | Inside | Uploading

  /**
   One call of _upload_inline_images, of the media route, or of a copy from
   stored bytes. Only the first looks before it takes the lock.
   */
  datatype Task = Task(
    account: Account,
    project: Project,
    images: seq<Digest>,
    looksFirst: bool,
    ids: seq<MediaId>,
    resolved: map<Digest, MediaId>,
    pc: Pc)

  /** `uploads` counts recorded uploads since the key was last invalidated; `stored` is every pair ever stored. */
  datatype State = State(
    cache: map<Place, MediaId>,
    locks: map<Place, TaskId>,
    tasks: map<TaskId, Task>,
    uploads: multiset<Place>,
    stored: set<(Place, MediaId)>)

  datatype Event =
    | Begin(task: TaskId, account: Account, project: Project, images: seq<Digest>, looksFirst: bool)
    | Look(task: TaskId)
    | Lock(task: TaskId)
    | LookAgain(task: TaskId)
    | Uploaded(task: TaskId, id: MediaId)
    | Stop(task: TaskId)
    | Invalidate(place: Place)

  predicate Busy(t: Task) { |t.ids| < |t.images| }

  function Current(t: Task): Place
    requires Busy(t)
  {
    Place(t.account, t.project, t.images[|t.ids|])
  }

  predicate AtPc(s: State, task: TaskId, pc: Pc) {
    task in s.tasks && Busy(s.tasks[task]) && s.tasks[task].pc == pc
  }

  /** The current image is settled: remember its id and go on to the next one. */
  function Taken(t: Task, id: MediaId): Task
    requires Busy(t)
  {
    t.(ids := t.ids + [id], resolved := t.resolved[t.images[|t.ids|] := id], pc := Between)
  }

  function Step(s: State, e: Event): State {
    match e
    case Begin(task, account, project, images, looksFirst) =>
      if task in s.tasks then s
      else s.(tasks := s.tasks[task := Task(account, project, images, looksFirst, [], map[], Between)])
    case Look(task) =>
      if !AtPc(s, task, Between) then s
      else
        var t := s.tasks[task];
        var digest := t.images[|t.ids|];
        s.(tasks := s.tasks[task :=
             if digest in t.resolved then Taken(t, t.resolved[digest])
             else if t.looksFirst && Current(t) in s.cache then Taken(t, s.cache[Current(t)])
             else t.(pc := Wanting)])
    case Lock(task) =>
      if AtPc(s, task, Wanting) && Current(s.tasks[task]) !in s.locks
      then s.(tasks := s.tasks[task := s.tasks[task].(pc := Inside)], locks := s.locks[Current(s.tasks[task]) := task])
      else s
    case LookAgain(task) =>
      if !AtPc(s, task, Inside) then s
      else
        var t := s.tasks[task];
        if Current(t) in s.cache
        then s.(tasks := s.tasks[task := Taken(t, s.cache[Current(t)])], locks := s.locks - {Current(t)})
        else s.(tasks := s.tasks[task := t.(pc := Uploading)])
    case Uploaded(task, id) =>
      if !AtPc(s, task, Uploading) then s
      else
        var t := s.tasks[task];
        s.(cache := s.cache[Current(t) := id],
           locks := s.locks - {Current(t)},
           tasks := s.tasks[task := Taken(t, id)],
           uploads := s.uploads + multiset{Current(t)},
           stored := s.stored + {(Current(t), id)})
    case Stop(task) =>
      if task !in s.tasks then s
      else s.(tasks := s.tasks - {task},
              locks := if AtPc(s, task, Inside) || AtPc(s, task, Uploading)
                       then s.locks - {Current(s.tasks[task])} else s.locks)
    case Invalidate(place) => s.(cache := s.cache - {place}, uploads := s.uploads[place := 0])
  }

  function Run(s: State, es: seq<Event>): State
    decreases |es|
  {
    if es == [] then s else Run(Step(s, es[0]), es[1..])
  }

  /** A process starts with whatever the store holds. */
  function Init(cache: map<Place, MediaId>): State {
    State(cache, map[], map[], multiset{}, set p | p in cache :: (p, cache[p]))
  }

  // ----- invariants -------------------------------------------------------------------------

  predicate Holds(t: Task) { Busy(t) && (t.pc == Inside || t.pc == Uploading) }

  /** A lock has exactly one holder, and the holder is at the image it locked. */
  ghost predicate LocksFit(tasks: map<TaskId, Task>, locks: map<Place, TaskId>) {
    && (forall p | p in locks :: locks[p] in tasks && Holds(tasks[locks[p]]) && Current(tasks[locks[p]]) == p)
    && forall k | k in tasks && Holds(tasks[k]) :: Current(tasks[k]) in locks && locks[Current(tasks[k])] == k
  }

  ghost predicate LocksOk(s: State) { LocksFit(s.tasks, s.locks) }

  /** An upload is only ever under way for a key that is not in the cache. */
  ghost predicate UploadsOk(s: State) {
    && (forall k | AtPc(s, k, Uploading) :: Current(s.tasks[k]) !in s.cache)
    && forall p | p in s.uploads :: p in s.cache && s.uploads[p] == 1
  }

  /** Ids so far follow the images, one per digest, and each was stored for its digest. */
  ghost predicate TaskOk(t: Task, stored: set<(Place, MediaId)>) {
    && |t.ids| <= |t.images|
    && (Busy(t) && t.pc != Between ==> t.images[|t.ids|] !in t.resolved)
    && (forall d | d in t.resolved :: d in t.images[..|t.ids|] && (Place(t.account, t.project, d), t.resolved[d]) in stored)
    && forall i | 0 <= i < |t.ids| :: t.images[i] in t.resolved && t.ids[i] == t.resolved[t.images[i]]
  }

  ghost predicate Inv(s: State) {
    && LocksOk(s)
    && UploadsOk(s)
    && (forall p | p in s.cache :: (p, s.cache[p]) in s.stored)
    && forall k | k in s.tasks :: TaskOk(s.tasks[k], s.stored)
  }

  lemma TakenOk(t: Task, id: MediaId, stored: set<(Place, MediaId)>)
    requires TaskOk(t, stored) && Busy(t) && (Current(t), id) in stored
    requires t.images[|t.ids|] in t.resolved ==> t.resolved[t.images[|t.ids|]] == id
    ensures TaskOk(Taken(t, id), stored)
  {
    assert t.images[..|t.ids| + 1] == t.images[..|t.ids|] + [t.images[|t.ids|]];
  }

  /** A step that leaves the locks alone and moves nobody in or out of a locked region. */
  lemma SameHolders(tasks: map<TaskId, Task>, locks: map<Place, TaskId>, k: TaskId, t: Task)
    requires LocksFit(tasks, locks) && !Holds(t)
    requires k in tasks ==> !Holds(tasks[k])
    ensures LocksFit(tasks[k := t], locks)
  {
  }

  lemma LockGained(tasks: map<TaskId, Task>, locks: map<Place, TaskId>, k: TaskId)
    requires LocksFit(tasks, locks) && k in tasks && Busy(tasks[k]) && !Holds(tasks[k]) && Current(tasks[k]) !in locks
    ensures LocksFit(tasks[k := tasks[k].(pc := Inside)], locks[Current(tasks[k]) := k])
  {
  }

  lemma LockKept(tasks: map<TaskId, Task>, locks: map<Place, TaskId>, k: TaskId)
    requires LocksFit(tasks, locks) && k in tasks && Holds(tasks[k])
    ensures LocksFit(tasks[k := tasks[k].(pc := Uploading)], locks)
  {
  }

  /** The holder leaves its locked region: it goes on to the next image, or away. */
  lemma LockGivenUp(tasks: map<TaskId, Task>, locks: map<Place, TaskId>, k: TaskId, after: map<TaskId, Task>)
    requires LocksFit(tasks, locks) && k in tasks && Holds(tasks[k])
    requires k in after ==> !Holds(after[k])
    requires after - {k} == tasks - {k}
    ensures LocksFit(after, locks - {Current(tasks[k])})
  {
    forall o | o in after && o != k ensures o in tasks && after[o] == tasks[o] {
      assert o in after - {k} && (after - {k})[o] == (tasks - {k})[o];
    }
    forall o | o in tasks && o != k ensures o in after && after[o] == tasks[o] {
      assert o in tasks - {k} && (after - {k})[o] == (tasks - {k})[o];
    }
  }

  lemma GoneFits(tasks: map<TaskId, Task>, locks: map<Place, TaskId>, k: TaskId)
    requires LocksFit(tasks, locks) && k in tasks && !Holds(tasks[k])
    ensures LocksFit(tasks - {k}, locks)
  {
  }

  lemma StepKeepsLocks(s: State, e: Event)
    requires LocksOk(s)
    ensures LocksOk(Step(s, e))
  {
    hide LocksFit;
    var t := Step(s, e);
    match e
    case Begin(task, _, _, _, _) =>
      if task !in s.tasks { SameHolders(s.tasks, s.locks, task, t.tasks[task]); }
    case Look(task) =>
      if AtPc(s, task, Between) { SameHolders(s.tasks, s.locks, task, t.tasks[task]); }
    case Lock(task) =>
      if AtPc(s, task, Wanting) && Current(s.tasks[task]) !in s.locks { LockGained(s.tasks, s.locks, task); }
    case LookAgain(task) =>
      if AtPc(s, task, Inside) {
        if Current(s.tasks[task]) in s.cache {
          LockGivenUp(s.tasks, s.locks, task, t.tasks);
        } else {
          LockKept(s.tasks, s.locks, task);
        }
      }
    case Uploaded(task, _) =>
      if AtPc(s, task, Uploading) { LockGivenUp(s.tasks, s.locks, task, t.tasks); }
    case Stop(task) =>
      if task in s.tasks {
        if Holds(s.tasks[task]) {
          LockGivenUp(s.tasks, s.locks, task, t.tasks);
        } else {
          GoneFits(s.tasks, s.locks, task);
        }
      }
    case Invalidate(_) =>
  }

  lemma UploadKeepsUploads(s: State, task: TaskId, id: MediaId)
    requires LocksOk(s) && UploadsOk(s) && AtPc(s, task, Uploading)
    ensures UploadsOk(Step(s, Uploaded(task, id)))
  {
    var t := Step(s, Uploaded(task, id));
    var p := Current(s.tasks[task]);
    assert p !in s.uploads;
    forall k | AtPc(t, k, Uploading) ensures Current(t.tasks[k]) !in t.cache {
      assert AtPc(s, k, Uploading) && k != task;
      assert s.locks[p] == task;
    }
  }

  lemma OtherKeepsUploads(s: State, e: Event)
    requires UploadsOk(s) && !e.Uploaded?
    ensures UploadsOk(Step(s, e))
  {
  }

  lemma StepKeepsUploads(s: State, e: Event)
    requires LocksOk(s) && UploadsOk(s)
    ensures UploadsOk(Step(s, e))
  {
    hide LocksFit, UploadsOk;
    if e.Uploaded? {
      if AtPc(s, e.task, Uploading) {
        UploadKeepsUploads(s, e.task, e.id);
      }
    } else {
      hide Step;
      OtherKeepsUploads(s, e);
    }
  }

  lemma StartOk(t: Task, stored: set<(Place, MediaId)>)
    requires t.ids == [] && t.resolved == map[] && t.pc == Between
    ensures TaskOk(t, stored)
  {
  }

  lemma PcOnly(t: Task, pc: Pc, stored: set<(Place, MediaId)>)
    requires TaskOk(t, stored)
    requires pc == Between || (Busy(t) && t.images[|t.ids|] !in t.resolved)
    ensures TaskOk(t.(pc := pc), stored)
  {
  }

  lemma StoredGrows(t: Task, less: set<(Place, MediaId)>, more: set<(Place, MediaId)>)
    requires TaskOk(t, less) && less <= more
    ensures TaskOk(t, more)
  {
  }

  /** How one step moves one call: not at all, in its pc only, or past its current image. */
  ghost predicate Advances(a: Task, b: Task, stored: set<(Place, MediaId)>) {
    || b == a
    || (b == a.(pc := b.pc) && Busy(a) && a.images[|a.ids|] !in a.resolved)
    || (&& Busy(a) && |b.ids| == |a.ids| + 1
        && var id := b.ids[|a.ids|];
           && b == Taken(a, id) && (Current(a), id) in stored
           && (a.images[|a.ids|] in a.resolved ==> a.resolved[a.images[|a.ids|]] == id))
  }

  lemma OwnStepAdvances(s: State, e: Event, k: TaskId)
    requires k in s.tasks && k in Step(s, e).tasks && TaskOk(s.tasks[k], s.stored)
    requires forall p | p in s.cache :: (p, s.cache[p]) in s.stored
    requires (e.Look? || e.Lock? || e.LookAgain? || e.Uploaded?) && e.task == k
    ensures Advances(s.tasks[k], Step(s, e).tasks[k], Step(s, e).stored)
  {
  }

  lemma StepAdvances(s: State, e: Event, k: TaskId)
    requires k in s.tasks && k in Step(s, e).tasks && TaskOk(s.tasks[k], s.stored)
    requires forall p | p in s.cache :: (p, s.cache[p]) in s.stored
    ensures Advances(s.tasks[k], Step(s, e).tasks[k], Step(s, e).stored)
  {
    hide TaskOk;
    if (e.Look? || e.Lock? || e.LookAgain? || e.Uploaded?) && e.task == k {
      hide Step, Advances;
      OwnStepAdvances(s, e, k);
    } else {
      assert Step(s, e).tasks[k] == s.tasks[k];
    }
  }

  lemma AdvanceOk(a: Task, b: Task, less: set<(Place, MediaId)>, more: set<(Place, MediaId)>)
    requires TaskOk(a, less) && less <= more && Advances(a, b, more)
    ensures TaskOk(b, more)
  {
    hide TaskOk, Taken;
    StoredGrows(a, less, more);
    if b != a {
      if b == a.(pc := b.pc) && Busy(a) && a.images[|a.ids|] !in a.resolved {
        PcOnly(a, b.pc, more);
      } else {
        TakenOk(a, b.ids[|a.ids|], more);
      }
    }
  }

  lemma StepKeepsStored(s: State, e: Event)
    requires forall p | p in s.cache :: (p, s.cache[p]) in s.stored
    ensures forall p | p in Step(s, e).cache :: (p, Step(s, e).cache[p]) in Step(s, e).stored
    ensures s.stored <= Step(s, e).stored
    ensures forall k | k in Step(s, e).tasks && k !in s.tasks ::
              Step(s, e).tasks[k].ids == [] && Step(s, e).tasks[k].resolved == map[] && Step(s, e).tasks[k].pc == Between
  {
  }

  lemma StepKeepsTasks(s: State, e: Event)
    requires Inv(s)
    ensures forall p | p in Step(s, e).cache :: (p, Step(s, e).cache[p]) in Step(s, e).stored
    ensures forall k | k in Step(s, e).tasks :: TaskOk(Step(s, e).tasks[k], Step(s, e).stored)
  {
    hide TaskOk, LocksFit, UploadsOk, Step, Advances;
    var t := Step(s, e);
    StepKeepsStored(s, e);
    forall k | k in t.tasks ensures TaskOk(t.tasks[k], t.stored) {
      if k in s.tasks {
        StepAdvances(s, e, k);
        AdvanceOk(s.tasks[k], t.tasks[k], s.stored, t.stored);
      } else {
        StartOk(t.tasks[k], t.stored);
      }
    }
  }

  lemma {:induction false} RunKeeps(s: State, es: seq<Event>)
    requires Inv(s)
    ensures Inv(Run(s, es))
    decreases |es|
  {
    hide LocksFit, UploadsOk, TaskOk, Step;
    if es != [] {
      StepKeepsLocks(s, es[0]);
      StepKeepsUploads(s, es[0]);
      StepKeepsTasks(s, es[0]);
      RunKeeps(Step(s, es[0]), es[1..]);
    }
  }

  // ----- the promises ------------------------------------------------------------------------

  /** However coroutines interleave, a key is uploaded at most once between invalidations. */
  lemma UploadedAtMostOnce(cache: map<Place, MediaId>, es: seq<Event>, p: Place)
    ensures Run(Init(cache), es).uploads[p] <= 1
    ensures p in cache && (forall e | e in es :: !e.Invalidate?) ==> Run(Init(cache), es).uploads[p] == 0
  {
    RunKeeps(Init(cache), es);
    if p in cache && (forall e | e in es :: !e.Invalidate?) {
      CachedStays(Init(cache), es, p);
    }
  }

  /** A cached key is neither uploaded nor overwritten while nothing invalidates it. */
  lemma {:induction false} CachedStays(s: State, es: seq<Event>, p: Place)
    requires Inv(s) && p in s.cache && forall e | e in es :: !e.Invalidate?
    ensures p in Run(s, es).cache && Run(s, es).cache[p] == s.cache[p]
    ensures Run(s, es).uploads[p] == s.uploads[p]
    decreases |es|
  {
    hide LocksFit, TaskOk;
    if es != [] {
      assert es[0] in es;
      RunKeeps(s, [es[0]]);
      assert Run(s, [es[0]]) == Step(s, es[0]) by {
        assert [es[0]][1..] == [];
      }
      CachedStays(Step(s, es[0]), es[1..], p);
    }
  }

  /** In any run, a call's ids follow its images: equal images share an id, and each id was stored for its image. */
  lemma IdsFollowImages(cache: map<Place, MediaId>, es: seq<Event>, k: TaskId)
    requires k in Run(Init(cache), es).tasks
    ensures var s := Run(Init(cache), es);
            var t := s.tasks[k];
            && |t.ids| <= |t.images|
            && (forall i | 0 <= i < |t.ids| :: (Place(t.account, t.project, t.images[i]), t.ids[i]) in s.stored)
            && (forall i, j | 0 <= i < |t.ids| && 0 <= j < |t.ids| && t.images[i] == t.images[j] :: t.ids[i] == t.ids[j])
  {
    RunKeeps(Init(cache), es);
  }

  ghost predicate UpToDate(s: State) {
    forall k, d | k in s.tasks && d in s.tasks[k].resolved ::
      var p := Place(s.tasks[k].account, s.tasks[k].project, d);
      p in s.cache && s.cache[p] == s.tasks[k].resolved[d]
  }

  lemma StepKeepsUpToDate(s: State, e: Event)
    requires UploadsOk(s) && UpToDate(s) && !e.Invalidate?
    ensures UpToDate(Step(s, e))
  {
  }

  lemma {:induction false} RunKeepsUpToDate(s: State, es: seq<Event>)
    requires Inv(s) && UpToDate(s) && forall e | e in es :: !e.Invalidate?
    ensures UpToDate(Run(s, es))
    decreases |es|
  {
    hide LocksFit, TaskOk, UploadsOk, UpToDate, Step;
    if es != [] {
      assert es[0] in es;
      RunKeeps(s, [es[0]]);
      assert Run(s, [es[0]]) == Step(s, es[0]) by {
        assert [es[0]][1..] == [];
      }
      StepKeepsUpToDate(s, es[0]);
      RunKeepsUpToDate(Step(s, es[0]), es[1..]);
    }
  }

  /** Without invalidation every id a call has collected is the one the cache holds for that image now. */
  lemma IdsAreTheStoredOnes(cache: map<Place, MediaId>, es: seq<Event>, k: TaskId)
    requires forall e | e in es :: !e.Invalidate?
    requires k in Run(Init(cache), es).tasks
    ensures var s := Run(Init(cache), es);
            var t := s.tasks[k];
            |t.ids| <= |t.images| &&
            forall i | 0 <= i < |t.ids| ::
              var p := Place(t.account, t.project, t.images[i]);
              p in s.cache && s.cache[p] == t.ids[i]
  {
    RunKeeps(Init(cache), es);
    RunKeepsUpToDate(Init(cache), es);
  }

  // ----- two calls at once -----------------------------------------------------------------------

  const SPOT := Place(1, 2, 3)

  /** A call for the one image 3, before and after its id 8 is known. */
  function Caller(pc: Pc): Task { Task(1, 2, [3], true, [], map[], pc) }

  const SERVED := Task(1, 2, [3], true, [8], map[3 := 8], Between)

  /** The states that the run below passes through. */
  const TRACE: seq<State> := [
    State(map[], map[], map[], multiset{}, {}),
    State(map[], map[], map[1 := Caller(Between)], multiset{}, {}),
    State(map[], map[], map[1 := Caller(Between), 2 := Caller(Between)], multiset{}, {}),
    State(map[], map[], map[1 := Caller(Wanting), 2 := Caller(Between)], multiset{}, {}),
    State(map[], map[], map[1 := Caller(Wanting), 2 := Caller(Wanting)], multiset{}, {}),
    State(map[], map[SPOT := 1], map[1 := Caller(Inside), 2 := Caller(Wanting)], multiset{}, {}),
    State(map[], map[SPOT := 1], map[1 := Caller(Uploading), 2 := Caller(Wanting)], multiset{}, {}),
    State(map[SPOT := 8], map[], map[1 := SERVED, 2 := Caller(Wanting)], multiset{SPOT}, {(SPOT, 8)}),
    State(map[SPOT := 8], map[SPOT := 2], map[1 := SERVED, 2 := Caller(Inside)], multiset{SPOT}, {(SPOT, 8)}),
    State(map[SPOT := 8], map[], map[1 := SERVED, 2 := SERVED], multiset{SPOT}, {(SPOT, 8)})]

  lemma CallersAre()
    ensures forall pc :: Busy(Caller(pc)) && Current(Caller(pc)) == SPOT && Taken(Caller(pc), 8) == SERVED
  {
  }

  lemma BothLook()
    ensures Init(map[]) == TRACE[0]
    ensures Step(TRACE[0], Begin(1, 1, 2, [3], true)) == TRACE[1]
    ensures Step(TRACE[1], Begin(2, 1, 2, [3], true)) == TRACE[2]
    ensures Step(TRACE[2], Look(1)) == TRACE[3]
    ensures Step(TRACE[3], Look(2)) == TRACE[4]
  {
    assert Init(map[]).stored == {};
    CallersAre();
    hide Current, Taken, Busy;
  }

  lemma FirstLocks()
    ensures Step(TRACE[4], Lock(1)) == TRACE[5]
    ensures Step(TRACE[5], LookAgain(1)) == TRACE[6]
  {
    CallersAre();
    hide Current, Taken, Busy;
  }

  lemma FirstUploads()
    ensures Step(TRACE[6], Uploaded(1, 8)) == TRACE[7]
  {
    CallersAre();
    hide Current, Taken, Busy;
    assert map[SPOT := 1] - {SPOT} == map[];
  }

  lemma SecondFindsIt()
    ensures Step(TRACE[7], Lock(2)) == TRACE[8]
    ensures Step(TRACE[8], LookAgain(2)) == TRACE[9]
  {
    CallersAre();
    hide Current, Taken, Busy;
    assert map[SPOT := 2] - {SPOT} == map[];
  }

  /** A trace that follows the steps ends where the run ends. */
  lemma {:induction false} RunAlong(es: seq<Event>, trace: seq<State>, k: nat)
    requires |trace| == |es| + 1 && k <= |es|
    requires forall i | 0 <= i < |es| :: Step(trace[i], es[i]) == trace[i + 1]
    ensures Run(trace[k], es[k..]) == trace[|es|]
    decreases |es| - k
  {
    hide Step;
    if k < |es| {
      assert es[k..][1..] == es[k + 1..];
      RunAlong(es, trace, k + 1);
    }
  }

  /** Two calls that both miss the same image: the second waits for the lock and takes the first one's upload. */
  lemma TwoCallsShareAnUpload()
    ensures var es := [Begin(1, 1, 2, [3], true), Begin(2, 1, 2, [3], true), Look(1), Look(2), Lock(1), LookAgain(1),
                       Uploaded(1, 8), Lock(2), LookAgain(2)];
            var s := Run(Init(map[]), es);
            && s.uploads == multiset{Place(1, 2, 3)} && s.cache == map[Place(1, 2, 3) := 8] && s.locks == map[]
            && s.tasks.Keys == {1, 2} && s.tasks[1].ids == [8] && s.tasks[2].ids == [8]
  {
    var es := [Begin(1, 1, 2, [3], true), Begin(2, 1, 2, [3], true), Look(1), Look(2), Lock(1), LookAgain(1),
               Uploaded(1, 8), Lock(2), LookAgain(2)];
    BothLook();
    FirstLocks();
    FirstUploads();
    SecondFindsIt();
    assert TRACE[9] == State(map[SPOT := 8], map[], map[1 := SERVED, 2 := SERVED], multiset{SPOT}, {(SPOT, 8)});
    hide Step, Init;
    RunAlong(es, TRACE, 0);
    assert es[0..] == es;
  }

  // ----- one call on its own -------------------------------------------------------------------

  class Cache {
    var entries: map<Place, MediaId>

    constructor (entries: map<Place, MediaId>)
      ensures this.entries == entries
    {
      this.entries := entries;
    }

    /**
     _upload_inline_images with nobody interfering. `answers` are the upstream's
     replies in order; a reply without an id ends the call, and the ids stored
     until then stay stored. Each missing digest costs exactly one upload.
     */
    method UploadInlineImages(account: Account, project: Project, images: seq<Digest>, answers: seq<Option<MediaId>>)
      returns (ok: bool, ids: seq<MediaId>, cached: seq<Digest>, uploads: nat)
      requires |answers| >= |images|
      modifies this
      ensures uploads <= |images| && |entries| == |old(entries)| + uploads - (if ok then 0 else 1)
      ensures forall p | p in old(entries) :: p in entries && entries[p] == old(entries)[p]
      ensures forall p | p in entries && p !in old(entries) ::
                p.account == account && p.project == project && p.digest in images && Some(entries[p]) in answers[..uploads]
      ensures |ids| <= |images| && (ok <==> |ids| == |images|)
      ensures forall i | 0 <= i < |ids| ::
                Place(account, project, images[i]) in entries && ids[i] == entries[Place(account, project, images[i])]
      ensures !ok ==> 0 < uploads && Place(account, project, images[|ids|]) !in entries && answers[uploads - 1].None?
      ensures forall d | d in cached :: d in images && Place(account, project, d) in old(entries)
      ensures forall i | 0 <= i < |ids| && Place(account, project, images[i]) in old(entries) :: images[i] in cached
      ensures forall i, j | 0 <= i < j < |cached| :: cached[i] != cached[j]
    {
      ids, cached, uploads := [], [], 0;
      var resolved: map<Digest, MediaId> := map[];
      for i := 0 to |images|
        invariant |ids| == i && uploads <= i && |entries| == |old(entries)| + uploads
        invariant forall p | p in old(entries) :: p in entries && entries[p] == old(entries)[p]
        invariant forall p | p in entries && p !in old(entries) ::
          p.account == account && p.project == project && p.digest in resolved && Some(entries[p]) in answers[..uploads]
        invariant forall j | 0 <= j < i :: images[j] in resolved && ids[j] == resolved[images[j]]
        invariant forall d | d in resolved ::
          d in images[..i] && Place(account, project, d) in entries && entries[Place(account, project, d)] == resolved[d]
        invariant forall d | d in cached :: d in resolved && d in images[..i] && Place(account, project, d) in old(entries)
        invariant forall d | d in resolved && Place(account, project, d) in old(entries) :: d in cached
        invariant forall j, k | 0 <= j < k < |cached| :: cached[j] != cached[k]
      {
        var digest := images[i];
        var place := Place(account, project, digest);
        assert images[..i + 1] == images[..i] + [digest];
        if digest in resolved {
          ids := ids + [resolved[digest]];
        } else if place in entries {
          ids := ids + [entries[place]];
          resolved := resolved[digest := entries[place]];
          cached := cached + [digest];
        } else {
          var answer := answers[uploads];
          assert answers[..uploads + 1] == answers[..uploads] + [answer];
          uploads := uploads + 1;
          if answer.None? {
            ok := false;
            return;
          }
          entries := entries[place := answer.value];
          resolved := resolved[digest := answer.value];
          ids := ids + [answer.value];
        }
      }
      ok := true;
    }
  }
}
