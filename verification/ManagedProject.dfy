/**
 Finding the account's managed project: pages of an upstream listing are read
 behind a cursor, the newest project is taken, and one is created only when the
 listing ended and held none. This is the part of _managed_project under the lock.
 */
module ManagedProject {
  import opened Base
  import opened JobTable

  type Cursor = nat

  datatype Item = Item(project: Project, createdAt: Option<real>)

  datatype Page = CallFailed | Malformed | Listing(items: seq<Item>, next: Option<Cursor>)

  datatype Lookup =
    | ListFailed
    | ListInvalid
    | Found(item: Item)
    | Incomplete
    | Created(project: Project)
    | CreateFailed

  const PAGES := 20

  predicate Dated(items: seq<Item>) { forall i | 0 <= i < |items| :: items[i].createdAt.Some? }

  /** _latest_project: the first of the newest when all are dated, else simply the first. */
  predicate IsLatest(items: seq<Item>, k: nat) {
    && k < |items|
    && if Dated(items)
       then (forall i | 0 <= i < |items| :: items[i].createdAt.value <= items[k].createdAt.value)
            && forall i | 0 <= i < k :: items[i].createdAt.value < items[k].createdAt.value
       else k == 0
  }

  method LatestProject(items: seq<Item>) returns (k: nat)
    requires items != []
    ensures IsLatest(items, k)
    ensures k < |items|
    ensures (exists i :: 0 <= i < |items| && items[i].createdAt.None?) ==> k == 0
    ensures (forall i | 0 <= i < |items| :: items[i].createdAt.Some?) ==>
              && (forall i | 0 <= i < |items| :: items[i].createdAt.value <= items[k].createdAt.value)
              && forall i | 0 <= i < k :: items[i].createdAt.value < items[k].createdAt.value
  {
    k := 0;
    var dated := true;
    for i := 0 to |items|
      invariant dated <==> forall j | 0 <= j < i :: items[j].createdAt.Some?
    {
      if items[i].createdAt.None? { dated := false; }
    }
    if !dated {
      return;
    }
    for i := 1 to |items|
      invariant k < i
      invariant forall j | 0 <= j < i :: items[j].createdAt.value <= items[k].createdAt.value
      invariant forall j | 0 <= j < k :: items[j].createdAt.value < items[k].createdAt.value
    {
      if items[i].createdAt.value > items[k].createdAt.value { k := i; }
    }
  }

  /** Everything the first n pages list, in order. */
  function Listed(pages: seq<Page>, n: nat): seq<Item>
    requires n <= |pages|
  {
    if n == 0 then [] else Listed(pages, n - 1) + (if pages[n - 1].Listing? then pages[n - 1].items else [])
  }

  /** The listing starts with the first item of the first page that has one, and holds every page's items. */
  lemma {:induction false} ListedInOrder(pages: seq<Page>, n: nat, k: nat)
    requires k < n <= |pages| && pages[k].Listing?
    requires forall j | 0 <= j < k :: pages[j].Listing? ==> pages[j].items == []
    ensures pages[k].items != [] ==> Listed(pages, n) != [] && Listed(pages, n)[0] == pages[k].items[0]
    ensures forall x | x in pages[k].items :: x in Listed(pages, n)
    decreases n
  {
    if k < n - 1 {
      ListedInOrder(pages, n - 1, k);
    } else {
      NothingListed(pages, k);
    }
  }

  lemma {:induction false} NothingListed(pages: seq<Page>, k: nat)
    requires k <= |pages| && forall j | 0 <= j < k :: pages[j].Listing? ==> pages[j].items == []
    ensures Listed(pages, k) == []
  {
    if k > 0 {
      NothingListed(pages, k - 1);
    }
  }

  predicate Distinct<T(==)>(s: seq<T>) { forall i, j | 0 <= i < j < |s| :: s[i] != s[j] }

  /** Cursors requested one after the other, each named by the page before. */
  predicate Follows(pages: seq<Page>, cursors: seq<Cursor>) {
    && |cursors| <= |pages| && Distinct(cursors)
    && forall i | 0 <= i < |cursors| :: pages[i].Listing? && pages[i].next == Some(cursors[i])
  }

  /** The page that ends a listing names no further cursor, or one that was named before. */
  predicate Ends(page: Page, seen: seq<Cursor>) {
    page.Listing? && (page.next.None? || page.next.value in seen)
  }

  datatype Reading = Reading(failed: Option<Lookup>, items: seq<Item>, seen: seq<Cursor>, complete: bool, pages: nat)

  /**
   The page loop. No cursor is followed twice, so it ends although the listing
   may not; `seen` are the cursors named, the last of them unused if it stopped at 20 pages.
   */
  method ReadPages(pages: seq<Page>) returns (r: Reading)
    requires |pages| >= PAGES
    ensures 0 < r.pages <= 20 && Follows(pages, r.seen)
    ensures r.failed.Some? ==> r.failed.value == (if pages[r.pages - 1].CallFailed? then ListFailed else ListInvalid)
                               && !pages[r.pages - 1].Listing? && |r.seen| == r.pages - 1
    ensures r.failed.None? ==> r.items == Listed(pages, r.pages)
    ensures r.failed.None? && r.complete ==> Ends(pages[r.pages - 1], r.seen) && |r.seen| == r.pages - 1
    ensures r.failed.None? && !r.complete ==> r.pages == 20 == |r.seen|
  {
    var discovered: seq<Item> := [];
    var seen: seq<Cursor> := [];
    var n := 0;
    while n < PAGES
      invariant n <= PAGES && discovered == Listed(pages, n) && |seen| == n && Follows(pages, seen)
    {
      var page := pages[n];
      n := n + 1;
      if !page.Listing? {
        return Reading(Some(if page.CallFailed? then ListFailed else ListInvalid), discovered, seen, false, n);
      }
      discovered := discovered + page.items;
      if page.next.None? || page.next.value in seen {
        return Reading(None, discovered, seen, true, n);
      }
      seen := seen + [page.next.value];
    }
    r := Reading(None, discovered, seen, false, n);
  }

  /**
   `pages` are the upstream's answers in order and `creation` its answer to a
   create request. A project is created only behind a listing that ended, with no
   cursor or a repeated one, and held no project.
   */
  method FindOrCreate(pages: seq<Page>, creation: Option<Project>) returns (r: Lookup, reading: Reading)
    requires |pages| >= PAGES
    ensures 0 < reading.pages <= 20 && Follows(pages, reading.seen)
    ensures r.ListFailed? || r.ListInvalid? <==> reading.failed.Some?
    ensures r.Found? <==> reading.failed.None? && Listed(pages, reading.pages) != []
    ensures r.Found? ==> exists k: nat :: IsLatest(Listed(pages, reading.pages), k) && Listed(pages, reading.pages)[k] == r.item
    ensures r.Created? || r.CreateFailed? <==>
              reading.failed.None? && Listed(pages, reading.pages) == [] && reading.complete
    ensures reading.complete ==> Ends(pages[reading.pages - 1], reading.seen)
    ensures r.Created? ==> creation == Some(r.project)
    ensures r.CreateFailed? ==> creation == None
    ensures r.Incomplete? ==> reading.pages == 20 == |reading.seen|
    ensures r.ListFailed? ==> pages[reading.pages - 1].CallFailed?
    ensures r.ListInvalid? ==> pages[reading.pages - 1].Malformed?
  {
    reading := ReadPages(pages);
    hide Follows, Ends, Listed;
    if reading.failed.Some? {
      return reading.failed.value, reading.(complete := false);
    }
    if reading.items != [] {
      var k := LatestProject(reading.items);
      return Found(reading.items[k]), reading;
    }
    if !reading.complete {
      return Incomplete, reading;
    }
    r := if creation.None? then CreateFailed else Created(creation.value);
  }

  // ----- the double check around the lock -----------------------------------------------------

  type TaskId = nat

  /** When a connection was made; a project is in sync only for the session that looked it up. */
  type Session = nat

  /** Before the first check, waiting for the account's lock, holding it, or holding it with a lookup under way. */
  datatype Pc = Checking | Wanting | Inside | Looking | Done(project: Project) | GaveUp

  datatype Caller = Caller(session: Session, pc: Pc)

  /** One account's stored project and sync mark, its lock and its callers; `lookups` counts those that succeeded. */
  datatype State = State(
    stored: Option<Project>,
    marked: Option<Session>,
    holder: Option<TaskId>,
    callers: map<TaskId, Caller>,
    lookups: nat)

  datatype Event =
    | Begin(caller: TaskId, session: Session)
    | Check(caller: TaskId)
    | Lock(caller: TaskId)
    | CheckAgain(caller: TaskId)
    | Succeed(caller: TaskId, project: Project)
    | Fail(caller: TaskId)
    | Invalidate

  predicate InSync(s: State, session: Session) { s.stored.Some? && s.marked == Some(session) }

  predicate AtPc(s: State, k: TaskId, pc: Pc) { k in s.callers && s.callers[k].pc == pc }

  predicate Holds(c: Caller) { c.pc == Inside || c.pc == Looking }

  function Moved(s: State, k: TaskId, pc: Pc): State
    requires k in s.callers
  {
    s.(callers := s.callers[k := s.callers[k].(pc := pc)])
  }

  function Step(s: State, e: Event): State {
    match e
    case Begin(k, session) => if k in s.callers then s else s.(callers := s.callers[k := Caller(session, Checking)])
    case Check(k) =>
      if !AtPc(s, k, Checking) then s
      else Moved(s, k, if InSync(s, s.callers[k].session) then Done(s.stored.value) else Wanting)
    case Lock(k) => if AtPc(s, k, Wanting) && s.holder.None? then Moved(s, k, Inside).(holder := Some(k)) else s
    case CheckAgain(k) =>
      if !AtPc(s, k, Inside) then s
      else if InSync(s, s.callers[k].session) then Moved(s, k, Done(s.stored.value)).(holder := None)
      else Moved(s, k, Looking)
    case Succeed(k, project) =>
      if !AtPc(s, k, Looking) then s
      else Moved(s, k, Done(project)).(stored := Some(project), marked := Some(s.callers[k].session),
                                       holder := None, lookups := s.lookups + 1)
    case Fail(k) =>
      if k !in s.callers || s.callers[k].pc.Done? then s
      else Moved(s, k, GaveUp).(holder := if Holds(s.callers[k]) then None else s.holder)
    case Invalidate => s.(stored := None)
  }

  function Run(s: State, es: seq<Event>): State
    decreases |es|
  {
    if es == [] then s else Run(Step(s, es[0]), es[1..])
  }

  /** The states that the run below passes through. */
  const TRACE: seq<State> := [
    State(None, None, None, map[], 0),
    State(None, None, None, map[1 := Caller(4, Checking)], 0),
    State(None, None, None, map[1 := Caller(4, Checking), 2 := Caller(4, Checking)], 0),
    State(None, None, None, map[1 := Caller(4, Wanting), 2 := Caller(4, Checking)], 0),
    State(None, None, None, map[1 := Caller(4, Wanting), 2 := Caller(4, Wanting)], 0),
    State(None, None, Some(1), map[1 := Caller(4, Inside), 2 := Caller(4, Wanting)], 0),
    State(None, None, Some(1), map[1 := Caller(4, Looking), 2 := Caller(4, Wanting)], 0),
    State(Some(9), Some(4), None, map[1 := Caller(4, Done(9)), 2 := Caller(4, Wanting)], 1),
    State(Some(9), Some(4), Some(2), map[1 := Caller(4, Done(9)), 2 := Caller(4, Inside)], 1),
    State(Some(9), Some(4), None, map[1 := Caller(4, Done(9)), 2 := Caller(4, Done(9))], 1)]

  /** A trace that follows the steps ends where the run ends. */
  lemma {:induction false} RunAlong(es: seq<Event>, trace: seq<State>, k: nat)
    requires |trace| == |es| + 1 && k <= |es|
    requires forall i | 0 <= i < |es| :: Step(trace[i], es[i]) == trace[i + 1]
    ensures Run(trace[k], es[k..]) == trace[|es|]
    decreases |es| - k
  {
    hide Step;
    if k < |es| {
      assert es[k..][1..] == es[k + 1..];
      RunAlong(es, trace, k + 1);
    }
  }

  lemma BothCheck()
    ensures Step(TRACE[0], Begin(1, 4)) == TRACE[1] && Step(TRACE[1], Begin(2, 4)) == TRACE[2]
    ensures Step(TRACE[2], Check(1)) == TRACE[3] && Step(TRACE[3], Check(2)) == TRACE[4]
  {
  }

  lemma OneLooksUp()
    ensures Step(TRACE[4], Lock(1)) == TRACE[5] && Step(TRACE[5], CheckAgain(1)) == TRACE[6]
    ensures Step(TRACE[6], Succeed(1, 9)) == TRACE[7]
  {
  }

  lemma TheOtherFindsIt()
    ensures Step(TRACE[7], Lock(2)) == TRACE[8] && Step(TRACE[8], CheckAgain(2)) == TRACE[9]
  {
  }

  /** Two callers of one session that both find nothing: one looks the project up, the other takes it from the store. */
  lemma TwoCallersShareALookup()
    ensures var es := [Begin(1, 4), Begin(2, 4), Check(1), Check(2), Lock(1), CheckAgain(1), Succeed(1, 9), Lock(2), CheckAgain(2)];
            var s := Run(State(None, None, None, map[], 0), es);
            && s.lookups == 1 && s.stored == Some(9) && s.holder == None && s.callers.Keys == {1, 2}
            && s.callers[1].pc == Done(9) && s.callers[2].pc == Done(9)
  {
    var es := [Begin(1, 4), Begin(2, 4), Check(1), Check(2), Lock(1), CheckAgain(1), Succeed(1, 9), Lock(2), CheckAgain(2)];
    BothCheck();
    OneLooksUp();
    TheOtherFindsIt();
    hide Step;
    RunAlong(es, TRACE, 0);
    assert es[0..] == es;
  }

  ghost predicate Orderly(s: State, session: Session) {
    && (forall k | k in s.callers :: Holds(s.callers[k]) <==> s.holder == Some(k))
    && (s.holder.Some? ==> s.holder.value in s.callers)
    && (forall k | k in s.callers :: s.callers[k].session == session)
    && (forall k | k in s.callers && s.callers[k].pc == Looking :: !InSync(s, session))
    && s.lookups <= 1 && (s.lookups == 1 ==> InSync(s, session))
    && forall k | k in s.callers && s.callers[k].pc.Done? ::
         InSync(s, session) && s.stored == Some(s.callers[k].pc.project)
  }

  lemma StepKeeps(s: State, e: Event, session: Session)
    requires Orderly(s, session) && !e.Invalidate? && (e.Begin? ==> e.session == session)
    ensures Orderly(Step(s, e), session)
  {
  }

  lemma {:induction false} RunKeeps(s: State, es: seq<Event>, session: Session)
    requires Orderly(s, session)
    requires forall e | e in es :: !e.Invalidate? && (e.Begin? ==> e.session == session)
    ensures Orderly(Run(s, es), session)
    decreases |es|
  {
    hide Orderly, Step;
    if es != [] {
      assert es[0] in es;
      StepKeeps(s, es[0], session);
      RunKeeps(Step(s, es[0]), es[1..], session);
    }
  }

  /**
   However the callers of one session interleave, at most one lookup succeeds, so
   at most one project is created, and every caller that returns has the stored one.
   */
  lemma LookedUpAtMostOnce(stored: Option<Project>, marked: Option<Session>, es: seq<Event>, session: Session)
    requires forall e | e in es :: !e.Invalidate? && (e.Begin? ==> e.session == session)
    ensures var s := Run(State(stored, marked, None, map[], 0), es);
            && s.lookups <= 1
            && forall k | k in s.callers && s.callers[k].pc.Done? :: s.stored == Some(s.callers[k].pc.project)
  {
    RunKeeps(State(stored, marked, None, map[], 0), es, session);
  }
}
