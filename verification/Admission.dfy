/**
 Admission of generation requests in front of the durable queue: the middleware
 takes a temporary slot, the route enqueues at most one job, and the slot is
 given back when the request ends. Layered on the dispatch protocol, so any
 worker, crash or maintenance step may fall between a request's own steps.
 */
module Admission {
  import opened Base
  import opened JobTable
  import opened AssetLibrary
  import opened Protocol
  import opened ProtocolSafety
  import opened Guarantees

  type RequestId = nat

  /** One Idempotency-Key header, stripped. Blank and overlong values are unusable: no job is ever stored under one. */
  datatype KeyHeader = Unusable | Usable(key: Key)

  /** The middleware folds the headers into a dictionary, so the last one decides admission. */
  function AdmittedKey(headers: seq<KeyHeader>): Option<Key> {
    if headers == [] || headers[|headers| - 1].Unusable? then None else Some(headers[|headers| - 1].key)
  }

  /** The routes look the header up in the request, which finds the first one. */
  function SubmittedKey(headers: seq<KeyHeader>): Option<Key> {
    if headers == [] || headers[0].Unusable? then None else Some(headers[0].key)
  }

  /** A route refuses an unusable key before it enqueues anything. */
  predicate Accepted(headers: seq<KeyHeader>) { headers != [] ==> headers[0].Usable? }

  /** A request that may pass as a replay does not go on to enqueue under another key. */
  predicate Agrees(headers: seq<KeyHeader>) {
    AdmittedKey(headers).Some? && Accepted(headers) ==> SubmittedKey(headers) == AdmittedKey(headers)
  }

  /** A further header decides admission and leaves what is enqueued; one in front does the reverse. */
  lemma HeadersDecide(headers: seq<KeyHeader>, h: KeyHeader)
    ensures AdmittedKey([]) == None && SubmittedKey([]) == None
    ensures AdmittedKey(headers + [h]) == if h.Usable? then Some(h.key) else None
    ensures SubmittedKey([h] + headers) == if h.Usable? then Some(h.key) else None
    ensures headers != [] ==> AdmittedKey([h] + headers) == AdmittedKey(headers)
    ensures headers != [] ==> SubmittedKey(headers + [h]) == SubmittedKey(headers)
    ensures Accepted([]) && (Accepted([h] + headers) <==> h.Usable?)
  {
  }

  /** dict(headers): each header replaces the one before it under the same name. */
  method FoldHeaders(headers: seq<KeyHeader>) returns (kept: Option<KeyHeader>)
    ensures kept.None? <==> headers == []
    ensures kept.Some? ==> kept.value == headers[|headers| - 1]
    ensures AdmittedKey(headers) == if kept.Some? && kept.value.Usable? then Some(kept.value.key) else None
  {
    kept := None;
    for i := 0 to |headers|
      invariant kept == if i == 0 then None else Some(headers[i - 1])
    {
      kept := Some(headers[i]);
    }
  }

  datatype Request = Request(headers: seq<KeyHeader>, slot: bool, enqueued: bool)

  /** `pending` is the runtime's pending_job_admissions; `requests` are those in flight. */
  datatype Front = Front(p: Protocol.State, requests: map<RequestId, Request>, pending: int, limit: int)

  datatype Act =
    | Admit(request: RequestId, headers: seq<KeyHeader>)
    | Submit(request: RequestId, id: JobId, sub: Submission)
    | Leave(request: RequestId)
    | Other(e: Protocol.Event)

  datatype Admitted = Admitted(allowed: bool, reserved: bool)

  /** try_reserve_job_admission: a known key passes without a slot. */
  function TryReserve(jobs: Jobs, pending: int, limit: int, key: Option<Key>): Admitted {
    if KeyTaken(jobs, key) then Admitted(true, false)
    else if |ActiveIds(jobs)| + pending >= limit then Admitted(false, false)
    else Admitted(true, true)
  }

  /** A route enqueues at most once, under the key it reads itself. */
  predicate MaySubmit(f: Front, request: RequestId, sub: Submission) {
    && request in f.requests && !f.requests[request].enqueued
    && Accepted(f.requests[request].headers) && sub.key == SubmittedKey(f.requests[request].headers)
  }

  ghost function Next(f: Front, a: Act): Front {
    match a
    case Admit(request, headers) =>
      var admitted := TryReserve(f.p.jobs, f.pending, f.limit, AdmittedKey(headers));
      if request in f.requests || !admitted.allowed then f
      else f.(requests := f.requests[request := Request(headers, admitted.reserved, false)],
              pending := f.pending + (if admitted.reserved then 1 else 0))
    case Submit(request, id, sub) =>
      if MaySubmit(f, request, sub)
      then f.(p := Step(f.p, Enqueue(id, sub)),
              requests := f.requests[request := f.requests[request].(enqueued := true)])
      else f
    case Leave(request) =>
      if request in f.requests
      then f.(requests := Without(f.requests, {request}),
              pending := if f.requests[request].slot && f.pending > 0 then f.pending - 1 else f.pending)
      else f
    case Other(e) =>
      if e.Enqueue? then f
      else if e.Crash? then f.(p := Step(f.p, e), requests := map[], pending := 0)
      else f.(p := Step(f.p, e))
  }

  ghost function Serve(f: Front, acts: seq<Act>): Front
    decreases |acts|
  {
    if acts == [] then f else Serve(Next(f, acts[0]), acts[1..])
  }

  function Slots(requests: map<RequestId, Request>): set<RequestId> {
    set r | r in requests && requests[r].slot
  }

  /** Admitted with a slot and not yet in the table. */
  function Waiting(requests: map<RequestId, Request>): set<RequestId> {
    set r | r in requests && requests[r].slot && !requests[r].enqueued
  }

  function Backlog(f: Front): nat { |ActiveIds(f.p.jobs)| + |Waiting(f.requests)| }

  ghost predicate Orderly(f: Front) {
    && Inv(f.p)
    && f.pending == |Slots(f.requests)|
    && forall r | r in f.requests && !f.requests[r].slot :: KeyTaken(f.p.jobs, AdmittedKey(f.requests[r].headers))
  }

  /** No request in flight carries disagreeing keys. */
  predicate Agreed(f: Front) { forall r | r in f.requests :: Agrees(f.requests[r].headers) }

  predicate AdmitsAgree(acts: seq<Act>) { forall a | a in acts && a.Admit? :: Agrees(a.headers) }

  ghost predicate Bounded(f: Front) { Backlog(f) <= f.limit }

  // ----- what the protocol's own steps do to the backlog -------------------------------------

  /** Only an enqueue adds active work; every other step leaves it or retires some of it. */
  lemma OnlyEnqueueAddsWork(s: State, e: Event)
    requires Inv(s) && !e.Enqueue?
    ensures ActiveIds(Step(s, e).jobs) <= ActiveIds(s.jobs)
  {
    hide Inv, Step;
    StepAddsNoRow(s, e);
    forall id | id in ActiveIds(Step(s, e).jobs) ensures id in ActiveIds(s.jobs) {
      StepMoves(s, e, id);
    }
  }

  lemma EnqueueAddsAtMostOne(s: State, id: JobId, sub: Submission)
    ensures ActiveIds(Step(s, Enqueue(id, sub)).jobs) <= ActiveIds(s.jobs) + {id}
    ensures KeyTaken(s.jobs, sub.key) ==> Step(s, Enqueue(id, sub)).jobs == s.jobs
  {
    hide NextRowid;
  }

  lemma TakenIsSome(jobs: Jobs, key: Option<Key>)
    requires KeyTaken(jobs, key)
    ensures key.Some?
  {
  }

  lemma KnownKeyStays(s: State, e: Event, key: Option<Key>)
    requires Inv(s) && KeyTaken(s.jobs, key)
    ensures KeyTaken(Step(s, e).jobs, key)
  {
    hide Inv, Step;
    var id :| id in s.jobs && s.jobs[id].sub.key == key;
    StepMoves(s, e, id);
    assert Step(s, e).jobs[id].sub.key == key;
  }

  // ----- the invariant ------------------------------------------------------------------------

  lemma KnownKeysStay(f: Front, e: Event)
    requires Orderly(f)
    ensures forall r | r in f.requests && !f.requests[r].slot :: KeyTaken(Step(f.p, e).jobs, AdmittedKey(f.requests[r].headers))
  {
    hide Inv, Step, KeyTaken;
    forall r | r in f.requests && !f.requests[r].slot ensures KeyTaken(Step(f.p, e).jobs, AdmittedKey(f.requests[r].headers)) {
      KnownKeyStays(f.p, e, AdmittedKey(f.requests[r].headers));
    }
  }

  lemma SlotsAfterAdmit(requests: map<RequestId, Request>, r: RequestId, q: Request)
    requires r !in requests && !q.enqueued
    ensures Slots(requests[r := q]) == Slots(requests) + (if q.slot then {r} else {})
    ensures Waiting(requests[r := q]) == Waiting(requests) + (if q.slot then {r} else {})
  {
  }

  lemma SlotsAfterSubmit(requests: map<RequestId, Request>, r: RequestId)
    requires r in requests && !requests[r].enqueued
    ensures Slots(requests[r := requests[r].(enqueued := true)]) == Slots(requests)
    ensures Waiting(requests[r := requests[r].(enqueued := true)]) == Waiting(requests) - {r}
    ensures requests[r].slot ==> r in Waiting(requests)
  {
  }

  lemma SlotsAfterLeave(requests: map<RequestId, Request>, r: RequestId)
    requires r in requests
    ensures Slots(Without(requests, {r})) == Slots(requests) - {r}
    ensures Waiting(Without(requests, {r})) <= Waiting(requests)
    ensures requests[r].slot <==> r in Slots(requests)
  {
  }

  lemma AdmitKeeps(f: Front, request: RequestId, headers: seq<KeyHeader>)
    requires Orderly(f)
    ensures Orderly(Next(f, Admit(request, headers)))
    ensures Bounded(f) ==> Bounded(Next(f, Admit(request, headers)))
  {
    hide Inv, KeyTaken, AdmittedKey, ActiveIds;
    var admitted := TryReserve(f.p.jobs, f.pending, f.limit, AdmittedKey(headers));
    if request !in f.requests && admitted.allowed {
      SlotsAfterAdmit(f.requests, request, Request(headers, admitted.reserved, false));
      Cardinality(Waiting(f.requests), Slots(f.requests));
      hide Slots, Waiting;
    }
  }

  lemma SubmitKeeps(f: Front, request: RequestId, id: JobId, sub: Submission)
    requires Orderly(f)
    ensures Orderly(Next(f, Submit(request, id, sub)))
    ensures Bounded(f) && Agreed(f) ==> Bounded(Next(f, Submit(request, id, sub)))
  {
    hide Inv, KeyTaken, ActiveIds, Step;
    if MaySubmit(f, request, sub) {
      StepKeeps(f.p, Enqueue(id, sub));
      KnownKeysStay(f, Enqueue(id, sub));
      EnqueueAddsAtMostOne(f.p, id, sub);
      SlotsAfterSubmit(f.requests, request);
      if !f.requests[request].slot {
        TakenIsSome(f.p.jobs, AdmittedKey(f.requests[request].headers));
      }
      hide Slots, Waiting;
      var before, after := ActiveIds(f.p.jobs), ActiveIds(Step(f.p, Enqueue(id, sub)).jobs);
      Cardinality(after, before + {id});
    }
  }

  lemma LeaveKeeps(f: Front, request: RequestId)
    requires Orderly(f)
    ensures Orderly(Next(f, Leave(request)))
    ensures Bounded(f) ==> Bounded(Next(f, Leave(request)))
  {
    hide Inv, KeyTaken, ActiveIds;
    if request in f.requests {
      SlotsAfterLeave(f.requests, request);
      hide Slots, Waiting;
      Cardinality(Waiting(Without(f.requests, {request})), Waiting(f.requests));
    }
  }

  lemma OtherKeeps(f: Front, e: Event)
    requires Orderly(f)
    ensures Orderly(Next(f, Other(e)))
    ensures Bounded(f) ==> Bounded(Next(f, Other(e)))
  {
    hide Inv, KeyTaken, Step, ActiveIds;
    if !e.Enqueue? {
      StepKeeps(f.p, e);
      KnownKeysStay(f, e);
      OnlyEnqueueAddsWork(f.p, e);
      Cardinality(ActiveIds(Step(f.p, e).jobs), ActiveIds(f.p.jobs));
    }
  }

  lemma NextKeeps(f: Front, a: Act)
    requires Orderly(f)
    ensures Orderly(Next(f, a))
    ensures Bounded(f) && Agreed(f) ==> Bounded(Next(f, a))
    ensures Next(f, a).limit == f.limit
  {
    hide Orderly, Bounded, Agreed, Step, TryReserve, MaySubmit;
    match a
    case Admit(request, headers) => AdmitKeeps(f, request, headers);
    case Submit(request, id, sub) => SubmitKeeps(f, request, id, sub);
    case Leave(request) => LeaveKeeps(f, request);
    case Other(e) => OtherKeeps(f, e);
  }

  lemma NextAgrees(f: Front, a: Act)
    requires Agreed(f) && (a.Admit? ==> Agrees(a.headers))
    ensures Agreed(Next(f, a))
  {
    hide Agrees, Step, TryReserve;
  }

  lemma {:induction false} ServeKeeps(f: Front, acts: seq<Act>)
    requires Orderly(f)
    ensures Orderly(Serve(f, acts)) && Serve(f, acts).limit == f.limit
    decreases |acts|
  {
    hide Orderly, Bounded, Agreed, Next;
    if acts != [] {
      NextKeeps(f, acts[0]);
      ServeKeeps(Next(f, acts[0]), acts[1..]);
    }
  }

  lemma {:induction false} ServeStaysBounded(f: Front, acts: seq<Act>)
    requires Orderly(f) && Bounded(f) && Agreed(f) && AdmitsAgree(acts)
    ensures Bounded(Serve(f, acts))
    decreases |acts|
  {
    hide Orderly, Bounded, Agreed, Agrees, Next;
    if acts != [] {
      assert acts[0] in acts;
      NextKeeps(f, acts[0]);
      NextAgrees(f, acts[0]);
      ServeStaysBounded(Next(f, acts[0]), acts[1..]);
    }
  }

  /** A freshly started process in front of any reachable store. */
  function Start(p: Protocol.State, limit: int): Front { Front(p, map[], 0, limit) }

  /**
   Active jobs plus requests admitted but not yet enqueued never exceed
   job_queue_max_active, if the stored jobs are within it when the process starts
   and no request that may pass as a replay enqueues under another key.
   */
  lemma BacklogIsBounded(p: Protocol.State, limit: int, acts: seq<Act>)
    requires Reachable(p) && |ActiveIds(p.jobs)| <= limit && AdmitsAgree(acts)
    ensures Backlog(Serve(Start(p, limit), acts)) <= limit
  {
    hide Reachable, Inv, AdmitsAgree;
    ReachableOk(p);
    ServeKeeps(Start(p, limit), acts);
    ServeStaysBounded(Start(p, limit), acts);
  }

  /** The counter is exact in every run: one per slot still held, so its guard against going below zero never acts. */
  lemma AdmissionsAreCounted(p: Protocol.State, limit: int, acts: seq<Act>)
    requires Reachable(p)
    ensures var f := Serve(Start(p, limit), acts); f.pending == |Slots(f.requests)|
  {
    hide Reachable, Inv;
    ReachableOk(p);
    ServeKeeps(Start(p, limit), acts);
  }

  /**
   A request let through without a slot leaves the table alone if and only if the
   key it enqueues under is taken; otherwise the backlog grows by one, whatever
   the limit. With agreeing keys it is always taken, however late the enqueue.
   */
  lemma SlotlessAddsNothing(p: Protocol.State, limit: int, acts: seq<Act>, request: RequestId, id: JobId, sub: Submission)
    requires Reachable(p)
    requires var f := Serve(Start(p, limit), acts);
             && request in f.requests && !f.requests[request].slot && MaySubmit(f, request, sub)
             && id !in f.p.h.usedIds
    ensures var f := Serve(Start(p, limit), acts);
            var g := Next(f, Submit(request, id, sub));
            && (g.p.jobs == f.p.jobs <==> KeyTaken(f.p.jobs, sub.key))
            && Backlog(g) == Backlog(f) + (if KeyTaken(f.p.jobs, sub.key) then 0 else 1)
            && (Agrees(f.requests[request].headers) ==> KeyTaken(f.p.jobs, sub.key))
  {
    hide Reachable, Inv, Serve;
    ReachableOk(p);
    ServeKeeps(Start(p, limit), acts);
    var f := Serve(Start(p, limit), acts);
    SlotlessSubmit(f, request, id, sub);
    hide Next;
  }

  lemma SlotlessSubmit(f: Front, request: RequestId, id: JobId, sub: Submission)
    requires Orderly(f) && request in f.requests && !f.requests[request].slot
    requires MaySubmit(f, request, sub) && id !in f.p.h.usedIds
    ensures var g := Next(f, Submit(request, id, sub));
            && (g.p.jobs == f.p.jobs <==> KeyTaken(f.p.jobs, sub.key))
            && Backlog(g) == Backlog(f) + (if KeyTaken(f.p.jobs, sub.key) then 0 else 1)
            && (Agrees(f.requests[request].headers) ==> KeyTaken(f.p.jobs, sub.key))
  {
    hide Inv, ActiveIds, Step;
    FreshEnqueue(f.p, id, sub);
    SlotsAfterSubmit(f.requests, request);
    assert Waiting(f.requests) - {request} == Waiting(f.requests);
    assert AdmittedKey(f.requests[request].headers).Some?;
    hide Waiting, Slots, KeyTaken;
  }

  /** A fresh id adds exactly its own active row, unless its key is taken. */
  lemma FreshEnqueue(s: State, id: JobId, sub: Submission)
    requires Inv(s) && id !in s.h.usedIds
    ensures var jobs := Step(s, Enqueue(id, sub)).jobs;
            && (jobs == s.jobs <==> KeyTaken(s.jobs, sub.key))
            && |ActiveIds(jobs)| == |ActiveIds(s.jobs)| + (if KeyTaken(s.jobs, sub.key) then 0 else 1)
  {
    FreshIsNew(s, id);
    EnqueueInserts(s, id, sub);
    hide Inv, Step, Inserted;
    InsertedIsActive(s.jobs, id, sub, s.now);
    hide KeyTaken, ActiveIds;
  }

  lemma EnqueueInserts(s: State, id: JobId, sub: Submission)
    requires id !in s.h.usedIds
    ensures Step(s, Enqueue(id, sub)).jobs == Inserted(s.jobs, id, sub, s.now)
    ensures Step(s, Enqueue(id, sub)).h == s.h.(usedIds := s.h.usedIds + {id})
  {
    hide Inserted;
  }

  lemma InsertedIsActive(jobs: Jobs, id: JobId, sub: Submission, now: int)
    requires id !in jobs
    ensures var after := Inserted(jobs, id, sub, now);
            && (after == jobs <==> KeyTaken(jobs, sub.key))
            && |ActiveIds(after)| == |ActiveIds(jobs)| + (if KeyTaken(jobs, sub.key) then 0 else 1)
  {
    hide NextRowid;
    var after := Inserted(jobs, id, sub, now);
    if KeyTaken(jobs, sub.key) {
    } else {
      hide KeyTaken;
      assert id in after && after[id].status == Queued;
      assert ActiveIds(after) == ActiveIds(jobs) + {id};
    }
  }

  lemma FreshIsNew(s: State, id: JobId)
    requires Inv(s) && id !in s.h.usedIds
    ensures id !in s.jobs
  {
    hide TasksOk, SentOk, KeysOk, HonestOk, PollsOk, RowsDistinct;
  }

  // ----- header lists that break the bound ------------------------------------------------------

  /** With requests like this one beside agreeing ones, the bound holds in every run. */
  ghost predicate AlwaysBounded(headers: seq<KeyHeader>) {
    forall p: Protocol.State, limit: int, acts: seq<Act> ::
      Reachable(p) && |ActiveIds(p.jobs)| <= limit
      && (forall a | a in acts && a.Admit? :: Agrees(a.headers) || a.headers == headers)
      ==> Backlog(Serve(Start(p, limit), acts)) <= limit
  }

  function Plain(key: Key): Submission { Submission(Image, Some(key), {}, {}, None, None) }

  /** One agreeing request fills a queue of one; the second passes on its last key and enqueues under its first. */
  function Overfill(headers: seq<KeyHeader>): seq<Act>
    requires !Agrees(headers)
  {
    [Admit(1, [Usable(AdmittedKey(headers).value)]), Submit(1, 1, Plain(AdmittedKey(headers).value)),
     Admit(2, headers), Submit(2, 2, Plain(SubmittedKey(headers).value))]
  }

  lemma FourActs(f: Front, a: Act, b: Act, c: Act, d: Act)
    ensures Serve(f, [a, b, c, d]) == Next(Next(Next(Next(f, a), b), c), d)
  {
    hide Next;
    var g := Next(f, a);
    assert [a, b, c, d][1..] == [b, c, d] && [b, c, d][1..] == [c, d] && [c, d][1..] == [d] && [d][1..] == [];
    assert Serve(g, [b, c, d]) == Serve(Next(g, b), [c, d]);
    assert Serve(Next(g, b), [c, d]) == Serve(Next(Next(g, b), c), [d]);
  }

  /** A table whose only row is active and holds this key. */
  predicate OneKeyed(jobs: Jobs, key: Key) {
    jobs.Keys == {1} && Active(jobs[1]) && jobs[1].sub.key == Some(key)
  }

  lemma OneKeyedIs(jobs: Jobs, key: Key)
    requires OneKeyed(jobs, key)
    ensures ActiveIds(jobs) == {1} && forall k: Key :: KeyTaken(jobs, Some(k)) <==> k == key
  {
    assert 1 in jobs;
  }

  lemma FirstRow(cfg: Config, key: Key)
    ensures var s := Step(Init(cfg, 0), Enqueue(1, Plain(key)));
            Inv(s) && OneKeyed(s.jobs, key) && s.h.usedIds == {1}
  {
    hide Inv, Step, Inserted, OneKeyed;
    InitOk(cfg, 0);
    StepKeeps(Init(cfg, 0), Enqueue(1, Plain(key)));
    EnqueueInserts(Init(cfg, 0), 1, Plain(key));
    OneInserted(key);
  }

  lemma OneInserted(key: Key)
    ensures OneKeyed(Inserted(map[], 1, Plain(key), 0), key)
  {
    hide NextRowid;
  }

  lemma AdmitsFirst(s: State, key: Key)
    requires s.jobs == map[]
    ensures Next(Front(s, map[], 0, 1), Admit(1, [Usable(key)])) ==
            Front(s, map[1 := Request([Usable(key)], true, false)], 1, 1)
  {
    assert ActiveIds(s.jobs) == {};
  }

  lemma SubmitsFirst(s: State, key: Key)
    ensures Next(Front(s, map[1 := Request([Usable(key)], true, false)], 1, 1), Submit(1, 1, Plain(key))) ==
            Front(Step(s, Enqueue(1, Plain(key))), map[1 := Request([Usable(key)], true, true)], 1, 1)
  {
    hide Step;
  }

  lemma AdmitsSecond(s: State, key: Key, headers: seq<KeyHeader>)
    requires OneKeyed(s.jobs, key) && AdmittedKey(headers) == Some(key)
    ensures Next(Front(s, map[1 := Request([Usable(key)], true, true)], 1, 1), Admit(2, headers)) ==
            Front(s, map[1 := Request([Usable(key)], true, true), 2 := Request(headers, false, false)], 1, 1)
  {
    hide ActiveIds, AdmittedKey;
    OneKeyedIs(s.jobs, key);
    hide KeyTaken;
  }

  lemma SubmitsSecond(s: State, key: Key, headers: seq<KeyHeader>)
    requires Inv(s) && OneKeyed(s.jobs, key) && s.h.usedIds == {1}
    requires Accepted(headers) && SubmittedKey(headers).Some? && SubmittedKey(headers) != Some(key)
    ensures var f := Front(s, map[1 := Request([Usable(key)], true, true), 2 := Request(headers, false, false)], 1, 1);
            Backlog(Next(f, Submit(2, 2, Plain(SubmittedKey(headers).value)))) == 2
  {
    hide Inv, Step, SubmittedKey, Accepted;
    var sub := Plain(SubmittedKey(headers).value);
    OneKeyedIs(s.jobs, key);
    FreshEnqueue(s, 2, sub);
    hide KeyTaken, ActiveIds;
    var requests := map[1 := Request([Usable(key)], true, true), 2 := Request(headers, false, true)];
    assert Waiting(requests) == {};
    assert map[1 := Request([Usable(key)], true, true), 2 := Request(headers, false, false)]
           [2 := Request(headers, false, true)] == requests;
  }

  /** Any disagreeing header list overfills a queue of one that held a single job. */
  lemma DisagreeingKeysOverfill(cfg: Config, headers: seq<KeyHeader>)
    requires !Agrees(headers)
    ensures Backlog(Serve(Start(Init(cfg, 0), 1), Overfill(headers))) == 2
  {
    var last, first := AdmittedKey(headers).value, SubmittedKey(headers).value;
    var s0 := Init(cfg, 0);
    AdmitsFirst(s0, last);
    SubmitsFirst(s0, last);
    FirstRow(cfg, last);
    var s1 := Step(s0, Enqueue(1, Plain(last)));
    hide Init, Step, Next, Backlog, Inv, OneKeyed, AdmittedKey, SubmittedKey;
    AdmitsSecond(s1, last, headers);
    SubmitsSecond(s1, last, headers);
    FourActs(Start(s0, 1), Admit(1, [Usable(last)]), Submit(1, 1, Plain(last)), Admit(2, headers), Submit(2, 2, Plain(first)));
  }

  /**
   So a header list is harmless in every run if and only if its first and last key
   are the same or one of them is none, which the middleware could check.
   */
  lemma HarmlessExactly(headers: seq<KeyHeader>)
    ensures AlwaysBounded(headers) <==>
              || headers == [] || headers[0].Unusable? || headers[|headers| - 1].Unusable?
              || headers[0].key == headers[|headers| - 1].key
  {
    AgreesExactly(headers);
    hide Reachable, Agrees;
    if Agrees(headers) {
      forall p: Protocol.State, limit: int, acts: seq<Act>
        | Reachable(p) && |ActiveIds(p.jobs)| <= limit
          && (forall a | a in acts && a.Admit? :: Agrees(a.headers) || a.headers == headers)
        ensures Backlog(Serve(Start(p, limit), acts)) <= limit
      {
        BacklogIsBounded(p, limit, acts);
      }
    } else {
      var cfg := Config(1, Limits(1, 1, 1), 1, 1, Retention(1, 1, 1, 0, 1));
      DisagreeingKeysOverfill(cfg, headers);
      FreshIsReachable(cfg);
      OverfillIsMostlyAgreeing(headers);
      assert Backlog(Serve(Start(Init(cfg, 0), 1), Overfill(headers))) > 1;
      hide Serve, Backlog, Overfill;
    }
  }

  lemma AgreesExactly(headers: seq<KeyHeader>)
    ensures Agrees(headers) <==>
              || headers == [] || headers[0].Unusable? || headers[|headers| - 1].Unusable?
              || headers[0].key == headers[|headers| - 1].key
  {
  }

  lemma FreshIsReachable(cfg: Config)
    ensures Reachable(Init(cfg, 0)) && ActiveIds(Init(cfg, 0).jobs) == {}
  {
    assert Init(cfg, 0) == Run(Init(cfg, 0), []);
  }

  lemma OverfillIsMostlyAgreeing(headers: seq<KeyHeader>)
    requires !Agrees(headers)
    ensures forall a | a in Overfill(headers) && a.Admit? :: Agrees(a.headers) || a.headers == headers
  {
  }

  /** The runtime's own counter; each method runs under job_admission_lock. */
  class Gate {
    var pendingJobAdmissions: nat
    const jobQueueMaxActive: int

    constructor (jobQueueMaxActive: int)
      ensures pendingJobAdmissions == 0 && this.jobQueueMaxActive == jobQueueMaxActive
    {
      pendingJobAdmissions := 0;
      this.jobQueueMaxActive := jobQueueMaxActive;
    }

    /** A new slot is taken exactly when it is reported, and then the bound still holds. */
    method TryReserveJobAdmission(jobs: Jobs, key: Option<Key>) returns (allowed: bool, reserved: bool)
      modifies this
      ensures Admitted(allowed, reserved) == TryReserve(jobs, old(pendingJobAdmissions), jobQueueMaxActive, key)
      ensures pendingJobAdmissions == old(pendingJobAdmissions) + (if reserved then 1 else 0)
      ensures reserved ==> |ActiveIds(jobs)| + pendingJobAdmissions <= jobQueueMaxActive
      ensures reserved ==> allowed
      ensures allowed && !reserved <==> key.Some? && exists id :: id in jobs && jobs[id].sub.key == key
      ensures !allowed <==>
                && (key.Some? ==> forall id | id in jobs :: jobs[id].sub.key != key)
                && |set id | id in jobs && jobs[id].status in {Queued, Dispatching, Running}| + old(pendingJobAdmissions)
                   >= jobQueueMaxActive
    {
      assert ActiveIds(jobs) == set id | id in jobs && jobs[id].status in {Queued, Dispatching, Running};
      if KeyTaken(jobs, key) {
        return true, false;
      }
      if |ActiveIds(jobs)| + pendingJobAdmissions >= jobQueueMaxActive {
        return false, false;
      }
      pendingJobAdmissions := pendingJobAdmissions + 1;
      return true, true;
    }

    method ReleaseJobAdmission()
      modifies this
      ensures pendingJobAdmissions == Max(0, old(pendingJobAdmissions) - 1)
    {
      if pendingJobAdmissions > 0 {
        pendingJobAdmissions := pendingJobAdmissions - 1;
      }
    }
  }

  // ----- reading the request body under the slot ------------------------------------------------

  datatype Message = Chunk(body: seq<bv8>, more: bool) | Disconnect

  datatype Received = Whole(body: seq<bv8>) | TooLarge | PassedOn | Waits

  function Joined(ms: seq<Message>): seq<bv8> {
    if ms == [] then [] else Joined(ms[..|ms| - 1]) + (if ms[|ms| - 1].Chunk? then ms[|ms| - 1].body else [])
  }

  /** Joining respects order: nothing is dropped, doubled or moved. */
  lemma {:induction false} JoinedInOrder(ms: seq<Message>, ns: seq<Message>, body: seq<bv8>, more: bool)
    ensures Joined(ms + ns) == Joined(ms) + Joined(ns)
    ensures Joined([Chunk(body, more)]) == body && Joined([Disconnect]) == []
    decreases |ns|
  {
    if ns == [] {
      assert ms + ns == ms;
    } else {
      var init, last := ns[..|ns| - 1], ns[|ns| - 1];
      assert (ms + ns)[..|ms + ns| - 1] == ms + init && (ms + ns)[|ms + ns| - 1] == last;
      JoinedInOrder(ms, init, body, more);
    }
    assert [Chunk(body, more)][..0] == [] && [Disconnect][..0] == [];
  }

  /**
   The middleware's receive loop, `n` messages in: the application sees exactly
   the joined body up to the first final chunk, and never one over the limit.
   */
  method ReceiveBody(ms: seq<Message>, limit: nat) returns (r: Received, n: nat)
    ensures n <= |ms|
    ensures forall i | 0 <= i < n - 1 :: ms[i].Chunk? && ms[i].more
    ensures forall i | 0 <= i < n :: |Joined(ms[..i])| <= limit
    ensures r.Whole? ==> n > 0 && ms[n - 1].Chunk? && !ms[n - 1].more && r.body == Joined(ms[..n]) && |r.body| <= limit
    ensures r.TooLarge? ==> n > 0 && ms[n - 1].Chunk? && |Joined(ms[..n])| > limit
    ensures r.PassedOn? ==> n > 0 && ms[n - 1].Disconnect?
    ensures r.Waits? ==> n == |ms| && (n > 0 ==> ms[n - 1].Chunk? && ms[n - 1].more && |Joined(ms)| <= limit)
  {
    var buffered: seq<bv8> := [];
    n := 0;
    while n < |ms|
      invariant n <= |ms| && buffered == Joined(ms[..n])
      invariant forall i | 0 <= i < n :: ms[i].Chunk? && ms[i].more
      invariant forall i | 0 <= i <= n :: |Joined(ms[..i])| <= limit
    {
      var message := ms[n];
      n := n + 1;
      assert ms[..n][..n - 1] == ms[..n - 1];
      if message.Disconnect? {
        return PassedOn, n;
      }
      buffered := buffered + message.body;
      if |buffered| > limit {
        return TooLarge, n;
      }
      if !message.more {
        return Whole(buffered), n;
      }
    }
    assert ms[..n] == ms;
    r := Waits;
  }
}
