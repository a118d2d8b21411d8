/**
 The bridge to the browser extensions: three lookup tables over the live
 connections, and the calls that wait for an answer from one of them. A call is
 a coroutine; its future can be settled by a reply, by the loss of the
 connection, or by its own timeout or cancellation.
 */
module Bridge {
  import opened Base

  type Socket = nat
  type RequestId = nat
  type ConnectionId = string

  const ID_LIMIT: nat := 120

  /** stable_account_id. */
  function StableId(installation: string): ConnectionId {
    if |installation| <= ID_LIMIT then installation else installation[..ID_LIMIT]
  }

  datatype Connection = Connection(id: ConnectionId, ws: Socket, installation: string)

  /** `GivenUp` is a future its own waiter has cancelled. */
  datatype Future = Waiting | Replied(data: nat) | Broken | GivenUp

  datatype Tables = Tables(
    connections: map<ConnectionId, Connection>,
    byInstallation: map<string, ConnectionId>,
    bySocket: map<Socket, ConnectionId>,
    pending: map<RequestId, ConnectionId>,
    futures: map<RequestId, Future>)

  function PendingOf(b: Tables, id: ConnectionId): set<RequestId> {
    set r | r in b.pending && b.pending[r] == id
  }

  /** pending_count. */
  function PendingCount(b: Tables, id: ConnectionId): nat { |PendingOf(b, id)| }

  function AllBroken(futures: map<RequestId, Future>, requests: set<RequestId>): map<RequestId, Future> {
    map r | r in futures :: if r in requests && futures[r] == Waiting then Broken else futures[r]
  }

  lemma NoneBroken(futures: map<RequestId, Future>)
    ensures AllBroken(futures, {}) == futures
  {
  }

  lemma BreakOne(futures: map<RequestId, Future>, broken: set<RequestId>, r: RequestId)
    requires r !in broken
    ensures var f := AllBroken(futures, broken);
            AllBroken(futures, broken + {r}) == if r in f && f[r] == Waiting then f[r := Broken] else f
  {
  }

  /** clear(connection_id=...). */
  function Cleared(b: Tables, id: ConnectionId): Tables {
    if id !in b.connections then b
    else
      var c := b.connections[id];
      Tables(b.connections - {id}, b.byInstallation - {c.installation}, b.bySocket - {c.ws},
             b.pending - PendingOf(b, id), AllBroken(b.futures, PendingOf(b, id)))
  }

  /** clear(ws): whatever the socket is registered as now. */
  function ClearedSocket(b: Tables, ws: Socket): Tables {
    if ws in b.bySocket then Cleared(b, b.bySocket[ws]) else b
  }

  function Added(b: Tables, ws: Socket, installation: string): Tables {
    var id := StableId(installation);
    b.(connections := b.connections[id := Connection(id, ws, installation)],
       byInstallation := b.byInstallation[installation := id],
       bySocket := b.bySocket[ws := id])
  }

  /** register: an earlier connection under the same id is cleared first. */
  function Registered(b: Tables, ws: Socket, installation: string): Tables {
    Added(Cleared(b, StableId(installation)), ws, installation)
  }

  /** handle_message with a reply: the entry goes, and its future is set unless it is done. */
  function Delivered(b: Tables, r: RequestId, data: nat): Tables {
    if r !in b.pending then b
    else b.(pending := b.pending - {r},
            futures := if r in b.futures && b.futures[r] == Waiting then b.futures[r := Replied(data)] else b.futures)
  }

  // ----- the tables are mutually inverse ------------------------------------------------------

  ghost predicate Inverse(b: Tables) {
    && (forall id | id in b.connections ::
          var c := b.connections[id];
          && c.id == id && id == StableId(c.installation)
          && c.installation in b.byInstallation && b.byInstallation[c.installation] == id
          && c.ws in b.bySocket && b.bySocket[c.ws] == id)
    && (forall i | i in b.byInstallation ::
          b.byInstallation[i] in b.connections && b.connections[b.byInstallation[i]].installation == i)
    && forall w | w in b.bySocket ::
         b.bySocket[w] in b.connections && b.connections[b.bySocket[w]].ws == w
  }

  lemma ClearKeepsInverse(b: Tables, id: ConnectionId)
    requires Inverse(b)
    ensures Inverse(Cleared(b, id))
  {
    hide StableId, PendingOf, AllBroken;
  }

  lemma AddKeepsInverse(b: Tables, ws: Socket, installation: string)
    requires Inverse(b) && ws !in b.bySocket && StableId(installation) !in b.connections
    ensures Inverse(Added(b, ws, installation))
  {
    forall i | i in b.byInstallation ensures i != installation {
      assert b.connections[b.byInstallation[i]].installation == i;
    }
    hide StableId;
  }

  lemma RegisterKeepsInverse(b: Tables, ws: Socket, installation: string)
    requires Inverse(b) && ws !in b.bySocket
    ensures Inverse(Registered(b, ws, installation))
  {
    hide Inverse, Added, PendingOf, AllBroken, StableId;
    ClearKeepsInverse(b, StableId(installation));
    AddKeepsInverse(Cleared(b, StableId(installation)), ws, installation);
  }

  /** Registering an installation drops another connection exactly when the first 120 characters agree. */
  lemma EvictsExactly(b: Tables, ws: Socket, installation: string, other: ConnectionId)
    requires Inverse(b) && ws !in b.bySocket && other in b.connections && b.connections[other].installation != installation
    ensures other in Registered(b, ws, installation).connections
            && Registered(b, ws, installation).connections[other] == b.connections[other]
            <==> b.connections[other].installation[..Min(120, |b.connections[other].installation|)]
                 != installation[..Min(120, |installation|)]
    ensures |b.connections[other].installation| <= 120 && |installation| <= 120 ==>
              other in Registered(b, ws, installation).connections
  {
    StableIdIsPrefix(installation);
    StableIdIsPrefix(b.connections[other].installation);
    hide PendingOf, AllBroken, StableId;
  }

  lemma StableIdIsPrefix(installation: string)
    ensures StableId(installation) == installation[..Min(120, |installation|)]
  {
    assert installation[..|installation|] == installation;
  }

  // ----- calls in flight -------------------------------------------------------------------------

  /** `live` are the send_rpc coroutines that have not ended; `settled` counts every set_result and set_exception. */
  datatype State = State(b: Tables, live: set<RequestId>, settled: multiset<RequestId>)

  datatype Event =
    | Register(ws: Socket, installation: string)
    | ClearSocket(ws: Socket)
    | ClearConnection(id: ConnectionId)
    | Call(r: RequestId, id: ConnectionId)
    | Message(r: RequestId, data: nat)
    | GiveUp(r: RequestId)
    | Resume(r: RequestId)

  /** The future was set, by a reply or by the loss of its connection. */
  predicate Settled(b: Tables, r: RequestId) {
    r in b.futures && (b.futures[r].Replied? || b.futures[r].Broken?)
  }

  /** The requests whose future a step sets. */
  function SetBy(b: Tables, after: Tables): set<RequestId> {
    set r | r in b.futures && r in after.futures && b.futures[r] == Waiting && Settled(after, r)
  }

  function Settling(s: State, after: Tables): State {
    s.(b := after, settled := s.settled + multiset(SetBy(s.b, after)))
  }

  function Step(s: State, e: Event): State {
    match e
    case Register(ws, installation) =>
      if ws in s.b.bySocket || installation == "" then s else Settling(s, Registered(s.b, ws, installation))
    case ClearSocket(ws) => Settling(s, ClearedSocket(s.b, ws))
    case ClearConnection(id) => Settling(s, Cleared(s.b, id))
    case Call(r, id) =>
      if r in s.b.futures || id !in s.b.connections then s
      else s.(b := s.b.(pending := s.b.pending[r := id], futures := s.b.futures[r := Waiting]), live := s.live + {r})
    case Message(r, data) => Settling(s, Delivered(s.b, r, data))
    case GiveUp(r) =>
      if r in s.live && r in s.b.futures && s.b.futures[r] == Waiting
      then s.(b := s.b.(futures := s.b.futures[r := GivenUp])) else s
    case Resume(r) =>
      if r in s.live && r in s.b.futures && s.b.futures[r] != Waiting
      then s.(b := s.b.(pending := s.b.pending - {r}), live := s.live - {r}) else s
  }

  function Run(s: State, es: seq<Event>): State
    decreases |es|
  {
    if es == [] then s else Run(Step(s, es[0]), es[1..])
  }

  const START := State(Tables(map[], map[], map[], map[], map[]), {}, multiset{})

  /** Entries belong to a live connection and a live call; a call that still waits is always listed. */
  ghost predicate CallsOk(s: State) {
    && (forall r | r in s.b.pending ::
          && s.b.pending[r] in s.b.connections && r in s.live && r in s.b.futures
          && (s.b.futures[r] == Waiting || s.b.futures[r] == GivenUp))
    && (forall r | r in s.live :: r in s.b.futures && (s.b.futures[r] == Waiting ==> r in s.b.pending))
    && (forall r | r in s.b.futures && r !in s.live :: s.b.futures[r] != Waiting)
  }

  /** A future is set at most once, and exactly the settled ones have been. */
  ghost predicate SettledOk(s: State) {
    forall r :: s.settled[r] == if Settled(s.b, r) then 1 else 0
  }

  lemma ClearKeepsCalls(s: State, id: ConnectionId)
    requires CallsOk(s)
    ensures CallsOk(s.(b := Cleared(s.b, id)))
  {
  }

  lemma RegisterKeepsCalls(s: State, ws: Socket, installation: string)
    requires CallsOk(s)
    ensures CallsOk(s.(b := Registered(s.b, ws, installation)))
  {
    ClearKeepsCalls(s, StableId(installation));
    hide Cleared, StableId;
  }

  lemma StepKeepsCalls(s: State, e: Event)
    requires CallsOk(s)
    ensures CallsOk(Step(s, e))
  {
    match e
    case Register(ws, installation) => RegisterKeepsCalls(s, ws, installation); hide Registered, CallsOk;
    case ClearSocket(ws) => if ws in s.b.bySocket { ClearKeepsCalls(s, s.b.bySocket[ws]); hide Cleared, CallsOk; }
    case ClearConnection(id) => ClearKeepsCalls(s, id); hide Cleared, CallsOk;
    case _ =>
  }

  /** A waiting future may be set once; nothing changes back. */
  ghost predicate FuturesAdvance(a: Tables, b: Tables) {
    forall r | r in a.futures :: r in b.futures && (b.futures[r] == a.futures[r] || a.futures[r] == Waiting)
  }

  lemma SettlingKeepsCount(s: State, after: Tables)
    requires SettledOk(s) && FuturesAdvance(s.b, after) && after.futures.Keys == s.b.futures.Keys
    ensures SettledOk(Settling(s, after))
  {
    var t := Settling(s, after);
    forall r ensures t.settled[r] == if Settled(after, r) then 1 else 0 {
      assert multiset(SetBy(s.b, after))[r] == if r in SetBy(s.b, after) then 1 else 0;
    }
  }

  lemma StepKeepsCount(s: State, e: Event)
    requires SettledOk(s)
    ensures SettledOk(Step(s, e))
  {
    hide SettledOk, SetBy, StableId, PendingOf;
    match e
    case Register(ws, installation) =>
      if ws !in s.b.bySocket && installation != "" { SettlingKeepsCount(s, Registered(s.b, ws, installation)); }
    case ClearSocket(ws) => SettlingKeepsCount(s, ClearedSocket(s.b, ws));
    case ClearConnection(id) => SettlingKeepsCount(s, Cleared(s.b, id));
    case Message(r, data) => SettlingKeepsCount(s, Delivered(s.b, r, data));
    case _ => UnsetKeepsCount(s, e);
  }

  lemma UnsetKeepsCount(s: State, e: Event)
    requires SettledOk(s) && (e.Call? || e.GiveUp? || e.Resume?)
    ensures SettledOk(Step(s, e))
  {
  }

  lemma StepKeepsInverse(s: State, e: Event)
    requires Inverse(s.b)
    ensures Inverse(Step(s, e).b)
  {
    match e
    case Register(ws, installation) =>
      if ws !in s.b.bySocket { RegisterKeepsInverse(s.b, ws, installation); }
      hide Registered;
    case ClearSocket(ws) =>
      if ws in s.b.bySocket { ClearKeepsInverse(s.b, s.b.bySocket[ws]); }
      hide Cleared;
    case ClearConnection(id) => ClearKeepsInverse(s.b, id); hide Cleared;
    case _ =>
  }

  lemma {:induction false} RunKeeps(s: State, es: seq<Event>)
    requires Inverse(s.b) && CallsOk(s) && SettledOk(s)
    ensures var t := Run(s, es); Inverse(t.b) && CallsOk(t) && SettledOk(t)
    decreases |es|
  {
    hide Inverse, CallsOk, SettledOk, Step;
    if es != [] {
      StepKeepsInverse(s, es[0]);
      StepKeepsCalls(s, es[0]);
      StepKeepsCount(s, es[0]);
      RunKeeps(Step(s, es[0]), es[1..]);
    }
  }

  // ----- the promises ----------------------------------------------------------------------------

  /** In every run the connection, installation and socket tables are mutually inverse. */
  lemma TablesAgree(es: seq<Event>)
    ensures Inverse(Run(START, es).b)
  {
    RunKeeps(START, es);
  }

  /**
   In every run each pending entry belongs to a live connection and an unfinished
   call, no future is set twice, and a call that has ended has left no entry.
   */
  lemma CallsAreAccountedFor(es: seq<Event>, r: RequestId)
    ensures var s := Run(START, es);
            && (r in s.b.pending ==> s.b.pending[r] in s.b.connections && r in s.live)
            && s.settled[r] <= 1
            && (r !in s.live ==> r !in s.b.pending)
            && (r in s.live ==> r in s.b.futures && (s.b.futures[r] == Waiting ==> r in s.b.pending))
  {
    RunKeeps(START, es);
  }

  /** Losing a connection settles every call that waited for it, at once, and nobody else's. */
  lemma LossSettlesItsCalls(es: seq<Event>, id: ConnectionId, r: RequestId)
    requires var s := Run(START, es);
             id in s.b.connections && r in s.live && r in s.b.futures && s.b.futures[r] == Waiting
    ensures var s := Run(START, es);
            var t := Step(s, ClearConnection(id));
            && PendingCount(t.b, id) == 0
            && r in t.b.futures && r in s.b.pending
            && (t.b.futures[r] == Broken <==> s.b.pending[r] == id)
            && (t.b.futures[r] == Waiting <==> s.b.pending[r] != id)
  {
    hide Run;
    RunKeeps(START, es);
    var s := Run(START, es);
    assert PendingOf(Cleared(s.b, id), id) == {};
  }

  /** A socket that is not registered stays unregistered until it registers again. */
  lemma {:induction false} StaysUnregistered(s: State, es: seq<Event>, ws: Socket)
    requires ws !in s.b.bySocket && forall e | e in es :: !(e.Register? && e.ws == ws)
    ensures ws !in Run(s, es).b.bySocket
    decreases |es|
  {
    if es != [] {
      assert es[0] in es;
      hide SetBy, PendingOf, AllBroken, StableId;
      StaysUnregistered(Step(s, es[0]), es[1..], ws);
    }
  }

  /**
   A socket superseded by a reconnect of its installation never disturbs its
   successor: whenever its own cleanup runs, it changes nothing.
   */
  lemma SupersededCleanupIsIdle(es: seq<Event>, old_: Socket, new_: Socket, installation: string, fs: seq<Event>)
    requires var s := Run(START, es);
             && old_ in s.b.bySocket && new_ !in s.b.bySocket && installation != ""
             && s.b.bySocket[old_] == StableId(installation)
    requires forall e | e in fs :: !(e.Register? && e.ws == old_)
    ensures var t := Run(Step(Run(START, es), Register(new_, installation)), fs);
            Step(t, ClearSocket(old_)) == t
  {
    RunKeeps(START, es);
    var s := Run(START, es);
    var u := Step(s, Register(new_, installation));
    assert old_ !in u.b.bySocket;
    StaysUnregistered(u, fs, old_);
    var t := Run(u, fs);
    assert SetBy(t.b, t.b) == {};
  }

  lemma RegisteredFields(b: Tables, ws: Socket, installation: string)
    ensures var r := Registered(b, ws, installation);
            var id := StableId(installation);
            && r.connections == b.connections[id := Connection(id, ws, installation)]
            && r.bySocket == (if id in b.connections then b.bySocket - {b.connections[id].ws} else b.bySocket)[ws := id]
            && r.byInstallation ==
               (if id in b.connections then b.byInstallation - {b.connections[id].installation} else b.byInstallation)[installation := id]
  {
    hide StableId, PendingOf, AllBroken;
  }

  /** What the object's methods do to the tables is what the steps do. */
  lemma MethodsAreSteps(s: State, ws: Socket, installation: string, id: ConnectionId, r: RequestId, data: nat)
    ensures ws !in s.b.bySocket && installation != "" ==>
              Step(s, Register(ws, installation)).b == Registered(s.b, ws, installation)
    ensures Step(s, ClearSocket(ws)).b == ClearedSocket(s.b, ws)
    ensures Step(s, ClearConnection(id)).b == Cleared(s.b, id)
    ensures Step(s, Message(r, data)).b == Delivered(s.b, r, data)
    ensures r !in s.b.futures && id in s.b.connections ==>
              && Step(s, Call(r, id)).b.pending == s.b.pending[r := id]
              && Step(s, Call(r, id)).b.futures == s.b.futures[r := Waiting]
              && Step(s, Call(r, id)).live == s.live + {r}
  {
    hide Registered, ClearedSocket, Cleared, Delivered, SetBy;
  }

  // ----- the object --------------------------------------------------------------------------------

  class FlowBridge {
    var connections: map<ConnectionId, Connection>
    var installationToId: map<string, ConnectionId>
    var wsToId: map<Socket, ConnectionId>
    var pending: map<RequestId, ConnectionId>
    var futures: map<RequestId, Future>

    function View(): Tables
      reads this
    {
      Tables(connections, installationToId, wsToId, pending, futures)
    }

    constructor ()
      ensures View() == START.b
    {
      connections, installationToId, wsToId, pending, futures := map[], map[], map[], map[], map[];
    }

    method Register(ws: Socket, installation: string) returns (r: Option<Connection>)
      modifies this
      ensures installation == "" <==> r.None?
      ensures r.None? ==> View() == old(View())
      ensures r.Some? ==> r.value == Connection(StableId(installation), ws, installation)
                          && View() == Registered(old(View()), ws, installation)
      ensures r.Some? && Inverse(old(View())) && ws !in old(wsToId) ==> Inverse(View())
      ensures r.Some? ==>
                var id := installation[..Min(120, |installation|)];
                && connections == old(connections)[id := Connection(id, ws, installation)]
                && wsToId == (if id in old(connections) then old(wsToId) - {old(connections)[id].ws} else old(wsToId))[ws := id]
                && installationToId ==
                   (if id in old(connections) then old(installationToId) - {old(connections)[id].installation}
                    else old(installationToId))[installation := id]
    {
      if installation == "" {
        return None;
      }
      ghost var before := View();
      var c := Replace(ws, installation);
      r := Some(c);
      if Inverse(before) && ws !in before.bySocket {
        RegisterKeepsInverse(before, ws, installation);
      }
      RegisteredFields(before, ws, installation);
      StableIdIsPrefix(installation);
      hide StableId, Inverse, Registered;
    }

    /** A connection under the same id goes, with its calls; the new one takes its place. */
    method Replace(ws: Socket, installation: string) returns (c: Connection)
      modifies this
      ensures c == Connection(StableId(installation), ws, installation)
      ensures View() == Registered(old(View()), ws, installation)
    {
      hide StableId, PendingOf, AllBroken;
      var id := StableId(installation);
      if id in connections {
        Clear(id);
      }
      c := Connection(id, ws, installation);
      connections := connections[id := c];
      installationToId := installationToId[installation := id];
      wsToId := wsToId[ws := id];
    }

    method ClearSocket(ws: Socket)
      modifies this
      ensures View() == ClearedSocket(old(View()), ws)
    {
      if ws in wsToId {
        Clear(wsToId[ws]);
      }
    }

    method Clear(id: ConnectionId)
      modifies this
      ensures View() == Cleared(old(View()), id)
      ensures id !in old(connections) ==> View() == old(View())
      ensures id in old(connections) ==>
                && connections == old(connections) - {id} && wsToId == old(wsToId) - {old(connections)[id].ws}
                && installationToId == old(installationToId) - {old(connections)[id].installation}
                && pending.Keys == (set r | r in old(pending) && old(pending)[r] != id)
                && (forall r | r in pending :: pending[r] == old(pending)[r])
                && futures.Keys == old(futures).Keys
                && (forall r | r in futures :: futures[r] ==
                      if r in old(pending) && old(pending)[r] == id && old(futures)[r] == Waiting then Broken else old(futures)[r])
    {
      if id !in connections {
        return;
      }
      var c := connections[id];
      connections := connections - {id};
      installationToId := installationToId - {c.installation};
      wsToId := wsToId - {c.ws};
      BreakPending(id);
      hide PendingOf, AllBroken;
    }

    /** The loop over a copy of the pending calls: those of this connection are removed and broken. */
    method BreakPending(id: ConnectionId)
      modifies this`pending, this`futures
      ensures pending == old(pending) - PendingOf(old(View()), id)
      ensures futures == AllBroken(old(futures), PendingOf(old(View()), id))
    {
      hide AllBroken;
      var items := pending.Keys;
      ghost var mine := PendingOf(View(), id);
      ghost var broken: set<RequestId> := {};
      NoneBroken(futures);
      while items != {}
        invariant items <= old(pending).Keys && broken == mine - items
        invariant pending == old(pending) - broken
        invariant futures == AllBroken(old(futures), broken)
        decreases |items|
      {
        var r :| r in items;
        if pending[r] == id {
          BreakOne(old(futures), broken, r);
          broken := broken + {r};
          pending := pending - {r};
          if r in futures && futures[r] == Waiting {
            futures := futures[r := Broken];
          }
        }
        items := items - {r};
      }
      assert broken == mine;
    }

    /** send_rpc up to its wait: an entry under a fresh id, if the connection is there. */
    method StartCall(request: RequestId, id: ConnectionId) returns (sent: bool)
      requires request !in futures
      modifies this`pending, this`futures
      ensures sent <==> id in connections
      ensures !sent ==> View() == old(View())
      ensures sent ==> pending == old(pending)[request := id] && futures == old(futures)[request := Waiting]
      ensures forall live, settled {:trigger State(old(View()), live, settled)} ::
                View() == Step(State(old(View()), live, settled), Call(request, id)).b
    {
      if id !in connections {
        return false;
      }
      pending := pending[request := id];
      futures := futures[request := Waiting];
      sent := true;
    }

    /** Its end by a timeout or cancellation: the future is given up and the entry goes. */
    method AbandonCall(request: RequestId)
      requires request in futures
      modifies this`pending, this`futures
      ensures pending == old(pending) - {request}
      ensures futures == if old(futures)[request] == Waiting then old(futures)[request := GivenUp] else old(futures)
      ensures forall s: State {:trigger Step(s, GiveUp(request))} |
                s.b == old(View()) && request in s.live && old(futures)[request] == Waiting ::
                View() == Step(Step(s, GiveUp(request)), Resume(request)).b
    {
      if futures[request] == Waiting {
        futures := futures[request := GivenUp];
      }
      pending := pending - {request};
    }

    /** The reply part of handle_message. */
    method Deliver(request: RequestId, data: nat)
      modifies this`pending, this`futures
      ensures View() == Delivered(old(View()), request, data)
      ensures pending == old(pending) - {request}
      ensures futures == if request in old(pending) && request in old(futures) && old(futures)[request] == Waiting
                         then old(futures)[request := Replied(data)] else old(futures)
    {
      if request in pending {
        pending := pending - {request};
        if request in futures && futures[request] == Waiting {
          futures := futures[request := Replied(data)];
        }
      }
    }
  }
}
