/**
 The extension's bearer cache: fetches of the Labs session overlap, complete in
 any order, and race with captured sessions that publish a token themselves.
 A fetch completion and the store that follows it are one step.
 */
module BearerCache {
  import opened Base

  type FetchId = nat

  /** A token remembers the sequence number and the sign-in generation its fetch or publication began with. */
  datatype Token = Token(text: nat, started: nat, generation: nat)

  /** `sync` marks the fetch of browserOwnedSyncAuth, which may still fail after its token was stored. */
  datatype Fetch = Fetch(sequence: nat, generation: nat, expected: Option<nat>, sync: bool, answered: bool)

  /** The globals authGeneration, authFetchSequence and cachedBearer, and the fetches in flight. */
  datatype Globals = Globals(generation: nat, sequence: nat, cached: Option<Token>, fetches: map<FetchId, Fetch>)

  function FetchStarted(g: Globals, id: FetchId, expected: Option<nat>, sync: bool): Globals {
    g.(sequence := g.sequence + 1,
       fetches := g.fetches[id := Fetch(g.sequence + 1, g.generation, expected, sync, false)])
  }

  /** The condition under which fetchLabsSession returns null. */
  predicate Outdated(g: Globals, f: Fetch) {
    || f.sequence != g.sequence
    || (f.expected.Some? && (f.generation != g.generation || f.expected.value != g.generation))
  }

  /** What a completing fetch returns, and stores. */
  function Result(g: Globals, id: FetchId, text: nat): Option<Token> {
    if id !in g.fetches || g.fetches[id].answered || Outdated(g, g.fetches[id]) then None
    else Some(Token(text, g.fetches[id].sequence, g.fetches[id].generation))
  }

  function Completed(g: Globals, id: FetchId, text: nat): Globals {
    if id !in g.fetches || g.fetches[id].answered then g
    else g.(fetches := g.fetches[id := g.fetches[id].(answered := true)],
            cached := if Result(g, id, text).Some? then Result(g, id, text) else g.cached)
  }

  function Failed(g: Globals, id: FetchId, socketOpen: bool): Globals {
    if id !in g.fetches then g
    else
      var f := g.fetches[id];
      g.(fetches := g.fetches - {id},
         cached := if f.sync && socketOpen && f.generation == g.generation && f.sequence == g.sequence
                   then None else g.cached)
  }

  function Published(g: Globals, text: nat): Globals {
    g.(generation := g.generation + 1, sequence := g.sequence + 1,
       cached := Some(Token(text, g.sequence + 1, g.generation + 1)))
  }

  // ----- whole runs --------------------------------------------------------------------------

  /** A request that wants the bearer: it noted the generation and then waits for a token. */
  datatype Use = Use(generation: nat, token: Option<Token>)

  /** `stores` and `sends` only record: the start of every stored token, and each sent token with the generation then. */
  datatype State = State(g: Globals, uses: map<FetchId, Use>, stores: seq<nat>, sends: seq<(Token, nat)>)

  datatype Event =
    | StartFetch(id: FetchId, expected: Option<nat>, sync: bool)
    | Complete(id: FetchId, text: nat)
    | Fail(id: FetchId, socketOpen: bool)
    | Publish(text: nat)
    | Disconnect
    | StartUse(id: FetchId, young: bool)
    | Send(id: FetchId)

  const START := State(Globals(0, 0, None, map[]), map[], [], [])

  function Step(s: State, e: Event): State {
    match e
    case StartFetch(id, expected, sync) =>
      if id in s.g.fetches || id in s.uses then s else s.(g := FetchStarted(s.g, id, expected, sync))
    case Complete(id, text) =>
      var r := Result(s.g, id, text);
      s.(g := Completed(s.g, id, text),
         uses := if r.Some? && id in s.uses then s.uses[id := s.uses[id].(token := r)] else s.uses,
         stores := if r.Some? then s.stores + [r.value.started] else s.stores)
    case Fail(id, socketOpen) => s.(g := Failed(s.g, id, socketOpen))
    case Publish(text) => s.(g := Published(s.g, text), stores := s.stores + [s.g.sequence + 1])
    case Disconnect => s.(g := s.g.(cached := None))
    case StartUse(id, young) =>
      if id in s.g.fetches || id in s.uses then s
      else if young && s.g.cached.Some? then s.(uses := s.uses[id := Use(s.g.generation, s.g.cached)])
      else s.(g := FetchStarted(s.g, id, Some(s.g.generation), false), uses := s.uses[id := Use(s.g.generation, None)])
    case Send(id) =>
      if id in s.uses && s.uses[id].token.Some? && s.uses[id].generation == s.g.generation
      then s.(uses := s.uses - {id}, sends := s.sends + [(s.uses[id].token.value, s.g.generation)])
      else s
  }

  function Run(s: State, es: seq<Event>): State
    decreases |es|
  {
    if es == [] then s else Run(Step(s, es[0]), es[1..])
  }

  predicate Sorted(xs: seq<nat>) { forall i, j | 0 <= i < j < |xs| :: xs[i] <= xs[j] }

  /** Nothing stored or in flight began after the current sequence number or generation. */
  ghost predicate GlobalsOk(g: Globals, stores: seq<nat>) {
    && Sorted(stores) && (stores != [] ==> stores[|stores| - 1] <= g.sequence)
    && (g.cached.Some? ==> stores != [] && g.cached.value.started == stores[|stores| - 1]
                           && g.cached.value.generation == g.generation)
    && forall id | id in g.fetches ::
         && g.fetches[id].sequence <= g.sequence && g.fetches[id].generation <= g.generation
         && (g.fetches[id].sequence == g.sequence ==> g.fetches[id].generation == g.generation)
  }

  ghost predicate UsesOk(s: State) {
    && (forall id | id in s.uses ::
          && (s.uses[id].token.Some? ==> s.uses[id].token.value.generation == s.uses[id].generation)
          && (id in s.g.fetches ==> s.g.fetches[id].expected == Some(s.uses[id].generation)))
    && forall i | 0 <= i < |s.sends| :: s.sends[i].0.generation == s.sends[i].1
  }

  lemma StepKeepsGlobals(s: State, e: Event)
    requires GlobalsOk(s.g, s.stores)
    ensures GlobalsOk(Step(s, e).g, Step(s, e).stores)
  {
  }

  lemma StepKeepsUses(s: State, e: Event)
    requires GlobalsOk(s.g, s.stores) && UsesOk(s)
    ensures UsesOk(Step(s, e))
  {
  }

  lemma {:induction false} RunKeeps(s: State, es: seq<Event>)
    requires GlobalsOk(s.g, s.stores) && UsesOk(s)
    ensures GlobalsOk(Run(s, es).g, Run(s, es).stores) && UsesOk(Run(s, es))
    decreases |es|
  {
    hide GlobalsOk, UsesOk, Step;
    if es != [] {
      StepKeepsGlobals(s, es[0]);
      StepKeepsUses(s, es[0]);
      RunKeeps(Step(s, es[0]), es[1..]);
    }
  }

  // ----- the promises ------------------------------------------------------------------------

  /**
   In every completion order, tokens are stored in the order their fetches and
   publications began: an earlier one never replaces a later one, not even
   after a disconnect emptied the cache in between.
   */
  lemma EarlierNeverReplacesLater(es: seq<Event>)
    ensures var s := Run(START, es);
            && Sorted(s.stores)
            && (s.g.cached.Some? ==> s.stores != [] && s.g.cached.value.started == s.stores[|s.stores| - 1])
  {
    RunKeeps(START, es);
  }

  /** A token in the cache, and a token put on a request, always belongs to the sign-in current at that moment. */
  lemma TokensAreCurrent(es: seq<Event>)
    ensures var s := Run(START, es);
            && (s.g.cached.Some? ==> s.g.cached.value.generation == s.g.generation)
            && forall i | 0 <= i < |s.sends| :: s.sends[i].0.generation == s.sends[i].1
  {
    RunKeeps(START, es);
  }

  /** A completion is stored exactly when nothing began after its fetch and the sign-in it expected is still there. */
  lemma StoredExactly(es: seq<Event>, id: FetchId, text: nat)
    requires var s := Run(START, es); id in s.g.fetches && !s.g.fetches[id].answered
    ensures var s := Run(START, es);
            var f := s.g.fetches[id];
            Step(s, Complete(id, text)).stores != s.stores <==>
              f.sequence == s.g.sequence && (f.expected.Some? ==> f.expected.value == s.g.generation)
  {
    hide Run;
    RunKeeps(START, es);
    var s := Run(START, es);
    assert |s.stores + [s.g.fetches[id].sequence]| == |s.stores| + 1;
  }

  /** A failing fetch only clears a token that began no later than itself, and only while nothing newer has begun. */
  lemma FailureClearsNothingNewer(es: seq<Event>, id: FetchId, socketOpen: bool)
    requires var s := Run(START, es); s.g.cached.Some? && Step(s, Fail(id, socketOpen)).g.cached.None?
    ensures var s := Run(START, es);
            id in s.g.fetches && s.g.cached.value.started <= s.g.fetches[id].sequence == s.g.sequence
  {
    hide Run;
    RunKeeps(START, es);
  }

  /** A published token is the one that the next request puts on. */
  lemma PublishedTokenIsSent(text: nat)
    ensures Run(START, [Publish(text), StartUse(1, true), Send(1)]).sends == [(Token(text, 1, 1), 1)]
  {
    var a := Step(START, Publish(text));
    var b := Step(a, StartUse(1, true));
    assert b.uses == map[1 := Use(1, Some(Token(text, 1, 1)))];
    var es := [Publish(text), StartUse(1, true), Send(1)];
    assert es[1..] == [StartUse(1, true), Send(1)] && es[1..][1..] == [Send(1)] && es[1..][1..][1..] == [];
    assert Run(b, [Send(1)]) == Step(b, Send(1));
  }

  /** So is a token that a request fetched for itself, unless something newer began meanwhile. */
  lemma FetchedTokenIsSent(text: nat)
    ensures Run(START, [StartUse(1, false), Complete(1, text), Send(1)]).sends == [(Token(text, 1, 0), 0)]
  {
    var a := Step(START, StartUse(1, false));
    var b := Step(a, Complete(1, text));
    assert b.uses == map[1 := Use(0, Some(Token(text, 1, 0)))];
    var es := [StartUse(1, false), Complete(1, text), Send(1)];
    assert es[1..] == [Complete(1, text), Send(1)] && es[1..][1..] == [Send(1)] && es[1..][1..][1..] == [];
    assert Run(b, [Send(1)]) == Step(b, Send(1));
  }

  // ----- the object ---------------------------------------------------------------------------

  class Background {
    var authGeneration: nat
    var authFetchSequence: nat
    var cachedBearer: Option<Token>
    var fetches: map<FetchId, Fetch>

    function View(): Globals
      reads this
    {
      Globals(authGeneration, authFetchSequence, cachedBearer, fetches)
    }

    constructor ()
      ensures View() == START.g
    {
      authGeneration, authFetchSequence, cachedBearer, fetches := 0, 0, None, map[];
    }

    method FetchLabsSession(id: FetchId, expected: Option<nat>, sync: bool)
      modifies this
      ensures View() == FetchStarted(old(View()), id, expected, sync)
      ensures forall o | o in old(fetches) && o != id && old(fetches)[o].sequence <= old(authFetchSequence) ::
                Outdated(View(), fetches[o])
      ensures forall stores :: GlobalsOk(old(View()), stores) ==> GlobalsOk(View(), stores)
      ensures authFetchSequence == old(authFetchSequence) + 1 && authGeneration == old(authGeneration)
      ensures cachedBearer == old(cachedBearer)
      ensures fetches == old(fetches)[id := Fetch(authFetchSequence, authGeneration, expected, sync, false)]
    {
      authFetchSequence := authFetchSequence + 1;
      fetches := fetches[id := Fetch(authFetchSequence, authGeneration, expected, sync, false)];
    }

    /** The rest of fetchLabsSession once the session is there; None is its null. */
    method SessionArrived(id: FetchId, text: nat) returns (r: Option<Token>)
      requires id in fetches && !fetches[id].answered
      modifies this
      ensures r == Result(old(View()), id, text) && View() == Completed(old(View()), id, text)
      ensures r == if old(fetches)[id].sequence == authFetchSequence
                      && (old(fetches)[id].expected.Some? ==>
                            old(fetches)[id].generation == authGeneration && old(fetches)[id].expected.value == authGeneration)
                   then Some(Token(text, old(fetches)[id].sequence, old(fetches)[id].generation)) else None
      ensures cachedBearer == if r.Some? then r else old(cachedBearer)
      ensures authFetchSequence == old(authFetchSequence) && authGeneration == old(authGeneration)
    {
      var f := fetches[id];
      fetches := fetches[id := f.(answered := true)];
      if f.sequence != authFetchSequence
         || (f.expected.Some? && (f.generation != authGeneration || f.expected.value != authGeneration)) {
        return None;
      }
      cachedBearer := Some(Token(text, f.sequence, f.generation));
      r := cachedBearer;
    }

    method SyncFailed(id: FetchId, socketOpen: bool)
      requires id in fetches
      modifies this
      ensures View() == Failed(old(View()), id, socketOpen)
      ensures cachedBearer == if old(fetches)[id].sync && socketOpen && old(fetches)[id].generation == authGeneration
                                 && old(fetches)[id].sequence == authFetchSequence
                              then None else old(cachedBearer)
      ensures fetches == old(fetches) - {id}
      ensures authFetchSequence == old(authFetchSequence) && authGeneration == old(authGeneration)
      ensures forall stores :: GlobalsOk(old(View()), stores) ==> GlobalsOk(View(), stores)
    {
      var f := fetches[id];
      if f.sync && socketOpen && f.generation == authGeneration && f.sequence == authFetchSequence {
        cachedBearer := None;
      }
      fetches := fetches - {id};
    }

    method PublishCapturedSession(text: nat)
      modifies this
      ensures View() == Published(old(View()), text)
      ensures authGeneration == old(authGeneration) + 1 && authFetchSequence == old(authFetchSequence) + 1
      ensures cachedBearer == Some(Token(text, authFetchSequence, authGeneration)) && fetches == old(fetches)
      ensures forall o | o in fetches && fetches[o].sequence <= old(authFetchSequence) :: Outdated(View(), fetches[o])
    {
      authGeneration := authGeneration + 1;
      authFetchSequence := authFetchSequence + 1;
      cachedBearer := None;
      cachedBearer := Some(Token(text, authFetchSequence, authGeneration));
    }
  }
}
