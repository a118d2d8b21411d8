/**
 What the backend believes about the account behind one connection. A sign-in
 switch starts a new generation; credit requests are in flight across it.
 */
module AccountRefresh {
  import opened Base

  type TaskId = nat

  /** A stored answer remembers the generation in which its request was issued. */
  datatype Stamped<T> = Stamped(value: T, issued: nat)

  datatype Account = Account(
    generation: nat,
    signedIn: bool,
    email: Option<nat>,
    credits: Option<Stamped<int>>,
    tier: Option<Stamped<nat>>,
    requests: map<TaskId, nat>)

  /**
   A captured token signs in without a new generation. `Refuse` is any answer
   that stores nothing; `Cleared` is a paid attempt, or a refresh without an API key.
   */
  datatype Event =
    | AuthAvailable
    | TokenCaptured
    | UserInfo(email: Option<nat>)
    | Ask(task: TaskId)
    | Answer(task: TaskId, credits: Option<int>, tier: Option<nat>)
    | Refuse(task: TaskId, unauthorized: bool)
    | SignedOut
    | Cleared

  function Invalidated(a: Account): Account { a.(signedIn := false, tier := None, credits := None) }

  function Stamp<T>(value: Option<T>, issued: nat): Option<Stamped<T>> {
    if value.Some? then Some(Stamped(value.value, issued)) else None
  }

  function Ended(a: Account, task: TaskId): Account { a.(requests := a.requests - {task}) }

  function Step(a: Account, e: Event): Account {
    match e
    case AuthAvailable =>
      a.(generation := a.generation + 1, signedIn := true, email := None, tier := None, credits := None)
    case TokenCaptured => a.(signedIn := true)
    case UserInfo(email) => a.(email := email)
    case Ask(task) =>
      if task in a.requests || !a.signedIn then a
      else a.(credits := None, requests := a.requests[task := a.generation])
    case Answer(task, credits, tier) =>
      if task !in a.requests then a
      else if a.requests[task] != a.generation then Ended(a, task)
      else Ended(a.(credits := Stamp(credits, a.requests[task]), tier := Stamp(tier, a.requests[task])), task)
    case Refuse(task, unauthorized) =>
      if task !in a.requests then a
      else if a.requests[task] == a.generation && unauthorized then Ended(Invalidated(a), task)
      else Ended(a, task)
    case SignedOut => Invalidated(a)
    case Cleared => a.(credits := None)
  }

  function Run(a: Account, es: seq<Event>): Account
    decreases |es|
  {
    if es == [] then a else Run(Step(a, es[0]), es[1..])
  }

  const FRESH := Account(0, false, None, None, None, map[])

  ghost predicate Current(a: Account) {
    && (a.credits.Some? ==> a.credits.value.issued == a.generation)
    && (a.tier.Some? ==> a.tier.value.issued == a.generation)
    && forall t | t in a.requests :: a.requests[t] <= a.generation
  }

  lemma {:induction false} RunKeeps(a: Account, es: seq<Event>)
    requires Current(a)
    ensures Current(Run(a, es))
    decreases |es|
  {
    if es != [] {
      RunKeeps(Step(a, es[0]), es[1..]);
    }
  }

  /** Over one connection's lifetime stored credits and tier come from a request issued in its current generation. */
  lemma StoredIsCurrent(es: seq<Event>)
    ensures var a := Run(FRESH, es);
            && (a.credits.Some? ==> a.credits.value.issued == a.generation)
            && (a.tier.Some? ==> a.tier.value.issued == a.generation)
  {
    RunKeeps(FRESH, es);
  }

  /** No sign-in generation is ever entered twice. */
  lemma {:induction false} GenerationsGrow(a: Account, es: seq<Event>)
    ensures a.generation <= Run(a, es).generation
    ensures AuthAvailable in es ==> a.generation < Run(a, es).generation
    decreases |es|
  {
    if es != [] {
      GenerationsGrow(Step(a, es[0]), es[1..]);
    }
  }

  /**
   A request issued before a sign-in switch never changes what is believed
   about the account after it, whatever it brings and however late it comes.
   */
  lemma LateAnswerIsIgnored(a: Account, task: TaskId, es: seq<Event>, credits: Option<int>, tier: Option<nat>,
                            unauthorized: bool)
    requires task !in a.requests && a.signedIn
    requires AuthAvailable in es && forall e | e in es :: !((e.Answer? || e.Refuse?) && e.task == task)
    ensures var b := Run(Step(a, Ask(task)), es);
            && Step(b, Answer(task, credits, tier)) == Ended(b, task)
            && Step(b, Refuse(task, unauthorized)) == Ended(b, task)
  {
    GenerationsGrow(Step(a, Ask(task)), es);
    RequestStays(Step(a, Ask(task)), task, es);
  }

  lemma {:induction false} RequestStays(a: Account, task: TaskId, es: seq<Event>)
    requires task in a.requests && forall e | e in es :: !((e.Answer? || e.Refuse?) && e.task == task)
    ensures task in Run(a, es).requests && Run(a, es).requests[task] == a.requests[task]
    decreases |es|
  {
    if es != [] {
      assert es[0] in es;
      RequestStays(Step(a, es[0]), task, es[1..]);
    }
  }

  class Connection {
    var authGeneration: nat
    var flowKey: bool
    var accountEmail: Option<nat>
    var credits: Option<Stamped<int>>
    var paygateTier: Option<Stamped<nat>>
    var requests: map<TaskId, nat>

    function View(): Account
      reads this
    {
      Account(authGeneration, flowKey, accountEmail, credits, paygateTier, requests)
    }

    constructor ()
      ensures View() == FRESH
    {
      authGeneration, flowKey, accountEmail, credits, paygateTier, requests := 0, false, None, None, None, map[];
    }

    method HandleTokenCaptured()
      modifies this
      ensures View() == Step(old(View()), TokenCaptured)
      ensures Current(old(View())) ==> Current(View())
    {
      flowKey := true;
    }

    method HandleAuthAvailable()
      modifies this
      ensures View() == Step(old(View()), AuthAvailable)
      ensures credits.None? && paygateTier.None? && accountEmail.None? && flowKey
      ensures authGeneration == old(authGeneration) + 1 && requests == old(requests)
      ensures Current(old(View())) ==> Current(View()) && forall t | t in requests :: requests[t] < authGeneration
    {
      authGeneration := authGeneration + 1;
      accountEmail := None;
      paygateTier := None;
      credits := None;
      flowKey := true;
    }

    /** refresh_account up to its request; false when there is nothing to ask with. */
    method BeginRefresh(task: TaskId) returns (asked: bool)
      requires task !in requests
      modifies this
      ensures asked == old(flowKey) && View() == Step(old(View()), Ask(task))
      ensures asked ==> credits.None? && requests == old(requests)[task := authGeneration]
      ensures !asked ==> View() == old(View())
      ensures authGeneration == old(authGeneration) && paygateTier == old(paygateTier) && accountEmail == old(accountEmail)
      ensures Current(old(View())) ==> Current(View())
    {
      if !flowKey {
        return false;
      }
      credits := None;
      requests := requests[task := authGeneration];
      asked := true;
    }

    /** refresh_account after a usable answer. */
    method EndRefresh(task: TaskId, balance: Option<int>, tier: Option<nat>) returns (kept: bool)
      requires task in requests
      modifies this
      ensures View() == Step(old(View()), Answer(task, balance, tier))
      ensures kept <==> old(requests)[task] == old(authGeneration)
      ensures kept ==>
                && credits == (if balance.Some? then Some(Stamped(balance.value, authGeneration)) else None)
                && paygateTier == (if tier.Some? then Some(Stamped(tier.value, authGeneration)) else None)
      ensures !kept ==> credits == old(credits) && paygateTier == old(paygateTier)
      ensures requests == old(requests) - {task}
      ensures authGeneration == old(authGeneration) && accountEmail == old(accountEmail) && flowKey == old(flowKey)
      ensures Current(old(View())) ==> Current(View())
    {
      var generation := requests[task];
      requests := requests - {task};
      if authGeneration != generation {
        return false;
      }
      paygateTier := Stamp(tier, generation);
      credits := Stamp(balance, generation);
      kept := true;
    }

    /** refresh_account after an answer it cannot use: a refused sign-in of the current generation is forgotten. */
    method RefuseRefresh(task: TaskId, unauthorized: bool)
      requires task in requests
      modifies this
      ensures View() == Step(old(View()), Refuse(task, unauthorized))
      ensures requests == old(requests) - {task} && authGeneration == old(authGeneration) && accountEmail == old(accountEmail)
      ensures unauthorized && old(requests)[task] == old(authGeneration) ==>
                !flowKey && credits.None? && paygateTier.None?
      ensures !(unauthorized && old(requests)[task] == old(authGeneration)) ==>
                flowKey == old(flowKey) && credits == old(credits) && paygateTier == old(paygateTier)
      ensures Current(old(View())) ==> Current(View())
    {
      var generation := requests[task];
      requests := requests - {task};
      if authGeneration == generation && unauthorized {
        flowKey := false;
        credits := None;
        paygateTier := None;
      }
    }
  }
}
