/**
 The credit balance of one account on one connection. The upstream holds the
 true balance; the connection object shows a copy of it that a refresh fills in
 and a paid attempt clears. Reserving uses Runtime.CanReserve on that copy.

 A refresh is two steps in the code, a request and the store of its answer; the
 event Refresh is the two taken as one. A charge is taken to land before its
 reservation is released, and nobody else spends from the account.
 */
module Credits {
  import opened Base
  import opened Runtime

  const CONN: Conn := 0

  /** `charged` is what the upstream has taken for this attempt so far. */
  datatype Attempt = Attempt(cost: nat, kind: JobKind, paying: bool, charged: nat)

  /** `settled`: a paid attempt has been released since the balance was read. */
  datatype Reading = Idle | Asked | Answered(balance: int, settled: bool)

  datatype State = State(
    cap: Capacity,
    balance: int,
    shown: Option<int>,
    counters: Counters,
    attempts: seq<Attempt>,
    reading: Reading)

  datatype Event =
    | Reserve(cost: nat, kind: JobKind, pending: nat)
    | Pay(index: nat)
    | Charge(index: nat, amount: nat)
    | Finish(index: nat)
    | Refresh
    | Ask
    | Answer
    | Store
    | Fail
    | Forget
    | TopUp(amount: nat)

  // ----- the price of a job -------------------------------------------------------------

  datatype Generation = Image | CharacterImage | ImageToVideo | OtherVideo

  function FlashCost(seconds: int): nat {
    if seconds == 4 then 15 else if seconds == 6 then 20 else if seconds == 8 then 25
    else if seconds == 10 then 30 else 20
  }

  /** _job_credit_cost. */
  function JobCost(g: Generation, seconds: int): nat {
    if g == Image || g == CharacterImage then 0
    else if g == ImageToVideo then 20
    else Max(15, FlashCost(seconds))
  }

  /** The price list. */
  lemma JobCostExactly(g: Generation, seconds: int)
    ensures g == Image || g == CharacterImage ==> JobCost(g, seconds) == 0
    ensures g == ImageToVideo ==> JobCost(g, seconds) == 20
    ensures g == OtherVideo ==>
              && JobCost(OtherVideo, 4) == 15 && JobCost(OtherVideo, 6) == 20
              && JobCost(OtherVideo, 8) == 25 && JobCost(OtherVideo, 10) == 30
              && (seconds !in {4, 6, 8, 10} ==> JobCost(OtherVideo, seconds) == 20)
  {
  }

  /** Every video needs a shown balance that still covers it; an image never does. */
  lemma OnlyVideosNeedBalance(g: Generation, seconds: int, c: Counters, balance: Option<int>)
    ensures JobCost(g, seconds) == 0 <==> g == Image || g == CharacterImage
    ensures JobCost(g, seconds) <= 30 && (JobCost(g, seconds) > 0 ==> JobCost(g, seconds) >= 15)
    ensures CanPay(c, CONN, None, JobCost(g, seconds)) <==> g == Image || g == CharacterImage
    ensures balance.Some? && balance.value - Get(c.credits, CONN) < 15 ==>
              (CanPay(c, CONN, balance, JobCost(g, seconds)) <==> g == Image || g == CharacterImage)
  {
  }

  // ----- sums ------------------------------------------------------------------------------

  function Held(a: Attempt): Reservation { Reservation(CONN, a.cost, a.kind) }

  function Ledger(attempts: seq<Attempt>): seq<Reservation> {
    seq(|attempts|, i requires 0 <= i < |attempts| => Held(attempts[i]))
  }

  function Promised(attempts: seq<Attempt>): nat { Total(Ledger(attempts), Table.Credits, CONN) }

  function Charged(attempts: seq<Attempt>): nat {
    if attempts == [] then 0 else Charged(attempts[..|attempts| - 1]) + attempts[|attempts| - 1].charged
  }

  /** Reserved but not yet charged. */
  function Owed(attempts: seq<Attempt>): int { Promised(attempts) - Charged(attempts) }

  /** The true balance covers everything that is reserved and may still be charged. */
  predicate Covered(s: State) { s.balance >= Owed(s.attempts) }

  lemma ChargedSnoc(attempts: seq<Attempt>, a: Attempt)
    ensures Charged(attempts + [a]) == Charged(attempts) + a.charged
  {
    assert (attempts + [a])[..|attempts|] == attempts;
  }

  lemma {:induction false} ChargedDropped(attempts: seq<Attempt>, i: nat)
    requires i < |attempts|
    ensures Charged(attempts) == Charged(Dropped(attempts, i)) + attempts[i].charged
  {
    var init, last := attempts[..|attempts| - 1], attempts[|attempts| - 1];
    if i < |init| {
      ChargedDropped(init, i);
      assert Dropped(attempts, i) == Dropped(init, i) + [last];
      ChargedSnoc(Dropped(init, i), last);
    } else {
      assert Dropped(attempts, i) == init;
    }
  }

  lemma {:induction false} ChargedUpdated(attempts: seq<Attempt>, i: nat, a: Attempt)
    requires i < |attempts|
    ensures Charged(attempts[i := a]) == Charged(attempts) - attempts[i].charged + a.charged
  {
    var init, last := attempts[..|attempts| - 1], attempts[|attempts| - 1];
    if i < |init| {
      ChargedUpdated(init, i, a);
      assert attempts[i := a][..|init|] == init[i := a];
    } else {
      assert attempts[i := a] == init + [a];
      ChargedSnoc(init, a);
    }
  }

  lemma LedgerSnoc(attempts: seq<Attempt>, a: Attempt)
    ensures Ledger(attempts + [a]) == Ledger(attempts) + [Held(a)]
  {
  }

  lemma LedgerDropped(attempts: seq<Attempt>, i: nat)
    requires i < |attempts|
    ensures Ledger(Dropped(attempts, i)) == Dropped(Ledger(attempts), i)
  {
  }

  lemma LedgerUpdated(attempts: seq<Attempt>, i: nat, a: Attempt)
    requires i < |attempts| && Held(a) == Held(attempts[i])
    ensures Ledger(attempts[i := a]) == Ledger(attempts)
  {
  }

  // ----- steps --------------------------------------------------------------------------------

  predicate Accepts(s: State, cost: nat, kind: JobKind, pending: nat) {
    CanReserve(s.counters, s.cap, CONN, s.shown, pending, cost, kind)
  }

  function Step(s: State, e: Event): State {
    match e
    case Reserve(cost, kind, pending) =>
      if Accepts(s, cost, kind, pending) then
        s.(counters := Reserved(s.counters, Reservation(CONN, cost, kind)),
           attempts := s.attempts + [Attempt(cost, kind, false, 0)])
      else s
    case Pay(i) =>
      if i < |s.attempts| then s.(attempts := s.attempts[i := s.attempts[i].(paying := true)]) else s
    case Charge(i, amount) =>
      if i < |s.attempts| && s.attempts[i].paying && s.attempts[i].charged + amount <= s.attempts[i].cost then
        s.(balance := s.balance - amount,
           attempts := s.attempts[i := s.attempts[i].(charged := s.attempts[i].charged + amount)])
      else s
    case Finish(i) =>
      if i < |s.attempts| then
        var paid := s.attempts[i].paying;
        s.(shown := if paid then None else s.shown,
           counters := Released(s.counters, Held(s.attempts[i])),
           attempts := Dropped(s.attempts, i),
           reading := if paid && s.reading.Answered? then s.reading.(settled := true) else s.reading)
      else s
    case Refresh => s.(shown := Some(s.balance))
    case Ask => if s.reading.Idle? then s.(shown := None, reading := Asked) else s
    case Answer => if s.reading.Asked? then s.(reading := Answered(s.balance, false)) else s
    case Store => if s.reading.Answered? then s.(shown := Some(s.reading.balance), reading := Idle) else s
    case Fail => s.(reading := Idle)
    case Forget => s.(shown := None)
    case TopUp(amount) => s.(balance := s.balance + amount)
  }

  function Run(s: State, es: seq<Event>): State
    decreases |es|
  {
    if es == [] then s else Run(Step(s, es[0]), es[1..])
  }

  /** No answer is stored after a paid attempt has been released since it was read. */
  predicate NoLateStore(s: State, es: seq<Event>)
    decreases |es|
  {
    es != [] ==>
      && !(es[0].Store? && s.reading.Answered? && s.reading.settled)
      && NoLateStore(Step(s, es[0]), es[1..])
  }

  function Init(cap: Capacity, balance: nat): State {
    State(cap, balance, None, EMPTY.counters, [], Idle)
  }

  // ----- the invariant ----------------------------------------------------------------------------

  /** A shown balance may be old, but only by charges whose reservations are still held. */
  ghost predicate Sound(s: State) {
    && Covered(s)
    && Balanced(s.counters, Ledger(s.attempts))
    && (s.shown.Some? ==> s.shown.value <= s.balance + Charged(s.attempts))
    && (s.reading.Answered? && !s.reading.settled ==> s.reading.balance <= s.balance + Charged(s.attempts))
    && forall i | 0 <= i < |s.attempts| ::
         && s.attempts[i].charged <= s.attempts[i].cost
         && (s.attempts[i].charged > 0 ==> s.attempts[i].paying)
  }

  /** What the runtime shows as available is the shown balance minus everything promised. */
  lemma ShownIsNet(s: State)
    requires Balanced(s.counters, Ledger(s.attempts))
    ensures Get(s.counters.credits, CONN) == Promised(s.attempts)
  {
    assert TableOf(s.counters, Table.Credits) == s.counters.credits;
  }

  lemma ReserveIsSound(s: State, cost: nat, kind: JobKind, pending: nat)
    requires Sound(s)
    ensures Sound(Step(s, Reserve(cost, kind, pending)))
  {
    hide Balanced, Total;
    var a := Attempt(cost, kind, false, 0);
    ShownIsNet(s);
    LedgerSnoc(s.attempts, a);
    ReserveBalances(s.counters, Ledger(s.attempts), Held(a));
    TotalSnoc(Ledger(s.attempts), Held(a), Table.Credits, CONN);
    ChargedSnoc(s.attempts, a);
    hide Ledger, Reserved;
  }

  lemma UpdateIsSound(s: State, e: Event)
    requires Sound(s) && (e.Pay? || e.Charge?)
    ensures Sound(Step(s, e))
  {
    hide Balanced, Total, Charged;
    var i := e.index;
    if i < |s.attempts| {
      var a := if e.Pay? then s.attempts[i].(paying := true)
               else s.attempts[i].(charged := s.attempts[i].charged + e.amount);
      LedgerUpdated(s.attempts, i, a);
      ChargedUpdated(s.attempts, i, a);
      hide Ledger;
    }
  }

  lemma FinishIsSound(s: State, i: nat)
    requires Sound(s)
    ensures Sound(Step(s, Finish(i)))
  {
    hide Balanced, Total, Charged;
    if i < |s.attempts| {
      ReleaseBalances(s.counters, Ledger(s.attempts), i);
      LedgerDropped(s.attempts, i);
      TotalDropped(Ledger(s.attempts), i, Table.Credits, CONN);
      ChargedDropped(s.attempts, i);
      var left := Dropped(s.attempts, i);
      assert forall j | 0 <= j < |left| :: left[j] == s.attempts[if j < i then j else j + 1];
      hide Ledger, Released, Dropped;
    }
  }

  lemma StepIsSound(s: State, e: Event)
    requires Sound(s) && NoLateStore(s, [e])
    ensures Sound(Step(s, e))
  {
    match e
    case Reserve(cost, kind, pending) => ReserveIsSound(s, cost, kind, pending);
    case Pay(_) => UpdateIsSound(s, e);
    case Charge(_, _) => UpdateIsSound(s, e);
    case Finish(i) => FinishIsSound(s, i);
    case _ => hide Balanced, Total, Charged, Ledger;
  }

  lemma {:induction false} RunIsSound(s: State, es: seq<Event>)
    requires Sound(s) && NoLateStore(s, es)
    ensures Sound(Run(s, es))
    decreases |es|
  {
    hide Sound, Step;
    if es != [] {
      assert NoLateStore(s, [es[0]]);
      StepIsSound(s, es[0]);
      RunIsSound(Step(s, es[0]), es[1..]);
    }
  }

  /** No account is overspent, in any run that never stores a balance read before a later settlement. */
  lemma NeverOverspent(cap: Capacity, balance: nat, es: seq<Event>)
    requires NoLateStore(Init(cap, balance), es)
    ensures Covered(Run(Init(cap, balance), es))
  {
    var s := Init(cap, balance);
    assert Balanced(s.counters, Ledger(s.attempts)) by {
      AllZero();
    }
    RunIsSound(s, es);
  }

  lemma AllZero()
    ensures Balanced(EMPTY.counters, [])
  {
    forall t: Table, id: Conn ensures Get(TableOf(EMPTY.counters, t), id) == 0 && id !in TableOf(EMPTY.counters, t) {
      match t case _ =>
    }
  }

  /** With each refresh read and stored in one step, that is every run. */
  lemma AtomicRefreshNeverOverspends(cap: Capacity, balance: nat, es: seq<Event>)
    requires forall e | e in es :: !e.Answer?
    ensures Covered(Run(Init(cap, balance), es))
  {
    NeverLate(Init(cap, balance), es);
    NeverOverspent(cap, balance, es);
  }

  lemma {:induction false} NeverLate(s: State, es: seq<Event>)
    requires !s.reading.Answered? && forall e | e in es :: !e.Answer?
    ensures NoLateStore(s, es)
    decreases |es|
  {
    if es != [] {
      assert es[0] in es;
      NeverLate(Step(s, es[0]), es[1..]);
    }
  }

  // ----- the two-step refresh ---------------------------------------------------------------------------

  /** Some reservation the runtime would accept now breaks the cover. */
  ghost predicate CanOverspend(s: State) {
    exists cost: nat :: Accepts(s, cost, VideoJob, 0) && !Covered(Step(s, Reserve(cost, VideoJob, 0)))
  }

  /**
   With a free video slot and the books in order, an accepted reservation can
   overspend exactly when the shown balance exceeds the true one plus the charges
   still under reservation, and leaves something to reserve.
   */
  lemma OverspendExactly(s: State)
    requires Covered(s) && Balanced(s.counters, Ledger(s.attempts))
    requires HasSlot(s.counters, s.cap, CONN, 0, 1, VideoJob)
    ensures CanOverspend(s) <==>
              s.shown.Some? && s.shown.value > s.balance + Charged(s.attempts) && s.shown.value > Promised(s.attempts)
  {
    hide Balanced;
    ShownIsNet(s);
    forall cost: nat ensures Owed(s.attempts + [Attempt(cost, VideoJob, false, 0)]) == Owed(s.attempts) + cost {
      OwedSnoc(s.attempts, Attempt(cost, VideoJob, false, 0));
    }
    hide Ledger, Total, Charged, Reserved;
    if s.shown.Some? && s.shown.value > s.balance + Charged(s.attempts) && s.shown.value > Promised(s.attempts) {
      var cost: nat := s.shown.value - Promised(s.attempts);
      assert Accepts(s, cost, VideoJob, 0);
      assert !Covered(Step(s, Reserve(cost, VideoJob, 0)));
    }
  }

  /** The dearest job the table offers for that many credits. */
  function Dearest(room: int): nat
    requires room >= 15
  {
    if room >= 30 then 30 else if room >= 25 then 25 else if room >= 20 then 20 else 15
  }

  lemma {:induction false} DearestIs(room: int)
    requires room >= 15
    ensures exists g: Generation, seconds: int :: JobCost(g, seconds) == Dearest(room)
    ensures forall g: Generation, seconds: int | 0 < JobCost(g, seconds) <= room :: JobCost(g, seconds) <= Dearest(room)
  {
    assert JobCost(OtherVideo, 4) == 15 && JobCost(OtherVideo, 6) == 20;
    assert JobCost(OtherVideo, 8) == 25 && JobCost(OtherVideo, 10) == 30;
  }

  /** Some job of the price table would be accepted now and break the cover. */
  ghost predicate JobCanOverspend(s: State) {
    exists g: Generation, seconds: int :: JobCost(g, seconds) > 0 &&
      Accepts(s, JobCost(g, seconds), VideoJob, 0) && !Covered(Step(s, Reserve(JobCost(g, seconds), VideoJob, 0)))
  }

  /** With the worker's prices: exactly when the dearest job that still seems to fit exceeds what is really free. */
  lemma JobOverspendsExactly(s: State)
    requires Covered(s) && Balanced(s.counters, Ledger(s.attempts))
    requires HasSlot(s.counters, s.cap, CONN, 0, 1, VideoJob)
    ensures JobCanOverspend(s) <==>
              && s.shown.Some? && s.shown.value - Promised(s.attempts) >= 15
              && Dearest(s.shown.value - Promised(s.attempts)) > s.balance - Owed(s.attempts)
  {
    hide Balanced, JobCost, Dearest;
    ShownIsNet(s);
    forall cost: nat ensures Owed(s.attempts + [Attempt(cost, VideoJob, false, 0)]) == Owed(s.attempts) + cost {
      OwedSnoc(s.attempts, Attempt(cost, VideoJob, false, 0));
    }
    hide Ledger, Total, Charged, Reserved;
    forall g: Generation, seconds: int ensures JobCost(g, seconds) > 0 ==> JobCost(g, seconds) >= 15 {
      OnlyVideosNeedBalance(g, seconds, s.counters, None);
    }
    if s.shown.Some? && s.shown.value - Promised(s.attempts) >= 15 {
      DearestIs(s.shown.value - Promised(s.attempts));
      var g: Generation, seconds: int :| JobCost(g, seconds) == Dearest(s.shown.value - Promised(s.attempts));
      DearestFits(s.shown.value - Promised(s.attempts));
      var cost := JobCost(g, seconds);
      assert Accepts(s, cost, VideoJob, 0);
      assert Covered(Step(s, Reserve(cost, VideoJob, 0))) <==> cost <= s.balance - Owed(s.attempts);
    }
  }

  lemma DearestFits(room: int)
    requires room >= 15
    ensures 0 < Dearest(room) <= room
  {
  }

  lemma OwedSnoc(attempts: seq<Attempt>, a: Attempt)
    ensures Owed(attempts + [a]) == Owed(attempts) + a.cost - a.charged
  {
    LedgerSnoc(attempts, a);
    TotalSnoc(Ledger(attempts), Held(a), Table.Credits, CONN);
    ChargedSnoc(attempts, a);
  }

  const SMALL := Capacity(4, 3, 3)

  /** The counters while one video of that cost is under way. */
  function Booked(cost: nat): Counters { Counters(map[0 := 1], map[], map[0 := 1], map[0 := cost]) }

  lemma FirstReserve(balance: int, shown: nat, cost: nat)
    requires 0 < cost <= shown
    ensures Step(State(SMALL, balance, Some(shown), EMPTY.counters, [], Idle), Reserve(cost, VideoJob, 0)) ==
            State(SMALL, balance, Some(shown), Booked(cost), [Attempt(cost, VideoJob, false, 0)], Idle)
  {
    assert Reserved(EMPTY.counters, Reservation(CONN, cost, VideoJob)) == Booked(cost);
  }

  lemma LastFinish(balance: int, cost: nat, read: int)
    requires 0 < cost
    ensures Step(State(SMALL, balance, None, Booked(cost), [Attempt(cost, VideoJob, true, cost)], Answered(read, false)), Finish(0)) ==
            State(SMALL, balance, None, EMPTY.counters, [], Answered(read, true))
  {
    assert Released(Booked(cost), Reservation(CONN, cost, VideoJob)) == EMPTY.counters;
  }

  /**
   It does happen: 40 credits, one video of 20 under way when a refresh reads
   the balance; the video is charged and released before the answer is stored,
   so 40 is shown while 20 are left, and a video of 30 is accepted.
   */
  lemma LateStoreOverspends()
    ensures var es := [Refresh, Reserve(20, VideoJob, 0), Pay(0), Ask, Answer, Charge(0, 20), Finish(0), Store,
                       Reserve(30, VideoJob, 0)];
            !Covered(Run(Init(SMALL, 40), es))
  {
    hide Reserved, Released, CanReserve, Dropped, Owed;
    var es := [Refresh, Reserve(20, VideoJob, 0), Pay(0), Ask, Answer, Charge(0, 20), Finish(0), Store,
               Reserve(30, VideoJob, 0)];
    var none := EMPTY.counters;
    var s0 := Init(SMALL, 40);
    var s1 := State(SMALL, 40, Some(40), none, [], Idle);
    var s2 := State(SMALL, 40, Some(40), Booked(20), [Attempt(20, VideoJob, false, 0)], Idle);
    var s3 := s2.(attempts := [Attempt(20, VideoJob, true, 0)]);
    var s4 := s3.(shown := None, reading := Asked);
    var s5 := s4.(reading := Answered(40, false));
    var s6 := s5.(balance := 20, attempts := [Attempt(20, VideoJob, true, 20)]);
    var s7 := State(SMALL, 20, None, none, [], Answered(40, true));
    var s8 := State(SMALL, 20, Some(40), none, [], Idle);
    var s9 := State(SMALL, 20, Some(40), Booked(30), [Attempt(30, VideoJob, false, 0)], Idle);
    FirstReserve(40, 40, 20);
    LastFinish(20, 20, 40);
    FirstReserve(20, 40, 30);
    hide Booked;
    assert Step(s0, es[0]) == s1 && Step(s1, es[1]) == s2 && Step(s2, es[2]) == s3 && Step(s3, es[3]) == s4;
    assert Step(s4, es[4]) == s5 && Step(s5, es[5]) == s6 && Step(s6, es[6]) == s7 && Step(s7, es[7]) == s8;
    assert Step(s8, es[8]) == s9;
    hide Step;
    RunFrom(es, [s0, s1, s2, s3, s4, s5, s6, s7, s8, s9], 0);
    OneOwes(Attempt(30, VideoJob, false, 0));
  }

  lemma OneOwes(a: Attempt)
    ensures Owed([a]) == a.cost - a.charged
  {
    OwedSnoc([], a);
    assert [] + [a] == [a];
  }

  /** A trace that follows the steps ends where the run ends. */
  lemma {:induction false} RunFrom(es: seq<Event>, trace: seq<State>, k: nat)
    requires |trace| == |es| + 1 && k <= |es|
    requires forall i | 0 <= i < |es| :: Step(trace[i], es[i]) == trace[i + 1]
    ensures Run(trace[k], es[k..]) == trace[|es|]
    decreases |es| - k
  {
    hide Step;
    if k < |es| {
      assert es[k..][1..] == es[k + 1..];
      RunFrom(es, trace, k + 1);
    }
  }
}
