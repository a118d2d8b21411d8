/**
 The process-wide counters of app/runtime.py: job slots and reserved credits per
 connection. A dictionary entry is popped when it reaches zero, so an absent key
 reads as zero.
 */
module Runtime {
  import opened Base

  type Conn = nat

  datatype JobKind = ImageJob | VideoJob | Unspecified

  /** One successful reserve_connection that has not been released. */
  datatype Reservation = Reservation(conn: Conn, cost: nat, kind: JobKind)

  datatype Capacity = Capacity(image: nat, video: nat, slots: nat)

  datatype Counters = Counters(
    jobs: map<Conn, int>,
    images: map<Conn, int>,
    videos: map<Conn, int>,
    credits: map<Conn, int>)

  datatype Table = Jobs | Images | Videos | Credits

  function TableOf(c: Counters, t: Table): map<Conn, int> {
    match t
    case Jobs => c.jobs
    case Images => c.images
    case Videos => c.videos
    case Credits => c.credits
  }

  function Get(m: map<Conn, int>, id: Conn): int { if id in m then m[id] else 0 }

  function Raised(m: map<Conn, int>, id: Conn, n: int): map<Conn, int> { m[id := Get(m, id) + n] }

  function Lowered(m: map<Conn, int>, id: Conn, n: int): map<Conn, int> {
    if Get(m, id) - n > 0 then m[id := Get(m, id) - n] else m - {id}
  }

  /** A request without a job type counts as a video as soon as it costs credits. */
  predicate TakesVideoSlot(kind: JobKind, cost: nat) {
    kind == VideoJob || (kind == Unspecified && cost > 0)
  }

  function Load(c: Counters, id: Conn, pending: nat): int { Max(Get(c.jobs, id), pending) }

  function AvailableCredits(c: Counters, id: Conn, balance: Option<int>): Option<int> {
    if balance.None? then None else Some(balance.value - Get(c.credits, id))
  }

  predicate HasSlot(c: Counters, cap: Capacity, id: Conn, pending: nat, cost: nat, kind: JobKind) {
    if kind == ImageJob then Get(c.images, id) < cap.image
    else if TakesVideoSlot(kind, cost) then Get(c.videos, id) < cap.video
    else Load(c, id, pending) < cap.slots
  }

  predicate CanPay(c: Counters, id: Conn, balance: Option<int>, cost: nat) {
    cost == 0 || (AvailableCredits(c, id, balance).Some? && AvailableCredits(c, id, balance).value >= cost)
  }

  /** can_reserve; `balance` is what the connection object shows, None while it is unknown. */
  predicate CanReserve(c: Counters, cap: Capacity, id: Conn, balance: Option<int>, pending: nat, cost: nat, kind: JobKind) {
    HasSlot(c, cap, id, pending, cost, kind) && CanPay(c, id, balance, cost)
  }

  function Reserved(c: Counters, r: Reservation): Counters {
    Counters(
      Raised(c.jobs, r.conn, 1),
      if r.kind == ImageJob then Raised(c.images, r.conn, 1) else c.images,
      if TakesVideoSlot(r.kind, r.cost) then Raised(c.videos, r.conn, 1) else c.videos,
      if r.cost > 0 then Raised(c.credits, r.conn, r.cost) else c.credits)
  }

  function Released(c: Counters, r: Reservation): Counters {
    Counters(
      Lowered(c.jobs, r.conn, 1),
      if r.kind == ImageJob then Lowered(c.images, r.conn, 1) else c.images,
      if TakesVideoSlot(r.kind, r.cost) then Lowered(c.videos, r.conn, 1) else c.videos,
      if r.cost > 0 then Lowered(c.credits, r.conn, r.cost) else c.credits)
  }

  // ----- the ledger -------------------------------------------------------------------

  /** What one outstanding reservation is worth in a table. */
  function Worth(r: Reservation, t: Table): nat {
    match t
    case Jobs => 1
    case Images => if r.kind == ImageJob then 1 else 0
    case Videos => if TakesVideoSlot(r.kind, r.cost) then 1 else 0
    case Credits => r.cost
  }

  function Total(out: seq<Reservation>, t: Table, id: Conn): nat {
    if out == [] then 0
    else Total(out[..|out| - 1], t, id) + (if out[|out| - 1].conn == id then Worth(out[|out| - 1], t) else 0)
  }

  lemma TotalSnoc(out: seq<Reservation>, r: Reservation, t: Table, id: Conn)
    ensures Total(out + [r], t, id) == Total(out, t, id) + (if r.conn == id then Worth(r, t) else 0)
  {
    assert (out + [r])[..|out|] == out;
  }

  function Dropped<T>(s: seq<T>, i: nat): seq<T>
    requires i < |s|
  {
    s[..i] + s[i + 1..]
  }

  lemma {:induction false} TotalDropped(out: seq<Reservation>, i: nat, t: Table, id: Conn)
    requires i < |out|
    ensures Total(out, t, id) == Total(Dropped(out, i), t, id) + (if out[i].conn == id then Worth(out[i], t) else 0)
  {
    var init, last := out[..|out| - 1], out[|out| - 1];
    if i < |init| {
      TotalDropped(init, i, t, id);
      assert Dropped(out, i) == Dropped(init, i) + [last];
      TotalSnoc(Dropped(init, i), last, t, id);
    } else {
      assert Dropped(out, i) == init;
    }
  }

  /** Each table entry is the sum over the outstanding reservations, and no entry is kept at zero. */
  ghost predicate Balanced(c: Counters, out: seq<Reservation>) {
    forall t: Table, id: Conn ::
      && Get(TableOf(c, t), id) == Total(out, t, id)
      && (id in TableOf(c, t) ==> Total(out, t, id) > 0)
  }

  /** Both updates treat every table alike: what the reservation is worth in it goes in or out. */
  lemma TablesMove(c: Counters, r: Reservation, t: Table)
    ensures TableOf(Reserved(c, r), t) ==
            if Worth(r, t) > 0 then Raised(TableOf(c, t), r.conn, Worth(r, t)) else TableOf(c, t)
    ensures TableOf(Released(c, r), t) ==
            if Worth(r, t) > 0 then Lowered(TableOf(c, t), r.conn, Worth(r, t)) else TableOf(c, t)
  {
  }

  lemma ReserveBalances(c: Counters, out: seq<Reservation>, r: Reservation)
    requires Balanced(c, out)
    ensures Balanced(Reserved(c, r), out + [r])
  {
    hide TableOf, Reserved, Worth;
    forall t: Table, id: Conn
      ensures Get(TableOf(Reserved(c, r), t), id) == Total(out + [r], t, id)
      ensures id in TableOf(Reserved(c, r), t) ==> Total(out + [r], t, id) > 0
    {
      TablesMove(c, r, t);
      TotalSnoc(out, r, t, id);
    }
  }

  lemma ReleaseBalances(c: Counters, out: seq<Reservation>, i: nat)
    requires Balanced(c, out) && i < |out|
    ensures Balanced(Released(c, out[i]), Dropped(out, i))
  {
    hide TableOf, Released, Worth, Dropped;
    forall t: Table, id: Conn
      ensures Get(TableOf(Released(c, out[i]), t), id) == Total(Dropped(out, i), t, id)
      ensures id in TableOf(Released(c, out[i]), t) ==> Total(Dropped(out, i), t, id) > 0
    {
      TablesMove(c, out[i], t);
      TotalDropped(out, i, t, id);
    }
  }

  // ----- whole runs ---------------------------------------------------------------------

  /** TryReserve may be refused; Release gives back the i-th outstanding reservation, if there is one. */
  datatype Op =
    | TryReserve(want: Reservation, balance: Option<int>, pending: nat)
    | Release(index: nat)

  datatype Ledger = Ledger(counters: Counters, out: seq<Reservation>)

  const EMPTY := Ledger(Counters(map[], map[], map[], map[]), [])

  function Apply(l: Ledger, caps: Conn -> Capacity, op: Op): Ledger {
    match op
    case TryReserve(r, balance, pending) =>
      if CanReserve(l.counters, caps(r.conn), r.conn, balance, pending, r.cost, r.kind)
      then Ledger(Reserved(l.counters, r), l.out + [r]) else l
    case Release(i) =>
      if i < |l.out| then Ledger(Released(l.counters, l.out[i]), Dropped(l.out, i)) else l
  }

  function Replay(caps: Conn -> Capacity, ops: seq<Op>): Ledger {
    if ops == [] then EMPTY else Apply(Replay(caps, ops[..|ops| - 1]), caps, ops[|ops| - 1])
  }

  /** After any sequence of paired reserves and releases the four maps equal the outstanding sums. */
  lemma {:induction false} LedgerBalances(caps: Conn -> Capacity, ops: seq<Op>)
    ensures Balanced(Replay(caps, ops).counters, Replay(caps, ops).out)
  {
    if ops != [] {
      LedgerBalances(caps, ops[..|ops| - 1]);
      var l, op := Replay(caps, ops[..|ops| - 1]), ops[|ops| - 1];
      hide Balanced;
      match op
      case TryReserve(r, _, _) => ReserveBalances(l.counters, l.out, r);
      case Release(i) => if i < |l.out| { ReleaseBalances(l.counters, l.out, i); }
    }
  }

  /** No connection ever holds more images or videos than its capacity, whatever mix of callers reserves. */
  lemma {:induction false} CapacityHolds(caps: Conn -> Capacity, ops: seq<Op>, id: Conn)
    ensures Total(Replay(caps, ops).out, Images, id) <= caps(id).image
    ensures Total(Replay(caps, ops).out, Videos, id) <= caps(id).video
  {
    if ops != [] {
      var l, op := Replay(caps, ops[..|ops| - 1]), ops[|ops| - 1];
      CapacityHolds(caps, ops[..|ops| - 1], id);
      match op
      case TryReserve(r, _, _) =>
        LedgerBalances(caps, ops[..|ops| - 1]);
        assert Get(TableOf(l.counters, Images), r.conn) == Total(l.out, Images, r.conn);
        assert Get(TableOf(l.counters, Videos), r.conn) == Total(l.out, Videos, r.conn);
        TotalSnoc(l.out, r, Images, id);
        TotalSnoc(l.out, r, Videos, id);
      case Release(i) =>
        if i < |l.out| {
          TotalDropped(l.out, i, Images, id);
          TotalDropped(l.out, i, Videos, id);
        }
    }
  }

  /** Nothing outstanding means nothing stored: the four maps are empty again. */
  lemma AllReleasedMeansEmpty(caps: Conn -> Capacity, ops: seq<Op>)
    requires Replay(caps, ops).out == []
    ensures Replay(caps, ops) == EMPTY
  {
    LedgerBalances(caps, ops);
    var c := Replay(caps, ops).counters;
    forall t: Table, id: Conn ensures id !in TableOf(c, t) {
      assert id in TableOf(c, t) ==> Total([], t, id) > 0;
    }
    assert c.jobs == TableOf(c, Jobs) == map[] && c.images == TableOf(c, Images) == map[];
    assert c.videos == TableOf(c, Videos) == map[] && c.credits == TableOf(c, Credits) == map[];
  }

  // ----- the object ----------------------------------------------------------------------

  /** What select_connection compares, in order; `since` and `name` are the connection's own. */
  datatype Candidate = Candidate(conn: Conn, balance: Option<int>, pending: nat, since: int, name: nat)

  function SortKey(c: Counters, k: Candidate): (key: seq<int>)
    ensures |key| == 5
  {
    var credit := AvailableCredits(c, k.conn, k.balance);
    [if credit.Some? && credit.value < 20 then 1 else 0,
     Load(c, k.conn, k.pending),
     if credit.Some? then -credit.value else 0,
     k.since,
     k.name]
  }

  predicate LexLess(a: seq<int>, b: seq<int>)
    requires |a| == |b|
  {
    a != [] && (a[0] < b[0] || (a[0] == b[0] && LexLess(a[1..], b[1..])))
  }

  /**
   The order in plain terms: enough credits for a video first, then the lighter
   load, then more credits, then the longer connection, then the name.
   */
  predicate Beats(c: Counters, a: Candidate, b: Candidate) {
    var reservedA := if a.conn in c.credits then c.credits[a.conn] else 0;
    var reservedB := if b.conn in c.credits then c.credits[b.conn] else 0;
    var poorA := a.balance.Some? && a.balance.value - reservedA < 20;
    var poorB := b.balance.Some? && b.balance.value - reservedB < 20;
    var loadA := Max(if a.conn in c.jobs then c.jobs[a.conn] else 0, a.pending);
    var loadB := Max(if b.conn in c.jobs then c.jobs[b.conn] else 0, b.pending);
    var creditA := if a.balance.Some? then a.balance.value - reservedA else 0;
    var creditB := if b.balance.Some? then b.balance.value - reservedB else 0;
    || (!poorA && poorB)
    || (poorA == poorB && loadA < loadB)
    || (poorA == poorB && loadA == loadB && creditA > creditB)
    || (poorA == poorB && loadA == loadB && creditA == creditB && a.since < b.since)
    || (poorA == poorB && loadA == loadB && creditA == creditB && a.since == b.since && a.name < b.name)
  }

  lemma LexFive(a: seq<int>, b: seq<int>)
    requires |a| == |b| == 5
    ensures LexLess(a, b) <==>
              || a[0] < b[0]
              || (a[0] == b[0] && a[1] < b[1])
              || (a[..2] == b[..2] && a[2] < b[2])
              || (a[..3] == b[..3] && a[3] < b[3])
              || (a[..4] == b[..4] && a[4] < b[4])
  {
    assert LexLess(a[4..], b[4..]) <==> a[4] < b[4];
    assert a[3..][1..] == a[4..] && b[3..][1..] == b[4..];
    assert a[2..][1..] == a[3..] && b[2..][1..] == b[3..];
    assert a[1..][1..] == a[2..] && b[1..][1..] == b[2..];
    assert LexLess(a[3..], b[3..]) <==> a[3] < b[3] || (a[3] == b[3] && LexLess(a[4..], b[4..]));
    assert LexLess(a[2..], b[2..]) <==> a[2] < b[2] || (a[2] == b[2] && LexLess(a[3..], b[3..]));
    assert LexLess(a[1..], b[1..]) <==> a[1] < b[1] || (a[1] == b[1] && LexLess(a[2..], b[2..]));
    assert a[..2] == b[..2] <==> a[0] == b[0] && a[1] == b[1];
    assert a[..3] == b[..3] <==> a[..2] == b[..2] && a[2] == b[2];
    assert a[..4] == b[..4] <==> a[..3] == b[..3] && a[3] == b[3];
  }

  /** The five-part key orders candidates in exactly that way. */
  lemma KeyOrderExactly(c: Counters, a: Candidate, b: Candidate)
    ensures LexLess(SortKey(c, a), SortKey(c, b)) <==> Beats(c, a, b)
  {
    var x, y := SortKey(c, a), SortKey(c, b);
    LexFive(x, y);
    hide LexLess;
    assert x[..2] == y[..2] <==> x[0] == y[0] && x[1] == y[1];
    assert x[..3] == y[..3] <==> x[..2] == y[..2] && x[2] == y[2];
    assert x[..4] == y[..4] <==> x[..3] == y[..3] && x[3] == y[3];
  }

  /** What a reservation needs: a slot of its kind, and known credits for what it costs. */
  lemma CanReserveExactly(c: Counters, cap: Capacity, id: Conn, balance: Option<int>, pending: nat, cost: nat, kind: JobKind)
    ensures CanReserve(c, cap, id, balance, pending, cost, kind) <==>
              && (kind == ImageJob ==> (if id in c.images then c.images[id] else 0) < cap.image)
              && (kind == VideoJob || (kind == Unspecified && cost > 0) ==>
                    (if id in c.videos then c.videos[id] else 0) < cap.video)
              && (kind == Unspecified && cost == 0 ==>
                    (if id in c.jobs then c.jobs[id] else 0) < cap.slots && pending < cap.slots)
              && (cost > 0 ==> balance.Some? && cost <= balance.value - (if id in c.credits then c.credits[id] else 0))
  {
  }

  lemma {:induction false} LexTransitive(a: seq<int>, b: seq<int>, c: seq<int>)
    requires |a| == |b| == |c|
    ensures !LexLess(b, a) && !LexLess(c, b) ==> !LexLess(c, a)
  {
    if a != [] {
      LexTransitive(a[1..], b[1..], c[1..]);
    }
  }

  lemma {:induction false} LexAsymmetric(a: seq<int>, b: seq<int>)
    requires |a| == |b|
    ensures !LexLess(a, a) && !(LexLess(a, b) && LexLess(b, a))
  {
    if a != [] {
      LexAsymmetric(a[1..], b[1..]);
    }
  }

  class Runtime {
    var activeJobs: map<Conn, int>
    var activeImageJobs: map<Conn, int>
    var activeVideoJobs: map<Conn, int>
    var reservedCredits: map<Conn, int>
    /** Each connection keeps the capacity it was registered with. */
    const caps: Conn -> Capacity

    function Books(): Counters
      reads `activeJobs, `activeImageJobs, `activeVideoJobs, `reservedCredits
    {
      Counters(activeJobs, activeImageJobs, activeVideoJobs, reservedCredits)
    }

    constructor (caps: Conn -> Capacity)
      ensures Books() == EMPTY.counters && this.caps == caps
    {
      activeJobs, activeImageJobs, activeVideoJobs, reservedCredits := map[], map[], map[], map[];
      this.caps := caps;
    }

    method ReserveConnection(r: Reservation, balance: Option<int>, pending: nat) returns (ok: bool)
      modifies `activeJobs, `activeImageJobs, `activeVideoJobs, `reservedCredits
      ensures ok == CanReserve(old(Books()), caps(r.conn), r.conn, balance, pending, r.cost, r.kind)
      ensures Books() == if ok then Reserved(old(Books()), r) else old(Books())
      ensures ok <==>
                && (r.kind == ImageJob ==>
                      (if r.conn in old(activeImageJobs) then old(activeImageJobs)[r.conn] else 0) < caps(r.conn).image)
                && (r.kind == VideoJob || (r.kind == Unspecified && r.cost > 0) ==>
                      (if r.conn in old(activeVideoJobs) then old(activeVideoJobs)[r.conn] else 0) < caps(r.conn).video)
                && (r.kind == Unspecified && r.cost == 0 ==>
                      (if r.conn in old(activeJobs) then old(activeJobs)[r.conn] else 0) < caps(r.conn).slots
                      && pending < caps(r.conn).slots)
                && (r.cost > 0 ==>
                      balance.Some?
                      && r.cost <= balance.value - (if r.conn in old(reservedCredits) then old(reservedCredits)[r.conn] else 0))
      ensures activeJobs == if !ok then old(activeJobs) else
                old(activeJobs)[r.conn := (if r.conn in old(activeJobs) then old(activeJobs)[r.conn] else 0) + 1]
      ensures activeImageJobs == if !ok || r.kind != ImageJob then old(activeImageJobs) else
                old(activeImageJobs)[r.conn := (if r.conn in old(activeImageJobs) then old(activeImageJobs)[r.conn] else 0) + 1]
      ensures activeVideoJobs == if !ok || r.kind == ImageJob || (r.kind == Unspecified && r.cost == 0) then old(activeVideoJobs) else
                old(activeVideoJobs)[r.conn := (if r.conn in old(activeVideoJobs) then old(activeVideoJobs)[r.conn] else 0) + 1]
      ensures reservedCredits == if !ok || r.cost == 0 then old(reservedCredits) else
                old(reservedCredits)[r.conn := (if r.conn in old(reservedCredits) then old(reservedCredits)[r.conn] else 0) + r.cost]
    {
      CanReserveExactly(Books(), caps(r.conn), r.conn, balance, pending, r.cost, r.kind);
      hide HasSlot, CanPay, CanReserve;
      if !CanReserve(Books(), caps(r.conn), r.conn, balance, pending, r.cost, r.kind) {
        return false;
      }
      activeJobs := activeJobs[r.conn := Get(activeJobs, r.conn) + 1];
      if r.kind == ImageJob {
        activeImageJobs := activeImageJobs[r.conn := Get(activeImageJobs, r.conn) + 1];
      } else if r.kind == VideoJob || r.cost > 0 {
        activeVideoJobs := activeVideoJobs[r.conn := Get(activeVideoJobs, r.conn) + 1];
      }
      if r.cost > 0 {
        reservedCredits := reservedCredits[r.conn := Get(reservedCredits, r.conn) + r.cost];
      }
      ok := true;
    }

    /** Releasing an outstanding reservation also keeps any balanced ledger balanced. */
    method ReleaseConnection(r: Reservation)
      modifies `activeJobs, `activeImageJobs, `activeVideoJobs, `reservedCredits
      ensures Books() == Released(old(Books()), r)
      ensures forall out: seq<Reservation>, i: nat {:trigger Dropped(out, i)} | i < |out| && out[i] == r && Balanced(old(Books()), out) ::
                Balanced(Books(), Dropped(out, i))
    {
      hide Balanced, Total, Dropped;
      ghost var before := Books();
      var remaining := Get(activeJobs, r.conn) - 1;
      if remaining > 0 {
        activeJobs := activeJobs[r.conn := remaining];
      } else {
        activeJobs := activeJobs - {r.conn};
      }
      if r.kind == ImageJob {
        var images := Get(activeImageJobs, r.conn) - 1;
        if images > 0 {
          activeImageJobs := activeImageJobs[r.conn := images];
        } else {
          activeImageJobs := activeImageJobs - {r.conn};
        }
      } else if r.kind == VideoJob || r.cost > 0 {
        var videos := Get(activeVideoJobs, r.conn) - 1;
        if videos > 0 {
          activeVideoJobs := activeVideoJobs[r.conn := videos];
        } else {
          activeVideoJobs := activeVideoJobs - {r.conn};
        }
      }
      if r.cost > 0 {
        var left := Get(reservedCredits, r.conn) - r.cost;
        if left > 0 {
          reservedCredits := reservedCredits[r.conn := left];
        } else {
          reservedCredits := reservedCredits - {r.conn};
        }
      }
      assert Books() == Released(before, r);
      hide Released;
      forall out: seq<Reservation>, i: nat | i < |out| && out[i] == r && Balanced(before, out)
        ensures Balanced(Books(), Dropped(out, i))
      {
        ReleaseBalances(before, out, i);
      }
    }

    /** min over the candidates: nobody left out has a smaller key. */
    method SelectConnection(available: seq<Candidate>) returns (best: Candidate)
      requires available != []
      ensures best in available
      ensures forall k | k in available :: !LexLess(SortKey(Books(), k), SortKey(Books(), best))
      ensures forall k | k in available :: !Beats(Books(), k, best)
    {
      best := available[0];
      LexAsymmetric(SortKey(Books(), best), SortKey(Books(), best));
      for i := 1 to |available|
        invariant best in available
        invariant forall j | 0 <= j < i :: !LexLess(SortKey(Books(), available[j]), SortKey(Books(), best))
      {
        hide LexLess;
        var here, there := SortKey(Books(), available[i]), SortKey(Books(), best);
        LexAsymmetric(here, there);
        if LexLess(here, there) {
          forall j | 0 <= j < i ensures !LexLess(SortKey(Books(), available[j]), here) {
            LexTransitive(here, there, SortKey(Books(), available[j]));
          }
          best := available[i];
        }
      }
      forall k | k in available ensures !LexLess(SortKey(Books(), k), SortKey(Books(), best)) && !Beats(Books(), k, best) {
        KeyOrderExactly(Books(), k, best);
      }
    }
  }
}
