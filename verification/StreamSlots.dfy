/**
  The concurrent-stream counter of one gateway key: taken (INCR, compensating DECR) and given back by the requests of
  that key, each of which carries a ticket.
 */
module StreamSlots {

  /** All that the counter sees of a request: whether it takes a slot, gives one back, and streams. */
  datatype Ticket = Ticket(takes: bool, releases: bool, streams: bool) {
    /** Taken and given back, or neither: an admission is released exactly once. */
    predicate Matched() {
      takes == releases
    }
  }

  // ---------------------------------------------------------------------------
  // The shared counter
  // ---------------------------------------------------------------------------

  /** The Redis counter of one key; every method is one atomic Redis command. */
  class StreamCounter {
    var value: int

    constructor ()
      ensures value == 0
    {
      value := 0;
    }

    method Incr() returns (current: int)
      modifies this
      ensures value == old(value) + 1 && current == value
    {
      value := value + 1;
      current := value;
    }

    method Decr()
      modifies this
      ensures value == old(value) - 1
    {
      value := value - 1;
    }

    /** `checkConcurrentStreams` when nothing runs between its commands. */
    method CheckConcurrentStreams(maxConcurrent: nat) returns (allowed: bool, remaining: nat)
      modifies this
      ensures allowed == (old(value) < maxConcurrent)
      ensures value == if allowed then old(value) + 1 else old(value)
      ensures allowed ==> remaining == maxConcurrent - value
      ensures !allowed ==> remaining == 0
    {
      var current := Incr();
      if current <= maxConcurrent {
        return true, maxConcurrent - current;
      }
      Decr();
      return false, 0;
    }
  }

  // ---------------------------------------------------------------------------
  // Interleavings: INCR, compensating DECR and release are separate steps
  // ---------------------------------------------------------------------------

  datatype World = World(
    counter: int,
    held: map<nat, Ticket>,     // admitted with a slot, still running
    rejecting: set<nat>,        // over the limit, compensating DECR still to come
    passing: map<nat, Ticket>,  // running without a slot
    debt: nat)                  // how far below its due the counter has ever been

  datatype Step =
    | Enter(id: nat, t: Ticket)   // a slot is asked for: INCR and the comparison
    | Bypass(id: nat, t: Ticket)  // the request goes on without a slot
    | Compensate(id: nat)         // DECR of a rejected request
    | Finish(id: nat)             // the request ends, with a DECR if it releases
    | Expire                      // the 300 s key expiry

  const START := World(0, map[], {}, map[], 0)

  function Drift(w: World): int {
    w.counter - |w.held| - |w.rejecting|
  }

  predicate Fresh(w: World, id: nat) {
    id !in w.held && id !in w.rejecting && id !in w.passing
  }

  predicate Enabled(w: World, step: Step) {
    match step
    case Enter(id, t) => Fresh(w, id) && t.takes
    case Bypass(id, t) => Fresh(w, id) && !t.takes
    case Compensate(id) => id in w.rejecting
    case Finish(id) => id in w.held || id in w.passing
    case Expire => true
  }

  function Settle(w: World): World {
    w.(debt := if -Drift(w) > w.debt then -Drift(w) else w.debt)
  }

  /** The step itself; `Settle` then records how far below its due the counter stands. */
  function Moved(max: nat, w: World, step: Step): World {
    match step
    case Enter(id, t) =>
      if w.counter + 1 <= max then w.(counter := w.counter + 1, held := w.held[id := t])
      else w.(counter := w.counter + 1, rejecting := w.rejecting + {id})
    case Bypass(id, t) => w.(passing := w.passing[id := t])
    case Compensate(id) => w.(counter := w.counter - 1, rejecting := w.rejecting - {id})
    case Finish(id) =>
      var releases := if id in w.held then w.held[id].releases else id in w.passing && w.passing[id].releases;
      w.(counter := if releases then w.counter - 1 else w.counter,
         held := w.held - {id},
         passing := w.passing - {id})
    case Expire => w.(counter := 0)
  }

  function Next(max: nat, w: World, step: Step): World {
    Settle(Moved(max, w, step))
  }

  /** What a step does to the drift: +1 for a slot never given back, -1 for one never taken. */
  function Charge(w: World, step: Step): int {
    match step
    case Finish(id) =>
      if id in w.held then (if w.held[id].releases then 0 else 1)
      else if id in w.passing && w.passing[id].releases then -1
      else 0
    case Expire => -w.counter
    case _ => 0
  }

  predicate Legal(max: nat, w: World, run: seq<Step>)
    decreases |run|
  {
    run == [] || (Enabled(w, run[0]) && Legal(max, Next(max, w, run[0]), run[1..]))
  }

  function Final(max: nat, w: World, run: seq<Step>): World
    decreases |run|
  {
    if run == [] then w else Final(max, Next(max, w, run[0]), run[1..])
  }

  function Charges(max: nat, w: World, run: seq<Step>): int
    decreases |run|
  {
    if run == [] then 0 else Charge(w, run[0]) + Charges(max, Next(max, w, run[0]), run[1..])
  }

  ghost predicate Inv(max: nat, w: World) {
    && w.held.Keys !! w.passing.Keys
    && -Drift(w) <= w.debt
    && |w.held| <= max + w.debt
  }

  lemma RemoveOne<V>(m: map<nat, V>, id: nat)
    ensures |m - {id}| == if id in m then |m| - 1 else |m|
  {
    if id in m {
      assert (m - {id}).Keys == m.Keys - {id};
    } else {
      assert m - {id} == m;
    }
  }

  lemma AddOne<V>(m: map<nat, V>, id: nat, v: V)
    requires id !in m
    ensures |m[id := v]| == |m| + 1
  {
    assert m[id := v].Keys == m.Keys + {id};
  }

  lemma StepDrift(max: nat, w: World, step: Step)
    requires w.held.Keys !! w.passing.Keys && Enabled(w, step)
    ensures Drift(Next(max, w, step)) == Drift(w) + Charge(w, step)
  {
    if step.Enter? {
      EnterDrift(max, w, step.id, step.t);
    } else if step.Finish? {
      RemoveOne(w.held, step.id);
    } else if step.Compensate? {
      assert |w.rejecting - {step.id}| == |w.rejecting| - 1;
    }
  }

  lemma EnterDrift(max: nat, w: World, id: nat, t: Ticket)
    requires Fresh(w, id)
    ensures Drift(Next(max, w, Enter(id, t))) == Drift(w)
  {
    AddOne(w.held, id, t);
    assert |w.rejecting + {id}| == |w.rejecting| + 1;
  }

  lemma StepHeld(max: nat, w: World, step: Step)
    requires Inv(max, w) && Enabled(w, step)
    ensures var w' := Next(max, w, step);
            w'.held.Keys !! w'.passing.Keys && |w'.held| <= max + w'.debt && w.debt <= w'.debt
  {
    if step.Enter? { EnterHeld(max, w, step.id, step.t); }
    else if step.Finish? { RemoveOne(w.held, step.id); }
  }

  lemma EnterHeld(max: nat, w: World, id: nat, t: Ticket)
    requires Inv(max, w) && Enabled(w, Enter(id, t))
    ensures var w' := Next(max, w, Enter(id, t));
            w'.held.Keys !! w'.passing.Keys && |w'.held| <= max + w'.debt && w.debt <= w'.debt
  {
    AddOne(w.held, id, t);
  }

  /** One step: the drift moves by exactly the step's charge, and the bound survives. */
  lemma StepConserves(max: nat, w: World, step: Step)
    requires Inv(max, w) && Enabled(w, step)
    ensures Drift(Next(max, w, step)) == Drift(w) + Charge(w, step)
    ensures Inv(max, Next(max, w, step))
  {
    StepDrift(max, w, step);
    StepHeld(max, w, step);
  }

  /**
    Conservation over every interleaving: the counter is what is held plus what is being
    rejected plus the sum of the charges; no more than `max` slots are out beyond the debt.
   */
  lemma {:induction false} RunConserves(max: nat, w: World, run: seq<Step>)
    requires Inv(max, w) && Legal(max, w, run)
    ensures var end := Final(max, w, run);
            && end.counter == |end.held| + |end.rejecting| + Drift(w) + Charges(max, w, run)
            && |end.held| <= max + end.debt
            && Inv(max, end)
    decreases |run|
  {
    if run != [] {
      StepConserves(max, w, run[0]);
      RunConserves(max, Next(max, w, run[0]), run[1..]);
    }
  }

  // ---------------------------------------------------------------------------
  // Which worlds are reached
  // ---------------------------------------------------------------------------

  predicate Idle(w: World) {
    w.held == map[] && w.rejecting == {}
  }

  /**
    Every request has a ticket in `allowed`; the key expires only while the counter is not in use, unless `expires`.
   */
  predicate Permits(allowed: set<Ticket>, expires: bool, w: World, step: Step) {
    && (step.Enter? || step.Bypass? ==> step.t in allowed)
    && (step.Expire? ==> expires || Idle(w))
  }

  predicate Over(max: nat, w: World, run: seq<Step>, allowed: set<Ticket>, expires: bool)
    decreases |run|
  {
    run == [] ||
    (Permits(allowed, expires, w, run[0]) && Over(max, Next(max, w, run[0]), run[1..], allowed, expires))
  }

  ghost predicate Reachable(max: nat, allowed: set<Ticket>, expires: bool, w: World) {
    exists run :: Legal(max, START, run) && Over(max, START, run, allowed, expires) && Final(max, START, run) == w
  }

  lemma {:induction false} Append(max: nat, w: World, a: seq<Step>, b: seq<Step>, allowed: set<Ticket>, expires: bool)
    ensures Final(max, w, a + b) == Final(max, Final(max, w, a), b)
    ensures Legal(max, w, a + b) <==> Legal(max, w, a) && Legal(max, Final(max, w, a), b)
    ensures Over(max, w, a + b, allowed, expires)
            <==> Over(max, w, a, allowed, expires) && Over(max, Final(max, w, a), b, allowed, expires)
    decreases |a|
  {
    if a == [] {
      assert a + b == b;
    } else {
      assert (a + b)[1..] == a[1..] + b;
      Append(max, Next(max, w, a[0]), a[1..], b, allowed, expires);
    }
  }

  lemma ReachRun(max: nat, allowed: set<Ticket>, expires: bool, w: World, run: seq<Step>)
    requires Reachable(max, allowed, expires, w) && Legal(max, w, run) && Over(max, w, run, allowed, expires)
    ensures Reachable(max, allowed, expires, Final(max, w, run))
  {
    var past :| Legal(max, START, past) && Over(max, START, past, allowed, expires) && Final(max, START, past) == w;
    Append(max, START, past, run, allowed, expires);
  }

  lemma ReachStep(max: nat, allowed: set<Ticket>, expires: bool, w: World, step: Step)
    requires Reachable(max, allowed, expires, w) && Enabled(w, step) && Permits(allowed, expires, w, step)
    ensures Reachable(max, allowed, expires, Next(max, w, step))
  {
    assert [step][1..] == [];
    assert Final(max, w, [step]) == Final(max, Next(max, w, step), []);
    ReachRun(max, allowed, expires, w, [step]);
  }

  predicate StepsTo(max: nat, allowed: set<Ticket>, expires: bool, w: World, step: Step, n: World) {
    Enabled(w, step) && Permits(allowed, expires, w, step) && Next(max, w, step) == n
  }

  lemma ReachNext(max: nat, allowed: set<Ticket>, expires: bool, w: World, step: Step, n: World)
    requires Reachable(max, allowed, expires, w) && StepsTo(max, allowed, expires, w, step, n)
    ensures Reachable(max, allowed, expires, n)
  {
    ReachStep(max, allowed, expires, w, step);
  }

  lemma ReachStart(max: nat, allowed: set<Ticket>, expires: bool)
    ensures Reachable(max, allowed, expires, START)
  {
    assert Legal(max, START, []) && Over(max, START, [], allowed, expires) && Final(max, START, []) == START;
  }

  // ---------------------------------------------------------------------------
  // What every reachable world keeps
  // ---------------------------------------------------------------------------

  /** Each flag says what the tickets in use allow: no leak, no gift, no stream without a slot. */
  ghost predicate Kept(max: nat, w: World, noLeak: bool, noGift: bool, noSlip: bool) {
    && Inv(max, w)
    && (noLeak ==> Drift(w) <= 0 && forall id :: id in w.held ==> w.held[id].releases)
    && (noGift ==> w.debt == 0 && Drift(w) >= 0 && forall id :: id in w.passing ==> !w.passing[id].releases)
    && (noSlip ==> forall id :: id in w.passing ==> !w.passing[id].streams)
  }

  predicate Fits(t: Ticket, noLeak: bool, noGift: bool, noSlip: bool) {
    && (noLeak ==> (t.takes ==> t.releases))
    && (noGift ==> (t.releases ==> t.takes))
    && (noSlip ==> (t.streams ==> t.takes))
  }

  lemma KeptStep(max: nat, w: World, step: Step, noLeak: bool, noGift: bool, noSlip: bool)
    requires Kept(max, w, noLeak, noGift, noSlip) && Enabled(w, step)
    requires step.Enter? || step.Bypass? ==> Fits(step.t, noLeak, noGift, noSlip)
    requires step.Expire? ==> Idle(w)
    ensures Kept(max, Next(max, w, step), noLeak, noGift, noSlip)
  {
    StepConserves(max, w, step);
    if step.Expire? {
      assert |w.held| == 0 && |w.rejecting| == 0;
    } else {
      KeptTickets(max, w, step, noLeak, noGift, noSlip);
    }
  }

  lemma KeptTickets(max: nat, w: World, step: Step, noLeak: bool, noGift: bool, noSlip: bool)
    requires Kept(max, w, noLeak, noGift, noSlip) && Enabled(w, step) && !step.Expire?
    requires step.Enter? || step.Bypass? ==> Fits(step.t, noLeak, noGift, noSlip)
    ensures var n := Next(max, w, step);
            && (noLeak ==> Charge(w, step) <= 0 && forall id :: id in n.held ==> n.held[id].releases)
            && (noGift ==> Charge(w, step) >= 0 && forall id :: id in n.passing ==> !n.passing[id].releases)
            && (noSlip ==> forall id :: id in n.passing ==> !n.passing[id].streams)
  {
    match step
    case Enter(id, t) =>
    case Bypass(id, t) =>
    case Compensate(id) =>
    case Finish(id) =>
    case Expire =>
  }

  lemma {:induction false} KeptRun(max: nat, w: World, run: seq<Step>, allowed: set<Ticket>,
                                   noLeak: bool, noGift: bool, noSlip: bool)
    requires forall t :: t in allowed ==> Fits(t, noLeak, noGift, noSlip)
    requires Kept(max, w, noLeak, noGift, noSlip) && Legal(max, w, run) && Over(max, w, run, allowed, false)
    ensures Kept(max, Final(max, w, run), noLeak, noGift, noSlip)
    decreases |run|
  {
    if run != [] {
      KeptStep(max, w, run[0], noLeak, noGift, noSlip);
      KeptRun(max, Next(max, w, run[0]), run[1..], allowed, noLeak, noGift, noSlip);
    }
  }

  lemma KeptReached(max: nat, allowed: set<Ticket>, w: World, noLeak: bool, noGift: bool, noSlip: bool)
    requires forall t :: t in allowed ==> Fits(t, noLeak, noGift, noSlip)
    requires Reachable(max, allowed, false, w)
    ensures Kept(max, w, noLeak, noGift, noSlip)
  {
    var run :| Legal(max, START, run) && Over(max, START, run, allowed, false) && Final(max, START, run) == w;
    KeptRun(max, START, run, allowed, noLeak, noGift, noSlip);
  }

  // ---------------------------------------------------------------------------
  // Accounting
  // ---------------------------------------------------------------------------

  ghost predicate Sound(max: nat, w: World) {
    && w.counter == |w.held| + |w.rejecting|
    && |w.held| <= max
  }

  /** Slot accounting holds in every reachable world. */
  ghost predicate AlwaysSound(max: nat, allowed: set<Ticket>) {
    forall w :: Reachable(max, allowed, false, w) ==> Sound(max, w)
  }

  /** One unmatched request, served alone, already leaves the counter off. */
  lemma UnmatchedBreaks(max: nat, t: Ticket)
    requires max >= 1 && !t.Matched()
    ensures var run := [if t.takes then Enter(0, t) else Bypass(0, t), Finish(0)];
            Legal(max, START, run) && Over(max, START, run, {t}, false) && !Sound(max, Final(max, START, run))
  {
    var enter := if t.takes then Enter(0, t) else Bypass(0, t);
    var run := [enter, Finish(0)];
    assert run[1..] == [Finish(0)] && run[1..][1..] == [];
    var w1 := Next(max, START, enter);
    var w2 := Next(max, w1, Finish(0));
    assert Final(max, START, run) == Final(max, w1, run[1..]) == Final(max, w2, run[1..][1..]) == w2;
    assert w2.held == map[] && w2.rejecting == {};
  }

  lemma {:induction false} OverWider(max: nat, w: World, run: seq<Step>, few: set<Ticket>, many: set<Ticket>)
    requires few <= many && Over(max, w, run, few, false)
    ensures Over(max, w, run, many, false)
    decreases |run|
  {
    if run != [] { OverWider(max, Next(max, w, run[0]), run[1..], few, many); }
  }

  /**
    Slot accounting is sound over every interleaving of requests with tickets from `allowed` exactly
    when each of them is matched: the counter is slots held plus rejections pending, at most `max` held.
   */
  lemma SoundIffMatched(max: nat, allowed: set<Ticket>)
    requires max >= 1
    ensures AlwaysSound(max, allowed) <==> (forall t :: t in allowed ==> t.Matched())
  {
    if forall t :: t in allowed ==> t.Matched() {
      forall w | Reachable(max, allowed, false, w)
        ensures Sound(max, w)
      {
        KeptReached(max, allowed, w, true, true, false);
      }
    } else {
      var t :| t in allowed && !t.Matched();
      var run := [if t.takes then Enter(0, t) else Bypass(0, t), Finish(0)];
      UnmatchedBreaks(max, t);
      OverWider(max, START, run, {t}, allowed);
      assert Reachable(max, allowed, false, Final(max, START, run));
    }
  }

  // ---------------------------------------------------------------------------
  // Streams turned away
  // ---------------------------------------------------------------------------

  /** The next request is turned away while no rejection is pending. */
  predicate Denied(max: nat, w: World, id: nat, t: Ticket) {
    w.rejecting == {} && Enabled(w, Enter(id, t)) && id in Next(max, w, Enter(id, t)).rejecting
  }

  /** With no rejection pending, a request is turned away only when `max` slots are held. */
  ghost predicate DeniedOnlyWhenFull(max: nat, allowed: set<Ticket>) {
    forall w, id, t :: Reachable(max, allowed, false, w) && Denied(max, w, id, t) ==> |w.held| >= max
  }

  /** Nothing under way, the counter off by `n` slots never given back. */
  function Leaked(n: nat): World {
    World(n, map[], {}, map[], 0)
  }

  lemma LeakOnce(max: nat, n: nat, t: Ticket)
    requires t.takes && !t.releases && n < max
    ensures Enabled(Leaked(n), Enter(0, t))
            && Next(max, Leaked(n), Enter(0, t)) == World(n + 1, map[0 := t], {}, map[], 0)
    ensures Next(max, World(n + 1, map[0 := t], {}, map[], 0), Finish(0)) == Leaked(n + 1)
  {
    assert map[0 := t] - {0} == map[];
  }

  lemma {:induction false} LeaksAddUp(max: nat, n: nat, t: Ticket, allowed: set<Ticket>)
    requires t.takes && !t.releases && t in allowed && n <= max
    ensures Reachable(max, allowed, false, Leaked(n))
  {
    if n == 0 {
      ReachStart(max, allowed, false);
    } else {
      LeaksAddUp(max, n - 1, t, allowed);
      LeakOnce(max, n - 1, t);
      ReachStep(max, allowed, false, Leaked(n - 1), Enter(0, t));
      ReachStep(max, allowed, false, World(n, map[0 := t], {}, map[], 0), Finish(0));
    }
  }

  /** Unreleased slots add up: after `max` of them every request for a slot is turned away although none is held. */
  lemma LeaksStarve(max: nat, t: Ticket, allowed: set<Ticket>)
    requires t.takes && !t.releases && t in allowed
    ensures exists w :: Reachable(max, allowed, false, w) && Idle(w) && w.passing == map[]
                        && forall id: nat, q: Ticket :: q.takes ==> Denied(max, w, id, q)
  {
    LeaksAddUp(max, max, t, allowed);
    assert forall id: nat, q: Ticket :: q.takes ==> Denied(max, Leaked(max), id, q);
  }

  /** Over every interleaving, a denial means a full house exactly when every slot taken is given back. */
  lemma DeniedOnlyWhenFullIff(max: nat, allowed: set<Ticket>)
    requires max >= 1
    ensures DeniedOnlyWhenFull(max, allowed) <==> (forall t :: t in allowed && t.takes ==> t.releases)
  {
    if forall t :: t in allowed && t.takes ==> t.releases {
      forall w, id, t | Reachable(max, allowed, false, w) && Denied(max, w, id, t)
        ensures |w.held| >= max
      {
        KeptReached(max, allowed, w, true, false, false);
      }
    } else {
      var t :| t in allowed && t.takes && !t.releases;
      LeaksAddUp(max, max, t, allowed);
      assert Denied(max, Leaked(max), 0, t);
    }
  }

  // ---------------------------------------------------------------------------
  // Streams served at once
  // ---------------------------------------------------------------------------

  function Streaming(m: map<nat, Ticket>): set<nat> {
    set id | id in m && m[id].streams
  }

  function Served(w: World): nat {
    |Streaming(w.held)| + |Streaming(w.passing)|
  }

  ghost predicate ServedBounded(max: nat, allowed: set<Ticket>, expires: bool) {
    forall w :: Reachable(max, allowed, expires, w) ==> Served(w) <= max
  }

  lemma StreamingWithin(m: map<nat, Ticket>)
    ensures |Streaming(m)| <= |m|
  {
    assert Streaming(m) <= m.Keys;
    Subset(Streaming(m), m.Keys);
  }

  lemma {:induction false} Subset(a: set<nat>, b: set<nat>)
    requires a <= b
    ensures |a| <= |b|
  {
    if a != {} {
      var x :| x in a;
      Subset(a - {x}, b - {x});
    }
  }

  lemma StreamingAdd(m: map<nat, Ticket>, id: nat, t: Ticket)
    requires id !in m && t.streams
    ensures |Streaming(m[id := t])| == |Streaming(m)| + 1
  {
    assert Streaming(m[id := t]) == Streaming(m) + {id};
  }

  /** Slots `0..k`, all held with one ticket. */
  function Row(k: nat, t: Ticket): (m: map<nat, Ticket>)
    ensures |m| == k && forall id: nat :: id in m <==> id < k
  {
    if k == 0 then map[]
    else
      AddOne(Row(k - 1, t), k - 1, t);
      Row(k - 1, t)[k - 1 := t]
  }

  /** `k` slots held, with the counter `n` below its due. */
  function Held(n: nat, k: nat, t: Ticket): World {
    World(k - n, Row(k, t), {}, map[], n)
  }

  lemma {:induction false} RowServed(k: nat, t: Ticket)
    requires t.streams
    ensures |Streaming(Row(k, t))| == k
  {
    if k > 0 {
      RowServed(k - 1, t);
      StreamingAdd(Row(k - 1, t), k - 1, t);
    } else {
      assert Streaming(Row(0, t)) == {};
    }
  }

  lemma HeldServed(n: nat, k: nat, t: Ticket)
    requires t.streams
    ensures Served(Held(n, k, t)) == k
  {
    RowServed(k, t);
    assert Streaming(map[]) == {};
  }

  lemma HeldUp(max: nat, n: nat, k: nat, t: Ticket)
    requires t.takes && k + 1 - n <= max
    ensures Enabled(Held(n, k, t), Enter(k, t)) && Next(max, Held(n, k, t), Enter(k, t)) == Held(n, k + 1, t)
  {
    assert Row(k, t)[k := t] == Row(k + 1, t);
  }

  lemma HeldDown(max: nat, n: nat, k: nat, t: Ticket)
    requires t.releases
    ensures Enabled(Held(n, k + 1, t), Finish(k)) && Next(max, Held(n, k + 1, t), Finish(k)) == Held(n, k, t)
  {
    RowLast(k, t);
    assert Row(k + 1, t) - {k} == Row(k, t);
    assert Row(0, t) - {k} == map[];
  }

  lemma RowLast(k: nat, t: Ticket)
    ensures Row(k + 1, t) == Row(k, t)[k := t]
  {
  }

  lemma HeldStep(max: nat, n: nat, k: nat, t: Ticket, allowed: set<Ticket>, expires: bool)
    requires t.takes && t in allowed && k + 1 - n <= max
    ensures StepsTo(max, allowed, expires, Held(n, k, t), Enter(k, t), Held(n, k + 1, t))
  {
    HeldUp(max, n, k, t);
  }

  lemma AdmittedOne(max: nat, n: nat, k: nat, t: Ticket, allowed: set<Ticket>, expires: bool)
    requires t.takes && t in allowed && k + 1 - n <= max && Reachable(max, allowed, expires, Held(n, k, t))
    ensures Reachable(max, allowed, expires, Held(n, k + 1, t))
  {
    HeldStep(max, n, k, t, allowed, expires);
    ReachNext(max, allowed, expires, Held(n, k, t), Enter(k, t), Held(n, k + 1, t));
  }

  lemma {:induction false} Admitted(max: nat, n: nat, from: nat, k: nat, t: Ticket, allowed: set<Ticket>, expires: bool)
    requires t.takes && t in allowed && from <= k && k - n <= max
    requires Reachable(max, allowed, expires, Held(n, from, t))
    ensures Reachable(max, allowed, expires, Held(n, k, t))
    decreases k - from
  {
    if from < k {
      AdmittedOne(max, n, from, t, allowed, expires);
      Admitted(max, n, from + 1, k, t, allowed, expires);
    }
  }

  lemma {:induction false} Finished(max: nat, n: nat, k: nat, t: Ticket, allowed: set<Ticket>, expires: bool)
    requires t.releases && Reachable(max, allowed, expires, Held(n, k, t))
    ensures Reachable(max, allowed, expires, Held(n, 0, t))
  {
    if k > 0 {
      HeldDown(max, n, k - 1, t);
      ReachStep(max, allowed, expires, Held(n, k, t), Finish(k - 1));
      Finished(max, n, k - 1, t, allowed, expires);
    }
  }

  lemma StartIsHeld(t: Ticket)
    ensures START == Held(0, 0, t)
  {
  }

  // Gifts

  lemma GiftOnce(max: nat, n: nat, gift: Ticket, t: Ticket)
    requires !gift.takes && gift.releases
    ensures Enabled(Held(n, 0, t), Bypass(0, gift))
    ensures Next(max, Held(n, 0, t), Bypass(0, gift)) == World(-(n as int), map[], {}, map[0 := gift], n)
    ensures Next(max, World(-(n as int), map[], {}, map[0 := gift], n), Finish(0)) == Held(n + 1, 0, t)
  {
    assert map[0 := gift] - {0} == map[] && Row(0, t) - {0} == map[];
  }

  lemma {:induction false} GiftsSink(max: nat, n: nat, gift: Ticket, t: Ticket, allowed: set<Ticket>)
    requires !gift.takes && gift.releases && gift in allowed
    ensures Reachable(max, allowed, false, Held(n, 0, t))
  {
    if n == 0 {
      ReachStart(max, allowed, false);
      StartIsHeld(t);
    } else {
      GiftsSink(max, n - 1, gift, t, allowed);
      GiftOnce(max, n - 1, gift, t);
      ReachStep(max, allowed, false, Held(n - 1, 0, t), Bypass(0, gift));
      ReachStep(max, allowed, false, World(1 - n, map[], {}, map[0 := gift], n - 1), Finish(0));
    }
  }

  /** Slots given back without having been taken add up too: after `n` of them, `max + n` streams run at once. */
  lemma GiftsOverAdmit(max: nat, n: nat, gift: Ticket, t: Ticket, allowed: set<Ticket>)
    requires !gift.takes && gift.releases && t.takes && t.streams && gift in allowed && t in allowed
    ensures exists w :: Reachable(max, allowed, false, w) && Served(w) == max + n
  {
    GiftsSink(max, n, gift, t, allowed);
    Admitted(max, n, 0, max + n, t, allowed, false);
    HeldServed(n, max + n, t);
  }

  // Streams without a slot

  function Slipping(k: nat, t: Ticket): World {
    World(0, map[], {}, Row(k, t), 0)
  }

  lemma SlipOnce(max: nat, k: nat, t: Ticket)
    requires !t.takes
    ensures Enabled(Slipping(k, t), Bypass(k, t)) && Next(max, Slipping(k, t), Bypass(k, t)) == Slipping(k + 1, t)
  {
    RowLast(k, t);
  }

  lemma {:induction false} Slipped(max: nat, k: nat, t: Ticket, allowed: set<Ticket>, expires: bool)
    requires !t.takes && t in allowed
    ensures Reachable(max, allowed, expires, Slipping(k, t))
  {
    if k == 0 {
      ReachStart(max, allowed, expires);
    } else {
      Slipped(max, k - 1, t, allowed, expires);
      SlipOnce(max, k - 1, t);
      ReachStep(max, allowed, expires, Slipping(k - 1, t), Bypass(k - 1, t));
    }
  }

  /** Streams that take no slot are not limited at all. */
  lemma SlipsUnlimited(max: nat, n: nat, t: Ticket, allowed: set<Ticket>, expires: bool)
    requires !t.takes && t.streams && t in allowed
    ensures exists w :: Reachable(max, allowed, expires, w) && Served(w) == n
  {
    Slipped(max, n, t, allowed, expires);
    RowServed(n, t);
    assert Streaming(map[]) == {};
  }

  // Expiry

  lemma ExpiryUnder(max: nat, k: nat, t: Ticket)
    ensures Next(max, Held(0, k, t), Expire) == Held(k, k, t)
  {
  }

  lemma FullReached(max: nat, t: Ticket, allowed: set<Ticket>)
    requires t.takes && t in allowed
    ensures Reachable(max, allowed, true, Held(0, max, t))
  {
    ReachStart(max, allowed, true);
    StartIsHeld(t);
    Admitted(max, 0, 0, max, t, allowed, true);
  }

  /**
    When the key expires under `max` streams, their releases drive the counter to minus `max` with nothing under way,
    and `2 * max` streams then run at once.
   */
  lemma ExpiryOverAdmits(max: nat, t: Ticket, allowed: set<Ticket>)
    requires t.takes && t.releases && t.streams && t in allowed
    ensures exists w :: Reachable(max, allowed, true, w) && Idle(w) && w.passing == map[] && w.counter + max == 0
    ensures exists w :: Reachable(max, allowed, true, w) && Served(w) == 2 * max
  {
    FullReached(max, t, allowed);
    ExpiryUnder(max, max, t);
    ReachStep(max, allowed, true, Held(0, max, t), Expire);
    Finished(max, max, max, t, allowed, true);
    assert Idle(Held(max, 0, t));
    Admitted(max, max, 0, 2 * max, t, allowed, true);
    HeldServed(max, 2 * max, t);
  }

  /** A rejection whose key expires before it is compensated. */
  function Rejecting(counter: int, k: nat, id: nat, t: Ticket, debt: nat): World {
    World(counter, Row(k, t), {id}, map[], debt)
  }

  lemma RejectionExpires(max: nat, t: Ticket)
    requires t.takes
    ensures Enabled(Held(0, max, t), Enter(max, t))
    ensures Next(max, Held(0, max, t), Enter(max, t)) == Rejecting(max + 1, max, max, t, 0)
    ensures Next(max, Rejecting(max + 1, max, max, t, 0), Expire) == Rejecting(0, max, max, t, max + 1)
    ensures Next(max, Rejecting(0, max, max, t, max + 1), Compensate(max)) == Held(max + 1, max, t)
  {
    assert {max} - {max} == {} && {} + {max} == {max};
  }

  /** Whatever the maximum, an expiry lets one stream too many run. */
  lemma ExpiryBreaks(max: nat, t: Ticket, allowed: set<Ticket>)
    requires t.takes && t.streams && t in allowed
    ensures !ServedBounded(max, allowed, true)
  {
    FullReached(max, t, allowed);
    RejectionExpires(max, t);
    ReachStep(max, allowed, true, Held(0, max, t), Enter(max, t));
    ReachStep(max, allowed, true, Rejecting(max + 1, max, max, t, 0), Expire);
    ReachStep(max, allowed, true, Rejecting(0, max, max, t, max + 1), Compensate(max));
    Admitted(max, max + 1, max, max + 1, t, allowed, true);
    HeldServed(max + 1, max + 1, t);
  }

  /**
    At most `max` streams are ever served at once exactly when no request streams at all, or every request that streams
    takes a slot, every slot given back was taken, and the key does not expire under a slot.
   */
  lemma ServedBoundedIff(max: nat, allowed: set<Ticket>, expires: bool)
    ensures ServedBounded(max, allowed, expires) <==>
            || (forall t :: t in allowed ==> !t.streams)
            || (!expires && forall t :: t in allowed ==> (t.streams ==> t.takes) && (t.releases ==> t.takes))
  {
    if forall t :: t in allowed ==> !t.streams {
      NoneServed(max, allowed, expires);
    } else if t :| t in allowed && t.streams && !t.takes {
      SlipsUnlimited(max, max + 1, t, allowed, expires);
    } else {
      var t :| t in allowed && t.streams;
      if expires {
        ExpiryBreaks(max, t, allowed);
      } else if g :| g in allowed && g.releases && !g.takes {
        GiftsOverAdmit(max, 1, g, t, allowed);
      } else {
        SlotsBound(max, allowed);
      }
    }
  }

  lemma SlotsBound(max: nat, allowed: set<Ticket>)
    requires forall t :: t in allowed ==> (t.streams ==> t.takes) && (t.releases ==> t.takes)
    ensures ServedBounded(max, allowed, false)
  {
    forall w | Reachable(max, allowed, false, w)
      ensures Served(w) <= max
    {
      KeptReached(max, allowed, w, false, true, true);
      assert Streaming(w.passing) == {};
      StreamingWithin(w.held);
    }
  }

  lemma NoneServed(max: nat, allowed: set<Ticket>, expires: bool)
    requires forall t :: t in allowed ==> !t.streams
    ensures ServedBounded(max, allowed, expires)
  {
    forall w | Reachable(max, allowed, expires, w)
      ensures Served(w) <= max
    {
      var run :| Legal(max, START, run) && Over(max, START, run, allowed, expires) && Final(max, START, run) == w;
      NoneStreams(max, START, run, allowed, expires);
    }
  }

  lemma {:induction false} NoneStreams(max: nat, w: World, run: seq<Step>, allowed: set<Ticket>, expires: bool)
    requires forall t :: t in allowed ==> !t.streams
    requires Streaming(w.held) == Streaming(w.passing) == {}
    requires Legal(max, w, run) && Over(max, w, run, allowed, expires)
    ensures Served(Final(max, w, run)) == 0
    decreases |run|
  {
    if run != [] {
      var n := Next(max, w, run[0]);
      forall id | id in n.held
        ensures !n.held[id].streams
      {
        assert id in w.held ==> id !in Streaming(w.held);
      }
      forall id | id in n.passing
        ensures !n.passing[id].streams
      {
        assert id in w.passing ==> id !in Streaming(w.passing);
      }
      NoneStreams(max, n, run[1..], allowed, expires);
    }
  }
}
