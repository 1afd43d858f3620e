/** In-process coalescing: concurrent callers with one key share one unit of work. */
module Singleflight {

  /** A unit of work. `pending` until the `finally` callback has run. */
  datatype Work<K> = Work(key: K, pending: bool)

  /** A caller joined the work numbered `work`, which had key `key`. */
  datatype Caller<K> = Caller(key: K, work: nat)

  datatype Flights<K> = Flights(inFlight: map<K, nat>, works: seq<Work<K>>, callers: seq<Caller<K>>)

  datatype Event<K> = Called(key: K) | Settled(work: nat)

  function Empty<K>(): Flights<K> {
    Flights(map[], [], [])
  }

  predicate Enabled<K(==)>(f: Flights<K>, e: Event<K>) {
    e.Settled? ==> e.work < |f.works| && f.works[e.work].pending
  }

  /** A call joins the entry of its key or starts a work of its own; a settled work deletes its key's entry. */
  function Next<K>(f: Flights<K>, e: Event<K>): Flights<K>
    requires Enabled(f, e)
  {
    match e
    case Called(key) =>
      if key in f.inFlight then f.(callers := f.callers + [Caller(key, f.inFlight[key])])
      else Flights(f.inFlight[key := |f.works|], f.works + [Work(key, true)], f.callers + [Caller(key, |f.works|)])
    case Settled(work) =>
      f.(inFlight := f.inFlight - {f.works[work].key}, works := f.works[work := f.works[work].(pending := false)])
  }

  /** The closure of `createInProcessSingleflight`; `flights` is its map together with the work it has handed out. */
  class SingleflightGroup<K(==,!new)> {
    var inFlight: map<K, nat>
    ghost var flights: Flights<K>

    ghost predicate Valid()
      reads this
    {
      inFlight == flights.inFlight && Coherent(flights)
    }

    constructor ()
      ensures Valid() && flights == Empty()
    {
      inFlight := map[];
      flights := Empty();
    }

    /** `started` says that the caller's own `work()` was run; `work` is what its promise waits for. */
    method Call(key: K, nextWork: nat) returns (work: nat, started: bool)
      requires Valid() && nextWork == |flights.works|
      modifies this
      ensures Valid() && flights == Next(old(flights), Called(key))
      ensures started == (key !in old(inFlight))
      ensures work < |flights.works| && flights.works[work] == Work(key, true)
      ensures flights.callers == old(flights).callers + [Caller(key, work)]
    {
      CoherentStep(flights, Called(key));
      if key in inFlight {
        work, started := inFlight[key], false;
      } else {
        work, started := nextWork, true;
        inFlight := inFlight[key := nextWork];
      }
      flights := Next(flights, Called(key));
    }

    method Settle(work: nat, key: K)
      requires Valid() && Enabled(flights, Settled(work)) && flights.works[work].key == key
      modifies this
      ensures Valid() && flights == Next(old(flights), Settled(work))
      ensures key !in inFlight
    {
      CoherentStep(flights, Settled(work));
      inFlight := inFlight - {key};
      flights := Next(flights, Settled(work));
    }
  }

  // ---------------------------------------------------------------------------
  // Whole runs
  // ---------------------------------------------------------------------------

  /** The map is the pending work: each key in it has its one pending work, and no pending work is missing. */
  ghost predicate Coherent<K(!new)>(f: Flights<K>) {
    && (forall key :: key in f.inFlight ==> f.inFlight[key] < |f.works| && f.works[f.inFlight[key]] == Work(key, true))
    && (forall i :: 0 <= i < |f.works| && f.works[i].pending ==>
        f.works[i].key in f.inFlight && f.inFlight[f.works[i].key] == i)
    && (forall c :: 0 <= c < |f.callers| ==>
        f.callers[c].work < |f.works| && f.works[f.callers[c].work].key == f.callers[c].key)
  }

  lemma CoherentStep<K(!new)>(f: Flights<K>, e: Event<K>)
    requires Coherent(f) && Enabled(f, e)
    ensures Coherent(Next(f, e))
  {
    if e.Settled? {
      assert forall i :: 0 <= i < |f.works| && f.works[i].pending && i != e.work ==>
             f.works[i].key != f.works[e.work].key;
    }
  }

  predicate Legal<K(==)>(f: Flights<K>, run: seq<Event<K>>)
    decreases |run|
  {
    run == [] || (Enabled(f, run[0]) && Legal(Next(f, run[0]), run[1..]))
  }

  function Final<K>(f: Flights<K>, run: seq<Event<K>>): Flights<K>
    requires Legal(f, run)
    decreases |run|
  {
    if run == [] then f else Final(Next(f, run[0]), run[1..])
  }

  lemma {:induction false} CoherentRun<K(!new)>(f: Flights<K>, run: seq<Event<K>>)
    requires Coherent(f) && Legal(f, run)
    ensures Coherent(Final(f, run))
    ensures |f.works| <= |Final(f, run).works| && |f.callers| <= |Final(f, run).callers|
    decreases |run|
  {
    if run != [] {
      CoherentStep(f, run[0]);
      CoherentRun(Next(f, run[0]), run[1..]);
    }
  }

  /** Over every run, a key is in the map exactly when one work for it is pending, and never two. */
  lemma InFlightIffPending<K(!new)>(run: seq<Event<K>>, key: K)
    requires Legal(Empty(), run)
    ensures var f := Final(Empty(), run);
            && (key in f.inFlight <==> exists i :: 0 <= i < |f.works| && f.works[i] == Work(key, true))
            && (forall i, j ::
                0 <= i < |f.works| && 0 <= j < |f.works| && f.works[i] == f.works[j] == Work(key, true) ==> i == j)
  {
    CoherentRun(Empty(), run);
  }

  /**
    A call made at the end of any run waits for a work of its own key that is pending at that
    moment, and later steps never move it to another: the outcome it gets is that work's.
   */
  lemma CallerGetsPendingWork<K(!new)>(run: seq<Event<K>>, key: K, later: seq<Event<K>>)
    requires Legal(Empty(), run)
    requires Legal(Next(Final(Empty(), run), Called(key)), later)
    ensures var f := Next(Final(Empty(), run), Called(key));
            var me := |f.callers| - 1;
            && f.callers[me].key == key
            && f.callers[me].work < |f.works| && f.works[f.callers[me].work] == Work(key, true)
            && me < |Final(f, later).callers| && Final(f, later).callers[me] == f.callers[me]
  {
    CoherentRun(Empty(), run);
    CoherentStep(Final(Empty(), run), Called(key));
    CallersFixed(Next(Final(Empty(), run), Called(key)), later);
  }

  lemma {:induction false} CallersFixed<K(!new)>(f: Flights<K>, run: seq<Event<K>>)
    requires Legal(f, run)
    ensures f.callers <= Final(f, run).callers
    decreases |run|
  {
    if run != [] { CallersFixed(Next(f, run[0]), run[1..]); }
  }

  /** After a work settles, the next call with its key starts afresh. */
  lemma FreshAfterSettle<K(!new)>(run: seq<Event<K>>, work: nat)
    requires Legal(Empty(), run) && Enabled(Final(Empty(), run), Settled(work))
    ensures var f := Final(Empty(), run);
            var g := Next(f, Settled(work));
            |Next(g, Called(f.works[work].key)).works| == |g.works| + 1
  {
  }

  /** Callers that joined one work came with one key, over every run. */
  lemma SharersShareKey<K(!new)>(run: seq<Event<K>>, i: nat, j: nat)
    requires Legal(Empty(), run)
    requires i < |Final(Empty(), run).callers| && j < |Final(Empty(), run).callers|
    requires Final(Empty(), run).callers[i].work == Final(Empty(), run).callers[j].work
    ensures Final(Empty(), run).callers[i].key == Final(Empty(), run).callers[j].key
  {
    CoherentRun(Empty(), run);
  }
}
