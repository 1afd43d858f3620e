/** The process-local e-mail limiter: a pruned hit list per key, and the full-history limiter it stands for. */
module SlidingWindow {

  /** `hits.filter(t => t > after)` */
  function Since(hits: seq<int>, after: int): (recent: seq<int>)
    ensures |recent| <= |hits|
    ensures forall t :: t in recent <==> t in hits && t > after
  {
    if hits == [] then []
    else (if hits[0] > after then [hits[0]] else []) + Since(hits[1..], after)
  }

  type Hits = map<string, seq<int>>

  function Lookup(hits: Hits, key: string): seq<int> {
    if key in hits then hits[key] else []
  }

  /** `key.trim().toLowerCase()` is the function `normalize`; nothing about it matters beyond being a function. */
  class SoftEmailRateLimiter {
    const maxHits: nat
    const windowMs: nat
    const normalize: string -> string
    var hits: Hits

    constructor (maxHits: nat, windowMs: nat, normalize: string -> string)
      ensures this.maxHits == maxHits && this.windowMs == windowMs && this.normalize == normalize
      ensures hits == map[]
    {
      this.maxHits, this.windowMs, this.normalize := maxHits, windowMs, normalize;
      hits := map[];
    }

    method TryConsume(key: string, now: int) returns (ok: bool)
      modifies this
      ensures ok == Accepts(maxHits, windowMs, old(hits), Call(normalize(key), now))
      ensures hits == Pruned(maxHits, windowMs, old(hits), Call(normalize(key), now))
    {
      var normalized := normalize(key);
      var windowStart := now - windowMs;
      var prev := if normalized in hits then hits[normalized] else [];
      var recent := Since(prev, windowStart);
      if |recent| >= maxHits {
        hits := hits[normalized := recent];
        assert recent + [] == recent;
        return false;
      }
      recent := recent + [now];
      hits := hits[normalized := recent];
      return true;
    }
  }

  // ---------------------------------------------------------------------------
  // Two limiters over the same calls
  // ---------------------------------------------------------------------------

  /** A call after normalisation of its key. */
  datatype Call = Call(key: string, now: int)

  predicate Accepts(maxHits: nat, windowMs: nat, hits: Hits, c: Call) {
    |Since(Lookup(hits, c.key), c.now - windowMs)| < maxHits
  }

  /** The stored lists after a call: the key's list pruned, with the call appended when it is accepted. */
  function Pruned(maxHits: nat, windowMs: nat, hits: Hits, c: Call): Hits {
    hits[c.key := Since(Lookup(hits, c.key), c.now - windowMs)
         + (if Accepts(maxHits, windowMs, hits, c) then [c.now] else [])]
  }

  /** The reference limiter: it forgets nothing. */
  function Remembered(maxHits: nat, windowMs: nat, hits: Hits, c: Call): Hits {
    if Accepts(maxHits, windowMs, hits, c) then hits[c.key := Lookup(hits, c.key) + [c.now]] else hits
  }

  function RunPruned(maxHits: nat, windowMs: nat, hits: Hits, calls: seq<Call>): (seq<bool>, Hits)
    decreases |calls|
  {
    if calls == [] then ([], hits)
    else
      var (rest, end) := RunPruned(maxHits, windowMs, Pruned(maxHits, windowMs, hits, calls[0]), calls[1..]);
      ([Accepts(maxHits, windowMs, hits, calls[0])] + rest, end)
  }

  function RunRemembered(maxHits: nat, windowMs: nat, hits: Hits, calls: seq<Call>): (seq<bool>, Hits)
    decreases |calls|
  {
    if calls == [] then ([], hits)
    else
      var (rest, end) := RunRemembered(maxHits, windowMs, Remembered(maxHits, windowMs, hits, calls[0]), calls[1..]);
      ([Accepts(maxHits, windowMs, hits, calls[0])] + rest, end)
  }

  ghost predicate Ordered(calls: seq<Call>) {
    forall i, j :: 0 <= i <= j < |calls| ==> calls[i].now <= calls[j].now
  }

  lemma {:induction false} SinceAppend(hits: seq<int>, t: int, after: int)
    ensures Since(hits + [t], after) == Since(hits, after) + (if t > after then [t] else [])
  {
    if hits == [] {
      assert hits + [t] == [t];
      assert [t][1..] == [];
    } else {
      assert (hits + [t])[1..] == hits[1..] + [t];
      SinceAppend(hits[1..], t, after);
    }
  }

  lemma {:induction false} SinceTwice(hits: seq<int>, early: int, late: int)
    requires early <= late
    ensures Since(Since(hits, early), late) == Since(hits, late)
  {
    if hits != [] {
      SinceTwice(hits[1..], early, late);
      var rest := Since(hits[1..], early);
      if hits[0] > early {
        assert Since(hits, early) == [hits[0]] + rest && ([hits[0]] + rest)[1..] == rest;
      } else {
        assert Since(hits, early) == rest;
      }
    }
  }

  /** What pruning keeps: from `clock` on, both lists show the same recent hits for every key. */
  ghost predicate Agree(windowMs: nat, clock: int, pruned: Hits, full: Hits) {
    forall key: string, after: int :: after >= clock - windowMs ==>
        Since(Lookup(pruned, key), after) == Since(Lookup(full, key), after)
  }

  lemma AgreeStep(maxHits: nat, windowMs: nat, clock: int, pruned: Hits, full: Hits, c: Call)
    requires Agree(windowMs, clock, pruned, full) && clock <= c.now
    ensures Accepts(maxHits, windowMs, pruned, c) == Accepts(maxHits, windowMs, full, c)
    ensures Agree(windowMs, c.now, Pruned(maxHits, windowMs, pruned, c), Remembered(maxHits, windowMs, full, c))
  {
    var pruned', full' := Pruned(maxHits, windowMs, pruned, c), Remembered(maxHits, windowMs, full, c);
    var ok := Accepts(maxHits, windowMs, full, c);
    var start := c.now - windowMs;
    forall key: string, after: int | after >= start
      ensures Since(Lookup(pruned', key), after) == Since(Lookup(full', key), after)
    {
      assert Since(Lookup(pruned, key), after) == Since(Lookup(full, key), after);
      if key == c.key {
        SinceTwice(Lookup(pruned, key), start, after);
        SinceAppend(Since(Lookup(pruned, key), start), c.now, after);
        SinceAppend(Lookup(full, key), c.now, after);
        if !ok { assert Since(Lookup(pruned, key), start) + [] == Since(Lookup(pruned, key), start); }
      }
    }
  }

  /** Refinement: under a nondecreasing clock the pruned limiter decides every call as the full-history one. */
  lemma {:induction false} PruningIsLossless(maxHits: nat, windowMs: nat, clock: int, pruned: Hits, full: Hits,
                                             calls: seq<Call>)
    requires Agree(windowMs, clock, pruned, full)
    requires Ordered(calls) && (calls != [] ==> clock <= calls[0].now)
    ensures RunPruned(maxHits, windowMs, pruned, calls).0 == RunRemembered(maxHits, windowMs, full, calls).0
    decreases |calls|
  {
    if calls != [] {
      AgreeStep(maxHits, windowMs, clock, pruned, full, calls[0]);
      PruningIsLossless(maxHits, windowMs, calls[0].now, Pruned(maxHits, windowMs, pruned, calls[0]),
                        Remembered(maxHits, windowMs, full, calls[0]), calls[1..]);
    }
  }

  /** A clock that steps back shows the difference: the pruned list has forgotten a hit the window covers again. */
  lemma ClockStepsBack()
    ensures var calls := [Call("a", 0), Call("a", 10), Call("a", 5)];
            RunPruned(2, 10, map[], calls).0 == [true, true, true]
                && RunRemembered(2, 10, map[], calls).0 == [true, true, false]
  {
    var a, b, c := Call("a", 0), Call("a", 10), Call("a", 5);
    assert [a, b, c][1..] == [b, c] && [b, c][1..] == [c] && [c][1..] == [];
    var m: Hits := map[];
    var p1, f1 := Pruned(2, 10, m, a), Remembered(2, 10, m, a);
    assert Lookup(p1, "a") == [0] && Lookup(f1, "a") == [0];
    assert [0][1..] == [] && Since([0], 0) == [];
    var p2, f2 := Pruned(2, 10, p1, b), Remembered(2, 10, f1, b);
    assert Lookup(p2, "a") == [10] && Lookup(f2, "a") == [0, 10];
    assert [0, 10][1..] == [10] && [10][1..] == [];
    assert Since([10], -5) == [10] && Since([0, 10], -5) == [0] + [10];
    assert RunPruned(2, 10, Pruned(2, 10, p2, c), []).0 == [];
    assert RunPruned(2, 10, p2, [c]).0 == [true] && RunRemembered(2, 10, f2, [c]).0 == [false];
    assert RunPruned(2, 10, p1, [b, c]).0 == [true, true] && RunRemembered(2, 10, f1, [b, c]).0 == [true, false];
  }

  // ---------------------------------------------------------------------------
  // The window bound
  // ---------------------------------------------------------------------------

  /** The hits in the half-open window `(start, start + windowMs]`. */
  function InWindow(hits: seq<int>, start: int, windowMs: nat): (n: nat)
    ensures n <= |Since(hits, start)|
  {
    if hits == [] then 0
    else (if start < hits[0] <= start + windowMs then 1 else 0) + InWindow(hits[1..], start, windowMs)
  }

  lemma {:induction false} InWindowAppend(hits: seq<int>, t: int, start: int, windowMs: nat)
    ensures InWindow(hits + [t], start, windowMs)
            == InWindow(hits, start, windowMs) + (if start < t <= start + windowMs then 1 else 0)
  {
    if hits == [] {
      assert hits + [t] == [t] && [t][1..] == [];
    } else {
      assert (hits + [t])[1..] == hits[1..] + [t];
      InWindowAppend(hits[1..], t, start, windowMs);
    }
  }

  lemma {:induction false} SinceShrinks(hits: seq<int>, early: int, late: int)
    requires early <= late
    ensures |Since(hits, late)| <= |Since(hits, early)|
  {
    if hits != [] { SinceShrinks(hits[1..], early, late); }
  }

  ghost predicate Bounded(maxHits: nat, windowMs: nat, hits: Hits) {
    forall key: string, start: int :: InWindow(Lookup(hits, key), start, windowMs) <= maxHits
  }

  lemma BoundedStep(maxHits: nat, windowMs: nat, hits: Hits, c: Call)
    requires Bounded(maxHits, windowMs, hits)
    requires forall key: string, t: int :: t in Lookup(hits, key) ==> t <= c.now
    ensures Bounded(maxHits, windowMs, Remembered(maxHits, windowMs, hits, c))
    ensures forall key: string, t: int :: t in Lookup(Remembered(maxHits, windowMs, hits, c), key) ==> t <= c.now
  {
    var after := Remembered(maxHits, windowMs, hits, c);
    forall key: string, t: int | t in Lookup(after, key)
      ensures t <= c.now
    {
      if t !in Lookup(hits, key) { assert key == c.key && t == c.now; }
    }
    forall key: string, start: int
      ensures InWindow(Lookup(after, key), start, windowMs) <= maxHits
    {
      assert InWindow(Lookup(hits, key), start, windowMs) <= maxHits;
      if key == c.key && Accepts(maxHits, windowMs, hits, c) {
        InWindowAppend(Lookup(hits, key), c.now, start, windowMs);
        if start < c.now <= start + windowMs {
          SinceShrinks(Lookup(hits, key), c.now - windowMs, start);
        }
      }
    }
  }

  lemma {:induction false} BoundedRun(maxHits: nat, windowMs: nat, hits: Hits, calls: seq<Call>)
    requires Bounded(maxHits, windowMs, hits) && Ordered(calls)
    requires calls != [] ==> forall key: string, t: int :: t in Lookup(hits, key) ==> t <= calls[0].now
    ensures Bounded(maxHits, windowMs, RunRemembered(maxHits, windowMs, hits, calls).1)
    decreases |calls|
  {
    if calls != [] {
      BoundedStep(maxHits, windowMs, hits, calls[0]);
      BoundedRun(maxHits, windowMs, Remembered(maxHits, windowMs, hits, calls[0]), calls[1..]);
    }
  }

  /** The successes of a run for one key, read off its verdicts. */
  function Successes(calls: seq<Call>, verdicts: seq<bool>, key: string): seq<int>
    requires |calls| == |verdicts|
  {
    if calls == [] then []
    else (if verdicts[0] && calls[0].key == key then [calls[0].now] else []) + Successes(calls[1..], verdicts[1..], key)
  }

  lemma {:induction false} VerdictsMatchCalls(maxHits: nat, windowMs: nat, hits: Hits, calls: seq<Call>)
    ensures |RunRemembered(maxHits, windowMs, hits, calls).0| == |calls|
    ensures |RunPruned(maxHits, windowMs, hits, calls).0| == |calls|
    decreases |calls|
  {
    if calls != [] {
      VerdictsMatchCalls(maxHits, windowMs, Remembered(maxHits, windowMs, hits, calls[0]), calls[1..]);
      VerdictsMatchCalls(maxHits, windowMs, Pruned(maxHits, windowMs, hits, calls[0]), calls[1..]);
    }
  }

  lemma {:induction false} RememberedIsSuccesses(maxHits: nat, windowMs: nat, hits: Hits, calls: seq<Call>, key: string)
    requires |RunRemembered(maxHits, windowMs, hits, calls).0| == |calls|
    ensures Lookup(RunRemembered(maxHits, windowMs, hits, calls).1, key)
            == Lookup(hits, key) + Successes(calls, RunRemembered(maxHits, windowMs, hits, calls).0, key)
    decreases |calls|
  {
    if calls != [] {
      var next := Remembered(maxHits, windowMs, hits, calls[0]);
      VerdictsMatchCalls(maxHits, windowMs, next, calls[1..]);
      RememberedIsSuccesses(maxHits, windowMs, next, calls[1..], key);
      assert RunRemembered(maxHits, windowMs, hits, calls).0[1..]
             == RunRemembered(maxHits, windowMs, next, calls[1..]).0;
    }
  }

  /**
    The promise of the limiter itself: over every ordered run, no window of `windowMs` holds
    more than `maxHits` successes for one normalised key.
   */
  lemma WindowBound(maxHits: nat, windowMs: nat, calls: seq<Call>, key: string, start: int)
    requires Ordered(calls)
    ensures |RunPruned(maxHits, windowMs, map[], calls).0| == |calls|
    ensures InWindow(Successes(calls, RunPruned(maxHits, windowMs, map[], calls).0, key), start, windowMs) <= maxHits
  {
    var clock := if calls == [] then 0 else calls[0].now;
    VerdictsMatchCalls(maxHits, windowMs, map[], calls);
    PruningIsLossless(maxHits, windowMs, clock, map[], map[], calls);
    BoundedRun(maxHits, windowMs, map[], calls);
    RememberedIsSuccesses(maxHits, windowMs, map[], calls, key);
    var end := RunRemembered(maxHits, windowMs, map[], calls).1;
    assert InWindow(Lookup(end, key), start, windowMs) <= maxHits;
    assert Lookup(end, key) == Successes(calls, RunRemembered(maxHits, windowMs, map[], calls).0, key);
  }

  /** The stored lists never grow beyond `maxHits`, whatever the clock does. */
  lemma {:induction false} StoredListsStayShort(maxHits: nat, windowMs: nat, hits: Hits, calls: seq<Call>, key: string)
    requires forall k: string :: |Lookup(hits, k)| <= maxHits
    ensures |Lookup(RunPruned(maxHits, windowMs, hits, calls).1, key)| <= maxHits
    decreases |calls|
  {
    if calls != [] {
      var next := Pruned(maxHits, windowMs, hits, calls[0]);
      forall k: string
        ensures |Lookup(next, k)| <= maxHits
      {
        assert |Lookup(hits, k)| <= maxHits;
      }
      StoredListsStayShort(maxHits, windowMs, next, calls[1..], key);
    }
  }
}
