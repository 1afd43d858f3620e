/** The embedding circuit breaker: closed, open, half-open, with calls that settle late. */
module CircuitBreaker {

  /** The breaker's fields as a value. `openAfter` and `cooldownMs` never change. */
  datatype Circuit = Circuit(openAfter: nat, cooldownMs: nat, failures: nat, openedAtMs: int, trialInFlight: bool) {
    predicate Tripped() {
      failures >= openAfter
    }

    predicate CooledDown(now: int) {
      now - openedAtMs >= cooldownMs
    }

    predicate Skips(now: int) {
      Tripped() && (!CooledDown(now) || trialInFlight)
    }

    /** After `shouldSkipEmbed`: letting a call through a tripped breaker makes it the trial. */
    function Asked(now: int): Circuit {
      if Tripped() && !Skips(now) then this.(trialInFlight := true) else this
    }

    function Failed(now: int): Circuit {
      var f := failures + 1;
      this.(failures := f, trialInFlight := false, openedAtMs := if f >= openAfter then now else openedAtMs)
    }

    function Succeeded(): Circuit {
      this.(failures := 0, openedAtMs := 0, trialInFlight := false)
    }
  }

  function NewCircuit(openAfter: nat, cooldownMs: nat): Circuit {
    Circuit(openAfter, cooldownMs, 0, 0, false)
  }

  class EmbeddingCircuitBreaker {
    var failures: nat
    const openAfter: nat
    const cooldownMs: nat
    var openedAtMs: int
    var trialInFlight: bool

    function View(): Circuit
      reads this
    {
      Circuit(openAfter, cooldownMs, failures, openedAtMs, trialInFlight)
    }

    constructor (openAfter: nat, cooldownMs: nat)
      ensures View() == NewCircuit(openAfter, cooldownMs)
    {
      failures, openedAtMs, trialInFlight := 0, 0, false;
      this.openAfter, this.cooldownMs := openAfter, cooldownMs;
    }

    method ShouldSkipEmbed(now: int) returns (skip: bool)
      modifies this
      ensures skip == old(View()).Skips(now)
      ensures View() == old(View()).Asked(now)
    {
      if failures < openAfter { return false; }
      var cooledDown := now - openedAtMs >= cooldownMs;
      if !cooledDown { return true; }
      if trialInFlight { return true; }
      trialInFlight := true;
      return false;
    }

    method IsCircuitOpen(now: int) returns (open: bool)
      ensures open == (View().Tripped() && !View().CooledDown(now))
    {
      return failures >= openAfter && now - openedAtMs < cooldownMs;
    }

    method RecordEmbedFailure(now: int)
      modifies this
      ensures View() == old(View()).Failed(now)
    {
      failures := failures + 1;
      trialInFlight := false;
      if failures >= openAfter {
        openedAtMs := now;
      }
    }

    method RecordEmbedSuccess()
      modifies this
      ensures View() == old(View()).Succeeded()
    {
      failures := 0;
      openedAtMs := 0;
      trialInFlight := false;
    }
  }

  // ---------------------------------------------------------------------------
  // Interleavings of embed calls
  // ---------------------------------------------------------------------------

  /** An embed call that has begun and not settled; `isTrial` says a tripped breaker let it through. */
  datatype Embed = Embed(startedAt: int, isTrial: bool)

  /** `trial` names the call the last trial was granted to. */
  datatype World = World(circuit: Circuit, outstanding: map<nat, Embed>, trial: nat, clock: int)

  datatype Event =
    | Begin(id: nat, now: int)
    | Succeed(id: nat, now: int)
    | Fail(id: nat, now: int)

  function Start(openAfter: nat, cooldownMs: nat, now: int): World {
    World(NewCircuit(openAfter, cooldownMs), map[], 0, now)
  }

  predicate Enabled(w: World, e: Event) {
    && w.clock <= e.now
    && (if e.Begin? then e.id !in w.outstanding else e.id in w.outstanding)
  }

  function Next(w: World, e: Event): World {
    match e
    case Begin(id, now) =>
      if w.circuit.Skips(now) then w.(circuit := w.circuit.Asked(now), clock := now)
      else
        var isTrial := w.circuit.Tripped();
        World(w.circuit.Asked(now), w.outstanding[id := Embed(now, isTrial)], if isTrial then id else w.trial, now)
    case Succeed(id, now) => w.(circuit := w.circuit.Succeeded(), outstanding := w.outstanding - {id}, clock := now)
    case Fail(id, now) => w.(circuit := w.circuit.Failed(now), outstanding := w.outstanding - {id}, clock := now)
  }

  /** The world after a run, peeled from the end so that a run is its past plus one event. */
  function After(w: World, run: seq<Event>): World {
    if run == [] then w else Next(After(w, run[..|run| - 1]), run[|run| - 1])
  }

  predicate Legal(w: World, run: seq<Event>) {
    run == [] ||
    (Legal(w, run[..|run| - 1]) && Enabled(After(w, run[..|run| - 1]), run[|run| - 1]))
  }

  /** The failures a run records after its last success. */
  function FailuresSinceSuccess(run: seq<Event>): nat {
    if run == [] then 0
    else
      var past := run[..|run| - 1];
      match run[|run| - 1]
      case Begin(_, _) => FailuresSinceSuccess(past)
      case Succeed(_, _) => 0
      case Fail(_, _) => FailuresSinceSuccess(past) + 1
  }

  /** The counter counts what its name says, over every interleaving, late settlements included. */
  lemma {:induction false} FailureCountExact(openAfter: nat, cooldownMs: nat, t0: int, run: seq<Event>)
    ensures After(Start(openAfter, cooldownMs, t0), run).circuit.failures == FailuresSinceSuccess(run)
  {
    if run != [] {
      FailureCountExact(openAfter, cooldownMs, t0, run[..|run| - 1]);
    }
  }

  lemma {:induction false} FixedSettings(openAfter: nat, cooldownMs: nat, t0: int, run: seq<Event>)
    ensures var c := After(Start(openAfter, cooldownMs, t0), run).circuit;
            c.openAfter == openAfter && c.cooldownMs == cooldownMs
  {
    if run != [] { FixedSettings(openAfter, cooldownMs, t0, run[..|run| - 1]); }
  }

  /** `trialInFlight` always has an owner: the granted trial, still outstanding. */
  lemma {:induction false} TrialHasOwner(openAfter: nat, cooldownMs: nat, t0: int, run: seq<Event>)
    requires Legal(Start(openAfter, cooldownMs, t0), run)
    ensures var w := After(Start(openAfter, cooldownMs, t0), run);
            w.circuit.trialInFlight ==>
                w.trial in w.outstanding && w.outstanding[w.trial].isTrial && w.circuit.Tripped()
  {
    if run != [] {
      TrialHasOwner(openAfter, cooldownMs, t0, run[..|run| - 1]);
    }
  }

  /** No permanent lockout: with every call settled, a cooled-down breaker lets the next call through. */
  lemma NoLockout(openAfter: nat, cooldownMs: nat, t0: int, run: seq<Event>, id: nat, now: int)
    requires Legal(Start(openAfter, cooldownMs, t0), run)
    requires After(Start(openAfter, cooldownMs, t0), run).outstanding == map[]
    requires After(Start(openAfter, cooldownMs, t0), run).circuit.CooledDown(now)
    ensures id in Next(After(Start(openAfter, cooldownMs, t0), run), Begin(id, now)).outstanding
  {
    TrialHasOwner(openAfter, cooldownMs, t0, run);
  }

  // ---------------------------------------------------------------------------
  // One trial at a time
  // ---------------------------------------------------------------------------

  /** No call is `within` old or older when anything happens: every embed settles in under that time. */
  predicate Prompt(within: nat, w: World, run: seq<Event>) {
    run == [] ||
    (&& Prompt(within, w, run[..|run| - 1])
     && AllYounger(within, After(w, run[..|run| - 1]), run[|run| - 1].now))
  }

  predicate AllYounger(within: nat, w: World, now: int) {
    forall id :: id in w.outstanding ==> now - w.outstanding[id].startedAt < within
  }

  /** Each outstanding trial is the current one, or the breaker has closed or re-opened since it began. */
  ghost predicate TrialsAccounted(w: World) {
    forall id :: id in w.outstanding && w.outstanding[id].isTrial ==>
      || (w.circuit.trialInFlight && id == w.trial)
      || !w.circuit.Tripped()
      || w.outstanding[id].startedAt <= w.circuit.openedAtMs
  }

  ghost predicate Timed(w: World) {
    forall id :: id in w.outstanding ==> w.outstanding[id].startedAt <= w.clock
  }

  ghost predicate OneTrial(w: World) {
    forall i, j :: i in w.outstanding && j in w.outstanding && w.outstanding[i].isTrial && w.outstanding[j].isTrial ==>
        i == j
  }

  lemma TrialsStep(w: World, e: Event)
    requires w.circuit.openAfter >= 1 && Enabled(w, e)
    requires TrialsAccounted(w) && Timed(w) && OneTrial(w)
    requires w.circuit.trialInFlight ==> w.trial in w.outstanding
    requires forall id :: id in w.outstanding ==> e.now - w.outstanding[id].startedAt < w.circuit.cooldownMs
    ensures TrialsAccounted(Next(w, e)) && Timed(Next(w, e)) && OneTrial(Next(w, e))
  {
    if e.Begin? && !w.circuit.Skips(e.now) && w.circuit.Tripped() {
      assert forall id :: id in w.outstanding ==> !w.outstanding[id].isTrial;
    }
  }

  /** When every embed settles within the cooldown, at most one half-open trial is ever outstanding. */
  lemma {:induction false} AtMostOneTrial(openAfter: nat, cooldownMs: nat, t0: int, run: seq<Event>)
    requires openAfter >= 1
    requires Legal(Start(openAfter, cooldownMs, t0), run) && Prompt(cooldownMs, Start(openAfter, cooldownMs, t0), run)
    ensures var w := After(Start(openAfter, cooldownMs, t0), run); OneTrial(w) && TrialsAccounted(w) && Timed(w)
  {
    if run != [] {
      var past := run[..|run| - 1];
      AtMostOneTrial(openAfter, cooldownMs, t0, past);
      TrialHasOwner(openAfter, cooldownMs, t0, past);
      FixedSettings(openAfter, cooldownMs, t0, past);
      TrialsStep(After(Start(openAfter, cooldownMs, t0), past), run[|run| - 1]);
    }
  }

  /** `w` after the events of `run`, one after another. */
  lemma {:induction false} Extend(w: World, run: seq<Event>, e: Event)
    ensures After(w, run + [e]) == Next(After(w, run), e)
    ensures Legal(w, run + [e]) <==> Legal(w, run) && Enabled(After(w, run), e)
  {
    assert (run + [e])[..|run + [e]| - 1] == run;
  }

  /**
    A call begun before the breaker tripped and failing during the trial lets a second trial start beside the first.
   */
  lemma StaleFailureAllowsSecondTrial()
    ensures exists run :: Legal(Start(1, 10, 0), run) && !OneTrial(After(Start(1, 10, 0), run))
  {
    var w := Start(1, 10, 0);
    var e1, e2, e3, e4, e5, e6 := Begin(1, 0), Begin(2, 0), Fail(1, 0), Begin(3, 10), Fail(2, 10), Begin(4, 20);
    var run: seq<Event> := [];
    Extend(w, [], e1);
    Extend(w, [] + [e1], e2);
    Extend(w, [] + [e1] + [e2], e3);
    Extend(w, [] + [e1] + [e2] + [e3], e4);
    Extend(w, [] + [e1] + [e2] + [e3] + [e4], e5);
    Extend(w, [] + [e1] + [e2] + [e3] + [e4] + [e5], e6);
    run := [] + [e1] + [e2] + [e3] + [e4] + [e5] + [e6];
    var end := After(w, run);
    assert end.outstanding[3].isTrial && end.outstanding[4].isTrial;
  }

  /** Over every run whose embeds settle in under `within`, at most one half-open trial is outstanding. */
  ghost predicate OneTrialWithin(openAfter: nat, cooldownMs: nat, within: nat) {
    forall t0, run ::
        Legal(Start(openAfter, cooldownMs, t0), run) && Prompt(within, Start(openAfter, cooldownMs, t0), run) ==>
      OneTrial(After(Start(openAfter, cooldownMs, t0), run))
  }

  ghost predicate Reached(within: nat, w0: World, w: World) {
    exists run :: Legal(w0, run) && Prompt(within, w0, run) && After(w0, run) == w
  }

  lemma ReachedStep(within: nat, w0: World, w: World, e: Event)
    requires Reached(within, w0, w) && Enabled(w, e) && AllYounger(within, w, e.now)
    ensures Reached(within, w0, Next(w, e))
  {
    var run :| Legal(w0, run) && Prompt(within, w0, run) && After(w0, run) == w;
    Extend(w0, run, e);
    assert (run + [e])[..|run + [e]| - 1] == run;
  }

  /** Failures one after another, the breaker still closed. */
  function Warm(openAfter: nat, cooldownMs: nat, failures: nat): World {
    World(Circuit(openAfter, cooldownMs, failures, 0, false), map[], 0, 0)
  }

  lemma {:induction false} WarmReached(openAfter: nat, cooldownMs: nat, within: nat, failures: nat)
    requires failures < openAfter && within >= 1
    ensures Reached(within, Start(openAfter, cooldownMs, 0), Warm(openAfter, cooldownMs, failures))
  {
    var w0 := Start(openAfter, cooldownMs, 0);
    if failures == 0 {
      assert Legal(w0, []) && Prompt(within, w0, []) && After(w0, []) == w0;
    } else {
      WarmReached(openAfter, cooldownMs, within, failures - 1);
      var w := Warm(openAfter, cooldownMs, failures - 1);
      ReachedStep(within, w0, w, Begin(0, 0));
      ReachedStep(within, w0, Next(w, Begin(0, 0)), Fail(0, 0));
      assert map[0 := Embed(0, false)] - {0} == map[];
      assert Next(Next(w, Begin(0, 0)), Fail(0, 0)) == Warm(openAfter, cooldownMs, failures);
    }
  }

  /** Tripped, with a call from before still outstanding. */
  function TrippedWith(openAfter: nat, cooldownMs: nat): World {
    World(Circuit(openAfter, cooldownMs, openAfter, 0, false), map[2 := Embed(0, false)], 0, 0)
  }

  lemma TrippedReached(openAfter: nat, cooldownMs: nat, within: nat)
    requires openAfter >= 1 && within >= 1
    ensures Reached(within, Start(openAfter, cooldownMs, 0), TrippedWith(openAfter, cooldownMs))
  {
    var w0 := Start(openAfter, cooldownMs, 0);
    WarmReached(openAfter, cooldownMs, within, openAfter - 1);
    var w := Warm(openAfter, cooldownMs, openAfter - 1);
    var w1 := w.(outstanding := map[1 := Embed(0, false)]);
    var w2 := w.(outstanding := map[1 := Embed(0, false), 2 := Embed(0, false)]);
    TripSteps(openAfter, cooldownMs);
    ReachedStep(within, w0, w, Begin(1, 0));
    ReachedStep(within, w0, w1, Begin(2, 0));
    ReachedStep(within, w0, w2, Fail(1, 0));
  }

  lemma TripSteps(openAfter: nat, cooldownMs: nat)
    requires openAfter >= 1
    ensures var w := Warm(openAfter, cooldownMs, openAfter - 1);
            var w1 := w.(outstanding := map[1 := Embed(0, false)]);
            var w2 := w.(outstanding := map[1 := Embed(0, false), 2 := Embed(0, false)]);
            && Next(w, Begin(1, 0)) == w1 && Next(w1, Begin(2, 0)) == w2
            && Next(w2, Fail(1, 0)) == TrippedWith(openAfter, cooldownMs)
  {
    var both := map[1 := Embed(0, false), 2 := Embed(0, false)];
    assert both - {1} == map[2 := Embed(0, false)];
  }

  /**
    One call as old as the cooldown is enough: its failure during the trial lets a second trial start beside the first.
   */
  lemma SlowCallBreaks(openAfter: nat, cooldownMs: nat, within: nat)
    requires openAfter >= 1 && within > cooldownMs
    ensures !OneTrialWithin(openAfter, cooldownMs, within)
  {
    var w0, c := Start(openAfter, cooldownMs, 0), cooldownMs;
    TrippedReached(openAfter, cooldownMs, within);
    var w := TrippedWith(openAfter, cooldownMs);
    ReachedStep(within, w0, w, Begin(3, c));
    var w1 := Next(w, Begin(3, c));
    ReachedStep(within, w0, w1, Fail(2, c));
    var w2 := Next(w1, Fail(2, c));
    ReachedStep(within, w0, w2, Begin(4, 2 * c));
    var w3 := Next(w2, Begin(4, 2 * c));
    assert w3.outstanding[3].isTrial && w3.outstanding[4].isTrial;
  }

  lemma {:induction false} PromptGrows(shorter: nat, longer: nat, w: World, run: seq<Event>)
    requires shorter <= longer && Prompt(shorter, w, run)
    ensures Prompt(longer, w, run)
  {
    if run != [] { PromptGrows(shorter, longer, w, run[..|run| - 1]); }
  }

  /** At most one trial is outstanding in every such run exactly when embeds settle within the cooldown. */
  lemma OneTrialIff(openAfter: nat, cooldownMs: nat, within: nat)
    requires openAfter >= 1
    ensures OneTrialWithin(openAfter, cooldownMs, within) <==> within <= cooldownMs
  {
    if within <= cooldownMs {
      forall t0, run | Legal(Start(openAfter, cooldownMs, t0), run)
          && Prompt(within, Start(openAfter, cooldownMs, t0), run)
        ensures OneTrial(After(Start(openAfter, cooldownMs, t0), run))
      {
        PromptGrows(within, cooldownMs, Start(openAfter, cooldownMs, t0), run);
        AtMostOneTrial(openAfter, cooldownMs, t0, run);
      }
    } else {
      SlowCallBreaks(openAfter, cooldownMs, within);
    }
  }
}
