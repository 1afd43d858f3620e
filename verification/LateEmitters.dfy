/** Stream attempts that keep emitting after the executor has given them up at the deadline. */
module LateEmitters {

  datatype Kind = Meta | Delta(attempt: nat, text: string) | Done

  /** An attempt that reads its provider stream; `current` while the executor still waits for it. */
  datatype Attempt = Attempt(reading: bool, current: bool, text: string)

  datatype Stream = Stream(attempts: seq<Attempt>, metaEmitted: bool, events: seq<Kind>)

  datatype Step =
    | Open                             // runOnce: the stream starts and the meta check follows in the same turn
    | Chunk(attempt: nat, text: string)
    | Abandon(attempt: nat)            // deadline: the executor moves on, the reader does not
    | Close(attempt: nat)              // the reader ends, well or badly
    | Finish                           // the executor has its value: done

  const START := Stream([], false, [])

  predicate Enabled(s: Stream, step: Step) {
    match step
    case Open => Done !in s.events && forall i :: 0 <= i < |s.attempts| ==> !s.attempts[i].current
    case Chunk(i, _) => i < |s.attempts| && s.attempts[i].reading
    case Abandon(i) => i < |s.attempts| && s.attempts[i].current
    case Close(i) => i < |s.attempts| && s.attempts[i].reading
    case Finish =>
      s.attempts != [] && s.attempts[|s.attempts| - 1].current && !s.attempts[|s.attempts| - 1].reading
      && Done !in s.events
  }

  function Next(s: Stream, step: Step): Stream
    requires Enabled(s, step)
  {
    match step
    case Open =>
      Stream(s.attempts + [Attempt(true, true, "")], true, if s.metaEmitted then s.events else s.events + [Meta])
    case Chunk(i, text) =>
      s.(attempts := s.attempts[i := s.attempts[i].(text := s.attempts[i].text + text)],
         events := s.events + [Delta(i, text)])
    case Abandon(i) => s.(attempts := s.attempts[i := s.attempts[i].(current := false)])
    case Close(i) => s.(attempts := s.attempts[i := s.attempts[i].(reading := false)])
    case Finish =>
      s.(attempts := s.attempts[|s.attempts| - 1 := s.attempts[|s.attempts| - 1].(current := false)],
         events := s.events + [Done])
  }

  predicate Legal(s: Stream, run: seq<Step>)
    decreases |run|
  {
    run == [] || (Enabled(s, run[0]) && Legal(Next(s, run[0]), run[1..]))
  }

  function Final(s: Stream, run: seq<Step>): Stream
    requires Legal(s, run)
    decreases |run|
  {
    if run == [] then s else Final(Next(s, run[0]), run[1..])
  }

  /** Meta is the first event and the only one of its kind. */
  ghost predicate MetaFirstAndOnce(events: seq<Kind>) {
    && (events != [] ==> events[0] == Meta)
    && forall i :: 1 <= i < |events| ==> events[i] != Meta
  }

  ghost predicate Inv(s: Stream) {
    && MetaFirstAndOnce(s.events)
    && (s.metaEmitted <==> s.events != [])
    && (s.attempts != [] ==> s.metaEmitted)
  }

  /** Over every interleaving, late emitters included: meta at most once, and in front of every delta and of done. */
  lemma {:induction false} MetaOnceAlways(s: Stream, run: seq<Step>)
    requires Inv(s) && Legal(s, run)
    ensures Inv(Final(s, run))
    decreases |run|
  {
    if run != [] { MetaOnceAlways(Next(s, run[0]), run[1..]); }
  }

  // ---------------------------------------------------------------------------
  // With and without late emitters
  // ---------------------------------------------------------------------------

  /** No chunk comes from an attempt the executor has left. */
  predicate Punctual(s: Stream, run: seq<Step>)
    requires Legal(s, run)
    decreases |run|
  {
    run == [] ||
    (&& (run[0].Chunk? ==> s.attempts[run[0].attempt].current)
     && Punctual(Next(s, run[0]), run[1..]))
  }

  function TextOf(events: seq<Kind>): string {
    if events == [] then ""
    else TextOf(events[..|events| - 1]) + (if events[|events| - 1].Delta? then events[|events| - 1].text else "")
  }

  ghost predicate EndsWith(s: string, suffix: string) {
    exists front :: s == front + suffix
  }

  lemma TextOfSnoc(events: seq<Kind>, e: Kind)
    ensures TextOf(events + [e]) == TextOf(events) + (if e.Delta? then e.text else "")
  {
    assert (events + [e])[..|events|] == events;
  }

  /** Only the last attempt can be current, what it has read ends the streamed text, and done is last. */
  ghost predicate Tidy(s: Stream) {
    && (forall i :: 0 <= i < |s.attempts| && s.attempts[i].current ==> i == |s.attempts| - 1 && Done !in s.events)
    && (s.attempts != [] ==> EndsWith(TextOf(s.events), s.attempts[|s.attempts| - 1].text))
    && (forall i :: 0 <= i < |s.events| - 1 ==> s.events[i] != Done)
  }

  lemma TidyOpen(s: Stream)
    requires Tidy(s) && Enabled(s, Open)
    ensures Tidy(Next(s, Open))
  {
    var s' := Next(s, Open);
    assert Done !in s'.events;
    assert EndsWith(TextOf(s'.events), "") by {
      assert TextOf(s'.events) == TextOf(s'.events) + "";
    }
  }

  lemma TidyChunk(s: Stream, i: nat, text: string)
    requires Tidy(s) && Enabled(s, Chunk(i, text)) && s.attempts[i].current
    ensures Tidy(Next(s, Chunk(i, text)))
  {
    var s' := Next(s, Chunk(i, text));
    assert i == |s.attempts| - 1 && Done !in s.events;
    assert Done !in s'.events;
    assert EndsWith(TextOf(s'.events), s.attempts[i].text + text) by {
      var front :| TextOf(s.events) == front + s.attempts[i].text;
      TextOfSnoc(s.events, Delta(i, text));
      assert TextOf(s'.events) == front + (s.attempts[i].text + text);
    }
  }

  lemma TidyFinish(s: Stream)
    requires Tidy(s) && Enabled(s, Finish)
    ensures Tidy(Next(s, Finish))
  {
    var s' := Next(s, Finish);
    TextOfSnoc(s.events, Done);
    assert TextOf(s'.events) == TextOf(s.events) + "" == TextOf(s.events);
  }

  lemma TidyStep(s: Stream, step: Step)
    requires Tidy(s) && Enabled(s, step)
    requires step.Chunk? ==> s.attempts[step.attempt].current
    ensures Tidy(Next(s, step))
  {
    match step
    case Open => TidyOpen(s);
    case Chunk(i, text) => TidyChunk(s, i, text);
    case Abandon(i) =>
    case Close(i) =>
    case Finish => TidyFinish(s);
  }

  /** Without late emitters the final attempt's text ends what was streamed, and nothing follows done. */
  lemma {:induction false} PunctualStreamsAreTidy(s: Stream, run: seq<Step>)
    requires Tidy(s) && Legal(s, run) && Punctual(s, run)
    ensures Tidy(Final(s, run))
    decreases |run|
  {
    if run != [] {
      TidyStep(s, run[0]);
      PunctualStreamsAreTidy(Next(s, run[0]), run[1..]);
    }
  }

  lemma {:induction false} Extend(s: Stream, run: seq<Step>, step: Step)
    requires Legal(s, run) && Enabled(Final(s, run), step)
    ensures Legal(s, run + [step]) && Final(s, run + [step]) == Next(Final(s, run), step)
    decreases |run|
  {
    if run == [] {
      assert [step][1..] == [] && [] + [step] == [step];
    } else {
      assert (run + [step])[1..] == run[1..] + [step];
      Extend(Next(s, run[0]), run[1..], step);
    }
  }

  /** With one, neither holds: a delta follows done, and the assembled text no longer ends the stream. */
  lemma LateEmitterBreaksBoth()
    ensures exists run :: Legal(START, run)
              && Final(START, run).events == [Meta, Delta(1, "b"), Done, Delta(0, "a")]
              && Final(START, run).attempts == [Attempt(true, false, "a"), Attempt(false, false, "b")]
  {
    var run: seq<Step> := [];
    Extend(START, run, Open);
    run := run + [Open];
    Extend(START, run, Abandon(0));
    run := run + [Abandon(0)];
    assert Final(START, run) == Stream([Attempt(true, false, "")], true, [Meta]);
    Extend(START, run, Open);
    run := run + [Open];
    Extend(START, run, Chunk(1, "b"));
    run := run + [Chunk(1, "b")];
    assert "" + "b" == "b";
    assert Final(START, run)
           == Stream([Attempt(true, false, ""), Attempt(true, true, "b")], true, [Meta, Delta(1, "b")]);
    Extend(START, run, Close(1));
    run := run + [Close(1)];
    Extend(START, run, Finish);
    run := run + [Finish];
    assert "" + "a" == "a";
    Extend(START, run, Chunk(0, "a"));
    run := run + [Chunk(0, "a")];
  }

  // ---------------------------------------------------------------------------
  // The deadline as the guard
  // ---------------------------------------------------------------------------

  /** The deadline leaves an attempt that still reads. */
  predicate Cut(s: Stream, step: Step) {
    step.Abandon? && step.attempt < |s.attempts| && s.attempts[step.attempt].reading
  }

  predicate CutFree(s: Stream, run: seq<Step>)
    requires Legal(s, run)
    decreases |run|
  {
    run == [] || (!Cut(s, run[0]) && CutFree(Next(s, run[0]), run[1..]))
  }

  /** No attempt that was left behind reads on. */
  predicate NobodyLate(s: Stream) {
    forall i :: 0 <= i < |s.attempts| && s.attempts[i].reading ==> s.attempts[i].current
  }

  /** However the stream goes on, as long as the deadline cuts nobody off, it stays tidy. */
  ghost predicate TidyForever(s: Stream) {
    forall run :: Legal(s, run) && CutFree(s, run) ==> Tidy(Final(s, run))
  }

  lemma {:induction false} CutFreeIsPunctual(s: Stream, run: seq<Step>)
    requires NobodyLate(s) && Legal(s, run) && CutFree(s, run)
    ensures Punctual(s, run)
    decreases |run|
  {
    if run != [] { CutFreeIsPunctual(Next(s, run[0]), run[1..]); }
  }

  lemma UntidyLater(s: Stream, step: Step)
    requires Enabled(s, step) && !Cut(s, step) && !TidyForever(Next(s, step))
    ensures !TidyForever(s)
  {
    var run :| Legal(Next(s, step), run) && CutFree(Next(s, step), run) && !Tidy(Final(Next(s, step), run));
    var longer := [step] + run;
    assert longer[0] == step && longer[1..] == run;
    assert Legal(s, longer) && CutFree(s, longer) && !Tidy(Final(s, longer));
  }

  lemma UntidyNow(s: Stream)
    requires !Tidy(s)
    ensures !TidyForever(s)
  {
    assert Legal(s, []) && CutFree(s, []) && Final(s, []) == s;
  }

  /** A late chunk after done. */
  lemma LateAfterDone(s: Stream, i: nat)
    requires i < |s.attempts| && s.attempts[i].reading && Done in s.events
    ensures !TidyForever(s)
  {
    var s' := Next(s, Chunk(i, "a"));
    var k :| 0 <= k < |s.events| && s.events[k] == Done;
    assert s'.events[k] == Done;
    UntidyNow(s');
    UntidyLater(s, Chunk(i, "a"));
  }

  /** A late chunk after a chunk of the attempt that is waited for. */
  lemma LateAfterChunk(s: Stream, i: nat)
    requires i < |s.attempts| - 1 && s.attempts[i].reading && s.attempts[|s.attempts| - 1].reading
    ensures !TidyForever(s)
  {
    var last := |s.attempts| - 1;
    var s1 := Next(s, Chunk(last, "b"));
    var s2 := Next(s1, Chunk(i, "a"));
    TextOfSnoc(s1.events, Delta(i, "a"));
    assert !EndsWith(TextOf(s2.events), s2.attempts[last].text) by {
      assert s2.attempts[last].text == s.attempts[last].text + "b";
      assert TextOf(s2.events) == TextOf(s1.events) + "a";
      forall front
        ensures TextOf(s2.events) != front + s2.attempts[last].text
      {
        var t, u := TextOf(s1.events) + "a", front + (s.attempts[last].text + "b");
        assert t[|t| - 1] == 'a' && u[|u| - 1] == 'b';
      }
    }
    UntidyNow(s2);
    UntidyLater(s1, Chunk(i, "a"));
    UntidyLater(s, Chunk(last, "b"));
  }

  lemma LateBreaks(s: Stream, i: nat)
    requires Tidy(s) && i < |s.attempts| && s.attempts[i].reading && !s.attempts[i].current
    ensures !TidyForever(s)
  {
    var last := |s.attempts| - 1;
    if Done in s.events {
      LateAfterDone(s, i);
    } else if !s.attempts[last].current {
      LateAfterChunk(Next(s, Open), i);
      UntidyLater(s, Open);
    } else if s.attempts[last].reading {
      LateAfterChunk(s, i);
    } else {
      var s' := Next(s, Finish);
      assert s'.events[|s.events|] == Done;
      LateAfterDone(s', i);
      UntidyLater(s, Finish);
    }
  }

  /** From a tidy state on, the stream stays tidy, as long as nobody is cut off, exactly when nobody is late now. */
  lemma TidyForeverIff(s: Stream)
    requires Tidy(s)
    ensures TidyForever(s) <==> NobodyLate(s)
  {
    if NobodyLate(s) {
      forall run | Legal(s, run) && CutFree(s, run)
        ensures Tidy(Final(s, run))
      {
        CutFreeIsPunctual(s, run);
        PunctualStreamsAreTidy(s, run);
      }
    } else {
      var i :| 0 <= i < |s.attempts| && s.attempts[i].reading && !s.attempts[i].current;
      LateBreaks(s, i);
    }
  }

  /** Every stream is tidy from start to end exactly when the deadline never cuts off an attempt that still reads. */
  lemma AlwaysTidyIff(cuts: bool)
    ensures (forall run :: Legal(START, run) && (cuts || CutFree(START, run)) ==> Tidy(Final(START, run))) <==> !cuts
  {
    if cuts {
      LateEmitterBreaksBoth();
      var run :| Legal(START, run) && Final(START, run).events == [Meta, Delta(1, "b"), Done, Delta(0, "a")];
      assert Final(START, run).events[2] == Done;
    } else {
      TidyForeverIff(START);
    }
  }
}
