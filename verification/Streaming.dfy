/** The live event stream over retries and fallback, and its replay from the cache. */
module Streaming {
  import opened Prelude
  import opened ChatReply
  import Resilience

  /** Replays carry the time of storing and the cache layer; live meta events carry neither. */
  datatype Replayed = Replayed(cachedAt: string, cacheSource: string)

  datatype SseEvent =
    | Meta(id: string, provider: string, model: string, effectiveModelAlias: Option<string>,
           requestId: string, conversationId: string, replayed: Option<Replayed>)
    | Delta(text: string)
    | Done(data: DoneData)

  function Concat(chunks: seq<string>): string {
    if chunks == [] then "" else Concat(chunks[..|chunks| - 1]) + chunks[|chunks| - 1]
  }

  function Deltas(chunks: seq<string>): (events: seq<SseEvent>)
    ensures |events| == |chunks| && forall i :: 0 <= i < |chunks| ==> events[i] == Delta(chunks[i])
  {
    seq(|chunks|, i requires 0 <= i < |chunks| => Delta(chunks[i]))
  }

  /** The text a client puts together from the deltas of a stream. */
  function TextOf(events: seq<SseEvent>): string {
    if events == [] then ""
    else TextOf(events[..|events| - 1]) + (if events[|events| - 1].Delta? then events[|events| - 1].text else "")
  }

  lemma {:induction false} TextOfAppend(a: seq<SseEvent>, b: seq<SseEvent>)
    ensures TextOf(a + b) == TextOf(a) + TextOf(b)
  {
    if b == [] {
      assert a + b == a;
    } else {
      var init := b[..|b| - 1];
      assert (a + b)[..|a + b| - 1] == a + init;
      TextOfAppend(a, init);
    }
  }

  lemma {:induction false} TextOfDeltas(chunks: seq<string>)
    ensures TextOf(Deltas(chunks)) == Concat(chunks)
  {
    if chunks != [] {
      assert Deltas(chunks)[..|chunks| - 1] == Deltas(chunks[..|chunks| - 1]);
      TextOfDeltas(chunks[..|chunks| - 1]);
    }
  }

  // ---------------------------------------------------------------------------
  // The live stream
  // ---------------------------------------------------------------------------

  /**
    One attempt at a provider stream. `opens` is false when the stream could not be started, and
    then there are no chunks; the outcome is what the executor sees, its text left to `streamOnce`.
   */
  datatype Script = Script(opens: bool, chunks: seq<string>, outcome: Resilience.Outcome<ProviderReply>)

  predicate WellFormed(s: Script) {
    !s.opens ==> s.chunks == [] && s.outcome.Threw?
  }

  /** The attempt's outcome with the text assembled from its chunks. */
  function OutcomeOf(s: Script): Resilience.Outcome<ProviderReply> {
    match s.outcome
    case Value(reply) => Resilience.Value(reply.(text := Concat(s.chunks)))
    case Threw(e) => Resilience.Threw(e)
  }

  /** The executor's view of the scripts. */
  function Runner(scripts: (string, nat) -> Script): (string, nat) -> Resilience.Outcome<ProviderReply> {
    (alias: string, n: nat) => OutcomeOf(scripts(alias, n))
  }

  /** The request's share of the meta event; `providerOf` is the registry's answer for an alias. */
  datatype StreamInfo = StreamInfo(gatewayId: string, primaryAlias: string, requestId: string, conversationId: string,
                                   providerOf: string -> string)

  function MetaFor(info: StreamInfo, alias: string): SseEvent {
    Meta(info.gatewayId, info.providerOf(alias), info.primaryAlias,
         if alias != info.primaryAlias then Some(alias) else None,
         info.requestId, info.conversationId, None)
  }

  class StreamSession {
    const info: StreamInfo
    var events: seq<SseEvent>
    var metaEmitted: bool

    constructor (info: StreamInfo)
      ensures this.info == info && events == [] && !metaEmitted
    {
      this.info := info;
      events := [];
      metaEmitted := false;
    }

    method Emit(event: SseEvent)
      modifies this`events
      ensures events == old(events) + [event]
    {
      events := events + [event];
    }

    /** One attempt: meta if none was sent before, then each chunk as it comes. */
    method StreamOnce(alias: string, script: Script) returns (assembledText: string)
      requires WellFormed(script)
      modifies this
      ensures assembledText == Concat(script.chunks)
      ensures metaEmitted == (old(metaEmitted) || script.opens)
      ensures events
              == old(events) + (if script.opens && !old(metaEmitted) then [MetaFor(info, alias)] else [])
                  + Deltas(script.chunks)
    {
      assembledText := "";
      if !script.opens {
        assert events == old(events) + [] + Deltas(script.chunks);
        return;
      }
      if !metaEmitted {
        Emit(MetaFor(info, alias));
        metaEmitted := true;
      }
      ghost var before := events;
      var i := 0;
      while i < |script.chunks|
        invariant 0 <= i <= |script.chunks|
        invariant assembledText == Concat(script.chunks[..i])
        invariant events == before + Deltas(script.chunks[..i])
        invariant metaEmitted
      {
        assert script.chunks[..i + 1][..i] == script.chunks[..i];
        assembledText := assembledText + script.chunks[i];
        Emit(Delta(script.chunks[i]));
        i := i + 1;
      }
      assert script.chunks[..i] == script.chunks;
    }

    /**
      `executeStreamMiss`: every attempt of the executor streams into the session; a success is
      closed by the done event and, unless it came from the fallback, offered to the cache.
     */
    method ExecuteStreamMiss(fallback: Option<string>, policy: Resilience.Policy, scripts: (string, nat) -> Script,
                             warnings: seq<Warning>)
      returns (result: Resilience.Execution<ProviderReply>, toStore: Option<ChatResponse>)
      requires forall alias, n :: WellFormed(scripts(alias, n))
      requires events == [] && !metaEmitted
      modifies this
      ensures result == Resilience.Execute(info.primaryAlias, fallback, policy, Runner(scripts))
      ensures var trace := Resilience.ExecuteTrace(info.primaryAlias, fallback, policy, Runner(scripts));
              events == LiveEvents(info, scripts, trace)
                        + (if result.Done? then [Done(LiveDone(result, warnings))] else [])
      ensures toStore == if result.Done? && !result.didFallback then Some(LiveResponse(info, result, warnings))
              else None
    {
      var runOnce := Runner(scripts);
      var trace;
      result, trace := Resilience.ExecuteWithRetryAndFallback(info.primaryAlias, fallback, policy, runOnce);
      var i := 0;
      while i < |trace|
        invariant 0 <= i <= |trace|
        invariant metaEmitted == Opened(scripts, trace[..i])
        invariant events == LiveEvents(info, scripts, trace[..i])
      {
        LiveStep(info, scripts, trace, i);
        if trace[i].Call? {
          var _ := StreamOnce(trace[i].alias, scripts(trace[i].alias, trace[i].attempt));
        }
        i := i + 1;
      }
      assert trace[..i] == trace;
      toStore := None;
      if result.Done? {
        Emit(Done(LiveDone(result, warnings)));
        if !result.didFallback {
          toStore := Some(LiveResponse(info, result, warnings));
        }
      }
    }
  }

  function LiveDone(result: Resilience.Execution<ProviderReply>, warnings: seq<Warning>): DoneData
    requires result.Done?
  {
    BuildStreamDone(result.value, warnings, if result.didFallback then Some(result.usedAlias) else None)
  }

  function LiveResponse(info: StreamInfo, result: Resilience.Execution<ProviderReply>,
                        warnings: seq<Warning>): ChatResponse
    requires result.Done?
  {
    BuildChatResponse(result.value, info.providerOf(result.usedAlias), info.primaryAlias, info.requestId,
                      info.conversationId,
                      if result.didFallback then Some(result.usedAlias) else None, warnings, info.gatewayId)
  }

  type Trace = seq<Resilience.Event<ProviderReply>>

  predicate Opened(scripts: (string, nat) -> Script, trace: Trace) {
    exists i :: 0 <= i < |trace| && trace[i].Call? && scripts(trace[i].alias, trace[i].attempt).opens
  }

  /** The events of the attempts in `trace`. */
  function LiveEvents(info: StreamInfo, scripts: (string, nat) -> Script, trace: Trace): seq<SseEvent> {
    if trace == [] then []
    else
      var past := trace[..|trace| - 1];
      LiveEvents(info, scripts, past) +
      match trace[|trace| - 1]
      case Sleep(_) => []
      case Call(alias, attempt, _) =>
        var script := scripts(alias, attempt);
        (if script.opens && !Opened(scripts, past) then [MetaFor(info, alias)] else []) + Deltas(script.chunks)
  }

  /** What the next event of the trace adds to the stream. */
  lemma LiveStep(info: StreamInfo, scripts: (string, nat) -> Script, trace: Trace, i: nat)
    requires i < |trace|
    ensures var past, now := trace[..i], trace[..i + 1];
            if trace[i].Sleep? then
              LiveEvents(info, scripts, now) == LiveEvents(info, scripts, past)
              && (Opened(scripts, now) <==> Opened(scripts, past))
            else
              var script := scripts(trace[i].alias, trace[i].attempt);
              && LiveEvents(info, scripts, now)
                 == LiveEvents(info, scripts, past)
                     + (if script.opens && !Opened(scripts, past) then [MetaFor(info, trace[i].alias)] else [])
                         + Deltas(script.chunks)
              && (Opened(scripts, now) <==> Opened(scripts, past) || script.opens)
  {
    var past, now := trace[..i], trace[..i + 1];
    assert now[..|now| - 1] == past && now[|now| - 1] == trace[i];
    OpenedStep(scripts, trace, i);
  }

  lemma OpenedStep(scripts: (string, nat) -> Script, trace: Trace, i: nat)
    requires i < |trace|
    ensures Opened(scripts, trace[..i + 1]) <==>
            Opened(scripts, trace[..i]) || (trace[i].Call? && scripts(trace[i].alias, trace[i].attempt).opens)
  {
    var past, now := trace[..i], trace[..i + 1];
    if Opened(scripts, past) {
      var k :| 0 <= k < |past| && past[k].Call? && scripts(past[k].alias, past[k].attempt).opens;
      assert now[k] == past[k];
    }
    if trace[i].Call? && scripts(trace[i].alias, trace[i].attempt).opens { assert now[i] == trace[i]; }
  }

  /** Everything streamed by the attempts is one meta event in front of deltas, or nothing at all. */
  lemma {:induction false} LiveShape(info: StreamInfo, scripts: (string, nat) -> Script, trace: Trace)
    requires forall alias, n :: WellFormed(scripts(alias, n))
    ensures var events := LiveEvents(info, scripts, trace);
            && (events == [] <==> !Opened(scripts, trace))
            && (events != [] ==>
                exists i :: 0 <= i < |trace| && trace[i].Call? && events[0] == MetaFor(info, trace[i].alias))
            && (forall i :: 1 <= i < |events| ==> events[i].Delta?)
  {
    if trace != [] {
      var past := trace[..|trace| - 1];
      LiveShape(info, scripts, past);
      if LiveEvents(info, scripts, past) != [] {
        var i :| 0 <= i < |past| && past[i].Call? && LiveEvents(info, scripts, past)[0] == MetaFor(info, past[i].alias);
        assert trace[i] == past[i];
      }
      OpenedStep(scripts, trace, |trace| - 1);
      assert trace[..|trace|] == trace;
    }
  }

  /**
    A successful stream: meta first and only there, done last and only there, and the assembled
    text is the tail of what the client has read (the front being what failed attempts sent).
   */
  lemma SuccessfulStream(info: StreamInfo, fallback: Option<string>, policy: Resilience.Policy,
                         scripts: (string, nat) -> Script)
    requires forall alias, n :: WellFormed(scripts(alias, n))
    requires Resilience.Execute(info.primaryAlias, fallback, policy, Runner(scripts)).Done?
    ensures var runOnce := Runner(scripts);
            var result := Resilience.Execute(info.primaryAlias, fallback, policy, runOnce);
            var events := LiveEvents(info, scripts,
                                     Resilience.ExecuteTrace(info.primaryAlias, fallback, policy, runOnce));
            && events != [] && events[0].Meta? && events[0].id == info.gatewayId && events[0].model == info.primaryAlias
            && (forall i :: 1 <= i < |events| ==> events[i].Delta?)
            && |result.value.text| <= |TextOf(events)|
            && TextOf(events)[|TextOf(events)| - |result.value.text|..] == result.value.text
  {
    var runOnce := Runner(scripts);
    var result := Resilience.Execute(info.primaryAlias, fallback, policy, runOnce);
    var trace := Resilience.ExecuteTrace(info.primaryAlias, fallback, policy, runOnce);
    Resilience.SuccessReportExact(info.primaryAlias, fallback, policy, runOnce);
    TraceTellsTruth(info, fallback, policy, scripts);
    LiveShape(info, scripts, trace);
    LastCallCloses(info, scripts, trace, result.value);
  }

  /**
    The attempt that delivered the value ends the text; in front of it stands exactly what the attempts before it sent.
   */
  lemma LastCallCloses(info: StreamInfo, scripts: (string, nat) -> Script, trace: Trace, reply: ProviderReply)
    requires trace != [] && trace[|trace| - 1].Call?
    requires WellFormed(scripts(trace[|trace| - 1].alias, trace[|trace| - 1].attempt))
    requires OutcomeOf(scripts(trace[|trace| - 1].alias, trace[|trace| - 1].attempt)) == Resilience.Value(reply)
    ensures Opened(scripts, trace)
    ensures TextOf(LiveEvents(info, scripts, trace))
            == TextOf(LiveEvents(info, scripts, trace[..|trace| - 1])) + reply.text
  {
    var last := trace[|trace| - 1];
    var script := scripts(last.alias, last.attempt);
    var past := trace[..|trace| - 1];
    var meta := if script.opens && !Opened(scripts, past) then [MetaFor(info, last.alias)] else [];
    var events := LiveEvents(info, scripts, past);
    LiveStep(info, scripts, trace, |trace| - 1);
    assert trace[..|trace|] == trace;
    assert LiveEvents(info, scripts, trace) == events + meta + Deltas(script.chunks);
    TextBesideMeta(events, meta, script.chunks);
  }

  lemma TextBesideMeta(events: seq<SseEvent>, meta: seq<SseEvent>, chunks: seq<string>)
    requires meta == [] || (|meta| == 1 && meta[0].Meta?)
    ensures TextOf(events + meta + Deltas(chunks)) == TextOf(events) + Concat(chunks)
  {
    TextOfAppend(events + meta, Deltas(chunks));
    TextOfDeltas(chunks);
    TextOfAppend(events, meta);
    assert meta != [] ==> meta[..0] == [];
    assert TextOf(meta) == "";
  }

  /** Each call of an execution's trace carries the outcome of its own script. */
  lemma TraceTellsTruth(info: StreamInfo, fallback: Option<string>, policy: Resilience.Policy,
                        scripts: (string, nat) -> Script)
    ensures var runOnce := Runner(scripts);
            var trace := Resilience.ExecuteTrace(info.primaryAlias, fallback, policy, runOnce);
            forall e :: e in trace && e.Call? ==> e.outcome == OutcomeOf(scripts(e.alias, e.attempt))
  {
    var runOnce := Runner(scripts);
    AttemptsTellTruth(info.primaryAlias, policy, runOnce, Resilience.Try(info.primaryAlias, policy, runOnce).attempts);
    if fallback.Some? {
      AttemptsTellTruth(fallback.value, policy, runOnce, Resilience.Try(fallback.value, policy, runOnce).attempts);
    }
  }

  lemma {:induction false} AttemptsTellTruth(alias: string, policy: Resilience.Policy,
                                             runOnce: (string, nat) -> Resilience.Outcome<ProviderReply>, n: nat)
    ensures forall e :: e in Resilience.Attempts(alias, policy, runOnce, n) && e.Call? ==>
            e.outcome == runOnce(e.alias, e.attempt)
  {
    if n > 1 { AttemptsTellTruth(alias, policy, runOnce, n - 1); }
  }

  // ---------------------------------------------------------------------------
  // Replay from the cache
  // ---------------------------------------------------------------------------

  const CHUNK_SIZE: nat := 64

  function Chunks(text: string): (chunks: seq<string>)
    decreases |text|
  {
    if |text| == 0 then []
    else if |text| <= CHUNK_SIZE then [text]
    else [text[..CHUNK_SIZE]] + Chunks(text[CHUNK_SIZE..])
  }

  function ReplayMeta(cached: CachedReply, cacheSource: string, requestId: string, conversationId: string): SseEvent {
    Meta(cached.id, cached.provider, cached.model, Truthy(cached.effectiveModelAlias), requestId, conversationId,
         Some(Replayed(cached.cachedAt, cacheSource)))
  }

  function ReplayDone(cached: CachedReply): DoneData {
    DoneData(WithTotal(cached.usage), [], cached.finishReason, Truthy(cached.systemFingerprint),
             Truthy(cached.thinkingContent),
             cached.usageDetails, Truthy(cached.effectiveModelAlias), cached.warnings)
  }

  /** What an undisturbed replay emits. */
  function FullReplay(cached: CachedReply, cacheSource: string, requestId: string,
                      conversationId: string): seq<SseEvent> {
    [ReplayMeta(cached, cacheSource, requestId, conversationId)] + Deltas(Chunks(cached.text))
        + [Done(ReplayDone(cached))]
  }

  /**
    `shouldAbort(i)` is the answer to the i-th time the loop asks. It asks once in front of every
    event, so an abort at question `k` leaves exactly the first `k` events of the full replay.
   */
  method Replay(cached: CachedReply, cacheSource: string, requestId: string, conversationId: string,
                shouldAbort: nat -> bool)
    returns (events: seq<SseEvent>)
    ensures events <= FullReplay(cached, cacheSource, requestId, conversationId)
    ensures forall i :: 0 <= i < |events| ==> !shouldAbort(i)
    ensures |events| < |FullReplay(cached, cacheSource, requestId, conversationId)| ==> shouldAbort(|events|)
  {
    events := [];
    if shouldAbort(0) { return; }
    events := [ReplayMeta(cached, cacheSource, requestId, conversationId)];
    var text := cached.text;
    ghost var done := [Done(ReplayDone(cached))];
    ghost var full := FullReplay(cached, cacheSource, requestId, conversationId);
    var i := 0;
    assert RestOf(text, 0) == text;
    while i < |text|
      invariant 0 <= i
      invariant full == events + (Deltas(Chunks(RestOf(text, i))) + done)
      invariant forall j :: 0 <= j < |events| ==> !shouldAbort(j)
      decreases |text| - i
    {
      if shouldAbort(|events|) { return; }
      var piece := text[i..Min(i + CHUNK_SIZE, |text|)];
      NextChunk(text, i);
      ghost var rest := Chunks(RestOf(text, i + CHUNK_SIZE));
      DeltasCons(piece, rest);
      RegroupOne(events, Delta(piece), Deltas(rest), done);
      events := events + [Delta(piece)];
      i := i + CHUNK_SIZE;
    }
    assert Deltas(Chunks(RestOf(text, i))) == [];
    if shouldAbort(|events|) { return; }
    events := events + [Done(ReplayDone(cached))];
  }

  lemma DeltasCons(piece: string, rest: seq<string>)
    ensures Deltas([piece] + rest) == [Delta(piece)] + Deltas(rest)
  {
  }

  lemma RegroupOne<T>(a: seq<T>, x: T, b: seq<T>, c: seq<T>)
    ensures a + ([x] + b + c) == (a + [x]) + (b + c)
  {
  }

  /** `text.slice(i)` */
  function RestOf(text: string, i: nat): string {
    if i < |text| then text[i..] else ""
  }

  lemma NextChunk(text: string, i: nat)
    requires i < |text|
    ensures Chunks(RestOf(text, i)) == [text[i..Min(i + CHUNK_SIZE, |text|)]] + Chunks(RestOf(text, i + CHUNK_SIZE))
  {
    var rest := text[i..];
    if |rest| > CHUNK_SIZE {
      assert rest[..CHUNK_SIZE] == text[i..i + CHUNK_SIZE];
      assert rest[CHUNK_SIZE..] == text[i + CHUNK_SIZE..];
    } else {
      assert text[i..|text|] == rest;
    }
  }

  /** Cutting into chunks loses nothing: the pieces are non-empty, at most 64 long, full except for the last. */
  lemma {:induction false} ChunksRebuild(text: string)
    ensures Concat(Chunks(text)) == text
    ensures forall i :: 0 <= i < |Chunks(text)| ==> 1 <= |Chunks(text)[i]| <= CHUNK_SIZE
    ensures forall i :: 0 <= i < |Chunks(text)| - 1 ==> |Chunks(text)[i]| == CHUNK_SIZE
    decreases |text|
  {
    if |text| > CHUNK_SIZE {
      var rest := text[CHUNK_SIZE..];
      ChunksRebuild(rest);
      ConcatCons(text[..CHUNK_SIZE], Chunks(rest));
    } else if |text| > 0 {
      assert [text][..0] == [];
    }
  }

  lemma {:induction false} ConcatCons(first: string, rest: seq<string>)
    ensures Concat([first] + rest) == first + Concat(rest)
  {
    if rest == [] {
      assert [first] + rest == [first] && [first][..0] == [];
    } else {
      assert ([first] + rest)[..|rest|] == [first] + rest[..|rest| - 1];
      ConcatCons(first, rest[..|rest| - 1]);
    }
  }

  /**
    Replay equals live. For every streamed answer that was stored, the undisturbed replay shows
    the same id, provider and model, the assembled text, and the very done event of the live stream.
   */
  lemma ReplayEqualsLive(info: StreamInfo, fallback: Option<string>, policy: Resilience.Policy,
                         scripts: (string, nat) -> Script, warnings: seq<Warning>, cachedAt: string,
                         cacheSource: string, requestId: string)
    requires forall alias, n :: WellFormed(scripts(alias, n))
    requires var result := Resilience.Execute(info.primaryAlias, fallback, policy, Runner(scripts));
             result.Done? && !result.didFallback && ShouldStore(LiveResponse(info, result, warnings))
    ensures var runOnce := Runner(scripts);
            var result := Resilience.Execute(info.primaryAlias, fallback, policy, runOnce);
            var live := LiveEvents(info, scripts,
                                   Resilience.ExecuteTrace(info.primaryAlias, fallback, policy, runOnce));
            var cached := ToCached(LiveResponse(info, result, warnings), cachedAt);
            var replay := FullReplay(cached, cacheSource, requestId, info.conversationId);
            && live != [] && live[0].Meta?
            && replay[0] == live[0].(requestId := requestId, replayed := Some(Replayed(cachedAt, cacheSource)))
            && TextOf(replay) == result.value.text
            && replay[|replay| - 1] == Done(LiveDone(result, warnings))
            && !Unservable(cached)
  {
    var runOnce := Runner(scripts);
    var result := Resilience.Execute(info.primaryAlias, fallback, policy, runOnce);
    var trace := Resilience.ExecuteTrace(info.primaryAlias, fallback, policy, runOnce);
    var cached := ToCached(LiveResponse(info, result, warnings), cachedAt);
    SuccessfulStream(info, fallback, policy, scripts);
    LiveShape(info, scripts, trace);
    PrimaryOnly(info.primaryAlias, fallback, policy, runOnce);
    ReplayText(cached, cacheSource, requestId, info.conversationId);
  }

  lemma ReplayText(cached: CachedReply, cacheSource: string, requestId: string, conversationId: string)
    ensures TextOf(FullReplay(cached, cacheSource, requestId, conversationId)) == cached.text
  {
    var m, ds, d := [ReplayMeta(cached, cacheSource, requestId, conversationId)], Deltas(Chunks(cached.text)),
        [Done(ReplayDone(cached))];
    TextOfAppend(m + ds, d);
    TextOfAppend(m, ds);
    TextOfDeltas(Chunks(cached.text));
    ChunksRebuild(cached.text);
    assert m[..0] == [] && d[..0] == [];
  }

  /** Without a fallback in play, every call went to the primary alias. */
  lemma PrimaryOnly(primary: string, fallback: Option<string>, policy: Resilience.Policy,
                    runOnce: (string, nat) -> Resilience.Outcome<ProviderReply>)
    requires Resilience.Execute(primary, fallback, policy, runOnce).Done?
             && !Resilience.Execute(primary, fallback, policy, runOnce).didFallback
    ensures forall e :: e in Resilience.ExecuteTrace(primary, fallback, policy, runOnce) && e.Call? ==>
            e.alias == primary
    ensures Resilience.Execute(primary, fallback, policy, runOnce).usedAlias == primary
  {
    Resilience.AllOneAlias(primary, policy, runOnce, Resilience.Try(primary, policy, runOnce).attempts);
  }
}
