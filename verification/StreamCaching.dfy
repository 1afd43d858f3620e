/** A streamed request from cache lookup to store, and the replay of what was stored. */
module StreamCaching {
  import opened Prelude
  import opened ChatReply
  import opened Streaming
  import opened CachePipeline
  import Resilience
  import CB = CircuitBreaker

  const NEVER: nat -> bool := _ => false

  /** What a request brings along: whose it is, and what its stream needs. */
  datatype Asked = Asked(request: Request, clientId: string, hasGatewayKey: bool, info: StreamInfo,
                         fallback: Option<string>, policy: Resilience.Policy, scripts: (string, nat) -> Script,
                         warnings: seq<Warning>) {
    ghost predicate WellPosed() {
      && (forall alias, n :: WellFormed(scripts(alias, n)))
      && info.primaryAlias == request.modelAlias
    }

    function Id(): Identity {
      ToIdentity(request, info.conversationId, clientId)
    }

    function Result(): Resilience.Execution<ProviderReply> {
      Resilience.Execute(info.primaryAlias, fallback, policy, Runner(scripts))
    }

    function Live(): seq<SseEvent> {
      LiveEvents(info, scripts, Resilience.ExecuteTrace(info.primaryAlias, fallback, policy, Runner(scripts)))
      + if Result().Done? then [Done(LiveDone(Result(), warnings))] else []
    }

    /** The answer of a stream that ends well, as it is stored. */
    function Answer(signature: string, cachedAt: string): Stored
      requires Result().Done?
    {
      Stored(request, info.conversationId, clientId, signature, LiveResponse(info, Result(), warnings), cachedAt)
    }

    /** The stream ends in an answer of the primary alias that is fit to store. */
    predicate Storable() {
      Result().Done? && !Result().didFallback && ShouldStore(LiveResponse(info, Result(), warnings))
    }
  }

  predicate ServableAt(exact: map<ExactKey, Raw>, key: ExactKey) {
    key in exact && exact[key].Parsed? && !Unservable(exact[key].reply)
  }

  function SourceName(source: Source): string {
    match source
    case Exact => "exact"
    case HashHit => "semantic"
    case KnnHit(_) => "semantic"
  }

  /** `executeStreamMiss` with its store: the stream is the live one, and only a storable answer reaches the cache. */
  method StreamAndStore(cache: ChatCache, asked: Asked, state: Option<EmbedState>, cachedAt: string, world: World)
    returns (events: seq<SseEvent>)
    requires cache.Valid() && asked.WellPosed()
    modifies cache`circuit, cache`embedCalls, cache`vectors, cache`exact, cache`stored
    ensures cache.Valid()
    ensures events == asked.Live()
    ensures cache.embedCalls <= old(cache.embedCalls) + EmbedsLeft(state)
    ensures if asked.Storable() && cache.Cacheable(asked.request, asked.clientId, asked.hasGatewayKey) then
              var st := asked.Answer(cache.SignatureFor(asked.request), cachedAt);
              && cache.stored == old(cache.stored) + {st}
              && cache.Contents()
                 == Filed(cache.semanticEnabled, old(cache.Contents()), old(cache.circuit), st, state, world)
            else cache.stored == old(cache.stored) && cache.Contents() == old(cache.Contents())
  {
    var session := new StreamSession(asked.info);
    var _, toStore := session.ExecuteStreamMiss(asked.fallback, asked.policy, asked.scripts, asked.warnings);
    events := session.events;
    if toStore.Some? {
      cache.SetCachedIfAllowed(asked.request, toStore.value, asked.info.conversationId, asked.clientId,
                               asked.hasGatewayKey,
                               state, cachedAt, world);
    }
  }

  /** `resolveStreamCache`, then `replayStreamCacheHit` or `executeStreamMiss`, with a client that stays connected. */
  method ServeStream(cache: ChatCache, asked: Asked, cachedAt: string, before: World, after: World)
    returns (events: seq<SseEvent>, lookup: Lookup)
    requires cache.Valid() && asked.WellPosed() && cache.Plausible(asked.Id(), before)
    modifies cache`circuit, cache`embedCalls, cache`vectors, cache`exact, cache`stored
    ensures cache.Valid()
    ensures cache.embedCalls <= old(cache.embedCalls) + 1
    ensures lookup.Served? ==>
            events == FullReplay(lookup.reply, SourceName(lookup.source), asked.info.requestId,
                                 asked.info.conversationId)
    ensures lookup.Miss? ==> events == asked.Live()
    ensures cache.Cacheable(asked.request, asked.clientId, asked.hasGatewayKey) ==>
              (var key := BuildIdentityKey(asked.Id(), cache.SignatureFor(asked.request));
               ServableAt(old(cache.exact), key) ==> lookup == Served(old(cache.exact)[key].reply, Exact))
    ensures if lookup.Miss? && asked.Storable()
            && cache.Cacheable(asked.request, asked.clientId, asked.hasGatewayKey) then
              var st := asked.Answer(cache.SignatureFor(asked.request), cachedAt);
              && cache.stored == old(cache.stored) + {st}
              && cache.Contents() == Filed(cache.semanticEnabled, old(cache.Contents()), old(cache.circuit), st,
                                           Some(LookedUp(old(cache.circuit), before)), after)
            else cache.stored == old(cache.stored) && cache.vectors == old(cache.vectors)
  {
    lookup := Miss(None);
    if asked.hasGatewayKey {
      lookup := cache.GetCachedIfAllowed(asked.request, asked.info.conversationId, asked.clientId, asked.hasGatewayKey,
                                         before);
      if lookup.Served? {
        events := Replay(lookup.reply, SourceName(lookup.source), asked.info.requestId, asked.info.conversationId,
                         NEVER);
        return;
      }
    }
    ghost var now, circuit := cache.Contents(), cache.circuit;
    events := StreamAndStore(cache, asked, lookup.state, cachedAt, after);
    if asked.Storable() && cache.Cacheable(asked.request, asked.clientId, asked.hasGatewayKey) {
      FiledAfterLookup(cache.semanticEnabled, old(cache.Contents()), now, old(cache.circuit), circuit,
                       asked.Answer(cache.SignatureFor(asked.request), cachedAt), lookup.state, before, after);
    }
  }

  /**
    A stored stream replays. The same request asked again, under a new request id, finds the answer in the exact cache,
    and the undisturbed replay shows the live meta event with the new request id, the answer's text, and the very done
    event of the stream.
   */
  lemma StoredStreamReplays(first: Asked, sa: string, again: Asked, sb: string, cachedAt: string, semanticEnabled: bool,
                            shelves: Shelves, circuit: CB.Circuit, state: Option<EmbedState>, world: World)
    requires first.WellPosed() && first.Storable() && SameRequest(first.Id(), sa, again.Id(), sb)
    ensures var exact := Filed(semanticEnabled, shelves, circuit, first.Answer(sa, cachedAt), state, world).exact;
            var key := BuildIdentityKey(again.Id(), sb);
            && ServableAt(exact, key)
            && var live := first.Live();
               var replay := FullReplay(exact[key].reply, SourceName(Exact), again.info.requestId,
                                        again.info.conversationId);
               && |live| >= 2 && live[0].Meta?
               && replay[0]
                  == live[0].(requestId := again.info.requestId, replayed := Some(Replayed(cachedAt, "exact")))
               && TextOf(replay) == first.Result().value.text
               && replay[|replay| - 1] == live[|live| - 1]
  {
    SameKeyIff(first.Id(), sa, again.Id(), sb);
    ReplayEqualsLive(first.info, first.fallback, first.policy, first.scripts, first.warnings, cachedAt, "exact",
                     again.info.requestId);
  }
}
