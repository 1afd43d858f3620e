/** A provider's answer as the gateway returns it, stores it and streams its last event. */
module ChatReply {
  import opened Prelude
  import opened Text

  datatype FinishReason = Stop | ToolCalls | Length | ContentFilter
  datatype Usage = Usage(inputTokens: nat, outputTokens: nat)
  datatype ToolCall = ToolCall(id: string, name: string, arguments: string)
  datatype UsageDetails = UsageDetails(promptCacheHit: Option<nat>, promptCacheCreation: Option<nat>)
  datatype Warning = Warning(code: string, message: string, field: Option<string>)

  /** What an attempt at the provider delivers, as `streamOnce` returns it. Absent lists are empty ones. */
  datatype ProviderReply = ProviderReply(
    text: string,
    usage: Option<Usage>,
    toolCalls: seq<ToolCall>,
    stopReason: Option<string>,
    usageDetails: Option<UsageDetails>,
    systemFingerprint: Option<string>,
    thinkingContent: Option<string>)

  datatype ChatResponse = ChatResponse(
    id: string,
    provider: string,
    model: string,
    effectiveModelAlias: Option<string>,
    text: string,
    usage: Option<Usage>,
    requestId: string,
    conversationId: string,
    toolCalls: seq<ToolCall>,
    finishReason: FinishReason,
    usageDetails: Option<UsageDetails>,
    systemFingerprint: Option<string>,
    thinkingContent: Option<string>,
    warnings: seq<Warning>)

  datatype CachedReply = CachedReply(
    id: string,
    provider: string,
    model: string,
    text: string,
    finishReason: FinishReason,
    usage: Option<Usage>,
    warnings: seq<Warning>,
    thinkingContent: Option<string>,
    effectiveModelAlias: Option<string>,
    usageDetails: Option<UsageDetails>,
    systemFingerprint: Option<string>,
    cachedAt: string)

  datatype DoneUsage = DoneUsage(inputTokens: nat, outputTokens: nat, totalTokens: nat)

  datatype DoneData = DoneData(
    usage: Option<DoneUsage>,
    toolCalls: seq<ToolCall>,
    finishReason: FinishReason,
    systemFingerprint: Option<string>,
    thinkingContent: Option<string>,
    usageDetails: Option<UsageDetails>,
    effectiveModelAlias: Option<string>,
    warnings: seq<Warning>)

  /** `...(s && { s })`: the empty string counts as absent. */
  function Truthy(s: Option<string>): Option<string> {
    if s == Some("") then None else s
  }

  function MapStopReasonToFinishReason(stopReason: Option<string>, toolCalls: seq<ToolCall>): FinishReason {
    if stopReason == Some("max_tokens") || stopReason == Some("length") then Length
    else if toolCalls != [] then ToolCalls
    else if stopReason == Some("tool_use") || stopReason == Some("tool_calls") then ToolCalls
    else if stopReason == Some("content_filter") || stopReason == Some("refusal") then ContentFilter
    else Stop
  }

  function BuildChatResponse(reply: ProviderReply, provider: string, model: string, requestId: string,
                             conversationId: string, effectiveModelAlias: Option<string>, warnings: seq<Warning>,
                             id: string): ChatResponse {
    ChatResponse(id, provider, model, Truthy(effectiveModelAlias), reply.text, reply.usage, requestId, conversationId,
                 reply.toolCalls,
                 MapStopReasonToFinishReason(reply.stopReason, reply.toolCalls),
                 reply.usageDetails, Truthy(reply.systemFingerprint), Truthy(reply.thinkingContent), warnings)
  }

  function WithTotal(usage: Option<Usage>): Option<DoneUsage> {
    match usage
    case None => None
    case Some(u) => Some(DoneUsage(u.inputTokens, u.outputTokens, u.inputTokens + u.outputTokens))
  }

  function BuildStreamDone(reply: ProviderReply, warnings: seq<Warning>,
                           effectiveModelAlias: Option<string>): DoneData {
    DoneData(WithTotal(reply.usage), reply.toolCalls, MapStopReasonToFinishReason(reply.stopReason, reply.toolCalls),
             Truthy(reply.systemFingerprint), Truthy(reply.thinkingContent), reply.usageDetails,
                 Truthy(effectiveModelAlias), warnings)
  }

  function ToCached(response: ChatResponse, cachedAt: string): CachedReply {
    CachedReply(response.id, response.provider, response.model, response.text, response.finishReason, response.usage,
                response.warnings,
                Truthy(response.thinkingContent), Truthy(response.effectiveModelAlias), response.usageDetails,
                Truthy(response.systemFingerprint), cachedAt)
  }

  predicate ShouldStore(response: ChatResponse) {
    && response.finishReason.Stop?
    && |Trim(response.text)| > 0
    && |response.toolCalls| == 0
  }

  predicate Unservable(reply: CachedReply) {
    !reply.finishReason.Stop? || |Trim(reply.text)| == 0
  }

  /** What is fit to store is fit to serve. */
  lemma StoredIsServable(response: ChatResponse, cachedAt: string)
    ensures ShouldStore(response) ==> !Unservable(ToCached(response, cachedAt))
    ensures !Unservable(ToCached(response, cachedAt)) && response.toolCalls == [] ==> ShouldStore(response)
  {
  }
}
