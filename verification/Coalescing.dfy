/** Concurrent chat requests that missed the cache: who shares whose answer. */
module Coalescing {
  import opened Prelude
  import opened ChatReply
  import opened CachePipeline
  import SF = Singleflight

  /** The keys under which `executeChat` coalesces are those of the exact cache. */
  type Run = seq<SF.Event<ExactKey>>

  function Flights(run: Run): SF.Flights<ExactKey>
    requires SF.Legal(SF.Empty(), run)
  {
    SF.Final(SF.Empty(), run)
  }

  /**
    After any run, a request joins another caller's work exactly when that work is pending and the two are one request
    for the cache.
   */
  lemma JoinsIff(run: Run, i: nat, a: Identity, sa: string, b: Identity, sb: string)
    requires SF.Legal(SF.Empty(), run)
    requires i < |Flights(run).callers| && Flights(run).callers[i].key == BuildIdentityKey(a, sa)
    ensures var f := Flights(run);
            var g := SF.Next(f, SF.Called(BuildIdentityKey(b, sb)));
            && f.callers[i].work < |f.works|
            && (g.callers[|f.callers|].work == f.callers[i].work
                <==> f.works[f.callers[i].work].pending && SameRequest(a, sa, b, sb))
  {
    SF.CoherentRun(SF.Empty(), run);
    SameKeyIff(a, sa, b, sb);
  }

  /**
    Callers that share a work asked for the same: alias, client, conversation, messages, prompts and every option that
    counts.
   */
  lemma FollowersShareRequest(run: Run, i: nat, j: nat, a: Identity, sa: string, b: Identity, sb: string)
    requires SF.Legal(SF.Empty(), run)
    requires i < |Flights(run).callers| && Flights(run).callers[i].key == BuildIdentityKey(a, sa)
    requires j < |Flights(run).callers| && Flights(run).callers[j].key == BuildIdentityKey(b, sb)
    requires Flights(run).callers[i].work == Flights(run).callers[j].work
    ensures SameRequest(a, sa, b, sb)
  {
    SF.SharersShareKey(run, i, j);
    SameKeyIff(a, sa, b, sb);
  }

  /**
    The answer the leader builds suits every follower: it names the follower's alias and conversation, and once stored
    it is an exact hit for the follower. Only the request id is the leader's.
   */
  lemma SharedAnswerFits(run: Run, i: nat, j: nat, leader: Stored, b: Identity, sb: string, reply: ProviderReply,
                         provider: string, requestId: string, warnings: seq<Warning>, responseId: string,
                         minSimilarity: real)
    requires SF.Legal(SF.Empty(), run) && leader.Fit()
    requires leader.response
             == BuildChatResponse(reply, provider, leader.request.modelAlias, requestId, leader.conversationId, None,
                                  warnings,
                                                  responseId)
    requires i < |Flights(run).callers|
             && Flights(run).callers[i].key == BuildIdentityKey(leader.Id(), leader.signature)
    requires j < |Flights(run).callers| && Flights(run).callers[j].key == BuildIdentityKey(b, sb)
    requires Flights(run).callers[i].work == Flights(run).callers[j].work
    ensures leader.response.model == b.modelAlias && leader.response.conversationId == b.conversationId
    ensures leader.response.requestId == requestId
    ensures Justified({leader}, minSimilarity, b, sb, leader.Reply(), Exact)
  {
    FollowersShareRequest(run, i, j, leader.Id(), leader.signature, b, sb);
    SameKeyIff(leader.Id(), leader.signature, b, sb);
    assert leader in {leader};
  }
}
