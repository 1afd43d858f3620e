/** The two-layer response cache: exact key first, then text identity and nearest neighbours. */
module CachePipeline {
  import opened Prelude
  import opened ChatReply
  import opened Text
  import CB = CircuitBreaker

  // ---------------------------------------------------------------------------
  // Requests and identities
  // ---------------------------------------------------------------------------

  datatype Role = User | Assistant | Tool
  datatype Message = Message(role: Role, content: string, toolCallId: Option<string>, toolCalls: seq<ToolCall>)

  /** Call options by name, each value as its JSON text; an option that is not set is not in the map. */
  type CallOptions = map<string, string>
  type NormalOptions = map<string, Option<string>>

  datatype Request = Request(modelAlias: string, messages: seq<Message>, hasToolDefinitions: bool, options: CallOptions)
  datatype Identity = Identity(modelAlias: string, conversationId: string, clientId: string, messages: seq<Message>,
                               options: CallOptions)
  datatype Prompts = Prompts(master: string, main: Option<string>, perModel: map<string, string>)

  const OPTION_NAMES: set<string> := {
    "temperature", "maxOutputTokens", "topP", "topK", "stop", "frequencyPenalty", "presencePenalty", "seed",
    "responseFormat", "thinkingEnabled", "thinkingBudget", "parallelToolCalls" }

  function SerializeCallParams(options: CallOptions): NormalOptions {
    map name | name in OPTION_NAMES :: if name in options then Some(options[name]) else None
  }

  /** Two option sets share a cache partition exactly when they agree on every option that shapes the output. */
  lemma SameParamsIffAgree(a: CallOptions, b: CallOptions)
    ensures SerializeCallParams(a) == SerializeCallParams(b)
            <==> forall name :: name in OPTION_NAMES ==>
                (name in a <==> name in b) && (name in a && name in b ==> a[name] == b[name])
  {
    var x, y := SerializeCallParams(a), SerializeCallParams(b);
    forall name | name in OPTION_NAMES && x == y
      ensures (name in a <==> name in b) && (name in a && name in b ==> a[name] == b[name])
    {
      assert x[name] == y[name];
    }
  }

  /** The parts with a bar between them, as successive hash updates feed them to the hash. */
  function BarJoined(parts: seq<string>): string
    requires parts != []
  {
    if |parts| == 1 then parts[0] else parts[0] + "|" + BarJoined(parts[1..])
  }

  /** The effective system prompt of an alias: three texts, absent ones empty. */
  function PromptTriple(prompts: Prompts, modelAlias: string): seq<string> {
    [prompts.master, prompts.main.GetOr(""),
     if modelAlias in prompts.perModel then prompts.perModel[modelAlias] else ""]
  }

  /** The hashed prompt triple; the hash being injective, its input stands for it. */
  function SystemSignature(prompts: Prompts, modelAlias: string): string {
    BarJoined(PromptTriple(prompts, modelAlias))
  }

  lemma FirstBar(x: string, y: string, u: string, v: string)
    requires '|' !in x && '|' !in y && x + "|" + u == y + "|" + v
    ensures x == y && u == v
  {
    var a, b := x + "|" + u, y + "|" + v;
    assert a[|x|] == '|' && b[|y|] == '|';
    assert |x| == |y| by {
      assert forall i :: 0 <= i < |x| ==> a[i] == x[i];
      assert forall i :: 0 <= i < |y| ==> b[i] == y[i];
    }
    assert x == a[..|x|] && y == b[..|y|];
    assert u == a[|x| + 1..] && v == b[|y| + 1..];
  }

  lemma {:induction false} BarJoinInjective(a: seq<string>, b: seq<string>)
    requires |a| == |b| > 0
    requires forall i :: 0 <= i < |a| - 1 ==> '|' !in a[i] && '|' !in b[i]
    ensures BarJoined(a) == BarJoined(b) <==> a == b
    decreases |a|
  {
    if |a| > 1 && BarJoined(a) == BarJoined(b) {
      FirstBar(a[0], b[0], BarJoined(a[1..]), BarJoined(b[1..]));
      BarJoinInjective(a[1..], b[1..]);
      assert a == [a[0]] + a[1..] && b == [b[0]] + b[1..];
    }
  }

  function Bars(s: string): nat {
    if s == [] then 0 else Bars(s[..|s| - 1]) + if s[|s| - 1] == '|' then 1 else 0
  }

  lemma {:induction false} BarsAdd(a: string, b: string)
    ensures Bars(a + b) == Bars(a) + Bars(b)
  {
    if b == [] {
      assert a + b == a;
    } else {
      assert (a + b)[..|a + b| - 1] == a + b[..|b| - 1];
      BarsAdd(a, b[..|b| - 1]);
    }
  }

  lemma {:induction false} BarFreeIff(s: string)
    ensures Bars(s) == 0 <==> '|' !in s
  {
    if s != [] {
      BarFreeIff(s[..|s| - 1]);
      assert s == s[..|s| - 1] + [s[|s| - 1]];
    }
  }

  lemma JoinedThree(a: string, b: string, c: string)
    ensures BarJoined([a, b, c]) == a + "|" + (b + "|" + c)
  {
    assert [a, b, c][1..] == [b, c] && [b, c][1..] == [c];
    assert BarJoined([c]) == c && BarJoined([b, c]) == b + "|" + c;
  }

  lemma BarsOfThree(a: string, b: string, c: string)
    ensures Bars(BarJoined([a, b, c])) == Bars(a) + Bars(b) + Bars(c) + 2
  {
    JoinedThree(a, b, c);
    assert "|"[..0] == [];
    assert Bars("|") == 1;
    BarsAdd(a + "|", b + "|" + c);
    BarsAdd(a, "|");
    BarsAdd(b + "|", c);
    BarsAdd(b, "|");
  }

  /** The first bar of a text, and what stands before and after it. */
  lemma SplitAtBar(s: string) returns (x: string, y: string)
    requires '|' in s
    ensures s == x + "|" + y && |x| < |s|
  {
    var i :| 0 <= i < |s| && s[i] == '|';
    x, y := s[..i], s[i + 1..];
  }

  lemma Reassociate(x: string, y: string, z: string)
    ensures x + "|" + y + "|" + z == x + "|" + (y + "|" + z)
  {
  }

  /** Text around a bar moves from one part of the prompt to another. */
  lemma BarredTriple(a: string, b: string, c: string) returns (t: seq<string>)
    requires '|' in a || '|' in b || '|' in c
    ensures |t| == 3 && t != [a, b, c] && BarJoined(t) == BarJoined([a, b, c])
  {
    if '|' in a {
      var x, y := SplitAtBar(a);
      t := [x, y + "|" + b, c];
      JoinedThree(x, y + "|" + b, c);
      Reassociate(x, y, b + "|" + c);
      Reassociate(y, b, c);
      assert t[0] != [a, b, c][0];
    } else if '|' in b {
      var x, y := SplitAtBar(b);
      t := [a + "|" + x, y, c];
      JoinedThree(a + "|" + x, y, c);
      Reassociate(a, x, y + "|" + c);
      Reassociate(x, y, c);
      assert t[1] != b by { assert |t[1]| < |b|; }
      assert t[1] != [a, b, c][1];
    } else {
      var x, y := SplitAtBar(c);
      t := [a, b + "|" + x, y];
      JoinedThree(a, b + "|" + x, y);
      Reassociate(b, x, y);
      assert t[2] != [a, b, c][2] by { assert |t[2]| < |c|; }
    }
    JoinedThree(a, b, c);
  }

  /** The prompts whose effective parts are the given ones. */
  function PromptsOf(t: seq<string>, modelAlias: string): Prompts
    requires |t| == 3
  {
    Prompts(t[0], Some(t[1]), map[modelAlias := t[2]])
  }

  /** No other effective prompt shares a signature exactly when no part of it holds a bar. */
  lemma SignatureUniqueIff(p: Prompts, modelAlias: string)
    ensures (forall q :: SystemSignature(q, modelAlias) == SystemSignature(p, modelAlias) ==>
             PromptTriple(q, modelAlias) == PromptTriple(p, modelAlias))
            <==> forall part :: part in PromptTriple(p, modelAlias) ==> '|' !in part
  {
    var t := PromptTriple(p, modelAlias);
    assert t == [t[0], t[1], t[2]];
    if forall part :: part in t ==> '|' !in part {
      forall q | SystemSignature(q, modelAlias) == SystemSignature(p, modelAlias)
        ensures PromptTriple(q, modelAlias) == t
      {
        BarFreeTogether(t, PromptTriple(q, modelAlias));
        BarJoinInjective(t, PromptTriple(q, modelAlias));
      }
    } else {
      var u := BarredTriple(t[0], t[1], t[2]);
      assert PromptTriple(PromptsOf(u, modelAlias), modelAlias) == u;
      assert SystemSignature(PromptsOf(u, modelAlias), modelAlias) == SystemSignature(p, modelAlias);
    }
  }

  /** A joined text of bar-free parts is only joined from bar-free parts. */
  lemma BarFreeTogether(t: seq<string>, u: seq<string>)
    requires |t| == |u| == 3 && BarJoined(t) == BarJoined(u)
    requires forall part :: part in t ==> '|' !in part
    ensures forall part :: part in u ==> '|' !in part
  {
    assert t == [t[0], t[1], t[2]] && u == [u[0], u[1], u[2]];
    BarsOfThree(t[0], t[1], t[2]);
    BarsOfThree(u[0], u[1], u[2]);
    assert t[0] in t && t[1] in t && t[2] in t;
    BarFreeIff(t[0]);
    BarFreeIff(t[1]);
    BarFreeIff(t[2]);
    BarFreeIff(u[0]);
    BarFreeIff(u[1]);
    BarFreeIff(u[2]);
  }

  /**
    With a bar, text moved from the main prompt to the master prompt keeps the signature: replies cross that change of
    prompts.
   */
  lemma BarsBlurSignatures(modelAlias: string)
    ensures exists p, q ::
              && PromptTriple(p, modelAlias) != PromptTriple(q, modelAlias)
              && SystemSignature(p, modelAlias) == SystemSignature(q, modelAlias)
  {
    var p, q := Prompts("a|b", Some("c"), map[]), Prompts("a", Some("b|c"), map[]);
    var s, t := PromptTriple(p, modelAlias), PromptTriple(q, modelAlias);
    assert s[0] != t[0];
    assert s[1..][1..] == [""] && t[1..][1..] == [""];
    assert BarJoined([""]) == "";
    assert BarJoined(s[1..]) == "c|" && BarJoined(t[1..]) == "b|c|";
    assert BarJoined(s) == "a|b" + "|" + "c|" == "a" + "|" + "b|c|" == BarJoined(t);
  }

  predicate IsToolingRequest(request: Request) {
    request.hasToolDefinitions || exists m :: m in request.messages && (m.role.Tool? || m.toolCalls != [])
  }

  function ToIdentity(request: Request, conversationId: string, clientId: string): Identity {
    Identity(request.modelAlias, conversationId, clientId, request.messages, request.options)
  }

  /** The exact-cache key, the hash again standing for its input. */
  datatype ExactKey = ExactKey(modelAlias: string, clientId: string, conversationId: string, messages: seq<Message>,
                               signature: string, params: NormalOptions)

  datatype Partition = Partition(modelAlias: string, clientId: string, conversationId: string, signature: string,
                                 params: NormalOptions)
  datatype TextKey = TextKey(partition: Partition, text: string)

  function BuildIdentityKey(id: Identity, signature: string): ExactKey {
    ExactKey(id.modelAlias, id.clientId, id.conversationId, id.messages, signature, SerializeCallParams(id.options))
  }

  function VectorPartition(id: Identity, signature: string): Partition {
    Partition(id.modelAlias, id.clientId, id.conversationId, signature, SerializeCallParams(id.options))
  }

  /**
    One request for the cache: the same alias, client, conversation, messages and prompts, and the same value of every
    option that counts.
   */
  ghost predicate SameRequest(a: Identity, sa: string, b: Identity, sb: string) {
    && a.modelAlias == b.modelAlias && a.clientId == b.clientId && a.conversationId == b.conversationId
    && a.messages == b.messages && sa == sb
    && (forall name :: name in OPTION_NAMES ==>
          (name in a.options <==> name in b.options)
              && (name in a.options && name in b.options ==> a.options[name] == b.options[name]))
  }

  lemma SameKeyIff(a: Identity, sa: string, b: Identity, sb: string)
    ensures BuildIdentityKey(a, sa) == BuildIdentityKey(b, sb) <==> SameRequest(a, sa, b, sb)
  {
    SameParamsIffAgree(a.options, b.options);
  }

  // ---------------------------------------------------------------------------
  // Single-turn gate
  // ---------------------------------------------------------------------------

  function LastUserText(messages: seq<Message>): Option<string> {
    if messages == [] then None
    else
      var last := messages[|messages| - 1];
      if last.role.User? && !Blank(last.content) then Some(Trim(last.content))
      else LastUserText(messages[..|messages| - 1])
  }

  method LastUserMessageText(messages: seq<Message>) returns (text: Option<string>)
    ensures text == LastUserText(messages)
    ensures text.Some? ==>
              exists i :: 0 <= i < |messages| && messages[i].role.User? && text.value == Trim(messages[i].content) != ""
                          && forall j :: i < j < |messages| && messages[j].role.User? ==> Blank(messages[j].content)
    ensures text.None? ==> forall i :: 0 <= i < |messages| && messages[i].role.User? ==> Blank(messages[i].content)
  {
    var i := |messages| - 1;
    assert messages[..i + 1] == messages;
    while i >= 0
      invariant -1 <= i < |messages|
      invariant LastUserText(messages) == LastUserText(messages[..i + 1])
      invariant forall j :: i < j < |messages| && messages[j].role.User? ==> Blank(messages[j].content)
    {
      if messages[i].role.User? {
        var trimmed := Trim(messages[i].content);
        if |trimmed| > 0 {
          return Some(trimmed);
        }
      }
      assert messages[..i + 1][..i] == messages[..i];
      i := i - 1;
    }
    return None;
  }

  function UserCount(messages: seq<Message>): nat {
    if messages == [] then 0
    else UserCount(messages[..|messages| - 1]) + if messages[|messages| - 1].role.User? then 1 else 0
  }

  predicate SingleTurn(messages: seq<Message>) {
    (forall m :: m in messages ==> m.role.User?) && UserCount(messages) == 1
  }

  method IsSingleTurnUserRequest(messages: seq<Message>) returns (single: bool)
    ensures single == SingleTurn(messages)
  {
    var userCount := 0;
    for i := 0 to |messages|
      invariant userCount == UserCount(messages[..i])
      invariant forall j :: 0 <= j < i ==> messages[j].role.User?
    {
      assert messages[..i + 1][..i] == messages[..i];
      if messages[i].role.Assistant? || messages[i].role.Tool? {
        return false;
      }
      userCount := userCount + 1;
    }
    assert messages[..|messages|] == messages;
    return userCount == 1;
  }

  lemma {:induction false} AllUsersCount(messages: seq<Message>)
    requires forall m :: m in messages ==> m.role.User?
    ensures UserCount(messages) == |messages|
  {
    if messages != [] { AllUsersCount(messages[..|messages| - 1]); }
  }

  /** The semantic layer only ever sees one message, so its text identity is the whole conversation up to trimming. */
  lemma SingleTurnIsOneMessage(messages: seq<Message>)
    requires SingleTurn(messages)
    ensures |messages| == 1 && messages[0].role.User?
    ensures LastUserText(messages) == if Blank(messages[0].content) then None else Some(Trim(messages[0].content))
  {
    AllUsersCount(messages);
    assert messages[..0] == [];
  }

  /** The text the semantic layer files a conversation under, if it takes the conversation at all. */
  function SemanticText(messages: seq<Message>): Option<string> {
    if SingleTurn(messages) then LastUserText(messages) else None
  }

  method TextForSemanticLayer(messages: seq<Message>) returns (text: Option<string>)
    ensures text == SemanticText(messages)
  {
    var single := IsSingleTurnUserRequest(messages);
    if !single { return None; }
    text := LastUserMessageText(messages);
  }

  // ---------------------------------------------------------------------------
  // The caches
  // ---------------------------------------------------------------------------

  /** A value of the exact store: text that no longer parses, or a reply. */
  datatype Raw = Garbage | Parsed(reply: CachedReply)

  type Vector = seq<real>
  datatype Entry = Entry(reply: CachedReply, vector: Vector)
  datatype Hit = Hit(similarity: real, reply: CachedReply)

  /** Where a served reply came from. */
  datatype Source = Exact | HashHit | KnnHit(similarity: real)
  datatype EmbedState = EmbedState(vector: Option<Vector>, attempted: bool)
  datatype Lookup = Miss(state: Option<EmbedState>) | Served(reply: CachedReply, source: Source)

  /** One act of storing: the answer, whose it was, and under which system signature. */
  datatype Stored = Stored(request: Request, conversationId: string, clientId: string, signature: string,
                           response: ChatResponse, cachedAt: string) {
    function Id(): Identity {
      ToIdentity(request, conversationId, clientId)
    }

    function Reply(): CachedReply {
      ToCached(response, cachedAt)
    }

    /** Only such answers may be stored. */
    predicate Fit() {
      && !IsToolingRequest(request)
      && clientId != "unknown"
      && response.effectiveModelAlias.None?
      && ShouldStore(response)
    }

    /** Same alias, client, conversation, signature and parameters. */
    predicate SamePartition(id: Identity, sig: string) {
      VectorPartition(Id(), signature) == VectorPartition(id, sig)
    }
  }

  /** What the world answers while a lookup or a store runs: the clock, the embedding, the neighbours. */
  datatype World = World(now: int, embedding: Option<Vector>, neighbours: Option<seq<Hit>>)

  /** Everything either cache could serve has been stored by a fit answer under that very key. */
  ghost predicate Coherent(stored: set<Stored>, exact: map<ExactKey, Raw>, vectors: map<TextKey, Entry>) {
    && (forall st :: st in stored ==> st.Fit())
    && (forall k :: k in exact && exact[k].Parsed? && !Unservable(exact[k].reply) ==> Kept(stored, k, exact[k].reply))
    && (forall k :: k in vectors ==> Backed(stored, k, vectors[k].reply))
  }

  ghost predicate Kept(stored: set<Stored>, k: ExactKey, reply: CachedReply) {
    exists st :: st in stored && BuildIdentityKey(st.Id(), st.signature) == k && st.Reply() == reply
  }

  ghost predicate Backed(stored: set<Stored>, k: TextKey, reply: CachedReply) {
    exists st :: st in stored && VectorPartition(st.Id(), st.signature) == k.partition
                 && SemanticText(st.Id().messages) == Some(k.text) && st.Reply() == reply
  }

  /** A reply may be served from `source`: it was stored, and for whom and what it was stored fits the asker. */
  ghost predicate Justified(stored: set<Stored>, minSimilarity: real, id: Identity, signature: string,
                            reply: CachedReply, source: Source) {
    exists st :: st in stored && st.Reply() == reply && st.Fit() && st.SamePartition(id, signature) &&
      match source
      case Exact => st.Id().messages == id.messages
      case HashHit => SemanticText(st.Id().messages) == SemanticText(id.messages) && SemanticText(id.messages).Some?
      case KnnHit(s) => s >= minSimilarity
  }

  /** The vector store's promise for a search: every hit is an entry of the partition, with its similarity. */
  ghost predicate IsNeighbours(similarity: (Vector, Vector) -> real, vectors: map<TextKey, Entry>, p: Partition,
                               vector: Vector, hits: seq<Hit>) {
    forall h :: h in hits ==>
      exists k :: k in vectors && k.partition == p && vectors[k].reply == h.reply
          && h.similarity == similarity(vector, vectors[k].vector)
  }

  /**
    A neighbour at similarity `s`: an entry of the partition has the reply, lies that near, and was stored under its own
    text.
   */
  ghost predicate Near(stored: set<Stored>, similarity: (Vector, Vector) -> real, vectors: map<TextKey, Entry>,
                       p: Partition, vector: Vector, reply: CachedReply, s: real) {
    exists k :: k in vectors && k.partition == p && vectors[k].reply == reply
        && s == similarity(vector, vectors[k].vector)
                && Backed(stored, k, reply)
  }

  lemma StoredRepliesServable(stored: set<Stored>)
    requires forall st :: st in stored ==> st.Fit()
    ensures forall st :: st in stored ==> !Unservable(st.Reply())
  {
    forall st | st in stored
      ensures !Unservable(st.Reply())
    {
      StoredIsServable(st.response, st.cachedAt);
    }
  }

  lemma StoringKeepsCoherence(stored: set<Stored>, st: Stored, exact: map<ExactKey, Raw>, vectors: map<TextKey, Entry>)
    requires Coherent(stored, exact, vectors) && st.Fit()
    ensures Coherent(stored + {st}, exact[BuildIdentityKey(st.Id(), st.signature) := Parsed(st.Reply())], vectors)
  {
    var exact' := exact[BuildIdentityKey(st.Id(), st.signature) := Parsed(st.Reply())];
    forall k | k in exact' && exact'[k].Parsed? && !Unservable(exact'[k].reply)
      ensures Kept(stored + {st}, k, exact'[k].reply)
    {
      if k == BuildIdentityKey(st.Id(), st.signature) { assert st in stored + {st}; }
      else { assert Kept(stored, k, exact[k].reply); }
    }
    forall k | k in vectors
      ensures Backed(stored + {st}, k, vectors[k].reply)
    {
      assert Backed(stored, k, vectors[k].reply);
    }
  }

  lemma HashHitJustified(stored: set<Stored>, exact: map<ExactKey, Raw>, vectors: map<TextKey, Entry>, min: real,
                         id: Identity, signature: string, key: TextKey)
    requires Coherent(stored, exact, vectors) && key in vectors
    requires key.partition == VectorPartition(id, signature) && SemanticText(id.messages) == Some(key.text)
    ensures Justified(stored, min, id, signature, vectors[key].reply, HashHit)
  {
    assert Backed(stored, key, vectors[key].reply);
  }

  lemma NeighbourJustified(stored: set<Stored>, exact: map<ExactKey, Raw>, vectors: map<TextKey, Entry>, min: real,
                           id: Identity, signature: string, similarity: (Vector, Vector) -> real, vector: Vector,
                           hits: seq<Hit>, best: Hit)
    requires Coherent(stored, exact, vectors) && best in hits && best.similarity >= min
    requires IsNeighbours(similarity, vectors, VectorPartition(id, signature), vector, hits)
    ensures Justified(stored, min, id, signature, best.reply, KnnHit(best.similarity))
    ensures Near(stored, similarity, vectors, VectorPartition(id, signature), vector, best.reply, best.similarity)
  {
    var k :| k in vectors && k.partition == VectorPartition(id, signature) && vectors[k].reply == best.reply
             && best.similarity == similarity(vector, vectors[k].vector);
    assert Backed(stored, k, vectors[k].reply);
    BackedJustifies(stored, k, min, id, signature, best.reply, best.similarity);
  }

  lemma BackedJustifies(stored: set<Stored>, k: TextKey, min: real, id: Identity, signature: string, reply: CachedReply,
                        similarity: real)
    requires forall st :: st in stored ==> st.Fit()
    requires Backed(stored, k, reply) && k.partition == VectorPartition(id, signature) && similarity >= min
    ensures Justified(stored, min, id, signature, reply, KnnHit(similarity))
  {
    var st :| st in stored && VectorPartition(st.Id(), st.signature) == k.partition
              && SemanticText(st.Id().messages) == Some(k.text) && st.Reply() == reply;
    assert st.Fit() && st.SamePartition(id, signature);
  }

  lemma UpsertKeepsCoherence(stored: set<Stored>, exact: map<ExactKey, Raw>, vectors: map<TextKey, Entry>, st: Stored,
                             key: TextKey, vector: Vector)
    requires Coherent(stored, exact, vectors) && st in stored
    requires key.partition == VectorPartition(st.Id(), st.signature) && SemanticText(st.Id().messages) == Some(key.text)
    ensures Coherent(stored, exact, vectors[key := Entry(st.Reply(), vector)])
  {
    assert Backed(stored, key, st.Reply());
  }

  /** The contents of both stores. */
  datatype Shelves = Shelves(exact: map<ExactKey, Raw>, vectors: map<TextKey, Entry>)

  /** The vector store after an answer is filed: a new text with a vector is added, and no entry is ever replaced. */
  function Upserted(semanticEnabled: bool, vectors: map<TextKey, Entry>, circuit: CB.Circuit, st: Stored,
                    state: EmbedState, world: World)
    : map<TextKey, Entry>
  {
    var text := SemanticText(st.Id().messages);
    if !semanticEnabled || text.None? then vectors
    else
      var key := TextKey(VectorPartition(st.Id(), st.signature), text.value);
      var vector := if state.vector.Some? then state.vector
                    else if state.attempted || circuit.Skips(world.now) then None else world.embedding;
      if vector.None? || key in vectors then vectors else vectors[key := Entry(st.Reply(), vector.value)]
  }

  const NO_STATE := EmbedState(None, false)

  /** How many embedding calls a store may still make after its lookup. */
  function EmbedsLeft(state: Option<EmbedState>): nat {
    if state.Some? && (state.value.attempted || state.value.vector.Some?) then 0 else 1
  }

  /** What a lookup of a new text learns about its embedding. */
  function LookedUp(circuit: CB.Circuit, world: World): EmbedState {
    if circuit.Skips(world.now) then NO_STATE else EmbedState(world.embedding, true)
  }

  /** Both stores after an answer is filed. */
  function Filed(semanticEnabled: bool, shelves: Shelves, circuit: CB.Circuit, st: Stored, state: Option<EmbedState>,
                 world: World): Shelves {
    Shelves(shelves.exact[BuildIdentityKey(st.Id(), st.signature) := Parsed(st.Reply())],
            Upserted(semanticEnabled, shelves.vectors, circuit, st, state.GetOr(NO_STATE), world))
  }

  lemma UpsertedKeepsCoherence(stored: set<Stored>, exact: map<ExactKey, Raw>, vectors: map<TextKey, Entry>,
                               semanticEnabled: bool, circuit: CB.Circuit, st: Stored, state: EmbedState, world: World)
    requires Coherent(stored, exact, vectors) && st in stored
    ensures Coherent(stored, exact, Upserted(semanticEnabled, vectors, circuit, st, state, world))
  {
    var text := SemanticText(st.Id().messages);
    if semanticEnabled && text.Some? {
      var key := TextKey(VectorPartition(st.Id(), st.signature), text.value);
      var after := Upserted(semanticEnabled, vectors, circuit, st, state, world);
      if after != vectors { UpsertKeepsCoherence(stored, exact, vectors, st, key, after[key].vector); }
    }
  }

  /**
    An unusable value that the lookup deleted is written anew, and what the lookup learned makes up for the breaker's
    new state.
   */
  lemma FiledAfterLookup(semanticEnabled: bool, old': Shelves, now: Shelves, before: CB.Circuit, asked: CB.Circuit,
                         st: Stored, state: Option<EmbedState>, lookup: World, store: World)
    requires now.vectors == old'.vectors
    requires now.exact == old'.exact || now.exact == old'.exact - {BuildIdentityKey(st.Id(), st.signature)}
    requires semanticEnabled && SemanticText(st.Id().messages).Some? ==>
               state == Some(LookedUp(before, lookup)) && (!state.value.attempted ==> asked == before)
    ensures Filed(semanticEnabled, now, asked, st, state, store)
            == Filed(semanticEnabled, old', before, st, Some(LookedUp(before, lookup)), store)
  {
  }

  class ChatCache {
    const semanticEnabled: bool
    const openAliases: set<string>               // aliases whose provider is enabled
    const minSimilarity: real
    const similarity: (Vector, Vector) -> real
    var prompts: Prompts
    var exact: map<ExactKey, Raw>
    var vectors: map<TextKey, Entry>
    var circuit: CB.Circuit
    var embedCalls: nat
    ghost var stored: set<Stored>

    constructor (semanticEnabled: bool, openAliases: set<string>, minSimilarity: real,
                 similarity: (Vector, Vector) -> real, prompts: Prompts, circuit: CB.Circuit)
      ensures Valid() && stored == {} && embedCalls == 0 && exact == map[] && vectors == map[]
    {
      this.semanticEnabled, this.openAliases := semanticEnabled, openAliases;
      this.minSimilarity, this.similarity := minSimilarity, similarity;
      this.prompts, this.circuit := prompts, circuit;
      exact, vectors, embedCalls, stored := map[], map[], 0, {};
    }

    ghost predicate Valid()
      reads this
    {
      Coherent(stored, exact, vectors)
    }

    function Contents(): Shelves
      reads this
    {
      Shelves(exact, vectors)
    }

    function Signature(id: Identity): string
      reads this
    {
      SystemSignature(prompts, id.modelAlias)
    }

    function SignatureFor(request: Request): string
      reads this
    {
      SystemSignature(prompts, request.modelAlias)
    }

    ghost predicate Plausible(id: Identity, world: World)
      reads this
    {
      world.embedding.Some? && world.neighbours.Some? ==>
        IsNeighbours(similarity, vectors, VectorPartition(id, Signature(id)), world.embedding.value,
                     world.neighbours.value)
    }

    /** Asks the breaker, then the embedding backend, and reports back to the breaker. */
    method TryEmbed(world: World) returns (vector: Option<Vector>, attempted: bool)
      modifies this`circuit, this`embedCalls
      ensures attempted == !old(circuit).Skips(world.now)
      ensures vector == if attempted then world.embedding else None
      ensures embedCalls == old(embedCalls) + if attempted then 1 else 0
      ensures circuit == var asked := old(circuit).Asked(world.now);
                         if !attempted then asked
                         else if vector.Some? then asked.Succeeded()
                         else asked.Failed(world.now)
    {
      var skip := circuit.Skips(world.now);
      circuit := circuit.Asked(world.now);
      if skip { return None, false; }
      embedCalls := embedCalls + 1;
      if world.embedding.None? {
        circuit := circuit.Failed(world.now);
      } else {
        circuit := circuit.Succeeded();
      }
      return world.embedding, true;
    }

    /** `hits.find(hit => hit.similarity >= minSimilarity)` */
    method FirstSimilar(hits: seq<Hit>) returns (best: Option<Hit>)
      ensures best.Some? ==>
                exists i :: 0 <= i < |hits| && hits[i] == best.value && best.value.similarity >= minSimilarity
                            && forall j :: 0 <= j < i ==> hits[j].similarity < minSimilarity
      ensures best.None? ==> forall h :: h in hits ==> h.similarity < minSimilarity
    {
      var i := 0;
      while i < |hits|
        invariant 0 <= i <= |hits|
        invariant forall j :: 0 <= j < i ==> hits[j].similarity < minSimilarity
      {
        if hits[i].similarity >= minSimilarity {
          return Some(hits[i]);
        }
        i := i + 1;
      }
      return None;
    }

    /** `lookup` of the semantic layer. */
    method SemanticLookup(id: Identity, world: World) returns (hit: Option<Hit>, source: Source, state: EmbedState)
      requires Valid() && Plausible(id, world)
      modifies this`circuit, this`embedCalls
      ensures Valid()
      ensures hit.Some? ==>
              Justified(stored, minSimilarity, id, Signature(id), hit.value.reply, source) && !source.Exact?
      ensures hit.Some? && source.KnnHit? ==> NearestTo(id, world, hit.value.reply, source.similarity)
      ensures embedCalls == old(embedCalls) + if state.attempted then 1 else 0
      ensures state.vector.Some? ==> state.attempted && state.vector == world.embedding
      ensures var text := SemanticText(id.messages);
              && (!semanticEnabled || text.None? ==> hit.None? && !state.attempted)
              && (semanticEnabled && text.Some? ==>
                    var key := TextKey(VectorPartition(id, Signature(id)), text.value);
                    if key in vectors then
                      hit == Some(Hit(1.0, vectors[key].reply)) && source.HashHit? && !state.attempted
                    else state == LookedUp(old(circuit), world) && (!state.attempted ==> circuit == old(circuit))
                         && (hit.None? && state.vector.Some? && world.neighbours.Some? ==>
                               forall h :: h in world.neighbours.value ==> h.similarity < minSimilarity))
    {
      hit, source, state := None, HashHit, EmbedState(None, false);
      if !semanticEnabled { return; }
      var text := TextForSemanticLayer(id.messages);
      if text.None? { return; }
      var key := TextKey(VectorPartition(id, Signature(id)), text.value);
      if key in vectors {
        HashHitJustified(stored, exact, vectors, minSimilarity, id, Signature(id), key);
        hit := Some(Hit(1.0, vectors[key].reply));
        return;
      }
      var vector, attempted := TryEmbed(world);
      state := EmbedState(vector, attempted);
      if vector.None? || world.neighbours.None? { return; }
      var best := FirstSimilar(world.neighbours.value);
      if best.Some? {
        NeighbourJustified(stored, exact, vectors, minSimilarity, id, Signature(id), similarity, vector.value,
                           world.neighbours.value, best.value);
        hit, source := best, KnnHit(best.value.similarity);
      }
    }

    /** The reply is that of a neighbour of the request's embedding. */
    ghost predicate NearestTo(id: Identity, world: World, reply: CachedReply, s: real)
      reads this
    {
      world.embedding.Some?
      && Near(stored, similarity, vectors, VectorPartition(id, Signature(id)), world.embedding.value, reply, s)
    }

    ghost predicate JustifiedFor(request: Request, conversationId: string, clientId: string, reply: CachedReply,
                                 source: Source)
      reads this
    {
      var id := ToIdentity(request, conversationId, clientId);
      Justified(stored, minSimilarity, id, Signature(id), reply, source)
    }

    predicate Cacheable(request: Request, clientId: string, hasGatewayKey: bool) {
      !IsToolingRequest(request) && hasGatewayKey && clientId != "unknown" && request.modelAlias in openAliases
    }

    method GetCachedIfAllowed(request: Request, conversationId: string, clientId: string, hasGatewayKey: bool,
                              world: World) returns (r: Lookup)
      requires Valid() && Plausible(ToIdentity(request, conversationId, clientId), world)
      modifies this`circuit, this`embedCalls, this`exact
      ensures Valid()
      ensures r.Served? ==> !Unservable(r.reply) && JustifiedFor(request, conversationId, clientId, r.reply, r.source)
      ensures r.Served? && r.source.KnnHit? ==>
                NearestTo(ToIdentity(request, conversationId, clientId), world, r.reply, r.source.similarity)
      ensures var key := BuildIdentityKey(ToIdentity(request, conversationId, clientId),
                                          Signature(ToIdentity(request, conversationId, clientId)));
              if !Cacheable(request, clientId, hasGatewayKey) then r == Miss(None) && exact == old(exact)
              else if key !in old(exact) then exact == old(exact) && (r.Served? ==> !r.source.Exact?)
              else
                var raw := old(exact)[key];
                if raw.Parsed? && !Unservable(raw.reply) then r == Served(raw.reply, Exact) && exact == old(exact)
                else exact == old(exact) - {key} && (r.Served? ==> !r.source.Exact?)
      ensures embedCalls <= old(embedCalls) + 1
      ensures r.Miss? ==> embedCalls == old(embedCalls) + (if r.state.Some? && r.state.value.attempted then 1 else 0)
      ensures r.Miss? && r.state.Some? && r.state.value.vector.Some? ==> r.state.value.attempted
      ensures r.Miss? && Cacheable(request, clientId, hasGatewayKey) && semanticEnabled
              && SemanticText(request.messages).Some? ==>
                r.state == Some(LookedUp(old(circuit), world)) && (!r.state.value.attempted ==> circuit == old(circuit))
    {
      if IsToolingRequest(request) || !hasGatewayKey || clientId == "unknown" {
        return Miss(None);
      }
      if request.modelAlias !in openAliases {
        return Miss(None);
      }
      var id := ToIdentity(request, conversationId, clientId);
      var key := BuildIdentityKey(id, Signature(id));
      if key in exact {
        if exact[key].Parsed? && !Unservable(exact[key].reply) {
          return Served(exact[key].reply, Exact);
        }
        exact := exact - {key};
      }
      var hit, source, state := SemanticLookup(id, world);
      if hit.Some? {
        StoredRepliesServable(stored);
        return Served(hit.value.reply, source);
      }
      return Miss(Some(state));
    }

    /** `storeReply` of the semantic layer; the first writer of a text keeps it. */
    method StoreReply(st: Stored, state: EmbedState, world: World)
      requires Valid() && st in stored && st.signature == Signature(st.Id())
      modifies this`circuit, this`embedCalls, this`vectors
      ensures Valid()
      ensures embedCalls <= old(embedCalls) + if state.attempted || state.vector.Some? then 0 else 1
      ensures vectors == Upserted(semanticEnabled, old(vectors), old(circuit), st, state, world)
      ensures !semanticEnabled || SemanticText(st.Id().messages).None? ==> embedCalls == old(embedCalls)
    {
      UpsertedKeepsCoherence(stored, exact, vectors, semanticEnabled, circuit, st, state, world);
      if !semanticEnabled { return; }
      var text := TextForSemanticLayer(st.Id().messages);
      if text.None? { return; }
      var vector := state.vector;
      if vector.None? {
        if state.attempted { return; }
        var attempted;
        vector, attempted := TryEmbed(world);
        if vector.None? { return; }
      }
      var key := TextKey(VectorPartition(st.Id(), st.signature), text.value);
      if key !in vectors {
        vectors := vectors[key := Entry(st.Reply(), vector.value)];
      }
    }

    /** Callers pass only answers of the primary alias; everything else is checked here. */
    method SetCachedIfAllowed(request: Request, response: ChatResponse, conversationId: string, clientId: string,
                              hasGatewayKey: bool, state: Option<EmbedState>, cachedAt: string, world: World)
      requires Valid() && response.effectiveModelAlias.None?
      modifies this`circuit, this`embedCalls, this`vectors, this`exact, this`stored
      ensures Valid()
      ensures embedCalls <= old(embedCalls) + EmbedsLeft(state)
      ensures if Cacheable(request, clientId, hasGatewayKey) && ShouldStore(response) then
                var st := Stored(request, conversationId, clientId, SignatureFor(request), response, cachedAt);
                stored == old(stored) + {st}
                    && Contents() == Filed(semanticEnabled, old(Contents()), old(circuit), st, state, world)
              else stored == old(stored) && Contents() == old(Contents())
    {
      if IsToolingRequest(request) || !hasGatewayKey || clientId == "unknown" { return; }
      if request.modelAlias !in openAliases { return; }
      if !ShouldStore(response) { return; }
      var id := ToIdentity(request, conversationId, clientId);
      var signature := Signature(id);
      var st := Stored(request, conversationId, clientId, signature, response, cachedAt);
      stored := stored + {st};
      exact := exact[BuildIdentityKey(id, signature) := Parsed(ToCached(response, cachedAt))];
      StoringKeepsCoherence(old(stored), st, old(exact), vectors);
      StoreReply(st, state.GetOr(NO_STATE), world);
    }

    /** `completeChatAndStore` from the executor's success on: an answer of the fallback alias is not cached. */
    method CompleteChatAndStore(request: Request, conversationId: string, clientId: string, hasGatewayKey: bool,
                                requestId: string, reply: ProviderReply, provider: string, usedAlias: string,
                                didFallback: bool, warnings: seq<Warning>, responseId: string,
                                state: Option<EmbedState>, cachedAt: string, world: World)
      returns (response: ChatResponse)
      requires Valid()
      modifies this`circuit, this`embedCalls, this`vectors, this`exact, this`stored
      ensures Valid()
      ensures response == BuildChatResponse(reply, provider, request.modelAlias, requestId, conversationId,
                                            if didFallback then Some(usedAlias) else None, warnings, responseId)
      ensures if !didFallback && Cacheable(request, clientId, hasGatewayKey) && ShouldStore(response) then
                var st := Stored(request, conversationId, clientId, SignatureFor(request), response, cachedAt);
                stored == old(stored) + {st}
                    && Contents() == Filed(semanticEnabled, old(Contents()), old(circuit), st, state, world)
              else stored == old(stored) && Contents() == old(Contents())
      ensures didFallback ==> embedCalls == old(embedCalls)
      ensures embedCalls <= old(embedCalls) + EmbedsLeft(state)
    {
      response := BuildChatResponse(reply, provider, request.modelAlias, requestId, conversationId,
                                    if didFallback then Some(usedAlias) else None, warnings, responseId);
      if !didFallback {
        SetCachedIfAllowed(request, response, conversationId, clientId, hasGatewayKey, state, cachedAt, world);
      }
    }

    /** One request from lookup to store: at most one embedding call, however lookup and store turn out. */
    method ExecuteChat(request: Request, conversationId: string, clientId: string, hasGatewayKey: bool,
                       requestId: string, reply: ProviderReply, provider: string, usedAlias: string, didFallback: bool,
                       warnings: seq<Warning>, responseId: string, cachedAt: string, before: World, after: World)
      returns (served: Option<CachedReply>, fromCache: Source, fresh': Option<ChatResponse>)
      requires Valid() && Plausible(ToIdentity(request, conversationId, clientId), before)
      modifies this`circuit, this`embedCalls, this`vectors, this`exact, this`stored
      ensures Valid()
      ensures embedCalls <= old(embedCalls) + 1
      ensures served.Some? <==> fresh'.None?
      ensures served.Some? ==>
              !Unservable(served.value) && old(JustifiedFor(request, conversationId, clientId, served.value, fromCache))
      ensures served.Some? && fromCache.KnnHit? ==>
                old(NearestTo(ToIdentity(request, conversationId, clientId), before, served.value,
                              fromCache.similarity))
      ensures fresh'.Some? ==>
                fresh'.value == BuildChatResponse(reply, provider, request.modelAlias, requestId, conversationId,
                                                  if didFallback then Some(usedAlias) else None, warnings, responseId)
      ensures if fresh'.Some? && !didFallback && Cacheable(request, clientId, hasGatewayKey)
              && ShouldStore(fresh'.value) then
                var st := Stored(request, conversationId, clientId, SignatureFor(request), fresh'.value, cachedAt);
                && stored == old(stored) + {st}
                && Contents()
                   == Filed(semanticEnabled, old(Contents()), old(circuit), st, Some(LookedUp(old(circuit), before)),
                            after)
              else
                && stored == old(stored) && vectors == old(vectors)
                && (exact == old(exact)
                    || exact == old(exact) - {BuildIdentityKey(ToIdentity(request, conversationId, clientId),
                                                               SignatureFor(request))})
    {
      fromCache, served, fresh' := Exact, None, None;
      var lookup := Miss(None);
      if hasGatewayKey {
        lookup := GetCachedIfAllowed(request, conversationId, clientId, hasGatewayKey, before);
        if lookup.Served? {
          return Some(lookup.reply), lookup.source, None;
        }
      }
      assert Cacheable(request, clientId, hasGatewayKey) ==> hasGatewayKey;
      ghost var now, asked := Contents(), circuit;
      var response := CompleteChatAndStore(request, conversationId, clientId, hasGatewayKey, requestId, reply, provider,
                                           usedAlias,
                                           didFallback, warnings, responseId, lookup.state, cachedAt, after);
      fresh' := Some(response);
      if !didFallback && Cacheable(request, clientId, hasGatewayKey) && ShouldStore(response) {
        var st := Stored(request, conversationId, clientId, SignatureFor(request), response, cachedAt);
        FiledAfterLookup(semanticEnabled, old(Contents()), now, old(circuit), asked, st, lookup.state, before, after);
      }
    }

    // What the outside may do between any two steps

    /** New system prompts: replies stored under others stay, and stay out of reach. */
    method Reconfigure(prompts: Prompts)
      requires Valid()
      modifies this`prompts
      ensures Valid() && this.prompts == prompts
    {
      this.prompts := prompts;
    }

    /** Expiry in either store. */
    method Expire(exactKeys: set<ExactKey>, textKeys: set<TextKey>)
      requires Valid()
      modifies this`exact, this`vectors
      ensures Valid() && exact == old(exact) - exactKeys && vectors == old(vectors) - textKeys
    {
      exact := exact - exactKeys;
      vectors := vectors - textKeys;
    }

    /** A damaged value in the exact store: unreadable, or readable and unfit. */
    method Damage(key: ExactKey, raw: Raw)
      requires Valid() && (raw.Parsed? ==> Unservable(raw.reply))
      modifies this`exact
      ensures Valid() && exact == old(exact)[key := raw]
    {
      exact := exact[key := raw];
    }
  }
}
