/** Which requests take a slot of the stream counter, and which give one back: by handler, URL and settings. */
module StreamRoutes {
  import opened StreamSlots

  // ---------------------------------------------------------------------------
  // Routing
  // ---------------------------------------------------------------------------

  /**
    Where a guarded request ends up. `valid`: it passes validation, so that it streams; `maps`: the facade can translate
    it for the gateway. A facade request without `stream: true` is at a `Fixed` route.
   */
  datatype Handler =
    | ChatStream(valid: bool)
    | FacadeStream(openAi: bool, maps: bool)
    | OneModel(alias: string)
    | Fixed(route: string)

  /** `url` as Express hands it over, query string included. */
  datatype Request = Request(url: string, handler: Handler)

  const STREAM_SUFFIX := "/stream"
  const CHAT := "/api/v1/chat"
  const CHAT_STREAM := CHAT + STREAM_SUFFIX
  const OPENAI_CHAT := "/api/v1/openai/chat/completions"
  const ANTHROPIC_MESSAGES := "/api/v1/anthropic/messages"
  const MODELS := "/api/v1/models"
  const OPENAI_MODELS := "/api/v1/openai/models"
  const ANTHROPIC_MODELS := "/api/v1/anthropic/models"

  predicate EndsWith(s: string, suffix: string) {
    |suffix| <= |s| && s[|s| - |suffix|..] == suffix
  }

  /** `url.split('?')[0]` */
  function PathOf(url: string): (path: string)
    ensures path <= url && '?' !in path
    ensures |path| < |url| ==> url[|path|] == '?'
  {
    if url == "" || url[0] == '?' then "" else [url[0]] + PathOf(url[1..])
  }

  function LowerChar(c: char): char {
    if 'A' <= c <= 'Z' then ((c as int) - ('A' as int) + ('a' as int)) as char else c
  }

  function Lower(s: string): (r: string)
    ensures |r| == |s| && forall i :: 0 <= i < |s| ==> r[i] == LowerChar(s[i])
  {
    seq(|s|, i requires 0 <= i < |s| => LowerChar(s[i]))
  }

  /** Routes are neither case-sensitive nor strict about a slash at the end. */
  predicate AtRoute(path: string, route: string) {
    Lower(path) == route || Lower(path) == route + "/"
  }

  predicate ModelsRoute(route: string) {
    route == MODELS || route == OPENAI_MODELS || route == ANTHROPIC_MODELS
  }

  /** Routes that are neither the stream handler nor one model. */
  predicate OtherRoute(route: string) {
    ModelsRoute(route) || route == CHAT || route == OPENAI_CHAT || route == ANTHROPIC_MESSAGES
  }

  ghost predicate AtModel(path: string, alias: string) {
    alias != "" && '/' !in alias &&
    exists front :: ModelsRoute(Lower(front)) && (path == front + "/" + alias || path == front + "/" + alias + "/")
  }

  /** The URL is one that is routed to the handler. */
  ghost predicate Reaches(r: Request) {
    match r.handler
    case ChatStream(_) => AtRoute(PathOf(r.url), CHAT_STREAM)
    case FacadeStream(openAi, _) => AtRoute(PathOf(r.url), if openAi then OPENAI_CHAT else ANTHROPIC_MESSAGES)
    case OneModel(alias) => AtModel(PathOf(r.url), alias)
    case Fixed(route) => OtherRoute(route) && AtRoute(PathOf(r.url), route)
  }

  // ---------------------------------------------------------------------------
  // Who takes a slot, who gives one back
  // ---------------------------------------------------------------------------

  /** The rate limiter's switch, and the other two parts of the gateway that bring Redis up. */
  datatype Settings = Settings(limiterOn: bool, redisCache: bool, semanticCache: bool) {
    predicate HasRedis() {
      limiterOn || redisCache || semanticCache
    }
  }

  /** The guard in front of every handler, once the key and the rate have passed. */
  predicate GuardTakes(s: Settings, r: Request) {
    && PathOf(r.url) != "/api/v1/health"
    && s.limiterOn
    && EndsWith(PathOf(r.url), STREAM_SUFFIX)
  }

  /** The guard's slot, or the facade's own, for which the switch is not asked. */
  predicate Takes(s: Settings, r: Request) {
    s.HasRedis() && (GuardTakes(s, r) || r.handler.FacadeStream?)
  }

  /**
    The interceptor is on the stream handler only, and looks at the whole URL. A facade gives its slot back unless the
    translation of the request throws, which happens before its `try`.
   */
  predicate Releases(s: Settings, r: Request) {
    s.HasRedis() &&
    match r.handler
    case ChatStream(_) => EndsWith(r.url, STREAM_SUFFIX)
    case FacadeStream(_, maps) => maps
    case OneModel(_) => false
    case Fixed(_) => false
  }

  predicate Streams(r: Request) {
    match r.handler
    case ChatStream(valid) => valid
    case FacadeStream(_, maps) => maps
    case OneModel(_) => false
    case Fixed(_) => false
  }

  function TicketOf(s: Settings, r: Request): Ticket {
    Ticket(Takes(s, r), Releases(s, r), Streams(r))
  }

  // ---------------------------------------------------------------------------
  // Paths that end in "/stream"
  // ---------------------------------------------------------------------------

  lemma HealthIsNoStream(path: string)
    requires EndsWith(path, STREAM_SUFFIX)
    ensures path != "/api/v1/health"
  {
    var tail := path[|path| - |STREAM_SUFFIX|..];
    assert tail[6] == path[|path| - 1] == 'm';
  }

  lemma LastIsM(path: string)
    requires EndsWith(path, STREAM_SUFFIX)
    ensures path[|path| - 1] == 'm'
  {
    assert path[|path| - 7..][6] == path[|path| - 1];
  }

  lemma NotSlashed(path: string, route: string)
    requires path != "" && path[|path| - 1] == 'm'
    ensures Lower(path) != route + "/"
  {
    assert (route + "/")[|route|] == '/';
  }

  lemma RoutesEnd(route: string)
    requires OtherRoute(route)
    ensures route != "" && route[|route| - 1] != 'm'
  {
    if route == CHAT { assert route[|route| - 1] == 't'; } else { assert route[|route| - 1] == 's'; }
  }

  /** A path at another route never ends in "/stream". */
  lemma OtherPath(path: string, route: string)
    requires OtherRoute(route) && AtRoute(path, route)
    ensures !EndsWith(path, STREAM_SUFFIX)
  {
    RoutesEnd(route);
    if EndsWith(path, STREAM_SUFFIX) {
      LastIsM(path);
      NotSlashed(path, route);
    }
  }

  lemma OtherPaths(r: Request)
    requires Reaches(r) && (r.handler.FacadeStream? || r.handler.Fixed?)
    ensures !EndsWith(PathOf(r.url), STREAM_SUFFIX)
  {
    var route := if r.handler.Fixed? then r.handler.route else if r.handler.openAi then OPENAI_CHAT
        else ANTHROPIC_MESSAGES;
    OtherPath(PathOf(r.url), route);
  }

  lemma SuffixOfAlias(front: string, alias: string)
    requires '/' !in alias
    ensures EndsWith(front + "/" + alias, STREAM_SUFFIX) <==> alias == "stream"
    ensures !EndsWith(front + "/" + alias + "/", STREAM_SUFFIX)
  {
    var path := front + "/" + alias;
    var n := |path|;
    if EndsWith(path, STREAM_SUFFIX) {
      var tail := path[n - 7..];
      assert path[|front|] == '/' && path[n - 7] == tail[0] == '/';
      assert forall i :: |front| < i < n ==> path[i] == alias[i - |front| - 1];
      assert forall i :: n - 7 < i < n ==> path[i] == tail[i - (n - 7)] != '/';
      assert |front| == n - 7;
      assert alias == path[n - 6..] == tail[1..];
    }
    if alias == "stream" { assert path[n - 7..] == "/" + alias; }
    var slashed := path + "/";
    if EndsWith(slashed, STREAM_SUFFIX) { LastIsM(slashed); }
  }

  /** A request for one model is at such a path exactly when the model is called "stream" and no slash follows. */
  lemma ModelPathIff(path: string, alias: string)
    requires AtModel(path, alias)
    ensures EndsWith(path, STREAM_SUFFIX) <==> alias == "stream" && !EndsWith(path, "/")
  {
    var front :| ModelsRoute(Lower(front)) && (path == front + "/" + alias || path == front + "/" + alias + "/");
    SuffixOfAlias(front, alias);
    if path == front + "/" + alias {
      assert path[|path| - 1] == alias[|alias| - 1];
      assert path[|path| - 1..] == [path[|path| - 1]];
    } else {
      assert path[|path| - 1..] == "/";
    }
  }

  // ---------------------------------------------------------------------------
  // When a slot taken is given back, and none other
  // ---------------------------------------------------------------------------

  /** What must hold of a request for the counter to be left as it was. */
  ghost predicate LeavesCounter(s: Settings, r: Request) {
    match r.handler
    case ChatStream(_) =>
      if s.limiterOn then EndsWith(PathOf(r.url), STREAM_SUFFIX) <==> EndsWith(r.url, STREAM_SUFFIX)
      else !EndsWith(r.url, STREAM_SUFFIX)
    case FacadeStream(_, maps) => maps
    case OneModel(alias) => s.limiterOn ==> alias != "stream" || EndsWith(PathOf(r.url), "/")
    case Fixed(_) => true
  }

  /** With Redis up, a routed request is matched exactly then; without, nothing is taken or given back. */
  lemma MatchedIff(s: Settings, r: Request)
    requires Reaches(r)
    ensures TicketOf(s, r).Matched() <==> !s.HasRedis() || LeavesCounter(s, r)
  {
    var path := PathOf(r.url);
    if EndsWith(path, STREAM_SUFFIX) { HealthIsNoStream(path); }
    if r.handler.OneModel? { ModelPathIff(path, r.handler.alias); }
    if r.handler.FacadeStream? || r.handler.Fixed? { OtherPaths(r); }
  }

  lemma {:induction false} PathOfQuery(p: string, q: string)
    requires '?' !in p
    ensures PathOf(p + "?" + q) == p
  {
    var url := p + "?" + q;
    if p != "" {
      assert url[0] == p[0] && url[1..] == p[1..] + "?" + q;
      PathOfQuery(p[1..], q);
    }
  }

  lemma QuerySuffix(p: string, q: string)
    ensures EndsWith(p + "?" + q, STREAM_SUFFIX) <==> EndsWith(q, STREAM_SUFFIX)
  {
    var url := p + "?" + q;
    var n := |url|;
    if |q| >= 7 {
      assert url[n - 7..] == q[|q| - 7..];
    } else if n >= 7 {
      var tail := url[n - 7..];
      assert tail[6 - |q|] == '?';
      assert '?' !in STREAM_SUFFIX;
    }
  }

  /** On the stream handler, with the limiter on: always without a query string, and with one when both ends agree. */
  lemma QueryDecides(s: Settings, p: string, q: string, valid: bool)
    requires s.limiterOn && '?' !in p && AtRoute(p, CHAT_STREAM)
    ensures TicketOf(s, Request(p, ChatStream(valid))).Matched()
    ensures TicketOf(s, Request(p + "?" + q, ChatStream(valid))).Matched()
            <==> (EndsWith(p, STREAM_SUFFIX) <==> EndsWith(q, STREAM_SUFFIX))
  {
    assert PathOf(p) == p;
    PathOfQuery(p, q);
    QuerySuffix(p, q);
    MatchedIff(s, Request(p, ChatStream(valid)));
    MatchedIff(s, Request(p + "?" + q, ChatStream(valid)));
  }

  // ---------------------------------------------------------------------------
  // Requests that the code mishandles
  // ---------------------------------------------------------------------------

  /** Neither a capital letter nor a question mark. */
  predicate Plain(s: string) {
    forall i :: 0 <= i < |s| ==> s[i] != '?' && !('A' <= s[i] <= 'Z')
  }

  lemma {:induction false} PlainPath(s: string)
    requires Plain(s)
    ensures PathOf(s) == s
  {
    if s != "" {
      assert Plain(s[1..]);
      PlainPath(s[1..]);
    }
  }

  lemma PlainRoute(s: string)
    requires Plain(s)
    ensures Lower(s) == s && AtRoute(s, s) && AtRoute(s + "/", s)
  {
    assert Lower(s + "/") == s + "/";
  }

  lemma SuffixIsPlain()
    ensures Plain(STREAM_SUFFIX)
  {
  }

  lemma ChatIsPlain()
    ensures Plain(CHAT)
  {
  }

  lemma ModelsIsPlain()
    ensures Plain(MODELS)
  {
  }

  lemma OpenAiIsPlain()
    ensures Plain(OPENAI_CHAT)
  {
  }

  lemma JoinedPlain(a: string, b: string)
    requires Plain(a) && Plain(b)
    ensures Plain(a + b) && EndsWith(a + b, b)
  {
  }

  /** A routed request that takes a slot and gives none back. */
  ghost predicate Leaks(s: Settings, r: Request) {
    Reaches(r) && Takes(s, r) && !Releases(s, r)
  }

  lemma SuffixParts(front: string)
    ensures front + STREAM_SUFFIX == front + "/" + "stream" && '/' !in "stream"
  {
    assert "/" + "stream" == STREAM_SUFFIX;
  }

  lemma ModelUrl(front: string)
    requires ModelsRoute(front) && Plain(front)
    ensures PathOf(front + STREAM_SUFFIX) == front + STREAM_SUFFIX && AtModel(front + STREAM_SUFFIX, "stream")
    ensures EndsWith(front + STREAM_SUFFIX, STREAM_SUFFIX)
  {
    SuffixIsPlain();
    JoinedPlain(front, STREAM_SUFFIX);
    PlainPath(front + STREAM_SUFFIX);
    PlainRoute(front);
    SuffixParts(front);
  }

  /** A model called "stream", at any of the three model routes. */
  lemma ModelNamedStream(s: Settings, front: string)
    requires s.limiterOn && ModelsRoute(front) && Plain(front)
    ensures Leaks(s, Request(front + STREAM_SUFFIX, OneModel("stream")))
  {
    ModelUrl(front);
    HealthIsNoStream(front + STREAM_SUFFIX);
  }

  lemma StreamPath(tail: string)
    requires tail == "" || tail == "/"
    ensures PathOf(CHAT_STREAM + tail) == CHAT_STREAM + tail && AtRoute(CHAT_STREAM + tail, CHAT_STREAM)
    ensures EndsWith(CHAT_STREAM, STREAM_SUFFIX) && '?' !in CHAT_STREAM
  {
    ChatIsPlain();
    SuffixIsPlain();
    JoinedPlain(CHAT, STREAM_SUFFIX);
    PlainRoute(CHAT_STREAM);
    assert CHAT_STREAM + "" == CHAT_STREAM;
    assert Plain(CHAT_STREAM + tail);
    PlainPath(CHAT_STREAM + tail);
  }

  /** A query string on a stream request. */
  lemma StreamWithQuery(s: Settings, q: string)
    requires s.limiterOn && !EndsWith(q, STREAM_SUFFIX)
    ensures Leaks(s, Request(CHAT_STREAM + "?" + q, ChatStream(true)))
  {
    StreamPath("");
    assert CHAT_STREAM + "" == CHAT_STREAM;
    PathOfQuery(CHAT_STREAM, q);
    QuerySuffix(CHAT_STREAM, q);
    HealthIsNoStream(CHAT_STREAM);
  }

  lemma FacadeReached(maps: bool)
    ensures Reaches(Request(OPENAI_CHAT, FacadeStream(true, maps)))
  {
    OpenAiIsPlain();
    PlainPath(OPENAI_CHAT);
    PlainRoute(OPENAI_CHAT);
  }

  /** A facade stream that cannot be translated for the gateway. */
  lemma UnmappedFacade(s: Settings)
    requires s.HasRedis()
    ensures Leaks(s, Request(OPENAI_CHAT, FacadeStream(true, false)))
  {
    FacadeReached(false);
  }

  lemma ShortQuery()
    ensures !EndsWith("x=1", STREAM_SUFFIX)
  {
  }

  /**
    Slots that are never given back: `/api/v1/models/stream`, `/api/v1/chat/stream?x=1`, an untranslatable facade
    stream.
   */
  lemma LeakingRequests(s: Settings)
    requires s.limiterOn
    ensures Leaks(s, Request(MODELS + STREAM_SUFFIX, OneModel("stream")))
    ensures Leaks(s, Request(CHAT_STREAM + "?" + "x=1", ChatStream(true)))
    ensures Leaks(s, Request(OPENAI_CHAT, FacadeStream(true, false)))
  {
    ModelsIsPlain();
    ModelNamedStream(s, MODELS);
    ShortQuery();
    StreamWithQuery(s, "x=1");
    UnmappedFacade(s);
  }

  /**
    A stream outside the limit: a path that still reaches the handler but does not end in a small "m" takes no slot.
   */
  lemma StreamSlips(s: Settings, path: string)
    requires '?' !in path && AtRoute(path, CHAT_STREAM) && path != "" && path[|path| - 1] != 'm'
    ensures var r := Request(path, ChatStream(true)); Reaches(r) && Streams(r) && !Takes(s, r)
  {
    assert PathOf(path) == path;
    if EndsWith(path, STREAM_SUFFIX) { LastIsM(path); }
  }

  /** So it is with a slash at the end. */
  lemma SlashSlips(s: Settings)
    ensures var r := Request(CHAT_STREAM + "/", ChatStream(true)); Reaches(r) && Streams(r) && !Takes(s, r)
  {
    StreamPath("/");
    var path := CHAT_STREAM + "/";
    assert path[|path| - 1] == '/';
    PathHasNoQuery(path);
    StreamSlips(s, path);
  }

  lemma PathHasNoQuery(url: string)
    requires PathOf(url) == url
    ensures '?' !in url
  {
  }

  /**
    With the limiter off and a cache on Redis, plain streams give back slots that facade streams of the same key took.
   */
  lemma LimiterOffGifts(s: Settings, max: nat, n: nat)
    requires !s.limiterOn && s.HasRedis()
    ensures var plain, facade := Request(CHAT_STREAM, ChatStream(true)), Request(OPENAI_CHAT, FacadeStream(true, true));
            && Reaches(plain) && !Takes(s, plain) && Releases(s, plain)
            && Reaches(facade) && Takes(s, facade) && Releases(s, facade)
            && exists w :: Reachable(max, Tickets(s, {plain, facade}), false, w) && Served(w) == max + n
  {
    StreamPath("");
    assert CHAT_STREAM + "" == CHAT_STREAM;
    FacadeReached(true);
    GiftTickets(s, Request(CHAT_STREAM, ChatStream(true)), Request(OPENAI_CHAT, FacadeStream(true, true)), max, n);
  }

  lemma GiftTickets(s: Settings, plain: Request, facade: Request, max: nat, n: nat)
    requires !Takes(s, plain) && Releases(s, plain) && Takes(s, facade) && Streams(facade)
    ensures exists w :: Reachable(max, Tickets(s, {plain, facade}), false, w) && Served(w) == max + n
  {
    assert TicketOf(s, plain) in Tickets(s, {plain, facade}) && TicketOf(s, facade) in Tickets(s, {plain, facade});
    GiftsOverAdmit(max, n, TicketOf(s, plain), TicketOf(s, facade), Tickets(s, {plain, facade}));
  }

  // ---------------------------------------------------------------------------
  // The limit as a client meets it
  // ---------------------------------------------------------------------------

  function Tickets(s: Settings, rs: set<Request>): set<Ticket> {
    set r | r in rs :: TicketOf(s, r)
  }

  /** Every stream of the stream handler takes a slot, and nothing else of it gives one back. */
  predicate StreamsTake(s: Settings, r: Request) {
    r.handler.ChatStream? && (r.handler.valid || EndsWith(r.url, STREAM_SUFFIX)) ==>
      s.limiterOn && EndsWith(PathOf(r.url), STREAM_SUFFIX)
  }

  lemma StreamsTakeIff(s: Settings, r: Request)
    requires Reaches(r)
    ensures (Streams(r) ==> Takes(s, r)) && (Releases(s, r) ==> Takes(s, r))
            <==> (s.HasRedis() ==> StreamsTake(s, r)) && (Streams(r) ==> s.HasRedis())
  {
    if EndsWith(PathOf(r.url), STREAM_SUFFIX) { HealthIsNoStream(PathOf(r.url)); }
  }

  /**
    Over all interleavings of requests of one key from `rs`, at most `max` of them are streamed at once exactly when
    none streams at all, or Redis is up, its key does not expire under a slot, and the guard takes a slot for all that
    the stream handler streams or gives back.
   */
  lemma ServedWithinLimitIff(s: Settings, max: nat, rs: set<Request>, expires: bool)
    requires forall r :: r in rs ==> Reaches(r)
    ensures ServedBounded(max, Tickets(s, rs), expires) <==>
            || (forall r :: r in rs ==> !Streams(r))
            || (s.HasRedis() && !expires && forall r :: r in rs ==> StreamsTake(s, r))
  {
    var ts := Tickets(s, rs);
    ServedBoundedIff(max, ts, expires);
    forall r | r in rs
      ensures TicketOf(s, r) in ts
      ensures (Streams(r) ==> Takes(s, r)) && (Releases(s, r) ==> Takes(s, r))
              <==> (s.HasRedis() ==> StreamsTake(s, r)) && (Streams(r) ==> s.HasRedis())
    {
      StreamsTakeIff(s, r);
    }
  }

  /**
    The counter stays what is held and being rejected, over all interleavings, exactly when each request leaves it as it
    was.
   */
  lemma AccountingSoundIff(s: Settings, max: nat, rs: set<Request>)
    requires max >= 1 && forall r :: r in rs ==> Reaches(r)
    ensures AlwaysSound(max, Tickets(s, rs)) <==> !s.HasRedis() || forall r :: r in rs ==> LeavesCounter(s, r)
  {
    var ts := Tickets(s, rs);
    SoundIffMatched(max, ts);
    forall r | r in rs
      ensures TicketOf(s, r) in ts
      ensures TicketOf(s, r).Matched() <==> !s.HasRedis() || LeavesCounter(s, r)
    {
      MatchedIff(s, r);
    }
  }

  /** What must hold of a request for it to leave no slot behind. */
  ghost predicate GivesBack(s: Settings, r: Request) {
    match r.handler
    case ChatStream(_) => s.limiterOn && EndsWith(PathOf(r.url), STREAM_SUFFIX) ==> EndsWith(r.url, STREAM_SUFFIX)
    case FacadeStream(_, maps) => maps
    case OneModel(alias) => s.limiterOn ==> alias != "stream" || EndsWith(PathOf(r.url), "/")
    case Fixed(_) => true
  }

  lemma GivesBackIff(s: Settings, r: Request)
    requires Reaches(r)
    ensures (Takes(s, r) ==> Releases(s, r)) <==> !s.HasRedis() || GivesBack(s, r)
  {
    var path := PathOf(r.url);
    if EndsWith(path, STREAM_SUFFIX) { HealthIsNoStream(path); }
    if r.handler.OneModel? { ModelPathIff(path, r.handler.alias); }
    if r.handler.FacadeStream? || r.handler.Fixed? { OtherPaths(r); }
  }

  /**
    With no rejection pending, a request of the key is denied only when `max` slots are held, exactly when each leaves
    none behind.
   */
  lemma DeniedWithinLimitIff(s: Settings, max: nat, rs: set<Request>)
    requires max >= 1 && forall r :: r in rs ==> Reaches(r)
    ensures DeniedOnlyWhenFull(max, Tickets(s, rs)) <==> !s.HasRedis() || forall r :: r in rs ==> GivesBack(s, r)
  {
    var ts := Tickets(s, rs);
    DeniedOnlyWhenFullIff(max, ts);
    forall r | r in rs
      ensures TicketOf(s, r) in ts
      ensures (Takes(s, r) ==> Releases(s, r)) <==> !s.HasRedis() || GivesBack(s, r)
    {
      GivesBackIff(s, r);
    }
  }
}
