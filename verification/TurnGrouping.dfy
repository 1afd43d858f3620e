/** Chat turns as Anthropic messages: consecutive tool results share one message, tool calls become blocks. */
module TurnGrouping {
  import opened Prelude

  datatype Call = Call(id: string, name: string, arguments: string)

  datatype Turn =
    | UserTurn(content: string)
    | AssistantTurn(content: string, toolCalls: seq<Call>)
    | ToolTurn(toolCallId: string, content: string)

  /** `J` is parsed JSON. */
  datatype Block<J> =
    | Text(text: string)
    | ToolUse(id: string, name: string, input: J)
    | ToolResult(toolUseId: string, content: string)

  datatype Content<J> = Plain(text: string) | Blocks(blocks: seq<Block<J>>)
  datatype Role = User | Assistant
  datatype Message<J> = Message(role: Role, content: Content<J>)

  /** Arguments that are not a JSON object become the empty object. */
  datatype Json<!J> = Json(parse: string -> Option<J>, empty: J, stringify: J -> string) {
    function Arguments(text: string): J {
      parse(text).GetOr(empty)
    }
  }

  // ---------------------------------------------------------------------------
  // Mapping
  // ---------------------------------------------------------------------------

  function Uses<J>(json: Json<J>, calls: seq<Call>): (r: seq<Block<J>>)
    ensures |r| == |calls| && forall i :: 0 <= i < |calls| ==>
            r[i] == ToolUse(calls[i].id, calls[i].name, json.Arguments(calls[i].arguments))
  {
    seq(|calls|, i requires 0 <= i < |calls| => ToolUse(calls[i].id, calls[i].name, json.Arguments(calls[i].arguments)))
  }

  function MapAssistant<J>(json: Json<J>, turn: Turn): Message<J>
    requires turn.AssistantTurn?
  {
    if turn.toolCalls == [] then Message(Assistant, Plain(turn.content))
    else Message(Assistant,
                 Blocks((if turn.content == "" then [] else [Text(turn.content)]) + Uses(json, turn.toolCalls)))
  }

  method MapAssistantTurn<J>(json: Json<J>, turn: Turn) returns (message: Message<J>)
    requires turn.AssistantTurn?
    ensures message == MapAssistant(json, turn)
  {
    if |turn.toolCalls| == 0 {
      return Message(Assistant, Plain(turn.content));
    }
    var blocks: seq<Block<J>> := [];
    if turn.content != "" {
      blocks := [Text(turn.content)];
    }
    ghost var first := blocks;
    for n := 0 to |turn.toolCalls|
      invariant blocks == first + Uses(json, turn.toolCalls)[..n]
    {
      var call := turn.toolCalls[n];
      blocks := blocks + [ToolUse(call.id, call.name, json.Arguments(call.arguments))];
    }
    assert Uses(json, turn.toolCalls)[..|turn.toolCalls|] == Uses(json, turn.toolCalls);
    return Message(Assistant, Blocks(blocks));
  }

  /** How many turns at the start are tool results. */
  function RunLength(turns: seq<Turn>): (k: nat)
    ensures k <= |turns|
    ensures forall i :: 0 <= i < k ==> turns[i].ToolTurn?
    ensures k < |turns| ==> !turns[k].ToolTurn?
  {
    if turns == [] || !turns[0].ToolTurn? then 0 else 1 + RunLength(turns[1..])
  }

  lemma {:induction false} RunLengthIs(turns: seq<Turn>, n: nat)
    requires n <= |turns| && (forall i :: 0 <= i < n ==> turns[i].ToolTurn?) && (n < |turns| ==> !turns[n].ToolTurn?)
    ensures RunLength(turns) == n
  {
    if n > 0 { RunLengthIs(turns[1..], n - 1); }
  }

  /** The tool results at the start. */
  function ToolRun(turns: seq<Turn>): (run: seq<Turn>)
    ensures |run| == RunLength(turns) && forall i :: 0 <= i < |run| ==> run[i] == turns[i] && run[i].ToolTurn?
  {
    turns[..RunLength(turns)]
  }

  function Results<J>(turns: seq<Turn>): (r: seq<Block<J>>)
    requires forall i :: 0 <= i < |turns| ==> turns[i].ToolTurn?
    ensures |r| == |turns| && forall i :: 0 <= i < |turns| ==> r[i] == ToolResult(turns[i].toolCallId, turns[i].content)
  {
    seq(|turns|, i requires 0 <= i < |turns| => ToolResult(turns[i].toolCallId, turns[i].content))
  }

  function MapTurns<J>(json: Json<J>, turns: seq<Turn>): seq<Message<J>>
    decreases |turns|
  {
    if turns == [] then []
    else
      match turns[0]
      case UserTurn(content) => [Message(User, Plain(content))] + MapTurns(json, turns[1..])
      case AssistantTurn(_, _) => [MapAssistant(json, turns[0])] + MapTurns(json, turns[1..])
      case ToolTurn(_, _) =>
        [Message(User, Blocks(Results(ToolRun(turns))))] + MapTurns(json, turns[RunLength(turns)..])
  }

  method MapTurnsToAnthropicMessages<J>(json: Json<J>, turns: seq<Turn>) returns (messages: seq<Message<J>>)
    ensures messages == MapTurns(json, turns)
  {
    messages := [];
    var i := 0;
    assert turns[0..] == turns;
    while i < |turns|
      invariant 0 <= i <= |turns|
      invariant MapTurns(json, turns) == messages + MapTurns(json, turns[i..])
      decreases |turns| - i
    {
      Advance(json, turns, i, messages);
      var message, last := NextMessage(json, turns, i);
      messages := messages + [message];
      i := last + 1;
    }
  }

  lemma Pushed<T>(done: seq<T>, x: T, rest: seq<T>)
    ensures done + ([x] + rest) == (done + [x]) + rest
  {
  }

  lemma Advance<J>(json: Json<J>, turns: seq<Turn>, i: nat, done: seq<Message<J>>)
    requires i < |turns| && MapTurns(json, turns) == done + MapTurns(json, turns[i..])
    ensures i + Taken(turns[i..]) <= |turns|
    ensures MapTurns(json, turns)
            == (done + [FirstMessage(json, turns[i..])]) + MapTurns(json, turns[i + Taken(turns[i..])..])
  {
    HeadOf(json, turns, i);
    Pushed(done, FirstMessage(json, turns[i..]), MapTurns(json, turns[i + Taken(turns[i..])..]));
  }

  /** The body of the outer loop: the message that starts at turn `i`, and the last turn it takes up. */
  method NextMessage<J>(json: Json<J>, turns: seq<Turn>, i: nat) returns (message: Message<J>, last: nat)
    requires i < |turns|
    ensures last == i + Taken(turns[i..]) - 1
    ensures message == FirstMessage(json, turns[i..])
  {
    var turn := turns[i];
    last := i;
    match turn {
    case UserTurn(content) =>
      message := Message(User, Plain(content));
    case AssistantTurn(_, _) =>
      message := MapAssistantTurn(json, turn);
    case ToolTurn(_, _) =>
      var toolResults: seq<Block<J>>, end := CollectRun(turns, i);
      last := end;
      message := Message(User, Blocks(toolResults));
    }
  }

  /** How many turns the first message takes up, and which message that is. */
  function Taken(turns: seq<Turn>): (k: nat)
    requires turns != []
    ensures 0 < k <= |turns|
  {
    if turns[0].ToolTurn? then RunLength(turns) else 1
  }

  function FirstMessage<J>(json: Json<J>, turns: seq<Turn>): Message<J>
    requires turns != []
  {
    match turns[0]
    case UserTurn(content) => Message(User, Plain(content))
    case AssistantTurn(_, _) => MapAssistant(json, turns[0])
    case ToolTurn(_, _) => Message(User, Blocks(Results(ToolRun(turns))))
  }

  lemma HeadOf<J>(json: Json<J>, turns: seq<Turn>, i: nat)
    requires i < |turns|
    ensures i + Taken(turns[i..]) <= |turns|
    ensures MapTurns(json, turns[i..])
            == [FirstMessage(json, turns[i..])] + MapTurns(json, turns[i + Taken(turns[i..])..])
  {
    assert turns[i..][Taken(turns[i..])..] == turns[i + Taken(turns[i..])..];
  }

  /** The inner loop: from a tool turn on, the results of its whole run, and the place of the last one. */
  method CollectRun<J>(turns: seq<Turn>, start: nat) returns (toolResults: seq<Block<J>>, i: nat)
    requires start < |turns| && turns[start].ToolTurn?
    ensures start <= i == start + RunLength(turns[start..]) - 1
    ensures toolResults == Results<J>(ToolRun(turns[start..]))
  {
    i := start;
    toolResults := [ToolResult(turns[i].toolCallId, turns[i].content)];
    while i + 1 < |turns| && turns[i + 1].ToolTurn?
      invariant start <= i < |turns|
      invariant forall j :: start <= j <= i ==> turns[j].ToolTurn?
      invariant toolResults == Results<J>(turns[start..i + 1])
    {
      i := i + 1;
      toolResults := toolResults + [ToolResult(turns[i].toolCallId, turns[i].content)];
      assert toolResults == Results<J>(turns[start..i + 1]);
    }
    RunLengthIs(turns[start..], i + 1 - start);
    assert ToolRun(turns[start..]) == turns[start..i + 1];
  }

  // ---------------------------------------------------------------------------
  // Reading back
  // ---------------------------------------------------------------------------

  /** A turn with its tool arguments parsed. */
  datatype Flat<J> =
    | FlatUser(content: string)
    | FlatAssistant(content: string, calls: seq<Block<J>>)
    | FlatTool(toolCallId: string, content: string)

  function Flatten1<J>(turn: Turn, json: Json<J>): Flat<J> {
    match turn
    case UserTurn(content) => FlatUser(content)
    case AssistantTurn(content, calls) => FlatAssistant(content, Uses(json, calls))
    case ToolTurn(id, content) => FlatTool(id, content)
  }

  function FlattenAll<J>(json: Json<J>, turns: seq<Turn>): (r: seq<Flat<J>>)
    ensures |r| == |turns| && forall i :: 0 <= i < |turns| ==> r[i] == Flatten1(turns[i], json)
  {
    seq(|turns|, i requires 0 <= i < |turns| => Flatten1(turns[i], json))
  }

  /** What a message says: a text, tool calls after an optional text, or tool results. */
  predicate WellFormed<J>(m: Message<J>) {
    match m.content
    case Plain(_) => true
    case Blocks(bs) =>
      && bs != []
      && (match m.role
          case User => forall i :: 0 <= i < |bs| ==> bs[i].ToolResult?
          case Assistant => (bs[0].Text? ==> |bs| > 1 && bs[0].text != "") && forall i :: 0 <= i < |bs| ==>
              bs[i].ToolUse? || (i == 0 && bs[i].Text?))
  }

  function ReadMessage<J>(m: Message<J>): (r: seq<Flat<J>>)
    requires WellFormed(m)
    ensures r != []
  {
    match m.role
    case User =>
      (match m.content
       case Plain(text) => [FlatUser(text)]
       case Blocks(bs) => seq(|bs|, i requires 0 <= i < |bs| => FlatTool(bs[i].toolUseId, bs[i].content)))
    case Assistant =>
      (match m.content
       case Plain(text) => [FlatAssistant(text, [])]
       case Blocks(bs) => if bs[0].Text? then [FlatAssistant(bs[0].text, bs[1..])] else [FlatAssistant("", bs)])
  }

  predicate AllWellFormed<J>(ms: seq<Message<J>>) {
    forall i :: 0 <= i < |ms| ==> WellFormed(ms[i])
  }

  function Read<J>(ms: seq<Message<J>>): seq<Flat<J>>
    requires AllWellFormed(ms)
  {
    if ms == [] then [] else ReadMessage(ms[0]) + Read(ms[1..])
  }

  predicate IsResults<J>(m: Message<J>) {
    m.role.User? && m.content.Blocks?
  }

  /** No two messages of tool results stand next to each other. */
  predicate Grouped<J>(ms: seq<Message<J>>) {
    forall i :: 0 <= i < |ms| - 1 ==> !(IsResults(ms[i]) && IsResults(ms[i + 1]))
  }

  lemma MapAssistantReadsBack<J>(json: Json<J>, turn: Turn)
    requires turn.AssistantTurn?
    ensures WellFormed(MapAssistant(json, turn)) && ReadMessage(MapAssistant(json, turn)) == [Flatten1(turn, json)]
  {
    if turn.toolCalls != [] {
      var uses := Uses(json, turn.toolCalls);
      if turn.content == "" {
        assert [] + uses == uses;
      } else {
        assert ([Text(turn.content)] + uses)[1..] == uses;
      }
    }
  }

  /**
    The messages say exactly what the turns said, in order, whatever the grouping; and tool results are grouped as far
    as they go.
   */
  lemma {:induction false} MapReadsBack<J>(json: Json<J>, turns: seq<Turn>)
    ensures AllWellFormed(MapTurns(json, turns)) && Read(MapTurns(json, turns)) == FlattenAll(json, turns)
    ensures Grouped(MapTurns(json, turns))
    ensures MapTurns(json, turns) != [] && IsResults(MapTurns(json, turns)[0]) ==> turns[0].ToolTurn?
    decreases |turns|
  {
    if turns != [] {
      var ms := MapTurns(json, turns);
      var k := if turns[0].ToolTurn? then RunLength(turns) else 1;
      MapReadsBack(json, turns[k..]);
      assert ms == [ms[0]] + MapTurns(json, turns[k..]);
      HeadReadsBack(json, turns, k);
      Prepend(ms[0], MapTurns(json, turns[k..]));
      FlattenSplit(json, turns, k);
    }
  }

  lemma FlattenSplit<J>(json: Json<J>, turns: seq<Turn>, k: nat)
    requires k <= |turns|
    ensures FlattenAll(json, turns) == FlattenAll(json, turns[..k]) + FlattenAll(json, turns[k..])
  {
  }

  lemma Prepend<J>(m: Message<J>, ms: seq<Message<J>>)
    requires WellFormed(m) && AllWellFormed(ms)
    ensures AllWellFormed([m] + ms) && Read([m] + ms) == ReadMessage(m) + Read(ms)
    ensures Grouped(ms) && (IsResults(m) && ms != [] ==> !IsResults(ms[0])) ==> Grouped([m] + ms)
  {
    assert ([m] + ms)[1..] == ms;
    assert forall i :: 1 <= i < |[m] + ms| ==> ([m] + ms)[i] == ms[i - 1];
  }

  lemma HeadReadsBack<J>(json: Json<J>, turns: seq<Turn>, k: nat)
    requires turns != [] && k == if turns[0].ToolTurn? then RunLength(turns) else 1
    ensures var m := MapTurns(json, turns)[0];
            WellFormed(m) && ReadMessage(m) == FlattenAll(json, turns[..k]) && (IsResults(m) <==> turns[0].ToolTurn?)
  {
    var m := MapTurns(json, turns)[0];
    match turns[0]
    case UserTurn(_) => assert turns[..1] == [turns[0]];
    case AssistantTurn(_, _) =>
      MapAssistantReadsBack(json, turns[0]);
      assert turns[..1] == [turns[0]];
    case ToolTurn(_, _) =>
      var r := ReadMessage(m);
      assert forall i :: 0 <= i < k ==> r[i] == FlatTool(turns[i].toolCallId, turns[i].content);
  }

  // ---------------------------------------------------------------------------
  // How many messages, and that no other grouping does it
  // ---------------------------------------------------------------------------

  function NonTools(turns: seq<Turn>): nat {
    if turns == [] then 0 else (if turns[0].ToolTurn? then 0 else 1) + NonTools(turns[1..])
  }

  /** Maximal runs of tool turns, counted at their last turn. */
  function ToolRuns(turns: seq<Turn>): nat {
    if turns == [] then 0
    else (if turns[0].ToolTurn? && (|turns| == 1 || !turns[1].ToolTurn?) then 1 else 0) + ToolRuns(turns[1..])
  }

  lemma {:induction false} RunCounts(turns: seq<Turn>)
    requires turns != [] && turns[0].ToolTurn?
    ensures var k := RunLength(turns);
            ToolRuns(turns) == 1 + ToolRuns(turns[k..])
            && NonTools(turns) == NonTools(turns[k..])
  {
    if |turns| > 1 && turns[1].ToolTurn? {
      RunCounts(turns[1..]);
      assert turns[1..][RunLength(turns[1..])..] == turns[RunLength(turns)..];
    }
  }

  /** One message for each turn that is no tool result, and one for each run of those. */
  lemma {:induction false} MessageCount<J>(json: Json<J>, turns: seq<Turn>)
    ensures |MapTurns(json, turns)| == NonTools(turns) + ToolRuns(turns)
    decreases |turns|
  {
    if turns != [] {
      if turns[0].ToolTurn? {
        RunCounts(turns);
        MessageCount(json, turns[RunLength(turns)..]);
      } else {
        MessageCount(json, turns[1..]);
      }
    }
  }

  lemma SameMeaningSameMessage<J>(a: Message<J>, b: Message<J>)
    requires WellFormed(a) && WellFormed(b) && ReadMessage(a) == ReadMessage(b)
    ensures a == b
  {
    var r, s := ReadMessage(a), ReadMessage(b);
    assert r[0] == s[0];
    if IsResults(a) {
      var x, y := a.content.blocks, b.content.blocks;
      assert |x| == |r| == |s| == |y|;
      forall i | 0 <= i < |x|
        ensures x[i] == y[i]
      {
        assert r[i] == s[i];
      }
    } else if a.role.Assistant? && a.content.Blocks? && a.content.blocks[0].Text? {
      assert a.content.blocks == [a.content.blocks[0]] + a.content.blocks[1..];
      assert b.content.blocks == [b.content.blocks[0]] + b.content.blocks[1..];
    }
  }

  lemma {:induction false} FirstFlat<J>(ms: seq<Message<J>>)
    requires AllWellFormed(ms) && ms != []
    ensures Read(ms) != [] && (Read(ms)[0].FlatTool? <==> IsResults(ms[0]))
  {
  }

  /** The grouping is the only one: grouped messages that say the same are the same. */
  lemma {:induction false} GroupingUnique<J>(a: seq<Message<J>>, b: seq<Message<J>>)
    requires AllWellFormed(a) && AllWellFormed(b) && Grouped(a) && Grouped(b)
    requires Read(a) == Read(b)
    ensures a == b
    decreases |a|
  {
    if a == [] || b == [] {
      if a != [] { FirstFlat(a); }
      if b != [] { FirstFlat(b); }
    } else {
      HeadsAgree(a, b);
      var r := ReadMessage(a[0]);
      assert Read(a)[|r|..] == Read(a[1..]) && Read(b)[|r|..] == Read(b[1..]);
      GroupingUnique(a[1..], b[1..]);
      SameMeaningSameMessage(a[0], b[0]);
      assert a == [a[0]] + a[1..] && b == [b[0]] + b[1..];
    }
  }

  /** The first messages take up equally many turns: a results message takes all there are. */
  lemma HeadsAgree<J>(a: seq<Message<J>>, b: seq<Message<J>>)
    requires a != [] && b != [] && AllWellFormed(a) && AllWellFormed(b) && Grouped(a) && Grouped(b)
    requires Read(a) == Read(b)
    ensures ReadMessage(a[0]) == ReadMessage(b[0])
  {
    FirstFlat(a);
    FirstFlat(b);
    var r, s := ReadMessage(a[0]), ReadMessage(b[0]);
    HeadIsWholeRun(a);
    HeadIsWholeRun(b);
    assert |r| == |s|;
    assert r == Read(a)[..|r|] && s == Read(b)[..|s|];
  }

  function FlatRun<J>(flats: seq<Flat<J>>): nat {
    if flats == [] || !flats[0].FlatTool? then 0 else 1 + FlatRun(flats[1..])
  }

  lemma {:induction false} FlatRunIs<J>(flats: seq<Flat<J>>, n: nat)
    requires n <= |flats| && (forall i :: 0 <= i < n ==> flats[i].FlatTool?) && (n < |flats| ==> !flats[n].FlatTool?)
    ensures FlatRun(flats) == n
  {
    if n > 0 { FlatRunIs(flats[1..], n - 1); }
  }

  lemma HeadIsWholeRun<J>(ms: seq<Message<J>>)
    requires ms != [] && AllWellFormed(ms) && Grouped(ms)
    ensures ReadMessage(ms[0]) <= Read(ms)
    ensures |ReadMessage(ms[0])| == if IsResults(ms[0]) then FlatRun(Read(ms)) else 1
  {
    if |ms| > 1 {
      assert AllWellFormed(ms[1..]);
      FirstFlat(ms[1..]);
      assert ms[1..][0] == ms[1];
    }
    if IsResults(ms[0]) { FlatRunIs(Read(ms), |ReadMessage(ms[0])|); }
  }

  /** So the mapping is characterised: the grouped well-formed messages that say what the turns say. */
  lemma MappingIsTheGroupedReading<J>(json: Json<J>, turns: seq<Turn>, ms: seq<Message<J>>)
    ensures ms == MapTurns(json, turns) <==> AllWellFormed(ms) && Grouped(ms) && Read(ms) == FlattenAll(json, turns)
  {
    MapReadsBack(json, turns);
    if AllWellFormed(ms) && Grouped(ms) && Read(ms) == FlattenAll(json, turns) {
      GroupingUnique(ms, MapTurns(json, turns));
    }
  }

  // ---------------------------------------------------------------------------
  // The model's answer, and the answer sent back as a turn
  // ---------------------------------------------------------------------------

  function TextOf<J>(blocks: seq<Block<J>>): string {
    if blocks == [] then ""
    else TextOf(blocks[..|blocks| - 1]) + (if blocks[|blocks| - 1].Text? then blocks[|blocks| - 1].text else "")
  }

  function CallsOf<J>(json: Json<J>, blocks: seq<Block<J>>): seq<Call> {
    if blocks == [] then []
    else
      var last := blocks[|blocks| - 1];
      CallsOf(json, blocks[..|blocks| - 1])
          + (if last.ToolUse? then [Call(last.id, last.name, json.stringify(last.input))] else [])
  }

  method ParseAnthropicResponse<J>(json: Json<J>, content: seq<Block<J>>) returns (text: string, toolCalls: seq<Call>)
    ensures text == TextOf(content) && toolCalls == CallsOf(json, content)
  {
    text, toolCalls := "", [];
    for n := 0 to |content|
      invariant text == TextOf(content[..n]) && toolCalls == CallsOf(json, content[..n])
    {
      assert content[..n + 1][..n] == content[..n];
      var block := content[n];
      if block.Text? {
        text := text + block.text;
      } else if block.ToolUse? {
        toolCalls := toolCalls + [Call(block.id, block.name, json.stringify(block.input))];
      }
    }
    assert content[..|content|] == content;
  }

  /** The calls with their arguments parsed and printed again. */
  function Reprinted<J>(json: Json<J>, calls: seq<Call>): (r: seq<Call>)
    ensures |r| == |calls|
    ensures forall i :: 0 <= i < |calls| ==>
            r[i] == calls[i].(arguments := json.stringify(json.Arguments(calls[i].arguments)))
  {
    if calls == [] then []
    else
      var last := calls[|calls| - 1];
      Reprinted(json, calls[..|calls| - 1]) + [last.(arguments := json.stringify(json.Arguments(last.arguments)))]
  }

  lemma TextThenUse<J>(json: Json<J>, blocks: seq<Block<J>>, use: Block<J>)
    requires use.ToolUse?
    ensures TextOf(blocks + [use]) == TextOf(blocks)
    ensures CallsOf(json, blocks + [use]) == CallsOf(json, blocks) + [Call(use.id, use.name, json.stringify(use.input))]
  {
    assert (blocks + [use])[..|blocks|] == blocks;
  }

  lemma UsesSnoc<J>(json: Json<J>, calls: seq<Call>)
    requires calls != []
    ensures var last := calls[|calls| - 1];
            Uses(json, calls)
                == Uses(json, calls[..|calls| - 1]) + [ToolUse(last.id, last.name, json.Arguments(last.arguments))]
  {
  }

  lemma {:induction false} CallsOfUses<J>(json: Json<J>, first: seq<Block<J>>, calls: seq<Call>)
    requires CallsOf(json, first) == []
    ensures TextOf(first + Uses(json, calls)) == TextOf(first)
    ensures CallsOf(json, first + Uses(json, calls)) == Reprinted(json, calls)
    decreases |calls|
  {
    if calls == [] {
      assert first + Uses(json, calls) == first;
    } else {
      var init, last := calls[..|calls| - 1], calls[|calls| - 1];
      CallsOfUses(json, first, init);
      var use := ToolUse(last.id, last.name, json.Arguments(last.arguments));
      UsesSnoc(json, calls);
      Regroup(first, Uses(json, init), [use]);
      TextThenUse(json, first + Uses(json, init), use);
    }
  }

  lemma OneText<J>(json: Json<J>, content: string)
    ensures TextOf<J>([Text(content)]) == content && CallsOf(json, [Text(content)]) == []
  {
    var b: seq<Block<J>> := [Text(content)];
    assert b[..0] == [];
  }

  /**
    An answer with tool calls, sent as a turn and read as an answer, keeps its text, its ids and names, and its
    arguments as printed JSON.
   */
  lemma AnswerRoundTrip<J>(json: Json<J>, content: string, calls: seq<Call>)
    requires calls != []
    ensures var m := MapAssistant(json, AssistantTurn(content, calls));
            && m.content.Blocks? && TextOf(m.content.blocks) == content
            && CallsOf(json, m.content.blocks) == Reprinted(json, calls)
  {
    var first: seq<Block<J>> := if content == "" then [] else [Text(content)];
    OneText(json, content);
    CallsOfUses(json, first, calls);
  }
}
