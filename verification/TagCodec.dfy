/** TAG values in vector search: the escaping, the partition filter it goes into, and the ids allowed as tags. */
module TagCodec {
  import opened Prelude

  /** The characters the query syntax reserves. */
  predicate IsSpecial(c: char) {
    || c == ',' || c == '.' || c == '<' || c == '>' || c == '{' || c == '}' || c == '[' || c == ']'
    || c == '"' || c == '\'' || c == ':' || c == ';' || c == '!' || c == '@' || c == '#' || c == '$'
    || c == '%' || c == '^' || c == '&' || c == '*' || c == '(' || c == ')' || c == '-' || c == '+'
    || c == '=' || c == '~' || c == '|' || c == '/' || c == '\\' || c == ' '
  }

  function EscapeRedisSearchTag(value: string): string {
    if value == "" then ""
    else (if IsSpecial(value[0]) then ['\\', value[0]] else [value[0]]) + EscapeRedisSearchTag(value[1..])
  }

  /** Ids of clients and models: not empty, and no reserved character but the hyphen. */
  predicate IsRedisSearchTagSafeId(value: string) {
    |value| > 0 && forall i :: 0 <= i < |value| ==> IsSpecial(value[i]) ==> value[i] == '-'
  }

  // ---------------------------------------------------------------------------
  // How the query syntax reads a tag clause
  // ---------------------------------------------------------------------------

  /**
    Reads the inside of `{…}`: alternatives separated by bars, up to the closing brace; a backslash takes the next
    character literally.
   */
  function ReadTag(text: string): Option<(seq<string>, string)> {
    if text == "" then None
    else if text[0] == '}' then Some(([""], text[1..]))
    else if text[0] == '|' then
      match ReadTag(text[1..])
      case None => None
      case Some((tags, rest)) => Some(([""] + tags, rest))
    else if text[0] == '\\' then
      if |text| == 1 then None else WithFirst(text[1], ReadTag(text[2..]))
    else WithFirst(text[0], ReadTag(text[1..]))
  }

  function WithFirst(c: char, r: Option<(seq<string>, string)>): Option<(seq<string>, string)> {
    match r
    case None => None
    case Some((tags, rest)) => Some((if tags == [] then [[c]] else [[c] + tags[0]] + tags[1..], rest))
  }

  /** Whatever the value, its escaped form is read as that one tag, and nothing of what follows is swallowed. */
  lemma {:induction false} EscapeReadsBack(value: string, rest: string)
    ensures ReadTag(EscapeRedisSearchTag(value) + "}" + rest) == Some(([value], rest))
  {
    var text := EscapeRedisSearchTag(value) + "}" + rest;
    if value == "" {
      assert text == "}" + rest && text[1..] == rest;
    } else {
      EscapeReadsBack(value[1..], rest);
      var tail := EscapeRedisSearchTag(value[1..]) + "}" + rest;
      if IsSpecial(value[0]) {
        assert text == ['\\', value[0]] + tail && text[2..] == tail;
      } else {
        assert text == [value[0]] + tail && text[1..] == tail;
      }
      var tags := [value[1..]];
      assert tags[1..] == [] && [value[0]] + value[1..] == value;
      assert [[value[0]] + tags[0]] + tags[1..] == [value];
    }
  }

  lemma EscapeInjective(a: string, b: string)
    ensures EscapeRedisSearchTag(a) == EscapeRedisSearchTag(b) <==> a == b
  {
    EscapeReadsBack(a, "");
    EscapeReadsBack(b, "");
    if EscapeRedisSearchTag(a) == EscapeRedisSearchTag(b) {
      assert [a][0] == [b][0];
    }
  }

  /** Exactly the values free of reserved characters go through unchanged. */
  lemma {:induction false} EscapeIdentityIff(value: string)
    ensures |EscapeRedisSearchTag(value)| >= |value|
    ensures EscapeRedisSearchTag(value) == value <==> forall i :: 0 <= i < |value| ==> !IsSpecial(value[i])
  {
    if value != "" {
      EscapeIdentityIff(value[1..]);
      var plain := forall i :: 0 <= i < |value| ==> !IsSpecial(value[i]);
      assert plain <==> !IsSpecial(value[0]) && forall i :: 0 <= i < |value[1..]| ==> !IsSpecial(value[1..][i]) by {
        assert forall i :: 1 <= i < |value| ==> value[i] == value[1..][i - 1];
      }
      if !IsSpecial(value[0]) {
        assert EscapeRedisSearchTag(value) == [value[0]] + EscapeRedisSearchTag(value[1..]);
        assert value == [value[0]] + value[1..];
        assert EscapeRedisSearchTag(value)[1..] == EscapeRedisSearchTag(value[1..]);
      }
    }
  }

  // ---------------------------------------------------------------------------
  // The partition filter
  // ---------------------------------------------------------------------------

  datatype Clause = Clause(field: string, value: string)

  function ClauseText(c: Clause): string {
    "@" + c.field + ":{" + EscapeRedisSearchTag(c.value) + "}"
  }

  /** `@field:{value}` clauses with a space between them. */
  function Clauses(cs: seq<Clause>): string {
    if cs == [] then "" else if |cs| == 1 then ClauseText(cs[0]) else ClauseText(cs[0]) + " " + Clauses(cs[1..])
  }

  /** The query text before the neighbour search. */
  function Filter(cs: seq<Clause>): string {
    "(" + Clauses(cs) + ")"
  }

  /** A field name: everything up to the colon. */
  function ReadName(text: string): Option<(string, string)> {
    if text == "" then None
    else if text[0] == ':' then Some(("", text[1..]))
    else match ReadName(text[1..])
         case None => None
         case Some((name, rest)) => Some(([text[0]] + name, rest))
  }

  lemma {:induction false} NameReadsBack(name: string, rest: string)
    requires ':' !in name
    ensures ReadName(name + ":" + rest) == Some((name, rest))
  {
    var text := name + ":" + rest;
    if name == "" {
      assert text == ":" + rest && text[1..] == rest;
    } else {
      NameReadsBack(name[1..], rest);
      assert text[0] == name[0] && text[1..] == name[1..] + ":" + rest;
      assert [name[0]] + name[1..] == name;
    }
  }

  lemma {:induction false} ReadTagShrinks(text: string)
    ensures ReadTag(text).Some? ==> |ReadTag(text).value.1| < |text|
  {
    if text != "" && text[0] != '}' {
      if text[0] == '\\' {
        if |text| > 1 { ReadTagShrinks(text[2..]); }
      } else {
        ReadTagShrinks(text[1..]);
      }
    }
  }

  lemma {:induction false} ReadNameShrinks(text: string)
    ensures ReadName(text).Some? ==> |ReadName(text).value.1| < |text|
  {
    if text != "" && text[0] != ':' { ReadNameShrinks(text[1..]); }
  }

  /** One clause: field and alternatives, and what follows its brace. */
  function ReadClause(text: string): (r: Option<(string, seq<string>, string)>)
    ensures r.Some? ==> |r.value.2| < |text|
  {
    if text == "" || text[0] != '@' then None
    else
      ReadNameShrinks(text[1..]);
      match ReadName(text[1..])
      case None => None
      case Some((name, afterName)) =>
        if afterName == "" || afterName[0] != '{' then None
        else
          ReadTagShrinks(afterName[1..]);
          match ReadTag(afterName[1..])
          case None => None
          case Some((tags, rest)) => Some((name, tags, rest))
  }

  /** All clauses up to the closing parenthesis: an intersection of tag conditions. */
  function ReadClauses(text: string): Option<(seq<(string, seq<string>)>, string)>
    decreases |text|
  {
    match ReadClause(text)
    case None => None
    case Some((name, tags, rest)) =>
      if rest == "" then None
      else if rest[0] == ')' then Some(([(name, tags)], rest[1..]))
      else if rest[0] != ' ' then None
      else match ReadClauses(rest[1..])
           case None => None
           case Some((more, end)) => Some(([(name, tags)] + more, end))
  }

  function ReadFilter(text: string): Option<(seq<(string, seq<string>)>, string)> {
    if text == "" || text[0] != '(' then None else ReadClauses(text[1..])
  }

  function Meaning(cs: seq<Clause>): seq<(string, seq<string>)> {
    seq(|cs|, i requires 0 <= i < |cs| => (cs[i].field, [cs[i].value]))
  }

  lemma ClauseReadsBack(c: Clause, rest: string)
    requires ':' !in c.field
    ensures ReadClause(ClauseText(c) + rest) == Some((c.field, [c.value], rest))
  {
    var inside := EscapeRedisSearchTag(c.value) + "}" + rest;
    var text := ClauseText(c) + rest;
    assert text[1..] == c.field + ":" + ("{" + inside);
    NameReadsBack(c.field, "{" + inside);
    assert ("{" + inside)[1..] == inside;
    EscapeReadsBack(c.value, rest);
  }

  lemma LastClause(text: string, name: string, tags: seq<string>, rest: string)
    requires ReadClause(text) == Some((name, tags, ")" + rest))
    ensures ReadClauses(text) == Some(([(name, tags)], rest))
  {
    assert (")" + rest)[1..] == rest;
  }

  lemma MoreClauses(text: string, name: string, tags: seq<string>, tail: string, more: seq<(string, seq<string>)>,
                    end: string)
    requires ReadClause(text) == Some((name, tags, " " + tail)) && ReadClauses(tail) == Some((more, end))
    ensures ReadClauses(text) == Some(([(name, tags)] + more, end))
  {
    assert (" " + tail)[1..] == tail;
  }

  lemma ClausesSplit(cs: seq<Clause>, rest: string)
    requires cs != []
    ensures Clauses(cs) + ")" + rest
            == ClauseText(cs[0]) + (if |cs| == 1 then ")" + rest else " " + (Clauses(cs[1..]) + ")" + rest))
  {
    if |cs| > 1 { RegroupFive(ClauseText(cs[0]), " ", Clauses(cs[1..]), ")", rest); }
  }

  lemma RegroupFive(a: string, b: string, c: string, d: string, e: string)
    ensures a + b + c + d + e == a + (b + (c + d + e))
  {
  }

  lemma MeaningSplit(cs: seq<Clause>)
    requires cs != []
    ensures Meaning(cs) == if |cs| == 1 then [(cs[0].field, [cs[0].value])]
            else [(cs[0].field, [cs[0].value])] + Meaning(cs[1..])
  {
  }

  lemma {:induction false} ClausesReadBack(cs: seq<Clause>, rest: string)
    requires cs != [] && forall c :: c in cs ==> ':' !in c.field
    ensures ReadClauses(Clauses(cs) + ")" + rest) == Some((Meaning(cs), rest))
  {
    var text := Clauses(cs) + ")" + rest;
    ClausesSplit(cs, rest);
    MeaningSplit(cs);
    if |cs| == 1 {
      ClauseReadsBack(cs[0], ")" + rest);
      LastClause(text, cs[0].field, [cs[0].value], rest);
    } else {
      var tail := Clauses(cs[1..]) + ")" + rest;
      ClauseReadsBack(cs[0], " " + tail);
      ClausesReadBack(cs[1..], rest);
      MoreClauses(text, cs[0].field, [cs[0].value], tail, Meaning(cs[1..]), rest);
    }
  }

  /**
    The filter built for a partition is read as exactly that partition: one tag a field, whatever the values contain.
   */
  lemma FilterReadsBack(cs: seq<Clause>, rest: string)
    requires cs != [] && forall c :: c in cs ==> ':' !in c.field
    ensures ReadFilter(Filter(cs) + rest) == Some((Meaning(cs), rest))
  {
    assert (Filter(cs) + rest)[1..] == Clauses(cs) + ")" + rest;
    ClausesReadBack(cs, rest);
  }

  lemma MeaningInjective(a: seq<Clause>, b: seq<Clause>)
    requires Meaning(a) == Meaning(b)
    ensures a == b
  {
    assert |a| == |Meaning(a)| == |b|;
    forall i | 0 <= i < |a|
      ensures a[i] == b[i]
    {
      assert Meaning(a)[i] == (a[i].field, [a[i].value]) && Meaning(b)[i] == (b[i].field, [b[i].value]);
      assert [a[i].value][0] == [b[i].value][0];
    }
  }

  datatype KnnPartition = KnnPartition(modelAlias: string, clientId: string, conversationId: string,
                                       embeddingModel: string, systemSignature: string, callParams: string)

  /** The six fields of a search, in the order of `buildKnnQuery`. */
  function PartitionClauses(p: KnnPartition): seq<Clause> {
    [Clause("modelAlias", p.modelAlias), Clause("clientId", p.clientId), Clause("conversationId", p.conversationId),
     Clause("embeddingModel", p.embeddingModel), Clause("systemSignature", p.systemSignature),
         Clause("callParams", p.callParams)]
  }

  lemma FilterInjective(a: seq<Clause>, b: seq<Clause>)
    requires a != [] && b != [] && forall c :: c in a || c in b ==> ':' !in c.field
    requires Filter(a) == Filter(b)
    ensures a == b
  {
    FilterReadsBack(a, "");
    FilterReadsBack(b, "");
    MeaningInjective(a, b);
  }

  predicate NoColon(s: string) {
    forall i :: 0 <= i < |s| ==> s[i] != ':'
  }

  lemma FieldNamesArePlain(p: KnnPartition)
    ensures forall c :: c in PartitionClauses(p) ==> ':' !in c.field
  {
    assert NoColon("modelAlias") && NoColon("clientId") && NoColon("conversationId");
    assert NoColon("embeddingModel") && NoColon("systemSignature") && NoColon("callParams");
  }

  lemma SamePartition(p: KnnPartition, q: KnnPartition)
    requires PartitionClauses(p) == PartitionClauses(q)
    ensures p == q
  {
    var a, b := PartitionClauses(p), PartitionClauses(q);
    assert a[0] == b[0] && a[1] == b[1] && a[2] == b[2] && a[3] == b[3] && a[4] == b[4] && a[5] == b[5];
  }

  /** Two searches have the same filter text only when they search the same partition. */
  lemma FilterIdentifiesPartition(p: KnnPartition, q: KnnPartition)
    ensures Filter(PartitionClauses(p)) == Filter(PartitionClauses(q)) <==> p == q
  {
    var a, b := PartitionClauses(p), PartitionClauses(q);
    FieldNamesArePlain(p);
    FieldNamesArePlain(q);
    if Filter(a) == Filter(b) {
      FilterInjective(a, b);
      SamePartition(p, q);
    }
  }

  // ---------------------------------------------------------------------------
  // How the index stores a tag
  // ---------------------------------------------------------------------------

  /** A stored TAG field is split at commas. */
  function SplitAtCommas(value: string): (r: seq<string>)
    ensures r != []
  {
    if value == "" then [""]
    else
      var tail := SplitAtCommas(value[1..]);
      if value[0] == ',' then [""] + tail else [[value[0]] + tail[0]] + tail[1..]
  }

  /** A value is stored as the one tag a search for it looks for exactly when it has no comma. */
  lemma {:induction false} StoredAsOneTagIff(value: string)
    ensures |SplitAtCommas(value)| == 1 <==> ',' !in value
    ensures SplitAtCommas(value) == [value] <==> ',' !in value
  {
    if value != "" {
      StoredAsOneTagIff(value[1..]);
      assert value == [value[0]] + value[1..];
      assert ',' in value <==> value[0] == ',' || ',' in value[1..];
      if ',' !in value {
        assert SplitAtCommas(value) == [[value[0]] + value[1..]] + [];
      }
    }
  }

  /** An id the configuration accepts is found again: stored as one tag, searched as the same one. */
  lemma SafeIdsAreFound(id: string, rest: string)
    requires IsRedisSearchTagSafeId(id)
    ensures SplitAtCommas(id) == [id]
    ensures ReadTag(EscapeRedisSearchTag(id) + "}" + rest) == Some((SplitAtCommas(id), rest))
  {
    StoredAsOneTagIff(id);
    EscapeReadsBack(id, rest);
  }
}
