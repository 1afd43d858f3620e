/** The search reply of the vector store: a flat list of keys and field lists, read into hits and keys to delete. */
module KnnReply {
  import opened Prelude
  import opened ChatReply

  /** An element of the reply, scalars already as text (what is neither text, number nor buffer is the empty text). */
  datatype Item = Scalar(text: string) | Row(fields: seq<string>)

  datatype Hit = Hit(similarity: real, reply: CachedReply)

  /** JSON and schema of a stored reply, and the number at the start of a text; nothing where they fail. */
  datatype Reader = Reader(reply: string -> Option<CachedReply>, number: string -> Option<real>)

  function AsString(item: Item): string {
    if item.Scalar? then item.text else ""
  }

  /** The value of the last pair with that name; a name without a value is not one. */
  function FieldOf(fields: seq<string>, name: string): Option<string> {
    if |fields| < 2 then None
    else
      match FieldOf(fields[2..], name)
      case Some(v) => Some(v)
      case None => if fields[0] == name then Some(fields[1]) else None
  }

  datatype Verdict = Skip | Corrupt | Good(hit: Hit)

  /** What one entry amounts to: only an unusable reply makes it corrupt, a missing distance does not. */
  function Judge(reader: Reader, row: Item): Verdict {
    if row.Scalar? then Skip
    else
      match FieldOf(row.fields, "reply")
      case None => Corrupt
      case Some(text) =>
        if text == "" || reader.reply(text).None? || Unservable(reader.reply(text).value) then Corrupt
        else
          match reader.number(FieldOf(row.fields, "dist").GetOr(""))
          case None => Skip
          case Some(dist) => Good(Hit(1.0 - dist, reader.reply(text).value))
  }

  function HitsOf(reader: Reader, items: seq<Item>): seq<Hit> {
    if |items| < 2 then []
    else
      var v := Judge(reader, items[1]);
      (if v.Good? then [v.hit] else []) + HitsOf(reader, items[2..])
  }

  function CorruptOf(reader: Reader, items: seq<Item>): seq<string> {
    if |items| < 2 then []
    else
      (if Judge(reader, items[1]).Corrupt? && AsString(items[0]) != "" then [AsString(items[0])] else [])
      + CorruptOf(reader, items[2..])
  }

  /** The inner loop: the field list as a map. */
  method ReadFields(fields: seq<string>) returns (m: map<string, string>)
    ensures forall name :: if name in m then FieldOf(fields, name) == Some(m[name]) else FieldOf(fields, name) == None
  {
    m := map[];
    var j := 0;
    assert fields[0..] == fields;
    while j + 1 < |fields|
      invariant 0 <= j <= |fields|
      invariant forall name ::
                  FieldOf(fields, name) == (if FieldOf(fields[j..], name).Some? then FieldOf(fields[j..], name)
                                            else if name in m then Some(m[name]) else None)
    {
      assert fields[j..][2..] == fields[j + 2..];
      m := m[fields[j] := fields[j + 1]];
      j := j + 2;
    }
  }

  method JudgeRow(reader: Reader, row: Item) returns (v: Verdict)
    ensures v == Judge(reader, row)
  {
    if row.Scalar? { return Skip; }
    var m := ReadFields(row.fields);
    if "reply" !in m || m["reply"] == "" { return Corrupt; }
    var reply := reader.reply(m["reply"]);
    if reply.None? || Unservable(reply.value) { return Corrupt; }
    var dist := reader.number(if "dist" in m then m["dist"] else "");
    if dist.None? { return Skip; }
    return Good(Hit(1.0 - dist.value, reply.value));
  }

  /** `raw` is the reply list and `count` its first element as a finite number. */
  method ParseKnnHits(reader: Reader, raw: seq<Item>, count: Option<real>)
    returns (hits: seq<Hit>, corruptKeys: seq<string>)
    ensures if |raw| < 3 || count.None? || count.value < 1.0 then hits == [] && corruptKeys == []
            else hits == HitsOf(reader, raw[1..]) && corruptKeys == CorruptOf(reader, raw[1..])
  {
    hits, corruptKeys := [], [];
    if |raw| < 3 || count.None? || count.value < 1.0 { return; }
    var i := 1;
    while i + 1 < |raw|
      invariant 1 <= i <= |raw|
      invariant hits + HitsOf(reader, raw[i..]) == HitsOf(reader, raw[1..])
      invariant corruptKeys + CorruptOf(reader, raw[i..]) == CorruptOf(reader, raw[1..])
    {
      assert raw[i..][2..] == raw[i + 2..];
      var key := AsString(raw[i]);
      var v := JudgeRow(reader, raw[i + 1]);
      StepSplits(reader, raw[i..], hits, corruptKeys);
      if v.Good? {
        hits := hits + [v.hit];
      } else if v.Corrupt? && |key| > 0 {
        corruptKeys := corruptKeys + [key];
      }
      i := i + 2;
    }
    assert hits + [] == hits && corruptKeys + [] == corruptKeys;
  }

  lemma StepSplits(reader: Reader, items: seq<Item>, hits: seq<Hit>, corrupt: seq<string>)
    requires |items| >= 2
    ensures var v := Judge(reader, items[1]);
            && hits + HitsOf(reader, items) == (if v.Good? then hits + [v.hit] else hits) + HitsOf(reader, items[2..])
            && corrupt + CorruptOf(reader, items)
               == (if v.Corrupt? && AsString(items[0]) != "" then corrupt + [AsString(items[0])] else corrupt)
                   + CorruptOf(reader, items[2..])
  {
    var v := Judge(reader, items[1]);
    Regroup(hits, if v.Good? then [v.hit] else [], HitsOf(reader, items[2..]));
    Regroup(corrupt, if v.Corrupt? && AsString(items[0]) != "" then [AsString(items[0])] else [],
            CorruptOf(reader, items[2..]));
    assert hits + [] == hits && corrupt + [] == corrupt;
  }

  // ---------------------------------------------------------------------------
  // What the store holds, and what is read of it
  // ---------------------------------------------------------------------------

  /** An entry as the store sends it: its key, and its two returned fields. */
  datatype Entry = Entry(key: string, reply: string, dist: string)

  function Send(entries: seq<Entry>): seq<Item> {
    if entries == [] then []
    else [Scalar(entries[0].key), Row(["reply", entries[0].reply, "dist", entries[0].dist])] + Send(entries[1..])
  }

  predicate Usable(reader: Reader, e: Entry) {
    e.reply != "" && reader.reply(e.reply).Some? && !Unservable(reader.reply(e.reply).value)
  }

  function ExpectedHits(reader: Reader, entries: seq<Entry>): seq<Hit> {
    if entries == [] then []
    else
      var e := entries[0];
      (if Usable(reader, e) && reader.number(e.dist).Some?
       then [Hit(1.0 - reader.number(e.dist).value, reader.reply(e.reply).value)] else [])
      + ExpectedHits(reader, entries[1..])
  }

  function ExpectedCorrupt(reader: Reader, entries: seq<Entry>): seq<string> {
    if entries == [] then []
    else
      (if !Usable(reader, entries[0]) && entries[0].key != "" then [entries[0].key] else [])
      + ExpectedCorrupt(reader, entries[1..])
  }

  lemma SentFields(reply: string, dist: string)
    ensures FieldOf(["reply", reply, "dist", dist], "reply") == Some(reply)
            && FieldOf(["reply", reply, "dist", dist], "dist") == Some(dist)
  {
    var fields := ["reply", reply, "dist", dist];
    var tail := ["dist", dist];
    assert fields[2..] == tail && tail[2..] == [];
    assert |"reply"| != |"dist"|;
    assert FieldOf(tail, "dist") == Some(dist) && FieldOf(tail, "reply") == None;
    assert FieldOf(fields, "dist") == Some(dist);
  }

  /** Usable entries become hits in order, all others are named for deletion, and nothing is both. */
  lemma {:induction false} SentEntriesReadBack(reader: Reader, entries: seq<Entry>)
    ensures HitsOf(reader, Send(entries)) == ExpectedHits(reader, entries)
    ensures CorruptOf(reader, Send(entries)) == ExpectedCorrupt(reader, entries)
  {
    if entries != [] {
      SentFields(entries[0].reply, entries[0].dist);
      SentEntriesReadBack(reader, entries[1..]);
      assert Send(entries)[2..] == Send(entries[1..]);
    }
  }

  /** Whatever the reply list holds, every hit can be served. */
  lemma {:induction false} HitsAreServable(reader: Reader, items: seq<Item>)
    ensures forall h :: h in HitsOf(reader, items) ==> !Unservable(h.reply)
  {
    if |items| >= 2 { HitsAreServable(reader, items[2..]); }
  }
}
