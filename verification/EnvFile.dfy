/** The `.env` file: read as lines, patched line by line, written back. */
module EnvFile {
  import opened Prelude

  // ---------------------------------------------------------------------------
  // Text and lines
  // ---------------------------------------------------------------------------

  function FirstBreak(text: string): (k: nat)
    ensures k <= |text|
    ensures k < |text| ==> text[k] == '\n'
    ensures forall i :: 0 <= i < k ==> text[i] != '\n'
  {
    if text == "" || text[0] == '\n' then 0 else 1 + FirstBreak(text[1..])
  }

  /** A line without the carriage return of a CR LF end. */
  function Chop(line: string): string {
    if line != "" && line[|line| - 1] == '\r' then line[..|line| - 1] else line
  }

  /** `text.split(/\r?\n/)`: what follows the last break is not chopped. */
  function Split(text: string): seq<string>
    decreases |text|
  {
    var k := FirstBreak(text);
    if k == |text| then [text] else [Chop(text[..k])] + Split(text[k + 1..])
  }

  function NonEmpty(lines: seq<string>): seq<string> {
    if lines == [] then [] else if lines[0] == "" then NonEmpty(lines[1..]) else [lines[0]] + NonEmpty(lines[1..])
  }

  /** The lines a reader sees. */
  function Lines(text: string): seq<string> {
    NonEmpty(Split(text))
  }

  /** `lines.join('\n') + '\n'` */
  function Render(lines: seq<string>): string {
    if lines == [] then "\n" else if |lines| == 1 then lines[0] + "\n" else lines[0] + "\n" + Render(lines[1..])
  }

  predicate NoBreak(s: string) {
    forall i :: 0 <= i < |s| ==> s[i] != '\n'
  }

  /** A line that survives being written and read: not empty, no break inside, no carriage return at its end. */
  predicate Clean(line: string) {
    line != "" && NoBreak(line) && Chop(line) == line
  }

  predicate AllClean(lines: seq<string>) {
    forall i :: 0 <= i < |lines| ==> Clean(lines[i])
  }

  predicate AllWhole(lines: seq<string>) {
    forall i :: 0 <= i < |lines| ==> NoBreak(lines[i])
  }

  function Chopped(lines: seq<string>): (r: seq<string>)
    ensures |r| == |lines| && forall i :: 0 <= i < |lines| ==> r[i] == Chop(lines[i])
  {
    seq(|lines|, i requires 0 <= i < |lines| => Chop(lines[i]))
  }

  lemma SplitOne(line: string, rest: string)
    requires NoBreak(line)
    ensures Split(line + "\n" + rest) == [Chop(line)] + Split(rest)
  {
    var text := line + "\n" + rest;
    var k := FirstBreak(text);
    assert text[|line|] == '\n';
    assert k == |line| by {
      assert forall i :: 0 <= i < |line| ==> text[i] == line[i];
    }
    assert text[..k] == line && text[k + 1..] == rest;
  }

  lemma ReadFirst(line: string, rest: seq<string>)
    requires NoBreak(line)
    ensures Lines(Render([line] + rest)) == NonEmpty([Chop(line)]) + if rest == [] then [] else Lines(Render(rest))
  {
    var tail := if rest == [] then "" else Render(rest);
    assert ([line] + rest)[1..] == rest;
    assert Render([line] + rest) == line + "\n" + tail;
    SplitOne(line, tail);
    NonEmptyAppend([Chop(line)], Split(tail));
    SplitEmpty();
  }

  /** Writing lines without breaks and reading them back chops each and drops those left empty. */
  lemma {:induction false} WriteRead(lines: seq<string>)
    requires AllWhole(lines)
    ensures Lines(Render(lines)) == NonEmpty(Chopped(lines))
  {
    if lines == [] {
      ReadNothing();
    } else {
      var rest := lines[1..];
      assert lines == [lines[0]] + rest;
      assert AllWhole(rest);
      WriteRead(rest);
      ReadNothing();
      ReadFirst(lines[0], rest);
      ChoppedFirst(lines[0], rest);
      NonEmptyAppend([Chop(lines[0])], Chopped(rest));
    }
  }

  lemma ReadNothing()
    ensures Lines(Render([])) == [] && NonEmpty(Chopped([])) == []
  {
    SplitEmpty();
    SplitOne("", "");
    assert "" + "\n" + "" == "\n";
  }

  lemma ChoppedFirst(line: string, rest: seq<string>)
    ensures Chopped([line] + rest) == [Chop(line)] + Chopped(rest)
  {
  }

  lemma SplitEmpty()
    ensures Split("") == [""] && Lines("") == []
  {
    assert FirstBreak("") == 0;
    assert [""][1..] == [];
  }

  lemma {:induction false} NonEmptyAppend(a: seq<string>, b: seq<string>)
    ensures NonEmpty(a + b) == NonEmpty(a) + NonEmpty(b)
  {
    if a == [] {
      assert a + b == b;
    } else {
      NonEmptyAppend(a[1..], b);
      assert (a + b)[1..] == a[1..] + b;
      Regroup([a[0]], NonEmpty(a[1..]), NonEmpty(b));
    }
  }

  lemma {:induction false} NonEmptyShape(lines: seq<string>)
    ensures |NonEmpty(lines)| <= |lines|
    ensures NonEmpty(lines) == lines <==> forall i :: 0 <= i < |lines| ==> lines[i] != ""
    ensures |NonEmpty(lines)| == |lines| ==> NonEmpty(lines) == lines
    ensures forall l :: l in NonEmpty(lines) <==> l in lines && l != ""
  {
    if lines != [] {
      NonEmptyShape(lines[1..]);
      assert lines == [lines[0]] + lines[1..];
      if lines[0] != "" && (forall i :: 0 <= i < |lines[1..]| ==> lines[1..][i] != "") {
        forall i | 0 <= i < |lines|
          ensures lines[i] != ""
        {
          if i > 0 { assert lines[i] == lines[1..][i - 1]; }
        }
      }
      if forall i :: 0 <= i < |lines| ==> lines[i] != "" {
        assert forall i :: 0 <= i < |lines[1..]| ==> lines[1..][i] == lines[i + 1];
      }
    }
  }

  lemma {:induction false} SplitShape(text: string)
    ensures AllWhole(Split(text))
    decreases |text|
  {
    var k := FirstBreak(text);
    if k < |text| {
      SplitShape(text[k + 1..]);
    }
  }

  /** What is read never is empty nor has a break inside. */
  lemma LinesShape(text: string)
    ensures AllWhole(Lines(text)) && "" !in Lines(text)
  {
    SplitShape(text);
    NonEmptyShape(Split(text));
    forall i | 0 <= i < |Lines(text)|
      ensures NoBreak(Lines(text)[i])
    {
      assert Lines(text)[i] in Split(text);
    }
  }

  /** Lines come back as written exactly when every one of them is clean. */
  lemma RoundTripIff(lines: seq<string>)
    ensures Lines(Render(lines)) == lines <==> AllClean(lines)
  {
    if AllWhole(lines) {
      WriteRead(lines);
      NonEmptyShape(Chopped(lines));
      if AllClean(lines) {
        assert Chopped(lines) == lines;
      }
      if NonEmpty(Chopped(lines)) == lines {
        assert Chopped(lines) == lines;
        assert forall i :: 0 <= i < |lines| ==> Chopped(lines)[i] == lines[i];
      }
    } else {
      LinesShape(Render(lines));
    }
  }

  // ---------------------------------------------------------------------------
  // Variables
  // ---------------------------------------------------------------------------

  /** `line.startsWith(key + '=')` */
  predicate Defines(line: string, key: string) {
    key + "=" <= line
  }

  function GetVar(lines: seq<string>, key: string): Option<string> {
    if lines == [] then None
    else if Defines(lines[0], key) then Some(lines[0][|key| + 1..])
    else GetVar(lines[1..], key)
  }

  function Entry(key: string, value: string): string {
    key + "=" + value
  }

  function Replaced(lines: seq<string>, key: string, value: string): seq<string> {
    if lines == [] then []
    else [if Defines(lines[0], key) then Entry(key, value) else lines[0]] + Replaced(lines[1..], key, value)
  }

  function SetVar(lines: seq<string>, key: string, value: string): seq<string> {
    if GetVar(lines, key).Some? then Replaced(lines, key, value) else lines + [Entry(key, value)]
  }

  function RemoveVar(lines: seq<string>, key: string): seq<string> {
    if lines == [] then [] else if Defines(lines[0], key) then RemoveVar(lines[1..], key)
    else [lines[0]] + RemoveVar(lines[1..], key)
  }

  lemma {:induction false} GetVarNone(lines: seq<string>, key: string)
    ensures GetVar(lines, key).None? <==> forall i :: 0 <= i < |lines| ==> !Defines(lines[i], key)
  {
    if lines != [] {
      GetVarNone(lines[1..], key);
      if GetVar(lines, key).None? {
        forall i | 0 <= i < |lines|
          ensures !Defines(lines[i], key)
        {
          if i > 0 { assert lines[i] == lines[1..][i - 1]; }
        }
      } else if !Defines(lines[0], key) {
        var i :| 0 <= i < |lines[1..]| && Defines(lines[1..][i], key);
        assert lines[i + 1] == lines[1..][i];
      }
    }
  }

  lemma ReplacedStep(rest: seq<string>, key: string, value: string, done: seq<string>)
    requires rest != []
    ensures var line := if Defines(rest[0], key) then Entry(key, value) else rest[0];
            done + Replaced(rest, key, value) == (done + [line]) + Replaced(rest[1..], key, value)
  {
  }

  /** `lines.map(…)` with its flag. */
  method MapLines(lines: seq<string>, key: string, value: string) returns (next: seq<string>, found: bool)
    ensures next == Replaced(lines, key, value)
    ensures found <==> GetVar(lines, key).Some?
  {
    found, next := false, [];
    assert lines[0..] == lines;
    for i := 0 to |lines|
      invariant next + Replaced(lines[i..], key, value) == Replaced(lines, key, value)
      invariant GetVar(lines, key).Some? <==> found || GetVar(lines[i..], key).Some?
    {
      ReplacedStep(lines[i..], key, value, next);
      assert lines[i..][1..] == lines[i + 1..];
      if key + "=" <= lines[i] {
        found := true;
        next := next + [key + "=" + value];
      } else {
        next := next + [lines[i]];
      }
    }
    assert lines[|lines|..] == [] && next + [] == next;
  }

  /** The file and the operations on it. A file that is not there reads as no lines. */
  class EnvPatch {
    var text: Option<string>

    function Contents(): seq<string>
      reads this
    {
      if text.None? then [] else Lines(text.value)
    }

    constructor (text: Option<string>)
      ensures this.text == text
    {
      this.text := text;
    }

    method ReadVar(key: string) returns (value: Option<string>)
      ensures value == GetVar(Contents(), key)
    {
      var lines := Contents();
      assert lines[0..] == lines;
      for i := 0 to |lines|
        invariant GetVar(lines, key) == GetVar(lines[i..], key)
      {
        if key + "=" <= lines[i] {
          return Some(lines[i][|key| + 1..]);
        }
        assert lines[i..][1..] == lines[i + 1..];
      }
      return None;
    }

    method WriteVar(key: string, value: string)
      modifies this
      ensures text == Some(Render(SetVar(old(Contents()), key, value)))
    {
      var lines := Contents();
      var next, found := MapLines(lines, key, value);
      if !found {
        GetReplaced(lines, key, value);
        next := next + [key + "=" + value];
      }
      text := Some(Render(next));
    }

    method DeleteVar(key: string)
      modifies this
      ensures text == Some(Render(RemoveVar(old(Contents()), key)))
    {
      var lines := Contents();
      var next: seq<string> := [];
      assert lines[0..] == lines;
      for i := 0 to |lines|
        invariant next + RemoveVar(lines[i..], key) == RemoveVar(lines, key)
      {
        assert lines[i..][1..] == lines[i + 1..];
        if !(key + "=" <= lines[i]) {
          next := next + [lines[i]];
        }
      }
      assert next + [] == next;
      text := Some(Render(next));
    }

    method EnsureVarExists(key: string, value: string)
      modifies this
      ensures GetVar(old(Contents()), key).Some? ==> text == old(text)
      ensures GetVar(old(Contents()), key).None? ==> text == Some(Render(old(Contents()) + [Entry(key, value)]))
    {
      var existing := ReadVar(key);
      if existing.None? {
        WriteVar(key, value);
      }
    }
  }

  // ---------------------------------------------------------------------------
  // The laws of a map, on lines
  // ---------------------------------------------------------------------------

  lemma EntryDefines(key: string, value: string)
    ensures Defines(Entry(key, value), key) && Entry(key, value)[|key| + 1..] == value
  {
    assert Entry(key, value) == (key + "=") + value;
  }

  /** A line defines at most one key without an equals sign. */
  lemma OneKey(line: string, k: string, m: string)
    requires '=' !in k && '=' !in m && Defines(line, k) && Defines(line, m)
    ensures k == m
  {
    assert line[|k|] == (k + "=")[|k|] == '=' && line[|m|] == (m + "=")[|m|] == '=';
    assert |k| == |m| by {
      assert forall i :: 0 <= i < |k| ==> line[i] == k[i];
      assert forall i :: 0 <= i < |m| ==> line[i] == m[i];
    }
    assert k == line[..|k|] && m == line[..|m|];
  }

  lemma {:induction false} GetReplaced(lines: seq<string>, key: string, value: string)
    ensures GetVar(Replaced(lines, key, value), key) == if GetVar(lines, key).Some? then Some(value) else None
    ensures GetVar(lines, key).None? ==> Replaced(lines, key, value) == lines
  {
    if lines != [] {
      GetReplaced(lines[1..], key, value);
      EntryDefines(key, value);
      assert lines == [lines[0]] + lines[1..];
    }
  }

  lemma {:induction false} GetAppend(lines: seq<string>, more: seq<string>, key: string)
    ensures GetVar(lines + more, key) == if GetVar(lines, key).Some? then GetVar(lines, key) else GetVar(more, key)
  {
    if lines == [] {
      assert lines + more == more;
    } else {
      GetAppend(lines[1..], more, key);
      assert (lines + more)[1..] == lines[1..] + more;
    }
  }

  lemma GetSet(lines: seq<string>, key: string, value: string)
    ensures GetVar(SetVar(lines, key, value), key) == Some(value)
  {
    GetReplaced(lines, key, value);
    GetAppend(lines, [Entry(key, value)], key);
    EntryDefines(key, value);
  }

  lemma {:induction false} ReplaceTwice(lines: seq<string>, key: string, value: string, other: string)
    ensures Replaced(Replaced(lines, key, value), key, other) == Replaced(lines, key, other)
  {
    if lines != [] {
      ReplaceTwice(lines[1..], key, value, other);
      EntryDefines(key, value);
    }
  }

  lemma {:induction false} ReplaceAppend(lines: seq<string>, more: seq<string>, key: string, value: string)
    ensures Replaced(lines + more, key, value) == Replaced(lines, key, value) + Replaced(more, key, value)
  {
    if lines == [] {
      assert lines + more == more;
    } else {
      ReplaceAppend(lines[1..], more, key, value);
      assert (lines + more)[1..] == lines[1..] + more;
      Regroup([if Defines(lines[0], key) then Entry(key, value) else lines[0]], Replaced(lines[1..], key, value),
              Replaced(more, key, value));
    }
  }

  /** The last write wins, and leaves no trace of the one before. */
  lemma SetSet(lines: seq<string>, key: string, value: string, other: string)
    ensures SetVar(SetVar(lines, key, value), key, other) == SetVar(lines, key, other)
  {
    GetSet(lines, key, value);
    if GetVar(lines, key).Some? {
      ReplaceTwice(lines, key, value, other);
    } else {
      ReplaceAppend(lines, [Entry(key, value)], key, other);
      GetReplaced(lines, key, other);
      EntryDefines(key, value);
      assert [Entry(key, value)][1..] == [];
    }
  }

  lemma {:induction false} GetRemove(lines: seq<string>, key: string)
    ensures GetVar(RemoveVar(lines, key), key).None?
    ensures RemoveVar(lines, key) == lines <==> GetVar(lines, key).None?
    ensures |RemoveVar(lines, key)| <= |lines|
  {
    if lines != [] {
      GetRemove(lines[1..], key);
      assert lines == [lines[0]] + lines[1..];
    }
  }

  lemma {:induction false} RemoveAppend(lines: seq<string>, more: seq<string>, key: string)
    ensures RemoveVar(lines + more, key) == RemoveVar(lines, key) + RemoveVar(more, key)
  {
    if lines == [] {
      assert lines + more == more;
    } else {
      RemoveAppend(lines[1..], more, key);
      assert (lines + more)[1..] == lines[1..] + more;
      Regroup([lines[0]], RemoveVar(lines[1..], key), RemoveVar(more, key));
    }
  }

  /** Removing what was set gives the lines back exactly when the key was new. */
  lemma RemoveUndoesSetIff(lines: seq<string>, key: string, value: string)
    ensures RemoveVar(SetVar(lines, key, value), key) == lines <==> GetVar(lines, key).None?
  {
    GetRemove(lines, key);
    GetRemove(SetVar(lines, key, value), key);
    if GetVar(lines, key).None? {
      RemoveAppend(lines, [Entry(key, value)], key);
      EntryDefines(key, value);
      assert [Entry(key, value)][1..] == [];
    }
  }

  /** Other keys, and lines that define none, keep their places and values. */
  lemma {:induction false} OtherKeys(lines: seq<string>, key: string, value: string, other: string)
    requires '=' !in key && '=' !in other && key != other
    ensures GetVar(Replaced(lines, key, value), other) == GetVar(lines, other)
    ensures GetVar(RemoveVar(lines, key), other) == GetVar(lines, other)
    ensures GetVar(SetVar(lines, key, value), other) == GetVar(lines, other)
  {
    EntryDefines(key, value);
    if Defines(Entry(key, value), other) { OneKey(Entry(key, value), key, other); }
    GetAppend(lines, [Entry(key, value)], other);
    if lines != [] {
      OtherKeys(lines[1..], key, value, other);
      if Defines(lines[0], key) && Defines(lines[0], other) { OneKey(lines[0], key, other); }
    }
  }

  // ---------------------------------------------------------------------------
  // The laws, through the file
  // ---------------------------------------------------------------------------

  /** What reading gives after lines were written. */
  function Through(lines: seq<string>): seq<string> {
    Lines(Render(lines))
  }

  lemma ChopKeepsKey(line: string, key: string)
    ensures Defines(Chop(line), key) <==> Defines(line, key)
    ensures Defines(line, key) ==> Chop(line)[|key| + 1..] == Chop(line[|key| + 1..])
  {
    var prefix := key + "=";
    if Defines(line, key) {
      assert line[|key|] == prefix[|key|] == '=';
      if Chop(line) != line {
        assert |line| > |prefix|;
        assert Chop(line)[..|prefix|] == line[..|prefix|];
        assert line[|key| + 1..][..|line| - |key| - 2] == Chop(line)[|key| + 1..];
      }
    }
    if Defines(Chop(line), key) {
      assert line[..|prefix|] == Chop(line)[..|prefix|];
    }
  }

  lemma {:induction false} GetNonEmptyChopped(lines: seq<string>, key: string)
    ensures GetVar(NonEmpty(Chopped(lines)), key)
            == match GetVar(lines, key) case None => None case Some(v) => Some(Chop(v))
  {
    if lines != [] {
      GetNonEmptyChopped(lines[1..], key);
      ChopKeepsKey(lines[0], key);
      assert Chopped(lines)[1..] == Chopped(lines[1..]);
      NonEmptyAppend([Chop(lines[0])], Chopped(lines[1..]));
      assert Chopped(lines) == [Chop(lines[0])] + Chopped(lines[1..]);
      GetAppend(NonEmpty([Chop(lines[0])]), NonEmpty(Chopped(lines[1..])), key);
      assert [Chop(lines[0])][1..] == [];
    }
  }

  /** Every value passes through the file up to one carriage return at its end. */
  lemma GetThrough(lines: seq<string>, key: string)
    requires AllWhole(lines)
    ensures GetVar(Through(lines), key) == match GetVar(lines, key) case None => None case Some(v) => Some(Chop(v))
  {
    WriteRead(lines);
    GetNonEmptyChopped(lines, key);
  }

  lemma {:induction false} GetIsWhole(lines: seq<string>, key: string)
    requires AllWhole(lines)
    ensures GetVar(lines, key).Some? ==> NoBreak(GetVar(lines, key).value)
  {
    if lines != [] {
      assert AllWhole(lines[1..]);
      GetIsWhole(lines[1..], key);
    }
  }

  lemma {:induction false} ReplacedWhole(lines: seq<string>, key: string, value: string)
    requires AllWhole(lines) && NoBreak(Entry(key, value))
    ensures AllWhole(Replaced(lines, key, value))
  {
    if lines != [] {
      ReplacedWhole(lines[1..], key, value);
    }
  }

  lemma SetWhole(lines: seq<string>, key: string, value: string)
    requires AllWhole(lines) && NoBreak(key) && NoBreak(value)
    ensures AllWhole(SetVar(lines, key, value))
  {
    assert NoBreak(Entry(key, value));
    ReplacedWhole(lines, key, value);
  }

  /** A value written to a file is read back exactly when it has no line break and does not end in a carriage return. */
  lemma GetSetFileIff(text: string, key: string, value: string)
    requires NoBreak(key)
    ensures GetVar(Through(SetVar(Lines(text), key, value)), key) == Some(value)
            <==> NoBreak(value) && Chop(value) == value
  {
    var lines := Lines(text);
    LinesShape(text);
    GetSet(lines, key, value);
    if NoBreak(value) {
      SetWhole(lines, key, value);
      GetThrough(SetVar(lines, key, value), key);
    } else {
      LinesShape(Render(SetVar(lines, key, value)));
      GetIsWhole(Through(SetVar(lines, key, value)), key);
    }
  }

  /** Writing one key leaves every other as it was, but for a carriage return at the end of its value. */
  lemma OtherKeysFile(text: string, key: string, value: string, other: string)
    requires '=' !in key && '=' !in other && key != other && NoBreak(key) && NoBreak(value)
    ensures GetVar(Through(SetVar(Lines(text), key, value)), other)
            == match GetVar(Lines(text), other) case None => None case Some(v) => Some(Chop(v))
  {
    LinesShape(text);
    SetWhole(Lines(text), key, value);
    GetThrough(SetVar(Lines(text), key, value), other);
    OtherKeys(Lines(text), key, value, other);
  }

  lemma {:induction false} ReplacedClean(lines: seq<string>, key: string, value: string)
    requires AllClean(lines) && Clean(Entry(key, value))
    ensures AllClean(Replaced(lines, key, value))
  {
    if lines != [] {
      ReplacedClean(lines[1..], key, value);
    }
  }

  lemma SetKeepsClean(lines: seq<string>, key: string, value: string)
    requires AllClean(lines) && NoBreak(key) && NoBreak(value) && Chop(value) == value
    ensures AllClean(SetVar(lines, key, value))
  {
    var e := Entry(key, value);
    assert NoBreak(e);
    assert Chop(e) == e by {
      if value == "" { assert e[|e| - 1] == '='; } else { assert e[|e| - 1] == value[|value| - 1]; }
    }
    ReplacedClean(lines, key, value);
  }

  /**
    A value with a line break is not taken back by removing its key: what follows the break stays as a line of its own.
   */
  lemma BrokenValueLeavesItsTail(lines: seq<string>, key: string, head: string, tail: string)
    requires AllClean(lines) && NoBreak(key) && '=' !in key && GetVar(lines, key).None?
    requires NoBreak(head) && Chop(head) == head && Clean(tail) && !Defines(tail, key)
    ensures Through(RemoveVar(Through(SetVar(lines, key, head + "\n" + tail)), key)) == lines + [tail]
  {
    var whole := lines + [Entry(key, head)] + [tail];
    assert Entry(key, head + "\n" + tail) == Entry(key, head) + "\n" + tail;
    RenderJoins(lines, Entry(key, head), tail);
    assert lines + [Entry(key, head), tail] == whole;
    SetKeepsClean(lines, key, head);
    assert AllClean(whole);
    RoundTripIff(whole);
    RemoveAppend(lines + [Entry(key, head)], [tail], key);
    RemoveUndoesSetIff(lines, key, head);
    assert RemoveVar([tail], key) == [tail] by { assert [tail][1..] == []; }
    RoundTripIff(lines + [tail]);
  }

  lemma {:induction false} RenderJoins(lines: seq<string>, a: string, b: string)
    ensures Render(lines + [a + "\n" + b]) == Render(lines + [a, b])
  {
    if lines == [] {
      assert [a, b][1..] == [b];
      assert lines + [a + "\n" + b] == [a + "\n" + b] && lines + [a, b] == [a, b];
    } else {
      RenderJoins(lines[1..], a, b);
      assert (lines + [a + "\n" + b])[1..] == lines[1..] + [a + "\n" + b];
      assert (lines + [a, b])[1..] == lines[1..] + [a, b];
    }
  }
}
