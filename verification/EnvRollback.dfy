/** Taking variables back out of the `.env` file: when its lines are as before, for every file and every value. */
module EnvRollback {
  import opened Prelude
  import opened EnvFile

  // ---------------------------------------------------------------------------
  // Through the file, line by line
  // ---------------------------------------------------------------------------

  /** A text cut at its line breaks; carriage returns stay. */
  function Pieces(text: string): (r: seq<string>)
    ensures r != []
    decreases |text|
  {
    var i := FirstBreak(text);
    if i == |text| then [text] else [text[..i]] + Pieces(text[i + 1..])
  }

  lemma {:induction false} PiecesWhole(text: string)
    ensures AllWhole(Pieces(text))
    decreases |text|
  {
    var i := FirstBreak(text);
    if i < |text| {
      PiecesWhole(text[i + 1..]);
    }
  }

  lemma CutAtBreak(a: string, rest: string)
    requires FirstBreak(a) < |a|
    ensures var head, tail := a[..FirstBreak(a)], a[FirstBreak(a) + 1..];
            NoBreak(head) && a + "\n" + rest == head + "\n" + (tail + "\n" + rest)
  {
  }

  lemma {:induction false} SplitText(a: string, rest: string)
    ensures Split(a + "\n" + rest) == Chopped(Pieces(a)) + Split(rest)
    decreases |a|
  {
    var i := FirstBreak(a);
    if i == |a| {
      SplitOne(a, rest);
      assert Pieces(a) == [a] && Chopped([a]) == [Chop(a)];
    } else {
      CutAtBreak(a, rest);
      SplitText(a[i + 1..], rest);
      SplitTextStep(a[..i], a[i + 1..], rest);
    }
  }

  lemma SplitTextStep(head: string, tail: string, rest: string)
    requires NoBreak(head) && Split(tail + "\n" + rest) == Chopped(Pieces(tail)) + Split(rest)
    ensures Split(head + "\n" + (tail + "\n" + rest)) == Chopped([head] + Pieces(tail)) + Split(rest)
  {
    SplitOne(head, tail + "\n" + rest);
    ChoppedFirst(head, Pieces(tail));
    Regroup([Chop(head)], Chopped(Pieces(tail)), Split(rest));
  }

  /** A line written with others is read back as its pieces, chopped, empty ones dropped. */
  lemma ThroughFirst(line: string, rest: seq<string>)
    ensures Through([line] + rest) == NonEmpty(Chopped(Pieces(line))) + Through(rest)
  {
    var lines := [line] + rest;
    var tail := if rest == [] then "" else Render(rest);
    assert lines[1..] == rest;
    assert Render(lines) == line + "\n" + tail;
    SplitText(line, tail);
    NonEmptyAppend(Chopped(Pieces(line)), Split(tail));
    if rest == [] {
      SplitEmpty();
      WriteRead([]);
    }
  }

  lemma {:induction false} ThroughAppend(a: seq<string>, b: seq<string>)
    ensures Through(a + b) == Through(a) + Through(b)
  {
    if a == [] {
      assert a + b == b;
      WriteRead([]);
    } else {
      assert a == [a[0]] + a[1..] && a + b == [a[0]] + (a[1..] + b);
      ThroughFirst(a[0], a[1..] + b);
      ThroughFirst(a[0], a[1..]);
      ThroughAppend(a[1..], b);
      Regroup(NonEmpty(Chopped(Pieces(a[0]))), Through(a[1..]), Through(b));
    }
  }

  lemma ThroughPieces(line: string)
    ensures Through([line]) == NonEmpty(Chopped(Pieces(line))) == Through(Pieces(line))
  {
    ThroughFirst(line, []);
    assert [line] + [] == [line];
    WriteRead([]);
    PiecesWhole(line);
    WriteRead(Pieces(line));
  }

  lemma ThroughWhole(line: string)
    requires NoBreak(line)
    ensures Through([line]) == if Chop(line) == "" then [] else [Chop(line)]
  {
    ThroughPieces(line);
    assert FirstBreak(line) == |line|;
    assert Chopped([line]) == [Chop(line)] && [Chop(line)][1..] == [];
  }

  // ---------------------------------------------------------------------------
  // Taking keys out again
  // ---------------------------------------------------------------------------

  /** Lines written, and then each key removed, every time through the file. */
  function TakenOut(lines: seq<string>, keys: seq<string>): seq<string>
    decreases |keys|
  {
    if keys == [] then Through(lines) else TakenOut(RemoveVar(Through(lines), keys[0]), keys[1..])
  }

  lemma {:induction false} TakenOutAppend(a: seq<string>, b: seq<string>, keys: seq<string>)
    ensures TakenOut(a + b, keys) == TakenOut(a, keys) + TakenOut(b, keys)
    decreases |keys|
  {
    ThroughAppend(a, b);
    if keys != [] {
      RemoveAppend(Through(a), Through(b), keys[0]);
      TakenOutAppend(RemoveVar(Through(a), keys[0]), RemoveVar(Through(b), keys[0]), keys[1..]);
    }
  }

  lemma {:induction false} TakenOutEmpty(keys: seq<string>)
    ensures TakenOut([], keys) == []
    decreases |keys|
  {
    WriteRead([]);
    if keys != [] { TakenOutEmpty(keys[1..]); }
  }

  function Chops(n: nat, line: string): string {
    if n == 0 then line else Chops(n - 1, Chop(line))
  }

  predicate DefinesAny(line: string, keys: seq<string>) {
    exists key :: key in keys && Defines(line, key)
  }

  lemma DefinesFirst(line: string, keys: seq<string>)
    requires keys != []
    ensures DefinesAny(line, keys) <==> Defines(line, keys[0]) || DefinesAny(line, keys[1..])
  {
    assert keys == [keys[0]] + keys[1..];
  }

  lemma DefinesChopped(line: string, keys: seq<string>)
    ensures DefinesAny(Chop(line), keys) <==> DefinesAny(line, keys)
  {
    forall key | key in keys
      ensures Defines(Chop(line), key) <==> Defines(line, key)
    {
      ChopKeepsKey(line, key);
    }
  }

  lemma {:induction false} EmptyStaysEmpty(n: nat)
    ensures Chops(n, "") == ""
  {
    if n > 0 { EmptyStaysEmpty(n - 1); }
  }

  lemma RemoveFromOne(line: string, key: string)
    ensures RemoveVar([line], key) == if Defines(line, key) then [] else [line]
  {
    assert [line][1..] == [];
  }

  lemma LineStep(line: string, keys: seq<string>)
    requires NoBreak(line) && keys != []
    ensures TakenOut([line], keys)
            == if Chop(line) == "" || Defines(line, keys[0]) then [] else TakenOut([Chop(line)], keys[1..])
  {
    ThroughWhole(line);
    ChopKeepsKey(line, keys[0]);
    RemoveFromOne(Chop(line), keys[0]);
    TakenOutEmpty(keys[1..]);
  }

  /** What chopping `n` times leaves of the lines that define none of the keys; what is empty by then is dropped. */
  function Left(lines: seq<string>, keys: seq<string>, n: nat): seq<string> {
    if lines == [] then []
    else if DefinesAny(lines[0], keys) || Chops(n, lines[0]) == "" then Left(lines[1..], keys, n)
    else [Chops(n, lines[0])] + Left(lines[1..], keys, n)
  }

  lemma LeftOne(line: string, keys: seq<string>, n: nat)
    ensures Left([line], keys, n) == if DefinesAny(line, keys) || Chops(n, line) == "" then [] else [Chops(n, line)]
  {
    assert [line][1..] == [];
  }

  lemma LeftFirst(line: string, rest: seq<string>, keys: seq<string>, n: nat)
    ensures Left([line] + rest, keys, n) == Left([line], keys, n) + Left(rest, keys, n)
  {
    LeftOne(line, keys, n);
    assert ([line] + rest)[1..] == rest;
  }

  lemma OneChopLeft(line: string)
    requires NoBreak(line)
    ensures TakenOut([line], []) == Left([line], [], 1)
  {
    ThroughWhole(line);
    LeftOne(line, [], 1);
    assert Chops(1, line) == Chops(0, Chop(line)) == Chop(line);
  }

  lemma LineLeftStep(line: string, keys: seq<string>)
    requires NoBreak(line) && keys != []
    requires TakenOut([Chop(line)], keys[1..]) == Left([Chop(line)], keys[1..], |keys|)
    ensures TakenOut([line], keys) == Left([line], keys, |keys| + 1)
  {
    LineStep(line, keys);
    DefinesFirst(line, keys);
    DefinesChopped(line, keys[1..]);
    EmptyStaysEmpty(|keys|);
    LeftOne(line, keys, |keys| + 1);
    LeftOne(Chop(line), keys[1..], |keys|);
  }

  /**
    Of a line without a break, one chop is left for each key and one for the first writing, unless it defines a key.
   */
  lemma {:induction false} LineLeft(line: string, keys: seq<string>)
    requires NoBreak(line)
    ensures TakenOut([line], keys) == Left([line], keys, |keys| + 1)
    decreases |keys|
  {
    if keys == [] {
      OneChopLeft(line);
    } else {
      LineLeft(Chop(line), keys[1..]);
      LineLeftStep(line, keys);
    }
  }

  lemma {:induction false} LinesLeft(lines: seq<string>, keys: seq<string>)
    requires AllWhole(lines)
    ensures TakenOut(lines, keys) == Left(lines, keys, |keys| + 1)
    decreases |lines|
  {
    if lines == [] {
      TakenOutEmpty(keys);
    } else {
      assert lines == [lines[0]] + lines[1..];
      TakenOutAppend([lines[0]], lines[1..], keys);
      LineLeft(lines[0], keys);
      LinesLeft(lines[1..], keys);
      LeftFirst(lines[0], lines[1..], keys, |keys| + 1);
    }
  }

  lemma ReadLineLeft(line: string, keys: seq<string>)
    requires NoBreak(line)
    ensures TakenOut(NonEmpty([Chop(line)]), keys) == Left([line], keys, |keys| + 2)
  {
    assert [Chop(line)][1..] == [];
    LeftOne(line, keys, |keys| + 2);
    EmptyStaysEmpty(|keys| + 1);
    if Chop(line) == "" {
      TakenOutEmpty(keys);
    } else {
      LineLeft(Chop(line), keys);
      LeftOne(Chop(line), keys, |keys| + 1);
      DefinesChopped(line, keys);
    }
  }

  /** The same for lines that have been through the file once before: one chop more. */
  lemma {:induction false} ReadLeft(lines: seq<string>, keys: seq<string>)
    requires AllWhole(lines)
    ensures TakenOut(Through(lines), keys) == Left(lines, keys, |keys| + 2)
    decreases |lines|
  {
    WriteRead(lines);
    if lines == [] {
      TakenOutEmpty(keys);
    } else {
      var head, rest := lines[0], lines[1..];
      assert lines == [head] + rest;
      ChoppedFirst(head, rest);
      NonEmptyAppend([Chop(head)], Chopped(rest));
      TakenOutAppend(NonEmpty([Chop(head)]), NonEmpty(Chopped(rest)), keys);
      ReadLineLeft(head, keys);
      WriteRead(rest);
      ReadLeft(rest, keys);
      LeftFirst(head, rest, keys, |keys| + 2);
    }
  }

  /** What follows the first line break of a value, as it is left after so many chops. */
  function Leftover(value: string, keys: seq<string>, n: nat): seq<string> {
    Left(Pieces(value)[1..], keys, n)
  }

  /** A value leaves nothing exactly when every later piece is as few carriage returns, or defines one of the keys. */
  lemma LeavesNothingIff(value: string, keys: seq<string>, n: nat)
    ensures Leftover(value, keys, n) == []
            <==> forall piece :: piece in Pieces(value)[1..] ==> Chops(n, piece) == "" || DefinesAny(piece, keys)
  {
    NothingLeftIff(Pieces(value)[1..], keys, n);
  }

  lemma {:induction false} NothingLeftIff(lines: seq<string>, keys: seq<string>, n: nat)
    ensures Left(lines, keys, n) == []
            <==> forall line :: line in lines ==> Chops(n, line) == "" || DefinesAny(line, keys)
    decreases |lines|
  {
    if lines != [] {
      assert lines == [lines[0]] + lines[1..];
      NothingLeftIff(lines[1..], keys, n);
    }
  }

  lemma BreakOfEntry(key: string, value: string)
    requires NoBreak(key)
    ensures FirstBreak(Entry(key, value)) == |key| + 1 + FirstBreak(value) && |Entry(key, value)| == |key| + 1 + |value|
  {
    var e, i, n := Entry(key, value), FirstBreak(value), |key| + 1;
    assert forall j :: 0 <= j < n ==> e[j] == (key + "=")[j] != '\n';
    assert forall j :: n <= j < |e| ==> e[j] == value[j - n];
    var b := FirstBreak(e);
    assert b >= n;
    assert forall j :: n <= j < n + i ==> e[j] != '\n';
    assert b >= n + i;
    if i < |value| { assert e[n + i] == '\n'; }
  }

  lemma CutEntry(key: string, value: string, i: nat)
    requires i < |value|
    ensures |Entry(key, value)| > |key| + 1 + i
    ensures Entry(key, value)[..|key| + 1 + i] == Entry(key, value[..i])
    ensures Entry(key, value)[|key| + 1 + i + 1..] == value[i + 1..]
  {
  }

  lemma PiecesOfEntry(key: string, value: string)
    requires NoBreak(key)
    ensures Pieces(Entry(key, value)) == [Entry(key, Pieces(value)[0])] + Pieces(value)[1..]
  {
    BreakOfEntry(key, value);
    var i := FirstBreak(value);
    if i < |value| { CutEntry(key, value, i); }
  }

  lemma SamePieces(line: string, keys: seq<string>)
    ensures TakenOut([line], keys) == TakenOut(Pieces(line), keys)
  {
    ThroughPieces(line);
  }

  /** What is left of a line, piece by piece. */
  function LeftOf(line: string, keys: seq<string>, n: nat): seq<string> {
    Left(Pieces(line), keys, n)
  }

  lemma PiecesLeft(key: string, value: string, keys: seq<string>, n: nat)
    requires NoBreak(key) && key in keys
    ensures LeftOf(Entry(key, value), keys, n) == Leftover(value, keys, n)
  {
    var first := Entry(key, Pieces(value)[0]);
    PiecesOfEntry(key, value);
    EntryDefines(key, Pieces(value)[0]);
    LeftOne(first, keys, n);
    LeftFirst(first, Pieces(value)[1..], keys, n);
  }

  function LineOut(line: string, keys: seq<string>): seq<string> {
    TakenOut([line], keys)
  }

  function ReadLineOut(line: string, keys: seq<string>): seq<string> {
    TakenOut(Through([line]), keys)
  }

  lemma WrittenLeft(line: string, keys: seq<string>)
    ensures LineOut(line, keys) == LeftOf(line, keys, |keys| + 1)
  {
    SamePieces(line, keys);
    PiecesWhole(line);
    LinesLeft(Pieces(line), keys);
  }

  lemma ReadBackLeft(line: string, keys: seq<string>)
    ensures ReadLineOut(line, keys) == LeftOf(line, keys, |keys| + 2)
  {
    ThroughPieces(line);
    PiecesWhole(line);
    ReadLeft(Pieces(line), keys);
  }

  /** A variable is taken out up to what its value leaves, written or read back once. */
  lemma EntryLeft(key: string, value: string, keys: seq<string>)
    requires NoBreak(key) && key in keys
    ensures LineOut(Entry(key, value), keys) == Leftover(value, keys, |keys| + 1)
    ensures ReadLineOut(Entry(key, value), keys) == Leftover(value, keys, |keys| + 2)
  {
    PiecesLeft(key, value, keys, |keys| + 1);
    WrittenLeft(Entry(key, value), keys);
    PiecesLeft(key, value, keys, |keys| + 2);
    ReadBackLeft(Entry(key, value), keys);
  }

  // ---------------------------------------------------------------------------
  // The lines that were there before
  // ---------------------------------------------------------------------------

  function Weight(lines: seq<string>): nat {
    if lines == [] then 0 else |lines[0]| + 1 + Weight(lines[1..])
  }

  lemma {:induction false} WeightRemoved(lines: seq<string>, key: string)
    ensures Weight(RemoveVar(lines, key)) <= Weight(lines)
  {
    if lines != [] {
      WeightRemoved(lines[1..], key);
    }
  }

  lemma {:induction false} WeightRead(lines: seq<string>)
    ensures Weight(NonEmpty(Chopped(lines))) <= Weight(lines)
    ensures Weight(NonEmpty(Chopped(lines))) == Weight(lines) ==> NonEmpty(Chopped(lines)) == lines
  {
    if lines != [] {
      WeightRead(lines[1..]);
      assert Chopped(lines)[1..] == Chopped(lines[1..]);
      assert lines == [lines[0]] + lines[1..];
    }
  }

  lemma {:induction false} WeightTakenOut(lines: seq<string>, keys: seq<string>)
    requires AllWhole(lines)
    ensures Weight(TakenOut(lines, keys)) <= Weight(Through(lines)) <= Weight(lines)
    ensures Weight(Through(lines)) == Weight(lines) ==> Through(lines) == lines
    decreases |keys|
  {
    WriteRead(lines);
    WeightRead(lines);
    if keys != [] {
      var rest := RemoveVar(Through(lines), keys[0]);
      LinesShape(Render(lines));
      RemovedWhole(Through(lines), keys[0]);
      WeightRemoved(Through(lines), keys[0]);
      WeightTakenOut(rest, keys[1..]);
    }
  }

  lemma {:induction false} RemovedWhole(lines: seq<string>, key: string)
    requires AllWhole(lines)
    ensures AllWhole(RemoveVar(lines, key))
  {
    if lines != [] {
      RemovedWhole(lines[1..], key);
    }
  }

  ghost predicate NoneDefined(lines: seq<string>, keys: seq<string>) {
    forall key :: key in keys ==> GetVar(lines, key).None?
  }

  lemma {:induction false} CleanKept(lines: seq<string>, keys: seq<string>)
    requires AllClean(lines) && NoneDefined(lines, keys)
    ensures TakenOut(lines, keys) == lines
    decreases |keys|
  {
    RoundTripIff(lines);
    if keys != [] {
      GetRemove(lines, keys[0]);
      CleanKept(lines, keys[1..]);
    }
  }

  /** Lines that define none of the keys are as before exactly when they are clean. */
  lemma KeptIff(lines: seq<string>, keys: seq<string>)
    requires AllWhole(lines) && NoneDefined(lines, keys)
    ensures TakenOut(lines, keys) == lines <==> AllClean(lines)
    ensures TakenOut(Through(lines), keys) == lines <==> AllClean(lines)
  {
    RoundTripIff(lines);
    WeightTakenOut(lines, keys);
    LinesShape(Render(lines));
    WeightTakenOut(Through(lines), keys);
    if AllClean(lines) { CleanKept(lines, keys); }
  }

  lemma {:induction false} RemoveKeepsNone(lines: seq<string>, key: string, other: string)
    requires GetVar(lines, other).None?
    ensures GetVar(RemoveVar(lines, key), other).None?
  {
    if lines != [] {
      RemoveKeepsNone(lines[1..], key, other);
    }
  }

  lemma {:induction false} StaysOut(lines: seq<string>, keys: seq<string>, key: string)
    requires AllWhole(lines) && GetVar(lines, key).None?
    ensures GetVar(TakenOut(lines, keys), key).None?
    decreases |keys|
  {
    GetThrough(lines, key);
    if keys != [] {
      LinesShape(Render(lines));
      RemovedWhole(Through(lines), keys[0]);
      RemoveKeepsNone(Through(lines), keys[0], key);
      StaysOut(RemoveVar(Through(lines), keys[0]), keys[1..], key);
    }
  }

  /** What was taken out is not there, whatever was there before. */
  lemma {:induction false} TakenOutIsOut(lines: seq<string>, keys: seq<string>, key: string)
    requires key in keys
    ensures GetVar(TakenOut(lines, keys), key).None?
    decreases |keys|
  {
    var rest := RemoveVar(Through(lines), keys[0]);
    if key == keys[0] {
      GetRemove(Through(lines), key);
      LinesShape(Render(lines));
      RemovedWhole(Through(lines), key);
      StaysOut(rest, keys[1..], key);
    } else {
      TakenOutIsOut(rest, keys[1..], key);
    }
  }

  // ---------------------------------------------------------------------------
  // Rollback
  // ---------------------------------------------------------------------------

  /** One variable set and removed again. */
  function RolledBack(lines: seq<string>, k: string, v: string): seq<string> {
    TakenOut(SetVar(lines, k, v), [k])
  }

  /** Two variables set and removed again. */
  function BothRolledBack(lines: seq<string>, k: string, v: string, m: string, w: string): seq<string> {
    TakenOut(SetVar(Through(SetVar(lines, k, v)), m, w), [k, m])
  }

  lemma RollbackSteps(lines: seq<string>, k: string, v: string, m: string, w: string)
    ensures RolledBack(lines, k, v) == Through(RemoveVar(Through(SetVar(lines, k, v)), k))
    ensures var set2 := Through(SetVar(Through(SetVar(lines, k, v)), m, w));
            BothRolledBack(lines, k, v, m, w) == Through(RemoveVar(Through(RemoveVar(set2, k)), m))
  {
    assert [k][1..] == [] && [k, m][1..] == [m] && [m][1..] == [];
    var set2 := SetVar(Through(SetVar(lines, k, v)), m, w);
    assert TakenOut(set2, [k, m]) == TakenOut(RemoveVar(Through(set2), k), [m]);
    assert TakenOut(RemoveVar(Through(set2), k), [m])
           == TakenOut(RemoveVar(Through(RemoveVar(Through(set2), k)), m), []);
    assert TakenOut(SetVar(lines, k, v), [k]) == TakenOut(RemoveVar(Through(SetVar(lines, k, v)), k), []);
  }

  /** What chopping leaves of lines, whatever they define. */
  function Survivors(lines: seq<string>, n: nat): seq<string> {
    Left(lines, [], n)
  }

  lemma {:induction false} NewKeysLeft(lines: seq<string>, keys: seq<string>, n: nat)
    requires NoneDefined(lines, keys)
    ensures Left(lines, keys, n) == Survivors(lines, n)
    decreases |lines|
  {
    if lines != [] {
      forall key | key in keys
        ensures !Defines(lines[0], key) && GetVar(lines[1..], key).None?
      {
        assert GetVar(lines, key).None?;
      }
      NewKeysLeft(lines[1..], keys, n);
    }
  }

  /** No line is so few carriage returns that chopping leaves nothing of it. */
  predicate NoneVanish(lines: seq<string>, n: nat) {
    forall line :: line in lines ==> Chops(n, line) != ""
  }

  lemma {:induction false} SurvivorsCount(lines: seq<string>, n: nat)
    requires NoneVanish(lines, n)
    ensures |Survivors(lines, n)| == |lines|
    decreases |lines|
  {
    if lines != [] {
      assert lines == [lines[0]] + lines[1..];
      assert forall line :: line in lines[1..] ==> line in lines;
      SurvivorsCount(lines[1..], n);
    }
  }

  /** Survivors and a leftover together are the lines as before: only by themselves, unless a line vanishes. */
  lemma Apart(lines: seq<string>, n: nat, left: seq<string>)
    requires NoneVanish(lines, n) || left == []
    ensures lines == Survivors(lines, n) + left <==> lines == Survivors(lines, n) && left == []
  {
    if NoneVanish(lines, n) { SurvivorsCount(lines, n); }
  }

  /**
    One variable, set and removed again, on any file and with any value. The lines are back exactly when the key was new
    and they are what chopping them twice leaves, followed by what the value leaves. Unless a line vanishes and the
    value leaves something, that is: when the lines were clean, the key was new, and the value leaves nothing.
   */
  lemma OneRollbackIff(text: string, k: string, v: string)
    requires NoBreak(k)
    ensures RolledBack(Lines(text), k, v) == Lines(text)
            <==> GetVar(Lines(text), k).None? && Lines(text) == Survivors(Lines(text), 2) + Leftover(v, [k], 2)
    ensures NoneVanish(Lines(text), 2) || Leftover(v, [k], 2) == [] ==>
              (RolledBack(Lines(text), k, v) == Lines(text)
               <==> AllClean(Lines(text)) && GetVar(Lines(text), k).None? && Leftover(v, [k], 2) == [])
  {
    var lines, keys := Lines(text), [k];
    LinesShape(text);
    TakenOutIsOut(SetVar(lines, k, v), keys, k);
    if GetVar(lines, k).None? {
      TakenOutAppend(lines, [Entry(k, v)], keys);
      EntryLeft(k, v, keys);
      LinesLeft(lines, keys);
      NewKeysLeft(lines, keys, 2);
      KeptIff(lines, keys);
      if NoneVanish(lines, 2) || Leftover(v, keys, 2) == [] { Apart(lines, 2, Leftover(v, keys, 2)); }
    }
  }

  /** The pieces of a value with every line of `m` replaced, after so many chops. */
  function Spread(pieces: seq<string>, m: string, left: seq<string>, keys: seq<string>, n: nat): seq<string> {
    if pieces == [] then []
    else (if Defines(pieces[0], m) then left else Left([pieces[0]], keys, n)) + Spread(pieces[1..], m, left, keys, n)
  }

  /** What two variables leave behind in a file: the second also replaces whatever the first value says of its key. */
  function BothLeft(k: string, v: string, m: string, w: string): seq<string> {
    var keys, pieces := [k, m], Pieces(Entry(k, v));
    Spread(pieces, m, Leftover(w, keys, 3), keys, 4) + if GetVar(pieces, m).Some? then [] else Leftover(w, keys, 3)
  }

  lemma {:induction false} SpreadEmptyIff(pieces: seq<string>, m: string, left: seq<string>, keys: seq<string>, n: nat)
    requires m in keys
    ensures Spread(pieces, m, left, keys, n) == []
            <==> Left(pieces, keys, n) == [] && (GetVar(pieces, m).Some? ==> left == [])
    ensures GetVar(pieces, m).None? ==> Spread(pieces, m, left, keys, n) == Left(pieces, keys, n)
    decreases |pieces|
  {
    if pieces != [] {
      assert pieces == [pieces[0]] + pieces[1..];
      SpreadEmptyIff(pieces[1..], m, left, keys, n);
      LeftOne(pieces[0], keys, n);
      LeftFirst(pieces[0], pieces[1..], keys, n);
    }
  }

  lemma BothLeaveNothingIff(k: string, v: string, m: string, w: string)
    requires NoBreak(k)
    ensures BothLeft(k, v, m, w) == [] <==> Leftover(v, [k, m], 4) == [] && Leftover(w, [k, m], 3) == []
  {
    SpreadEmptyIff(Pieces(Entry(k, v)), m, Leftover(w, [k, m], 3), [k, m], 4);
    PiecesLeft(k, v, [k, m], 4);
  }

  lemma ReplacedOne(line: string, m: string, w: string, keys: seq<string>)
    requires NoBreak(line) && NoBreak(m) && m in keys
    ensures TakenOut(Replaced(NonEmpty([Chop(line)]), m, w), keys)
            == if Defines(line, m) then Leftover(w, keys, |keys| + 1) else Left([line], keys, |keys| + 2)
  {
    ChopKeepsKey(line, m);
    assert [Chop(line)][1..] == [] && Replaced([], m, w) == [];
    EntryLeft(m, w, keys);
    ReadLineLeft(line, keys);
    if Defines(line, m) {
      assert Chop(line) != "";
      assert Replaced([Chop(line)], m, w) == [Entry(m, w)];
    } else if Chop(line) != "" {
      assert Replaced([Chop(line)], m, w) == [Chop(line)];
    }
  }

  lemma {:induction false} ReplacedLeft(pieces: seq<string>, m: string, w: string, keys: seq<string>)
    requires AllWhole(pieces) && NoBreak(m) && m in keys
    ensures TakenOut(Replaced(NonEmpty(Chopped(pieces)), m, w), keys)
            == Spread(pieces, m, Leftover(w, keys, |keys| + 1), keys, |keys| + 2)
    decreases |pieces|
  {
    if pieces == [] {
      TakenOutEmpty(keys);
    } else {
      var head, rest := pieces[0], pieces[1..];
      assert pieces == [head] + rest;
      ChoppedFirst(head, rest);
      NonEmptyAppend([Chop(head)], Chopped(rest));
      ReplaceAppend(NonEmpty([Chop(head)]), NonEmpty(Chopped(rest)), m, w);
      TakenOutAppend(Replaced(NonEmpty([Chop(head)]), m, w), Replaced(NonEmpty(Chopped(rest)), m, w), keys);
      ReplacedOne(head, m, w, keys);
      ReplacedLeft(rest, m, w, keys);
    }
  }

  /** The second variable among lines that say nothing of it and the first one's as they are read back. */
  lemma SecondLeft(before: seq<string>, k: string, v: string, m: string, w: string)
    requires NoBreak(k) && NoBreak(m) && GetVar(before, m).None?
    ensures var read := Through([Entry(k, v)]);
            TakenOut(SetVar(before + read, m, w), [k, m]) == TakenOut(before, [k, m]) + BothLeft(k, v, m, w)
  {
    var keys, pieces, f := [k, m], Pieces(Entry(k, v)), Entry(m, w);
    PiecesWhole(Entry(k, v));
    var read := Through([Entry(k, v)]);
    ThroughPieces(Entry(k, v));
    GetNonEmptyChopped(pieces, m);
    GetAppend(before, read, m);
    if GetVar(read, m).None? {
      Regroup(before, read, [f]);
      TakenOutAppend(before, read + [f], keys);
      TakenOutAppend(read, [f], keys);
      EntryLeft(k, v, keys);
      EntryLeft(m, w, keys);
      SpreadEmptyIff(pieces, m, Leftover(w, keys, 3), keys, 4);
      PiecesLeft(k, v, keys, 4);
    } else {
      ReplaceAppend(before, read, m, w);
      GetReplaced(before, m, w);
      TakenOutAppend(before, Replaced(read, m, w), keys);
      ReplacedLeft(pieces, m, w, keys);
    }
  }

  lemma BothNewLeft(text: string, k: string, v: string, m: string, w: string)
    requires NoBreak(k) && NoBreak(m) && GetVar(Lines(text), k).None? && GetVar(Lines(text), m).None?
    ensures BothRolledBack(Lines(text), k, v, m, w) == Survivors(Lines(text), 4) + BothLeft(k, v, m, w)
  {
    var lines, keys := Lines(text), [k, m];
    LinesShape(text);
    ThroughAppend(lines, [Entry(k, v)]);
    GetThrough(lines, m);
    SecondLeft(Through(lines), k, v, m, w);
    ReadLeft(lines, keys);
    NewKeysLeft(lines, keys, 4);
  }

  /**
    Two variables, set and removed again, on any file and with any values: the same, with what the two leave together.
   */
  lemma BothRollbackIff(text: string, k: string, v: string, m: string, w: string)
    requires NoBreak(k) && NoBreak(m)
    ensures BothRolledBack(Lines(text), k, v, m, w) == Lines(text)
            <==> && GetVar(Lines(text), k).None? && GetVar(Lines(text), m).None?
                 && Lines(text) == Survivors(Lines(text), 4) + BothLeft(k, v, m, w)
    ensures NoneVanish(Lines(text), 4) || BothLeft(k, v, m, w) == [] ==>
              (BothRolledBack(Lines(text), k, v, m, w) == Lines(text)
               <==> && AllClean(Lines(text)) && GetVar(Lines(text), k).None? && GetVar(Lines(text), m).None?
                    && Leftover(v, [k, m], 4) == [] && Leftover(w, [k, m], 3) == [])
  {
    var lines, keys := Lines(text), [k, m];
    LinesShape(text);
    var set1 := Through(SetVar(lines, k, v));
    TakenOutIsOut(SetVar(set1, m, w), keys, k);
    TakenOutIsOut(SetVar(set1, m, w), keys, m);
    if GetVar(lines, k).None? && GetVar(lines, m).None? {
      BothNewLeft(text, k, v, m, w);
      BothLeaveNothingIff(k, v, m, w);
      ReadLeft(lines, keys);
      NewKeysLeft(lines, keys, 4);
      KeptIff(lines, keys);
      if NoneVanish(lines, 4) || BothLeft(k, v, m, w) == [] { Apart(lines, 4, BothLeft(k, v, m, w)); }
    }
  }

  /** Without a line break there is nothing to leave. */
  lemma OneLineLeavesNothing(value: string, keys: seq<string>, chops: nat)
    requires NoBreak(value)
    ensures Leftover(value, keys, chops) == []
  {
    assert FirstBreak(value) == |value|;
  }

  /**
    Outside both cases the two faults can hide each other: a lost line of one carriage return, and a tail that comes to
    look like it.
   */
  lemma TailCanStandIn()
    ensures Lines("\r") == ["\r"] && !AllClean(["\r"]) && RolledBack(["\r"], "K", "x\n\r\r\r") == ["\r"]
  {
    var v, keys := "x\n\r\r\r", ["K"];
    assert FirstBreak("\r") == 1 && Split("\r") == ["\r"] && ["\r"][1..] == [];
    assert Chop("\r") == "";
    GetVarNone(["\r"], "K");
    TakenOutAppend(["\r"], [Entry("K", v)], keys);
    LineStep("\r", keys);
    TailStays();
  }

  lemma PiecesOfTwo(head: string, tail: string)
    requires NoBreak(head) && NoBreak(tail)
    ensures Pieces(head + "\n" + tail) == [head] + [tail]
  {
    var text := head + "\n" + tail;
    assert text[|head|] == '\n';
    assert FirstBreak(text) == |head| by {
      assert forall i :: 0 <= i < |head| ==> text[i] == head[i];
    }
    assert text[..|head|] == head && text[|head| + 1..] == tail;
    assert FirstBreak(tail) == |tail|;
  }

  /** The tail of a value of two lines stays when it is neither short enough nor the key's. */
  lemma TailOf(head: string, tail: string, key: string)
    requires NoBreak(key) && NoBreak(head) && NoBreak(tail) && Chop(tail) != "" && !Defines(tail, key)
    ensures TakenOut([Entry(key, head + "\n" + tail)], [key]) == Through([Chop(tail)])
  {
    var v, keys := head + "\n" + tail, [key];
    PiecesOfTwo(head, tail);
    PiecesOfEntry(key, v);
    SamePieces(Entry(key, v), keys);
    TakenOutAppend([Entry(key, head)], [tail], keys);
    EntryDefines(key, head);
    assert NoBreak(Entry(key, head));
    LineStep(Entry(key, head), keys);
    LineStep(tail, keys);
    assert TakenOut([Chop(tail)], []) == Through([Chop(tail)]);
  }

  lemma TailStays()
    ensures TakenOut([Entry("K", "x\n\r\r\r")], ["K"]) == ["\r"]
  {
    var tail := "\r\r\r";
    assert Chop(tail) == "\r\r" && Chop("\r\r") == "\r";
    assert !Defines(tail, "K");
    TailOf("x", tail, "K");
    assert "x" + "\n" + tail == "x\n\r\r\r";
    ThroughWhole("\r\r");
  }
}
