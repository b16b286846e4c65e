/** The write-ahead log: a text file of one line per entry, its printer and its reader. */
module Wals {
  import opened RaftTypes

  datatype Operation = OpPut | OpDelete

  datatype WalEntry = WalEntry(operation: Operation, key: string, value: Option<string>)

  // ---- Text ----

  /** The position of the first `c`, or the length when there is none. */
  function Find(s: string, c: char): (n: nat)
    ensures n <= |s| && c !in s[..n]
    ensures n < |s| ==> s[n] == c
  {
    if s == "" || s[0] == c then 0 else
      assert s[..1 + Find(s[1..], c)] == [s[0]] + s[1..][..Find(s[1..], c)];
      1 + Find(s[1..], c)
  }

  predicate EndsIn(s: string, c: char) {
    s != "" && s[|s| - 1] == c
  }

  function StripCR(line: string): string {
    if EndsIn(line, '\r') then line[..|line| - 1] else line
  }

  /** The lines of a text. A line ending is a newline with an optional carriage return before
      it; characters after the last newline are a line too, kept as they are. */
  function Lines(text: string): seq<string>
    decreases |text|
  {
    if text == "" then []
    else
      var n := Find(text, '\n');
      if n == |text| then [text] else [StripCR(text[..n])] + Lines(text[n + 1..])
  }

  /** The parts of a line between its bars. */
  function Split(line: string): seq<string>
    decreases |line|
  {
    var n := Find(line, '|');
    if n == |line| then [line] else [line[..n]] + Split(line[n + 1..])
  }

  // ---- Printer and reader ----

  /** Two fields with a bar between them. */
  function Join(a: string, b: string): string {
    a + "|" + b
  }

  /** What an absent value prints as. */
  function ValueText(e: WalEntry): string {
    if e.value.Some? then e.value.value else ""
  }

  function Body(e: WalEntry): string {
    match e.operation
    case OpPut => Join("PUT", Join(e.key, ValueText(e)))
    case OpDelete => Join("DELETE", e.key)
  }

  function Serialize(e: WalEntry): string {
    Body(e) + "\n"
  }

  function SerializeAll(es: seq<WalEntry>): string {
    if es == [] then "" else Serialize(es[0]) + SerializeAll(es[1..])
  }

  function ParseLine(line: string): Option<WalEntry> {
    var parts := Split(line);
    if |parts| == 3 && parts[0] == "PUT" then Some(WalEntry(OpPut, parts[1], Some(parts[2])))
    else if |parts| == 2 && parts[0] == "DELETE" then Some(WalEntry(OpDelete, parts[1], None))
    else None
  }

  /** The parsed line as a sequence: malformed lines are skipped. */
  function Parsed(line: string): seq<WalEntry> {
    match ParseLine(line)
    case None => []
    case Some(e) => [e]
  }

  function ParseLines(lines: seq<string>): seq<WalEntry> {
    if lines == [] then [] else Parsed(lines[0]) + ParseLines(lines[1..])
  }

  function Replayed(contents: string): seq<WalEntry> {
    ParseLines(Lines(contents))
  }

  /** The text of an entry in the file. */
  lemma LineFormat(key: string, value: string)
    ensures Serialize(WalEntry(OpPut, key, Some(value))) == "PUT|" + key + "|" + value + "\n"
    ensures Serialize(WalEntry(OpDelete, key, None)) == "DELETE|" + key + "\n"
  {
  }

  // ---- The domain of the round trip ----

  /** The entries the engine makes: a put has a value and a delete has none. */
  predicate EngineMade(e: WalEntry) {
    e.operation == OpPut <==> e.value.Some?
  }

  predicate FreeOf(e: WalEntry, c: char) {
    c !in e.key && c !in ValueText(e)
  }

  /** The entries that come back from the file unchanged. */
  predicate Clean(e: WalEntry) {
    FreeOf(e, '\n') && FreeOf(e, '|') && !EndsIn(Body(e), '\r')
  }

  /** The entry without a carriage return at the very end of its line. */
  function Trimmed(e: WalEntry): WalEntry {
    match e.operation
    case OpPut => e.(value := Some(StripCR(ValueText(e))))
    case OpDelete => e.(key := StripCR(e.key))
  }

  /** What replay makes of one entry: one with a bar in a field is lost. */
  function Survivor(e: WalEntry): seq<WalEntry> {
    if FreeOf(e, '|') then [Trimmed(e)] else []
  }

  function Survivors(es: seq<WalEntry>): seq<WalEntry> {
    if es == [] then [] else Survivor(es[0]) + Survivors(es[1..])
  }

  // ---- Lemmas about text ----

  lemma {:induction false} FindIs(s: string, c: char, n: nat)
    requires n <= |s| && c !in s[..n]
    requires n < |s| ==> s[n] == c
    ensures Find(s, c) == n
  {
    if n > 0 {
      assert s[0] in s[..n];
      assert s[1..][..n - 1] == s[..n][1..];
      FindIs(s[1..], c, n - 1);
    }
  }

  lemma {:induction false} FindWithin(s: string, c: char, i: nat)
    requires i < |s| && s[i] == c
    ensures Find(s, c) <= i
  {
    if s[0] != c {
      FindWithin(s[1..], c, i - 1);
    }
  }

  lemma Regroup<T>(a: seq<T>, b: seq<T>, c: seq<T>)
    ensures a + b + c == a + (b + c)
  {
  }

  /** A newline-free line, its newline and more text. */
  lemma LinesHead(line: string, rest: string)
    requires '\n' !in line
    ensures Lines(line + "\n" + rest) == [StripCR(line)] + Lines(rest)
  {
    var text := line + "\n" + rest;
    assert text[..|line|] == line && text[|line| + 1..] == rest;
    FindIs(text, '\n', |line|);
  }

  lemma LinesSingle(line: string)
    requires '\n' !in line
    ensures Lines(line) == if line == "" then [] else [line]
  {
    assert line[..|line|] == line;
    FindIs(line, '\n', |line|);
  }

  lemma SplitHead(part: string, rest: string)
    requires '|' !in part
    ensures Split(Join(part, rest)) == [part] + Split(rest)
  {
    var line := Join(part, rest);
    assert line[..|part|] == part && line[|part| + 1..] == rest;
    FindIs(line, '|', |part|);
  }

  lemma SplitWhole(part: string)
    requires '|' !in part
    ensures Split(part) == [part]
  {
    assert part[..|part|] == part;
    FindIs(part, '|', |part|);
  }

  /** A line with a bar is its first part joined to the rest. */
  lemma SplitFirst(line: string) returns (part: string, rest: string)
    requires '|' in line
    ensures '|' !in part && line == Join(part, rest)
  {
    var n := Find(line, '|');
    var i :| 0 <= i < |line| && line[i] == '|';
    FindWithin(line, '|', i);
    part, rest := line[..n], line[n + 1..];
    assert line == line[..n] + [line[n]] + line[n + 1..];
  }

  lemma {:induction false} SplitShape(line: string)
    ensures |Split(line)| >= 1
    ensures |Split(line)| == 1 <==> '|' !in line
    ensures forall part | part in Split(line) :: '|' !in part && ('\n' !in line ==> '\n' !in part)
    decreases |line|
  {
    if '|' in line {
      var part, rest := SplitFirst(line);
      SplitHead(part, rest);
      SplitShape(rest);
      assert '\n' !in line ==> '\n' !in part && '\n' !in rest;
    } else {
      SplitWhole(line);
    }
  }

  lemma JoinAssociates(a: string, b: string, c: string)
    ensures Join(Join(a, b), c) == Join(a, Join(b, c))
  {
  }

  /** Joining adds up the numbers of parts. */
  lemma {:induction false} SplitJoin(a: string, b: string)
    ensures |Split(Join(a, b))| == |Split(a)| + |Split(b)|
    decreases |a|
  {
    if '|' in a {
      var part, rest := SplitFirst(a);
      JoinAssociates(part, rest, b);
      SplitHead(part, Join(rest, b));
      SplitHead(part, rest);
      SplitJoin(rest, b);
    } else {
      SplitHead(a, b);
      SplitWhole(a);
    }
  }

  lemma {:induction false} ParseLinesConcat(a: seq<string>, b: seq<string>)
    ensures ParseLines(a + b) == ParseLines(a) + ParseLines(b)
  {
    if a == [] {
      assert a + b == b;
    } else {
      assert (a + b)[1..] == a[1..] + b;
      ParseLinesConcat(a[1..], b);
    }
  }

  // ---- One entry ----

  lemma ParsePut(fields: string)
    ensures ParseLine(Join("PUT", fields))
         == if |Split(fields)| == 2 then Some(WalEntry(OpPut, Split(fields)[0], Some(Split(fields)[1]))) else None
  {
    SplitHead("PUT", fields);
  }

  lemma ParseDelete(fields: string)
    ensures ParseLine(Join("DELETE", fields))
         == if |Split(fields)| == 1 then Some(WalEntry(OpDelete, Split(fields)[0], None)) else None
  {
    SplitHead("DELETE", fields);
  }

  /** A line with no bar says nothing. */
  lemma ParseBare(line: string)
    requires '|' !in line
    ensures ParseLine(line) == None
  {
    SplitWhole(line);
  }

  /** Reading back one printed line: the fields, or nothing when a field holds a bar. */
  lemma ParseBody(e: WalEntry)
    requires EngineMade(e)
    ensures Parsed(Body(e)) == if FreeOf(e, '|') then [e] else []
  {
    match e.operation
    case OpPut =>
      var value := e.value.value;
      ParsePut(Join(e.key, value));
      SplitJoin(e.key, value);
      SplitShape(e.key);
      SplitShape(value);
      if FreeOf(e, '|') {
        SplitHead(e.key, value);
        SplitWhole(value);
      }
    case OpDelete =>
      ParseDelete(e.key);
      SplitShape(e.key);
      if FreeOf(e, '|') {
        SplitWhole(e.key);
      }
  }

  lemma SplitInTwo(line: string)
    requires |Split(line)| == 2
    ensures line == Join(Split(line)[0], Split(line)[1])
  {
    SplitShape(line);
    var part, rest := SplitFirst(line);
    SplitHead(part, rest);
    SplitShape(rest);
    SplitWhole(rest);
  }

  /** The reader accepts nothing but printed lines. */
  lemma ParsedIsPrinted(line: string, e: WalEntry)
    requires ParseLine(line) == Some(e)
    ensures line == Body(e) && EngineMade(e) && FreeOf(e, '|')
  {
    SplitShape(line);
    var part, rest := SplitFirst(line);
    SplitHead(part, rest);
    if e.operation == OpPut {
      SplitInTwo(rest);
    } else {
      SplitInTwo(line);
    }
  }

  lemma StripJoin(a: string, b: string)
    ensures StripCR(Join(a, b)) == Join(a, StripCR(b))
    ensures EndsIn(Join(a, b), '\r') <==> EndsIn(b, '\r')
  {
    var line := Join(a, b);
    if b == "" {
      assert line[|line| - 1] == '|';
    } else {
      assert line[|line| - 1] == b[|b| - 1];
    }
  }

  lemma StripKeeps(s: string, c: char)
    requires c != '\r'
    ensures c in StripCR(s) <==> c in s
    ensures StripCR(s) == s <==> !EndsIn(s, '\r')
  {
    if EndsIn(s, '\r') {
      assert s == s[..|s| - 1] + "\r";
    }
  }

  lemma TrimmedBody(e: WalEntry)
    requires EngineMade(e)
    ensures StripCR(Body(e)) == Body(Trimmed(e))
    ensures EngineMade(Trimmed(e)) && (FreeOf(Trimmed(e), '|') <==> FreeOf(e, '|'))
    ensures Trimmed(e) == e <==> !EndsIn(Body(e), '\r')
  {
    match e.operation
    case OpPut =>
      StripJoin(e.key, e.value.value);
      StripJoin("PUT", Join(e.key, e.value.value));
      StripKeeps(e.value.value, '|');
    case OpDelete =>
      StripJoin("DELETE", e.key);
      StripKeeps(e.key, '|');
  }

  lemma BodyOnOneLine(e: WalEntry)
    ensures '\n' !in Body(e) <==> FreeOf(e, '\n') || (e.operation == OpDelete && '\n' !in e.key)
  {
    var body := Body(e);
    match e.operation
    case OpPut => assert body == "PUT|" + e.key + "|" + ValueText(e);
    case OpDelete => assert body == "DELETE|" + e.key;
  }

  lemma ReplaySingle(line: string)
    requires '\n' !in line
    ensures Replayed(line) == if line == "" then [] else Parsed(line)
  {
    LinesSingle(line);
    assert ParseLines([]) == [];
    assert [line][1..] == [];
  }

  /** Replay reads a file that starts with a printed entry by reading that entry first. */
  lemma ReplayHead(e: WalEntry, rest: string)
    requires EngineMade(e) && FreeOf(e, '\n')
    ensures Replayed(Serialize(e) + rest) == Survivor(e) + Replayed(rest)
  {
    BodyOnOneLine(e);
    LinesHead(Body(e), rest);
    TrimmedBody(e);
    ParseBody(Trimmed(e));
    assert Lines(Serialize(e) + rest)[1..] == Lines(rest);
  }

  // ---- Whole files ----

  /** Replay of the printed entries followed by anything. */
  lemma {:induction false} ReplayPrefix(es: seq<WalEntry>, rest: string)
    requires forall e | e in es :: EngineMade(e) && FreeOf(e, '\n')
    ensures Replayed(SerializeAll(es) + rest) == Survivors(es) + Replayed(rest)
  {
    if es == [] {
      assert SerializeAll(es) + rest == rest;
    } else {
      var more := SerializeAll(es[1..]) + rest;
      ReplayPrefix(es[1..], rest);
      Regroup(Serialize(es[0]), SerializeAll(es[1..]), rest);
      ReplayHead(es[0], more);
      Regroup(Survivor(es[0]), Survivors(es[1..]), Replayed(rest));
    }
  }

  /** For entries without newlines, replay returns in order exactly those with no bar in a
      field, each without a carriage return at the end of its line. */
  lemma RoundTrip(es: seq<WalEntry>)
    requires forall e | e in es :: EngineMade(e) && FreeOf(e, '\n')
    ensures Replayed(SerializeAll(es)) == Survivors(es)
  {
    ReplayPrefix(es, "");
    assert SerializeAll(es) + "" == SerializeAll(es);
  }

  lemma {:induction false} CleanSurvive(es: seq<WalEntry>)
    requires forall e | e in es :: EngineMade(e) && Clean(e)
    ensures Survivors(es) == es
  {
    if es != [] {
      TrimmedBody(es[0]);
      CleanSurvive(es[1..]);
    }
  }

  lemma {:induction false} SurviveClean(es: seq<WalEntry>)
    requires forall e | e in es :: EngineMade(e) && FreeOf(e, '\n') && FreeOf(e, '|')
    requires Survivors(es) == es
    ensures forall e | e in es :: Clean(e)
  {
    if es != [] {
      TrimmedBody(es[0]);
      assert Survivors(es) == [Trimmed(es[0])] + Survivors(es[1..]);
      SurviveClean(es[1..]);
    }
  }

  lemma {:induction false} LinesHaveNoNewline(text: string)
    ensures forall line | line in Lines(text) :: '\n' !in line
    decreases |text|
  {
    var n := Find(text, '\n');
    if n < |text| {
      LinesHaveNoNewline(text[n + 1..]);
    } else {
      assert text[..n] == text;
    }
  }

  lemma {:induction false} ParsedFieldsAreClean(lines: seq<string>)
    requires forall line | line in lines :: '\n' !in line
    ensures forall e | e in ParseLines(lines) :: FreeOf(e, '\n') && FreeOf(e, '|')
  {
    if lines != [] {
      SplitShape(lines[0]);
      ParsedFieldsAreClean(lines[1..]);
    }
  }

  /** The file gives back exactly what was written if and only if every entry is clean. */
  lemma RoundTripExactly(es: seq<WalEntry>)
    requires forall e | e in es :: EngineMade(e)
    ensures Replayed(SerializeAll(es)) == es <==> forall e | e in es :: Clean(e)
  {
    if forall e | e in es :: Clean(e) {
      RoundTrip(es);
      CleanSurvive(es);
    }
    if Replayed(SerializeAll(es)) == es {
      LinesHaveNoNewline(SerializeAll(es));
      ParsedFieldsAreClean(Lines(SerializeAll(es)));
      RoundTrip(es);
      SurviveClean(es);
    }
  }

  // ---- Torn tails ----

  /** How many entries keep their newline when the file is cut to `n` characters. */
  function Complete(es: seq<WalEntry>, n: nat): (m: nat)
    ensures m <= |es|
  {
    if es == [] || n < |Serialize(es[0])| then 0 else 1 + Complete(es[1..], n - |Serialize(es[0])|)
  }

  /** Complete counts exactly the entries whose text, newline included, lies before the cut. */
  lemma {:induction false} CompleteCounts(es: seq<WalEntry>, n: nat, k: nat)
    requires k <= |es|
    ensures k <= Complete(es, n) <==> |SerializeAll(es[..k])| <= n
  {
    if k > 0 {
      assert es[..k][0] == es[0] && es[..k][1..] == es[1..][..k - 1];
      if n >= |Serialize(es[0])| {
        CompleteCounts(es[1..], n - |Serialize(es[0])|, k - 1);
      }
    }
  }

  /** What the torn line still says: part of the entry it was cut from. */
  predicate TornFrom(torn: WalEntry, e: WalEntry) {
    torn.operation == e.operation
    && (e.operation == OpPut ==> torn.key == e.key && torn.value.Some? && torn.value.value <= ValueText(e))
    && (e.operation == OpDelete ==> torn.key <= e.key && torn.value == None)
  }

  lemma JoinCut(a: string, b: string, j: nat)
    requires j <= |Join(a, b)|
    ensures Join(a, b)[..j] == if j <= |a| then a[..j] else Join(a, b[..j - |a| - 1])
  {
  }

  lemma TornPut(e: WalEntry, j: nat)
    requires e.operation == OpPut && EngineMade(e) && FreeOf(e, '|') && j <= |Body(e)|
    ensures ParseLine(Body(e)[..j]).Some? ==> TornFrom(ParseLine(Body(e)[..j]).value, e)
  {
    JoinCut("PUT", Join(e.key, e.value.value), j);
    if j <= 3 {
      ParseBare("PUT"[..j]);
    } else {
      TornFields(e.key, e.value.value, j - 4);
      TornPutFields(e, Join(e.key, e.value.value)[..j - 4]);
    }
  }

  lemma TornPutFields(e: WalEntry, fields: string)
    requires e.operation == OpPut
    requires |Split(fields)| == 1
             || (|Split(fields)| == 2 && Split(fields)[0] == e.key && Split(fields)[1] <= ValueText(e))
    ensures ParseLine(Join("PUT", fields)).Some? ==> TornFrom(ParseLine(Join("PUT", fields)).value, e)
  {
    ParsePut(fields);
  }

  /** The fields of a put, cut: the key alone or part of it, or the key and part of the value. */
  lemma TornFields(key: string, value: string, j: nat)
    requires '|' !in key && '|' !in value && j <= |Join(key, value)|
    ensures var parts := Split(Join(key, value)[..j]);
            |parts| == 1 || (|parts| == 2 && parts[0] == key && parts[1] <= value)
  {
    JoinCut(key, value, j);
    if j <= |key| {
      SplitWhole(key[..j]);
    } else {
      var cut := value[..j - |key| - 1];
      SplitHead(key, cut);
      SplitWhole(cut);
    }
  }

  lemma TornDelete(e: WalEntry, j: nat)
    requires e.operation == OpDelete && EngineMade(e) && FreeOf(e, '|') && j <= |Body(e)|
    ensures ParseLine(Body(e)[..j]).Some? ==> TornFrom(ParseLine(Body(e)[..j]).value, e)
  {
    JoinCut("DELETE", e.key, j);
    if j <= 6 {
      ParseBare("DELETE"[..j]);
    } else {
      ParseDelete(e.key[..j - 7]);
      SplitWhole(e.key[..j - 7]);
    }
  }

  /** The replay of a cut file: the first `m` entries, and perhaps part of the next. */
  predicate TornReplay(r: seq<WalEntry>, es: seq<WalEntry>, m: nat)
    requires m <= |es|
  {
    r == es[..m] || (m < |es| && |r| == m + 1 && r[..m] == es[..m] && TornFrom(r[m], es[m]))
  }

  lemma TornLine(e: WalEntry, n: nat)
    requires EngineMade(e) && Clean(e) && n <= |Body(e)|
    ensures TornReplay(Replayed(Body(e)[..n]), [e], 0)
  {
    var torn := Body(e)[..n];
    BodyOnOneLine(e);
    ReplaySingle(torn);
    if e.operation == OpPut { TornPut(e, n); } else { TornDelete(e, n); }
  }

  lemma CutConcat(a: string, b: string, n: nat)
    requires n <= |a + b|
    ensures n <= |a| ==> (a + b)[..n] == a[..n]
    ensures n >= |a| ==> (a + b)[..n] == a + b[..n - |a|]
  {
  }

  lemma SerializePrefix(es: seq<WalEntry>, m: nat)
    requires 0 < m <= |es|
    ensures SerializeAll(es[..m]) == Serialize(es[0]) + SerializeAll(es[1..][..m - 1])
  {
    assert es[..m][1..] == es[1..][..m - 1];
  }

  /** A file cut anywhere is the complete entries followed by part of the next body. */
  lemma {:induction false} CutFile(es: seq<WalEntry>, n: nat) returns (torn: string)
    requires n <= |SerializeAll(es)|
    ensures SerializeAll(es)[..n] == SerializeAll(es[..Complete(es, n)]) + torn
    ensures Complete(es, n) == |es| ==> torn == ""
    ensures Complete(es, n) < |es| ==> torn <= Body(es[Complete(es, n)])
  {
    torn := "";
    if es != [] {
      var first, more := Serialize(es[0]), SerializeAll(es[1..]);
      CutConcat(first, more, n);
      if n < |first| {
        CutConcat(Body(es[0]), "\n", n);
        torn := first[..n];
      } else {
        torn := CutFile(es[1..], n - |first|);
        var m := Complete(es[1..], n - |first|);
        SerializePrefix(es, m + 1);
        Regroup(first, SerializeAll(es[1..][..m]), torn);
      }
    }
  }

  /** Replay of a file cut at any character: every entry whose newline survived, in order,
      and at most one more, which is then part of the entry that was torn. */
  lemma TornTail(es: seq<WalEntry>, n: nat)
    requires forall e | e in es :: EngineMade(e) && Clean(e)
    requires n <= |SerializeAll(es)|
    ensures TornReplay(Replayed(SerializeAll(es)[..n]), es, Complete(es, n))
  {
    var torn := CutFile(es, n);
    TornAfter(es, Complete(es, n), torn);
  }

  lemma TornAfter(es: seq<WalEntry>, m: nat, torn: string)
    requires m <= |es| && forall e | e in es :: EngineMade(e) && Clean(e)
    requires if m == |es| then torn == "" else torn <= Body(es[m])
    ensures TornReplay(Replayed(SerializeAll(es[..m]) + torn), es, m)
  {
    assert forall e | e in es[..m] :: e in es;
    ReplayPrefix(es[..m], torn);
    CleanSurvive(es[..m]);
    if m == |es| {
      ReplaySingle(torn);
      assert es[..m] + [] == es[..m];
    } else {
      TornLine(es[m], |torn|);
      var last := Replayed(torn);
      assert torn == Body(es[m])[..|torn|];
      if last != [] {
        assert (es[..m] + last)[..m] == es[..m];
      } else {
        assert es[..m] + [] == es[..m];
      }
    }
  }

  // ---- Writing on ----

  predicate AtLineStart(contents: string) {
    contents == "" || EndsIn(contents, '\n')
  }

  lemma FirstLine(text: string) returns (line: string, rest: string)
    requires EndsIn(text, '\n')
    ensures text == line + "\n" + rest && '\n' !in line && AtLineStart(rest) && |rest| < |text|
  {
    var n := Find(text, '\n');
    FindWithin(text, '\n', |text| - 1);
    line, rest := text[..n], text[n + 1..];
  }

  lemma LinesHeadConcat(line: string, rest: string, b: string)
    requires '\n' !in line && Lines(rest + b) == Lines(rest) + Lines(b)
    ensures Lines(line + "\n" + rest + b) == Lines(line + "\n" + rest) + Lines(b)
  {
    Regroup(line + "\n", rest, b);
    LinesHead(line, rest);
    LinesHead(line, rest + b);
    Regroup([StripCR(line)], Lines(rest), Lines(b));
  }

  lemma {:induction false} LinesConcat(a: string, b: string)
    requires AtLineStart(a)
    ensures Lines(a + b) == Lines(a) + Lines(b)
    decreases |a|
  {
    if a == "" {
      assert a + b == b;
    } else {
      var line, rest := FirstLine(a);
      LinesConcat(rest, b);
      LinesHeadConcat(line, rest, b);
    }
  }

  /** Splits a text before its last, unterminated line. */
  lemma {:induction false} LastLine(text: string) returns (whole: string, line: string)
    ensures text == whole + line && AtLineStart(whole) && '\n' !in line
    ensures AtLineStart(text) <==> line == ""
    decreases |text|
  {
    if AtLineStart(text) {
      whole, line := text, "";
    } else {
      var front, last := text[..|text| - 1], text[|text| - 1];
      assert text == front + [last];
      var w, l := LastLine(front);
      whole, line := w, l + [last];
    }
  }

  lemma ReplayAfterLine(whole: string, rest: string)
    requires AtLineStart(whole)
    ensures Replayed(whole + rest) == Replayed(whole) + Replayed(rest)
  {
    LinesConcat(whole, rest);
    ParseLinesConcat(Lines(whole), Lines(rest));
  }

  lemma ReplayOneLine(line: string)
    requires '\n' !in line
    ensures Replayed(line + "\n") == Parsed(StripCR(line))
  {
    LinesHead(line, "");
    assert line + "\n" + "" == line + "\n";
    assert [StripCR(line)] + [] == [StripCR(line)];
    assert ParseLines([]) == [];
    assert [StripCR(line)][1..] == [];
  }

  lemma GluedLine(line: string, e: WalEntry)
    requires line != ""
    ensures ParseLine(line + Body(e)) != Some(e)
  {
    if ParseLine(line + Body(e)) == Some(e) {
      ParsedIsPrinted(line + Body(e), e);
      assert false;
    }
  }

  lemma EndOfConcat(a: string, b: string, c: char)
    requires b != ""
    ensures EndsIn(a + b, c) <==> EndsIn(b, c)
  {
  }

  /** An entry glued to an unterminated line is not read back after what that line said. */
  lemma GluedEntry(line: string, e: WalEntry)
    requires '\n' !in line && line != ""
    requires EngineMade(e) && Clean(e)
    ensures Replayed(line + Serialize(e)) != Replayed(line) + [e]
  {
    var body := Body(e);
    BodyOnOneLine(e);
    Regroup(line, body, "\n");
    ReplayOneLine(line + body);
    EndOfConcat(line, body, '\r');
    ReplaySingle(line);
    GluedLine(line, e);
    assert Replayed(line + Serialize(e)) == Parsed(line + body);
    if Replayed(line) == [] {
      assert Replayed(line) + [e] == [e];
      assert Parsed(line + body) != [e];
    }
  }

  /** An appended clean entry is read back after what the file said before, if and only if
      the file did not end in a torn line. */
  lemma AppendReadsBack(contents: string, e: WalEntry)
    requires EngineMade(e) && Clean(e)
    ensures Replayed(contents + Serialize(e)) == Replayed(contents) + [e] <==> AtLineStart(contents)
  {
    var whole, line := LastLine(contents);
    ReplayAfterLine(whole, line);
    ReplayAfterLine(whole, line + Serialize(e));
    Regroup(whole, line, Serialize(e));
    Regroup(Replayed(whole), Replayed(line), [e]);
    CancelPrefix(Replayed(whole), Replayed(line + Serialize(e)), Replayed(line) + [e]);
    if line == "" {
      assert line + Serialize(e) == Serialize(e);
      ReplayOneClean(e);
      ReplaySingle(line);
    } else {
      GluedEntry(line, e);
    }
  }

  lemma ReplayOneClean(e: WalEntry)
    requires EngineMade(e) && Clean(e)
    ensures Replayed(Serialize(e)) == [e]
  {
    BodyOnOneLine(e);
    ReplayOneLine(Body(e));
    TrimmedBody(e);
    ParseBody(e);
  }

  lemma CancelPrefix<T>(a: seq<T>, b: seq<T>, c: seq<T>)
    ensures a + b == a + c <==> b == c
  {
    assert (a + b)[|a|..] == b && (a + c)[|a|..] == c;
  }

  method ReadLines(lines: seq<string>) returns (entries: seq<WalEntry>)
    ensures entries == ParseLines(lines)
  {
    entries := [];
    for k := 0 to |lines|
      invariant entries == ParseLines(lines[..k])
    {
      ParseLinesConcat(lines[..k], [lines[k]]);
      ParseOneLine(lines[k]);
      assert lines[..k + 1] == lines[..k] + [lines[k]];
      var parsed := ParseLine(lines[k]);
      if parsed.Some? {
        entries := entries + [parsed.value];
      }
    }
    assert lines[..|lines|] == lines;
  }

  lemma ParseOneLine(line: string)
    ensures ParseLines([line]) == Parsed(line)
  {
    assert [line][1..] == [];
  }

  class Wal {
    var contents: string

    /** Opens the file without changing it. */
    constructor (file: string)
      ensures contents == file
    {
      contents := file;
    }

    method Append(entry: WalEntry)
      modifies this
      ensures contents == old(contents) + Serialize(entry)
    {
      contents := contents + Serialize(entry);
    }

    method Replay() returns (entries: seq<WalEntry>)
      ensures entries == Replayed(contents)
    {
      entries := ReadLines(Lines(contents));
    }
  }
}
