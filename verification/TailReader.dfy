/** The newest record's uuid, read backwards a block at a time: `readTranscriptTail` of
    clients/claude-code/skillmeter/scripts/lib/transfer.js, against `lastContentUuid(parseJsonl(file))` of
    transcript-delta.js. */
module TailReader {
  import opened Options
  import opened TurnRouting
  import opened ChunkPlan

  newtype Byte = x: int | 0 <= x < 256

  type Bytes = seq<Byte>

  const NEWLINE: Byte := 0x0a

  /** Decoding one line and parsing it as JSON; None when it is not JSON. */
  type Parser = Bytes -> Option<Record>

  /** `indexOf`: the first newline, or -1. */
  function Newline(bytes: Bytes): (i: int)
    ensures -1 <= i < |bytes|
    ensures i >= 0 ==> bytes[i] == NEWLINE
    ensures forall k | 0 <= k < (if i == -1 then |bytes| else i) :: bytes[k] != NEWLINE
    decreases |bytes|
  {
    if bytes == [] then -1
    else
      var i := Newline(bytes[..|bytes| - 1]);
      if i >= 0 then i else if bytes[|bytes| - 1] == NEWLINE then |bytes| - 1 else -1
  }

  /** `split("\n")`. */
  function Lines(bytes: Bytes): (lines: seq<Bytes>)
    ensures lines != []
    decreases |bytes|
  {
    var i := Newline(bytes);
    if i == -1 then [bytes] else [bytes[..i]] + Lines(bytes[i + 1..])
  }

  function Join(lines: seq<Bytes>): Bytes
    requires lines != []
  {
    if |lines| == 1 then lines[0] else lines[0] + [NEWLINE] + Join(lines[1..])
  }

  /** `parseJsonl`: blank lines are skipped, malformed ones dropped one by one. */
  function ParseLines(parse: Parser, lines: seq<Bytes>): seq<Record> {
    if lines == [] then []
    else
      var rest := ParseLines(parse, lines[1..]);
      if lines[0] == [] then rest
      else match parse(lines[0]) case None => rest case Some(p) => [p] + rest
  }

  function ParseJsonl(parse: Parser, bytes: Bytes): seq<Record> {
    ParseLines(parse, Lines(bytes))
  }

  /** What a plain forward parse of the whole file finds. */
  function NewestUuid(parse: Parser, bytes: Bytes): string {
    LastContentUuid(ParseJsonl(parse, bytes))
  }

  // ---------------------------------------------------------------------------------------------
  // Splitting at a newline
  // ---------------------------------------------------------------------------------------------

  predicate WholeLine(line: Bytes) {
    forall k | 0 <= k < |line| :: line[k] != NEWLINE
  }

  ghost predicate WholeLines(lines: seq<Bytes>) {
    lines != [] && forall i | 0 <= i < |lines| :: WholeLine(lines[i])
  }

  /** Splitting and joining undo each other. */
  lemma {:induction false} JoinOfLines(bytes: Bytes)
    ensures WholeLines(Lines(bytes)) && Join(Lines(bytes)) == bytes
    decreases |bytes|
  {
    var i := Newline(bytes);
    if i >= 0 {
      var rest := Lines(bytes[i + 1..]);
      JoinOfLines(bytes[i + 1..]);
      assert WholeLine(bytes[..i]);
      JoinFirst(bytes[..i], rest);
      assert bytes == bytes[..i] + [NEWLINE] + bytes[i + 1..];
    }
  }

  lemma JoinFirst(line: Bytes, rest: seq<Bytes>)
    requires rest != []
    ensures Join([line] + rest) == line + [NEWLINE] + Join(rest)
  {
    assert ([line] + rest)[1..] == rest;
  }

  lemma {:induction false} LinesOfJoin(lines: seq<Bytes>)
    requires WholeLines(lines)
    ensures Lines(Join(lines)) == lines
    decreases |lines|
  {
    if |lines| == 1 {
      assert WholeLine(lines[0]);
      assert lines == [lines[0]];
    } else {
      var rest := lines[1..];
      LinesOfJoin(rest);
      assert WholeLine(lines[0]);
      CutsFirst(lines[0], Join(rest));
      assert lines == [lines[0]] + rest;
    }
  }

  lemma CutsFirst(line: Bytes, rest: Bytes)
    requires WholeLine(line)
    ensures Lines(line + [NEWLINE] + rest) == [line] + Lines(rest)
  {
    var whole := line + [NEWLINE] + rest;
    assert whole[|line|] == NEWLINE;
    var i := Newline(whole);
    assert i == |line|;
    assert whole[..i] == line;
    assert whole[i + 1..] == rest;
  }

  lemma {:induction false} JoinConcat(x: seq<Bytes>, y: seq<Bytes>)
    requires x != [] && y != []
    ensures Join(x + y) == Join(x) + [NEWLINE] + Join(y)
    decreases |x|
  {
    JoinFirst(x[0], x[1..] + y);
    assert [x[0]] + (x[1..] + y) == x + y;
    if |x| == 1 {
      assert x[1..] + y == y;
    } else {
      JoinConcat(x[1..], y);
    }
  }

  lemma LinesAtNewline(a: Bytes, b: Bytes)
    ensures Lines(a + [NEWLINE] + b) == Lines(a) + Lines(b)
  {
    JoinOfLines(a);
    JoinOfLines(b);
    JoinConcat(Lines(a), Lines(b));
    LinesOfJoin(Lines(a) + Lines(b));
  }

  lemma {:induction false} ParseConcat(parse: Parser, a: seq<Bytes>, b: seq<Bytes>)
    ensures ParseLines(parse, a + b) == ParseLines(parse, a) + ParseLines(parse, b)
    decreases |a|
  {
    if a == [] {
      assert a + b == b;
    } else {
      ParseConcat(parse, a[1..], b);
      assert (a + b)[1..] == a[1..] + b;
      var first := ParseLines(parse, [a[0]]);
      ParseFirst(parse, a);
      ParseFirst(parse, a + b);
      assert first + (ParseLines(parse, a[1..]) + ParseLines(parse, b)) == first + ParseLines(parse, a[1..]) + ParseLines(parse, b);
    }
  }

  lemma ParseFirst(parse: Parser, lines: seq<Bytes>)
    requires lines != []
    ensures ParseLines(parse, lines) == ParseLines(parse, [lines[0]]) + ParseLines(parse, lines[1..])
  {
    assert [lines[0]][1..] == [];
  }

  lemma {:induction false} LastOfConcat(a: seq<Record>, b: seq<Record>)
    ensures LastContentUuid(a + b) == if LastContentUuid(b) != "" then LastContentUuid(b) else LastContentUuid(a)
    decreases |b|
  {
    if b == [] {
      assert a + b == a;
    } else {
      var front, last := LastApart(a, b);
      LastOfConcat(a, front);
      LastOfOneMore(a + front, last);
      LastOfOneMore(front, last);
    }
  }

  lemma LastApart(a: seq<Record>, b: seq<Record>) returns (front: seq<Record>, last: Record)
    requires b != []
    ensures b == front + [last] && a + b == a + front + [last] && |front| < |b|
  {
    front, last := b[..|b| - 1], b[|b| - 1];
  }

  lemma LastOfOneMore(objs: seq<Record>, last: Record)
    ensures LastContentUuid(objs + [last]) == if last.uuid != "" then last.uuid else LastContentUuid(objs)
  {
    assert (objs + [last])[..|objs|] == objs;
  }

  /** The newest uuid before and after a newline. */
  lemma NewestAtNewline(parse: Parser, a: Bytes, b: Bytes)
    ensures NewestUuid(parse, a + [NEWLINE] + b) == if NewestUuid(parse, b) != "" then NewestUuid(parse, b) else NewestUuid(parse, a)
  {
    LinesAtNewline(a, b);
    ParseConcat(parse, Lines(a), Lines(b));
    LastOfConcat(ParseJsonl(parse, a), ParseJsonl(parse, b));
  }

  /** What a line contributes: a uuid, when it is not blank and parses to a record with one. */
  predicate Gives(parse: Parser, line: Bytes, uuid: string) {
    line != [] && parse(line).Some? && parse(line).value.uuid == uuid != ""
  }

  predicate GivesNothing(parse: Parser, line: Bytes) {
    line == [] || parse(line).None? || parse(line).value.uuid == ""
  }

  ghost predicate LastGiven(parse: Parser, lines: seq<Bytes>, uuid: string) {
    if uuid == "" then forall i | 0 <= i < |lines| :: GivesNothing(parse, lines[i])
    else exists i :: 0 <= i < |lines| && Gives(parse, lines[i], uuid) && forall j | i < j < |lines| :: GivesNothing(parse, lines[j])
  }

  lemma {:induction false} LinesGive(parse: Parser, lines: seq<Bytes>)
    ensures LastGiven(parse, lines, LastContentUuid(ParseLines(parse, lines)))
    decreases |lines|
  {
    if lines != [] {
      var n := |lines| - 1;
      LinesGive(parse, lines[..n]);
      OneMoreLine(parse, lines[..n], lines[n], lines);
    }
  }

  lemma OneMoreLine(parse: Parser, front: seq<Bytes>, line: Bytes, lines: seq<Bytes>)
    requires lines == front + [line] && LastGiven(parse, front, LastContentUuid(ParseLines(parse, front)))
    ensures LastGiven(parse, lines, LastContentUuid(ParseLines(parse, lines)))
  {
    var before, last := LastContentUuid(ParseLines(parse, front)), LastContentUuid(ParseLines(parse, [line]));
    ParseConcat(parse, front, [line]);
    LastOfConcat(ParseLines(parse, front), ParseLines(parse, [line]));
    OneLineGives(parse, line);
    OneMoreGiven(parse, front, line, lines, before, last);
  }

  lemma OneMoreGiven(parse: Parser, front: seq<Bytes>, line: Bytes, lines: seq<Bytes>, before: string, last: string)
    requires lines == front + [line] && LastGiven(parse, front, before)
    requires if last == "" then GivesNothing(parse, line) else Gives(parse, line, last)
    ensures LastGiven(parse, lines, if last != "" then last else before)
  {
    if last != "" {
      assert lines[|front|] == line;
    } else if before != "" {
      var i :| 0 <= i < |front| && Gives(parse, front[i], before) && forall j | i < j < |front| :: GivesNothing(parse, front[j]);
      assert Gives(parse, lines[i], before);
    }
  }

  lemma OneLineGives(parse: Parser, line: Bytes)
    ensures var uuid := LastContentUuid(ParseLines(parse, [line])); if uuid == "" then GivesNothing(parse, line) else Gives(parse, line, uuid)
  {
    assert [line][1..] == [];
    assert ParseLines(parse, []) == [];
    if line != [] && parse(line).Some? { assert ParseLines(parse, [line]) == [parse(line).value]; }
  }

  /** The newest uuid of a text is that of its last line that is not blank, parses, and carries one. */
  lemma NewestIsLastGiven(parse: Parser, bytes: Bytes)
    ensures LastGiven(parse, Lines(bytes), NewestUuid(parse, bytes))
  {
    LinesGive(parse, Lines(bytes));
  }

  lemma NothingInNothing(parse: Parser)
    ensures NewestUuid(parse, []) == ""
  {
    assert Lines([]) == [[]];
    assert ParseLines(parse, [[]]) == ParseLines(parse, [[]][1..]);
  }

  // ---------------------------------------------------------------------------------------------
  // The block reader
  // ---------------------------------------------------------------------------------------------

  /** A block with what was cut off after it: before its first newline it belongs to the line begun earlier. */
  lemma FirstLineCutOff(parse: Parser, front: Bytes, lines: Bytes, i: nat)
    requires i < |lines| && lines[i] == NEWLINE
    ensures NewestUuid(parse, front + lines) ==
            if NewestUuid(parse, lines[i + 1..]) != "" then NewestUuid(parse, lines[i + 1..]) else NewestUuid(parse, front + lines[..i])
  {
    assert front + lines == (front + lines[..i]) + [NEWLINE] + lines[i + 1..];
    NewestAtNewline(parse, front + lines[..i], lines[i + 1..]);
  }

  lemma BlockJoins(file: Bytes, start: nat, end: nat, cut: Bytes)
    requires start <= end <= |file|
    ensures file[..start] + (file[start..end] + cut) == file[..end] + cut
    ensures start == 0 ==> file[..start] + (file[start..end] + cut) == file[start..end] + cut
  {
  }

  /** For every file and block size: the reader stops, with the uuid the forward parse finds, "" exactly when
      there is none. `cut` is the end of a line whose start lies in an earlier block. */
  method ReadTranscriptTail(parse: Parser, file: Bytes, blockBytes: nat) returns (uuid: string, size: nat)
    requires blockBytes >= 1
    ensures uuid == NewestUuid(parse, file) && size == |file|
  {
    size := |file|;
    var end := size;
    var cut: Bytes := [];
    assert file[..end] + cut == file;
    while end > 0
      invariant 0 <= end <= size == |file|
      invariant end > 0 || size == 0 ==> NewestUuid(parse, file[..end] + cut) == NewestUuid(parse, file)
      invariant end == 0 && size > 0 ==> NewestUuid(parse, file) == ""
      invariant size == 0 ==> cut == []
      decreases end
    {
      var start := if end >= blockBytes then end - blockBytes else 0;
      var lines := file[start..end] + cut;
      BlockJoins(file, start, end, cut);
      if start > 0 {
        cut, lines := CutFirstLine(parse, file[..start], lines);
      }
      uuid := LastContentUuid(ParseJsonl(parse, lines));
      if uuid != "" { return; }
      end := start;
    }
    uuid := "";
    if size == 0 {
      assert file == [];
      NothingInNothing(parse);
    }
  }

  /** What may begin in an earlier block is cut off for it. */
  method CutFirstLine(parse: Parser, ghost front: Bytes, lines: Bytes) returns (cut: Bytes, rest: Bytes)
    ensures NewestUuid(parse, front + lines) == if NewestUuid(parse, rest) != "" then NewestUuid(parse, rest) else NewestUuid(parse, front + cut)
  {
    var lineEnd := Newline(lines);
    if lineEnd == -1 {
      NothingInNothing(parse);
      return lines, [];
    }
    FirstLineCutOff(parse, front, lines, lineEnd);
    return lines[..lineEnd], lines[lineEnd + 1..];
  }
}
