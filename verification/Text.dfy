/** String operations with the meaning the Rust and TypeScript code relies on. */
module Text {
  import opened Wrappers

  /** The Unicode White_Space property, which `str::trim` strips. */
  predicate IsWhitespace(c: char) {
    var n := c as int;
    || 0x9 <= n <= 0xD || n == 0x20 || n == 0x85 || n == 0xA0 || n == 0x1680 || 0x2000 <= n <= 0x200A
    || n == 0x2028 || n == 0x2029 || n == 0x202F || n == 0x205F || n == 0x3000
  }

  function TrimStart(s: string): string {
    if s != "" && IsWhitespace(s[0]) then TrimStart(s[1..]) else s
  }

  function TrimEnd(s: string): string {
    if s != "" && IsWhitespace(s[|s|-1]) then TrimEnd(s[..|s|-1]) else s
  }

  function Trim(s: string): string { TrimEnd(TrimStart(s)) }

  predicate IsTrimmed(s: string) {
    s != "" ==> !IsWhitespace(s[0]) && !IsWhitespace(s[|s|-1])
  }

  lemma TrimEndFacts(s: string)
    ensures TrimEnd(s) <= s
    ensures TrimEnd(s) != "" ==> !IsWhitespace(TrimEnd(s)[|TrimEnd(s)|-1])
  {
  }

  lemma TrimStartFacts(s: string)
    ensures TrimStart(s) != "" ==> !IsWhitespace(TrimStart(s)[0])
  {
  }

  /** Trimming gives a trimmed string, and leaves exactly the trimmed strings alone. */
  lemma TrimIsTrimmed(s: string)
    ensures IsTrimmed(Trim(s))
    ensures Trim(s) == s <==> IsTrimmed(s)
  {
    TrimStartFacts(s);
    TrimEndFacts(TrimStart(s));
    if IsTrimmed(s) {
      assert TrimStart(s) == s && TrimEnd(s) == s;
    }
  }

  ghost predicate AllWhitespace(s: string) {
    forall i | 0 <= i < |s| :: IsWhitespace(s[i])
  }

  lemma {:induction false} TrimStartTakesWhitespace(s: string) returns (front: string)
    ensures s == front + TrimStart(s) && AllWhitespace(front)
  {
    if s != "" && IsWhitespace(s[0]) {
      front := TrimStartTakesWhitespace(s[1..]);
      front := [s[0]] + front;
    } else {
      front := "";
    }
  }

  lemma {:induction false} TrimEndTakesWhitespace(s: string) returns (back: string)
    ensures s == TrimEnd(s) + back && AllWhitespace(back)
  {
    if s != "" && IsWhitespace(s[|s|-1]) {
      back := TrimEndTakesWhitespace(s[..|s|-1]);
      ConcatAssociates(TrimEnd(s), back, [s[|s|-1]]);
      back := back + [s[|s|-1]];
    } else {
      back := "";
    }
  }

  /** Trimming takes nothing but whitespace. */
  lemma TrimTakesWhitespace(s: string) returns (front: string, back: string)
    ensures s == front + Trim(s) + back && AllWhitespace(front) && AllWhitespace(back)
  {
    front := TrimStartTakesWhitespace(s);
    back := TrimEndTakesWhitespace(TrimStart(s));
    hide TrimStart, TrimEnd, AllWhitespace;
    ConcatAssociates(front, Trim(s), back);
  }

  // ----- Splitting and joining -----

  /** The parts between separators; there is always at least one part. */
  function Split(s: string, sep: char): (parts: seq<string>)
    ensures parts != []
    decreases |s|
  {
    if s == "" then [""]
    else if s[0] == sep then [""] + Split(s[1..], sep)
    else Prepended(s[0], Split(s[1..], sep))
  }

  function Prepended(c: char, parts: seq<string>): (r: seq<string>)
    requires parts != []
    ensures r != []
  {
    [[c] + parts[0]] + parts[1..]
  }

  lemma PrependedConcat(c: char, parts: seq<string>, more: seq<string>)
    requires parts != []
    ensures Prepended(c, parts) + more == Prepended(c, parts + more)
  {
  }

  lemma PrependedFront(c: char, parts: seq<string>)
    requires |parts| > 1
    ensures Prepended(c, parts)[..|parts|-1] == Prepended(c, parts[..|parts|-1])
  {
  }

  function Join(parts: seq<string>, sep: char): string
    requires parts != []
    decreases |parts|
  {
    if |parts| == 1 then parts[0] else parts[0] + [sep] + Join(parts[1..], sep)
  }

  lemma {:induction false} JoinAppended(parts: seq<string>, part: string, sep: char)
    requires parts != []
    ensures Join(parts + [part], sep) == Join(parts, sep) + ([sep] + part)
    decreases |parts|
  {
    var more := parts + [part];
    assert more[1..] == parts[1..] + [part];
    if |parts| == 1 {
      assert more[1..] == [part] && parts[0] + [sep] + part == parts[0] + ([sep] + part);
    } else {
      JoinAppended(parts[1..], part, sep);
      ConcatAssociates(parts[0] + [sep], Join(parts[1..], sep), [sep] + part);
    }
  }

  lemma ConcatAssociates(a: string, b: string, c: string)
    ensures a + b + c == a + (b + c)
  {
  }

  lemma {:induction false} JoinConcat(a: seq<string>, b: seq<string>, sep: char)
    requires a != [] && b != []
    ensures Join(a + b, sep) == Join(a, sep) + [sep] + Join(b, sep)
    decreases |a|
  {
    assert (a + b)[1..] == a[1..] + b;
    if |a| == 1 {
      assert a[1..] + b == b;
    } else {
      JoinConcat(a[1..], b, sep);
      var tail := [sep] + Join(b, sep);
      ConcatAssociates(Join(a[1..], sep), [sep], Join(b, sep));
      ConcatAssociates(Join(a, sep), [sep], Join(b, sep));
      ConcatAssociates(a[0] + [sep], Join(a[1..], sep), tail);
    }
  }

  ghost predicate Free(parts: seq<string>, sep: char) {
    forall i | 0 <= i < |parts| :: sep !in parts[i]
  }

  /** Joining undoes splitting, and the parts are free of the separator. */
  lemma {:induction false} JoinUndoesSplit(s: string, sep: char)
    ensures Free(Split(s, sep), sep) && Join(Split(s, sep), sep) == s
    decreases |s|
  {
    if s != "" {
      JoinUndoesSplit(s[1..], sep);
      var rest := Split(s[1..], sep);
      assert s == [s[0]] + s[1..];
      if s[0] == sep {
        assert ([""] + rest)[1..] == rest;
      } else {
        assert ([[s[0]] + rest[0]] + rest[1..])[1..] == rest[1..];
      }
    }
  }

  /** A separator between two texts separates their parts. */
  lemma {:induction false} SplitConcat(a: string, b: string, sep: char)
    ensures Split(a + [sep] + b, sep) == Split(a, sep) + Split(b, sep)
    decreases |a|
  {
    hide Prepended;
    var whole := a + [sep] + b;
    if a == "" {
      assert whole[1..] == b;
    } else {
      assert whole[1..] == a[1..] + [sep] + b;
      SplitConcat(a[1..], b, sep);
      if a[0] == sep {
        assert [""] + (Split(a[1..], sep) + Split(b, sep)) == [""] + Split(a[1..], sep) + Split(b, sep);
      } else {
        PrependedConcat(a[0], Split(a[1..], sep), Split(b, sep));
      }
    }
  }

  /** Text without separators, and no other, is its own only part. */
  lemma {:induction false} SplitWhole(s: string, sep: char)
    ensures sep !in s ==> Split(s, sep) == [s]
    ensures |Split(s, sep)| == 1 ==> sep !in s
    decreases |s|
  {
    if s != "" {
      SplitWhole(s[1..], sep);
      assert s == [s[0]] + s[1..];
    }
  }

  /** Text without separators at the end belongs to the last part. */
  lemma {:induction false} SplitLast(s: string, end: string, sep: char)
    requires sep !in end
    ensures var parts, more := Split(s, sep), Split(s + end, sep);
            && |more| == |parts| && more[..|more|-1] == parts[..|parts|-1]
            && more[|more|-1] == parts[|parts|-1] + end
    decreases |s|
  {
    if s == "" {
      assert s + end == end;
      SplitWhole(end, sep);
    } else {
      assert (s + end)[1..] == s[1..] + end;
      SplitLast(s[1..], end, sep);
      var parts := Split(s[1..], sep);
      var more := Split(s[1..] + end, sep);
      if s[0] == sep {
        assert ([""] + more)[..|more|] == [""] + more[..|more|-1];
        assert ([""] + parts)[..|parts|] == [""] + parts[..|parts|-1];
      } else if |parts| == 1 {
        ConcatAssociates([s[0]], parts[0], end);
      } else {
        assert more[0] == more[..|more|-1][0] == parts[..|parts|-1][0] == parts[0];
        PrependedFront(s[0], more);
        PrependedFront(s[0], parts);
      }
    }
  }

  /** A text starts with a directory exactly when its first part is this directory. */
  lemma FirstDirectory(s: string, front: string, sep: char)
    requires sep !in front
    ensures front + [sep] <= s <==> |Split(s, sep)| > 1 && Split(s, sep)[0] == front
    ensures front + [sep] <= s ==> Split(s, sep) == [front] + Split(s[|front|+1..], sep)
  {
    var parts := Split(s, sep);
    if front + [sep] <= s {
      assert s == front + [sep] + s[|front|+1..];
      SplitConcat(front, s[|front|+1..], sep);
      SplitWhole(front, sep);
    }
    JoinUndoesSplit(s, sep);
  }

  /** Splitting undoes joining when the parts are free of the separator. */
  lemma {:induction false} SplitUndoesJoin(parts: seq<string>, sep: char)
    requires parts != [] && Free(parts, sep)
    ensures Split(Join(parts, sep), sep) == parts
    decreases |parts|
  {
    SplitWhole(parts[0], sep);
    if |parts| == 1 {
      assert parts == [parts[0]];
    } else {
      var rest := parts[1..];
      forall i | 0 <= i < |rest| ensures sep !in rest[i] { assert rest[i] == parts[i+1]; }
      SplitUndoesJoin(rest, sep);
      SplitConcat(parts[0], Join(rest, sep), sep);
      assert parts == [parts[0]] + rest;
    }
  }

  // ----- Lines -----

  function WithoutCarriageReturn(line: string): string {
    if line != "" && line[|line|-1] == '\r' then line[..|line|-1] else line
  }

  function Terminated(lines: seq<string>): seq<string> {
    seq(|lines|, i requires 0 <= i < |lines| => WithoutCarriageReturn(lines[i]))
  }

  /** `str::lines`: a line ends in a line feed, with or without a carriage return before it; the
      last line needs no line feed, and then keeps its carriage return. */
  function Lines(text: string): seq<string> {
    var parts := Split(text, '\n');
    var last := parts[|parts|-1];
    Terminated(parts[..|parts|-1]) + if last == "" then [] else [last]
  }

  /** The lines of a text that ends with a line feed come first, then those of what follows. */
  lemma LinesConcat(front: string, text: string)
    ensures Lines(front + "\n" + text) == Terminated(Split(front, '\n')) + Lines(text)
    ensures Lines(front + "\n") == Terminated(Split(front, '\n'))
  {
    hide Split, WithoutCarriageReturn;
    LinesOfSplit(front, text);
    LinesOfSplit(front, "");
    SplitWhole("", '\n');
    assert front + "\n" + "" == front + "\n";
    assert Lines("") == [];
  }

  lemma LinesOfSplit(front: string, text: string)
    ensures Lines(front + "\n" + text) == Terminated(Split(front, '\n')) + Lines(text)
  {
    hide Split, WithoutCarriageReturn;
    assert "\n" == ['\n'];
    SplitConcat(front, text, '\n');
    var a, b := Split(front, '\n'), Split(text, '\n');
    assert (a + b)[..|a + b|-1] == a + b[..|b|-1];
    assert Terminated(a + b[..|b|-1]) == Terminated(a) + Terminated(b[..|b|-1]);
    var last := if b[|b|-1] == "" then [] else [b[|b|-1]];
    assert Terminated(a) + Terminated(b[..|b|-1]) + last == Terminated(a) + (Terminated(b[..|b|-1]) + last);
  }

  /** Lines with their ends, and text after them. */
  ghost function EndedLines(lines: seq<string>, ends: seq<string>, last: string): string
    requires |lines| == |ends|
  {
    if lines == [] then last else lines[0] + ends[0] + EndedLines(lines[1..], ends[1..], last)
  }

  /** Lines come back whichever of the two ends each of them has; a last line needs none. */
  lemma {:induction false} LinesUndoEnds(lines: seq<string>, ends: seq<string>, last: string)
    requires |lines| == |ends| && '\n' !in last
    requires forall i | 0 <= i < |lines| :: '\n' !in lines[i] && (lines[i] != "" ==> lines[i][|lines[i]|-1] != '\r')
    requires forall i | 0 <= i < |ends| :: ends[i] == "\n" || ends[i] == "\r\n"
    ensures Lines(EndedLines(lines, ends, last)) == lines + if last == "" then [] else [last]
  {
    if lines == [] {
      SplitWhole(last, '\n');
      hide Split;
      assert [last][..0] == [];
    } else {
      var rest := EndedLines(lines[1..], ends[1..], last);
      LinesUndoEnds(lines[1..], ends[1..], last);
      OneLine(lines[0], ends[0], rest);
      hide Lines;
      assert lines == [lines[0]] + lines[1..];
    }
  }

  lemma OneLine(line: string, end: string, rest: string)
    requires '\n' !in line && (line != "" ==> line[|line|-1] != '\r')
    requires end == "\n" || end == "\r\n"
    ensures Lines(line + end + rest) == [line] + Lines(rest)
  {
    var front := if end == "\n" then line else line + "\r";
    SplitWhole(front, '\n');
    LinesConcat(front, rest);
    hide Split, Lines;
    ConcatAssociates(line, "\r", "\n");
    assert "\r\n" == "\r" + "\n";
    assert line + end + rest == front + "\n" + rest;
    CarriageReturnComesOff(line);
    hide WithoutCarriageReturn;
    assert Terminated([front]) == [line];
  }

  lemma CarriageReturnComesOff(line: string)
    requires line != "" ==> line[|line|-1] != '\r'
    ensures WithoutCarriageReturn(line) == line && WithoutCarriageReturn(line + "\r") == line
  {
  }
}
