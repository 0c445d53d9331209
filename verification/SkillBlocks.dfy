/** Skill blocks in the answer of an agent (daemon/core/src/distiller.rs). */
module SkillBlocks {
  import opened Text
  import opened Wrappers

  datatype Skill = Skill(name: string, content: string)

  const HEADER_START := "---SKILL:"
  const HEADER_END := "---"
  const END_MARKER := "---END SKILL---"

  /** The name in a header line; None for any other line. */
  function HeaderName(line: string): Option<string> {
    if !(HEADER_START <= line) then None
    else
      var rest := line[|HEADER_START|..];
      if |rest| < |HEADER_END| || rest[|rest|-|HEADER_END|..] != HEADER_END then None
      else Some(Trim(rest[..|rest|-|HEADER_END|]))
  }

  /** A line is a header exactly when some text stands between the two marks; the trimmed text is
      the name. */
  lemma HeadersAreMarked(line: string, name: string)
    ensures HeaderName(line) == Some(name) <==>
            exists inner: string :: line == "---SKILL:" + inner + "---" && name == Trim(inner)
  {
    hide Trim;
    if HeaderName(line) == Some(name) {
      var rest := line[|HEADER_START|..];
      var inner := rest[..|rest|-|HEADER_END|];
      assert rest == inner + HEADER_END && line == HEADER_START + rest;
      assert line == "---SKILL:" + inner + "---";
    }
    forall inner: string | line == "---SKILL:" + inner + "---" && name == Trim(inner)
      ensures HeaderName(line) == Some(name)
    {
      var rest := line[|HEADER_START|..];
      assert rest == inner + "---";
      assert rest[|inner|..] == HEADER_END && rest[..|inner|] == inner;
    }
  }

  predicate IsMarker(line: string) { HeaderName(line).Some? || line == END_MARKER }

  // ----- The parser, line by line -----

  datatype Parser = Parser(name: Option<string>, lines: seq<string>, skills: seq<Skill>)

  function Idle(skills: seq<Skill>): Parser { Parser(None, [], skills) }

  /** Lines joined by line feeds; no lines make the empty text. */
  function Joined(lines: seq<string>): string {
    if lines == [] then "" else Join(lines, '\n')
  }

  /** The skill that an end marker completes, if it has a name and content. */
  function Completed(name: Option<string>, lines: seq<string>): seq<Skill> {
    var content := Trim(Joined(lines));
    if name.None? || name.value == "" || content == "" then [] else [Skill(name.value, content + "\n")]
  }

  function Fed(p: Parser, line: string): Parser {
    if HeaderName(line).Some? then Parser(HeaderName(line), [], p.skills)
    else if line == END_MARKER then Idle(p.skills + Completed(p.name, p.lines))
    else if p.name.Some? then p.(lines := p.lines + [line])
    else p
  }

  function FedAll(p: Parser, lines: seq<string>): Parser {
    if lines == [] then p else Fed(FedAll(p, lines[..|lines|-1]), lines[|lines|-1])
  }

  function SkillsIn(text: string): seq<Skill> { FedAll(Idle([]), Lines(text)).skills }

  lemma FedNext(p: Parser, lines: seq<string>, i: nat)
    requires i < |lines|
    ensures FedAll(p, lines[..i+1]) == Fed(FedAll(p, lines[..i]), lines[i])
  {
    hide Fed;
    assert lines[..i+1][..i] == lines[..i];
  }

  method ParseSkillBlocks(text: string) returns (skills: seq<Skill>)
    ensures skills == SkillsIn(text)
  {
    skills := [];
    var currentName: Option<string> := None;
    var currentLines: seq<string> := [];
    var lines := Lines(text);
    for i := 0 to |lines|
      invariant Parser(currentName, currentLines, skills) == FedAll(Idle([]), lines[..i])
    {
      FedNext(Idle([]), lines, i);
      hide Lines, HeaderName, Trim, Joined, FedAll;
      var line := lines[i];
      var header := HeaderName(line);
      if header.Some? {
        currentName, currentLines := header, [];
        continue;
      }
      if line == END_MARKER {
        if currentName.Some? {
          var content := Trim(Joined(currentLines));
          if currentName.value != "" && content != "" {
            skills := skills + [Skill(currentName.value, content + "\n")];
          }
        }
        currentName, currentLines := None, [];
        continue;
      }
      if currentName.Some? { currentLines := currentLines + [line]; }
    }
    assert lines[..|lines|] == lines;
  }

  lemma {:induction false} FedAllConcat(p: Parser, a: seq<string>, b: seq<string>)
    ensures FedAll(p, a + b) == FedAll(FedAll(p, a), b)
  {
    hide Fed;
    if b == [] {
      assert a + b == a;
    } else {
      assert (a + b)[..|a + b|-1] == a + b[..|b|-1];
      FedAllConcat(p, a, b[..|b|-1]);
    }
  }

  // ----- Every result is a block of the text -----

  /** Lines `h` and `e` are a header and the next marker after it, an end marker, and the skill
      is what stands between them. */
  ghost predicate IsBlock(lines: seq<string>, h: nat, e: nat, s: Skill) {
    && h < e < |lines|
    && HeaderName(lines[h]) == Some(s.name) && lines[e] == END_MARKER
    && (forall i | h < i < e :: !IsMarker(lines[i]))
    && s.content == Trim(Joined(lines[h+1..e])) + "\n"
  }

  ghost predicate ComesFrom(lines: seq<string>, s: Skill) {
    exists h: nat, e: nat :: IsBlock(lines, h, e, s)
  }

  /** A non-empty trimmed name, and trimmed non-empty content with one line feed after it. */
  ghost predicate WellShaped(s: Skill) {
    && s.name != "" && IsTrimmed(s.name)
    && |s.content| > 1 && s.content[|s.content|-1] == '\n' && IsTrimmed(s.content[..|s.content|-1])
  }

  /** What the parser knows: the current block began at line `h`. */
  ghost predicate Tracks(lines: seq<string>, p: Parser, h: nat) {
    && (forall s <- p.skills :: ComesFrom(lines, s) && WellShaped(s))
    && (p.name.Some? ==>
          && h < |lines| && HeaderName(lines[h]) == p.name && p.lines == lines[h+1..]
          && forall i | h < i < |lines| :: !IsMarker(lines[i]))
  }

  lemma ComesFromLonger(lines: seq<string>, line: string, s: Skill)
    requires ComesFrom(lines, s)
    ensures ComesFrom(lines + [line], s)
  {
    hide HeaderName, IsMarker;
    var h: nat, e: nat :| IsBlock(lines, h, e, s);
    assert (lines + [line])[h+1..e] == lines[h+1..e];
    assert IsBlock(lines + [line], h, e, s);
  }

  lemma HeaderNamesAreTrimmed(line: string)
    ensures HeaderName(line).Some? ==> IsTrimmed(HeaderName(line).value)
    ensures HeaderName(END_MARKER) == None
  {
    if HeaderName(line).Some? {
      var rest := line[|HEADER_START|..];
      TrimIsTrimmed(rest[..|rest|-|HEADER_END|]);
    }
    assert END_MARKER[3] != HEADER_START[3];
  }

  lemma CompletedIsBlock(lines: seq<string>, p: Parser, h: nat, s: Skill)
    requires Tracks(lines, p, h) && p.name.Some? && s in Completed(p.name, p.lines)
    ensures ComesFrom(lines + [END_MARKER], s) && WellShaped(s)
  {
    HeaderNamesAreTrimmed(lines[h]);
    TrimIsTrimmed(Joined(p.lines));
    hide Joined, Trim, HeaderName, IsTrimmed;
    var longer := lines + [END_MARKER];
    assert longer[h+1..|lines|] == lines[h+1..];
    assert IsBlock(longer, h, |lines|, s);
    assert s.content[..|s.content|-1] == Trim(Joined(p.lines));
  }

  lemma FedTracks(lines: seq<string>, p: Parser, h: nat, line: string)
    requires Tracks(lines, p, h)
    ensures Tracks(lines + [line], Fed(p, line), if HeaderName(line).Some? then |lines| else h)
  {
    hide HeaderName, Completed, WellShaped, ComesFrom;
    HeaderNamesAreTrimmed(line);
    forall s <- p.skills ensures ComesFrom(lines + [line], s) { ComesFromLonger(lines, line, s); }
    if line == END_MARKER && p.name.Some? {
      forall s <- Completed(p.name, p.lines) ensures ComesFrom(lines + [line], s) && WellShaped(s) {
        CompletedIsBlock(lines, p, h, s);
      }
    }
    assert p.name.None? ==> Completed(p.name, p.lines) == [] by { NothingWithoutName(p.lines); }
    assert p.name.Some? ==> (lines + [line])[h+1..] == lines[h+1..] + [line];
    assert (lines + [line])[|lines|+1..] == [];
  }

  lemma NothingWithoutName(lines: seq<string>)
    ensures Completed(None, lines) == []
  {
  }

  lemma NothingTracked()
    ensures Tracks([], Idle([]), 0)
  {
  }

  lemma {:induction false} FedAllTracks(lines: seq<string>) returns (h: nat)
    ensures Tracks(lines, FedAll(Idle([]), lines), h)
  {
    hide Tracks, Fed;
    h := 0;
    if lines == [] {
      NothingTracked();
    } else {
      var before := lines[..|lines|-1];
      h := FedAllTracks(before);
      FedTracks(before, FedAll(Idle([]), before), h, lines[|lines|-1]);
      assert before + [lines[|lines|-1]] == lines;
      if HeaderName(lines[|lines|-1]).Some? { h := |before|; }
    }
  }

  lemma {:induction false} SkillsStay(p: Parser, lines: seq<string>, s: Skill)
    requires s in p.skills
    ensures s in FedAll(p, lines).skills
  {
    hide HeaderName, Completed;
    if lines != [] { SkillsStay(p, lines[..|lines|-1], s); }
  }

  /** Between a header and the next marker the parser collects lines. */
  lemma {:induction false} Collecting(lines: seq<string>, h: nat, i: nat, name: string)
    requires h < i <= |lines| && HeaderName(lines[h]) == Some(name)
    requires forall j | h < j < i :: !IsMarker(lines[j])
    ensures var p := FedAll(Idle([]), lines[..i]);
            p.name == Some(name) && p.lines == lines[h+1..i]
  {
    hide HeaderName, Completed;
    var before := lines[..i-1];
    assert lines[..i][..i-1] == before;
    if h + 1 < i {
      Collecting(lines, h, i - 1, name);
      assert !IsMarker(lines[i-1]);
      assert lines[h+1..i] == lines[h+1..i-1] + [lines[i-1]];
    }
  }

  lemma BlocksAreReturned(lines: seq<string>, s: Skill)
    requires ComesFrom(lines, s) && WellShaped(s)
    ensures s in FedAll(Idle([]), lines).skills
  {
    hide HeaderName, Trim, Joined, FedAll;
    var h: nat, e: nat :| IsBlock(lines, h, e, s);
    Collecting(lines, h, e, s.name);
    HeaderNamesAreTrimmed("");
    FedAllConcat(Idle([]), lines[..e], [END_MARKER]);
    FedOnce(FedAll(Idle([]), lines[..e]), END_MARKER);
    assert lines[..e+1] == lines[..e] + [END_MARKER];
    assert s in FedAll(Idle([]), lines[..e+1]).skills by {
      assert Trim(Joined(lines[h+1..e])) != "";
    }
    assert lines == lines[..e+1] + lines[e+1..];
    FedAllConcat(Idle([]), lines[..e+1], lines[e+1..]);
    SkillsStay(FedAll(Idle([]), lines[..e+1]), lines[e+1..], s);
  }

  lemma FedOnce(p: Parser, line: string)
    ensures FedAll(p, [line]) == Fed(p, line)
  {
    assert [line][..0] == [];
  }

  /** Parsing returns a skill exactly when the text has a block for it: a header, lines without a
      marker, an end marker, with a non-empty trimmed name and non-empty trimmed content before
      one final line feed. */
  lemma SkillsAreTheBlocks(text: string, s: Skill)
    ensures s in SkillsIn(text) <==> ComesFrom(Lines(text), s) && WellShaped(s)
  {
    var h := FedAllTracks(Lines(text));
    if ComesFrom(Lines(text), s) && WellShaped(s) { BlocksAreReturned(Lines(text), s); }
  }

  // ----- All of them, in order -----

  function LastMarker(lines: seq<string>): (k: Option<nat>)
    ensures k.Some? ==> k.value < |lines| && IsMarker(lines[k.value])
    ensures forall i | 0 <= i < |lines| && IsMarker(lines[i]) :: k.Some? && i <= k.value
  {
    if lines == [] then None
    else if IsMarker(lines[|lines|-1]) then Some(|lines| - 1)
    else
      assert forall i | 0 <= i < |lines| - 1 :: lines[..|lines|-1][i] == lines[i];
      LastMarker(lines[..|lines|-1])
  }

  /** The skill of the block that ends in the last of these lines, if one does: the marker before
      it is a header, and name and content are not empty. */
  function LastBlock(lines: seq<string>): seq<Skill>
    requires lines != []
  {
    var before := lines[..|lines|-1];
    var h := LastMarker(before);
    if lines[|lines|-1] != END_MARKER || h.None? || HeaderName(before[h.value]).None? then []
    else Completed(HeaderName(before[h.value]), before[h.value + 1..])
  }

  /** The skills of all blocks, in the order in which the blocks end. */
  function BlocksIn(lines: seq<string>): seq<Skill> {
    if lines == [] then [] else BlocksIn(lines[..|lines|-1]) + LastBlock(lines)
  }

  /** The parser's state, from the text alone. */
  ghost predicate Reads(p: Parser, lines: seq<string>) {
    var h := LastMarker(lines);
    && p.skills == BlocksIn(lines)
    && (p.name.Some? <==> h.Some? && HeaderName(lines[h.value]).Some?)
    && (p.name.Some? ==> p.name == HeaderName(lines[h.value]) && p.lines == lines[h.value + 1..])
  }

  lemma FedReads(p: Parser, lines: seq<string>, line: string)
    requires Reads(p, lines)
    ensures Reads(Fed(p, line), lines + [line])
  {
    hide HeaderName, Completed;
    var longer := lines + [line];
    assert longer[..|lines|] == lines;
    NothingWithoutName(p.lines);
    HeaderNamesAreTrimmed(line);
    assert longer[|lines| + 1..] == [];
    var h := LastMarker(lines);
    if h.Some? && !IsMarker(line) { assert longer[h.value + 1..] == lines[h.value + 1..] + [line]; }
  }

  lemma {:induction false} FedAllReads(lines: seq<string>)
    ensures Reads(FedAll(Idle([]), lines), lines)
  {
    hide Reads, Fed;
    if lines == [] {
      NothingRead();
    } else {
      var before := lines[..|lines|-1];
      assert lines == before + [lines[|lines|-1]];
      FedAllReads(before);
      FedReads(FedAll(Idle([]), before), before, lines[|lines|-1]);
    }
  }

  lemma NothingRead()
    ensures Reads(Idle([]), [])
  {
  }

  /** Parsing returns the skills of all blocks of the text, each once, in the order of the blocks. */
  lemma SkillsComeInOrder(text: string)
    ensures SkillsIn(text) == BlocksIn(Lines(text))
  {
    FedAllReads(Lines(text));
    hide FedAll, BlocksIn, Lines;
  }

  // ----- Printing -----

  function HeaderLine(name: string): string { "---SKILL: " + name + "---" }

  function Print(s: Skill): string {
    HeaderLine(s.name) + "\n" + s.content + END_MARKER + "\n"
  }

  /** Text between blocks, or a block. */
  datatype Piece = Noise(text: string) | Block(skill: Skill)

  function PrintAll(pieces: seq<Piece>): string {
    if pieces == [] then ""
    else (match pieces[0] case Noise(text) => text case Block(s) => Print(s)) + PrintAll(pieces[1..])
  }

  function SkillsOf(pieces: seq<Piece>): seq<Skill> {
    if pieces == [] then []
    else (match pieces[0] case Noise(_) => [] case Block(s) => [s]) + SkillsOf(pieces[1..])
  }

  ghost predicate HeaderFree(lines: seq<string>) {
    forall i | 0 <= i < |lines| :: HeaderName(lines[i]) == None
  }

  /** A trimmed non-empty name on one line; trimmed non-empty content before one line feed, whose
      lines are no markers and do not end in a carriage return. */
  ghost predicate WellFormed(s: Skill) {
    && WellShaped(s) && '\n' !in s.name
    && forall i | 0 <= i < |BodyLines(s)| ::
         !IsMarker(BodyLines(s)[i]) && WithoutCarriageReturn(BodyLines(s)[i]) == BodyLines(s)[i]
  }

  ghost function BodyLines(s: Skill): seq<string> {
    if s.content == "" then [] else Split(s.content[..|s.content|-1], '\n')
  }

  ghost function BlockLines(s: Skill): seq<string> {
    [HeaderLine(s.name)] + BodyLines(s) + [END_MARKER]
  }

  /** Noise is made of whole lines, none of them a header; stray end markers are harmless. */
  ghost predicate IsDocument(pieces: seq<Piece>) {
    forall i | 0 <= i < |pieces| ::
      match pieces[i]
      case Noise(text) => text != "" && text[|text|-1] == '\n' && HeaderFree(Lines(text))
      case Block(s) => WellFormed(s)
  }

  lemma {:induction false} NoiseIsIgnored(lines: seq<string>, skills: seq<Skill>)
    requires HeaderFree(lines)
    ensures FedAll(Idle(skills), lines) == Idle(skills)
  {
    if lines != [] {
      NoiseIsIgnored(lines[..|lines|-1], skills);
      NothingWithoutName([]);
      hide HeaderName, Completed;
    }
  }

  lemma PrintedHeader(name: string)
    requires IsTrimmed(name)
    ensures HeaderName(HeaderLine(name)) == Some(name)
  {
    var rest := HeaderLine(name)[|HEADER_START|..];
    assert rest == " " + name + "---";
    assert rest[|rest|-3..] == HEADER_END && rest[..|rest|-3] == " " + name;
    LeadingSpaceIsTrimmed(name);
  }

  lemma LeadingSpaceIsTrimmed(name: string)
    requires IsTrimmed(name)
    ensures Trim(" " + name) == name
  {
    assert (" " + name)[1..] == name;
    TrimIsTrimmed(name);
  }

  /** The lines of a printed block. */
  lemma PrintedLines(s: Skill, text: string)
    requires WellFormed(s)
    ensures Lines(Print(s) + text) == BlockLines(s) + Lines(text)
  {
    var header, body := HeaderLine(s.name), s.content[..|s.content|-1];
    HeaderIsOneLine(s.name);
    EndIsOneLine();
    assert s.content == body + "\n";
    assert Terminated(BodyLines(s)) == BodyLines(s) by { hide HeaderName; }
    PrintRegrouped(s, body, text);
    hide *;
    LinesConcat(header, body + "\n" + (END_MARKER + "\n" + text));
    LinesConcat(body, END_MARKER + "\n" + text);
    LinesConcat(END_MARKER, text);
    BlockLinesOf(s);
    ThreePartsRegrouped([header], BodyLines(s), [END_MARKER], Lines(text));
  }

  lemma BlockLinesOf(s: Skill)
    ensures BlockLines(s) == [HeaderLine(s.name)] + BodyLines(s) + [END_MARKER]
    ensures s.content != "" ==> BodyLines(s) == Split(s.content[..|s.content|-1], '\n')
  {
  }

  lemma ThreePartsRegrouped(a: seq<string>, b: seq<string>, c: seq<string>, d: seq<string>)
    ensures a + (b + (c + d)) == a + b + c + d
  {
  }

  lemma HeaderIsOneLine(name: string)
    requires '\n' !in name
    ensures Terminated(Split(HeaderLine(name), '\n')) == [HeaderLine(name)]
  {
    SplitWhole(HeaderLine(name), '\n');
    hide Split;
  }

  lemma EndIsOneLine()
    ensures Terminated(Split(END_MARKER, '\n')) == [END_MARKER]
  {
    SplitWhole(END_MARKER, '\n');
    hide Split;
  }

  lemma PrintRegrouped(s: Skill, body: string, text: string)
    requires s.content == body + "\n"
    ensures Print(s) + text ==
            HeaderLine(s.name) + "\n" + (body + "\n" + (END_MARKER + "\n" + text))
  {
    hide HeaderLine;
    var front := HeaderLine(s.name) + "\n";
    ConcatAssociates(front + s.content, END_MARKER, "\n");
    ConcatAssociates(front, s.content, END_MARKER + "\n");
    ConcatAssociates(front, s.content + (END_MARKER + "\n"), text);
    ConcatAssociates(s.content, END_MARKER + "\n", text);
  }

  /** Feeding the lines of a block adds its skill. */
  lemma BlockIsParsed(s: Skill, skills: seq<Skill>)
    requires WellFormed(s)
    ensures FedAll(Idle(skills), BlockLines(s)) == Idle(skills + [s])
  {
    PrintedHeader(s.name);
    BodyIsContent(s);
    HeaderNamesAreTrimmed("");
    hide HeaderLine, BodyLines, Completed, HeaderName, FedAll;
    var open := Parser(Some(s.name), [], skills);
    FedOnce(Idle(skills), HeaderLine(s.name));
    BodyIsCollected(open, BodyLines(s));
    assert [] + BodyLines(s) == BodyLines(s);
    FedOnce(open.(lines := BodyLines(s)), END_MARKER);
    FedAllConcat(Idle(skills), [HeaderLine(s.name)], BodyLines(s));
    FedAllConcat(Idle(skills), [HeaderLine(s.name)] + BodyLines(s), [END_MARKER]);
  }

  lemma BodyIsContent(s: Skill)
    requires WellFormed(s)
    ensures Completed(Some(s.name), BodyLines(s)) == [s]
  {
    hide IsMarker, WithoutCarriageReturn, Split, Join, Trim;
    var body := s.content[..|s.content|-1];
    JoinUndoesSplit(body, '\n');
    TrimIsTrimmed(body);
    assert s.content == body + "\n";
  }

  lemma {:induction false} BodyIsCollected(p: Parser, lines: seq<string>)
    requires p.name.Some? && forall i | 0 <= i < |lines| :: !IsMarker(lines[i])
    ensures FedAll(p, lines) == p.(lines := p.lines + lines)
  {
    hide HeaderName, Completed;
    if lines == [] {
      assert p.lines + [] == p.lines;
    } else {
      BodyIsCollected(p, lines[..|lines|-1]);
      assert p.lines + lines == p.lines + lines[..|lines|-1] + [lines[|lines|-1]];
      assert !IsMarker(lines[|lines|-1]);
    }
  }

  lemma {:induction false} DocumentIsParsed(pieces: seq<Piece>, end: string, skills: seq<Skill>)
    requires IsDocument(pieces) && HeaderFree(Lines(end))
    ensures FedAll(Idle(skills), Lines(PrintAll(pieces) + end)) == Idle(skills + SkillsOf(pieces))
  {
    hide Lines, FedAll, Print, BlockLines, WellFormed, HeaderFree;
    if pieces == [] {
      assert "" + end == end && skills + [] == skills;
      NoiseIsIgnored(Lines(end), skills);
    } else {
      var rest := PrintAll(pieces[1..]) + end;
      match pieces[0] {
        case Noise(text) =>
          NoiseLines(text, rest);
          ConcatAssociates(text, PrintAll(pieces[1..]), end);
          FedAllConcat(Idle(skills), Lines(text), Lines(rest));
          NoiseIsIgnored(Lines(text), skills);
          DocumentIsParsed(pieces[1..], end, skills);
          assert [] + SkillsOf(pieces[1..]) == SkillsOf(pieces[1..]);
        case Block(s) =>
          PrintedLines(s, rest);
          ConcatAssociates(Print(s), PrintAll(pieces[1..]), end);
          FedAllConcat(Idle(skills), BlockLines(s), Lines(rest));
          BlockIsParsed(s, skills);
          DocumentIsParsed(pieces[1..], end, skills + [s]);
          assert skills + [s] + SkillsOf(pieces[1..]) == skills + ([s] + SkillsOf(pieces[1..]));
      }
    }
  }

  lemma NoiseLines(text: string, rest: string)
    requires text != "" && text[|text|-1] == '\n'
    ensures Lines(text + rest) == Lines(text) + Lines(rest)
  {
    var front := text[..|text|-1];
    assert text == front + "\n";
    hide Lines;
    LinesConcat(front, rest);
  }

  /** Parsing undoes printing: any list of well-formed skills comes back from its printed
      blocks, with any text without header lines before, between and after them. */
  lemma ParsingUndoesPrinting(pieces: seq<Piece>, end: string)
    requires IsDocument(pieces) && HeaderFree(Lines(end))
    ensures SkillsIn(PrintAll(pieces) + end) == SkillsOf(pieces)
  {
    hide Lines, FedAll;
    DocumentIsParsed(pieces, end, []);
    assert [] + SkillsOf(pieces) == SkillsOf(pieces);
  }
}
