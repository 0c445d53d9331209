/** Cutting terminal output to a limit without cutting a character (daemon/core/src/capabilities.rs). */
module TerminalOutput {
  import opened Integers
  import opened Utf8

  const MAX_TERMINAL_OUTPUT := 1_048_576

  /** The UTF-8 bytes of an ASCII text. */
  function Ascii(text: string): seq<u8>
    requires forall i | 0 <= i < |text| :: text[i] <= (0x7F as char)
  {
    seq(|text|, i requires 0 <= i < |text| => text[i] as int as u8)
  }

  const TRUNCATED_OUTPUT_MARKER := Ascii("[output truncated]\n")

  /** Where the kept part starts: `start` is the first position that leaves valid text of at
      most the maximal length, and the text shrinks below that length by three bytes at most. */
  ghost predicate KeepsFrom(output: seq<u8>, start: nat) {
    && |output| - MAX_TERMINAL_OUTPUT <= start <= |output| - MAX_TERMINAL_OUTPUT + 3
    && start <= |output| && Valid(output[start..])
    && forall i: nat | |output| - MAX_TERMINAL_OUTPUT <= i < start :: !Valid(output[i..])
  }

  lemma MarkerIsText()
    ensures Valid(TRUNCATED_OUTPUT_MARKER)
  {
    hide Valid;
    AsciiIsText(TRUNCATED_OUTPUT_MARKER);
  }

  lemma {:induction false} AsciiIsText(s: seq<u8>)
    requires forall i | 0 <= i < |s| :: s[i] <= 0x7F
    ensures Valid(s)
  {
    if s != [] { AsciiIsText(s[1..]); }
  }

  /** In valid text, a suffix is valid exactly from a boundary on. */
  lemma SuffixesFromBoundaries(output: seq<u8>, i: nat)
    requires Valid(output) && i <= |output|
    ensures IsCharBoundary(output, i) <==> Valid(output[i..])
  {
    BoundariesSplitText(output, i);
    hide CharLength, Tail;
    if Valid(output[i..]) && i < |output| { CharLengthFacts(output[i..]); }
  }

  method TruncateTerminalOutput(output: seq<u8>) returns (r: seq<u8>, truncated: bool)
    requires Valid(output)
    ensures truncated <==> |output| > MAX_TERMINAL_OUTPUT
    ensures !truncated ==> r == output
    ensures truncated ==> exists start: nat ::
                KeepsFrom(output, start) && r == TRUNCATED_OUTPUT_MARKER + output[start..]
    ensures Valid(r)
  {
    if |output| <= MAX_TERMINAL_OUTPUT { return output, false; }
    hide Valid, IsCharBoundary;
    var start := |output| - MAX_TERMINAL_OUTPUT;
    ghost var near := BoundaryIsNear(output, start);
    while start < |output| && !IsCharBoundary(output, start)
      invariant |output| - MAX_TERMINAL_OUTPUT <= start <= near
      invariant forall i: nat | |output| - MAX_TERMINAL_OUTPUT <= i < start :: !Valid(output[i..])
    {
      SuffixesFromBoundaries(output, start);
      start := start + 1;
    }
    SuffixesFromBoundaries(output, start);
    MarkerIsText();
    assert start == |output| ==> start == near;
    ValidConcat(TRUNCATED_OUTPUT_MARKER, output[start..]);
    assert KeepsFrom(output, start);
    return TRUNCATED_OUTPUT_MARKER + output[start..], true;
  }
}
