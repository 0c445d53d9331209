/**
 The names of skill files (daemon/core/src/skills.rs) and the names that distilling gives
 them (daemon/core/src/distiller.rs). Paths are Unix paths.
 */
module SkillNames {
  import opened Text
  import opened Wrappers

  // ----- Paths -----

  datatype Component = RootDir | CurDir | ParentDir | Normal(part: string)

  /** `Path::components` drops empty parts, and single dots that do not start the path. */
  function Kept(parts: seq<string>): seq<string> {
    if parts == [] then []
    else (if parts[0] in {"", "."} then [] else [parts[0]]) + Kept(parts[1..])
  }

  function ComponentOf(part: string): Component {
    if part == ".." then ParentDir else Normal(part)
  }

  function ComponentsOf(parts: seq<string>): seq<Component> {
    if parts == [] then [] else ComponentsOf(parts[..|parts|-1]) + [ComponentOf(parts[|parts|-1])]
  }

  function Components(path: string): seq<Component> {
    var parts := Split(path, '/');
    (if "/" <= path then [RootDir] else if parts[0] == "." then [CurDir] else []) + ComponentsOf(Kept(parts))
  }

  predicate HasDots(s: string) {
    exists i | 0 <= i < |s| - 1 :: s[i] == '.' && s[i+1] == '.'
  }

  predicate EndsWith(s: string, suffix: string) {
    |suffix| <= |s| && s[|s|-|suffix|..] == suffix
  }

  // ----- Normalising -----

  datatype Naming = Name(text: string) | EmptyName | InvalidName

  /** The parts of a path that has only normal components without double dots. */
  function NormalParts(components: seq<Component>): Option<seq<string>> {
    if components == [] then Some([])
    else
      var before, last := NormalParts(components[..|components|-1]), components[|components|-1];
      if before.None? || !last.Normal? || last.part == "" || HasDots(last.part) then None
      else Some(before.value + [last.part])
  }

  function WithExtension(fileName: string): string {
    if EndsWith(fileName, ".md") then fileName else fileName + ".md"
  }

  function WithLastExtended(parts: seq<string>): seq<string>
    requires parts != []
  {
    parts[..|parts|-1] + [WithExtension(parts[|parts|-1])]
  }

  function Normalized(name: string): Naming {
    var trimmed := Trim(name);
    if trimmed == "" then EmptyName
    else if "/" <= trimmed then InvalidName
    else
      var parts := NormalParts(Components(trimmed));
      if parts.None? || parts.value == [] then InvalidName
      else Name(Join(WithLastExtended(parts.value), '/'))
  }

  lemma {:induction false} BadPrefixIsBad(components: seq<Component>, i: nat)
    requires i <= |components| && NormalParts(components[..i]) == None
    ensures NormalParts(components) == None
    decreases |components|
  {
    if i == |components| {
      assert components[..i] == components;
    } else {
      assert components[..|components|-1][..i] == components[..i];
      BadPrefixIsBad(components[..|components|-1], i);
    }
  }

  method NormalizeRelativeName(name: string) returns (r: Naming)
    ensures r == Normalized(name)
  {
    hide HasDots, Components, Trim;
    var trimmed := Trim(name);
    if trimmed == "" { return EmptyName; }
    if "/" <= trimmed { return InvalidName; }
    var parts: seq<string> := [];
    var components := Components(trimmed);
    for i := 0 to |components|
      invariant NormalParts(components[..i]) == Some(parts)
    {
      assert components[..i+1][..i] == components[..i];
      if !components[i].Normal? || components[i].part == "" || HasDots(components[i].part) {
        BadPrefixIsBad(components, i + 1);
        return InvalidName;
      }
      parts := parts + [components[i].part];
    }
    assert components[..|components|] == components;
    if parts == [] { return InvalidName; }
    var fileName := parts[|parts|-1];
    if !EndsWith(fileName, ".md") {
      parts := parts[|parts|-1 := fileName + ".md"];
    }
    assert parts == WithLastExtended(NormalParts(components).value);
    return Name(Join(parts, '/'));
  }

  // ----- What a normal name is -----

  ghost predicate Plain(part: string) {
    part != "" && part != "." && '/' !in part && !HasDots(part)
  }

  ghost predicate AllPlain(parts: seq<string>) {
    forall i | 0 <= i < |parts| :: Plain(parts[i])
  }

  ghost predicate NoDots(parts: seq<string>) {
    forall i | 0 <= i < |parts| :: !HasDots(parts[i])
  }

  lemma {:induction false} KeptIsNamed(parts: seq<string>)
    requires Free(parts, '/')
    ensures forall i | 0 <= i < |Kept(parts)| ::
              Kept(parts)[i] !in {"", "."} && '/' !in Kept(parts)[i]
    ensures forall i | 0 <= i < |parts| && parts[i] !in {"", "."} :: parts[i] in Kept(parts)
  {
    if parts != [] {
      assert forall i | 0 <= i < |parts| - 1 :: parts[1..][i] == parts[i+1];
      KeptIsNamed(parts[1..]);
      assert forall i | 0 < i < |parts| :: parts[i] == parts[1..][i-1];
    }
  }

  lemma {:induction false} KeptConcat(a: seq<string>, b: seq<string>)
    ensures Kept(a + b) == Kept(a) + Kept(b)
  {
    if a == [] {
      assert a + b == b;
    } else {
      assert (a + b)[1..] == a[1..] + b;
      KeptConcat(a[1..], b);
    }
  }

  lemma {:induction false} NamedPartsAreKept(parts: seq<string>)
    requires forall i | 0 <= i < |parts| :: parts[i] !in {"", "."}
    ensures Kept(parts) == parts
  {
    if parts != [] {
      NamedPartsAreKept(parts[1..]);
      assert parts == [parts[0]] + parts[1..];
    }
  }

  lemma {:induction false} NormalPartsAreTheKept(parts: seq<string>)
    requires forall i | 0 <= i < |parts| :: parts[i] != ""
    ensures NormalParts(ComponentsOf(parts)) == if NoDots(parts) then Some(parts) else None
  {
    assert HasDots("..") by { assert ".."[0] == '.' && ".."[1] == '.'; }
    hide HasDots;
    if parts != [] {
      var before := parts[..|parts|-1];
      NormalPartsAreTheKept(before);
      assert parts == before + [parts[|parts|-1]];
      assert ComponentsOf(parts)[..|ComponentsOf(parts)|-1] == ComponentsOf(before);
    }
  }

  lemma {:induction false} LeadingDotIsInvalid(parts: seq<string>)
    ensures NormalParts([CurDir] + ComponentsOf(parts)) == None
  {
    var components := [CurDir] + ComponentsOf(parts);
    assert components[..1] == [CurDir];
    assert [CurDir][..0] == [];
    hide ComponentsOf;
    BadPrefixIsBad(components, 1);
  }

  /** A name is accepted exactly when, trimmed, it is a relative path that does not start with a
      single dot and whose parts have no double dots; the result is these parts, the last one
      ending in `.md`. */
  lemma NormalizedMeans(name: string)
    ensures var t := Trim(name);
            var parts := Kept(Split(t, '/'));
            match Normalized(name)
            case EmptyName => t == ""
            case InvalidName => t != "" && ("/" <= t || Split(t, '/')[0] == "." || !NoDots(parts))
            case Name(r) =>
              && t != "" && !("/" <= t) && Split(t, '/')[0] != "." && AllPlain(parts) && parts != []
              && parts[0] == Split(t, '/')[0] && r == Join(WithLastExtended(parts), '/')
  {
    hide HasDots, Split, Kept, NormalParts, ComponentsOf, Trim, WithLastExtended, Join;
    var t := Trim(name);
    var split := Split(t, '/');
    var parts := Kept(split);
    if t != "" && !("/" <= t) {
      JoinUndoesSplit(t, '/');
      KeptIsNamed(split);
      FirstPart(t);
      if split[0] != "." { FirstIsKept(split); }
      NormalPartsAreTheKept(parts);
      LeadingDotIsInvalid(parts);
      assert [] + ComponentsOf(parts) == ComponentsOf(parts);
    }
  }

  lemma FirstIsKept(parts: seq<string>)
    requires parts != [] && parts[0] !in {"", "."}
    ensures Kept(parts) != [] && Kept(parts)[0] == parts[0]
  {
  }

  lemma FirstPart(t: string)
    requires t != "" && !("/" <= t)
    ensures Split(t, '/')[0] != "" && Split(t, '/')[0][0] == t[0]
  {
  }

  // ----- Normalising twice -----

  lemma WithExtensionIsPlain(part: string)
    requires Plain(part)
    ensures var r := WithExtension(part);
            && r != "" && r != "." && '/' !in r && EndsWith(r, ".md")
            && (HasDots(r) <==> r != part && part[|part|-1] == '.')
  {
    var r := WithExtension(part);
    if !EndsWith(part, ".md") {
      assert r[|part|..] == ".md";
      if part[|part|-1] == '.' {
        assert r[|part|-1] == '.' && r[|part|] == '.';
      }
    }
  }

  /** Joined parts start with the first part and end with the last. */
  lemma {:induction false} JoinedEnds(parts: seq<string>)
    requires parts != []
    ensures parts[0] <= Join(parts, '/') && EndsWith(Join(parts, '/'), parts[|parts|-1])
    decreases |parts|
  {
    if |parts| > 1 {
      JoinedEnds(parts[1..]);
      assert parts[1..][|parts|-2] == parts[|parts|-1];
    } else {
      assert parts[0][0..] == parts[0];
    }
  }

  lemma EndOfEnd(s: string, t: string)
    requires EndsWith(s, t) && EndsWith(t, ".md")
    ensures EndsWith(s, ".md")
  {
    assert s[|s|-3..] == t[|t|-3..];
  }

  /** Parts that a path keeps, the last of them a markdown file. */
  ghost predicate IsFilePath(parts: seq<string>) {
    && parts != [] && EndsWith(parts[|parts|-1], ".md")
    && parts[0] != "" && !IsWhitespace(parts[0][0])
    && forall i | 0 <= i < |parts| :: parts[i] != "" && parts[i] != "." && '/' !in parts[i]
  }

  lemma FilePathsSplit(parts: seq<string>)
    requires IsFilePath(parts)
    ensures Split(Join(parts, '/'), '/') == parts && Kept(parts) == parts && WithLastExtended(parts) == parts
  {
    SplitUndoesJoin(parts, '/');
    NamedPartsAreKept(parts);
    hide Split, Join, Kept;
    assert parts == parts[..|parts|-1] + [parts[|parts|-1]];
  }

  lemma FilePathsAreTrimmed(parts: seq<string>)
    requires IsFilePath(parts)
    ensures var r := Join(parts, '/');
            r != "" && Trim(r) == r && !("/" <= r) && EndsWith(r, ".md")
  {
    var r := Join(parts, '/');
    TrimIsTrimmed(r);
    JoinedEnds(parts);
    EndOfEnd(r, parts[|parts|-1]);
    hide Trim, Join;
    assert r[0] == parts[0][0] && parts[0][0] in parts[0];
    assert r[|r|-3..][2] == 'd';
  }

  lemma FilePathsNormalize(parts: seq<string>)
    requires IsFilePath(parts)
    ensures var r := Join(parts, '/'); Normalized(r) == if NoDots(parts) then Name(r) else InvalidName
  {
    FilePathsSplit(parts);
    FilePathsAreTrimmed(parts);
    NormalizedMeans(Join(parts, '/'));
    hide Normalized, Split, Join, Trim, Kept, HasDots, WithLastExtended;
    assert AllPlain(parts) ==> NoDots(parts) by {
      assert forall i | 0 <= i < |parts| :: Plain(parts[i]) ==> !HasDots(parts[i]);
    }
  }

  ghost function KeptOf(name: string): seq<string> { Kept(Split(Trim(name), '/')) }

  /** A normal name is the join of a file path. */
  lemma NormalNamesAreFilePaths(name: string)
    requires Normalized(name).Name?
    ensures KeptOf(name) != [] && AllPlain(KeptOf(name)) && IsFilePath(WithLastExtended(KeptOf(name)))
    ensures Normalized(name).text == Join(WithLastExtended(KeptOf(name)), '/')
  {
    NormalizedMeans(name);
    FirstPart(Trim(name));
    TrimIsTrimmed(Trim(name));
    TrimIsTrimmed(name);
    hide Normalized, Split, Join, Trim, Kept, HasDots, WithExtension;
    var parts := KeptOf(name);
    var named := WithLastExtended(parts);
    WithExtensionIsPlain(parts[|parts|-1]);
    assert Plain(parts[0]) && !IsWhitespace(parts[0][0]);
    WithExtensionKeepsFront(parts[|parts|-1]);
    hide IsWhitespace;
    forall i | 0 <= i < |named| ensures named[i] != "" && named[i] != "." && '/' !in named[i] {
      if i < |parts| - 1 { assert named[i] == parts[i] && Plain(parts[i]); }
    }
  }

  lemma WithExtensionKeepsFront(part: string)
    ensures part <= WithExtension(part)
  {
  }

  /** The last part of a name ends in a dot, so that the extension makes a double dot. */
  ghost predicate DottedEnd(name: string) {
    KeptOf(name) != [] && EndsWith(KeptOf(name)[|KeptOf(name)|-1], ".")
  }

  lemma DotsComeFromTheEnd(parts: seq<string>)
    requires parts != [] && AllPlain(parts)
    ensures NoDots(WithLastExtended(parts)) <==> !EndsWith(parts[|parts|-1], ".")
  {
    hide HasDots, WithExtension;
    var last, named := parts[|parts|-1], WithLastExtended(parts);
    assert Plain(last);
    WithExtensionIsPlain(last);
    WithExtensionOfDot(last);
    assert named[|named|-1] == WithExtension(last);
    assert forall i | 0 <= i < |parts| - 1 :: named[i] == parts[i] && Plain(parts[i]);
    assert EndsWith(last, ".") <==> last[|last|-1] == '.';
  }

  lemma WithExtensionOfDot(part: string)
    requires part != ""
    ensures part[|part|-1] == '.' ==> WithExtension(part) != part
  {
  }

  /** Normalising a normal name gives the same name, except when the extension was added to a
      last part ending in a dot: the double dot then makes the result invalid. */
  lemma NormalisingTwice(name: string)
    requires Normalized(name).Name?
    ensures var r := Normalized(name);
            Normalized(r.text) == if DottedEnd(name) then InvalidName else r
  {
    NormalNamesAreFilePaths(name);
    hide Normalized, KeptOf, AllPlain, IsFilePath, NoDots, EndsWith, Join, WithLastExtended;
    FilePathsNormalize(WithLastExtended(KeptOf(name)));
    DotsComeFromTheEnd(KeptOf(name));
  }

  lemma FilePathComponents(parts: seq<string>)
    requires IsFilePath(parts)
    ensures Components(Join(parts, '/')) == ComponentsOf(parts)
  {
    FilePathsSplit(parts);
    FilePathsAreTrimmed(parts);
    hide Split, Join, Kept, ComponentsOf, Trim, EndsWith;
    assert [] + ComponentsOf(parts) == ComponentsOf(parts);
  }

  lemma ExtendedIsNotDoubleDots(parts: seq<string>)
    requires parts != [] && AllPlain(parts) && IsFilePath(WithLastExtended(parts))
    ensures forall i | 0 <= i < |WithLastExtended(parts)| :: WithLastExtended(parts)[i] != ".."
  {
    hide HasDots, WithExtension;
    var named := WithLastExtended(parts);
    DoubleDotsAreNoFile(named[|named|-1]);
    forall i | 0 <= i < |parts| - 1 ensures named[i] != ".." {
      assert Plain(parts[i]);
      DoubleDots(parts[i]);
    }
  }

  /** A normal name stays below the directory it is joined to: only normal components. */
  lemma NormalNamesStayInside(name: string)
    requires Normalized(name).Name?
    ensures forall i | 0 <= i < |Components(Normalized(name).text)| :: Components(Normalized(name).text)[i].Normal?
  {
    hide Normalized, KeptOf, AllPlain, IsFilePath, Join, WithLastExtended, Components, ComponentsOf;
    NormalNamesAreFilePaths(name);
    var named := WithLastExtended(KeptOf(name));
    FilePathComponents(named);
    ExtendedIsNotDoubleDots(KeptOf(name));
    ComponentsAreNormal(named);
  }

  lemma DoubleDotsAreNoFile(part: string)
    ensures EndsWith(part, ".md") ==> part != ".."
  {
  }

  lemma DoubleDots(part: string)
    ensures !HasDots(part) ==> part != ".."
  {
    assert ".."[0] == '.' && ".."[1] == '.';
  }

  lemma {:induction false} ComponentsAreNormal(parts: seq<string>)
    requires forall i | 0 <= i < |parts| :: parts[i] != ".."
    ensures |ComponentsOf(parts)| == |parts|
    ensures forall i | 0 <= i < |parts| :: ComponentsOf(parts)[i] == Normal(parts[i])
  {
    if parts != [] { ComponentsAreNormal(parts[..|parts|-1]); }
  }

  // ----- Shared skills and skills of one agent -----

  const SHARED_SKILL_PREFIX := "shared/"
  const AGENT_SKILL_PREFIX := "agents/"

  predicate IsSharedSkillName(name: string) {
    '/' !in name || SHARED_SKILL_PREFIX <= name
  }

  function PathSegment(segment: string): Naming {
    var trimmed := Trim(segment);
    if trimmed == "" then EmptyName
    else
      var components := Components(trimmed);
      if |components| != 1 || !components[0].Normal? then InvalidName
      else if HasDots(components[0].part) then InvalidName
      else Name(components[0].part)
  }

  function AgentSkillPrefix(agentId: string): Naming {
    match PathSegment(agentId)
    case Name(segment) => Name(AGENT_SKILL_PREFIX + segment + "/")
    case error => error
  }

  /** The name that distilling gives a skill; an invalid name is the wrong agent's. */
  function DistilledName(name: string, agentId: string): Naming {
    var trimmed := Trim(name);
    if trimmed == "" then EmptyName
    else if SHARED_SKILL_PREFIX <= trimmed then Name(WithExtension(trimmed))
    else if AGENT_SKILL_PREFIX <= trimmed then
      match AgentSkillPrefix(agentId)
      case Name(prefix) => if prefix <= trimmed then Name(WithExtension(trimmed)) else InvalidName
      case error => error
    else Name(WithExtension(SHARED_SKILL_PREFIX + trimmed))
  }

  /** A segment is accepted exactly when, trimmed, it is a relative path that does not start with a
      single dot and keeps one part, without double dots; the result is this part. */
  lemma SegmentsMean(segment: string)
    ensures var t := Trim(segment);
            var split := Split(t, '/');
            match PathSegment(segment)
            case EmptyName => t == ""
            case InvalidName => t != "" && ("/" <= t || split[0] == "." || |Kept(split)| != 1 || HasDots(split[0]))
            case Name(part) => t != "" && Kept(split) == [part] && part == split[0] && Plain(part)
  {
    var t := Trim(segment);
    var split := Split(t, '/');
    if t != "" {
      JoinUndoesSplit(t, '/');
      KeptIsNamed(split);
      if !("/" <= t) {
        FirstPart(t);
        if split[0] != "." { FirstIsKept(split); }
      }
      DoubleDots("..");
      hide Split, Trim, Kept, HasDots;
      var parts := Kept(split);
      ComponentsLength(parts);
      assert |parts| == 1 ==> ComponentsOf(parts) == [ComponentOf(parts[0])] by {
        assert parts[..0] == [] && ComponentsOf(parts[..0]) == [];
      }
      hide ComponentsOf;
      assert ComponentsOf([]) == [];
    }
  }

  lemma SegmentsArePlain(segment: string)
    requires PathSegment(segment).Name?
    ensures Plain(PathSegment(segment).text)
  {
    hide *;
    SegmentsMean(segment);
  }

  lemma {:induction false} ComponentsLength(parts: seq<string>)
    ensures |ComponentsOf(parts)| == |parts|
  {
    if parts != [] { ComponentsLength(parts[..|parts|-1]); }
  }

  // ----- Where distilled skills land -----

  lemma LastPartIsKept(rest: string)
    requires EndsWith(rest, ".md")
    ensures var kept := Kept(Split(rest, '/')); kept != [] && EndsWith(kept[|kept|-1], ".md")
  {
    hide Split, Kept;
    var front := rest[..|rest|-3];
    assert rest == front + ".md";
    SplitLast(front, ".md", '/');
    var parts := Split(rest, '/');
    var last := parts[|parts|-1];
    assert last[|last|-3..] == ".md";
    assert parts == parts[..|parts|-1] + [last];
    KeptConcat(parts[..|parts|-1], [last]);
    FilesAreKept(last);
  }

  lemma FilesAreKept(part: string)
    requires EndsWith(part, ".md")
    ensures Kept([part]) == [part]
  {
    assert [part][1..] == [] && part[|part|-3..][2] == 'd';
  }

  ghost predicate IsDirectory(front: seq<string>) {
    front != [] && AllPlain(front) && front[0] != "" && !IsWhitespace(front[0][0])
  }

  /** What a name under a directory is split into. */
  lemma PartsUnder(front: seq<string>, rest: string)
    requires IsDirectory(front) && EndsWith(rest, ".md")
    ensures var name := Join(front, '/') + ['/'] + rest;
            Trim(name) == name && KeptOf(name) == front + Kept(Split(rest, '/'))
  {
    var name := Join(front, '/') + ['/'] + rest;
    forall i | 0 <= i < |front| ensures '/' !in front[i] && front[i] !in {"", "."} { assert Plain(front[i]); }
    SplitUndoesJoin(front, '/');
    SplitConcat(Join(front, '/'), rest, '/');
    KeptConcat(front, Split(rest, '/'));
    NamedPartsAreKept(front);
    TrimIsTrimmed(name);
    JoinedEnds(front);
    hide Split, Join, Kept, Trim, HasDots;
    assert name[0] == front[0][0];
    assert name[|name|-1] == rest[|rest|-3..][2] == 'd';
  }

  /** A name under a directory of plain parts, ending in `.md`, is accepted exactly when the kept
      parts below the directory have no double dots; the result is the directory and these. */
  lemma DirectoriesNormalize(front: seq<string>, rest: string)
    requires IsDirectory(front) && EndsWith(rest, ".md")
    ensures var name := Join(front, '/') + ['/'] + rest;
            var parts := front + Kept(Split(rest, '/'));
            && Normalized(name) == (if NoDots(parts) then Name(Join(parts, '/')) else InvalidName)
            && (Normalized(name).Name? ==> Split(Join(parts, '/'), '/') == parts)
  {
    var name := Join(front, '/') + ['/'] + rest;
    var kept := Kept(Split(rest, '/'));
    PartsUnder(front, rest);
    LastPartIsKept(rest);
    NothingToExtend(front, kept);
    SplitUnder(front, rest);
    assert Plain(front[0]);
    assert (front + Split(rest, '/'))[0] == front[0];
    NormalFilePath(name, front + kept);
    if Normalized(name).Name? {
      NormalNamesAreFilePaths(name);
      hide *;
      FilePathsSplit(front + kept);
    }
  }

  lemma NormalFilePath(name: string, parts: seq<string>)
    requires name != "" && !("/" <= name) && Trim(name) == name && Split(name, '/')[0] != "."
    requires KeptOf(name) == parts != [] && WithLastExtended(parts) == parts
    ensures Normalized(name) == if NoDots(parts) then Name(Join(parts, '/')) else InvalidName
  {
    NormalizedMeans(name);
    hide Normalized, Split, Join, Trim, Kept, NoDots, WithLastExtended, AllPlain;
    if AllPlain(parts) { PlainHasNoDots(parts); }
  }

  lemma PlainHasNoDots(parts: seq<string>)
    requires AllPlain(parts)
    ensures NoDots(parts)
  {
    assert forall i | 0 <= i < |parts| :: Plain(parts[i]);
  }

  lemma SplitUnder(front: seq<string>, rest: string)
    requires IsDirectory(front)
    ensures var name := Join(front, '/') + ['/'] + rest;
            && name != "" && !("/" <= name)
            && Split(name, '/') == front + Split(rest, '/')
  {
    forall i | 0 <= i < |front| ensures '/' !in front[i] { assert Plain(front[i]); }
    SplitUndoesJoin(front, '/');
    SplitConcat(Join(front, '/'), rest, '/');
    JoinedEnds(front);
    hide Split, Join;
    assert (Join(front, '/') + ['/'] + rest)[0] == front[0][0];
  }

  lemma NothingToExtend(front: seq<string>, kept: seq<string>)
    requires kept != [] && EndsWith(kept[|kept|-1], ".md")
    ensures WithLastExtended(front + kept) == front + kept
  {
    hide EndsWith;
    var parts := front + kept;
    assert parts == parts[..|parts|-1] + [parts[|parts|-1]];
  }

  lemma EndAfterSlash(front: string, rest: string)
    requires EndsWith(front + ['/'] + rest, ".md")
    ensures EndsWith(rest, ".md")
  {
    var whole := front + ['/'] + rest;
    assert forall i | 0 <= i < 3 :: whole[|whole|-3..][i] == whole[|whole|-3+i] == ".md"[i] != '/';
    assert whole[|front|] == '/';
    assert rest[|rest|-3..] == whole[|whole|-3..];
  }

  lemma ExtendedUnder(front: string, tail: string)
    ensures WithExtension(front + ['/'] + tail) == front + ['/'] + WithExtension(tail)
    ensures EndsWith(WithExtension(tail), ".md")
  {
    var name := front + ['/'] + tail;
    ConcatAssociates(front + ['/'], tail, ".md");
    WithExtensionEnds(tail);
    if EndsWith(name, ".md") { EndAfterSlash(front, tail); }
    if EndsWith(tail, ".md") {
      assert name[|name|-3..] == tail[|tail|-3..];
    }
  }

  lemma WithExtensionEnds(name: string)
    ensures EndsWith(WithExtension(name), ".md")
  {
  }

  lemma SharedIsADirectory()
    ensures IsDirectory(["shared"]) && Join(["shared"], '/') + ['/'] == SHARED_SKILL_PREFIX
  {
  }

  lemma AgentIsADirectory(agentId: string)
    requires AgentSkillPrefix(agentId).Name?
    ensures var front := ["agents", PathSegment(agentId).text];
            IsDirectory(front) && Join(front, '/') + ['/'] == AgentSkillPrefix(agentId).text
  {
    SegmentsArePlain(agentId);
    hide PathSegment;
    var front := ["agents", PathSegment(agentId).text];
    assert front[1..] == [PathSegment(agentId).text];
    assert Plain("agents");
    assert Join(front, '/') == AGENT_SKILL_PREFIX + PathSegment(agentId).text;
  }

  // ----- Which file a distilled skill is -----

  /** The parts lie below this directory. */
  predicate Below(parts: seq<string>, front: seq<string>) { |front| < |parts| && front <= parts }

  /** The directory a skill's name stands for. */
  function HomeOf(name: string, agentId: string): seq<string> {
    if Below(Split(Trim(name), '/'), ["agents"]) && PathSegment(agentId).Name? then
      ["agents", PathSegment(agentId).text]
    else ["shared"]
  }

  /** The parts of a skill's name, without its directory if it names one. */
  function PartsBelowHome(name: string, agentId: string): (parts: seq<string>)
    ensures parts != []
  {
    var split, home := Split(Trim(name), '/'), HomeOf(name, agentId);
    if Below(split, home) then split[|home|..] else split
  }

  /** The parts that are kept, the last of them a markdown file. */
  function FileParts(parts: seq<string>): (kept: seq<string>)
    requires parts != []
    ensures kept != []
  {
    Kept(parts[..|parts|-1]) + [WithExtension(parts[|parts|-1])]
  }

  lemma TwoDirectories(t: string, segment: string)
    requires '/' !in segment
    ensures var prefix := AGENT_SKILL_PREFIX + segment + "/";
            && (prefix <= t <==> Below(Split(t, '/'), ["agents", segment]))
            && (prefix <= t ==> Split(t, '/')[2..] == Split(t[|prefix|..], '/'))
  {
    var prefix := AGENT_SKILL_PREFIX + segment + "/";
    var split := Split(t, '/');
    assert AGENT_SKILL_PREFIX == "agents" + ['/'];
    FirstDirectory(t, "agents", '/');
    if AGENT_SKILL_PREFIX <= t {
      var tail := t[|AGENT_SKILL_PREFIX|..];
      FirstDirectory(tail, segment, '/');
      hide Split;
      assert split[0] == "agents" && split[1..] == Split(tail, '/');
      assert t == AGENT_SKILL_PREFIX + tail && prefix == AGENT_SKILL_PREFIX + (segment + ['/']);
      PrefixOfConcat(AGENT_SKILL_PREFIX, segment + ['/'], tail);
      assert Below(split, ["agents", segment]) <==> |split[1..]| > 1 && split[1] == segment;
      if prefix <= t {
        assert tail[|segment|+1..] == t[|prefix|..];
        assert split[2..] == split[1..][1..];
      }
    } else {
      assert prefix[..|AGENT_SKILL_PREFIX|] == AGENT_SKILL_PREFIX;
    }
  }

  /** The three directories that names may start with, by their parts. */
  lemma Directories(t: string, agentId: string)
    ensures var split := Split(t, '/');
            && (SHARED_SKILL_PREFIX <= t <==> Below(split, ["shared"]))
            && (SHARED_SKILL_PREFIX <= t ==> Split(t[|SHARED_SKILL_PREFIX|..], '/') == split[1..])
            && (AGENT_SKILL_PREFIX <= t <==> Below(split, ["agents"]))
            && !(SHARED_SKILL_PREFIX <= t && AGENT_SKILL_PREFIX <= t)
    ensures var prefix := AgentSkillPrefix(agentId);
            prefix.Name? ==>
              && (prefix.text <= t <==> Below(Split(t, '/'), ["agents", PathSegment(agentId).text]))
              && (prefix.text <= t ==> Split(t[|prefix.text|..], '/') == Split(t, '/')[2..])
  {
    if PathSegment(agentId).Name? {
      SegmentsArePlain(agentId);
      TwoDirectories(t, PathSegment(agentId).text);
    }
    FirstDirectory(t, "shared", '/');
    FirstDirectory(t, "agents", '/');
    hide Split, PathSegment;
    assert "shared" + ['/'] == SHARED_SKILL_PREFIX && "agents" + ['/'] == AGENT_SKILL_PREFIX;
    assert SHARED_SKILL_PREFIX[0] == 's' && AGENT_SKILL_PREFIX[0] == 'a';
  }

  lemma PrefixOfConcat(a: string, b: string, c: string)
    ensures a + b <= a + c <==> b <= c
  {
    if a + b <= a + c {
      assert (a + c)[|a|..][..|b|] == (a + b)[|a|..];
      assert (a + c)[|a|..] == c && (a + b)[|a|..] == b;
    }
    if b <= c { assert a + c == a + b + c[|b|..]; }
  }

  /** Distilling reads the parts of the trimmed name: it refuses exactly the empty name, and a name
      below `agents` that is not below the directory of its own agent. */
  lemma DistilledNamesByParts(name: string, agentId: string)
    ensures var split := Split(Trim(name), '/');
            var segment := PathSegment(agentId);
            && (DistilledName(name, agentId).EmptyName? <==>
                  Trim(name) == "" || (Below(split, ["agents"]) && segment.EmptyName?))
            && (DistilledName(name, agentId).Name? <==>
                  && Trim(name) != ""
                  && (Below(split, ["agents"]) ==> segment.Name? && Below(split, ["agents", segment.text])))
  {
    Directories(Trim(name), agentId);
    hide Trim, Split, PathSegment, WithExtension, Below;
  }

  lemma DistilledNamesHaveAHome(name: string, agentId: string) returns (tail: string)
    requires DistilledName(name, agentId).Name?
    ensures var home := HomeOf(name, agentId);
            && IsDirectory(home) && PartsBelowHome(name, agentId) == Split(tail, '/')
            && DistilledName(name, agentId).text == Join(home, '/') + ['/'] + WithExtension(tail)
            && EndsWith(WithExtension(tail), ".md")
  {
    SharedIsADirectory();
    if AgentSkillPrefix(agentId).Name? { AgentIsADirectory(agentId); }
    var t := Trim(name);
    Directories(t, agentId);
    hide Trim, Join, IsDirectory, WithExtension, EndsWith, PathSegment, Split;
    var prefix := Join(HomeOf(name, agentId), '/') + ['/'];
    tail := if prefix <= t then t[|prefix|..] else t;
    assert DistilledName(name, agentId).text == WithExtension(prefix + tail) by {
      assert prefix <= t ==> t == prefix + tail;
    }
    ExtendedUnder(Join(HomeOf(name, agentId), '/'), tail);
  }

  /** Extending a path extends its last part. */
  lemma ExtendedParts(tail: string)
    ensures Kept(Split(WithExtension(tail), '/')) == FileParts(Split(tail, '/'))
  {
    ExtensionOfLast(tail);
    hide Split, Kept, WithExtension, EndsWith;
    var parts, more := Split(tail, '/'), Split(WithExtension(tail), '/');
    var front, last := parts[..|parts|-1], parts[|parts|-1];
    assert more == front + [WithExtension(last)] by { assert more == more[..|more|-1] + [more[|more|-1]]; }
    KeptConcat(front, [WithExtension(last)]);
    WithExtensionEnds(last);
    FilesAreKept(WithExtension(last));
  }

  lemma ExtensionOfLast(tail: string)
    ensures var parts, more := Split(tail, '/'), Split(WithExtension(tail), '/');
            && |more| == |parts| && more[..|more|-1] == parts[..|parts|-1]
            && more[|more|-1] == WithExtension(parts[|parts|-1])
  {
    var parts := Split(tail, '/');
    JoinUndoesSplit(tail, '/');
    JoinedEnds(parts);
    SplitLast(tail, ".md", '/');
    if EndsWith(tail, ".md") {
      var front := tail[..|tail|-3];
      assert tail == front + ".md";
      SplitLast(front, ".md", '/');
      assert parts[|parts|-1][|parts[|parts|-1]|-3..] == ".md";
    } else if EndsWith(parts[|parts|-1], ".md") {
      EndOfEnd(tail, parts[|parts|-1]);
    }
  }

  /** The path of a distilled skill consists of its home directory and the parts its name has
      below it; the store accepts it exactly when none of them has double dots. */
  lemma DistilledSkillsKeepTheirNames(name: string, agentId: string)
    requires DistilledName(name, agentId).Name?
    ensures var parts := HomeOf(name, agentId) + FileParts(PartsBelowHome(name, agentId));
            var r := Normalized(DistilledName(name, agentId).text);
            && r == (if NoDots(parts) then Name(Join(parts, '/')) else InvalidName)
            && (r.Name? ==> Split(r.text, '/') == parts)
  {
    var tail := DistilledNamesHaveAHome(name, agentId);
    ExtendedParts(tail);
    hide *;
    DirectoriesNormalize(HomeOf(name, agentId), WithExtension(tail));
  }

  ghost predicate Lands(name: string, agentId: string) {
    DistilledName(name, agentId).Name? && Normalized(DistilledName(name, agentId).text).Name?
  }

  /** A name that is one plain part and does not end in a dot is written under `shared/`, as it is. */
  lemma PlainNamesAreShared(name: string, agentId: string)
    requires Plain(name) && IsTrimmed(name) && name[|name|-1] != '.'
    ensures Lands(name, agentId)
    ensures Normalized(DistilledName(name, agentId).text) == Name("shared/" + WithExtension(name))
  {
    hide DistilledName, Normalized, Trim, HasDots, IsWhitespace, WithExtension;
    PlainNamesAreDistilled(name, agentId);
    PlainNamesNormalize(name, agentId);
  }

  lemma PlainNamesNormalize(name: string, agentId: string)
    requires Plain(name) && IsTrimmed(name) && name[|name|-1] != '.' && DistilledName(name, agentId).Name?
    ensures Normalized(DistilledName(name, agentId).text) == Name("shared/" + WithExtension(name))
  {
    hide *;
    PlainNamesArePart(name, agentId);
    SharedNameHasNoDots(name);
    JoinOfTwo("shared", WithExtension(name));
    assert ["shared"] + [WithExtension(name)] == ["shared", WithExtension(name)];
    DistilledSkillsKeepTheirNames(name, agentId);
  }

  lemma PlainNamesAreDistilled(name: string, agentId: string)
    requires Plain(name) && IsTrimmed(name)
    ensures DistilledName(name, agentId).Name?
  {
    PlainNamesArePart(name, agentId);
    DistilledNamesByParts(name, agentId);
    hide Trim, Split, PathSegment, DistilledName, HasDots, IsWhitespace;
  }

  lemma SharedNameHasNoDots(name: string)
    requires Plain(name) && name[|name|-1] != '.'
    ensures NoDots(["shared", WithExtension(name)])
  {
    WithExtensionIsPlain(name);
    SharedHasNoDots();
    hide WithExtension, HasDots;
  }

  lemma PlainNamesArePart(name: string, agentId: string)
    requires Plain(name) && IsTrimmed(name)
    ensures Trim(name) == name && Split(name, '/') == [name]
    ensures HomeOf(name, agentId) == ["shared"] && FileParts(PartsBelowHome(name, agentId)) == [WithExtension(name)]
  {
    TrimIsTrimmed(name);
    SplitWhole(name, '/');
    hide Trim, Split, PathSegment, WithExtension, HasDots, IsWhitespace;
    assert [name][..0] == [];
  }

  lemma JoinOfTwo(a: string, b: string)
    ensures Join([a, b], '/') == a + "/" + b
  {
    assert [a, b][1..] == [b];
  }

  lemma SharedHasNoDots()
    ensures !HasDots("shared")
  {
  }

  lemma HomesComeFirst(name: string, agentId: string, name': string, agentId': string)
    ensures var home, home' := HomeOf(name, agentId), HomeOf(name', agentId');
            forall parts, parts' :: home + parts == home' + parts' <==> home == home' && parts == parts'
  {
    var home, home' := HomeOf(name, agentId), HomeOf(name', agentId');
    assert home[0] == "shared" || home[0] == "agents";
    hide *;
    assert "shared" != "agents";
    forall parts, parts' | home + parts == home' + parts' ensures home == home' && parts == parts' {
      assert (home + parts)[0] == home[0] && (home' + parts')[0] == home'[0];
      assert |home| == |home'|;
      assert (home + parts)[..|home|] == home && (home' + parts')[..|home'|] == home';
      assert (home + parts)[|home|..] == parts && (home' + parts')[|home'|..] == parts';
    }
  }

  /** Two distilled skills are one file exactly when their names have the same home and the same
      parts below it. */
  lemma DistilledSkillsShareAFile(name: string, agentId: string, name': string, agentId': string)
    requires Lands(name, agentId) && Lands(name', agentId')
    ensures Normalized(DistilledName(name, agentId).text) == Normalized(DistilledName(name', agentId').text)
       <==> HomeOf(name, agentId) == HomeOf(name', agentId')
            && FileParts(PartsBelowHome(name, agentId)) == FileParts(PartsBelowHome(name', agentId'))
  {
    hide DistilledName, Normalized, HomeOf, PartsBelowHome, FileParts, NoDots, Join, Split;
    DistilledSkillsKeepTheirNames(name, agentId);
    DistilledSkillsKeepTheirNames(name', agentId');
    HomesComeFirst(name, agentId, name', agentId');
  }

  /** A distilled skill that the store accepts lands under `shared/` or under the directory of its
      own agent, never both, and is never listed for another agent. */
  lemma DistilledSkillsLandAtHome(name: string, agentId: string, otherId: string)
    requires DistilledName(name, agentId).Name?
    requires Normalized(DistilledName(name, agentId).text).Name?
    ensures var r := Normalized(DistilledName(name, agentId).text).text;
            var own, other := AgentSkillPrefix(agentId), AgentSkillPrefix(otherId);
            && (IsSharedSkillName(r) <==> SHARED_SKILL_PREFIX <= r)
            && (IsSharedSkillName(r) <==> !(own.Name? && own.text <= r))
            && (other.Name? && other.text <= r ==> other == own)
  {
    DistilledSkillsKeepTheirNames(name, agentId);
    var r := Normalized(DistilledName(name, agentId).text).text;
    SplitWhole(r, '/');
    Directories(r, agentId);
    Directories(r, otherId);
    hide Normalized, DistilledName, Split, Join, Trim, PathSegment, FileParts, PartsBelowHome;
    assert "shared" != "agents";
  }
}
