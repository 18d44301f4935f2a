/** Accepting part of a proposed patch, and the files it names. */
module PatchSelection {
  import opened Options
  import opened TextLines
  import opened Texts

  /** What a line can introduce: `--- `, `+++ `, `@@ `, or nothing. */
  datatype Kind = OldFile | NewFile | HunkHeader | Other

  datatype Line = Line(kind: Kind, text: string)

  function Tag(text: string): Line {
    Line(
      if StartsWith(text, "--- ") then OldFile
      else if StartsWith(text, "+++ ") then NewFile
      else if StartsWith(text, "@@ ") then HunkHeader
      else Other,
      text)
  }

  function TagAll(texts: seq<string>): (lines: seq<Line>)
    ensures |lines| == |texts| && forall i :: 0 <= i < |texts| ==> lines[i] == Tag(texts[i])
  {
    seq(|texts|, i requires 0 <= i < |texts| => Tag(texts[i]))
  }

  function TextsOf(lines: seq<Line>): (texts: seq<string>)
    ensures |texts| == |lines| && forall i :: 0 <= i < |lines| ==> texts[i] == lines[i].text
  {
    seq(|lines|, i requires 0 <= i < |lines| => lines[i].text)
  }

  // ----- Splitting a diff into file sections -----

  datatype Section = Section(header: seq<Line>, hunks: seq<seq<Line>>)

  /** The id `"<file index>:<hunk index>"`; its decimal spelling is injective. */
  datatype HunkId = HunkId(file: nat, hunk: nat)

  predicate StartsSection(lines: seq<Line>, i: int) {
    0 <= i < |lines| - 1 && lines[i].kind == OldFile && lines[i + 1].kind == NewFile
  }

  function NextStart(lines: seq<Line>, i: nat): (j: nat)
    requires i <= |lines|
    ensures i <= j <= |lines|
    ensures j < |lines| ==> StartsSection(lines, j)
    decreases |lines| - i
  {
    if i == |lines| || StartsSection(lines, i) then i else NextStart(lines, i + 1)
  }

  function AppendLine(s: Section, l: Line): Section {
    if l.kind == HunkHeader then s.(hunks := s.hunks + [[l]])
    else if s.hunks == [] then s.(header := s.header + [l])
    else s.(hunks := s.hunks[..|s.hunks| - 1] + [s.hunks[|s.hunks| - 1] + [l]])
  }

  /** Header lines up to the first `@@`, then one hunk per `@@` line. */
  function SplitBody(body: seq<Line>): Section {
    if body == [] then Section([], []) else AppendLine(SplitBody(body[..|body| - 1]), body[|body| - 1])
  }

  /** Sections of `lines[begin..]`, the first of which is introduced by the pair at `start`. */
  function Cut(lines: seq<Line>, begin: nat, start: nat): seq<Section>
    requires begin <= start && StartsSection(lines, start)
    decreases |lines| - start, 0
  {
    var end := NextStart(lines, start + 1);
    [SplitBody(lines[begin..end])] + CutAt(lines, end)
  }

  function CutAt(lines: seq<Line>, start: nat): seq<Section>
    requires start == |lines| || StartsSection(lines, start)
    decreases |lines| - start, 1
  {
    if start == |lines| then [] else Cut(lines, start, start)
  }

  function SectionsOf(lines: seq<Line>): seq<Section> {
    var first := NextStart(lines, 0);
    if first == |lines| then [] else Cut(lines, 0, first)
  }

  function Sections(patch: string): seq<Section> { SectionsOf(TagAll(SplitLines(patch))) }

  // ----- Keeping some hunks -----

  function Flat(hunks: seq<seq<Line>>): seq<Line> {
    if hunks == [] then [] else hunks[0] + Flat(hunks[1..])
  }

  function LinesOf(s: Section): seq<Line> { s.header + Flat(s.hunks) }

  function AllLines(sections: seq<Section>): seq<Line> {
    if sections == [] then [] else LinesOf(sections[0]) + AllLines(sections[1..])
  }

  function KeptHunks(hunks: seq<seq<Line>>, file: nat, hunk: nat, selected: set<HunkId>): seq<seq<Line>> {
    if hunks == [] then []
    else
      (if HunkId(file, hunk) in selected then [hunks[0]] else []) +
      KeptHunks(hunks[1..], file, hunk + 1, selected)
  }

  /** The sections with only the named hunks; a section left without hunks is dropped. */
  function Narrow(sections: seq<Section>, file: nat, selected: set<HunkId>): seq<Section> {
    if sections == [] then []
    else
      var kept := KeptHunks(sections[0].hunks, file, 0, selected);
      (if kept == [] then [] else [Section(sections[0].header, kept)]) + Narrow(sections[1..], file + 1, selected)
  }

  function Selected(patch: string, selected: set<HunkId>): string {
    Join(TextsOf(AllLines(Narrow(Sections(patch), 0, selected))))
  }

  // ----- The loops of the source -----

  method SplitHunks(body: seq<Line>) returns (s: Section)
    ensures s == SplitBody(body)
  {
    var header: seq<Line>, hunks: seq<seq<Line>> := [], [];
    for i := 0 to |body|
      invariant Section(header, hunks) == SplitBody(body[..i])
    {
      assert body[..i + 1][..i] == body[..i];
      if body[i].kind == HunkHeader {
        hunks := hunks + [[body[i]]];
      } else if hunks == [] {
        header := header + [body[i]];
      } else {
        hunks := hunks[..|hunks| - 1] + [hunks[|hunks| - 1] + [body[i]]];
      }
    }
    assert body[..|body|] == body;
    s := Section(header, hunks);
  }

  /** `_sections`: the whole parse, one section per `---`/`+++` pair. */
  method ParseSections(patch: string) returns (sections: seq<Section>)
    ensures sections == Sections(patch)
  {
    var lines := TagAll(SplitLines(patch));
    sections := [];
    var begin, start := 0, NextStart(lines, 0);
    while start < |lines|
      invariant begin <= start <= |lines|
      invariant start < |lines| ==> StartsSection(lines, start)
      invariant SectionsOf(lines) == sections + if start < |lines| then Cut(lines, begin, start) else []
      decreases |lines| - start
    {
      var end := NextStart(lines, start + 1);
      var section := SplitHunks(lines[begin..end]);
      assert Cut(lines, begin, start) == [section] + CutAt(lines, end);
      sections := sections + [section];
      begin, start := end, end;
    }
  }

  method KeepHunks(hunks: seq<seq<Line>>, file: nat, selected: set<HunkId>) returns (kept: seq<seq<Line>>)
    ensures kept == KeptHunks(hunks, file, 0, selected)
  {
    kept := [];
    for h := 0 to |hunks|
      invariant KeptHunks(hunks, file, 0, selected) == kept + KeptHunks(hunks[h..], file, h, selected)
    {
      assert hunks[h..][1..] == hunks[h + 1..];
      if HunkId(file, h) in selected {
        kept := kept + [hunks[h]];
      }
    }
  }

  method KeepSections(sections: seq<Section>, selected: set<HunkId>) returns (out: seq<Line>)
    ensures out == AllLines(Narrow(sections, 0, selected))
  {
    out := [];
    for file := 0 to |sections|
      invariant AllLines(Narrow(sections, 0, selected)) == out + AllLines(Narrow(sections[file..], file, selected))
    {
      var kept := KeepHunks(sections[file].hunks, file, selected);
      NarrowStep(sections, file, selected);
      ghost var rest := AllLines(Narrow(sections[file + 1..], file + 1, selected));
      if kept != [] {
        var piece := sections[file].header + Flat(kept);
        assert out + (piece + rest) == (out + piece) + rest;
        out := out + piece;
      } else {
        assert [] + rest == rest;
      }
    }
    assert sections[|sections|..] == [];
  }

  /** `select_hunks`: copies the kept hunks out of the patch, and copies nothing else in. */
  method SelectHunks(patch: string, selected: set<HunkId>) returns (narrowed: string)
    ensures narrowed == Selected(patch, selected)
  {
    var sections := ParseSections(patch);
    var out := KeepSections(sections, selected);
    narrowed := Join(TextsOf(out));
  }

  lemma {:induction false} NarrowStep(sections: seq<Section>, file: nat, selected: set<HunkId>)
    requires file < |sections|
    ensures var kept := KeptHunks(sections[file].hunks, file, 0, selected);
            AllLines(Narrow(sections[file..], file, selected)) ==
            (if kept == [] then [] else sections[file].header + Flat(kept)) +
            AllLines(Narrow(sections[file + 1..], file + 1, selected))
  {
    var kept := KeptHunks(sections[file].hunks, file, 0, selected);
    var rest := Narrow(sections[file + 1..], file + 1, selected);
    assert sections[file..][1..] == sections[file + 1..];
    if kept != [] {
      assert Narrow(sections[file..], file, selected) == [Section(sections[file].header, kept)] + rest;
      assert ([Section(sections[file].header, kept)] + rest)[1..] == rest;
    } else {
      assert Narrow(sections[file..], file, selected) == rest;
    }
  }

  // ----- The files a patch names -----

  function BeforeTab(s: string): string {
    if s == "" || s[0] == '\t' then "" else [s[0]] + BeforeTab(s[1..])
  }

  /** The path of a `+++ ` line, without its timestamp and its `b/`. */
  function PathOf(text: string): string {
    var path := Strip(BeforeTab(Strip(text[if |text| < 4 then |text| else 4..])));
    if StartsWith(path, "b/") then path[2..] else path
  }

  function TargetOf(header: seq<Line>): Option<string> {
    if header == [] then None
    else if header[0].kind == NewFile then Some(PathOf(header[0].text))
    else TargetOf(header[1..])
  }

  function Targets(sections: seq<Section>): seq<string> {
    if sections == [] then [] else Present(TargetOf(sections[0].header)) + Targets(sections[1..])
  }

  function Present(target: Option<string>): seq<string> {
    if target.Some? then [target.value] else []
  }

  method HeaderTarget(header: seq<Line>) returns (target: Option<string>)
    ensures target == TargetOf(header)
  {
    var j := 0;
    while j < |header| && header[j].kind != NewFile
      invariant 0 <= j <= |header| && TargetOf(header) == TargetOf(header[j..])
    {
      j := j + 1;
    }
    target := if j < |header| then Some(PathOf(header[j].text)) else None;
  }

  /** `patch_target_paths`. */
  method PatchTargetPaths(patch: string) returns (targets: seq<string>)
    ensures targets == Targets(Sections(patch))
  {
    var sections := ParseSections(patch);
    targets := [];
    for i := 0 to |sections|
      invariant Targets(sections) == targets + Targets(sections[i..])
    {
      var target := HeaderTarget(sections[i].header);
      assert sections[i..][1..] == sections[i + 1..];
      targets := targets + Present(target);
    }
  }
}
