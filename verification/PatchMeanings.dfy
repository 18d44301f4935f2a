/** Which files the names on a patch's `+++` lines can mean, and which of them they must. */
module PatchMeanings {
  import opened Options
  import opened Texts
  import opened TextLines
  import opened PatchSelection
  import opened PatchReview
  import opened PatchNames
  import opened PatchReach
  import opened Matching

  // ----- The names the review compares, section by section -----

  lemma {:induction false} NoneBefore(lines: seq<Line>, i: nat, j: nat)
    requires i <= |lines| && i <= j < NextStart(lines, i)
    ensures !StartsSection(lines, j)
    decreases |lines| - i
  {
    if i < j {
      NoneBefore(lines, i + 1, j);
    }
  }

  lemma {:induction false} NamedByPair(body: seq<Line>)
    requires |body| > 1 && body[0].kind == OldFile && body[1].kind == NewFile
    ensures TargetOf(SplitBody(body).header) == Some(PathOf(body[1].text))
  {
    var s := SplitBody(body);
    SplitBodyKeepsLines(body);
    assert forall i :: 0 <= i < |s.header| ==> s.header[i] == body[i];
    assert s.hunks != [] ==> body[|s.header|] == s.hunks[0][0];
    assert s.hunks == [] ==> s.header == body;
    assert |s.header| > 1 && s.header[1..][0] == body[1];
  }

  /** A section from `start` on is named so. */
  ghost predicate NamedFrom(lines: seq<Line>, start: nat, name: string) {
    exists i: nat :: start <= i && StartsSection(lines, i) && PathOf(lines[i + 1].text) == name
  }

  lemma {:induction false} NamesOfPairs(lines: seq<Line>, start: nat, name: string)
    requires start == |lines| || StartsSection(lines, start)
    ensures name in Targets(CutAt(lines, start)) <==> NamedFrom(lines, start, name)
    decreases |lines| - start
  {
    if start < |lines| {
      var end := NextStart(lines, start + 1);
      var body := lines[start..end];
      assert !StartsSection(lines, start + 1);
      NamedByPair(body);
      NamesOfPairs(lines, end, name);
      assert CutAt(lines, start) == [SplitBody(body)] + CutAt(lines, end);
      assert Targets(CutAt(lines, start)) == [PathOf(lines[start + 1].text)] + Targets(CutAt(lines, end));
      NamedFirstOrLater(lines, start, end, name);
    }
  }

  lemma NamedFirstOrLater(lines: seq<Line>, start: nat, end: nat, name: string)
    requires StartsSection(lines, start) && end == NextStart(lines, start + 1)
    ensures NamedFrom(lines, start, name) <==> PathOf(lines[start + 1].text) == name || NamedFrom(lines, end, name)
  {
    if NamedFrom(lines, start, name) {
      var i: nat :| start <= i && StartsSection(lines, i) && PathOf(lines[i + 1].text) == name;
      if start < i < end { NoneBefore(lines, start + 1, i); }
      assert i == start || end <= i;
    }
  }

  /** For a patch that opens with a pair, the names compared are those of its pairs. */
  lemma {:induction false} NamesAreOfPairs(lines: seq<Line>, name: string)
    requires StartsSection(lines, 0)
    ensures name in Targets(SectionsOf(lines)) <==> NamedFrom(lines, 0, name)
  {
    NamesOfPairs(lines, 0, name);
    assert SectionsOf(lines) == CutAt(lines, 0);
  }

  // ----- What a name may mean -----

  /** Some header can carry the name without `b/` in front of it. */
  predicate Bare(name: string) { !StartsWith(name, "b/") && Strip(name) == name }

  /** The paths the applier may read where the review reads this name: behind `b/`, or bare. */
  function MayWrite(name: string): set<string> {
    {Slashed(name)} + (if Bare(name) && Unprefixed(Slashed(name)) != "" then {Unprefixed(Slashed(name))} else {})
  }

  /** The name may stand for a deletion, and then of any file at all. */
  predicate Free(name: string) { DEV_NULL in MayWrite(name) }

  ghost function NamesOf(patch: string): set<string> { set name | name in Targets(Sections(patch)) }

  ghost function Meanings(names: set<string>): map<string, set<string>> {
    map name | name in names && !Free(name) :: MayWrite(name)
  }

  /** The names leave no choice about the files the patch reaches: sections of their own for each must reach them. */
  ghost predicate Told(patch: string) {
    forall file :: Reaches(Lines(patch), file) ==> Pinned(Meanings(NamesOf(patch)), file)
  }

  /** The two ways a section that is not refused can carry its name. */
  lemma {:induction false} Spellings(rest: string, name: string)
    requires Normalized(rest) != ""
    requires name == var path := Strip(BeforeTab(Strip(rest))); if StartsWith(path, "b/") then path[2..] else path
    ensures (Base(rest) == name && Bare(name) && Normalized(rest) == Unprefixed(Slashed(name))) ||
            (Base(rest) == "b/" + name && Normalized(rest) == Slashed(name))
  {
    var base := Base(rest);
    assert |Slashed(base)| == |base|;
    SameBase(rest);
    if StartsWith(base, "b/") {
      assert base == "b/" + name;
      assert Slashed(base) == "b/" + Slashed(name);
      assert Slashed(base)[..2] == "b/" && Slashed(base)[2..] == Slashed(name);
    } else {
      StripTrims(BeforeTab(rest));
      StripFixed(base);
    }
  }

  lemma NewPathIsThere(was: Line, now: Line)
    requires Changes(was, now).Some?
    ensures Normalized(RestOf(now.text)) != ""
  {
  }

  lemma {:induction false} ChangeIsMeant(was: Line, now: Line)
    requires Changes(was, now).Some? && !Free(PathOf(now.text))
    ensures Changes(was, now).value in MayWrite(PathOf(now.text))
  {
    NewPathIsThere(was, now);
    Spellings(RestOf(now.text), PathOf(now.text));
  }

  // ----- What the sections of a patch mean -----

  /** The lines have a section for each of the names. */
  ghost predicate Carries(lines: seq<Line>, names: set<string>) {
    forall name :: name in names ==> NamedFrom(lines, 0, name)
  }

  ghost function SectionNamed(lines: seq<Line>, name: string): (i: nat)
    requires NamedFrom(lines, 0, name)
    ensures StartsSection(lines, i) && PathOf(lines[i + 1].text) == name
  {
    var i: nat :| StartsSection(lines, i) && PathOf(lines[i + 1].text) == name;
    i
  }

  /** The file each name has in these lines. */
  ghost function ChoiceOf(lines: seq<Line>, names: set<string>): map<string, string>
    requires Appliable(lines) && Carries(lines, names)
  {
    map name | name in Meanings(names) :: ChangedAt(lines, SectionNamed(lines, name)).value
  }

  lemma {:induction false} ChoiceFits(lines: seq<Line>, names: set<string>)
    requires Appliable(lines) && Carries(lines, names)
    ensures Fits(Meanings(names), ChoiceOf(lines, names))
  {
    var choice := ChoiceOf(lines, names);
    forall name | name in choice ensures choice[name] in Meanings(names)[name] {
      var i := SectionNamed(lines, name);
      ChangeIsMeant(lines[i], lines[i + 1]);
    }
    forall a, b | a in choice && b in choice && a != b ensures choice[a] != choice[b] {
      var i, j := SectionNamed(lines, a), SectionNamed(lines, b);
      assert i != j;
      OtherSectionOtherFile(lines, i, j);
    }
  }

  lemma OtherSectionOtherFile(lines: seq<Line>, i: nat, j: nat)
    requires Appliable(lines) && StartsSection(lines, i) && StartsSection(lines, j) && i != j
    ensures ChangedAt(lines, i).value != ChangedAt(lines, j).value
  {
    var (x, y) := if i < j then (i, j) else (j, i);
    assert ChangedAt(lines, x) != ChangedAt(lines, y);
  }

  lemma {:induction false} PatchCarries(patch: string, names: set<string>)
    requires Appliable(Lines(patch)) && names <= NamesOf(patch)
    ensures Carries(Lines(patch), names)
  {
    forall name | name in names ensures NamedFrom(Lines(patch), 0, name) {
      assert name in NamesOf(patch);
      NamesAreOfPairs(Lines(patch), name);
    }
  }

  lemma NamesWithin(patch: string, other: string)
    requires Within(Targets(Sections(patch)), Targets(Sections(other)))
    ensures NamesOf(patch) <= NamesOf(other)
  {
  }

  /** Whatever the applier takes that carries the names reaches every file they pin. */
  lemma {:induction false} PinnedIsReached(patch: string, names: set<string>, file: string)
    requires Appliable(Lines(patch)) && names <= NamesOf(patch) && Pinned(Meanings(names), file)
    ensures Reaches(Lines(patch), file)
  {
    var lines := Lines(patch);
    PatchCarries(patch, names);
    ChoiceFits(lines, names);
    var name := PinnedIsTaken(Meanings(names), ChoiceOf(lines, names), file);
    assert ChangedAt(lines, SectionNamed(lines, name)) == Some(file);
  }

  // ----- The names of an edit -----

  lemma {:induction false} PieceCarried(base: string, name: string)
    requires Trimmed(base) && NoTabs(base) && NoBreaks(base) && (base == name || base == "b/" + name)
    ensures Carried(name)
  {
    if base == "b/" + name {
      assert forall i :: 0 <= i < |name| ==> name[i] == base[i + 2];
    }
  }

  lemma {:induction false} LineNameCarried(text: string)
    requires IsLine(text) && Normalized(RestOf(text)) != ""
    ensures Carried(PathOf(text)) && PathOf(text) != ""
  {
    LineBreaksAtEnd(text);
    var rest, name := RestOf(text), PathOf(text);
    assert BreaksAtEnd(rest) by { assert forall j :: 0 <= j < |rest| ==> rest[j] == text[j + |text| - |rest|]; }
    BaseIsClean(rest);
    Spellings(rest, name);
    PieceCarried(Base(rest), name);
    assert |Slashed(name)| == |name|;
  }

  lemma {:induction false} NamesCanBeCarried(edit: string, name: string)
    requires Appliable(Lines(edit)) && name in Targets(Sections(edit))
    ensures Carried(name) && name != ""
  {
    var lines := Lines(edit);
    NamesAreOfPairs(lines, name);
    var i: nat :| StartsSection(lines, i) && PathOf(lines[i + 1].text) == name;
    SplitIsPrintable(edit);
    assert IsLine(lines[i + 1].text) && ChangedAt(lines, i).Some?;
    NewPathIsThere(lines[i], lines[i + 1]);
    LineNameCarried(lines[i + 1].text);
  }

  lemma {:induction false} PatchIsNotBlank(edit: string)
    requires StartsSection(Lines(edit), 0)
    ensures Strip(edit) != ""
  {
    SplitIsLineList(edit);
    var first := SplitLines(edit)[0];
    assert Lines(edit)[0] == Tag(first);
    assert first[..4] == "--- ";
    assert edit[0] == first[0] == first[..4][0];
    var k := StripRightCuts(edit);
  }

  /** A patch whose names pin its files stays inside whatever the applier takes that carries them. */
  lemma {:induction false} ToldStaysInside(patch: string, first: string)
    requires Appliable(Lines(first)) && NamesOf(patch) <= NamesOf(first) && Told(patch)
    ensures Stays(patch, first)
  {
    var names := NamesOf(patch);
    forall file | Reaches(Lines(patch), file) ensures Reaches(Lines(first), file) {
      assert Pinned(Meanings(names), file);
      PinnedIsReached(first, names, file);
    }
  }
}
