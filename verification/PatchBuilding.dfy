/** Patches built to carry given names and to change given files. */
module PatchBuilding {
  import opened Options
  import opened Texts
  import opened TextLines
  import opened PatchSelection
  import opened PatchReview
  import opened PatchNames
  import opened PatchReach
  import opened PatchMeanings

  // ----- Header lines -----

  /** What two header lines carry. */
  datatype Spelling = Spelling(was: string, now: string)

  /** A file the name can be made to change: one it may write or, if it may delete, any that needs no care. */
  predicate CanMean(name: string, file: string) {
    if Free(name) then SimplePath(file) else file in MayWrite(name)
  }

  predicate SimplePath(file: string) { file != "" && forall i :: 0 <= i < |file| ==> file[i] == 'p' }

  /** Headers that carry `name` and change `file`. */
  function Spell(name: string, file: string): Spelling {
    var raw := if Free(name) == (Slashed(name) == DEV_NULL) &&
      (Free(name) || Slashed(name) == file) then "b/" + name else name;
    if Free(name) then Spelling("b/" + file, raw) else Spelling(raw, raw)
  }

  predicate Written(raw: string) { raw != "" && Trimmed(raw) && NoTabs(raw) && NoBreaks(raw) }

  /** The headers do what they are for. */
  ghost predicate Spells(sp: Spelling, name: string, file: string) {
    && Written(sp.was) && Written(sp.now)
    && PathOf("+++ " + sp.now + "\n") == name
    && FileOf(Normalized(sp.was + "\n"), Normalized(sp.now + "\n")) == Some(file)
  }

  lemma SimpleIsWritten(file: string)
    requires SimplePath(file)
    ensures Written("b/" + file) && Normalized("b/" + file + "\n") == file && file != DEV_NULL
  {
    BehindB(file);
    assert Slashed(file) == file;
    assert DEV_NULL[0] == '/';
  }

  lemma {:induction false} BareName(name: string)
    requires Carried(name) && name != "" && Strip(name) == name && !StartsWith(name, "b/")
    ensures Written(name) && PathOf("+++ " + name + "\n") == name &&
      Normalized(name + "\n") == Unprefixed(Slashed(name))
  {
    StripTrims(name);
    CarriedBack(name);
    CarriedName(name);
  }

  lemma {:induction false} SpellDeletes(name: string, file: string)
    requires Carried(name) && name != "" && Free(name) && SimplePath(file)
    ensures Spells(Spell(name, file), name, file)
  {
    SimpleIsWritten(file);
    if Slashed(name) == DEV_NULL {
      BehindB(name);
    } else {
      BareName(name);
    }
  }

  lemma {:induction false} SpellWrites(name: string, file: string)
    requires Carried(name) && name != "" && !Free(name) && file in MayWrite(name)
    ensures Spells(Spell(name, file), name, file)
  {
    if Slashed(name) == file {
      BehindB(name);
    } else {
      BareName(name);
    }
  }

  // ----- Sections -----

  /** Lines that print and read back, each ended by a newline. */
  predicate Ended(lines: seq<Line>) {
    forall i :: 0 <= i < |lines| ==> EndedLine(lines[i])
  }

  predicate EndedLine(l: Line) {
    l == Tag(l.text) && IsLine(l.text) && l.text[|l.text| - 1] == '\n'
  }

  /** Lines of a hunk that start no section. */
  predicate IsHunk(hunk: seq<Line>) {
    hunk != [] && hunk[0].kind == HunkHeader && Ended(hunk) && forall i :: 1 <= i < |hunk| ==> hunk[i].kind == Other
  }

  function Headers(sp: Spelling): seq<Line> {
    [Line(OldFile, "--- " + sp.was + "\n"), Line(NewFile, "+++ " + sp.now + "\n")]
  }

  lemma {:induction false} PlainLine(x: string)
    requires NoBreaks(x)
    ensures IsLine(x + "\n")
  {
    if x == "" {
      assert x + "\n" == "\n";
    } else {
      PlainLine(x[1..]);
      assert (x + "\n")[1..] == x[1..] + "\n";
    }
  }

  lemma {:induction false} HeaderLine(intro: string, raw: string)
    requires NoBreaks(raw) && (intro == "--- " || intro == "+++ ")
    ensures var text := intro + raw + "\n";
            RestOf(text) == raw + "\n" && EndedLine(Line(if intro == "--- " then OldFile else NewFile, text))
  {
    var text := intro + raw + "\n";
    assert NoBreaks(intro + raw);
    PlainLine(intro + raw);
    assert text[..4] == intro;
    assert text[4..] == raw + "\n";
  }

  lemma EndedPrints(lines: seq<Line>)
    requires Ended(lines)
    ensures Printable(lines)
  {
    forall i | 0 <= i < |lines| - 1 ensures MayFollow(lines[i].text, lines[i + 1].text) {
      assert EndedLine(lines[i]) && EndedLine(lines[i + 1]);
    }
  }

  /** The first two lines of a section that carries `name` and changes `file`. */
  ghost predicate GoodHead(head: seq<Line>, name: string, file: string) {
    && |head| == 2 && head[0].kind == OldFile && head[1].kind == NewFile && Ended(head)
    && PathOf(head[1].text) == name && Changes(head[0], head[1]) == Some(file)
  }

  lemma HeadersEnd(sp: Spelling, name: string, file: string)
    requires Spells(sp, name, file)
    ensures GoodHead(Headers(sp), name, file)
  {
    HeaderLine("--- ", sp.was);
    HeaderLine("+++ ", sp.now);
  }

  lemma {:induction false} HeadIsGood(name: string, file: string)
    requires Carried(name) && name != "" && CanMean(name, file)
    ensures GoodHead(Headers(Spell(name, file)), name, file)
  {
    if Free(name) { SpellDeletes(name, file); } else { SpellWrites(name, file); }
    HeadersEnd(Spell(name, file), name, file);
  }

  /** Where the sections of what is built start. */
  lemma {:induction false} BuiltStart(head: seq<Line>, hunk: seq<Line>, rest: seq<Line>, i: nat)
    requires |head| == 2 && head[0].kind == OldFile && head[1].kind == NewFile && IsHunk(hunk)
    ensures var lines := head + hunk + rest;
            StartsSection(lines, i) <==> i == 0 || (i >= 2 + |hunk| && StartsSection(rest, i - 2 - |hunk|))
  {
    var lines := head + hunk + rest;
    if 2 <= i < 2 + |hunk| {
      assert lines[i] == hunk[i - 2];
    } else if i >= 2 + |hunk| {
      assert i < |lines| ==> lines[i] == rest[i - 2 - |hunk|];
      assert i + 1 < |lines| ==> lines[i + 1] == rest[i + 1 - 2 - |hunk|];
    }
  }

  /** A section of what is built changes what it changed before it was built in. */
  lemma {:induction false} BuiltChanges(head: seq<Line>, hunk: seq<Line>, rest: seq<Line>, i: nat)
    requires |head| == 2 && head[0].kind == OldFile && head[1].kind == NewFile && IsHunk(hunk)
    requires StartsSection(head + hunk + rest, i)
    ensures i == 0 || (i >= 2 + |hunk| && StartsSection(rest, i - 2 - |hunk|))
    ensures ChangedAt(head + hunk + rest, i) ==
      if i == 0 then Changes(head[0], head[1]) else ChangedAt(rest, i - 2 - |hunk|)
  {
    var lines := head + hunk + rest;
    BuiltStart(head, hunk, rest, i);
    if i == 0 {
      assert lines[0] == head[0] && lines[1] == head[1];
    } else {
      var k := i - 2 - |hunk|;
      assert lines[i] == rest[k] && lines[i + 1] == rest[k + 1];
    }
  }

  lemma {:induction false} BuiltEnds(head: seq<Line>, hunk: seq<Line>, rest: seq<Line>)
    requires Ended(head) && IsHunk(hunk) && Ended(rest)
    ensures Ended(head + hunk + rest)
  {
  }

  lemma {:induction false} NameStep(
      head: seq<Line>, hunk: seq<Line>, rest: seq<Line>, name: string, file: string, other: string)
    requires GoodHead(head, name, file) && IsHunk(hunk) && (other == name || NamedFrom(rest, 0, other))
    ensures NamedFrom(head + hunk + rest, 0, other)
  {
    var lines := head + hunk + rest;
    if other == name {
      BuiltStart(head, hunk, rest, 0);
      assert lines[1] == head[1];
    } else {
      var j: nat :| StartsSection(rest, j) && PathOf(rest[j + 1].text) == other;
      var i := j + 2 + |hunk|;
      BuiltStart(head, hunk, rest, i);
      assert lines[i + 1] == rest[j + 1];
    }
  }

  /** Sections that change these files, each once. */
  ghost predicate OnlyThese(lines: seq<Line>, files: set<string>) {
    && (forall i: nat :: StartsSection(lines, i) ==> ChangedAt(lines, i).Some? && ChangedAt(lines, i).value in files)
    && (forall i: nat, j: nat :: i < j && StartsSection(lines, i) && StartsSection(lines, j) ==>
          ChangedAt(lines, i) != ChangedAt(lines, j))
  }

  lemma {:induction false} OneMore(
      head: seq<Line>, hunk: seq<Line>, rest: seq<Line>, name: string, file: string, files: set<string>)
    requires GoodHead(head, name, file) && IsHunk(hunk) && OnlyThese(rest, files) && file !in files
    ensures OnlyThese(head + hunk + rest, files + {file}) && StartsSection(head + hunk + rest, 0)
  {
    var lines := head + hunk + rest;
    BuiltStart(head, hunk, rest, 0);
    forall i: nat | StartsSection(lines, i)
      ensures ChangedAt(lines, i).Some? && ChangedAt(lines, i).value in files + {file}
    {
      BuiltChanges(head, hunk, rest, i);
    }
    forall i: nat, j: nat | i < j && StartsSection(lines, i) && StartsSection(lines, j)
      ensures ChangedAt(lines, i) != ChangedAt(lines, j)
    {
      BuiltChanges(head, hunk, rest, i);
      BuiltChanges(head, hunk, rest, j);
    }
  }

  /** Each name can be carried, and made to change the file it is given. */
  ghost predicate Feasible(aims: map<string, string>) {
    && Matching.Distinct(aims)
    && forall name :: name in aims ==> name != "" && Carried(name) && CanMean(name, aims[name])
  }

  ghost function FilesOf(aims: map<string, string>, names: set<string>): set<string>
    requires names <= aims.Keys
  {
    set name | name in names :: aims[name]
  }

  /** Lines with one section for each of the names. */
  ghost predicate BuiltFor(lines: seq<Line>, aims: map<string, string>, names: set<string>)
    requires names <= aims.Keys
  {
    OnlyThese(lines, FilesOf(aims, names)) && Carries(lines, names) && (names != {} ==> StartsSection(lines, 0))
  }

  lemma {:induction false} CarriesOneMore(
      head: seq<Line>, hunk: seq<Line>, rest: seq<Line>, name: string, file: string, names: set<string>)
    requires GoodHead(head, name, file) && IsHunk(hunk) && Carries(rest, names - {name})
    ensures Carries(head + hunk + rest, names)
  {
    forall other | other in names ensures NamedFrom(head + hunk + rest, 0, other) {
      NameStep(head, hunk, rest, name, file, other);
    }
  }

  lemma FilesOneMore(aims: map<string, string>, names: set<string>, name: string)
    requires Matching.Distinct(aims) && names <= aims.Keys && name in names
    ensures aims[name] !in FilesOf(aims, names - {name})
    ensures FilesOf(aims, names) == FilesOf(aims, names - {name}) + {aims[name]}
  {
  }

  lemma {:induction false} AddSection(
      aims: map<string, string>, names: set<string>, name: string, head: seq<Line>, hunk: seq<Line>, rest: seq<Line>)
    requires Matching.Distinct(aims) && names <= aims.Keys && name in names && IsHunk(hunk)
    requires GoodHead(head, name, aims[name]) && BuiltFor(rest, aims, names - {name})
    ensures BuiltFor(head + hunk + rest, aims, names)
  {
    FilesOneMore(aims, names, name);
    OneMore(head, hunk, rest, name, aims[name], FilesOf(aims, names - {name}));
    CarriesOneMore(head, hunk, rest, name, aims[name], names);
  }

  /** One section for each name, each with the same hunk. */
  lemma {:induction false} BuildSections(aims: map<string, string>, names: set<string>, hunk: seq<Line>)
    returns (lines: seq<Line>)
    requires Feasible(aims) && names <= aims.Keys && IsHunk(hunk)
    ensures BuiltFor(lines, aims, names) && Ended(lines)
    decreases names
  {
    if names == {} {
      lines := [];
    } else {
      var name :| name in names;
      var rest := BuildSections(aims, names - {name}, hunk);
      var head := Headers(Spell(name, aims[name]));
      HeadIsGood(name, aims[name]);
      AddSection(aims, names, name, head, hunk, rest);
      BuiltEnds(head, hunk, rest);
      lines := head + hunk + rest;
    }
  }

  lemma AllFiles(aims: map<string, string>)
    ensures FilesOf(aims, aims.Keys) == aims.Values
  {
  }

  lemma OnlyTheseReached(lines: seq<Line>, files: set<string>, file: string)
    requires OnlyThese(lines, files) && Reaches(lines, file)
    ensures file in files
  {
    var i: nat :| StartsSection(lines, i) && ChangedAt(lines, i) == Some(file);
  }

  lemma ReadsBack(lines: seq<Line>)
    requires Ended(lines)
    ensures Lines(Join(TextsOf(lines))) == lines
  {
    EndedPrints(lines);
    PrintableRoundTrip(lines);
  }

  lemma {:induction false} CarriedIsNamed(patch: string, names: set<string>)
    requires StartsSection(Lines(patch), 0) && Carries(Lines(patch), names)
    ensures names <= NamesOf(patch)
  {
    forall name | name in names ensures name in NamesOf(patch) {
      NamesAreOfPairs(Lines(patch), name);
    }
  }

  /** A patch the applier would take, with these names and these files. */
  lemma {:induction false} BuildPatch(aims: map<string, string>, hunk: seq<Line>) returns (patch: string)
    requires Feasible(aims) && aims.Keys != {} && IsHunk(hunk)
    ensures Appliable(Lines(patch)) && aims.Keys <= NamesOf(patch)
    ensures forall file :: Reaches(Lines(patch), file) ==> file in aims.Values
  {
    var lines := BuildSections(aims, aims.Keys, hunk);
    AllFiles(aims);
    ReadsBack(lines);
    patch := Join(TextsOf(lines));
    forall file | Reaches(lines, file) ensures file in aims.Values {
      OnlyTheseReached(lines, aims.Values, file);
    }
    CarriedIsNamed(patch, aims.Keys);
  }

  // ----- Files to delete -----

  lemma {:induction false} LongerThanAll(taken: set<string>) returns (n: nat)
    ensures forall s :: s in taken ==> |s| < n
  {
    if taken == {} {
      n := 0;
    } else {
      var s :| s in taken;
      var m := LongerThanAll(taken - {s});
      n := if m > |s| then m else |s| + 1;
    }
  }

  lemma FreshPath(taken: set<string>) returns (file: string)
    ensures SimplePath(file) && file !in taken
  {
    var n := LongerThanAll(taken);
    file := seq(n + 1, _ => 'p');
  }

  /** Different files for the names that may delete any. */
  lemma {:induction false} AimFree(names: set<string>, taken: set<string>) returns (aims: map<string, string>)
    ensures aims.Keys == names && Matching.Distinct(aims)
    ensures forall name :: name in aims ==> SimplePath(aims[name]) && aims[name] !in taken
    decreases names
  {
    if names == {} {
      aims := map[];
    } else {
      var name :| name in names;
      var file := FreshPath(taken);
      var rest := AimFree(names - {name}, taken + {file});
      aims := rest[name := file];
    }
  }

  lemma AHunk() returns (hunk: seq<Line>)
    ensures IsHunk(hunk)
  {
    var l := HunkIntro("@@ -1 +1 @@");
    hunk := [l];
  }

  lemma HunkIntro(text: string) returns (l: Line)
    requires StartsWith(text, "@@ ") && NoBreaks(text)
    ensures l.kind == HunkHeader && EndedLine(l)
  {
    PlainLine(text);
    l := Line(HunkHeader, text + "\n");
    assert l.text[..3] == text[..3];
    assert l.text[0] == l.text[..3][0];
  }
}
