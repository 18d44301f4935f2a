/** The files the applier would write or delete for a patch, and what selections and edits do to them. */
module PatchReach {
  import opened Options
  import opened TextLines
  import opened PatchSelection
  import opened PatchReview
  import opened PatchNames

  // ----- The applier -----

  /**
   * The one file a section changes, from its two normalised paths: the new one when it creates, else the old one.
   * A section that renames, and one whose target can be no file of the workspace, is refused.
   */
  function FileOf(was: string, now: string): Option<string> {
    var target := if was == DEV_NULL then now else was;
    if target == "" || target == DEV_NULL || (was != DEV_NULL && now != DEV_NULL && was != now) then None
    else Some(target)
  }

  /** The file a section changes is on both its lines, or on one of them beside `/dev/null`: nothing is renamed. */
  lemma FileOfExactly(was: string, now: string, file: string)
    ensures FileOf(was, now) == Some(file) <==>
            && file != "" && file != "/dev/null"
            && ((was == file && now == file) || (was == "/dev/null" && now == file) ||
                (was == file && now == "/dev/null"))
  {
  }

  function Changes(was: Line, now: Line): Option<string> {
    FileOf(Normalized(RestOf(was.text)), Normalized(RestOf(now.text)))
  }

  function ChangedAt(lines: seq<Line>, i: nat): Option<string>
    requires StartsSection(lines, i)
  {
    Changes(lines[i], lines[i + 1])
  }

  /** Some section of the patch changes this file. */
  ghost predicate Reaches(lines: seq<Line>, file: string) {
    exists i: nat :: StartsSection(lines, i) && ChangedAt(lines, i) == Some(file)
  }

  /**
   * The applier takes the patch as far as its headers go: it opens with a pair, no section is refused, no file twice.
   */
  ghost predicate Appliable(lines: seq<Line>) {
    && StartsSection(lines, 0)
    && (forall i: nat :: StartsSection(lines, i) ==> ChangedAt(lines, i).Some?)
    && (forall i: nat, j: nat :: i < j && StartsSection(lines, i) && StartsSection(lines, j) ==>
          ChangedAt(lines, i) != ChangedAt(lines, j))
  }

  function Lines(patch: string): seq<Line> { TagAll(SplitLines(patch)) }

  ghost predicate Stays(after: string, before: string) {
    forall file :: Reaches(Lines(after), file) ==> Reaches(Lines(before), file)
  }

  // ----- Selections -----

  ghost predicate HasPair(lines: seq<Line>, a: Line, b: Line) {
    exists i: nat :: i + 1 < |lines| && lines[i] == a && lines[i + 1] == b
  }

  lemma PairOfConcat(x: seq<Line>, y: seq<Line>, a: Line, b: Line)
    requires y != [] ==> y[0] != b
    ensures HasPair(x + y, a, b) ==> HasPair(x, a, b) || HasPair(y, a, b)
  {
    if HasPair(x + y, a, b) {
      var i: nat :| i + 1 < |x + y| && (x + y)[i] == a && (x + y)[i + 1] == b;
      if i + 1 < |x| {
        assert x[i] == a && x[i + 1] == b;
      } else {
        assert i + 1 != |x|;
        assert y[i - |x|] == a && y[i - |x| + 1] == b;
      }
    }
  }

  lemma PairInConcat(x: seq<Line>, y: seq<Line>, a: Line, b: Line)
    ensures HasPair(x, a, b) || HasPair(y, a, b) ==> HasPair(x + y, a, b)
  {
    if HasPair(x, a, b) {
      var i: nat :| i + 1 < |x| && x[i] == a && x[i + 1] == b;
      assert (x + y)[i] == a && (x + y)[i + 1] == b;
    } else if HasPair(y, a, b) {
      var i: nat :| i + 1 < |y| && y[i] == a && y[i + 1] == b;
      assert (x + y)[|x| + i] == a && (x + y)[|x| + i + 1] == b;
    }
  }

  ghost predicate HunksOpen(hunks: seq<seq<Line>>) {
    forall i :: 0 <= i < |hunks| ==> WellFormedHunk(hunks[i])
  }

  lemma {:induction false} KeptPairs(
      hunks: seq<seq<Line>>, file: nat, hunk: nat, selected: set<HunkId>, a: Line, b: Line)
    requires HunksOpen(hunks) && b.kind == NewFile
    ensures var kept := KeptHunks(hunks, file, hunk, selected);
            && HunksOpen(kept) && (Flat(kept) != [] ==> Flat(kept)[0] != b)
            && (HasPair(Flat(kept), a, b) ==> HasPair(Flat(hunks), a, b))
  {
    if hunks != [] {
      var tail := hunks[1..];
      var rest := KeptHunks(tail, file, hunk + 1, selected);
      KeptPairs(tail, file, hunk + 1, selected, a, b);
      PairInConcat(hunks[0], Flat(tail), a, b);
      if HunkId(file, hunk) in selected {
        var kept := [hunks[0]] + rest;
        assert kept[1..] == rest && Flat(kept) == hunks[0] + Flat(rest);
        PairOfConcat(hunks[0], Flat(rest), a, b);
      } else {
        assert [] + rest == rest;
      }
    }
  }

  lemma {:induction false} SectionPairs(s: Section, file: nat, selected: set<HunkId>, a: Line, b: Line)
    requires WellFormed(s) && b.kind == NewFile
    ensures HasPair(LinesOf(Section(s.header, KeptHunks(s.hunks, file, 0, selected))), a, b) ==>
      HasPair(LinesOf(s), a, b)
  {
    var kept := KeptHunks(s.hunks, file, 0, selected);
    KeptPairs(s.hunks, file, 0, selected, a, b);
    PairOfConcat(s.header, Flat(kept), a, b);
    PairInConcat(s.header, Flat(s.hunks), a, b);
  }

  lemma {:induction false} NarrowPairs(sections: seq<Section>, file: nat, selected: set<HunkId>, a: Line, b: Line)
    requires AllOpen(sections) && b.kind == NewFile
    ensures var kept := AllLines(Narrow(sections, file, selected));
            (kept != [] ==> kept[0] != b) && (HasPair(kept, a, b) ==> HasPair(AllLines(sections), a, b))
  {
    NarrowOpens(sections, file, selected);
    TailOpens(Narrow(sections, file, selected));
    if sections != [] {
      NarrowPairs(sections[1..], file + 1, selected, a, b);
      FrontPairs(sections, file, selected, a, b);
    }
  }

  /** The first section, whatever stands in front of its pair, and the rest. */
  lemma {:induction false} FrontPairs(sections: seq<Section>, file: nat, selected: set<HunkId>, a: Line, b: Line)
    requires sections != [] && WellFormed(sections[0]) && b.kind == NewFile
    requires var rest := AllLines(Narrow(sections[1..], file + 1, selected));
             (rest != [] ==> rest[0] != b) && (HasPair(rest, a, b) ==> HasPair(AllLines(sections[1..]), a, b))
    ensures HasPair(AllLines(Narrow(sections, file, selected)), a, b) ==> HasPair(AllLines(sections), a, b)
  {
    var kept := KeptHunks(sections[0].hunks, file, 0, selected);
    var rest := Narrow(sections[1..], file + 1, selected);
    var first := Section(sections[0].header, kept);
    SectionPairs(sections[0], file, selected, a, b);
    PairInConcat(LinesOf(sections[0]), AllLines(sections[1..]), a, b);
    if kept == [] {
      assert Narrow(sections, file, selected) == rest;
    } else {
      assert ([first] + rest)[1..] == rest;
      assert AllLines([first] + rest) == LinesOf(first) + AllLines(rest);
      PairOfConcat(LinesOf(first), AllLines(rest), a, b);
    }
  }

  lemma {:induction false} SelectionPairs(lines: seq<Line>, selected: set<HunkId>, a: Line, b: Line)
    requires b.kind == NewFile
    ensures HasPair(AllLines(Narrow(SectionsOf(lines), 0, selected)), a, b) ==> HasPair(lines, a, b)
  {
    var first := NextStart(lines, 0);
    if first < |lines| {
      CutShape(lines, 0, first);
      var sections := SectionsOf(lines);
      NarrowPairs(sections[1..], 1, selected, a, b);
      FrontPairs(sections, 0, selected, a, b);
      assert lines[0..] == lines;
    }
  }

  /** For every patch and every selection of its hunks, no file is reached that the patch itself does not reach. */
  lemma {:induction false} SelectionReachesNoNewFile(patch: string, selected: set<HunkId>)
    ensures Stays(Selected(patch, selected), patch)
  {
    var kept, lines := Lines(Selected(patch, selected)), Lines(patch);
    SelectedLines(patch, selected);
    forall file | Reaches(kept, file) ensures Reaches(lines, file) {
      var i: nat :| StartsSection(kept, i) && ChangedAt(kept, i) == Some(file);
      var a, b := kept[i], kept[i + 1];
      assert HasPair(kept, a, b);
      SelectionPairs(lines, selected, a, b);
      var j: nat :| j + 1 < |lines| && lines[j] == a && lines[j + 1] == b;
      assert StartsSection(lines, j) && ChangedAt(lines, j) == Some(file);
    }
  }
}
