/** Which lines of a patch a selection copies, told by counting headers from the top of the patch. */
module PatchChoice {
  import opened Options
  import opened TextLines
  import opened Texts
  import opened Positions
  import opened PatchSelection
  import opened PatchReview

  // ----- Where a line stands -----

  predicate OpensFile(texts: seq<string>, i: int) {
    0 <= i < |texts| - 1 && StartsWith(texts[i], "--- ") && StartsWith(texts[i + 1], "+++ ")
  }

  predicate OpensHunk(texts: seq<string>, i: int) {
    0 <= i < |texts| && StartsWith(texts[i], "@@ ")
  }

  /** How many file headers open in the first n lines. */
  function FilesBefore(texts: seq<string>, n: nat): nat {
    if n == 0 then 0 else FilesBefore(texts, n - 1) + if OpensFile(texts, n - 1) then 1 else 0
  }

  /** The file a line belongs to; what stands before the first header belongs to the first file. */
  function FileAt(texts: seq<string>, i: nat): nat {
    if FilesBefore(texts, i + 1) == 0 then 0 else FilesBefore(texts, i + 1) - 1
  }

  /** How many hunks of its file have opened at line i; none yet means that it is a line of the file's header. */
  function HunksAt(texts: seq<string>, i: nat): nat {
    (if OpensHunk(texts, i) then 1 else 0) +
    if i == 0 || FileAt(texts, i - 1) != FileAt(texts, i) then 0 else HunksAt(texts, i - 1)
  }

  /** The line stands in a hunk whose id is selected. */
  predicate InSelected(texts: seq<string>, selected: set<HunkId>, i: nat) {
    HunksAt(texts, i) > 0 && HunkId(FileAt(texts, i), HunksAt(texts, i) - 1) in selected
  }

  /** The lines a selection is about: selected hunks, and the headers of the files that have one. */
  predicate KeepsLine(texts: seq<string>, selected: set<HunkId>, i: nat) {
    FilesBefore(texts, |texts|) > 0 &&
    if HunksAt(texts, i) > 0 then InSelected(texts, selected, i)
    else exists j :: 0 <= j < |texts| && FileAt(texts, j) == FileAt(texts, i) && InSelected(texts, selected, j)
  }

  // ----- The hunks of one file -----

  lemma {:induction false} KeptSnoc(hunks: seq<seq<Line>>, h: seq<Line>, file: nat, hunk: nat, selected: set<HunkId>)
    ensures KeptHunks(hunks + [h], file, hunk, selected) ==
            KeptHunks(hunks, file, hunk, selected) + if HunkId(file, hunk + |hunks|) in selected then [h] else []
  {
    if hunks == [] {
      assert hunks + [h] == [h] && [h][1..] == [];
    } else {
      var tail := hunks[1..];
      var first := if HunkId(file, hunk) in selected then [hunks[0]] else [];
      var added := if HunkId(file, hunk + |hunks|) in selected then [h] else [];
      assert (hunks + [h])[1..] == tail + [h];
      KeptSnoc(tail, h, file, hunk + 1, selected);
      var kept := KeptHunks(tail, file, hunk + 1, selected);
      assert KeptHunks(hunks + [h], file, hunk, selected) == first + (kept + added);
      assert first + (kept + added) == (first + kept) + added;
    }
  }

  /** The selected hunks of a file, by number. */
  ghost function Chosen(file: nat, selected: set<HunkId>): nat -> bool { (h: nat) => HunkId(file, h) in selected }

  /** `at` are the positions of the selected hunks, and these are kept. */
  ghost predicate ChosenIs(hunks: seq<seq<Line>>, file: nat, selected: set<HunkId>, at: seq<nat>) {
    && Lists(at, |hunks|, Chosen(file, selected))
    && KeptHunks(hunks, file, 0, selected) == ElementsAt(hunks, at)
  }

  lemma {:induction false} OneMoreChosen(
      hunks: seq<seq<Line>>, h: seq<Line>, file: nat, selected: set<HunkId>, at: seq<nat>)
    requires ChosenIs(hunks, file, selected, at)
    ensures ChosenIs(hunks + [h], file, selected, if HunkId(file, |hunks|) in selected then at + [|hunks|] else at)
  {
    var n, kept := |hunks|, KeptHunks(hunks, file, 0, selected);
    KeptSnoc(hunks, h, file, 0, selected);
    ElementsMore(hunks, h, at);
    ListedMore(at, n, Chosen(file, selected));
    if HunkId(file, n) in selected {
      assert KeptHunks(hunks + [h], file, 0, selected) == ElementsAt(hunks + [h], at + [n]);
      assert Lists(at + [n], |hunks + [h]|, Chosen(file, selected));
    } else {
      assert KeptHunks(hunks + [h], file, 0, selected) == kept + [] == kept == ElementsAt(hunks + [h], at);
      assert Lists(at, |hunks + [h]|, Chosen(file, selected));
    }
  }

  lemma {:induction false} ChosenAt(hunks: seq<seq<Line>>, file: nat, selected: set<HunkId>) returns (at: seq<nat>)
    ensures ChosenIs(hunks, file, selected, at)
  {
    if hunks == [] {
      at := [];
    } else {
      var front, last := hunks[..|hunks| - 1], hunks[|hunks| - 1];
      at := ChosenAt(front, file, selected);
      OneMoreChosen(front, last, file, selected, at);
      at := if HunkId(file, |front|) in selected then at + [|front|] else at;
      assert hunks == front + [last];
    }
  }

  /** Of each file exactly the selected hunks are kept, in their order. */
  lemma {:induction false} KeptAreTheChosen(hunks: seq<seq<Line>>, file: nat, selected: set<HunkId>)
    ensures Keeps(hunks, Chosen(file, selected), KeptHunks(hunks, file, 0, selected))
  {
    var at := ChosenAt(hunks, file, selected);
  }

  // ----- Picking lines by position -----

  /** The lines of `lines[lo..hi]` at the positions with the property. */
  ghost function Picked(lines: seq<Line>, keep: nat -> bool, lo: nat, hi: nat): seq<Line>
    requires hi <= |lines|
    decreases hi
  {
    if hi <= lo then [] else Picked(lines, keep, lo, hi - 1) + if keep(hi - 1) then [lines[hi - 1]] else []
  }

  lemma {:induction false} PickedSplits(lines: seq<Line>, keep: nat -> bool, lo: nat, mid: nat, hi: nat)
    requires lo <= mid <= hi <= |lines|
    ensures Picked(lines, keep, lo, hi) == Picked(lines, keep, lo, mid) + Picked(lines, keep, mid, hi)
    decreases hi
  {
    if mid < hi { PickedSplits(lines, keep, lo, mid, hi - 1); }
  }

  lemma {:induction false} PickedAgree(lines: seq<Line>, keep: nat -> bool, other: nat -> bool, lo: nat, hi: nat)
    requires hi <= |lines| && forall i: nat :: lo <= i < hi ==> keep(i) == other(i)
    ensures Picked(lines, keep, lo, hi) == Picked(lines, other, lo, hi)
    decreases hi
  {
    if lo < hi { PickedAgree(lines, keep, other, lo, hi - 1); }
  }

  lemma {:induction false} NonePicked(lines: seq<Line>, keep: nat -> bool, lo: nat, hi: nat)
    requires hi <= |lines| && forall i: nat :: lo <= i < hi ==> !keep(i)
    ensures Picked(lines, keep, lo, hi) == []
    decreases hi
  {
    if lo < hi { NonePicked(lines, keep, lo, hi - 1); }
  }

  lemma TextAdded(texts: seq<string>, picked: seq<Line>, listed: seq<nat>, n: nat)
    requires n < |texts| && forall k :: 0 <= k < |listed| ==> listed[k] < n
    requires TextsOf(picked) == ElementsAt(texts, listed)
    ensures TextsOf(picked + [TagAll(texts)[n]]) == ElementsAt(texts, listed + [n])
  {
  }

  lemma {:induction false} PickedLists(texts: seq<string>, keep: nat -> bool, hi: nat) returns (listed: seq<nat>)
    requires hi <= |texts|
    ensures Lists(listed, hi, keep)
    ensures TextsOf(Picked(TagAll(texts), keep, 0, hi)) == ElementsAt(texts, listed)
    decreases hi
  {
    if hi == 0 {
      listed := [];
    } else {
      listed := PickedLists(texts, keep, hi - 1);
      if keep(hi - 1) {
        TextAdded(texts, Picked(TagAll(texts), keep, 0, hi - 1), listed, hi - 1);
        ListedMore(listed, hi - 1, keep);
        listed := listed + [hi - 1];
      } else {
        assert Picked(TagAll(texts), keep, 0, hi) == Picked(TagAll(texts), keep, 0, hi - 1);
      }
    }
  }

  ghost function Kept(texts: seq<string>, selected: set<HunkId>): nat -> bool {
    (i: nat) => KeepsLine(texts, selected, i)
  }

  ghost function Copied(texts: seq<string>, selected: set<HunkId>): nat -> bool {
    (i: nat) => HeaderOrSelected(texts, selected, i)
  }

  // ----- Reading tags -----

  /** The tags of the lines are what their texts begin with. */
  ghost predicate Reads(texts: seq<string>, lines: seq<Line>) {
    && |lines| == |texts|
    && (forall i :: 0 <= i < |texts| ==> (lines[i].kind == HunkHeader <==> OpensHunk(texts, i)))
    && (forall i: nat :: StartsSection(lines, i) <==> OpensFile(texts, i))
  }

  lemma TagsRead(texts: seq<string>)
    ensures Reads(texts, TagAll(texts))
  {
    forall i | 0 <= i < |texts| ensures TagAll(texts)[i].kind == HunkHeader <==> OpensHunk(texts, i) {
      TagKind(texts[i]);
    }
    forall i: nat ensures StartsSection(TagAll(texts), i) <==> OpensFile(texts, i) {
      if i + 1 < |texts| {
        TagKind(texts[i]);
        TagKind(texts[i + 1]);
      }
    }
  }

  lemma TagKind(text: string)
    ensures Tag(text).kind == OldFile <==> StartsWith(text, "--- ")
    ensures Tag(text).kind == NewFile <==> StartsWith(text, "+++ ")
    ensures Tag(text).kind == HunkHeader <==> StartsWith(text, "@@ ")
  {
    if StartsWith(text, "--- ") { assert text[0] == "--- "[0]; }
    if StartsWith(text, "+++ ") { assert text[0] == "+++ "[0]; }
    if StartsWith(text, "@@ ") { assert text[0] == "@@ "[0]; }
  }

  lemma {:induction false} NoStartBetween(texts: seq<string>, lines: seq<Line>, i: nat, k: nat)
    requires Reads(texts, lines)
    requires i <= |texts| && i <= k < NextStart(lines, i)
    ensures !OpensFile(texts, k)
    decreases k - i
  {
    if i < k { NoStartBetween(texts, lines, i + 1, k); }
  }

  lemma {:induction false} FilesGrow(texts: seq<string>, m: nat, n: nat)
    requires m <= n
    ensures FilesBefore(texts, m) <= FilesBefore(texts, n)
    ensures (forall k :: m <= k < n ==> !OpensFile(texts, k)) ==> FilesBefore(texts, m) == FilesBefore(texts, n)
    decreases n - m
  {
    if m < n { FilesGrow(texts, m, n - 1); }
  }

  // ----- One file's section -----

  /** Lines `lo` up to `hi` are those of this file and no earlier line is. */
  ghost predicate Spans(texts: seq<string>, file: nat, lo: nat, hi: nat) {
    && lo <= hi <= |texts|
    && (forall i :: lo <= i < hi ==> FileAt(texts, i) == file)
    && (lo > 0 && lo < hi ==> FileAt(texts, lo - 1) != file)
  }

  /** The header of the file and its selected hunks, whether or not there is one. */
  predicate HeaderOrSelected(texts: seq<string>, selected: set<HunkId>, i: nat) {
    HunksAt(texts, i) == 0 || InSelected(texts, selected, i)
  }

  lemma HunksStep(texts: seq<string>, file: nat, lo: nat, hi: nat)
    requires Spans(texts, file, lo, hi) && lo < hi
    ensures Spans(texts, file, lo, hi - 1) && FileAt(texts, hi - 1) == file
    ensures HunksAt(texts, hi - 1) ==
            (if lo < hi - 1 then HunksAt(texts, hi - 2) else 0) + if OpensHunk(texts, hi - 1) then 1 else 0
  {
    if lo < hi - 1 { assert FileAt(texts, hi - 2) == file == FileAt(texts, hi - 1); }
  }

  lemma CopiedStep(
      lines: seq<Line>, texts: seq<string>, selected: set<HunkId>, lo: nat, hi: nat, file: nat, hunks: nat)
    requires lo < hi <= |lines| && FileAt(texts, hi - 1) == file && HunksAt(texts, hi - 1) == hunks
    ensures Picked(lines, Copied(texts, selected), lo, hi) ==
            Picked(lines, Copied(texts, selected), lo, hi - 1) +
            if hunks == 0 || HunkId(file, hunks - 1) in selected then [lines[hi - 1]] else []
  {
  }

  lemma {:induction false} SplitSnoc(lines: seq<Line>, lo: nat, hi: nat)
    requires lo < hi <= |lines|
    ensures SplitBody(lines[lo..hi]) == AppendLine(SplitBody(lines[lo..hi - 1]), lines[hi - 1])
  {
    var body := lines[lo..hi];
    assert body[..|body| - 1] == lines[lo..hi - 1] && body[|body| - 1] == lines[hi - 1];
  }

  /** A section read up to `hi`, with the hunks selected in it, is what is picked up to `hi`. */
  ghost predicate Agrees(
      texts: seq<string>, lines: seq<Line>, selected: set<HunkId>, file: nat, lo: nat, hi: nat, s: Section)
    requires hi <= |lines|
  {
    && |s.hunks| == (if lo < hi then HunksAt(texts, hi - 1) else 0)
    && s.header + Flat(KeptHunks(s.hunks, file, 0, selected)) == Picked(lines, Copied(texts, selected), lo, hi)
  }

  lemma NoneAgrees(texts: seq<string>, lines: seq<Line>, selected: set<HunkId>, file: nat, lo: nat)
    requires lo <= |lines|
    ensures Agrees(texts, lines, selected, file, lo, lo, SplitBody(lines[lo..lo]))
  {
    assert lines[lo..lo] == [];
  }

  lemma {:induction false} OneMoreAgrees(
      texts: seq<string>, lines: seq<Line>, selected: set<HunkId>, file: nat, lo: nat, hi: nat)
    requires lo < hi <= |lines| && FileAt(texts, hi - 1) == file
    requires HunksAt(texts, hi - 1) ==
             (if lo < hi - 1 then HunksAt(texts, hi - 2) else 0) + if lines[hi - 1].kind == HunkHeader then 1 else 0
    requires Agrees(texts, lines, selected, file, lo, hi - 1, SplitBody(lines[lo..hi - 1]))
    ensures Agrees(texts, lines, selected, file, lo, hi, SplitBody(lines[lo..hi]))
  {
    LinePicks(SplitBody(lines[lo..hi - 1]), lines[hi - 1], file, selected);
    SplitSnoc(lines, lo, hi);
    CopiedStep(lines, texts, selected, lo, hi, file, HunksAt(texts, hi - 1));
  }

  lemma {:induction false} SectionPicks(
      texts: seq<string>, lines: seq<Line>, selected: set<HunkId>, file: nat, lo: nat, hi: nat)
    requires Reads(texts, lines)
    requires Spans(texts, file, lo, hi)
    ensures Agrees(texts, lines, selected, file, lo, hi, SplitBody(lines[lo..hi]))
    decreases hi - lo
  {
    if lo == hi {
      NoneAgrees(texts, lines, selected, file, lo);
    } else {
      HunksStep(texts, file, lo, hi);
      SectionPicks(texts, lines, selected, file, lo, hi - 1);
      OneMoreAgrees(texts, lines, selected, file, lo, hi);
    }
  }

  /** One more line of a section, in its header, in a kept hunk, or in another. */
  lemma {:induction false} LinePicks(s: Section, l: Line, file: nat, selected: set<HunkId>)
    ensures var t := AppendLine(s, l);
            var hunks := |s.hunks| + if l.kind == HunkHeader then 1 else 0;
            && |t.hunks| == hunks
            && t.header + Flat(KeptHunks(t.hunks, file, 0, selected)) ==
               s.header + Flat(KeptHunks(s.hunks, file, 0, selected)) +
               if hunks == 0 || HunkId(file, hunks - 1) in selected then [l] else []
  {
    if l.kind == HunkHeader {
      var kept := KeptHunks(s.hunks, file, 0, selected);
      KeptSnoc(s.hunks, [l], file, 0, selected);
      FlatAppend(kept, [l]);
      assert kept + [] == kept && s.header + (Flat(kept) + [l]) == s.header + Flat(kept) + [l];
    } else if s.hunks == [] {
      assert KeptHunks(s.hunks, file, 0, selected) == [] && Flat([]) == [];
    } else {
      var front, last := s.hunks[..|s.hunks| - 1], s.hunks[|s.hunks| - 1];
      assert s.hunks == front + [last];
      KeptSnoc(front, last, file, 0, selected);
      KeptSnoc(front, last + [l], file, 0, selected);
      var kept := KeptHunks(front, file, 0, selected);
      FlatAppend(kept, last);
      FlatAppend(kept, last + [l]);
      assert s.header + (Flat(kept) + (last + [l])) == s.header + (Flat(kept) + last) + [l];
    }
  }

  lemma {:induction false} HunksCount(texts: seq<string>, file: nat, lo: nat, hi: nat, i: nat)
    requires Spans(texts, file, lo, hi) && lo <= i < hi
    ensures HunksAt(texts, i) <= HunksAt(texts, hi - 1)
    decreases hi
  {
    if i < hi - 1 {
      assert FileAt(texts, hi - 2) == FileAt(texts, hi - 1);
      HunksCount(texts, file, lo, hi - 1, i);
    }
  }

  lemma {:induction false} HunkHasLine(texts: seq<string>, file: nat, lo: nat, hi: nat, h: nat) returns (i: nat)
    requires Spans(texts, file, lo, hi) && lo < hi && h < HunksAt(texts, hi - 1)
    ensures lo <= i < hi && HunksAt(texts, i) == h + 1
    decreases hi
  {
    i := hi - 1;
    if HunksAt(texts, i) != h + 1 {
      if lo < i { assert FileAt(texts, i - 1) == FileAt(texts, i); }
      i := HunkHasLine(texts, file, lo, hi - 1, h);
    }
  }

  lemma {:induction false} SectionCounts(texts: seq<string>, lines: seq<Line>, file: nat, lo: nat, hi: nat)
    requires Reads(texts, lines)
    requires Spans(texts, file, lo, hi)
    ensures |SplitBody(lines[lo..hi]).hunks| == if lo < hi then HunksAt(texts, hi - 1) else 0
  {
    SectionPicks(texts, lines, {}, file, lo, hi);
  }

  lemma {:induction false} NoneKept(texts: seq<string>, selected: set<HunkId>, file: nat, lo: nat, hi: nat)
    requires Spans(texts, file, lo, hi) && lo < hi
    requires forall i :: 0 <= i < |texts| && FileAt(texts, i) == file ==> lo <= i < hi
    requires forall h: nat :: h < HunksAt(texts, hi - 1) ==> HunkId(file, h) !in selected
    ensures forall i :: lo <= i < hi ==> !KeepsLine(texts, selected, i)
  {
    forall j: nat | j < |texts| && FileAt(texts, j) == file ensures !InSelected(texts, selected, j) {
      HunksCount(texts, file, lo, hi, j);
    }
  }

  lemma {:induction false} SomeKept(texts: seq<string>, selected: set<HunkId>, file: nat, lo: nat, hi: nat, h: nat)
    requires Spans(texts, file, lo, hi) && lo < hi && FilesBefore(texts, |texts|) > 0
    requires h < HunksAt(texts, hi - 1) && HunkId(file, h) in selected
    ensures forall i :: lo <= i < hi ==> (KeepsLine(texts, selected, i) <==> HeaderOrSelected(texts, selected, i))
  {
    var j := HunkHasLine(texts, file, lo, hi, h);
    assert InSelected(texts, selected, j);
  }

  /** A file without a selected hunk keeps nothing, and any other its header and its selected hunks. */
  lemma {:induction false} FilePicks(
      texts: seq<string>, lines: seq<Line>, selected: set<HunkId>, file: nat, lo: nat, hi: nat)
    requires Reads(texts, lines)
    requires Spans(texts, file, lo, hi) && lo < hi && FilesBefore(texts, |texts|) > 0
    requires forall i :: 0 <= i < |texts| && FileAt(texts, i) == file ==> lo <= i < hi
    ensures var s := SplitBody(lines[lo..hi]);
            var kept := KeptHunks(s.hunks, file, 0, selected);
            (if kept == [] then [] else s.header + Flat(kept)) == Picked(lines, Kept(texts, selected), lo, hi)
  {
    var s := SplitBody(lines[lo..hi]);
    SectionCounts(texts, lines, file, lo, hi);
    var chosen := SomeChosen(s.hunks, file, selected);
    if chosen == None {
      NoneKept(texts, selected, file, lo, hi);
      NonePicked(lines, Kept(texts, selected), lo, hi);
    } else {
      SomeKept(texts, selected, file, lo, hi, chosen.value);
      PickedAgree(lines, Kept(texts, selected), Copied(texts, selected), lo, hi);
      SectionPicks(texts, lines, selected, file, lo, hi);
    }
  }

  /** A file keeps no hunk exactly when none of its hunks is selected. */
  lemma {:induction false} SomeChosen(hunks: seq<seq<Line>>, file: nat, selected: set<HunkId>)
    returns (chosen: Option<nat>)
    ensures chosen == None <==> KeptHunks(hunks, file, 0, selected) == []
    ensures chosen == None ==> forall h: nat :: h < |hunks| ==> HunkId(file, h) !in selected
    ensures chosen.Some? ==> chosen.value < |hunks| && HunkId(file, chosen.value) in selected
  {
    var at := ChosenAt(hunks, file, selected);
    if at == [] {
      forall h: nat | h < |hunks| ensures HunkId(file, h) !in selected { assert h !in at; }
      chosen := None;
    } else {
      chosen := Some(at[0]);
    }
  }

  // ----- All files -----

  /** From a file's header to the next, or to the end, the count stands still. */
  lemma {:induction false} FilesStand(texts: seq<string>, lines: seq<Line>, start: nat, i: nat)
    requires Reads(texts, lines)
    requires OpensFile(texts, start) && start < i <= NextStart(lines, start + 1)
    ensures FilesBefore(texts, i) == FilesBefore(texts, start) + 1
  {
    forall k | start + 1 <= k < i ensures !OpensFile(texts, k) { NoStartBetween(texts, lines, start + 1, k); }
    FilesGrow(texts, start + 1, i);
  }

  lemma {:induction false} FileOfLine(texts: seq<string>, lines: seq<Line>, begin: nat, start: nat, file: nat, i: nat)
    requires Reads(texts, lines)
    requires OpensFile(texts, start) && FilesBefore(texts, start) == file && i < |texts|
    requires begin == if file == 0 then 0 else start
    ensures FileAt(texts, i) == file <==> begin <= i < NextStart(lines, start + 1)
  {
    var end := NextStart(lines, start + 1);
    if i < start {
      FilesGrow(texts, i + 1, start);
    } else if i < end {
      FilesStand(texts, lines, start, i + 1);
    } else {
      FilesStand(texts, lines, start, end);
        FilesGrow(texts, end + 1, i + 1);
    }
  }

  /** The section that the pair at `start` opens, with what stands before it if it is the first. */
  lemma {:induction false} SectionSpans(texts: seq<string>, lines: seq<Line>, begin: nat, start: nat, file: nat)
    requires Reads(texts, lines)
    requires OpensFile(texts, start) && FilesBefore(texts, start) == file
    requires begin == if file == 0 then 0 else start
    ensures var end := NextStart(lines, start + 1);
            && Spans(texts, file, begin, end) && begin < end && FilesBefore(texts, end) == file + 1
            && (forall i :: 0 <= i < |texts| && FileAt(texts, i) == file ==> begin <= i < end)
  {
    forall i | 0 <= i < |texts|
      ensures FileAt(texts, i) == file <==> begin <= i < NextStart(lines, start + 1)
    {
      FileOfLine(texts, lines, begin, start, file, i);
    }
    FilesStand(texts, lines, start, NextStart(lines, start + 1));
  }

  lemma {:induction false} CutPicks(
      texts: seq<string>, lines: seq<Line>, selected: set<HunkId>, begin: nat, start: nat, file: nat)
    requires Reads(texts, lines)
    requires OpensFile(texts, start) && FilesBefore(texts, start) == file
    requires begin == if file == 0 then 0 else start
    ensures StartsSection(lines, start)
    ensures AllLines(Narrow(Cut(lines, begin, start), file, selected)) ==
            Picked(lines, Kept(texts, selected), begin, |texts|)
    decreases |texts| - start, 0
  {
    var end := NextStart(lines, start + 1);
    FirstPicks(texts, lines, selected, begin, start, file);
    RestPicks(texts, lines, selected, end, file + 1);
    PiecesMeet(lines, Kept(texts, selected), begin, start, file, selected);
  }

  lemma {:induction false} PiecesMeet(
      lines: seq<Line>, keep: nat -> bool, begin: nat, start: nat, file: nat, selected: set<HunkId>)
    requires begin <= start && StartsSection(lines, start)
    requires var end := NextStart(lines, start + 1);
             var s := SplitBody(lines[begin..end]);
             var kept := KeptHunks(s.hunks, file, 0, selected);
             && (if kept == [] then [] else s.header + Flat(kept)) == Picked(lines, keep, begin, end)
             && AllLines(Narrow(CutAt(lines, end), file + 1, selected)) == Picked(lines, keep, end, |lines|)
    ensures AllLines(Narrow(Cut(lines, begin, start), file, selected)) == Picked(lines, keep, begin, |lines|)
  {
    var end := NextStart(lines, start + 1);
    PickedSplits(lines, keep, begin, end, |lines|);
    var sections := Cut(lines, begin, start);
    assert sections[1..] == CutAt(lines, end) && sections[0] == SplitBody(lines[begin..end]);
    JoinPieces(sections, file, selected);
  }

  lemma {:induction false} FirstPicks(
      texts: seq<string>, lines: seq<Line>, selected: set<HunkId>, begin: nat, start: nat, file: nat)
    requires Reads(texts, lines)
    requires OpensFile(texts, start) && FilesBefore(texts, start) == file
    requires begin == if file == 0 then 0 else start
    ensures var end := NextStart(lines, start + 1);
            var s := SplitBody(lines[begin..end]);
            var kept := KeptHunks(s.hunks, file, 0, selected);
            && FilesBefore(texts, end) == file + 1
            && (if kept == [] then [] else s.header + Flat(kept)) ==
               Picked(lines, Kept(texts, selected), begin, end)
  {
    var end := NextStart(lines, start + 1);
    SectionSpans(texts, lines, begin, start, file);
    FilesGrow(texts, end, |texts|);
    FilePicks(texts, lines, selected, file, begin, end);
  }

  lemma {:induction false} RestPicks(texts: seq<string>, lines: seq<Line>, selected: set<HunkId>, end: nat, file: nat)
    requires Reads(texts, lines)
    requires end == |texts| || StartsSection(lines, end)
    requires FilesBefore(texts, end) == file > 0
    ensures AllLines(Narrow(CutAt(lines, end), file, selected)) ==
            Picked(lines, Kept(texts, selected), end, |texts|)
    decreases |texts| - end, 1
  {
    if end < |texts| { CutPicks(texts, lines, selected, end, end, file); }
  }

  lemma JoinPieces(sections: seq<Section>, file: nat, selected: set<HunkId>)
    requires sections != []
    ensures var kept := KeptHunks(sections[0].hunks, file, 0, selected);
            AllLines(Narrow(sections, file, selected)) ==
            (if kept == [] then [] else sections[0].header + Flat(kept)) +
            AllLines(Narrow(sections[1..], file + 1, selected))
  {
    NarrowFirst([], sections, file, selected);
    var all := AllLines(Narrow(sections, file, selected));
    assert [] + all == all;
    var piece := sections[0].header + Flat(KeptHunks(sections[0].hunks, file, 0, selected));
    assert [] + piece == piece;
  }

  lemma {:induction false} NarrowPicks(texts: seq<string>, lines: seq<Line>, selected: set<HunkId>)
    requires Reads(texts, lines)
    ensures AllLines(Narrow(SectionsOf(lines), 0, selected)) == Picked(lines, Kept(texts, selected), 0, |texts|)
  {
    var first := NextStart(lines, 0);
    forall k | 0 <= k < first ensures !OpensFile(texts, k) { NoStartBetween(texts, lines, 0, k); }
    FilesGrow(texts, 0, first);
    if first == |texts| {
      NonePicked(lines, Kept(texts, selected), 0, |texts|);
    } else {
      CutPicks(texts, lines, selected, 0, first, 0);
    }
  }

  // ----- Main results -----

  /**
   * A selection copies out exactly the lines of the selected hunks and of the headers of the files that have one, in
   * their order: no line of another hunk, and no header of a file without one.
   */
  lemma {:induction false} SelectionCopies(patch: string, selected: set<HunkId>) returns (at: seq<nat>)
    ensures Lists(at, |SplitLines(patch)|, (i: nat) => KeepsLine(SplitLines(patch), selected, i))
    ensures forall k :: 0 <= k < |at| ==> at[k] < |SplitLines(patch)|
    ensures Selected(patch, selected) == Join(ElementsAt(SplitLines(patch), at))
  {
    var texts := SplitLines(patch);
    TagsRead(texts);
    NarrowPicks(texts, TagAll(texts), selected);
    at := PickedLists(texts, Kept(texts, selected), |texts|);
    forall k | 0 <= k < |at| ensures at[k] < |texts| { assert at[k] in at; }
  }

  /** Selecting nothing gives the empty patch. */
  lemma {:induction false} NothingSelected(patch: string)
    ensures Selected(patch, {}) == ""
  {
    var at := SelectionCopies(patch, {});
  }

  /** Every hunk of the patch is selected. */
  ghost predicate SelectsAll(patch: string, selected: set<HunkId>) {
    var sections := Sections(patch);
    forall f: nat, h: nat :: f < |sections| && h < |sections[f].hunks| ==> HunkId(f, h) in selected
  }

  /** Every line of the patch stands in a section, and every section has a hunk. */
  predicate AllHaveHunks(patch: string) {
    var sections := Sections(patch);
    (patch != "" ==> sections != []) && forall f :: 0 <= f < |sections| ==> sections[f].hunks != []
  }

  lemma {:induction false} AllHunksKept(hunks: seq<seq<Line>>, file: nat, selected: set<HunkId>)
    requires forall h: nat :: h < |hunks| ==> HunkId(file, h) in selected
    ensures KeptHunks(hunks, file, 0, selected) == hunks
  {
    for n := 0 to |hunks|
      invariant KeptHunks(hunks[..n], file, 0, selected) == hunks[..n]
    {
      assert hunks[..n + 1] == hunks[..n] + [hunks[n]];
      KeptSnoc(hunks[..n], hunks[n], file, 0, selected);
    }
    assert hunks[..|hunks|] == hunks;
  }

  /** With everything selected, only sections without hunks are lost. */
  lemma {:induction false} AllKept(sections: seq<Section>, file: nat, selected: set<HunkId>)
    requires file <= |sections|
    requires forall f: nat, h: nat :: f < |sections| && h < |sections[f].hunks| ==> HunkId(f, h) in selected
    ensures var kept := Narrow(sections[file..], file, selected);
            && |AllLines(kept)| <= |AllLines(sections[file..])|
            && ((forall f :: file <= f < |sections| ==> sections[f].hunks != []) ==> kept == sections[file..])
            && ((exists f :: file <= f < |sections| && sections[f].hunks == [] && sections[f].header != []) ==>
                 |AllLines(kept)| < |AllLines(sections[file..])|)
    decreases |sections| - file
  {
    if file < |sections| {
      AllKept(sections, file + 1, selected);
      AllHunksKept(sections[file].hunks, file, selected);
      assert sections[file..][1..] == sections[file + 1..];
      assert sections[file..] == [sections[file]] + sections[file + 1..];
      JoinPieces(sections[file..], file, selected);
    }
  }

  /** A selection of every hunk is the patch itself if and only if every section of the patch has a hunk. */
  lemma {:induction false} EverythingSelected(patch: string, selected: set<HunkId>)
    requires SelectsAll(patch, selected)
    ensures Selected(patch, selected) == patch <==> AllHaveHunks(patch)
  {
    var lines, sections := TagAll(SplitLines(patch)), Sections(patch);
    AllKept(sections, 0, selected);
    assert sections[0..] == sections;
    WholePatch(lines);
    SamePatch(patch, selected);
  }

  /** A selection is the whole patch when, and only when, it keeps all the lines. */
  lemma {:induction false} SamePatch(patch: string, selected: set<HunkId>)
    ensures Selected(patch, selected) == patch <==>
            AllLines(Narrow(Sections(patch), 0, selected)) == TagAll(SplitLines(patch))
    ensures patch == "" <==> SplitLines(patch) == []
  {
    SplitIsLineList(patch);
    SelectedLines(patch, selected);
    assert TextsOf(TagAll(SplitLines(patch))) == SplitLines(patch);
  }

  /** The sections of a patch that has one are all its lines, and none of them is empty. */
  lemma {:induction false} WholePatch(lines: seq<Line>)
    ensures SectionsOf(lines) != [] ==> AllLines(SectionsOf(lines)) == lines
    ensures forall f :: 0 <= f < |SectionsOf(lines)| ==>
              SectionsOf(lines)[f].header != [] || SectionsOf(lines)[f].hunks != []
  {
    var first := NextStart(lines, 0);
    if first < |lines| {
      CutShape(lines, 0, first);
      assert lines[0..] == lines;
      OpenOnes(SectionsOf(lines)[1..]);
    }
  }

  lemma {:induction false} OpenOnes(sections: seq<Section>)
    requires AllOpen(sections)
    ensures forall f :: 0 <= f < |sections| ==> sections[f].header != []
  {
    if sections != [] { OpenOnes(sections[1..]); }
  }
}
