/** What selecting hunks keeps, and the names a chain of reviews can put on a patch. */
module PatchReview {
  import opened Options
  import opened TextLines
  import opened PatchSelection
  import opened Texts

  // ----- Parsing and printing one section -----

  predicate WellFormedHunk(h: seq<Line>) {
    h != [] && h[0].kind == HunkHeader && forall i :: 1 <= i < |h| ==> h[i].kind != HunkHeader
  }

  predicate WellFormed(s: Section) {
    && (forall i :: 0 <= i < |s.header| ==> s.header[i].kind != HunkHeader)
    && (forall i :: 0 <= i < |s.hunks| ==> WellFormedHunk(s.hunks[i]))
  }

  lemma {:induction false} FlatAppend(hunks: seq<seq<Line>>, h: seq<Line>)
    ensures Flat(hunks + [h]) == Flat(hunks) + h
  {
    if hunks == [] {
      assert [h][1..] == [];
    } else {
      FlatAppend(hunks[1..], h);
      assert (hunks + [h])[1..] == hunks[1..] + [h];
    }
  }

  lemma {:induction false} FlatSnoc(hunks: seq<seq<Line>>)
    requires hunks != []
    ensures Flat(hunks) == Flat(hunks[..|hunks| - 1]) + hunks[|hunks| - 1]
  {
    assert hunks == hunks[..|hunks| - 1] + [hunks[|hunks| - 1]];
    FlatAppend(hunks[..|hunks| - 1], hunks[|hunks| - 1]);
  }

  lemma {:induction false} LastHunkGrows(hunks: seq<seq<Line>>, l: Line)
    requires hunks != []
    ensures Flat(hunks[..|hunks| - 1] + [hunks[|hunks| - 1] + [l]]) == Flat(hunks) + [l]
  {
    FlatSnoc(hunks);
    FlatAppend(hunks[..|hunks| - 1], hunks[|hunks| - 1] + [l]);
  }

  lemma {:induction false} AppendLineAdds(s: Section, l: Line)
    requires WellFormed(s)
    ensures WellFormed(AppendLine(s, l)) && LinesOf(AppendLine(s, l)) == LinesOf(s) + [l]
  {
    if l.kind == HunkHeader {
      FlatAppend(s.hunks, [l]);
    } else if s.hunks != [] {
      LastHunkGrows(s.hunks, l);
      assert WellFormedHunk(s.hunks[|s.hunks| - 1] + [l]);
    } else {
      assert LinesOf(s) == s.header;
    }
  }

  /** Nothing is lost or reordered by splitting a section. */
  lemma {:induction false} SplitBodyKeepsLines(body: seq<Line>)
    ensures WellFormed(SplitBody(body)) && LinesOf(SplitBody(body)) == body
  {
    if body != [] {
      SplitBodyKeepsLines(body[..|body| - 1]);
      AppendLineAdds(SplitBody(body[..|body| - 1]), body[|body| - 1]);
    }
  }

  function DropLast(s: Section): Section
    requires s.header != [] || s.hunks != []
    requires WellFormed(s)
  {
    if s.hunks == [] then s.(header := s.header[..|s.header| - 1])
    else
      var front, last := s.hunks[..|s.hunks| - 1], s.hunks[|s.hunks| - 1];
      s.(hunks := if |last| == 1 then front else front + [last[..|last| - 1]])
  }

  lemma DropLastUndoes(s: Section) returns (l: Line)
    requires s.header != [] || s.hunks != []
    requires WellFormed(s)
    ensures WellFormed(DropLast(s)) && AppendLine(DropLast(s), l) == s
  {
    if s.hunks == [] {
      l := s.header[|s.header| - 1];
    } else {
      var front, last := s.hunks[..|s.hunks| - 1], s.hunks[|s.hunks| - 1];
      l := last[|last| - 1];
      assert s.hunks == front + [last];
      assert last == last[..|last| - 1] + [l];
      if |last| > 1 {
        assert WellFormedHunk(last[..|last| - 1]);
      }
    }
  }

  /** Printing a well-formed section and splitting it again gives the section back. */
  lemma {:induction false} SplitBodyOfLines(s: Section)
    requires WellFormed(s)
    ensures SplitBody(LinesOf(s)) == s
    decreases |LinesOf(s)|
  {
    if s.header != [] || s.hunks != [] {
      var l := DropLastUndoes(s);
      AppendLineAdds(DropLast(s), l);
      SplitBodyOfLines(DropLast(s));
      assert LinesOf(s)[..|LinesOf(s)| - 1] == LinesOf(DropLast(s));
    }
  }

  /** The header is what stands before the first hunk header. */
  lemma {:induction false} HeaderIs(body: seq<Line>, n: nat)
    requires n < |body| && body[n].kind == HunkHeader
    requires forall i :: 0 <= i < n ==> body[i].kind != HunkHeader
    ensures SplitBody(body).header == body[..n]
  {
    SplitBodyKeepsLines(body);
    var s := SplitBody(body);
    assert forall i :: 0 <= i < |s.header| ==> s.header[i] == body[i];
    assert s.hunks != [] ==> body[|s.header|] == s.hunks[0][0];
  }

  // ----- Where sections start -----

  /** How many `---`/`+++` pairs there are. */
  function Starts(lines: seq<Line>): nat {
    if lines == [] then 0 else (if StartsSection(lines, 0) then 1 else 0) + Starts(lines[1..])
  }

  /** Lines that can be appended without completing a pair. */
  predicate Detached(lines: seq<Line>) {
    lines == [] || lines[0].kind != NewFile
  }

  lemma {:induction false} StartsOfConcat(x: seq<Line>, y: seq<Line>)
    requires Detached(y)
    ensures Starts(x + y) == Starts(x) + Starts(y)
  {
    if x == [] {
      assert x + y == y;
    } else {
      assert (x + y)[1..] == x[1..] + y;
      StartsOfConcat(x[1..], y);
    }
  }

  lemma {:induction false} NextStartShift(x: seq<Line>, y: seq<Line>, i: nat)
    requires i <= |y|
    ensures NextStart(x + y, |x| + i) == |x| + NextStart(y, i)
    decreases |y| - i
  {
    assert StartsSection(x + y, |x| + i) <==> StartsSection(y, i);
    if i < |y| && !StartsSection(y, i) {
      NextStartShift(x, y, i + 1);
    }
  }

  lemma {:induction false} NextStartConcat(x: seq<Line>, y: seq<Line>, i: nat)
    requires i <= |x| && Detached(y)
    ensures NextStart(x + y, i) == if NextStart(x, i) < |x| then NextStart(x, i) else |x| + NextStart(y, 0)
    decreases |x| - i
  {
    if i == |x| {
      NextStartShift(x, y, 0);
    } else {
      assert StartsSection(x + y, i) <==> StartsSection(x, i);
      if !StartsSection(x, i) {
        NextStartConcat(x, y, i + 1);
      }
    }
  }

  lemma {:induction false} SliceConcat(lines: seq<Line>, begin: nat, x: seq<Line>, y: seq<Line>)
    requires begin <= |lines| && lines[begin..] == x + y
    ensures begin + |x| <= |lines| && lines[begin..begin + |x|] == x && lines[begin + |x|..] == y
  {
    assert |lines[begin..]| == |lines| - begin;
    assert lines[begin..begin + |x|] == lines[begin..][..|x|];
    assert lines[begin + |x|..] == lines[begin..][|x|..];
  }

  /** The next start, seen from inside a body that `rest` follows. */
  lemma {:induction false} NextStartInBody(lines: seq<Line>, begin: nat, body: seq<Line>, rest: seq<Line>, i: nat)
    requires begin <= |lines| && lines[begin..] == body + rest && Detached(rest) && i <= |body|
    ensures begin + i <= |lines|
    ensures NextStart(lines, begin + i) ==
            begin + if NextStart(body, i) < |body| then NextStart(body, i) else |body| + NextStart(rest, 0)
  {
    var before := lines[..begin];
    assert lines == before + (body + rest);
    NextStartShift(before, body + rest, i);
    NextStartConcat(body, rest, i);
  }

  lemma {:induction false} NextStartCounts(lines: seq<Line>, i: nat)
    requires i <= |lines|
    ensures var j := NextStart(lines, i);
            Starts(lines[i..]) == if j < |lines| then 1 + Starts(lines[j + 1..]) else 0
    decreases |lines| - i
  {
    if i < |lines| {
      assert lines[i..][1..] == lines[i + 1..];
      assert StartsSection(lines[i..], 0) <==> StartsSection(lines, i);
      if !StartsSection(lines, i) {
        NextStartCounts(lines, i + 1);
      }
    }
  }

  /** The pair at `at` is the only one in `body`. */
  predicate Sole(body: seq<Line>, at: int) {
    at == NextStart(body, 0) < |body| && NextStart(body, at + 1) == |body|
  }

  lemma {:induction false} SoleCounts(body: seq<Line>)
    ensures Starts(body) == 0 <==> NextStart(body, 0) == |body|
    ensures Starts(body) == 1 <==> Sole(body, NextStart(body, 0))
  {
    var at := NextStart(body, 0);
    NextStartCounts(body, 0);
    assert body[0..] == body;
    if at < |body| {
      NextStartCounts(body, at + 1);
    }
  }

  /** Dropping hunks never creates a section start. */
  lemma {:induction false} KeptStarts(hunks: seq<seq<Line>>, file: nat, hunk: nat, selected: set<HunkId>)
    requires forall i :: 0 <= i < |hunks| ==> WellFormedHunk(hunks[i])
    ensures var kept := KeptHunks(hunks, file, hunk, selected);
            && (forall i :: 0 <= i < |kept| ==> WellFormedHunk(kept[i]))
            && Detached(Flat(hunks)) && Detached(Flat(kept))
            && Starts(Flat(kept)) <= Starts(Flat(hunks))
  {
    if hunks != [] {
      var rest := KeptHunks(hunks[1..], file, hunk + 1, selected);
      KeptStarts(hunks[1..], file, hunk + 1, selected);
      StartsOfConcat(hunks[0], Flat(hunks[1..]));
      StartsOfConcat(hunks[0], Flat(rest));
      if HunkId(file, hunk) in selected {
        assert ([hunks[0]] + rest)[1..] == rest;
      } else {
        assert [] + rest == rest;
      }
    }
  }

  // ----- The shape of a parse -----

  /** A section introduced by its first two lines, and by nothing else. */
  predicate Opens(s: Section) {
    WellFormed(s) && StartsSection(s.header, 0) && Starts(LinesOf(s)) <= 1
  }

  predicate AllOpen(sections: seq<Section>) {
    sections != [] ==> Opens(sections[0]) && AllOpen(sections[1..])
  }

  lemma {:induction false} OpensAtZero(s: Section)
    requires Opens(s)
    ensures |LinesOf(s)| > 1 && LinesOf(s)[0].kind == OldFile && LinesOf(s)[1].kind == NewFile
    ensures Sole(LinesOf(s), 0)
  {
    assert LinesOf(s)[0] == s.header[0] && LinesOf(s)[1] == s.header[1];
    NextStartCounts(LinesOf(s), 0);
    SoleCounts(LinesOf(s));
    assert LinesOf(s)[0..] == LinesOf(s);
  }

  lemma {:induction false} TailOpens(sections: seq<Section>)
    requires AllOpen(sections)
    ensures Detached(AllLines(sections))
    ensures sections != [] ==> StartsSection(AllLines(sections), 0) && AllLines(sections)[0].kind == OldFile
    ensures sections == [] ==> AllLines(sections) == []
  {
    if sections != [] {
      OpensAtZero(sections[0]);
      var lines, first := AllLines(sections), LinesOf(sections[0]);
      assert lines[0] == first[0] && lines[1] == first[1];
    }
  }

  lemma {:induction false} NarrowedSection(s: Section, file: nat, selected: set<HunkId>)
    requires WellFormed(s)
    ensures var narrowed := Section(s.header, KeptHunks(s.hunks, file, 0, selected));
            && WellFormed(narrowed) && Starts(LinesOf(narrowed)) <= Starts(LinesOf(s))
            && Starts(LinesOf(narrowed)) >= Starts(s.header)
  {
    KeptStarts(s.hunks, file, 0, selected);
    StartsOfConcat(s.header, Flat(s.hunks));
    StartsOfConcat(s.header, Flat(KeptHunks(s.hunks, file, 0, selected)));
  }

  lemma {:induction false} NarrowOpens(sections: seq<Section>, file: nat, selected: set<HunkId>)
    requires AllOpen(sections)
    ensures AllOpen(Narrow(sections, file, selected))
  {
    if sections != [] {
      var kept := KeptHunks(sections[0].hunks, file, 0, selected);
      var rest := Narrow(sections[1..], file + 1, selected);
      NarrowedSection(sections[0], file, selected);
      NarrowOpens(sections[1..], file + 1, selected);
      if kept == [] {
        assert [] + rest == rest;
      } else {
        assert ([Section(sections[0].header, kept)] + rest)[1..] == rest;
      }
    }
  }

  lemma {:induction false} FirstBody(lines: seq<Line>, begin: nat, start: nat)
    requires begin <= |lines| && NextStart(lines, begin) == start < |lines|
    ensures var end := NextStart(lines, start + 1);
            Sole(lines[begin..end], start - begin) && end > start + 1
  {
    var end := NextStart(lines, start + 1);
    assert !StartsSection(lines, start + 1);
    var body, rest := lines[begin..end], lines[end..];
    assert lines[begin..] == body + rest;
    assert rest != [] ==> rest[0] == lines[end];
    NextStartInBody(lines, begin, body, rest, 0);
    NextStartInBody(lines, begin, body, rest, start + 1 - begin);
  }

  lemma {:induction false} FirstOpens(body: seq<Line>)
    requires Sole(body, 0)
    ensures Opens(SplitBody(body))
  {
    var s := SplitBody(body);
    SplitBodyKeepsLines(body);
    SoleCounts(body);
    assert body[0].kind == OldFile && body[1].kind == NewFile;
    assert forall i :: 0 <= i < |s.header| ==> s.header[i] == body[i];
    assert s.hunks != [] ==> body[|s.header|] == s.hunks[0][0];
  }

  /** Every section but the first opens with its own pair; together they are all the lines. */
  lemma {:induction false} CutShape(lines: seq<Line>, begin: nat, start: nat)
    requires begin <= |lines| && NextStart(lines, begin) == start < |lines|
    ensures var s := Cut(lines, begin, start);
            && WellFormed(s[0]) && Sole(LinesOf(s[0]), start - begin)
            && AllOpen(s[1..])
            && (begin == start ==> Opens(s[0]))
            && AllLines(s) == lines[begin..]
    decreases |lines| - start
  {
    var end := NextStart(lines, start + 1);
    var body := lines[begin..end];
    FirstBody(lines, begin, start);
    SplitBodyKeepsLines(body);
    if begin == start {
      FirstOpens(body);
    }
    var tail := CutAt(lines, end);
    assert Cut(lines, begin, start)[1..] == tail;
    assert lines[begin..] == body + lines[end..];
    if end < |lines| {
      CutShape(lines, end, end);
    }
  }

  lemma {:induction false} FirstSectionEnds(lines: seq<Line>, begin: nat, start: nat, body: seq<Line>, rest: seq<Line>)
    requires begin <= |lines| && lines[begin..] == body + rest && Detached(rest)
    requires rest == [] || StartsSection(rest, 0)
    requires Sole(body, start - begin)
    ensures StartsSection(lines, start) && NextStart(lines, begin) == start
    ensures begin + |body| <= |lines| && lines[begin + |body|..] == rest
    ensures NextStart(lines, start + 1) == begin + |body| && lines[begin..begin + |body|] == body
  {
    NextStartInBody(lines, begin, body, rest, 0);
    NextStartInBody(lines, begin, body, rest, start + 1 - begin);
    SliceConcat(lines, begin, body, rest);
  }

  lemma CutIs(lines: seq<Line>, begin: nat, start: nat, end: nat, sections: seq<Section>)
    requires begin <= start && StartsSection(lines, start) && NextStart(lines, start + 1) == end
    requires sections != [] && SplitBody(lines[begin..end]) == sections[0] && CutAt(lines, end) == sections[1..]
    ensures Cut(lines, begin, start) == sections
  {
  }

  /** Printing sections that open properly and parsing them again gives them back. */
  lemma {:induction false} CutOfSections(lines: seq<Line>, begin: nat, start: nat, sections: seq<Section>)
    requires begin <= |lines| && lines[begin..] == AllLines(sections)
    requires sections != [] && WellFormed(sections[0]) && Sole(LinesOf(sections[0]), start - begin)
    requires AllOpen(sections[1..])
    ensures StartsSection(lines, start) && NextStart(lines, begin) == start && Cut(lines, begin, start) == sections
    decreases |sections|
  {
    var body, tail := LinesOf(sections[0]), sections[1..];
    var end := begin + |body|;
    TailOpens(tail);
    FirstSectionEnds(lines, begin, start, body, AllLines(tail));
    if tail != [] {
      OpensAtZero(tail[0]);
      CutOfSections(lines, end, end, tail);
    }
    SplitBodyOfLines(sections[0]);
    CutIs(lines, begin, start, end, sections);
  }

  // ----- Selecting hunks, on tagged lines -----

  /** The sections a selection keeps still carry a `---`/`+++` pair in front. */
  predicate StillOpens(kept: seq<Section>) {
    kept == [] || Starts(LinesOf(kept[0])) > 0
  }

  /** What a selection keeps: at most one pair in front, and every later section opens. */
  predicate Narrowed(kept: seq<Section>) {
    kept != [] ==>
      && WellFormed(kept[0]) && kept[0].hunks != [] && Starts(LinesOf(kept[0])) <= 1
      && AllOpen(kept[1..])
  }

  lemma {:induction false} NarrowKeepsHunks(sections: seq<Section>, file: nat, selected: set<HunkId>)
    ensures var kept := Narrow(sections, file, selected); kept != [] ==> kept[0].hunks != []
  {
    if sections != [] {
      NarrowKeepsHunks(sections[1..], file + 1, selected);
    }
  }

  lemma {:induction false} NarrowIsNarrowed(sections: seq<Section>, selected: set<HunkId>)
    requires sections != [] && WellFormed(sections[0]) && Starts(LinesOf(sections[0])) <= 1
    requires AllOpen(sections[1..])
    ensures Narrowed(Narrow(sections, 0, selected))
  {
    var kept := KeptHunks(sections[0].hunks, 0, 0, selected);
    var rest := Narrow(sections[1..], 1, selected);
    NarrowedSection(sections[0], 0, selected);
    NarrowOpens(sections[1..], 1, selected);
    NarrowKeepsHunks(sections[1..], 1, selected);
    if kept == [] {
      assert [] + rest == rest;
    } else {
      assert ([Section(sections[0].header, kept)] + rest)[1..] == rest;
    }
  }

  lemma {:induction false} NarrowShape(lines: seq<Line>, selected: set<HunkId>)
    ensures Narrowed(Narrow(SectionsOf(lines), 0, selected))
  {
    var first := NextStart(lines, 0);
    if first < |lines| {
      CutShape(lines, 0, first);
      SoleCounts(LinesOf(SectionsOf(lines)[0]));
      NarrowIsNarrowed(SectionsOf(lines), selected);
    }
  }

  /** Kept sections that still open parse back to exactly themselves. */
  lemma {:induction false} KeptParses(kept: seq<Section>)
    requires Narrowed(kept) && kept != [] && Starts(LinesOf(kept[0])) > 0
    ensures SectionsOf(AllLines(kept)) == kept
  {
    SoleCounts(LinesOf(kept[0]));
    assert AllLines(kept)[0..] == AllLines(kept);
    CutOfSections(AllLines(kept), 0, NextStart(LinesOf(kept[0]), 0), kept);
  }

  lemma {:induction false} MergedBody(kept: seq<Section>)
    requires Narrowed(kept) && |kept| > 1 && Starts(LinesOf(kept[0])) == 0
    ensures var first, second := LinesOf(kept[0]), LinesOf(kept[1]);
            && Sole(first + second, |first|)
            && SplitBody(first + second).header == kept[0].header
  {
    var first, second := LinesOf(kept[0]), LinesOf(kept[1]);
    assert Opens(kept[1]);
    OpensAtZero(kept[1]);
    SoleCounts(first);
    NextStartConcat(first, second, 0);
    NextStartShift(first, second, 1);
    HeaderIs(first + second, |kept[0].header|);
  }

  lemma {:induction false} MergedLines(kept: seq<Section>)
    requires |kept| > 1
    ensures var body := LinesOf(kept[0]) + LinesOf(kept[1]);
            AllLines(kept) == body + AllLines(kept[2..]) == AllLines([SplitBody(body)] + kept[2..])
  {
    var body := LinesOf(kept[0]) + LinesOf(kept[1]);
    SplitBodyKeepsLines(body);
    assert kept[1..][1..] == kept[2..];
    assert AllLines(kept[1..]) == LinesOf(kept[1]) + AllLines(kept[2..]);
    assert ([SplitBody(body)] + kept[2..])[1..] == kept[2..];
  }

  /** Otherwise the first two kept sections run into one, which keeps the first header. */
  lemma {:induction false} KeptMerges(kept: seq<Section>)
    requires Narrowed(kept) && kept != [] && Starts(LinesOf(kept[0])) == 0
    ensures var s := SectionsOf(AllLines(kept));
            && |s| == |kept| - 1
            && (|kept| > 1 ==> s[0].header == kept[0].header && s[1..] == kept[2..])
  {
    if |kept| == 1 {
      assert AllLines(kept) == LinesOf(kept[0]);
      SoleCounts(LinesOf(kept[0]));
    } else {
      var body := LinesOf(kept[0]) + LinesOf(kept[1]);
      var merged := [SplitBody(body)] + kept[2..];
      MergedBody(kept);
      MergedLines(kept);
      SplitBodyKeepsLines(body);
      assert kept[1..][1..] == kept[2..] && merged[1..] == kept[2..];
      assert AllLines(kept)[0..] == AllLines(kept);
      CutOfSections(AllLines(kept), 0, |LinesOf(kept[0])|, merged);
    }
  }

  // ----- Back to text -----

  /** Lines as `TagAll(SplitLines(..))` produces them. */
  predicate Printable(lines: seq<Line>) {
    && (forall i :: 0 <= i < |lines| ==> lines[i] == Tag(lines[i].text) && IsLine(lines[i].text))
    && (forall i :: 0 <= i < |lines| - 1 ==> MayFollow(lines[i].text, lines[i + 1].text))
  }

  lemma {:induction false} PrintableRoundTrip(lines: seq<Line>)
    requires Printable(lines)
    ensures TagAll(SplitLines(Join(TextsOf(lines)))) == lines
  {
    SplitJoin(TextsOf(lines));
  }

  lemma {:induction false} SplitIsPrintable(patch: string)
    ensures Printable(TagAll(SplitLines(patch)))
  {
    SplitIsLineList(patch);
  }

  /** Cutting lines out in front of a header leaves the rest printable. */
  lemma {:induction false} DropMiddle(x: seq<Line>, y: seq<Line>, z: seq<Line>)
    requires Printable(x + y + z)
    requires z == [] || z[0].kind == OldFile || z[0].kind == HunkHeader
    ensures Printable(x + z)
  {
    var all, out := x + y + z, x + z;
    assert forall i :: 0 <= i < |x| ==> all[i] == x[i];
    assert forall i :: 0 <= i < |z| ==> all[i + |x| + |y|] == z[i];
    if x != [] && z != [] {
      assert MayFollow(all[|x| - 1].text, all[|x|].text);
      assert z[0] == Tag(z[0].text) && z[0].text[0] != '\n';
      assert MayFollow(x[|x| - 1].text, z[0].text);
    }
    forall i | 0 <= i < |out| - 1 ensures MayFollow(out[i].text, out[i + 1].text) {
      if i >= |x| {
        assert MayFollow(all[i + |y|].text, all[i + |y| + 1].text);
      } else if i < |x| - 1 {
        assert MayFollow(all[i].text, all[i + 1].text);
      }
    }
  }

  lemma Regrouped(x: seq<Line>, y: seq<Line>, rest: seq<Line>, z: seq<Line>)
    ensures x + (y + rest) + z == x + y + (rest + z) == (x + y) + rest + z
  {
  }

  lemma {:induction false} KeptPrintable(
      x: seq<Line>, hunks: seq<seq<Line>>, z: seq<Line>, file: nat, hunk: nat, selected: set<HunkId>)
    requires forall i :: 0 <= i < |hunks| ==> WellFormedHunk(hunks[i])
    requires z == [] || z[0].kind == OldFile
    requires Printable(x + Flat(hunks) + z)
    ensures Printable(x + Flat(KeptHunks(hunks, file, hunk, selected)) + z)
    decreases |hunks|
  {
    if hunks != [] {
      var rest := Flat(hunks[1..]);
      var kept := KeptHunks(hunks[1..], file, hunk + 1, selected);
      assert rest != [] ==> rest[0] == hunks[1][0];
      Regrouped(x, hunks[0], rest, z);
      if HunkId(file, hunk) in selected {
        KeptPrintable(x + hunks[0], hunks[1..], z, file, hunk + 1, selected);
        assert ([hunks[0]] + kept)[1..] == kept;
        Regrouped(x, hunks[0], Flat(kept), z);
      } else {
        DropMiddle(x, hunks[0], rest + z);
        assert x + (rest + z) == x + rest + z;
        KeptPrintable(x, hunks[1..], z, file, hunk + 1, selected);
        assert [] + kept == kept;
      }
    }
  }

  lemma {:induction false} NarrowPrintable(x: seq<Line>, sections: seq<Section>, file: nat, selected: set<HunkId>)
    requires sections != [] ==> WellFormed(sections[0]) && AllOpen(sections[1..])
    requires Printable(x + AllLines(sections))
    ensures Printable(x + AllLines(Narrow(sections, file, selected)))
    decreases |sections|
  {
    if sections != [] {
      var header, hunks, rest := sections[0].header, sections[0].hunks, AllLines(sections[1..]);
      var kept := KeptHunks(hunks, file, 0, selected);
      TailOpens(sections[1..]);
      assert x + AllLines(sections) == x + LinesOf(sections[0]) + rest == (x + header) + Flat(hunks) + rest;
      if kept != [] {
        KeptPrintable(x + header, hunks, rest, file, 0, selected);
        assert (x + header) + Flat(kept) + rest == (x + (header + Flat(kept))) + rest;
        NarrowPrintable(x + (header + Flat(kept)), sections[1..], file + 1, selected);
      } else {
        DropMiddle(x, LinesOf(sections[0]), rest);
        NarrowPrintable(x, sections[1..], file + 1, selected);
      }
      NarrowFirst(x, sections, file, selected);
    }
  }

  lemma {:induction false} NarrowFirst(x: seq<Line>, sections: seq<Section>, file: nat, selected: set<HunkId>)
    requires sections != []
    ensures var kept := KeptHunks(sections[0].hunks, file, 0, selected);
            x + AllLines(Narrow(sections, file, selected)) ==
            (if kept == [] then x else x + (sections[0].header + Flat(kept))) +
            AllLines(Narrow(sections[1..], file + 1, selected))
  {
    var kept := KeptHunks(sections[0].hunks, file, 0, selected);
    var rest := Narrow(sections[1..], file + 1, selected);
    if kept != [] {
      assert ([Section(sections[0].header, kept)] + rest)[1..] == rest;
    } else {
      assert [] + rest == rest;
    }
  }

  lemma {:induction false} NarrowedPrintable(lines: seq<Line>, selected: set<HunkId>)
    requires Printable(lines)
    ensures Printable(AllLines(Narrow(SectionsOf(lines), 0, selected)))
  {
    var first := NextStart(lines, 0);
    if first < |lines| {
      CutShape(lines, 0, first);
      NarrowAllPrintable(lines, SectionsOf(lines), selected);
    }
  }

  lemma {:induction false} NarrowAllPrintable(lines: seq<Line>, sections: seq<Section>, selected: set<HunkId>)
    requires Printable(lines) && AllLines(sections) == lines[0..]
    requires sections != [] && WellFormed(sections[0]) && AllOpen(sections[1..])
    ensures Printable(AllLines(Narrow(sections, 0, selected)))
  {
    var out := AllLines(Narrow(sections, 0, selected));
    assert [] + AllLines(sections) == lines;
    NarrowPrintable([], sections, 0, selected);
    assert [] + out == out;
  }

  /** The text of a selection is read back as the very lines that were kept. */
  lemma {:induction false} SelectedLines(patch: string, selected: set<HunkId>)
    ensures TagAll(SplitLines(Selected(patch, selected))) == AllLines(Narrow(Sections(patch), 0, selected))
  {
    SplitIsPrintable(patch);
    NarrowedPrintable(TagAll(SplitLines(patch)), selected);
    PrintableRoundTrip(AllLines(Narrow(Sections(patch), 0, selected)));
  }

  // ----- Main results -----

  /** A narrowed patch parses back to exactly the kept hunks if and only if what is kept still opens with a pair. */
  lemma {:induction false} SelectionRoundTrip(patch: string, selected: set<HunkId>)
    ensures var kept := Narrow(Sections(patch), 0, selected);
            Sections(Selected(patch, selected)) == kept <==> StillOpens(kept)
  {
    var kept := Narrow(Sections(patch), 0, selected);
    SelectedLines(patch, selected);
    NarrowShape(TagAll(SplitLines(patch)), selected);
    if kept != [] {
      if Starts(LinesOf(kept[0])) == 0 {
        KeptMerges(kept);
      } else {
        KeptParses(kept);
      }
    }
  }

  predicate CleanPreamble(lines: seq<Line>, at: nat)
    requires at <= |lines|
  {
    forall i :: 0 <= i < at ==> lines[i].kind != HunkHeader
  }

  /** No hunk header stands before the first file header, or there is only one hunk to choose there. */
  predicate ReadsCleanly(lines: seq<Line>) {
    || CleanPreamble(lines, NextStart(lines, 0))
    || SectionsOf(lines) == []
    || |SectionsOf(lines)[0].hunks| <= 1
  }

  lemma {:induction false} CleanHeader(body: seq<Line>, at: nat)
    requires Sole(body, at)
    ensures Starts(SplitBody(body).header) > 0 <==> CleanPreamble(body, at)
  {
    var s := SplitBody(body);
    SplitBodyKeepsLines(body);
    NextStartConcat(s.header, Flat(s.hunks), 0);
    SoleCounts(s.header);
    assert forall i :: 0 <= i < |s.header| ==> s.header[i] == body[i];
    assert s.hunks != [] ==> body[|s.header|] == s.hunks[0][0];
    assert body[at].kind == OldFile && body[at + 1].kind == NewFile;
  }

  lemma {:induction false} FirstHeader(lines: seq<Line>)
    requires NextStart(lines, 0) < |lines|
    ensures Starts(SectionsOf(lines)[0].header) > 0 <==> CleanPreamble(lines, NextStart(lines, 0))
  {
    var first := NextStart(lines, 0);
    var body := lines[0..NextStart(lines, first + 1)];
    FirstBody(lines, 0, first);
    CleanHeader(body, first);
    assert forall i :: 0 <= i < first ==> body[i] == lines[i];
  }

  lemma {:induction false} CleanStillOpens(lines: seq<Line>, selected: set<HunkId>)
    requires ReadsCleanly(lines)
    ensures StillOpens(Narrow(SectionsOf(lines), 0, selected))
  {
    var first := NextStart(lines, 0);
    if first < |lines| {
      CutShape(lines, 0, first);
      FirstHeader(lines);
      SoleCounts(LinesOf(SectionsOf(lines)[0]));
      SectionStillOpens(SectionsOf(lines), selected);
    }
  }

  lemma {:induction false} SectionStillOpens(sections: seq<Section>, selected: set<HunkId>)
    requires sections != [] && WellFormed(sections[0]) && AllOpen(sections[1..])
    requires Starts(LinesOf(sections[0])) > 0
    requires Starts(sections[0].header) > 0 || |sections[0].hunks| <= 1
    ensures StillOpens(Narrow(sections, 0, selected))
  {
    var kept := KeptHunks(sections[0].hunks, 0, 0, selected);
    var rest := Narrow(sections[1..], 1, selected);
    NarrowedSection(sections[0], 0, selected);
    if kept == [] {
      assert [] + rest == rest;
      NarrowOpens(sections[1..], 1, selected);
      if rest != [] {
        OpensAtZero(rest[0]);
        SoleCounts(LinesOf(rest[0]));
      }
    } else {
      assert |sections[0].hunks| <= 1 ==> kept == sections[0].hunks;
    }
  }

  lemma {:induction false} OnlyHunk(hunks: seq<seq<Line>>, hunk: nat, k: nat)
    ensures KeptHunks(hunks, 0, hunk, {HunkId(0, k)}) == if hunk <= k < hunk + |hunks| then [hunks[k - hunk]] else []
  {
    if hunks != [] {
      OnlyHunk(hunks[1..], hunk + 1, k);
    }
  }

  /** When the pair lies among several hunks, one of the first two is without it. */
  lemma {:induction false} HunkWithoutStart(s: Section) returns (k: nat)
    requires WellFormed(s) && |s.hunks| > 1 && Starts(LinesOf(s)) <= 1
    ensures k < |s.hunks| && Starts(s.hunks[k]) == 0 && Detached(s.hunks[k])
  {
    var a, b := s.hunks[0], Flat(s.hunks[1..]);
    OnlyHunk(s.hunks[1..], 1, 1);
    KeptStarts(s.hunks[1..], 0, 1, {HunkId(0, 1)});
    assert Flat([s.hunks[1]]) == s.hunks[1];
    StartsOfConcat(s.header, a + b);
    StartsOfConcat(a, b);
    k := if Starts(a) == 0 then 0 else 1;
  }

  lemma {:induction false} OneHunkLosesStart(sections: seq<Section>, k: nat)
    requires sections != [] && Starts(sections[0].header) == 0 && k < |sections[0].hunks|
    requires Starts(sections[0].hunks[k]) == 0 && Detached(sections[0].hunks[k])
    ensures !StillOpens(Narrow(sections, 0, {HunkId(0, k)}))
  {
    var h := sections[0].hunks[k];
    OnlyHunk(sections[0].hunks, 0, k);
    assert Flat([h]) == h;
    StartsOfConcat(sections[0].header, h);
    var narrowed := Narrow(sections, 0, {HunkId(0, k)});
    assert narrowed[0] == Section(sections[0].header, [h]);
  }

  /** With two hunks behind an unclean preamble, some selection drops the pair. */
  lemma {:induction false} UncleanLosesStart(lines: seq<Line>) returns (selected: set<HunkId>)
    requires !ReadsCleanly(lines)
    ensures !StillOpens(Narrow(SectionsOf(lines), 0, selected))
  {
    var sections := SectionsOf(lines);
    CutShape(lines, 0, NextStart(lines, 0));
    FirstHeader(lines);
    SoleCounts(LinesOf(sections[0]));
    var k := HunkWithoutStart(sections[0]);
    selected := {HunkId(0, k)};
    OneHunkLosesStart(sections, k);
  }

  /** Every selection of a patch round-trips exactly when the patch reads cleanly. */
  lemma {:induction false} RoundTripsExactlyWhenClean(patch: string)
    ensures ReadsCleanly(TagAll(SplitLines(patch))) <==>
            forall selected: set<HunkId> :: Sections(Selected(patch, selected)) == Narrow(Sections(patch), 0, selected)
  {
    var lines := TagAll(SplitLines(patch));
    if ReadsCleanly(lines) {
      forall selected: set<HunkId>
        ensures Sections(Selected(patch, selected)) == Narrow(Sections(patch), 0, selected)
      {
        CleanStillOpens(lines, selected);
        SelectionRoundTrip(patch, selected);
      }
    } else {
      var selected := UncleanLosesStart(lines);
      SelectionRoundTrip(patch, selected);
    }
  }

  // ----- The names a chain of reviews can use -----

  predicate Within(names: seq<string>, allowed: seq<string>) {
    forall name | name in names :: name in allowed
  }

  lemma {:induction false} TargetsOfNarrow(sections: seq<Section>, file: nat, selected: set<HunkId>)
    ensures Within(Targets(Narrow(sections, file, selected)), Targets(sections))
  {
    if sections != [] {
      TargetsOfNarrow(sections[1..], file + 1, selected);
      var kept := KeptHunks(sections[0].hunks, file, 0, selected);
      var rest := Narrow(sections[1..], file + 1, selected);
      if kept != [] {
        assert ([Section(sections[0].header, kept)] + rest)[1..] == rest;
      } else {
        assert [] + rest == rest;
      }
    }
  }

  /** For every patch and every selection, nothing outside the approved patch's targets is named. */
  lemma {:induction false} SelectionNamesNoNewFile(patch: string, selected: set<HunkId>)
    ensures Within(Targets(Sections(Selected(patch, selected))), Targets(Sections(patch)))
  {
    var kept := Narrow(Sections(patch), 0, selected);
    SelectionRoundTrip(patch, selected);
    TargetsOfNarrow(Sections(patch), 0, selected);
    if !StillOpens(kept) {
      SelectedLines(patch, selected);
      NarrowShape(TagAll(SplitLines(patch)), selected);
      KeptMerges(kept);
      var read := Sections(Selected(patch, selected));
      if |kept| > 1 {
        assert kept[1..][1..] == kept[2..] && read == [read[0]] + kept[2..];
        assert Targets(kept[1..]) == Present(TargetOf(kept[1].header)) + Targets(kept[2..]);
      }
    }
  }

  datatype ReplacementRefusal = PatchEmpty | Unreadable | WidensTargets | Unchanged

  /** The checks `replace_approval_with_edit` makes of the reviewer's own patch, in its order. */
  function CheckReplacement(original: string, edited: string): Option<ReplacementRefusal> {
    var before, after := Targets(Sections(original)), Targets(Sections(edited));
    if Strip(edited) == "" then Some(PatchEmpty)
    else if after == [] then Some(Unreadable)
    else if !Within(after, before) then Some(WidensTargets)
    else if edited == original then Some(Unchanged)
    else None
  }

  /**
   * An edit is accepted exactly when it is another patch that names a file, and only files the original names; each
   * refusal is for the first of these that fails.
   */
  lemma {:induction false} ReplacementExactly(original: string, edited: string)
    ensures var refusal := CheckReplacement(original, edited);
            var before, after := Targets(Sections(original)), Targets(Sections(edited));
            var stays := forall name :: name in after ==> name in before;
            && (refusal == Some(PatchEmpty) <==> AllBlank(edited, IsSpace))
            && (refusal == Some(Unreadable) <==> !AllBlank(edited, IsSpace) && after == [])
            && (refusal == Some(WidensTargets) <==> !AllBlank(edited, IsSpace) && !stays)
            && (refusal == None <==> !AllBlank(edited, IsSpace) && after != [] && stays && edited != original)
  {
    var i, j := StripWhere(edited, IsSpace);
    if AllBlank(edited, IsSpace) {
      assert edited == edited + "" + "";
      Stripped(edited, "", "", IsSpace);
    }
  }

  /** An accepted edit of a patch, or a selection of its hunks. */
  ghost predicate ReviewStep(before: string, after: string) {
    || CheckReplacement(before, after) == None
    || exists selected :: after == Selected(before, selected)
  }

  ghost predicate ReviewChain(chain: seq<string>) {
    forall i :: 0 <= i < |chain| - 1 ==> ReviewStep(chain[i], chain[i + 1])
  }

  /** However often a proposal is edited and narrowed, it names no file the first one did not. */
  lemma {:induction false} ReviewsNameNoNewFile(chain: seq<string>)
    requires chain != [] && ReviewChain(chain)
    ensures Within(Targets(Sections(chain[|chain| - 1])), Targets(Sections(chain[0])))
  {
    if |chain| > 1 {
      var front := chain[..|chain| - 1];
      var before, after := chain[|chain| - 2], chain[|chain| - 1];
      ReviewsNameNoNewFile(front);
      assert ReviewStep(chain[|chain| - 2], chain[|chain| - 2 + 1]);
      if CheckReplacement(before, after) != None {
        var selected :| after == Selected(before, selected);
        SelectionNamesNoNewFile(before, selected);
      }
    }
  }
}
