/** When an accepted edit of a proposed patch can change no file the proposal would not. */
module PatchEdits {
  import opened Options
  import opened Texts
  import opened TextLines
  import opened PatchSelection
  import opened PatchReview
  import opened PatchNames
  import opened PatchReach
  import opened PatchMeanings
  import opened PatchBuilding
  import opened Matching

  /** An edit whose names pin every file it reaches stays inside every proposal it is accepted for. */
  lemma {:induction false} ToldEditStaysInside(proposal: string, edit: string)
    requires Appliable(Lines(proposal)) && CheckReplacement(proposal, edit) == None && Told(edit)
    ensures Stays(edit, proposal)
  {
    NamesWithin(edit, proposal);
    ToldStaysInside(edit, proposal);
  }

  // ----- A proposal that accepts an edit whose names leave a choice -----

  lemma {:induction false} AimAll(names: set<string>, choice: map<string, string>, file: string)
    returns (aims: map<string, string>)
    requires Fits(Meanings(names), choice) && file !in choice.Values
    requires forall name :: name in names ==> name != "" && Carried(name)
    ensures Feasible(aims) && aims.Keys == names && file !in aims.Values
  {
    var free := AimFree((set name | name in names && Free(name)), choice.Values + {file});
    aims := choice + free;
    DistinctTogether(choice, free);
    forall name | name in aims ensures name != "" && Carried(name) && CanMean(name, aims[name]) {
      assert name in names;
    }
  }

  /** A file for each name of the edit, and not this one. */
  lemma {:induction false} AimElsewhere(edit: string, file: string) returns (aims: map<string, string>)
    requires Appliable(Lines(edit)) && !Pinned(Meanings(NamesOf(edit)), file)
    ensures Feasible(aims) && aims.Keys == NamesOf(edit) && file !in aims.Values
  {
    var names := NamesOf(edit);
    PatchCarries(edit, names);
    ChoiceFits(Lines(edit), names);
    var choice := UnpinnedCanBeAvoided(Meanings(names), ChoiceOf(Lines(edit), names), file);
    forall name | name in names ensures name != "" && Carried(name) {
      NamesCanBeCarried(edit, name);
    }
    aims := AimAll(names, choice, file);
  }

  /** Some proposal the applier would take accepts the edit, and does not reach the file. */
  lemma {:induction false} UntoldEditEscapes(edit: string, file: string, hunk: seq<Line>) returns (proposal: string)
    requires Appliable(Lines(edit)) && Reaches(Lines(edit), file) && IsHunk(hunk)
    requires !Pinned(Meanings(NamesOf(edit)), file)
    ensures Appliable(Lines(proposal)) && CheckReplacement(proposal, edit) == None && !Reaches(Lines(proposal), file)
  {
    var aims := AimElsewhere(edit, file);
    NamesAreOfPairs(Lines(edit), PathOf(Lines(edit)[1].text));
    assert PathOf(Lines(edit)[1].text) in NamesOf(edit);
    proposal := BuildPatch(aims, hunk);
    PatchIsNotBlank(edit);
    assert Within(Targets(Sections(edit)), Targets(Sections(proposal))) by {
      assert forall name :: name in Targets(Sections(edit)) ==> name in NamesOf(edit) && name in NamesOf(proposal);
    }
  }

  lemma {:induction false} LeftByUntold(edit: string) returns (proposal: string)
    requires Appliable(Lines(edit)) && !Told(edit)
    ensures Appliable(Lines(proposal)) && CheckReplacement(proposal, edit) == None && !Stays(edit, proposal)
  {
    var file :| Reaches(Lines(edit), file) && !Pinned(Meanings(NamesOf(edit)), file);
    var hunk := AHunk();
    proposal := UntoldEditEscapes(edit, file, hunk);
  }

  // ----- Main results -----

  /**
   * An edit the applier would take stays, for every proposal that accepts it and that the applier would take, inside
   * the files the proposal reaches, if and only if the names on its `+++` lines pin every file it reaches.
   */
  lemma {:induction false} EditStaysInsideExactly(edit: string)
    requires Appliable(Lines(edit))
    ensures (forall proposal :: Appliable(Lines(proposal)) && CheckReplacement(proposal, edit) == None ==>
               Stays(edit, proposal)) <==>
            Told(edit)
  {
    if Told(edit) {
      forall proposal | Appliable(Lines(proposal)) && CheckReplacement(proposal, edit) == None
        ensures Stays(edit, proposal)
      {
        ToldEditStaysInside(proposal, edit);
      }
    } else {
      var proposal := LeftByUntold(edit);
    }
  }

  ghost predicate IsSelection(before: string, after: string) {
    exists selected :: after == Selected(before, selected)
  }

  /** From here on the chain only narrows. */
  ghost predicate NarrowsFrom(chain: seq<string>, from: nat) {
    forall i :: from <= i < |chain| - 1 ==> IsSelection(chain[i], chain[i + 1])
  }

  lemma {:induction false} NarrowingStays(chain: seq<string>, from: nat)
    requires from < |chain| && NarrowsFrom(chain, from)
    ensures Stays(chain[|chain| - 1], chain[from])
    decreases |chain| - from
  {
    if from + 1 < |chain| {
      NarrowingStays(chain, from + 1);
      assert IsSelection(chain[from], chain[from + 1]);
      var selected :| chain[from + 1] == Selected(chain[from], selected);
      SelectionReachesNoNewFile(chain[from], selected);
    }
  }

  /**
   * However often a proposal is narrowed and edited, and whatever the edits in between: if the applier would take the
   * first proposal and the names on the last edit pin its files, no file is reached that the first one did not reach.
   */
  lemma {:induction false} ReviewsReachNoNewFile(chain: seq<string>, lastEdit: nat)
    requires lastEdit < |chain| && ReviewChain(chain) && NarrowsFrom(chain, lastEdit)
    requires lastEdit == 0 || (Appliable(Lines(chain[0])) && Told(chain[lastEdit]))
    ensures Stays(chain[|chain| - 1], chain[0])
  {
    NarrowingStays(chain, lastEdit);
    if lastEdit > 0 {
      ReviewsNameNoNewFile(chain[..lastEdit + 1]);
      NamesWithin(chain[lastEdit], chain[0]);
      ToldStaysInside(chain[lastEdit], chain[0]);
    }
  }

  /** A review that began with this proposal and ends with this edit. */
  ghost predicate EndsInEdit(chain: seq<string>, edit: string) {
    |chain| > 1 && ReviewChain(chain) && chain[|chain| - 1] == edit &&
    CheckReplacement(chain[|chain| - 2], edit) == None
  }

  lemma {:induction false} ToldReviewStays(chain: seq<string>, edit: string)
    requires EndsInEdit(chain, edit) && Appliable(Lines(chain[0])) && Told(edit)
    ensures Stays(edit, chain[0])
  {
    ReviewsReachNoNewFile(chain, |chain| - 1);
  }

  lemma ShortReview(proposal: string, edit: string)
    requires CheckReplacement(proposal, edit) == None
    ensures EndsInEdit([proposal, edit], edit)
  {
  }

  /** The same exact condition for whole reviews: nothing is asked of the patches between the first and the last. */
  lemma {:induction false} ReviewStaysInsideExactly(edit: string)
    requires Appliable(Lines(edit))
    ensures (forall chain :: EndsInEdit(chain, edit) && Appliable(Lines(chain[0])) ==> Stays(edit, chain[0])) <==>
            Told(edit)
  {
    if Told(edit) {
      forall chain | EndsInEdit(chain, edit) && Appliable(Lines(chain[0])) ensures Stays(edit, chain[0]) {
        ToldReviewStays(chain, edit);
      }
    } else {
      var proposal := LeftByUntold(edit);
      ShortReview(proposal, edit);
    }
  }

  // ----- Two accepted edits that reach another file -----

  lemma {:induction false} PlainPath(raw: string)
    requires Written(raw) && '\\' !in raw
    ensures Normalized(raw + "\n") == Unprefixed(raw)
  {
    CarriedBack(raw);
    assert Slashed(raw) == raw;
  }

  /** A patch of one section with this hunk. */
  function OneSection(sp: Spelling, hunk: seq<Line>): string { Join(TextsOf(Headers(sp) + hunk)) }

  lemma {:induction false} OneSectionReads(sp: Spelling, hunk: seq<Line>)
    requires Written(sp.was) && Written(sp.now) && IsHunk(hunk)
    ensures var patch, change := OneSection(sp, hunk), FileOf(Normalized(sp.was + "\n"), Normalized(sp.now + "\n"));
            && StartsSection(Lines(patch), 0) && (change.Some? ==> Appliable(Lines(patch)))
            && (forall file :: Reaches(Lines(patch), file) <==> change == Some(file))
            && (forall name :: name in Targets(Sections(patch)) <==> name == PathOf("+++ " + sp.now + "\n"))
  {
    var head := Headers(sp);
    var lines := head + hunk + [];
    HeaderLine("--- ", sp.was);
    HeaderLine("+++ ", sp.now);
    assert lines == head + hunk;
    OneSectionLines(sp, hunk);
    assert Lines(OneSection(sp, hunk)) == lines && lines[0] == head[0] && lines[1] == head[1];
    forall i: nat ensures StartsSection(lines, i) <==> i == 0 {
      BuiltStart(head, hunk, [], i);
    }
    forall name ensures name in Targets(SectionsOf(lines)) <==> name == PathOf("+++ " + sp.now + "\n") {
      NamesAreOfPairs(lines, name);
    }
    assert ChangedAt(lines, 0) == FileOf(Normalized(sp.was + "\n"), Normalized(sp.now + "\n"));
  }

  /** An edit of one section that carries the proposal's name is accepted, and reaches its own file only. */
  lemma {:induction false} SameNameOtherFile(
      proposal: Spelling, edit: Spelling, hunk: seq<Line>, before: string, after: string)
    requires Written(proposal.was) && Written(proposal.now) && Written(edit.was) && Written(edit.now) && IsHunk(hunk)
    requires PathOf("+++ " + edit.now + "\n") == PathOf("+++ " + proposal.now + "\n")
    requires FileOf(Normalized(proposal.was + "\n"), Normalized(proposal.now + "\n")) == Some(before)
    requires FileOf(Normalized(edit.was + "\n"), Normalized(edit.now + "\n")) == Some(after) && before != after
    ensures CheckReplacement(OneSection(proposal, hunk), OneSection(edit, hunk)) == None
    ensures Appliable(Lines(OneSection(proposal, hunk))) && Appliable(Lines(OneSection(edit, hunk)))
    ensures Reaches(Lines(OneSection(edit, hunk)), after) && !Reaches(Lines(OneSection(proposal, hunk)), after)
  {
    OneSectionReads(proposal, hunk);
    OneSectionReads(edit, hunk);
    PatchIsNotBlank(OneSection(edit, hunk));
    assert PathOf("+++ " + edit.now + "\n") in Targets(Sections(OneSection(edit, hunk)));
  }

  /** A path such as a file of the workspace has. */
  predicate Plain(f: string) { Written(f) && '\\' !in f && f != DEV_NULL }

  lemma {:induction false} Behind(prefix: string, f: string)
    requires Plain(f) && (prefix == "a/" || prefix == "b/")
    ensures Written(prefix + f) && '\\' !in prefix + f && Normalized(prefix + f + "\n") == f && (prefix + f)[2..] == f
    ensures StartsWith(prefix + f, "b/") <==> prefix == "b/"
  {
    var raw := prefix + f;
    assert raw[..2] == prefix && raw[2..] == f;
    assert raw[|raw| - 1] == f[|f| - 1];
    PlainPath(raw);
  }

  lemma NullPath(none: string)
    requires none == DEV_NULL
    ensures Written(none) && Normalized(none + "\n") == none
  {
    PlainPath(none);
  }

  function Usual(f: string): Spelling { Spelling("a/" + f, "b/" + f) }

  lemma {:induction false} UsualHeaders(f: string, hunk: seq<Line>)
    requires Plain(f) && IsHunk(hunk)
    ensures var patch := OneSection(Usual(f), hunk);
            && Lines(patch) == Headers(Usual(f)) + hunk && Appliable(Lines(patch))
            && (forall file :: Reaches(Lines(patch), file) <==> file == f)
            && (forall name :: name in Targets(Sections(patch)) <==> name == f)
  {
    Behind("a/", f);
    Behind("b/", f);
    CarriedName("b/" + f);
    OneSectionReads(Usual(f), hunk);
    OneSectionLines(Usual(f), hunk);
  }

  function Creating(f: string): Spelling { Spelling(DEV_NULL, "b/" + f) }

  function Deleting(f: string): Spelling { Spelling("a/" + f, DEV_NULL) }

  /** One file of the workspace and no other is what such a patch changes, and the applier takes it. */
  ghost predicate ChangesOnly(sp: Spelling, hunk: seq<Line>, f: string) {
    var lines := Lines(OneSection(sp, hunk));
    Appliable(lines) && forall file :: Reaches(lines, file) <==> file == f
  }

  /** The usual headers create, change or delete their own file; a section that would rename one is refused. */
  lemma {:induction false} UsualHeadersReach(f: string, g: string, hunk: seq<Line>)
    requires Plain(f) && Plain(g) && f != g && IsHunk(hunk)
    ensures ChangesOnly(Usual(f), hunk, f) && ChangesOnly(Creating(f), hunk, f) && ChangesOnly(Deleting(f), hunk, f)
    ensures !Appliable(Lines(OneSection(Spelling("a/" + f, "b/" + g), hunk)))
  {
    Behind("a/", f);
    Behind("b/", f);
    Behind("b/", g);
    NullPath(DEV_NULL);
    OneSectionReads(Usual(f), hunk);
    OneSectionReads(Creating(f), hunk);
    OneSectionReads(Deleting(f), hunk);
    RenameIsRefused(Spelling("a/" + f, "b/" + g), hunk);
  }

  lemma RenameIsRefused(sp: Spelling, hunk: seq<Line>)
    requires Written(sp.was) && Written(sp.now) && IsHunk(hunk)
    requires FileOf(Normalized(sp.was + "\n"), Normalized(sp.now + "\n")) == None
    ensures !Appliable(Lines(OneSection(sp, hunk)))
  {
    OneSectionReads(sp, hunk);
    var lines := Lines(OneSection(sp, hunk));
    if ChangedAt(lines, 0).Some? { assert Reaches(lines, ChangedAt(lines, 0).value); }
  }

  lemma AloneIsPinned(options: map<string, set<string>>, name: string, file: string)
    requires name in options && options[name] == {file}
    ensures Pinned(options, file)
  {
    assert Means(options, {name}) == {file};
  }

  lemma {:induction false} UsualIsTold(f: string, hunk: seq<Line>)
    requires Plain(f) && !StartsWith(f, "a/") && IsHunk(hunk)
    ensures Told(OneSection(Usual(f), hunk))
  {
    var patch := OneSection(Usual(f), hunk);
    UsualHeaders(f, hunk);
    assert Slashed(f) == f && MayWrite(f) == {f};
    assert NamesOf(patch) == {f};
    AloneIsPinned(Meanings({f}), f, f);
  }

  /** The usual headers of a file outside a folder `a` pin it: an edit of its hunks is accepted, and stays inside. */
  lemma {:induction false} OrdinaryEditIsTold(f: string, hunk: seq<Line>, edited: seq<Line>)
    requires Plain(f) && !StartsWith(f, "a/") && IsHunk(hunk) && IsHunk(edited) && hunk != edited
    ensures var proposal, edit := OneSection(Usual(f), hunk), OneSection(Usual(f), edited);
            && Appliable(Lines(proposal)) && Appliable(Lines(edit)) && CheckReplacement(proposal, edit) == None
            && Told(edit) && Stays(edit, proposal)
  {
    var proposal, edit := OneSection(Usual(f), hunk), OneSection(Usual(f), edited);
    UsualHeaders(f, hunk);
    UsualHeaders(f, edited);
    UsualIsTold(f, edited);
    PatchIsNotBlank(edit);
    assert f in Targets(Sections(edit));
    assert (Headers(Usual(f)) + hunk)[2..] == hunk && (Headers(Usual(f)) + edited)[2..] == edited;
    assert proposal != edit;
    ToldEditStaysInside(proposal, edit);
  }

  lemma MeansOfPair(f: string)
    requires Plain(f) && Unprefixed(f) == f
    ensures MayWrite("a/" + f) == {"a/" + f, f} && MayWrite(f) == {f} && f != "a/" + f
    ensures !Free(f) && !Free("a/" + f)
  {
    var inside := "a/" + f;
    Behind("a/", f);
    StripFixed(inside);
    assert inside[0] == 'a' && inside[..2] == "a/";
    assert Slashed(f) == f && Slashed(inside) == inside;
    assert DEV_NULL[0] == '/';
  }

  /** The name of a file in a folder `a` leaves a choice, but not beside the name of the file it could be taken for. */
  lemma {:induction false} NeighbourPins(f: string)
    requires Plain(f) && Unprefixed(f) == f
    ensures !Pinned(Meanings({"a/" + f}), "a/" + f) && Pinned(Meanings({f, "a/" + f}), "a/" + f)
  {
    var inside := "a/" + f;
    MeansOfPair(f);
    var alone, both := Meanings({inside}), Meanings({f, inside});
    forall part | part <= alone.Keys && inside in Means(alone, part) ensures |Means(alone, part)| > |part| {
      assert part == {inside} && Means(alone, part) == {inside, f};
    }
    assert Means(both, {f, inside}) == {inside, f};
  }

  lemma OneSectionLines(sp: Spelling, hunk: seq<Line>)
    requires Written(sp.was) && Written(sp.now) && IsHunk(hunk)
    ensures Lines(OneSection(sp, hunk)) == Headers(sp) + hunk
  {
    HeaderLine("--- ", sp.was);
    HeaderLine("+++ ", sp.now);
    ReadsBack(Headers(sp) + hunk);
  }

  /**
   * For any two files, a proposal that deletes the one accepts an edit that deletes the other: both are named
   * `/dev/null`.
   */
  lemma {:induction false} DeletionOfAnotherFile(x: string, y: string, none: string, hunk: seq<Line>)
    requires Plain(x) && Plain(y) && x != y && none == DEV_NULL && IsHunk(hunk)
    ensures var proposal := OneSection(Spelling("a/" + x, none), hunk);
            var edit := OneSection(Spelling("a/" + y, none), hunk);
            && CheckReplacement(proposal, edit) == None && Appliable(Lines(proposal)) && Appliable(Lines(edit))
            && Reaches(Lines(edit), y) && !Reaches(Lines(proposal), y)
  {
    Behind("a/", x);
    Behind("a/", y);
    NullPath(none);
    SameNameOtherFile(Spelling("a/" + x, none), Spelling("a/" + y, none), hunk, x, y);
  }

  /** For any file, a proposal for its namesake in a folder `a` accepts an edit that writes the file itself. */
  lemma {:induction false} FolderNamedA(f: string, hunk: seq<Line>)
    requires Plain(f) && IsHunk(hunk)
    ensures var proposal := OneSection(Spelling("a/" + ("a/" + f), "b/" + ("a/" + f)), hunk);
            var edit := OneSection(Spelling("a/" + f, "a/" + f), hunk);
            && CheckReplacement(proposal, edit) == None && Appliable(Lines(proposal)) && Appliable(Lines(edit))
            && Reaches(Lines(edit), f) && !Reaches(Lines(proposal), f)
  {
    var inside := "a/" + f;
    Behind("a/", f);
    assert inside[0] == 'a' && DEV_NULL[0] == '/';
    Behind("a/", inside);
    Behind("b/", inside);
    CarriedName("b/" + inside);
    CarriedName(inside);
    SameNameOtherFile(Spelling("a/" + inside, "b/" + inside), Spelling(inside, inside), hunk, inside, f);
  }
}
