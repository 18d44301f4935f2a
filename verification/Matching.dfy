/** Giving each of several names a file of its own, out of those it may mean. */
module Matching {

  /** Everything the members of `part` may mean. */
  ghost function Means<A, B>(options: map<A, set<B>>, part: set<A>): set<B>
    requires part <= options.Keys
  {
    set x, y | x in part && y in options[x] :: y
  }

  ghost predicate Distinct<A, B>(choice: map<A, B>) {
    forall x, y :: x in choice && y in choice && x != y ==> choice[x] != choice[y]
  }

  /** A different meaning for each, out of its own. */
  ghost predicate Fits<A, B>(options: map<A, set<B>>, choice: map<A, B>) {
    choice.Keys == options.Keys && (forall x :: x in choice ==> choice[x] in options[x]) && Distinct(choice)
  }

  /** Some of the names have no more meanings among them than they are, and this is one of those meanings. */
  ghost predicate Pinned<A, B>(options: map<A, set<B>>, y: B) {
    exists part :: part <= options.Keys && |Means(options, part)| <= |part| && y in Means(options, part)
  }

  // ----- A pinned meaning is always taken -----

  lemma {:induction false} AsManyValues<A, B>(choice: map<A, B>, part: set<A>)
    requires Distinct(choice) && part <= choice.Keys
    ensures |set x | x in part :: choice[x]| == |part|
  {
    if part != {} {
      var x :| x in part;
      AsManyValues(choice, part - {x});
      assert (set z | z in part :: choice[z]) == (set z | z in part - {x} :: choice[z]) + {choice[x]};
    }
  }

  lemma {:induction false} SubsetSize<T>(a: set<T>, b: set<T>)
    requires a <= b
    ensures |a| <= |b| && (|a| == |b| ==> a == b)
  {
    if a != {} {
      var x :| x in a;
      SubsetSize(a - {x}, b - {x});
    }
  }

  lemma {:induction false} PinnedIsTaken<A, B>(options: map<A, set<B>>, choice: map<A, B>, y: B) returns (x: A)
    requires Fits(options, choice) && Pinned(options, y)
    ensures x in choice && choice[x] == y
  {
    var part :| part <= options.Keys && |Means(options, part)| <= |part| && y in Means(options, part);
    var taken := set x | x in part :: choice[x];
    AsManyValues(choice, part);
    SubsetSize(taken, Means(options, part));
    x :| x in part && choice[x] == y;
  }

  // ----- Any other can be avoided -----

  /** Any of the names have at least as many meanings among them as they are. */
  ghost predicate Ample<A, B>(options: map<A, set<B>>) {
    forall part :: part <= options.Keys ==> |part| <= |Means(options, part)|
  }

  lemma {:induction false} FittingIsAmple<A, B>(options: map<A, set<B>>, choice: map<A, B>)
    requires Fits(options, choice)
    ensures Ample(options)
  {
    forall part | part <= options.Keys ensures |part| <= |Means(options, part)| {
      AsManyValues(choice, part);
      SubsetSize(set x | x in part :: choice[x], Means(options, part));
    }
  }

  /** What is left for the others once these have taken all they may mean. */
  ghost function Without<A, B>(options: map<A, set<B>>, part: set<A>, taken: set<B>): map<A, set<B>> {
    map x | x in options.Keys - part :: options[x] - taken
  }

  lemma MeansWithout<A, B>(options: map<A, set<B>>, part: set<A>, taken: set<B>, others: set<A>)
    requires others <= options.Keys - part
    ensures Means(Without(options, part, taken), others) == Means(options, others) - taken
  {
    var rest := Without(options, part, taken);
    forall y | y in Means(options, others) - taken ensures y in Means(rest, others) {
      var x :| x in others && y in options[x];
      assert y in rest[x];
    }
  }

  lemma {:induction false} RestIsAmple<A, B>(options: map<A, set<B>>, part: set<A>)
    requires Ample(options) && part <= options.Keys && |Means(options, part)| == |part|
    ensures Ample(Without(options, part, Means(options, part)))
  {
    var taken := Means(options, part);
    var rest := Without(options, part, taken);
    forall others | others <= rest.Keys ensures |others| <= |Means(rest, others)| {
      MeansWithout(options, part, taken, others);
      assert Means(options, part + others) == taken + Means(options, others) == taken + Means(rest, others);
      assert |part + others| == |part| + |others|;
      assert |taken + Means(rest, others)| == |taken| + |Means(rest, others)|;
    }
  }

  lemma {:induction false} OneTakenIsAmple<A, B>(options: map<A, set<B>>, x: A, y: B)
    requires Ample(options) && x in options
    requires forall part :: {} < part < options.Keys ==> |Means(options, part)| != |part|
    ensures Ample(Without(options, {x}, {y}))
  {
    var rest := Without(options, {x}, {y});
    forall others | others <= rest.Keys ensures |others| <= |Means(rest, others)| {
      MeansWithout(options, {x}, {y}, others);
      if others != {} {
        assert x !in others && x in options.Keys;
      }
    }
  }

  lemma PartIsAmple<A, B>(options: map<A, set<B>>, part: set<A>)
    requires Ample(options) && part <= options.Keys
    ensures Ample(map x | x in part :: options[x])
  {
    var inner := map x | x in part :: options[x];
    forall some | some <= inner.Keys ensures |some| <= |Means(inner, some)| {
      assert Means(inner, some) == Means(options, some);
    }
  }

  lemma DistinctTogether<A, B>(first: map<A, B>, second: map<A, B>)
    requires Distinct(first) && Distinct(second) && first.Keys !! second.Keys && first.Values !! second.Values
    ensures Distinct(first + second)
  {
    var both := first + second;
    forall x, y | x in both && y in both && x != y ensures both[x] != both[y] {
      assert x in first ==> first[x] in first.Values;
      assert y in first ==> first[y] in first.Values;
      assert x in second ==> second[x] in second.Values;
      assert y in second ==> second[y] in second.Values;
    }
  }

  /** Hall's theorem: if any of the names have as many meanings among them as they are, each can have its own. */
  lemma {:induction false} AmpleFits<A, B>(options: map<A, set<B>>) returns (choice: map<A, B>)
    requires Ample(options)
    ensures Fits(options, choice)
    decreases |options.Keys|
  {
    if options.Keys == {} {
      choice := map[];
    } else if part :| {} < part < options.Keys && |Means(options, part)| == |part| {
      choice := SplitFits(options, part);
    } else {
      var x :| x in options.Keys;
      choice := OneThenRest(options, x);
    }
  }

  lemma {:induction false} SplitFits<A, B>(options: map<A, set<B>>, part: set<A>) returns (choice: map<A, B>)
    requires Ample(options) && {} < part < options.Keys && |Means(options, part)| == |part|
    ensures Fits(options, choice)
    decreases |options.Keys|, 0
  {
    var inner := map x | x in part :: options[x];
    var rest := Without(options, part, Means(options, part));
    PartIsAmple(options, part);
    RestIsAmple(options, part);
    assert inner.Keys == part && rest.Keys == options.Keys - part;
    SubsetSize(part, options.Keys);
    SubsetSize(rest.Keys, options.Keys);
    var first := AmpleFits(inner);
    var second := AmpleFits(rest);
    choice := first + second;
  }

  lemma {:induction false} OneThenRest<A, B>(options: map<A, set<B>>, x: A) returns (choice: map<A, B>)
    requires Ample(options) && x in options
    requires forall part :: {} < part < options.Keys ==> |Means(options, part)| != |part|
    ensures Fits(options, choice)
    decreases |options.Keys|, 0
  {
    assert |{x}| <= |Means(options, {x})|;
    var y :| y in Means(options, {x});
    OneTakenIsAmple(options, x, y);
    var others := Without(options, {x}, {y});
    assert others.Keys == options.Keys - {x};
    var rest := AmpleFits(others);
    choice := rest[x := y];
  }

  lemma {:induction false} OthersAreAmple<A, B>(options: map<A, set<B>>, y: B)
    requires Ample(options) && !Pinned(options, y)
    ensures Ample(Without(options, {}, {y}))
  {
    var rest := Without(options, {}, {y});
    forall part | part <= rest.Keys ensures |part| <= |Means(rest, part)| {
      MeansWithout(options, {}, {y}, part);
      assert |part| <= |Means(options, part)|;
    }
  }

  lemma {:induction false} UnpinnedCanBeAvoided<A, B>(options: map<A, set<B>>, some: map<A, B>, y: B)
    returns (choice: map<A, B>)
    requires Fits(options, some) && !Pinned(options, y)
    ensures Fits(options, choice) && y !in choice.Values
  {
    FittingIsAmple(options, some);
    OthersAreAmple(options, y);
    choice := AmpleFits(Without(options, {}, {y}));
  }

  /** If the names can have a meaning each at all, one is taken however they do if and only if it is pinned. */
  lemma {:induction false} TakenExactlyWhenPinned<A, B>(options: map<A, set<B>>, some: map<A, B>, y: B)
    requires Fits(options, some)
    ensures (forall choice :: Fits(options, choice) ==> y in choice.Values) <==> Pinned(options, y)
  {
    if Pinned(options, y) {
      forall choice | Fits(options, choice) ensures y in choice.Values {
        var x := PinnedIsTaken(options, choice, y);
      }
    } else {
      var choice := UnpinnedCanBeAvoided(options, some, y);
    }
  }
}
