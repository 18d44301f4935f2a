/** Which view types a generated API contract may describe by their declared fields. */
module TypeContract {
  import opened Reachability

  /** A type expression: a class, or a generic applied to arguments. */
  datatype Annotation = Named(cls: string) | Applied(args: seq<Annotation>)

  datatype Class =
    | TypedDict(hints: seq<Annotation>)
    | ViewClass(ownToDict: bool, hints: seq<Annotation>)
    | OtherDataclass(hints: seq<Annotation>)
    | PlainClass(hasToDict: bool)
  {
    predicate Structured() { !PlainClass? }

    /** Its JSON is exactly its declared fields. */
    predicate Wire() { TypedDict? || (ViewClass? && !ownToDict) }
  }

  type Table = map<string, Class>

  function ClassOf(table: Table, cls: string): Class {
    if cls in table then table[cls] else PlainClass(false)
  }

  function Hints(table: Table, cls: string): seq<Annotation> {
    var c := ClassOf(table, cls);
    if c.PlainClass? then [] else c.hints
  }

  /** What an annotation leads to: its arguments, or the field types of the class it names. */
  function Next(table: Table): Annotation -> seq<Annotation> {
    (a: Annotation) => if a.Applied? then a.args else Hints(table, a.cls)
  }

  /** Not a class whose JSON differs from its fields. */
  predicate Acceptable(table: Table, a: Annotation) {
    a.Applied? || ClassOf(table, a.cls).Wire() || ClassOf(table, a.cls) == PlainClass(false)
  }

  /** Nothing reachable from `a` breaks the contract. */
  ghost predicate Sound(table: Table, a: Annotation) {
    forall b :: Reaches(Next(table), a, b) ==> Acceptable(table, b)
  }

  // ----- What breaks the contract -----

  /** A class whose JSON is not what its fields say: code of its own makes it, or nothing is known of it. */
  predicate SpeaksForItself(table: Table, cls: string) {
    cls in table &&
    match table[cls]
    case TypedDict(_) => false
    case ViewClass(ownToDict, _) => ownToDict
    case OtherDataclass(_) => true
    case PlainClass(hasToDict) => hasToDict
  }

  /** `b` is an argument of `a`, or the type of a field that `a` declares; a plain class declares none. */
  predicate Mentions(table: Table, a: Annotation, b: Annotation) {
    match a
    case Applied(args) => b in args
    case Named(cls) => cls in table && !table[cls].PlainClass? && b in table[cls].hints
  }

  /** Each mentions the next, down from the view to a class that speaks for itself. */
  ghost predicate LeadsAstray(table: Table, view: Annotation, chain: seq<Annotation>) {
    && chain != [] && chain[0] == view
    && (forall i :: 0 < i < |chain| ==> Mentions(table, chain[i - 1], chain[i]))
    && chain[|chain| - 1].Named? && SpeaksForItself(table, chain[|chain| - 1].cls)
  }

  lemma NextExactly(table: Table, a: Annotation, b: Annotation)
    ensures b in Next(table)(a) <==> Mentions(table, a, b)
  {
  }

  lemma AcceptableExactly(table: Table, a: Annotation)
    ensures Acceptable(table, a) <==> a.Applied? || !SpeaksForItself(table, a.cls)
  {
  }

  /** A view is sound exactly when nothing it mentions, at any remove, speaks for itself. */
  lemma {:induction false} SoundExactly(table: Table, view: Annotation)
    ensures Sound(table, view) <==> !exists chain :: LeadsAstray(table, view, chain)
  {
    if !Sound(table, view) {
      var bad :| Reaches(Next(table), view, bad) && !Acceptable(table, bad);
      var path :| Leads(Next(table), path, view, bad);
      AcceptableExactly(table, bad);
      forall i | 0 < i < |path| ensures Mentions(table, path[i - 1], path[i]) {
        assert path[i - 1 + 1] in Next(table)(path[i - 1]);
        NextExactly(table, path[i - 1], path[i]);
      }
      assert LeadsAstray(table, view, path);
    }
    if chain :| LeadsAstray(table, view, chain) {
      forall i | 0 <= i < |chain| - 1 ensures chain[i + 1] in Next(table)(chain[i]) {
        assert Mentions(table, chain[i + 1 - 1], chain[i + 1]);
        NextExactly(table, chain[i], chain[i + 1]);
      }
      assert Leads(Next(table), chain, view, chain[|chain| - 1]);
      AcceptableExactly(table, chain[|chain| - 1]);
    }
  }

  // ----- What a search has established -----

  predicate Covers(table: Table, seen: set<string>, a: Annotation)
    decreases a, 1
  {
    match a
    case Named(cls) => cls in seen || ClassOf(table, cls) == PlainClass(false)
    case Applied(args) => CoversAll(table, seen, args)
  }

  predicate CoversAll(table: Table, seen: set<string>, all: seq<Annotation>)
    decreases all, 0
  {
    all == [] || (Covers(table, seen, all[0]) && CoversAll(table, seen, all[1..]))
  }

  lemma {:induction false} CoversAt(table: Table, seen: set<string>, all: seq<Annotation>, a: Annotation)
    requires CoversAll(table, seen, all) && a in all
    ensures Covers(table, seen, a)
  {
    if all[0] != a {
      CoversAt(table, seen, all[1..], a);
    }
  }

  lemma {:induction false} CoversConcat(table: Table, seen: set<string>, x: seq<Annotation>, y: seq<Annotation>)
    ensures CoversAll(table, seen, x + y) <==> CoversAll(table, seen, x) && CoversAll(table, seen, y)
  {
    if x == [] {
      assert x + y == y;
    } else {
      assert (x + y)[1..] == x[1..] + y;
      CoversConcat(table, seen, x[1..], y);
    }
  }

  lemma {:induction false} CoversMore(table: Table, seen: set<string>, more: set<string>, a: Annotation)
    requires seen <= more && Covers(table, seen, a)
    ensures Covers(table, more, a)
    decreases a, 1
  {
    if a.Applied? {
      CoversAllMore(table, seen, more, a.args);
    }
  }

  lemma {:induction false} CoversAllMore(table: Table, seen: set<string>, more: set<string>, all: seq<Annotation>)
    requires seen <= more && CoversAll(table, seen, all)
    ensures CoversAll(table, more, all)
    decreases all, 0
  {
    if all != [] {
      CoversMore(table, seen, more, all[0]);
      CoversAllMore(table, seen, more, all[1..]);
    }
  }

  /** A class whose fields are all covered. */
  predicate Settled(table: Table, seen: set<string>, cls: string) {
    ClassOf(table, cls).Wire() && CoversAll(table, seen, Hints(table, cls))
  }

  ghost predicate AllSettled(table: Table, seen: set<string>, classes: set<string>) {
    forall cls :: cls in classes ==> Settled(table, seen, cls)
  }

  lemma {:induction false} SettledMore(table: Table, seen: set<string>, more: set<string>, classes: set<string>)
    requires seen <= more && AllSettled(table, seen, classes)
    ensures AllSettled(table, more, classes)
  {
    forall cls | cls in classes ensures Settled(table, more, cls) {
      CoversAllMore(table, seen, more, Hints(table, cls));
    }
  }

  lemma {:induction false} SettledGrows(table: Table, base: set<string>, earlier: set<string>, seen: set<string>)
    requires base <= earlier <= seen
    requires AllSettled(table, earlier, earlier - base) && AllSettled(table, seen, seen - earlier)
    ensures AllSettled(table, seen, seen - base)
  {
    SettledMore(table, earlier, seen, earlier - base);
    assert seen - base == (earlier - base) + (seen - earlier);
  }

  lemma {:induction false} CoversOneMore(
      table: Table, earlier: set<string>, seen: set<string>, all: seq<Annotation>, i: nat)
    requires i < |all| && earlier <= seen
    requires CoversAll(table, earlier, all[..i]) && Covers(table, seen, all[i])
    ensures CoversAll(table, seen, all[..i + 1])
  {
    CoversAllMore(table, earlier, seen, all[..i]);
    assert all[..i + 1] == all[..i] + [all[i]] && [all[i]][1..] == [];
    CoversConcat(table, seen, all[..i], [all[i]]);
  }

  /** When every seen class is settled, whatever a covered annotation reaches is covered and acceptable. */
  lemma {:induction false} CoveredPath(table: Table, seen: set<string>, path: seq<Annotation>, i: nat)
    requires AllSettled(table, seen, seen) && IsPath(Next(table), path) && i < |path|
    requires Covers(table, seen, path[0])
    ensures Covers(table, seen, path[i]) && Acceptable(table, path[i])
  {
    if i > 0 {
      CoveredPath(table, seen, path, i - 1);
      assert path[i - 1 + 1] in Next(table)(path[i - 1]);
      CoversAt(table, seen, Next(table)(path[i - 1]), path[i]);
    }
  }

  lemma {:induction false} SettledIsSound(table: Table, seen: set<string>, a: Annotation)
    requires AllSettled(table, seen, seen) && Covers(table, seen, a)
    ensures Sound(table, a)
  {
    forall b | Reaches(Next(table), a, b) ensures Acceptable(table, b) {
      var path :| Leads(Next(table), path, a, b);
      CoveredPath(table, seen, path, |path| - 1);
    }
  }

  lemma {:induction false} UnsoundThrough(table: Table, a: Annotation, b: Annotation)
    requires Reaches(Next(table), a, b) && !Sound(table, b)
    ensures !Sound(table, a)
  {
    var bad :| Reaches(Next(table), b, bad) && !Acceptable(table, bad);
    ReachesFar(Next(table), a, b, bad);
  }

  // ----- The search -----

  function Size(a: Annotation): nat
    decreases a, 1
  {
    1 + if a.Applied? then SizeAll(a.args) else 0
  }

  function SizeAll(all: seq<Annotation>): nat
    decreases all, 0
  {
    if all == [] then 0 else Size(all[0]) + SizeAll(all[1..])
  }

  lemma {:induction false} SizeConcat(x: seq<Annotation>, y: seq<Annotation>)
    ensures SizeAll(x + y) == SizeAll(x) + SizeAll(y)
  {
    if x == [] {
      assert x + y == y;
    } else {
      assert (x + y)[1..] == x[1..] + y;
      SizeConcat(x[1..], y);
    }
  }

  /** Once the stack is covered, so is the annotation it was unfolded from. */
  ghost predicate Unfolds(table: Table, seen: set<string>, stack: seq<Annotation>, a: Annotation) {
    forall more :: seen <= more && CoversAll(table, more, stack) ==> Covers(table, more, a)
  }

  ghost predicate AllReached(table: Table, a: Annotation, stack: seq<Annotation>) {
    forall b :: b in stack ==> Reaches(Next(table), a, b)
  }

  lemma {:induction false} StackPops(
      table: Table, seen: set<string>, stack: seq<Annotation>, a: Annotation, after: set<string>)
    requires stack != [] && Unfolds(table, seen, stack, a) && seen <= after
    requires var item := stack[|stack| - 1]; item.Named? ==> Covers(table, after, item)
    ensures var item := stack[|stack| - 1];
            Unfolds(table, after, stack[..|stack| - 1] + (if item.Applied? then item.args else []), a)
  {
    var rest, item := stack[..|stack| - 1], stack[|stack| - 1];
    var args := if item.Applied? then item.args else [];
    assert stack == rest + [item];
    forall more | after <= more && CoversAll(table, more, rest + args) ensures Covers(table, more, a) {
      CoversConcat(table, more, rest, args);
      if item.Named? { CoversMore(table, after, more, item); }
      assert [item][1..] == [];
      CoversConcat(table, more, rest, [item]);
    }
  }

  lemma {:induction false} StackReached(table: Table, stack: seq<Annotation>, a: Annotation)
    requires stack != [] && AllReached(table, a, stack)
    ensures var item := stack[|stack| - 1];
            AllReached(table, a, stack[..|stack| - 1] + (if item.Applied? then item.args else []))
  {
    var item := stack[|stack| - 1];
    if item.Applied? {
      forall b | b in item.args ensures Reaches(Next(table), a, b) {
        ReachesOn(Next(table), a, item, b);
      }
    }
  }

  lemma {:induction false} StackShrinks(stack: seq<Annotation>)
    requires stack != []
    ensures var item := stack[|stack| - 1];
            SizeAll(stack[..|stack| - 1] + (if item.Applied? then item.args else [])) < SizeAll(stack)
  {
    var rest, item := stack[..|stack| - 1], stack[|stack| - 1];
    assert stack == rest + [item];
    SizeConcat(rest, [item]);
    assert [item][1..] == [];
    SizeConcat(rest, if item.Applied? then item.args else []);
  }

  /** `_wire_is_fields` with the `seen` set its recursive calls share. */
  class WireSearch {
    const table: Table
    var seen: set<string>

    constructor (table: Table)
      ensures this.table == table && seen == {}
    {
      this.table, seen := table, {};
    }

    /** The call itself; on success every class it added to `seen` is settled. */
    method IsFields(view: Annotation) returns (ok: bool)
      modifies this
      ensures old(seen) <= seen
      ensures ok ==> view.Named? && view.cls in seen && AllSettled(table, seen, seen - old(seen))
      ensures !ok ==> !Sound(table, view) || view.Applied? || !ClassOf(table, view.cls).Structured()
      decreases table.Keys - seen, 1
    {
      if view.Applied? {
        return false;
      }
      if view.cls in seen {
        return true;
      }
      ghost var before := seen;
      seen := seen + {view.cls};
      if !ClassOf(table, view.cls).Wire() {
        ReachesItself(Next(table), view);
        return false;
      }
      var hints := Hints(table, view.cls);
      for i := 0 to |hints|
        invariant before + {view.cls} <= seen
        invariant AllSettled(table, seen, seen - (before + {view.cls}))
        invariant CoversAll(table, seen, hints[..i])
      {
        ghost var earlier := seen;
        ok := ScanHint(hints[i]);
        if !ok {
          ReachesItself(Next(table), view);
          ReachesOn(Next(table), view, view, hints[i]);
          UnsoundThrough(table, view, hints[i]);
          return false;
        }
        SettledGrows(table, before + {view.cls}, earlier, seen);
        CoversOneMore(table, earlier, seen, hints, i);
      }
      assert hints[..|hints|] == hints;
      return true;
    }

    /** The stack loop over one field's annotation. */
    method ScanHint(annotation: Annotation) returns (ok: bool)
      modifies this
      ensures old(seen) <= seen
      ensures ok ==> Covers(table, seen, annotation) && AllSettled(table, seen, seen - old(seen))
      ensures !ok ==> !Sound(table, annotation)
      decreases table.Keys - seen, 2
    {
      ghost var before := seen;
      var stack := [annotation];
      ReachesItself(Next(table), annotation);
      while stack != []
        invariant before <= seen && AllSettled(table, seen, seen - before)
        invariant Unfolds(table, seen, stack, annotation) && AllReached(table, annotation, stack)
        decreases SizeAll(stack)
      {
        var item := stack[|stack| - 1];
        ghost var earlier := seen;
        StackShrinks(stack);
        StackReached(table, stack, annotation);
        if item.Named? && ClassOf(table, item.cls).Structured() {
          ok := IsFields(item);
          if !ok {
            UnsoundThrough(table, annotation, item);
            return false;
          }
          SettledGrows(table, before, earlier, seen);
        } else if item.Named? && ClassOf(table, item.cls).hasToDict {
          ReachesItself(Next(table), item);
          UnsoundThrough(table, annotation, item);
          return false;
        }
        StackPops(table, earlier, stack, annotation, seen);
        stack := stack[..|stack| - 1] + (if item.Applied? then item.args else []);
      }
      return true;
    }
  }

  /**
   * On any finite type graph, cycles included, a top-level call terminates and answers true exactly when the view is
   * itself a wire class and no class reachable from it breaks the contract, although a class in progress answers true.
   */
  method WireIsFields(table: Table, view: Annotation) returns (ok: bool)
    ensures ok <==> view.Named? && ClassOf(table, view.cls).Wire() && Sound(table, view)
  {
    var search := new WireSearch(table);
    ok := search.IsFields(view);
    if ok {
      assert search.seen - {} == search.seen;
      SettledIsSound(table, search.seen, view);
    } else if view.Named? && ClassOf(table, view.cls).Structured() {
      ReachesItself(Next(table), view);
    }
  }

  // ----- The dataclasses a view mentions -----

  function Parts(a: Annotation): set<Annotation>
    decreases a, 1
  {
    {a} + if a.Applied? then PartsAll(a.args) else {}
  }

  function PartsAll(all: seq<Annotation>): set<Annotation>
    decreases all, 0
  {
    if all == [] then {} else Parts(all[0]) + PartsAll(all[1..])
  }

  lemma {:induction false} PartOfAll(all: seq<Annotation>, a: Annotation)
    requires a in all
    ensures a in PartsAll(all)
  {
    if all[0] != a {
      PartOfAll(all[1..], a);
    }
  }

  lemma {:induction false} PartsOfPart(a: Annotation, part: Annotation, b: Annotation)
    requires part in Parts(a) && part.Applied? && b in part.args
    ensures b in Parts(a)
    decreases a, 1
  {
    if part == a {
      PartOfAll(a.args, b);
    } else {
      PartsAllOfPart(a.args, part, b);
    }
  }

  lemma {:induction false} PartsAllOfPart(all: seq<Annotation>, part: Annotation, b: Annotation)
    requires part in PartsAll(all) && part.Applied? && b in part.args
    ensures b in PartsAll(all)
    decreases all, 0
  {
    if part in Parts(all[0]) {
      PartsOfPart(all[0], part, b);
    } else {
      PartsAllOfPart(all[1..], part, b);
    }
  }

  /** Every annotation that can ever be pushed: the parts of the view and of every declared field. */
  function Universe(table: Table, view: Annotation): set<Annotation> {
    Parts(view) + set cls, a | cls in table && a in PartsAll(Hints(table, cls)) :: a
  }

  lemma {:induction false} UniverseIsClosed(table: Table, view: Annotation, a: Annotation, b: Annotation)
    requires a in Universe(table, view) && b in Next(table)(a)
    ensures b in Universe(table, view)
  {
    if a.Named? {
      PartOfAll(Hints(table, a.cls), b);
      assert a.cls in table;
    } else if a in Parts(view) {
      PartsOfPart(view, a, b);
    } else {
      var cls :| cls in table && a in PartsAll(Hints(table, cls));
      PartsAllOfPart(Hints(table, cls), a, b);
    }
  }

  predicate IsDataclass(table: Table, a: Annotation) {
    a.Named? && (ClassOf(table, a.cls).ViewClass? || ClassOf(table, a.cls).OtherDataclass?)
  }

  ghost predicate Expanded(table: Table, seen: set<Annotation>, stack: seq<Annotation>, a: Annotation) {
    forall b | b in Next(table)(a) :: b in seen || b in stack
  }

  ghost predicate Frontier(table: Table, view: Annotation, seen: set<Annotation>, stack: seq<Annotation>) {
    && (forall a :: a in seen || a in stack ==> a in Universe(table, view) && Reaches(Next(table), view, a))
    && (view in seen || view in stack)
    && (forall a :: a in seen ==> Expanded(table, seen, stack, a))
  }

  ghost predicate NamesOf(table: Table, seen: set<Annotation>, names: set<string>) {
    forall name :: name in names <==> Named(name) in seen && IsDataclass(table, Named(name))
  }

  lemma {:induction false} FrontierSkips(table: Table, view: Annotation, seen: set<Annotation>, stack: seq<Annotation>)
    requires Frontier(table, view, seen, stack) && stack != [] && stack[|stack| - 1] in seen
    ensures Frontier(table, view, seen, stack[..|stack| - 1])
  {
    assert stack == stack[..|stack| - 1] + [stack[|stack| - 1]];
    forall a | a in seen ensures Expanded(table, seen, stack[..|stack| - 1], a) {
    }
  }

  lemma {:induction false} FrontierGrows(table: Table, view: Annotation, seen: set<Annotation>, stack: seq<Annotation>)
    requires Frontier(table, view, seen, stack) && stack != []
    ensures var item := stack[|stack| - 1];
            Frontier(table, view, seen + {item}, stack[..|stack| - 1] + Next(table)(item))
  {
    var item, rest := stack[|stack| - 1], stack[..|stack| - 1];
    assert stack == rest + [item];
    var grown := rest + Next(table)(item);
    forall b | b in Next(table)(item) ensures b in Universe(table, view) && Reaches(Next(table), view, b) {
      UniverseIsClosed(table, view, item, b);
      ReachesOn(Next(table), view, item, b);
    }
    forall a | a in seen + {item} ensures Expanded(table, seen + {item}, grown, a) {
    }
  }

  /** `_dataclass_names`: exactly the dataclasses reachable from the annotation. */
  method DataclassNames(table: Table, view: Annotation) returns (names: set<string>)
    ensures forall name :: name in names <==>
              && name in table && (table[name].ViewClass? || table[name].OtherDataclass?)
              && Reaches(Next(table), view, Named(name))
  {
    names := {};
    var seen: set<Annotation> := {};
    var stack := [view];
    ReachesItself(Next(table), view);
    while stack != []
      invariant Frontier(table, view, seen, stack) && NamesOf(table, seen, names)
      decreases Universe(table, view) - seen, |stack|
    {
      var item := stack[|stack| - 1];
      if item in seen {
        FrontierSkips(table, view, seen, stack);
        stack := stack[..|stack| - 1];
      } else {
        FrontierGrows(table, view, seen, stack);
        assert item in Universe(table, view);
        seen := seen + {item};
        if IsDataclass(table, item) {
          names := names + {item.cls};
        }
        stack := stack[..|stack| - 1] + Next(table)(item);
      }
    }
    AllFound(table, view, seen);
  }

  lemma {:induction false} AllFound(table: Table, view: Annotation, seen: set<Annotation>)
    requires Frontier(table, view, seen, [])
    ensures forall a :: Reaches(Next(table), view, a) <==> a in seen
  {
    assert Closed(Next(table), seen) by {
      forall x, y | x in seen && y in Next(table)(x) ensures y in seen {
        assert Expanded(table, seen, [], x);
      }
    }
    forall a | Reaches(Next(table), view, a) ensures a in seen {
      ClosedContains(Next(table), seen, view, a);
    }
  }
}
