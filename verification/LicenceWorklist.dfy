/** Which installed distributions a licence report lists. */
module LicenceWorklist {
  import opened Options
  import opened Positions
  import opened Reachability
  import opened Texts

  /**
   * One installed distribution; absent metadata is `None`, and the two fallbacks are what the classifiers and licence
   * files name.
   */
  datatype Distribution = Distribution(
    name: string, version: string, requires_: seq<string>,
    expression: Option<string>, license: Option<string>, classifier: Option<string>, files: Option<string>)

  type Installed = map<string, Distribution>

  datatype Component = Component(name: string, version: string, license: Option<string>)

  // ----- Reading one requirement -----

  predicate EndsName(c: char) { c in "<>=!~;[ " }

  /** The name in front of the first of `<>=!~;[` or a blank, lower-cased, `_` as `-`. */
  function NameOf(requirement: string): (name: string)
    ensures |name| <= |requirement| && (|name| < |requirement| ==> requirement[|name|] in "<>=!~;[ ")
    ensures forall i :: 0 <= i < |name| ==>
              && requirement[i] !in "<>=!~;[ "
              && name[i] == (if requirement[i] == '_' then '-' else LowerChar(requirement[i]))
  {
    if requirement == "" || EndsName(requirement[0]) then ""
    else [if requirement[0] == '_' then '-' else LowerChar(requirement[0])] + NameOf(requirement[1..])
  }

  function AfterSemicolon(s: string): string {
    if s == "" then "" else if s[0] == ';' then s[1..] else AfterSemicolon(s[1..])
  }

  predicate ForExtra(requirement: string) {
    Contains(AfterSemicolon(requirement), "extra ==")
  }

  lemma {:induction false} AfterWhere(s: string) returns (k: nat)
    ensures k <= |s| && forall m :: 0 <= m < k ==> s[m] != ';'
    ensures if k < |s| then s[k] == ';' && AfterSemicolon(s) == s[k + 1..] else AfterSemicolon(s) == ""
  {
    if s == "" || s[0] == ';' {
      k := 0;
    } else {
      var j := AfterWhere(s[1..]);
      k := j + 1;
      assert forall m :: 1 <= m < |s| ==> s[m] == s[1..][m - 1];
      if j < |s[1..]| { assert s[1..][j + 1..] == s[k + 1..]; }
    }
  }

  /** The marker names an extra, somewhere behind a semicolon. */
  predicate MarksExtra(requirement: string, i: int, j: int) {
    0 <= i < j < |requirement| && requirement[i] == ';' && At(requirement, j, "extra ==")
  }

  lemma {:induction false} ForExtraExactly(requirement: string)
    ensures ForExtra(requirement) <==> exists i, j :: MarksExtra(requirement, i, j)
  {
    var k := AfterWhere(requirement);
    var after := AfterSemicolon(requirement);
    if ForExtra(requirement) {
      var j: nat :| j <= |after| && At(after, j, "extra ==");
      assert |"extra =="| == 8;
      assert requirement[k + 1 + j..k + 1 + j + 8] == after[j..j + 8];
      assert MarksExtra(requirement, k, k + 1 + j);
    }
    if i, j :| MarksExtra(requirement, i, j) {
      assert k <= i;
      assert after[j - k - 1..j - k - 1 + 8] == requirement[j..j + 8];
      assert At(after, j - k - 1, "extra ==");
    }
  }

  /** The dependencies a distribution brings in by itself, in order. */
  function Dependencies(requirements: seq<string>): seq<string> {
    if requirements == [] then []
    else
      var last := requirements[|requirements| - 1];
      Dependencies(requirements[..|requirements| - 1]) +
      if ForExtra(last) || NameOf(last) == "" then [] else [NameOf(last)]
  }

  /** The requirement has a name and is for no extra. */
  predicate Needed(requirement: string) { NameOf(requirement) != "" && !ForExtra(requirement) }

  function NamesIn(requirements: seq<string>): seq<string> {
    seq(|requirements|, i requires 0 <= i < |requirements| => NameOf(requirements[i]))
  }

  ghost function NeededIn(requirements: seq<string>): nat -> bool {
    i => 0 <= i < |requirements| && Needed(requirements[i])
  }

  lemma {:induction false} NeededKept(requirements: seq<string>, n: nat) returns (at: seq<nat>)
    requires n <= |requirements|
    ensures KeptBy(NamesIn(requirements), n, NeededIn(requirements), Dependencies(requirements[..n]), at)
  {
    if n == 0 {
      at := [];
    } else {
      at := NeededKept(requirements, n - 1);
      KeptMore(NamesIn(requirements), n, NeededIn(requirements), Dependencies(requirements[..n - 1]), at);
      assert requirements[..n][..n - 1] == requirements[..n - 1];
      if Needed(requirements[n - 1]) { at := at + [n - 1]; }
    }
  }

  /** The dependencies are the names of the requirements that are needed, in order, and nothing else. */
  lemma {:induction false} DependenciesExactly(requirements: seq<string>)
    ensures Keeps(NamesIn(requirements), NeededIn(requirements), Dependencies(requirements))
  {
    var at := NeededKept(requirements, |requirements|);
    assert requirements[..|requirements|] == requirements;
  }

  predicate Truthy(value: Option<string>) { value.Some? && value.value != "" }

  /** Expression, else licence field; when that is empty the classifier; when that is empty the licence files. */
  function LicenseOf(d: Distribution): Option<string> {
    var declared := if d.expression.Some? then d.expression else d.license;
    if Truthy(declared) then declared else if Truthy(d.classifier) then d.classifier else d.files
  }

  /**
   * A declared licence is reported before what classifiers say, and that before what the files say; an expression, even
   * an empty one, hides the licence field.
   */
  lemma LicencesInOrder(d: Distribution, text: string)
    ensures d.expression == Some(text) && text != "" ==> LicenseOf(d) == Some(text)
    ensures d.expression == None && d.license == Some(text) && text != "" ==> LicenseOf(d) == Some(text)
    ensures d.expression == Some("") || (d.expression == None && d.license in {None, Some("")}) ==>
              LicenseOf(d) == if d.classifier in {None, Some("")} then d.files else d.classifier
  {
  }

  function ComponentOf(d: Distribution): Component { Component(d.name, d.version, LicenseOf(d)) }

  /** Edges of the dependency graph; a name that is not installed leads nowhere. */
  function Edges(installed: Installed): string -> seq<string> {
    name => if name in installed then Dependencies(installed[name].requires_) else []
  }

  ghost predicate FromRoots(installed: Installed, roots: seq<string>, name: string) {
    exists root :: root in roots && Reaches(Edges(installed), root, name)
  }

  // ----- What the loop keeps -----

  /** The installed dependencies of `x` are resolved or pending. */
  ghost predicate Expanded(installed: Installed, pending: seq<string>, resolved: set<string>, x: string) {
    forall y | y in Edges(installed)(x) :: y in installed ==> y in resolved || y in pending
  }

  /** Everything found so far comes from a root, and whatever is still to be found is pending. */
  ghost predicate Frontier(installed: Installed, roots: seq<string>, pending: seq<string>, resolved: set<string>) {
    && resolved <= installed.Keys
    && (forall name :: name in pending || name in resolved ==> FromRoots(installed, roots, name))
    && (forall root :: root in roots && root in installed ==> root in resolved || root in pending)
    && (forall x :: x in resolved ==> Expanded(installed, pending, resolved, x))
  }

  ghost predicate Distinct(names: seq<string>) {
    forall i, j :: 0 <= i < j < |names| ==> names[i] != names[j]
  }

  /** One component per resolved name, each name once. */
  ghost predicate Listed(installed: Installed, resolved: set<string>, names: seq<string>, components: seq<Component>) {
    && Distinct(names)
    && (forall name :: name in names <==> name in resolved)
    && |components| == |names|
    && (forall i :: 0 <= i < |names| ==> names[i] in installed && components[i] == ComponentOf(installed[names[i]]))
  }

  lemma {:induction false} ListedGrows(
      installed: Installed, resolved: set<string>, names: seq<string>, components: seq<Component>, name: string)
    requires Listed(installed, resolved, names, components) && name in installed && name !in resolved
    ensures Listed(installed, resolved + {name}, names + [name], components + [ComponentOf(installed[name])])
  {
    assert name !in names;
  }

  lemma {:induction false} FrontierStarts(installed: Installed, roots: seq<string>)
    ensures Frontier(installed, roots, roots, {})
  {
    forall root | root in roots ensures FromRoots(installed, roots, root) {
      ReachesItself(Edges(installed), root);
    }
  }

  lemma {:induction false} RemovedOne(pending: seq<string>, i: nat, name: string)
    requires i < |pending|
    ensures var rest := pending[..i] + pending[i + 1..];
            name in pending <==> name == pending[i] || name in rest
  {
    var rest := pending[..i] + pending[i + 1..];
    assert pending == pending[..i] + [pending[i]] + pending[i + 1..];
  }

  lemma {:induction false} FrontierSkips(
      installed: Installed, roots: seq<string>, pending: seq<string>, resolved: set<string>, i: nat)
    requires Frontier(installed, roots, pending, resolved) && i < |pending|
    requires pending[i] in resolved || pending[i] !in installed
    ensures Frontier(installed, roots, pending[..i] + pending[i + 1..], resolved)
  {
    forall name ensures name in pending <==> name == pending[i] || name in pending[..i] + pending[i + 1..] {
      RemovedOne(pending, i, name);
    }
  }

  lemma {:induction false} FrontierGrows(
      installed: Installed, roots: seq<string>, pending: seq<string>, resolved: set<string>, i: nat)
    requires Frontier(installed, roots, pending, resolved) && i < |pending| && pending[i] in installed
    ensures var name, rest := pending[i], pending[..i] + pending[i + 1..];
            Frontier(installed, roots, rest + Dependencies(installed[name].requires_), resolved + {name})
  {
    var name, rest := pending[i], pending[..i] + pending[i + 1..];
    var dependencies := Dependencies(installed[name].requires_);
    forall other ensures other in pending <==> other == name || other in rest {
      RemovedOne(pending, i, other);
    }
    forall y | y in dependencies ensures FromRoots(installed, roots, y) {
      var root :| root in roots && Reaches(Edges(installed), root, name);
      ReachesOn(Edges(installed), root, name, y);
    }
  }

  method PushDependencies(requirements: seq<string>, pending: seq<string>) returns (grown: seq<string>)
    ensures grown == pending + Dependencies(requirements)
  {
    grown := pending;
    for i := 0 to |requirements|
      invariant grown == pending + Dependencies(requirements[..i])
    {
      assert requirements[..i + 1][..i] == requirements[..i];
      var requirement := requirements[i];
      var dependency := NameOf(requirement);
      if !ForExtra(requirement) && dependency != "" {
        grown := grown + [dependency];
      }
    }
    assert requirements[..|requirements|] == requirements;
  }

  /**
   * `python_components`, before its final sort: in whatever order `pending` is popped, each installed
   * distribution reachable from the roots through non-extra requirements is listed once, and nothing else is.
   */
  method PythonComponents(installed: Installed, roots: seq<string>)
    returns (names: seq<string>, components: seq<Component>)
    ensures Distinct(names)
    ensures forall name :: name in names <==> name in installed && FromRoots(installed, roots, name)
    ensures |components| == |names|
    ensures forall i :: 0 <= i < |names| ==>
              && names[i] in installed
              && var d := installed[names[i]]; components[i] == Component(d.name, d.version, LicenseOf(d))
  {
    var pending := roots;
    var resolved: set<string> := {};
    names, components := [], [];
    FrontierStarts(installed, roots);
    while pending != []
      invariant Frontier(installed, roots, pending, resolved)
      invariant Listed(installed, resolved, names, components)
      decreases installed.Keys - resolved, |pending|
    {
      var i :| 0 <= i < |pending|;
      var name := pending[i];
      if name in resolved || name !in installed {
        FrontierSkips(installed, roots, pending, resolved, i);
        pending := pending[..i] + pending[i + 1..];
      } else {
        FrontierGrows(installed, roots, pending, resolved, i);
        ListedGrows(installed, resolved, names, components, name);
        resolved := resolved + {name};
        names := names + [name];
        components := components + [ComponentOf(installed[name])];
        pending := PushDependencies(installed[name].requires_, pending[..i] + pending[i + 1..]);
      }
    }
    NothingMissed(installed, roots, resolved);
  }

  lemma {:induction false} NothingMissed(installed: Installed, roots: seq<string>, resolved: set<string>)
    requires Frontier(installed, roots, [], resolved)
    ensures forall name :: name in resolved <==> name in installed && FromRoots(installed, roots, name)
  {
    forall name | name in installed && FromRoots(installed, roots, name) ensures name in resolved {
      var root :| root in roots && Reaches(Edges(installed), root, name);
      var path :| Leads(Edges(installed), path, root, name);
      InstalledOnPath(installed, roots, resolved, path, |path| - 1);
    }
  }

  /** Along a path, whatever is installed has been resolved: only an installed node has edges. */
  lemma {:induction false} InstalledOnPath(
      installed: Installed, roots: seq<string>, resolved: set<string>, path: seq<string>, i: nat)
    requires Frontier(installed, roots, [], resolved)
    requires IsPath(Edges(installed), path) && path[0] in roots && i < |path|
    ensures path[i] in installed ==> path[i] in resolved
  {
    if i > 0 {
      InstalledOnPath(installed, roots, resolved, path, i - 1);
      assert path[i - 1 + 1] in Edges(installed)(path[i - 1]);
    }
  }
}
