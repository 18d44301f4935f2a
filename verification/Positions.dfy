/** Sub-lists by position: what a loop that keeps some elements has kept. */
module Positions {

  ghost predicate Increasing(at: seq<nat>) {
    forall j, k :: 0 <= j < k < |at| ==> at[j] < at[k]
  }

  /** `at` lists the positions below n that have the property, in order. */
  ghost predicate Lists(at: seq<nat>, n: nat, keep: nat -> bool) {
    && Increasing(at) && (forall k :: 0 <= k < |at| ==> at[k] < n && keep(at[k]))
    && (forall i: nat :: i < n && keep(i) ==> i in at)
  }

  ghost function ElementsAt<T>(s: seq<T>, at: seq<nat>): seq<T>
    requires forall k :: 0 <= k < |at| ==> at[k] < |s|
  {
    seq(|at|, k requires 0 <= k < |at| => s[at[k]])
  }

  /** `kept` is the elements of `s` at the positions that have the property, in order, and nothing else. */
  ghost predicate Keeps<T>(s: seq<T>, keep: nat -> bool, kept: seq<T>) {
    exists at: seq<nat> :: Lists(at, |s|, keep) && kept == ElementsAt(s, at)
  }

  lemma ListedMore(at: seq<nat>, n: nat, keep: nat -> bool)
    requires Lists(at, n, keep)
    ensures Lists(if keep(n) then at + [n] else at, n + 1, keep)
  {
  }

  lemma LastListed(at: seq<nat>, n: nat, keep: nat -> bool)
    requires Lists(at, n, keep) && at != []
    ensures var last := at[|at| - 1];
            Lists(at[..|at| - 1], last, keep) && last < n && keep(last) && forall i: nat :: last < i < n ==> !keep(i)
  {
    var front, last := at[..|at| - 1], at[|at| - 1];
    assert at == front + [last];
    assert forall i: nat :: i in at ==> i in front || i == last;
  }

  lemma ListedSome(at: seq<nat>, other: seq<nat>, n: nat, keep: nat -> bool)
    requires Lists(at, n, keep) && Lists(other, n, keep)
    ensures other != [] ==> at != []
  {
    if other != [] { assert other[0] in at; }
  }

  /** There is one such list. */
  lemma {:induction false} ListedOnce(at: seq<nat>, other: seq<nat>, n: nat, keep: nat -> bool)
    requires Lists(at, n, keep) && Lists(other, n, keep)
    ensures at == other
  {
    ListedSome(at, other, n, keep);
    ListedSome(other, at, n, keep);
    if at != [] {
      LastListed(at, n, keep);
      LastListed(other, n, keep);
      ListedOnce(at[..|at| - 1], other[..|other| - 1], at[|at| - 1], keep);
      assert at == at[..|at| - 1] + [at[|at| - 1]] && other == other[..|other| - 1] + [other[|other| - 1]];
    }
  }

  lemma ElementsMore<T>(s: seq<T>, x: T, at: seq<nat>)
    requires forall k :: 0 <= k < |at| ==> at[k] < |s|
    ensures ElementsAt(s + [x], at) == ElementsAt(s, at)
    ensures ElementsAt(s + [x], at + [|s|]) == ElementsAt(s, at) + [x]
  {
    assert forall k :: 0 <= k < |at| ==> (s + [x])[at[k]] == s[at[k]];
  }

  /** Of the first n elements those at `at` were kept. */
  ghost predicate KeptBy<T>(s: seq<T>, n: nat, keep: nat -> bool, kept: seq<T>, at: seq<nat>) {
    n <= |s| && Lists(at, n, keep) && kept == ElementsAt(s, at)
  }

  /** One more element, kept or not. */
  lemma KeptMore<T>(s: seq<T>, n: nat, keep: nat -> bool, kept: seq<T>, at: seq<nat>)
    requires 0 < n <= |s| && KeptBy(s, n - 1, keep, kept, at)
    ensures keep(n - 1) ==> KeptBy(s, n, keep, kept + [s[n - 1]], at + [n - 1])
    ensures !keep(n - 1) ==> KeptBy(s, n, keep, kept, at)
  {
    ListedMore(at, n - 1, keep);
  }
}
