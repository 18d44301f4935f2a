/** Deques of time-stamped entries, pruned from the left, and the full logs they stand for. */
module SlidingWindow {

  datatype Stamped<+T> = Stamped(at: real, item: T)

  /** What is left of a deque once every entry older than `cutoff` has been popped off its front. */
  function Live<T>(q: seq<Stamped<T>>, cutoff: real): seq<Stamped<T>> {
    if q == [] || q[0].at >= cutoff then q else Live(q[1..], cutoff)
  }

  /** Reading a `defaultdict(deque)`. */
  function Bucket<K, T>(buckets: map<K, seq<Stamped<T>>>, key: K): seq<Stamped<T>> {
    if key in buckets then buckets[key] else []
  }

  method Prune<T>(q: seq<Stamped<T>>, cutoff: real) returns (pruned: seq<Stamped<T>>)
    ensures pruned == Live(q, cutoff)
  {
    pruned := q;
    while pruned != [] && pruned[0].at < cutoff
      invariant Live(pruned, cutoff) == Live(q, cutoff)
      decreases |pruned|
    {
      pruned := pruned[1..];
    }
  }

  /** Every entry of the whole log that is not older than `cutoff`. */
  function Since<T>(log: seq<Stamped<T>>, cutoff: real): seq<Stamped<T>> {
    if log == [] then []
    else
      var last := log[|log| - 1];
      Since(log[..|log| - 1], cutoff) + if last.at >= cutoff then [last] else []
  }

  predicate Sorted<T>(q: seq<Stamped<T>>) {
    q == [] || (Sorted(q[..|q| - 1]) && (|q| > 1 ==> q[|q| - 2].at <= q[|q| - 1].at))
  }

  lemma {:induction false} LiveTwice<T>(q: seq<Stamped<T>>, early: real, late: real)
    requires early <= late
    ensures Live(Live(q, early), late) == Live(q, late)
  {
    if q != [] && q[0].at < early {
      LiveTwice(q[1..], early, late);
    }
  }

  lemma {:induction false} LiveAppend<T>(q: seq<Stamped<T>>, e: Stamped<T>, cutoff: real)
    ensures Live(q + [e], cutoff) ==
            if Live(q, cutoff) == [] then Live([e], cutoff) else Live(q, cutoff) + [e]
  {
    if q == [] {
      assert q + [e] == [e];
    } else if q[0].at < cutoff {
      assert (q + [e])[1..] == q[1..] + [e];
      LiveAppend(q[1..], e, cutoff);
    }
  }

  lemma {:induction false} LastOfSorted<T>(q: seq<Stamped<T>>, i: nat)
    requires Sorted(q) && i < |q|
    ensures q[i].at <= q[|q| - 1].at
  {
    if i < |q| - 1 {
      LastOfSorted(q[..|q| - 1], i);
    }
  }

  lemma {:induction false} LiveIsSuffix<T>(q: seq<Stamped<T>>, cutoff: real)
    ensures var l := Live(q, cutoff);
            |l| <= |q| && l == q[|q| - |l|..] && (l != [] ==> l[0].at >= cutoff)
  {
    if q != [] && q[0].at < cutoff {
      LiveIsSuffix(q[1..], cutoff);
    }
  }

  lemma {:induction false} LiveThenLast<T>(log: seq<Stamped<T>>, cutoff: real)
    requires log != [] && Sorted(log) && Live(log[..|log| - 1], cutoff) != []
    ensures log[|log| - 1].at >= cutoff
  {
    var front := log[..|log| - 1];
    LiveIsSuffix(front, cutoff);
    var i := |front| - |Live(front, cutoff)|;
    assert Live(front, cutoff)[0] == front[i] == log[i];
    LastOfSorted(log, i);
  }

  /** On a log kept in time order, popping from the front keeps exactly the entries in the window. */
  lemma {:induction false} LiveIsSince<T>(log: seq<Stamped<T>>, cutoff: real)
    requires Sorted(log)
    ensures Live(log, cutoff) == Since(log, cutoff)
  {
    if log != [] {
      var front, last := log[..|log| - 1], log[|log| - 1];
      assert log == front + [last];
      LiveAppend(front, last, cutoff);
      LiveIsSince(front, cutoff);
      if Live(front, cutoff) != [] {
        LiveThenLast(log, cutoff);
      } else {
        assert [last][1..] == [];
        assert Live([last], cutoff) == if last.at >= cutoff then [last] else [];
      }
    }
  }

  /** The deque and the full log agree on every window that can still be asked about. */
  ghost predicate Agree<T(!new)>(q: seq<Stamped<T>>, log: seq<Stamped<T>>, oldest: real) {
    forall cutoff :: cutoff >= oldest ==> Live(q, cutoff) == Live(log, cutoff)
  }

  lemma {:induction false} AgreeAfterPrune<T(!new)>(
      q: seq<Stamped<T>>, log: seq<Stamped<T>>, oldest: real, cutoff: real)
    requires Agree(q, log, oldest) && oldest <= cutoff
    ensures Agree(Live(q, cutoff), log, cutoff)
  {
    forall later | later >= cutoff ensures Live(Live(q, cutoff), later) == Live(log, later) {
      LiveTwice(q, cutoff, later);
    }
  }

  lemma {:induction false} AgreeAfterAppend<T(!new)>(
      q: seq<Stamped<T>>, log: seq<Stamped<T>>, oldest: real, e: Stamped<T>)
    requires Agree(q, log, oldest)
    ensures Agree(q + [e], log + [e], oldest)
  {
    forall cutoff | cutoff >= oldest ensures Live(q + [e], cutoff) == Live(log + [e], cutoff) {
      LiveAppend(q, e, cutoff);
      LiveAppend(log, e, cutoff);
    }
  }
}
