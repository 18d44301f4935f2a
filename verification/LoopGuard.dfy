/** The guard that stops two automated parties answering each other. */
module LoopGuard {
  import opened Options
  import opened SlidingWindow

  /** `CHANNEL_LOOP_WINDOW_SECONDS`. */
  const WINDOW: real := 600.0

  /** `CHANNEL_LOOP_REPEAT_LIMIT`. */
  const REPEAT_LIMIT: nat := 3

  datatype Loop = Echo | Repeated

  // ----- The full logs -----

  /** Every reply sent, by the fingerprint of its text. */
  datatype Reply = Reply(connector: string, at: real, mark: string)

  /** Every message that was not an echo, whether it was then passed or refused as a repeat. */
  datatype Seen = Seen(connector: string, sender: string, at: real, mark: string, passed: bool)

  function ReplyMarks(log: seq<Reply>, connector: string): seq<Stamped<string>> {
    if log == [] then []
    else
      var last := log[|log| - 1];
      ReplyMarks(log[..|log| - 1], connector) +
      if last.connector == connector then [Stamped(last.at, last.mark)] else []
  }

  function SeenMarks(log: seq<Seen>, connector: string, sender: string): seq<Stamped<string>> {
    if log == [] then []
    else
      var last := log[|log| - 1];
      SeenMarks(log[..|log| - 1], connector, sender) +
      if last.connector == connector && last.sender == sender then [Stamped(last.at, last.mark)] else []
  }

  /** The occurrences of one message from one sender on one connector, each with whether it passed. */
  function Occurrences(log: seq<Seen>, connector: string, sender: string, mark: string): seq<Stamped<bool>> {
    if log == [] then []
    else
      var last := log[|log| - 1];
      Occurrences(log[..|log| - 1], connector, sender, mark) +
      if last.connector == connector && last.sender == sender && last.mark == mark
      then [Stamped(last.at, last.passed)] else []
  }

  function CountMark(marks: seq<Stamped<string>>, mark: string): nat {
    if marks == [] then 0
    else CountMark(marks[..|marks| - 1], mark) + if marks[|marks| - 1].item == mark then 1 else 0
  }

  /** How often the message occurred in the window that ends at `now`, refusals included. */
  function Recent(log: seq<Seen>, connector: string, sender: string, mark: string, now: real): nat {
    |Since(Occurrences(log, connector, sender, mark), now - WINDOW)|
  }

  function Verdict(
      replies: seq<Reply>, seen: seq<Seen>, connector: string, sender: string, mark: string, now: real): Option<Loop>
  {
    if CountMark(Since(ReplyMarks(replies, connector), now - WINDOW), mark) > 0 then Some(Echo)
    else if Recent(seen, connector, sender, mark, now) + 1 >= REPEAT_LIMIT then Some(Repeated)
    else None
  }

  predicate RepliesInOrder(log: seq<Reply>, clock: real) {
    log == [] || (log[|log| - 1].at <= clock && RepliesInOrder(log[..|log| - 1], log[|log| - 1].at))
  }

  predicate SeenInOrder(log: seq<Seen>, clock: real) {
    log == [] || (log[|log| - 1].at <= clock && SeenInOrder(log[..|log| - 1], log[|log| - 1].at))
  }

  /** A recorded message passed exactly when it had occurred fewer than twice in its window. */
  predicate Lawful(log: seq<Seen>) {
    log == [] ||
    var front, last := log[..|log| - 1], log[|log| - 1];
    && Lawful(front)
    && last.passed == (Recent(front, last.connector, last.sender, last.mark, last.at) + 1 < REPEAT_LIMIT)
  }

  // ----- What the guard promises over whole runs -----

  function PassedIn(occurrences: seq<Stamped<bool>>, lo: real, hi: real): nat {
    if occurrences == [] then 0
    else
      var last := occurrences[|occurrences| - 1];
      PassedIn(occurrences[..|occurrences| - 1], lo, hi) + if last.item && lo <= last.at <= hi then 1 else 0
  }

  lemma {:induction false} RecentCovers(occurrences: seq<Stamped<bool>>, lo: real, hi: real, cutoff: real)
    requires cutoff <= lo
    ensures PassedIn(occurrences, lo, hi) <= |Since(occurrences, cutoff)|
  {
    if occurrences != [] {
      RecentCovers(occurrences[..|occurrences| - 1], lo, hi, cutoff);
    }
  }

  /** At most two copies of one message from one sender on one connector pass in any closed 600-second window. */
  lemma {:induction false} AtMostTwoPass(log: seq<Seen>, connector: string, sender: string, mark: string, lo: real)
    requires Lawful(log)
    ensures PassedIn(Occurrences(log, connector, sender, mark), lo, lo + WINDOW) <= 2
  {
    if log != [] {
      var front, last := log[..|log| - 1], log[|log| - 1];
      var before := Occurrences(front, connector, sender, mark);
      AtMostTwoPass(front, connector, sender, mark, lo);
      if last.connector == connector && last.sender == sender && last.mark == mark {
        assert Occurrences(log, connector, sender, mark)[..|before|] == before;
        if last.passed && lo <= last.at <= lo + WINDOW {
          RecentCovers(before, lo, lo + WINDOW, last.at - WINDOW);
        }
      } else {
        assert Occurrences(log, connector, sender, mark) == before;
      }
    }
  }

  /** Each copy comes within the window of the one before last. */
  ghost predicate Steady(occurrences: seq<Stamped<bool>>) {
    forall i :: 2 <= i < |occurrences| ==> occurrences[i].at - occurrences[i - 2].at <= WINDOW
  }

  lemma {:induction false} LastTwoRecent(occurrences: seq<Stamped<bool>>, cutoff: real)
    requires |occurrences| >= 2
    requires occurrences[|occurrences| - 2].at >= cutoff && occurrences[|occurrences| - 1].at >= cutoff
    ensures |Since(occurrences, cutoff)| >= 2
  {
    var front := occurrences[..|occurrences| - 1];
    assert Since(occurrences, cutoff) == Since(front, cutoff) + [occurrences[|occurrences| - 1]];
    assert Since(front, cutoff) == Since(front[..|front| - 1], cutoff) + [front[|front| - 1]];
  }

  /**
   * Refused repeats keep the window open: a stuck automation that never lets it lapse
   * gets its message through twice and never again, however long it runs.
   */
  lemma {:induction false} SteadyRepeaterIsCutOff(
      log: seq<Seen>, connector: string, sender: string, mark: string, clock: real, i: nat)
    requires Lawful(log) && SeenInOrder(log, clock)
    requires Steady(Occurrences(log, connector, sender, mark))
    ensures 2 <= i < |Occurrences(log, connector, sender, mark)| ==> !Occurrences(log, connector, sender, mark)[i].item
  {
    if log != [] {
      var front, last := log[..|log| - 1], log[|log| - 1];
      var all, before := Occurrences(log, connector, sender, mark), Occurrences(front, connector, sender, mark);
      assert before <= all;
      SteadyRepeaterIsCutOff(front, connector, sender, mark, last.at, i);
      if 2 <= i == |before| < |all| {
        OccurrencesInOrder(front, connector, sender, mark, last.at);
        assert all[i].at - all[i - 2].at <= WINDOW;
        LastTwoRecent(before, last.at - WINDOW);
      }
    }
  }

  lemma {:induction false} OccurrencesInOrder(
      log: seq<Seen>, connector: string, sender: string, mark: string, clock: real)
    requires SeenInOrder(log, clock)
    ensures var o := Occurrences(log, connector, sender, mark);
            && (|o| >= 1 ==> o[|o| - 1].at <= clock)
            && (|o| >= 2 ==> o[|o| - 2].at <= o[|o| - 1].at)
  {
    if log != [] {
      OccurrencesInOrder(log[..|log| - 1], connector, sender, mark, log[|log| - 1].at);
    }
  }

  // ----- The deques -----

  lemma {:induction false} ReplyMarksSorted(log: seq<Reply>, connector: string, clock: real)
    requires RepliesInOrder(log, clock)
    ensures var marks := ReplyMarks(log, connector); Sorted(marks) && (marks != [] ==> marks[|marks| - 1].at <= clock)
  {
    if log != [] {
      var last, front := log[|log| - 1], ReplyMarks(log[..|log| - 1], connector);
      ReplyMarksSorted(log[..|log| - 1], connector, last.at);
      if last.connector == connector {
        assert ReplyMarks(log, connector)[..|front|] == front;
      } else {
        assert ReplyMarks(log, connector) == front;
      }
    }
  }

  lemma {:induction false} SeenMarksSorted(log: seq<Seen>, connector: string, sender: string, clock: real)
    requires SeenInOrder(log, clock)
    ensures var marks := SeenMarks(log, connector, sender);
            Sorted(marks) && (marks != [] ==> marks[|marks| - 1].at <= clock)
  {
    if log != [] {
      var last, front := log[|log| - 1], SeenMarks(log[..|log| - 1], connector, sender);
      SeenMarksSorted(log[..|log| - 1], connector, sender, last.at);
      if last.connector == connector && last.sender == sender {
        assert SeenMarks(log, connector, sender)[..|front|] == front;
      } else {
        assert SeenMarks(log, connector, sender) == front;
      }
    }
  }

  lemma CountMarkSnoc(marks: seq<Stamped<string>>, e: Stamped<string>, mark: string)
    ensures CountMark(marks + [e], mark) == CountMark(marks, mark) + if e.item == mark then 1 else 0
  {
    assert (marks + [e])[..|marks|] == marks;
  }

  /** Counting a fingerprint in the window of all marks is counting the message's occurrences in it. */
  lemma {:induction false} MarksCountOccurrences(
      log: seq<Seen>, connector: string, sender: string, mark: string, cutoff: real)
    ensures CountMark(Since(SeenMarks(log, connector, sender), cutoff), mark) ==
            |Since(Occurrences(log, connector, sender, mark), cutoff)|
  {
    if log != [] {
      var front, last := log[..|log| - 1], log[|log| - 1];
      var marks, occurrences := SeenMarks(front, connector, sender), Occurrences(front, connector, sender, mark);
      var m, o := Stamped(last.at, last.mark), Stamped(last.at, last.passed);
      MarksCountOccurrences(front, connector, sender, mark, cutoff);
      SinceSnoc(marks, m, cutoff);
      SinceSnoc(occurrences, o, cutoff);
      CountMarkSnoc(Since(marks, cutoff), m, mark);
      if !(last.connector == connector && last.sender == sender) {
        assert SeenMarks(log, connector, sender) == marks && Occurrences(log, connector, sender, mark) == occurrences;
      } else if last.mark != mark {
        assert SeenMarks(log, connector, sender) == marks + [m] &&
          Occurrences(log, connector, sender, mark) == occurrences;
        assert last.at < cutoff ==> Since(marks + [m], cutoff) == Since(marks, cutoff);
      } else {
        assert SeenMarks(log, connector, sender) == marks + [m] &&
          Occurrences(log, connector, sender, mark) == occurrences + [o];
        assert last.at < cutoff ==> Since(marks + [m], cutoff) == Since(marks, cutoff);
      }
    }
  }

  lemma SinceSnoc<T>(q: seq<Stamped<T>>, e: Stamped<T>, cutoff: real)
    ensures Since(q + [e], cutoff) == Since(q, cutoff) + if e.at >= cutoff then [e] else []
  {
    assert (q + [e])[..|q|] == q;
  }

  ghost predicate RepliesAgree(buckets: map<string, seq<Stamped<string>>>, log: seq<Reply>, oldest: real) {
    forall c :: Agree(Bucket(buckets, c), ReplyMarks(log, c), oldest)
  }

  ghost predicate InboundAgrees(buckets: map<(string, string), seq<Stamped<string>>>, log: seq<Seen>, oldest: real) {
    forall k :: Agree(Bucket(buckets, k), SeenMarks(log, k.0, k.1), oldest)
  }

  lemma {:induction false} ReplyRemembered(
      before: map<string, seq<Stamped<string>>>, log: seq<Reply>, oldest: real, e: Reply)
    requires RepliesAgree(before, log, oldest)
    ensures RepliesAgree(before[e.connector := Bucket(before, e.connector) + [Stamped(e.at, e.mark)]],
                         log + [e], oldest)
  {
    var after := before[e.connector := Bucket(before, e.connector) + [Stamped(e.at, e.mark)]];
    assert (log + [e])[..|log|] == log;
    forall c ensures Agree(Bucket(after, c), ReplyMarks(log + [e], c), oldest) {
      if c == e.connector {
        AgreeAfterAppend(Bucket(before, c), ReplyMarks(log, c), oldest, Stamped(e.at, e.mark));
      } else {
        assert ReplyMarks(log + [e], c) == ReplyMarks(log, c);
      }
    }
  }

  lemma {:induction false} RepliesPruned(
      before: map<string, seq<Stamped<string>>>, connector: string, log: seq<Reply>, oldest: real, cutoff: real)
    requires RepliesAgree(before, log, oldest) && oldest <= cutoff
    ensures RepliesAgree(before[connector := Live(Bucket(before, connector), cutoff)], log, cutoff)
  {
    var after := before[connector := Live(Bucket(before, connector), cutoff)];
    forall c ensures Agree(Bucket(after, c), ReplyMarks(log, c), cutoff) {
      AgreeAfterPrune(Bucket(before, c), ReplyMarks(log, c), oldest, cutoff);
    }
  }

  lemma {:induction false} InboundRecorded(
      before: map<(string, string), seq<Stamped<string>>>, log: seq<Seen>, oldest: real, cutoff: real, e: Seen)
    requires InboundAgrees(before, log, oldest) && oldest <= cutoff
    ensures var key := (e.connector, e.sender);
            InboundAgrees(before[key := Live(Bucket(before, key), cutoff) + [Stamped(e.at, e.mark)]], log + [e], cutoff)
  {
    var key := (e.connector, e.sender);
    var after := before[key := Live(Bucket(before, key), cutoff) + [Stamped(e.at, e.mark)]];
    assert (log + [e])[..|log|] == log;
    forall k ensures Agree(Bucket(after, k), SeenMarks(log + [e], k.0, k.1), cutoff) {
      var marks := SeenMarks(log, k.0, k.1);
      AgreeAfterPrune(Bucket(before, k), marks, oldest, cutoff);
      if k == key {
        AgreeAfterAppend(Live(Bucket(before, k), cutoff), marks, cutoff, Stamped(e.at, e.mark));
      } else {
        assert !(e.connector == k.0 && e.sender == k.1);
        assert SeenMarks(log + [e], k.0, k.1) == marks;
      }
    }
  }

  lemma InboundLater(buckets: map<(string, string), seq<Stamped<string>>>, log: seq<Seen>, oldest: real, later: real)
    requires InboundAgrees(buckets, log, oldest) && oldest <= later
    ensures InboundAgrees(buckets, log, later)
  {
  }

  lemma RepliesLater(buckets: map<string, seq<Stamped<string>>>, log: seq<Reply>, oldest: real, later: real)
    requires RepliesAgree(buckets, log, oldest) && oldest <= later
    ensures RepliesAgree(buckets, log, later)
  {
  }

  // ----- Echoes -----

  /** This reply was sent before the message, in its window, on its connector, and says the same. */
  predicate Echoes(e: Seen, r: Reply) {
    r.connector == e.connector && r.mark == e.mark && e.at - WINDOW <= r.at < e.at
  }

  ghost predicate EchoesNone(e: Seen, replies: seq<Reply>) {
    forall j :: 0 <= j < |replies| ==> !Echoes(e, replies[j])
  }

  /** No message recorded, passed or not, repeats a reply still in its window. */
  ghost predicate NoEchoes(seen: seq<Seen>, replies: seq<Reply>) {
    forall i :: 0 <= i < |seen| ==> EchoesNone(seen[i], replies)
  }

  predicate SaysIt(r: Reply, connector: string, mark: string, cutoff: real) {
    r.connector == connector && r.mark == mark && r.at >= cutoff
  }

  /** Some reply ever sent on the connector says it, and not before `cutoff`. */
  predicate Said(replies: seq<Reply>, connector: string, mark: string, cutoff: real) {
    replies != [] &&
    (SaysIt(replies[|replies| - 1], connector, mark, cutoff) || Said(replies[..|replies| - 1], connector, mark, cutoff))
  }

  /** The guard finds an echo exactly when some reply ever sent is one. */
  lemma {:induction false} EchoesAreFound(replies: seq<Reply>, connector: string, mark: string, cutoff: real)
    ensures CountMark(Since(ReplyMarks(replies, connector), cutoff), mark) > 0 <==>
      Said(replies, connector, mark, cutoff)
    decreases |replies|
  {
    if replies != [] {
      var front, last := replies[..|replies| - 1], replies[|replies| - 1];
      var marks, e := ReplyMarks(front, connector), Stamped(last.at, last.mark);
      EchoesAreFound(front, connector, mark, cutoff);
      if last.connector == connector {
        SinceSnoc(marks, e, cutoff);
        if last.at >= cutoff {
          CountMarkSnoc(Since(marks, cutoff), e, mark);
        } else {
          assert Since(marks + [e], cutoff) == Since(marks, cutoff);
        }
      } else {
        assert ReplyMarks(replies, connector) == marks;
      }
    }
  }

  lemma {:induction false} SaidWhere(replies: seq<Reply>, connector: string, mark: string, cutoff: real)
    returns (j: nat)
    requires Said(replies, connector, mark, cutoff)
    ensures j < |replies| && SaysIt(replies[j], connector, mark, cutoff)
    decreases |replies|
  {
    j := |replies| - 1;
    if !SaysIt(replies[j], connector, mark, cutoff) {
      j := SaidWhere(replies[..j], connector, mark, cutoff);
    }
  }

  lemma {:induction false} SaidAt(replies: seq<Reply>, connector: string, mark: string, cutoff: real, j: nat)
    requires j < |replies| && SaysIt(replies[j], connector, mark, cutoff)
    ensures Said(replies, connector, mark, cutoff)
    decreases |replies|
  {
    if j < |replies| - 1 {
      SaidAt(replies[..|replies| - 1], connector, mark, cutoff, j);
    }
  }

  /** How often the sender's message was seen on the connector since `lo`. */
  function TimesSeen(log: seq<Seen>, connector: string, sender: string, mark: string, lo: real): nat {
    if log == [] then 0
    else
      var last := log[|log| - 1];
      TimesSeen(log[..|log| - 1], connector, sender, mark, lo) +
      if last.connector == connector && last.sender == sender && last.mark == mark && last.at >= lo then 1 else 0
  }

  lemma {:induction false} RecentCounts(log: seq<Seen>, connector: string, sender: string, mark: string, now: real)
    ensures Recent(log, connector, sender, mark, now) == TimesSeen(log, connector, sender, mark, now - WINDOW)
  {
    if log != [] {
      var front, last := log[..|log| - 1], log[|log| - 1];
      var before := Occurrences(front, connector, sender, mark);
      RecentCounts(front, connector, sender, mark, now);
      if last.connector == connector && last.sender == sender && last.mark == mark {
        assert Occurrences(log, connector, sender, mark)[..|before|] == before;
      } else {
        assert Occurrences(log, connector, sender, mark) == before;
      }
    }
  }

  /**
   * A message is an echo exactly when it says what some reply on its connector said in the last ten minutes, and
   * otherwise a repeat exactly when its sender has sent it twice there before in that time; anything else passes.
   */
  lemma {:induction false} VerdictExactly(
      replies: seq<Reply>, seen: seq<Seen>, connector: string, sender: string, mark: string, now: real)
    ensures var v := Verdict(replies, seen, connector, sender, mark, now);
            var echo := exists j :: 0 <= j < |replies| && SaysIt(replies[j], connector, mark, now - WINDOW);
            && (v == Some(Echo) <==> echo)
            && (v == Some(Repeated) <==> !echo && TimesSeen(seen, connector, sender, mark, now - WINDOW) >= 2)
  {
    EchoesAreFound(replies, connector, mark, now - WINDOW);
    RecentCounts(seen, connector, sender, mark, now);
    if Said(replies, connector, mark, now - WINDOW) {
      var j := SaidWhere(replies, connector, mark, now - WINDOW);
    } else if j :| 0 <= j < |replies| && SaysIt(replies[j], connector, mark, now - WINDOW) {
      SaidAt(replies, connector, mark, now - WINDOW, j);
    }
  }

  lemma {:induction false} SeenBefore(seen: seq<Seen>, clock: real, i: nat)
    requires SeenInOrder(seen, clock) && i < |seen|
    ensures seen[i].at <= clock
    decreases |seen|
  {
    if i < |seen| - 1 {
      SeenBefore(seen[..|seen| - 1], seen[|seen| - 1].at, i);
    }
  }

  lemma {:induction false} ReplyKeepsNoEchoes(seen: seq<Seen>, replies: seq<Reply>, clock: real, r: Reply)
    requires SeenInOrder(seen, clock) && NoEchoes(seen, replies) && clock <= r.at
    ensures NoEchoes(seen, replies + [r])
  {
    forall i | 0 <= i < |seen| ensures EchoesNone(seen[i], replies + [r]) {
      SeenBefore(seen, clock, i);
      assert EchoesNone(seen[i], replies);
    }
  }

  lemma {:induction false} MessageKeepsNoEchoes(seen: seq<Seen>, replies: seq<Reply>, e: Seen)
    requires NoEchoes(seen, replies)
    requires CountMark(Since(ReplyMarks(replies, e.connector), e.at - WINDOW), e.mark) == 0
    ensures NoEchoes(seen + [e], replies)
  {
    EchoesAreFound(replies, e.connector, e.mark, e.at - WINDOW);
    forall j | 0 <= j < |replies| ensures !Echoes(e, replies[j]) {
      if SaysIt(replies[j], e.connector, e.mark, e.at - WINDOW) {
        SaidAt(replies, e.connector, e.mark, e.at - WINDOW, j);
      }
    }
    assert EchoesNone(e, replies);
  }

  lemma {:induction false} ReplyRecorded(seen: seq<Seen>, replies: seq<Reply>, clock: real, r: Reply)
    requires SeenInOrder(seen, clock) && RepliesInOrder(replies, clock) && NoEchoes(seen, replies) && clock <= r.at
    ensures SeenInOrder(seen, r.at) && RepliesInOrder(replies + [r], r.at) && NoEchoes(seen, replies + [r])
  {
    ReplyKeepsNoEchoes(seen, replies, clock, r);
    assert (replies + [r])[..|replies|] == replies;
  }

  lemma {:induction false} MessageRecorded(seen: seq<Seen>, replies: seq<Reply>, clock: real, e: Seen)
    requires SeenInOrder(seen, clock) && clock <= e.at && Lawful(seen) && NoEchoes(seen, replies)
    requires RepliesInOrder(replies, clock)
    requires CountMark(Since(ReplyMarks(replies, e.connector), e.at - WINDOW), e.mark) == 0
    requires e.passed == (Recent(seen, e.connector, e.sender, e.mark, e.at) + 1 < REPEAT_LIMIT)
    ensures SeenInOrder(seen + [e], e.at) && Lawful(seen + [e]) && NoEchoes(seen + [e], replies)
    ensures RepliesInOrder(replies, e.at)
  {
    MessageKeepsNoEchoes(seen, replies, e);
    assert (seen + [e])[..|seen|] == seen;
    if seen != [] { assert SeenInOrder(seen, e.at); }
    if replies != [] { assert replies[|replies| - 1].at <= e.at; }
  }

  class LoopGuards {
    var recentReplies: map<string, seq<Stamped<string>>>
    var recentInbound: map<(string, string), seq<Stamped<string>>>
    ghost var replies: seq<Reply>
    ghost var seen: seq<Seen>
    ghost var clock: real

    ghost predicate Valid()
      reads this
    {
      && RepliesInOrder(replies, clock) && SeenInOrder(seen, clock) && Lawful(seen) && NoEchoes(seen, replies)
      && RepliesAgree(recentReplies, replies, clock - WINDOW)
      && InboundAgrees(recentInbound, seen, clock - WINDOW)
    }

    constructor (start: real)
      ensures Valid() && replies == [] && seen == [] && clock == start
    {
      recentReplies, recentInbound := map[], map[];
      replies, seen, clock := [], [], start;
    }

    /** `_remember_reply`; a blank reply is not remembered. */
    method RememberReply(connector: string, blank: bool, mark: string, now: real)
      requires Valid() && clock <= now
      modifies this
      ensures Valid() && clock == now && seen == old(seen)
      ensures replies == old(replies) + if blank then [] else [Reply(connector, now, mark)]
    {
      ghost var r := Reply(connector, now, mark);
      InboundLater(recentInbound, seen, clock - WINDOW, now - WINDOW);
      RepliesLater(recentReplies, replies, clock - WINDOW, now - WINDOW);
      ReplyRecorded(seen, replies, clock, r);
      if !blank {
        ReplyRemembered(recentReplies, replies, now - WINDOW, r);
        recentReplies := recentReplies[connector := Bucket(recentReplies, connector) + [Stamped(now, mark)]];
        replies := replies + [r];
      }
      clock := now;
    }

    method IsEcho(connector: string, mark: string, now: real) returns (echo: bool)
      requires RepliesInOrder(replies, clock) && RepliesAgree(recentReplies, replies, clock - WINDOW) && clock <= now
      modifies this`recentReplies
      ensures RepliesAgree(recentReplies, replies, now - WINDOW)
      ensures echo == (CountMark(Since(ReplyMarks(replies, connector), now - WINDOW), mark) > 0)
    {
      ReplyMarksSorted(replies, connector, clock);
      LiveIsSince(ReplyMarks(replies, connector), now - WINDOW);
      RepliesPruned(recentReplies, connector, replies, clock - WINDOW, now - WINDOW);
      var pruned := Prune(Bucket(recentReplies, connector), now - WINDOW);
      recentReplies := recentReplies[connector := pruned];
      echo := CountMark(pruned, mark) > 0;
    }

    method IsRepeat(connector: string, sender: string, mark: string, now: real) returns (repeat: bool)
      requires SeenInOrder(seen, clock) && InboundAgrees(recentInbound, seen, clock - WINDOW) && clock <= now
      modifies this`recentInbound
      ensures repeat == (Recent(seen, connector, sender, mark, now) + 1 >= REPEAT_LIMIT)
      ensures InboundAgrees(recentInbound, seen + [Seen(connector, sender, now, mark, !repeat)], now - WINDOW)
    {
      var key := (connector, sender);
      SeenMarksSorted(seen, connector, sender, clock);
      LiveIsSince(SeenMarks(seen, connector, sender), now - WINDOW);
      MarksCountOccurrences(seen, connector, sender, mark, now - WINDOW);
      var pruned := Prune(Bucket(recentInbound, key), now - WINDOW);
      CountMarkSnoc(pruned, Stamped(now, mark), mark);
      repeat := CountMark(pruned + [Stamped(now, mark)], mark) >= REPEAT_LIMIT;
      InboundRecorded(recentInbound, seen, clock - WINDOW, now - WINDOW, Seen(connector, sender, now, mark, !repeat));
      recentInbound := recentInbound[key := pruned + [Stamped(now, mark)]];
    }

    /**
     * `_loop_reason`: what the pruned deques say is what the full logs say, and the message is recorded unless it is an
     * echo.
     */
    method LoopReason(connector: string, sender: string, mark: string, now: real) returns (loop: Option<Loop>)
      requires Valid() && clock <= now
      modifies this
      ensures Valid() && clock == now && replies == old(replies)
      ensures loop == Verdict(old(replies), old(seen), connector, sender, mark, now)
      ensures seen == old(seen) + if loop == Some(Echo) then [] else [Seen(connector, sender, now, mark, loop == None)]
    {
      var echo := IsEcho(connector, mark, now);
      if echo {
        InboundLater(recentInbound, seen, clock - WINDOW, now - WINDOW);
        clock := now;
        return Some(Echo);
      }
      loop := RepeatReason(connector, sender, mark, now);
    }

    /** The message is no echo: it is recorded, and refused if it has come too often. */
    method RepeatReason(connector: string, sender: string, mark: string, now: real) returns (loop: Option<Loop>)
      requires RepliesInOrder(replies, clock) && SeenInOrder(seen, clock) && Lawful(seen) && NoEchoes(seen, replies)
      requires RepliesAgree(recentReplies, replies, now - WINDOW) && InboundAgrees(recentInbound, seen, clock - WINDOW)
      requires clock <= now && CountMark(Since(ReplyMarks(replies, connector), now - WINDOW), mark) == 0
      modifies this`recentInbound, this`seen, this`clock
      ensures Valid() && clock == now
      ensures loop ==
        if Recent(old(seen), connector, sender, mark, now) + 1 >= REPEAT_LIMIT then Some(Repeated) else None
      ensures seen == old(seen) + [Seen(connector, sender, now, mark, loop == None)]
    {
      var repeat := IsRepeat(connector, sender, mark, now);
      ghost var e := Seen(connector, sender, now, mark, !repeat);
      MessageRecorded(seen, replies, clock, e);
      seen, clock := seen + [e], now;
      loop := if repeat then Some(Repeated) else None;
    }
  }
}
