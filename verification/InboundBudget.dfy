/** The three sliding-window budgets every inbound channel message is spent from. */
module InboundBudget {
  import opened Options
  import opened SlidingWindow

  /** `CHANNEL_INBOUND_WINDOW_SECONDS`. */
  const WINDOW: real := 60.0

  datatype Limits = Limits(sender: nat, channel: nat, host: nat)

  datatype Refusal = RateLimited | ChannelRateLimited | InboundRateLimited

  /** `_positive_env`: a missing, malformed or non-positive override falls back. */
  function PositiveOr(override: Option<int>, fallback: nat): (limit: nat)
    requires fallback > 0
    ensures limit > 0
    ensures override == Some(limit) || (limit == fallback && (override.Some? ==> override.value <= 0))
  {
    if override.Some? && override.value > 0 then override.value else fallback
  }

  function LimitsFrom(sender: Option<int>, channel: Option<int>, host: Option<int>): (limits: Limits)
    ensures limits.sender > 0 && limits.channel > 0 && limits.host > 0
    ensures channel == None && host == None ==> limits.sender <= limits.channel <= limits.host
    ensures sender == None && channel == None && host == None ==> limits == Limits(60, 240, 600)
    ensures sender.Some? && sender.value > 0 ==> limits.sender == sender.value
    ensures channel.Some? && channel.value > 0 ==> limits.channel == channel.value
    ensures host.Some? && host.value > 0 ==> limits.host == host.value
  {
    var perSender := PositiveOr(sender, 60);
    Limits(perSender, PositiveOr(channel, perSender * 4), PositiveOr(host, perSender * 10))
  }

  // ----- The log of every accepted message -----

  /** `at` is the clock reading the channel and host budgets store, `senderAt` the later one the sender's stores. */
  datatype Accepted = Accepted(connector: string, sender: string, at: real, senderAt: real, limits: Limits)

  datatype Scope = OfSender(connector: string, sender: string) | OfChannel(connector: string) | OfHost

  predicate InScope(e: Accepted, scope: Scope) {
    match scope
    case OfSender(connector, sender) => e.connector == connector && e.sender == sender
    case OfChannel(connector) => e.connector == connector
    case OfHost => true
  }

  function Stamp(e: Accepted, scope: Scope): real {
    if scope.OfSender? then e.senderAt else e.at
  }

  function Limit(limits: Limits, scope: Scope): nat {
    match scope
    case OfSender(_, _) => limits.sender
    case OfChannel(_) => limits.channel
    case OfHost => limits.host
  }

  function Hits(log: seq<Accepted>, scope: Scope): seq<Stamped<()>> {
    if log == [] then []
    else
      var last := log[|log| - 1];
      Hits(log[..|log| - 1], scope) + if InScope(last, scope) then [Stamped(Stamp(last, scope), ())] else []
  }

  /** Accepted messages of `scope` in the last minute before `now`. */
  function Spent(log: seq<Accepted>, scope: Scope, now: real): nat {
    |Since(Hits(log, scope), now - WINDOW)|
  }

  /** The first scope, smallest first, whose budget is spent; each is counted over the whole log. */
  function Verdict(
      log: seq<Accepted>, connector: string, sender: string, now: real, senderNow: real,
      limits: Limits): Option<Refusal>
  {
    if Spent(log, OfSender(connector, sender), senderNow) >= limits.sender then Some(RateLimited)
    else if Spent(log, OfChannel(connector), now) >= limits.channel then Some(ChannelRateLimited)
    else if Spent(log, OfHost, now) >= limits.host then Some(InboundRateLimited)
    else None
  }

  /** Stamps only move forward, and none lies after `clock`. */
  predicate InOrder(log: seq<Accepted>, clock: real) {
    log == [] ||
    var last := log[|log| - 1];
    && last.at <= last.senderAt <= clock
    && InOrder(log[..|log| - 1], last.at)
  }

  /** Each message was accepted while every budget it falls under had room. */
  ghost predicate Lawful(log: seq<Accepted>) {
    log == [] ||
    var front, last := log[..|log| - 1], log[|log| - 1];
    && Lawful(front)
    && forall scope :: InScope(last, scope) ==> Spent(front, scope, Stamp(last, scope)) < Limit(last.limits, scope)
  }

  lemma {:induction false} HitsInOrder(log: seq<Accepted>, scope: Scope, clock: real)
    requires InOrder(log, clock)
    ensures var hits := Hits(log, scope); Sorted(hits) && (hits != [] ==> hits[|hits| - 1].at <= clock)
  {
    if log != [] {
      var last := log[|log| - 1];
      var front := Hits(log[..|log| - 1], scope);
      HitsInOrder(log[..|log| - 1], scope, last.at);
      if InScope(last, scope) {
        assert Hits(log, scope)[..|front|] == front;
      } else {
        assert Hits(log, scope) == front;
      }
    }
  }

  // ----- The budget over every window -----

  /** Accepted messages of `scope` whose stamp lies in the closed interval from `lo` to `hi`. */
  function CountIn(log: seq<Accepted>, scope: Scope, lo: real, hi: real): nat {
    if log == [] then 0
    else
      var last := log[|log| - 1];
      CountIn(log[..|log| - 1], scope, lo, hi) + if InScope(last, scope) && lo <= Stamp(last, scope) <= hi then 1 else 0
  }

  /** The limit in force when the last of them was accepted; zero when there is none. */
  function LimitAt(log: seq<Accepted>, scope: Scope, lo: real, hi: real): nat {
    if log == [] then 0
    else
      var last := log[|log| - 1];
      if InScope(last, scope) && lo <= Stamp(last, scope) <= hi then Limit(last.limits, scope)
      else LimitAt(log[..|log| - 1], scope, lo, hi)
  }

  lemma {:induction false} SpentCovers(log: seq<Accepted>, scope: Scope, lo: real, hi: real, now: real)
    requires now - WINDOW <= lo
    ensures CountIn(log, scope, lo, hi) <= Spent(log, scope, now)
  {
    if log != [] {
      var last := log[|log| - 1];
      var front := Hits(log[..|log| - 1], scope);
      SpentCovers(log[..|log| - 1], scope, lo, hi, now);
      if InScope(last, scope) {
        assert Hits(log, scope)[..|front|] == front;
      } else {
        assert Hits(log, scope) == front;
      }
    }
  }

  /**
   * In every run, whatever the limits did meanwhile, a closed 60-second window holds at most as many accepted
   * messages of a sender, of a channel or of the host as the limit that admitted the last of them.
   */
  lemma {:induction false} NoWindowOverflows(log: seq<Accepted>, scope: Scope, lo: real)
    requires Lawful(log)
    ensures CountIn(log, scope, lo, lo + WINDOW) <= LimitAt(log, scope, lo, lo + WINDOW)
  {
    if log != [] {
      var front, last := log[..|log| - 1], log[|log| - 1];
      NoWindowOverflows(front, scope, lo);
      if InScope(last, scope) && lo <= Stamp(last, scope) <= lo + WINDOW {
        SpentCovers(front, scope, lo, lo + WINDOW, Stamp(last, scope));
      }
    }
  }

  lemma {:induction false} SpentCounts(log: seq<Accepted>, scope: Scope, clock: real, now: real)
    requires InOrder(log, clock) && clock <= now
    ensures Spent(log, scope, now) == CountIn(log, scope, now - WINDOW, now)
  {
    if log != [] {
      var front, last := log[..|log| - 1], log[|log| - 1];
      var hits := Hits(front, scope);
      SpentCounts(front, scope, last.at, now);
      if InScope(last, scope) {
        assert Hits(log, scope)[..|hits|] == hits;
      } else {
        assert Hits(log, scope) == hits;
      }
    }
  }

  /** Fewer than `limit` of the scope's messages were accepted in the closed minute that ends now. */
  predicate HasRoom(log: seq<Accepted>, scope: Scope, now: real, limit: nat) {
    CountIn(log, scope, now - WINDOW, now) < limit
  }

  /** A message is turned away exactly when some scope of its own has no room left, and told the smallest of them. */
  lemma {:induction false} RefusedExactly(
      log: seq<Accepted>, connector: string, sender: string, clock: real, now: real, senderNow: real, limits: Limits)
    requires InOrder(log, clock) && clock <= now <= senderNow
    ensures var v := Verdict(log, connector, sender, now, senderNow, limits);
            var own := HasRoom(log, OfSender(connector, sender), senderNow, limits.sender);
            var channel := HasRoom(log, OfChannel(connector), now, limits.channel);
            && (v == None <==> own && channel && HasRoom(log, OfHost, now, limits.host))
            && (v == Some(RateLimited) <==> !own)
            && (v == Some(ChannelRateLimited) <==> own && !channel)
  {
    SpentCounts(log, OfSender(connector, sender), clock, senderNow);
    SpentCounts(log, OfChannel(connector), clock, now);
    SpentCounts(log, OfHost, clock, now);
  }

  /** With fixed limits: never more than the limit in any closed minute. */
  lemma {:induction false} FixedLimitHolds(log: seq<Accepted>, scope: Scope, lo: real, limits: Limits)
    requires Lawful(log) && forall i :: 0 <= i < |log| ==> log[i].limits == limits
    ensures CountIn(log, scope, lo, lo + WINDOW) <= Limit(limits, scope)
  {
    NoWindowOverflows(log, scope, lo);
    FixedLimitAt(log, scope, lo, lo + WINDOW, limits);
  }

  lemma {:induction false} FixedLimitAt(log: seq<Accepted>, scope: Scope, lo: real, hi: real, limits: Limits)
    requires forall i :: 0 <= i < |log| ==> log[i].limits == limits
    ensures LimitAt(log, scope, lo, hi) <= Limit(limits, scope)
  {
    if log != [] {
      FixedLimitAt(log[..|log| - 1], scope, lo, hi, limits);
    }
  }

  /** A flood from others leaves a quiet sender's own budget where it was. */
  lemma {:induction false} OthersNeverSpend(
      log: seq<Accepted>, flood: seq<Accepted>, connector: string, sender: string, now: real)
    requires forall i :: 0 <= i < |flood| ==> !InScope(flood[i], OfSender(connector, sender))
    ensures Spent(log + flood, OfSender(connector, sender), now) == Spent(log, OfSender(connector, sender), now)
  {
    if flood == [] {
      assert log + flood == log;
    } else {
      OthersNeverSpend(log, flood[..|flood| - 1], connector, sender, now);
      assert (log + flood)[..|log + flood| - 1] == log + flood[..|flood| - 1];
      assert Hits(log + flood, OfSender(connector, sender)) ==
             Hits(log + flood[..|flood| - 1], OfSender(connector, sender));
    }
  }

  // ----- The deques -----

  lemma HitsSnoc(log: seq<Accepted>, e: Accepted, scope: Scope)
    ensures Hits(log + [e], scope) ==
            Hits(log, scope) + if InScope(e, scope) then [Stamped(Stamp(e, scope), ())] else []
  {
    assert (log + [e])[..|log|] == log;
  }

  /** The length of a pruned deque is the count over the whole log. */
  lemma {:induction false} PrunedLength(q: seq<Stamped<()>>, log: seq<Accepted>, scope: Scope, clock: real, now: real)
    requires InOrder(log, clock) && clock <= now
    requires Agree(q, Hits(log, scope), clock - WINDOW)
    ensures |Live(q, now - WINDOW)| == Spent(log, scope, now)
  {
    HitsInOrder(log, scope, clock);
    LiveIsSince(Hits(log, scope), now - WINDOW);
  }

  lemma {:induction false} SinceShrinks(hits: seq<Stamped<()>>, early: real, late: real)
    requires early <= late
    ensures |Since(hits, late)| <= |Since(hits, early)|
  {
    if hits != [] {
      SinceShrinks(hits[..|hits| - 1], early, late);
    }
  }

  lemma {:induction false} AcceptedIsLawful(log: seq<Accepted>, clock: real, e: Accepted, senderNow: real)
    requires Lawful(log) && InOrder(log, clock) && clock <= e.at <= senderNow <= e.senderAt
    requires Verdict(log, e.connector, e.sender, e.at, senderNow, e.limits) == None
    ensures Lawful(log + [e]) && InOrder(log + [e], e.senderAt)
  {
    assert (log + [e])[..|log|] == log;
    SinceShrinks(Hits(log, OfSender(e.connector, e.sender)), senderNow - WINDOW, e.senderAt - WINDOW);
    forall scope | InScope(e, scope)
      ensures Spent(log, scope, Stamp(e, scope)) < Limit(e.limits, scope)
    {
      match scope
      case OfSender(c, s) => assert scope == OfSender(e.connector, e.sender);
      case OfChannel(c) => assert scope == OfChannel(e.connector);
      case OfHost =>
    }
  }

  /** What one scope's deque must be after a message is accepted. */
  lemma {:induction false} AgreeAfterAccept(
      q: seq<Stamped<()>>, log: seq<Accepted>, scope: Scope, oldest: real, cutoff: real, e: Accepted)
    requires Agree(q, Hits(log, scope), oldest) && oldest <= cutoff
    ensures Agree(Live(q, cutoff) + if InScope(e, scope) then [Stamped(Stamp(e, scope), ())] else [],
                  Hits(log + [e], scope), cutoff)
  {
    HitsSnoc(log, e, scope);
    AgreeAfterPrune(q, Hits(log, scope), oldest, cutoff);
    if InScope(e, scope) {
      AgreeAfterAppend(Live(q, cutoff), Hits(log, scope), cutoff, Stamped(Stamp(e, scope), ()));
    } else {
      assert Live(q, cutoff) + [] == Live(q, cutoff);
      assert Hits(log, scope) + [] == Hits(log, scope);
    }
  }

  type Buckets<!K> = map<K, seq<Stamped<()>>>

  // Each scope's buckets, standing for the log from `oldest` on.

  ghost predicate SendersAgree(buckets: Buckets<(string, string)>, log: seq<Accepted>, oldest: real) {
    forall k :: Agree(Bucket(buckets, k), Hits(log, OfSender(k.0, k.1)), oldest)
  }

  ghost predicate ChannelsAgree(buckets: Buckets<string>, log: seq<Accepted>, oldest: real) {
    forall c :: Agree(Bucket(buckets, c), Hits(log, OfChannel(c)), oldest)
  }

  lemma {:induction false} SendersPruned(
      before: Buckets<(string, string)>, after: Buckets<(string, string)>, log: seq<Accepted>, oldest: real,
      cutoff: real)
    requires SendersAgree(before, log, oldest) && oldest <= cutoff
    requires forall k :: Bucket(after, k) == Live(Bucket(before, k), cutoff)
    ensures SendersAgree(after, log, cutoff)
  {
    forall k ensures Agree(Bucket(after, k), Hits(log, OfSender(k.0, k.1)), cutoff) {
      AgreeAfterPrune(Bucket(before, k), Hits(log, OfSender(k.0, k.1)), oldest, cutoff);
    }
  }

  lemma {:induction false} SendersAccepted(
      before: Buckets<(string, string)>, after: Buckets<(string, string)>, log: seq<Accepted>, oldest: real,
      cutoff: real, e: Accepted)
    requires SendersAgree(before, log, oldest) && oldest <= cutoff
    requires forall k :: Bucket(after, k) == Live(Bucket(before, k), cutoff) +
                         if k == (e.connector, e.sender) then [Stamped(e.senderAt, ())] else []
    ensures SendersAgree(after, log + [e], cutoff)
  {
    forall k ensures Agree(Bucket(after, k), Hits(log + [e], OfSender(k.0, k.1)), cutoff) {
      AgreeAfterAccept(Bucket(before, k), log, OfSender(k.0, k.1), oldest, cutoff, e);
      assert k == (e.connector, e.sender) <==> InScope(e, OfSender(k.0, k.1));
    }
  }

  lemma {:induction false} ChannelPruned(
      before: Buckets<string>, connector: string, log: seq<Accepted>, oldest: real, cutoff: real)
    requires ChannelsAgree(before, log, oldest) && oldest <= cutoff
    ensures ChannelsAgree(before[connector := Live(Bucket(before, connector), cutoff)], log, cutoff)
  {
    var after := before[connector := Live(Bucket(before, connector), cutoff)];
    forall c ensures Agree(Bucket(after, c), Hits(log, OfChannel(c)), cutoff) {
      AgreeAfterPrune(Bucket(before, c), Hits(log, OfChannel(c)), oldest, cutoff);
    }
  }

  lemma {:induction false} ChannelAccepted(before: Buckets<string>, log: seq<Accepted>, oldest: real, e: Accepted)
    requires ChannelsAgree(before, log, oldest)
    ensures ChannelsAgree(before[e.connector := Bucket(before, e.connector) + [Stamped(e.at, ())]], log + [e], oldest)
  {
    var after := before[e.connector := Bucket(before, e.connector) + [Stamped(e.at, ())]];
    forall c ensures Agree(Bucket(after, c), Hits(log + [e], OfChannel(c)), oldest) {
      HitsSnoc(log, e, OfChannel(c));
      if c == e.connector {
        AgreeAfterAppend(Bucket(before, c), Hits(log, OfChannel(c)), oldest, Stamped(e.at, ()));
      } else {
        assert Hits(log, OfChannel(c)) + [] == Hits(log, OfChannel(c));
      }
    }
  }

  lemma AgreeLater(
      senders: Buckets<(string, string)>, channels: Buckets<string>, host: seq<Stamped<()>>, log: seq<Accepted>,
      oldest: real, later: real)
    requires oldest <= later
    ensures SendersAgree(senders, log, oldest) ==> SendersAgree(senders, log, later)
    ensures ChannelsAgree(channels, log, oldest) ==> ChannelsAgree(channels, log, later)
    ensures Agree(host, Hits(log, OfHost), oldest) ==> Agree(host, Hits(log, OfHost), later)
  {
  }

  class InboundBudgets {
    var senderHits: Buckets<(string, string)>
    var channelHits: Buckets<string>
    var hostHits: seq<Stamped<()>>
    ghost var log: seq<Accepted>
    ghost var clock: real

    /** The deques agree with the log on every window from now on. */
    ghost predicate Valid()
      reads this
    {
      && InOrder(log, clock) && Lawful(log)
      && SendersAgree(senderHits, log, clock - WINDOW)
      && ChannelsAgree(channelHits, log, clock - WINDOW)
      && Agree(hostHits, Hits(log, OfHost), clock - WINDOW)
    }

    constructor (start: real)
      ensures Valid() && log == [] && clock == start
    {
      senderHits, channelHits, hostHits := map[], map[], [];
      log, clock := [], start;
    }

    /** The sweep: every sender's bucket is pruned, and an empty one is forgotten. */
    method Sweep(cutoff: real)
      modifies this`senderHits
      ensures forall k :: Bucket(senderHits, k) == Live(Bucket(old(senderHits), k), cutoff)
      ensures forall k :: k in senderHits ==> senderHits[k] != []
    {
      ghost var before := senderHits;
      var keys := senderHits.Keys;
      while keys != {}
        invariant keys <= senderHits.Keys
        invariant forall k :: k in keys ==> k in before && senderHits[k] == before[k]
        invariant forall k :: k !in keys ==> Bucket(senderHits, k) == Live(Bucket(before, k), cutoff)
        invariant forall k :: k in senderHits && k !in keys ==> senderHits[k] != []
        decreases |keys|
      {
        var key :| key in keys;
        var seen := Prune(senderHits[key], cutoff);
        senderHits := if seen == [] then senderHits - {key} else senderHits[key := seen];
        keys := keys - {key};
      }
    }

    /** `_within_inbound_budget`. */
    method WithinBudget(connector: string, sender: string, now: real, limit: nat, record: bool) returns (ok: bool)
      modifies this`senderHits
      ensures ok == (|Live(Bucket(old(senderHits), (connector, sender)), now - WINDOW)| < limit)
      ensures forall k :: Bucket(senderHits, k) == Live(Bucket(old(senderHits), k), now - WINDOW) +
                          if ok && record && k == (connector, sender) then [Stamped(now, ())] else []
    {
      Sweep(now - WINDOW);
      var key := (connector, sender);
      senderHits := senderHits[key := Bucket(senderHits, key)];
      if |senderHits[key]| >= limit {
        return false;
      }
      if record {
        senderHits := senderHits[key := senderHits[key] + [Stamped(now, ())]];
      }
      return true;
    }

    method SenderSpent(connector: string, sender: string, now: real, limit: nat) returns (spent: bool)
      requires InOrder(log, clock) && SendersAgree(senderHits, log, clock - WINDOW) && clock <= now
      modifies this`senderHits
      ensures SendersAgree(senderHits, log, now - WINDOW)
      ensures spent == (Spent(log, OfSender(connector, sender), now) >= limit)
    {
      PrunedLength(Bucket(senderHits, (connector, sender)), log, OfSender(connector, sender), clock, now);
      var ok := WithinBudget(connector, sender, now, limit, false);
      SendersPruned(old(senderHits), senderHits, log, clock - WINDOW, now - WINDOW);
      spent := !ok;
    }

    method ChannelSpent(connector: string, now: real, limit: nat, ghost later: real) returns (spent: bool)
      requires InOrder(log, clock) && ChannelsAgree(channelHits, log, clock - WINDOW) && clock <= now <= later
      modifies this`channelHits
      ensures ChannelsAgree(channelHits, log, later - WINDOW)
      ensures spent == (Spent(log, OfChannel(connector), now) >= limit)
    {
      PrunedLength(Bucket(channelHits, connector), log, OfChannel(connector), clock, now);
      ChannelPruned(channelHits, connector, log, clock - WINDOW, now - WINDOW);
      var channel := Prune(Bucket(channelHits, connector), now - WINDOW);
      channelHits := channelHits[connector := channel];
      spent := |channel| >= limit;
    }

    method HostSpent(now: real, limit: nat, ghost later: real) returns (spent: bool)
      requires InOrder(log, clock) && Agree(hostHits, Hits(log, OfHost), clock - WINDOW) && clock <= now <= later
      modifies this`hostHits
      ensures Agree(hostHits, Hits(log, OfHost), later - WINDOW)
      ensures spent == (Spent(log, OfHost, now) >= limit)
    {
      PrunedLength(hostHits, log, OfHost, clock, now);
      AgreeAfterPrune(hostHits, Hits(log, OfHost), clock - WINDOW, now - WINDOW);
      hostHits := Prune(hostHits, now - WINDOW);
      spent := |hostHits| >= limit;
    }

    /** The first half of `_inbound_budget_refusal`: prune, and name the smallest budget that is spent. */
    method FindRefusal(connector: string, sender: string, now: real, senderNow: real, limits: Limits)
      returns (refusal: Option<Refusal>)
      requires Valid() && clock <= now <= senderNow
      modifies this
      ensures Valid() && clock == senderNow && log == old(log)
      ensures refusal == Verdict(log, connector, sender, now, senderNow, limits)
    {
      AgreeLater(senderHits, channelHits, hostHits, log, clock - WINDOW, senderNow - WINDOW);
      refusal := None;
      var spent := SenderSpent(connector, sender, senderNow, limits.sender);
      if spent {
        refusal := Some(RateLimited);
      } else {
        spent := ChannelSpent(connector, now, limits.channel, senderNow);
        if spent {
          refusal := Some(ChannelRateLimited);
        } else {
          spent := HostSpent(now, limits.host, senderNow);
          if spent {
            refusal := Some(InboundRateLimited);
          }
        }
      }
      clock := senderNow;
    }

    /** Its second half: one entry in each of the three deques. */
    method Record(connector: string, sender: string, now: real, recordNow: real, limits: Limits)
      requires Valid() && InOrder(log, now) && now <= clock <= recordNow
      requires Verdict(log, connector, sender, now, clock, limits) == None
      modifies this
      ensures Valid() && clock == recordNow
      ensures log == old(log) + [Accepted(connector, sender, now, recordNow, limits)]
    {
      ghost var e := Accepted(connector, sender, now, recordNow, limits);
      RecordSender(connector, sender, recordNow, limits.sender, e);
      ChannelAccepted(channelHits, log, clock - WINDOW, e);
      channelHits := channelHits[connector := Bucket(channelHits, connector) + [Stamped(now, ())]];
      HitsSnoc(log, e, OfHost);
      AgreeAfterAppend(hostHits, Hits(log, OfHost), clock - WINDOW, Stamped(now, ()));
      hostHits := hostHits + [Stamped(now, ())];
      AgreeLater(senderHits, channelHits, hostHits, log + [e], clock - WINDOW, recordNow - WINDOW);
      AcceptedIsLawful(log, now, e, clock);
      log, clock := log + [e], recordNow;
    }

    method RecordSender(connector: string, sender: string, now: real, limit: nat, ghost e: Accepted)
      requires InOrder(log, clock) && SendersAgree(senderHits, log, clock - WINDOW) && clock <= now
      requires Spent(log, OfSender(connector, sender), clock) < limit
      requires e.connector == connector && e.sender == sender && e.senderAt == now
      modifies this`senderHits
      ensures SendersAgree(senderHits, log + [e], now - WINDOW)
    {
      PrunedLength(Bucket(senderHits, (connector, sender)), log, OfSender(connector, sender), clock, now);
      SinceShrinks(Hits(log, OfSender(connector, sender)), clock - WINDOW, now - WINDOW);
      var ok := WithinBudget(connector, sender, now, limit, true);
      SendersAccepted(old(senderHits), senderHits, log, clock - WINDOW, now - WINDOW, e);
    }

    /**
     * `_inbound_budget_refusal`: spend one message from every budget, or name the smallest one that is spent
     * and record nothing. The verdict is read off the pruned deques and equals the one read off the whole log.
     */
    method Spend(connector: string, sender: string, now: real, senderNow: real, recordNow: real, limits: Limits)
      returns (refusal: Option<Refusal>)
      requires Valid() && clock <= now <= senderNow <= recordNow
      modifies this
      ensures Valid() && clock == if refusal == None then recordNow else senderNow
      ensures refusal == Verdict(old(log), connector, sender, now, senderNow, limits)
      ensures log == old(log) + if refusal == None then [Accepted(connector, sender, now, recordNow, limits)] else []
    {
      refusal := FindRefusal(connector, sender, now, senderNow, limits);
      if refusal == None {
        Record(connector, sender, now, recordNow, limits);
      }
    }
  }
}
