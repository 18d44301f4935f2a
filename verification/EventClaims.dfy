/** The claim that makes a provider's retry a duplicate, across any number of requests in flight. */
module EventClaims {
  import opened Options

  /** `CHANNEL_INBOUND_EVENT_TTL_HOURS`, in seconds; stored times are whole seconds. */
  const TTL: int := 48 * 3600

  /** A connector and a provider's event key on it. */
  type Key = (string, string)

  type ReceiptId = nat

  datatype Claim = Claim(receipt: ReceiptId, at: int)

  type Claims = map<Key, Claim>

  /** `DELETE … WHERE created_at < cutoff`. */
  function Purged(claims: Claims, now: int): Claims {
    map k | k in claims && claims[k].at >= now - TTL :: claims[k]
  }

  /** `claim_channel_inbound_event`: the holder of a live claim, or the table with this claim in it. */
  function Claimed(claims: Claims, key: Key, receipt: ReceiptId, now: int, stamp: int): (Claims, Option<ReceiptId>) {
    var live := Purged(claims, now);
    if key in live then (live, Some(live[key].receipt)) else (live[key := Claim(receipt, stamp)], None)
  }

  /** `release_channel_inbound_event`: only the claim this receipt made. */
  function Released(claims: Claims, key: Key, receipt: ReceiptId): Claims {
    if key in claims && claims[key].receipt == receipt then claims - {key} else claims
  }

  // ----- Messages in flight -----

  datatype Pc =
    | Won(key: Key, at: int)
    | Accepted(key: Key, at: int)
    | Refused(key: Key, at: int)
    | Duplicate(key: Key, first: ReceiptId)

  predicate Holding(pc: Pc) { pc.Won? || pc.Accepted? }

  datatype State = State(claims: Claims, pcs: map<ReceiptId, Pc>, clock: int)

  /**
   * A message claims its event and is then accepted, or refused and its claim given back. The clock is read twice, the
   * first time before the table is locked: another process may claim in between.
   */
  datatype Step = Arrive(r: ReceiptId, key: Key, now: int, stamp: int) | Accept(r: ReceiptId) | Refuse(r: ReceiptId)

  predicate Enabled(s: State, step: Step) {
    match step
    case Arrive(r, _, now, stamp) => r !in s.pcs && now <= stamp && s.clock <= stamp
    case Accept(r) => r in s.pcs && s.pcs[r].Won?
    case Refuse(r) => r in s.pcs && s.pcs[r].Won?
  }

  function Apply(s: State, step: Step): State
    requires Enabled(s, step)
  {
    match step
    case Arrive(r, key, now, stamp) =>
      var (claims, first) := Claimed(s.claims, key, r, now, stamp);
      State(claims, s.pcs[r := if first == None then Won(key, stamp) else Duplicate(key, first.value)], stamp)
    case Accept(r) => s.(pcs := s.pcs[r := Accepted(s.pcs[r].key, s.pcs[r].at)])
    case Refuse(r) =>
      s.(claims := Released(s.claims, s.pcs[r].key, r), pcs := s.pcs[r := Refused(s.pcs[r].key, s.pcs[r].at)])
  }

  ghost predicate IsRun(s: State, steps: seq<Step>)
    decreases |steps|
  {
    steps == [] || (Enabled(s, steps[0]) && IsRun(Apply(s, steps[0]), steps[1..]))
  }

  ghost function After(s: State, steps: seq<Step>): State
    requires IsRun(s, steps)
    decreases |steps|
  {
    if steps == [] then s else After(Apply(s, steps[0]), steps[1..])
  }

  const EMPTY := State(map[], map[], 0)

  // ----- What every step keeps -----

  /** A row in the table is the claim of a message that holds its event. */
  ghost predicate ClaimOk(s: State, k: Key)
    requires k in s.claims
  {
    var c := s.claims[k];
    && c.receipt in s.pcs && Holding(s.pcs[c.receipt]) && s.pcs[c.receipt].key == k
    && s.pcs[c.receipt].at == c.at && c.at <= s.clock
  }

  /** A message that holds its event has its row, or the row has outlived its time. */
  ghost predicate PcOk(s: State, r: ReceiptId)
    requires r in s.pcs
  {
    var pc := s.pcs[r];
    Holding(pc) ==>
      (pc.key in s.claims && s.claims[pc.key] == Claim(r, pc.at)) || pc.at < s.clock - TTL
  }

  ghost predicate Apart(s: State, r: ReceiptId, v: ReceiptId)
    requires r in s.pcs && v in s.pcs
  {
    Holding(s.pcs[r]) && Holding(s.pcs[v]) && s.pcs[r].key == s.pcs[v].key && r != v ==>
      s.pcs[r].at - s.pcs[v].at > TTL || s.pcs[v].at - s.pcs[r].at > TTL
  }

  ghost predicate AllApart(s: State) { forall r, v :: r in s.pcs && v in s.pcs ==> Apart(s, r, v) }

  /** A duplicate was answered with a message that had won the same event. */
  ghost predicate DuplicateOk(s: State, r: ReceiptId)
    requires r in s.pcs
  {
    s.pcs[r].Duplicate? ==>
      s.pcs[r].first in s.pcs && !s.pcs[s.pcs[r].first].Duplicate? && s.pcs[s.pcs[r].first].key == s.pcs[r].key
  }

  ghost predicate Inv(s: State) {
    && (forall k :: k in s.claims ==> ClaimOk(s, k))
    && (forall r :: r in s.pcs ==> PcOk(s, r))
    && (forall r :: r in s.pcs ==> DuplicateOk(s, r))
    && AllApart(s)
  }

  lemma ArriveKeeps(s: State, r: ReceiptId, key: Key, now: int, stamp: int)
    requires Inv(s) && Enabled(s, Arrive(r, key, now, stamp))
    ensures Inv(Apply(s, Arrive(r, key, now, stamp)))
  {
    var t := Apply(s, Arrive(r, key, now, stamp));
    var live := Purged(s.claims, now);
    forall k | k in t.claims ensures ClaimOk(t, k) {
      if k in s.claims { assert ClaimOk(s, k); }
    }
    forall v | v in t.pcs ensures PcOk(t, v) && DuplicateOk(t, v) {
      if v != r {
        assert PcOk(s, v) && DuplicateOk(s, v);
      } else if key in live {
        assert ClaimOk(s, key);
      }
    }
    forall u, v | u in t.pcs && v in t.pcs ensures Apart(t, u, v) {
      if u in s.pcs && v in s.pcs {
        assert u != r && v != r && Apart(s, u, v);
      } else {
        if u in s.pcs { assert PcOk(s, u); }
        if v in s.pcs { assert PcOk(s, v); }
      }
    }
  }

  lemma AcceptKeeps(s: State, r: ReceiptId)
    requires Inv(s) && Enabled(s, Accept(r))
    ensures Inv(Apply(s, Accept(r)))
  {
    var t := Apply(s, Accept(r));
    forall k | k in t.claims ensures ClaimOk(t, k) { assert ClaimOk(s, k); }
    forall v | v in t.pcs ensures PcOk(t, v) && DuplicateOk(t, v) { assert PcOk(s, v) && DuplicateOk(s, v); }
    forall u, v | u in t.pcs && v in t.pcs ensures Apart(t, u, v) { assert Apart(s, u, v); }
  }

  lemma RefuseKeeps(s: State, r: ReceiptId)
    requires Inv(s) && Enabled(s, Refuse(r))
    ensures Inv(Apply(s, Refuse(r)))
  {
    var t := Apply(s, Refuse(r));
    assert PcOk(s, r);
    forall k | k in t.claims ensures ClaimOk(t, k) { assert ClaimOk(s, k); }
    forall v | v in t.pcs ensures PcOk(t, v) && DuplicateOk(t, v) { assert PcOk(s, v) && DuplicateOk(s, v); }
    forall u, v | u in t.pcs && v in t.pcs ensures Apart(t, u, v) { assert Apart(s, u, v); }
  }

  lemma StepKeeps(s: State, step: Step)
    requires Inv(s) && Enabled(s, step)
    ensures Inv(Apply(s, step))
  {
    match step
    case Arrive(r, key, now, stamp) => ArriveKeeps(s, r, key, now, stamp);
    case Accept(r) => AcceptKeeps(s, r);
    case Refuse(r) => RefuseKeeps(s, r);
  }

  lemma {:induction false} RunKeeps(s: State, steps: seq<Step>)
    requires Inv(s) && IsRun(s, steps)
    ensures Inv(After(s, steps))
    decreases |steps|
  {
    if steps != [] {
      StepKeeps(s, steps[0]);
      RunKeeps(Apply(s, steps[0]), steps[1..]);
    }
  }

  // ----- Main results -----

  /** Two accepted messages of one event claimed it more than the claim's lifetime apart. */
  lemma {:induction false} OneAcceptedPerLifetime(steps: seq<Step>, r: ReceiptId, v: ReceiptId)
    requires IsRun(EMPTY, steps)
    requires r in After(EMPTY, steps).pcs && v in After(EMPTY, steps).pcs && r != v
    requires After(EMPTY, steps).pcs[r].Accepted? && After(EMPTY, steps).pcs[v].Accepted?
    requires After(EMPTY, steps).pcs[r].key == After(EMPTY, steps).pcs[v].key
    ensures var t := After(EMPTY, steps);
            t.pcs[r].at - t.pcs[v].at > TTL || t.pcs[v].at - t.pcs[r].at > TTL
  {
    RunKeeps(EMPTY, steps);
    assert Apart(After(EMPTY, steps), r, v);
  }

  /** And that far apart one event is accepted twice: "at most once ever" fails at exactly the claim's lifetime. */
  lemma {:induction false} TwiceWhenFarApart(key: Key, first: nat, second: nat) returns (steps: seq<Step>)
    requires first <= second
    ensures IsRun(EMPTY, steps)
    ensures var t := After(EMPTY, steps);
            0 in t.pcs && t.pcs[0] == Accepted(key, first) && 1 in t.pcs &&
            (t.pcs[1] == Accepted(key, second) <==> second - first > TTL)
  {
    var s1 := State(map[key := Claim(0, first)], map[0 := Won(key, first)], first);
    assert Apply(EMPTY, Arrive(0, key, first, first)) == s1;
    var s2 := s1.(pcs := map[0 := Accepted(key, first)]);
    assert Apply(s1, Accept(0)) == s2;
    var arrive := Arrive(1, key, second, second);
    var s3 := Apply(s2, arrive);
    if second - first > TTL {
      assert s3.pcs[1] == Won(key, second);
      steps := [Arrive(0, key, first, first), Accept(0), arrive, Accept(1)];
      LastSteps(s2, arrive, [Accept(1)]);
      assert steps[1..][1..] == [arrive] + [Accept(1)];
    } else {
      assert s3.pcs[1] == Duplicate(key, 0);
      steps := [Arrive(0, key, first, first), Accept(0), arrive];
      LastSteps(s2, arrive, []);
      assert steps[1..][1..] == [arrive] + [];
    }
  }

  lemma LastSteps(s: State, step: Step, rest: seq<Step>)
    requires Enabled(s, step)
    requires rest == [] || (|rest| == 1 && Enabled(Apply(s, step), rest[0]))
    ensures IsRun(s, [step] + rest)
    ensures After(s, [step] + rest) == if rest == [] then Apply(s, step) else Apply(Apply(s, step), rest[0])
  {
    assert ([step] + rest)[1..] == rest;
    if rest != [] {
      assert rest[1..] == [];
      assert After(Apply(s, step), rest) == After(Apply(Apply(s, step), rest[0]), []);
    }
  }

  /**
   * A refused message's event is free at once for its provider's retry, unless another message's claim has outlived its
   * own.
   */
  lemma {:induction false} RefusalFreesTheEvent(s: State, r: ReceiptId, retry: ReceiptId, now: int, stamp: int)
    requires Inv(s) && Enabled(s, Refuse(r)) && retry !in s.pcs && now <= stamp && s.clock <= stamp
    ensures var key := s.pcs[r].key;
            Apply(Apply(s, Refuse(r)), Arrive(retry, key, now, stamp)).pcs[retry] == Won(key, stamp) <==>
            !(key in Purged(s.claims, now) && s.claims[key].receipt != r)
  {
  }

  /** A refusal never gives back another message's claim. */
  lemma {:induction false} RefusalSparesOthers(s: State, r: ReceiptId, k: Key)
    requires Enabled(s, Refuse(r)) && k in s.claims && s.claims[k].receipt != r
    ensures k in Apply(s, Refuse(r)).claims && Apply(s, Refuse(r)).claims[k] == s.claims[k]
  {
  }

  // ----- Duplicates of accepted messages -----

  /** Nothing comes between a message's claim and its acceptance or refusal: the route does not yield there. */
  ghost predicate Prompt(s: State, step: Step) {
    forall r :: r in s.pcs && s.pcs[r].Won? ==> step == Accept(r) || step == Refuse(r)
  }

  ghost predicate IsPromptRun(s: State, steps: seq<Step>)
    decreases |steps|
  {
    steps == [] || (Enabled(s, steps[0]) && Prompt(s, steps[0]) && IsPromptRun(Apply(s, steps[0]), steps[1..]))
  }

  /** Answered as a repeat of a message that was accepted. */
  ghost predicate Honest(s: State, r: ReceiptId)
    requires r in s.pcs
  {
    s.pcs[r].Duplicate? ==> s.pcs[r].first in s.pcs && s.pcs[s.pcs[r].first].Accepted?
  }

  ghost predicate AllHonest(s: State) { forall r :: r in s.pcs ==> Honest(s, r) }

  lemma PromptStepStaysHonest(s: State, step: Step)
    requires Inv(s) && AllHonest(s) && Enabled(s, step) && Prompt(s, step)
    ensures AllHonest(Apply(s, step))
  {
    var t := Apply(s, step);
    forall r | r in t.pcs ensures Honest(t, r) {
      if r in s.pcs {
        assert Honest(s, r);
      } else if t.pcs[r].Duplicate? {
        assert ClaimOk(s, step.key);
      }
    }
  }

  /** On one event loop every duplicate repeats a message that was accepted. */
  lemma {:induction false} DuplicatesRepeatAccepted(s: State, steps: seq<Step>)
    requires Inv(s) && AllHonest(s) && IsPromptRun(s, steps)
    ensures IsRun(s, steps) && AllHonest(After(s, steps))
    decreases |steps|
  {
    if steps != [] {
      StepKeeps(s, steps[0]);
      PromptStepStaysHonest(s, steps[0]);
      DuplicatesRepeatAccepted(Apply(s, steps[0]), steps[1..]);
    }
  }

  /**
   * Between two processes it need not: the repeat of a message still undecided can be told "accepted", and the message
   * then be refused.
   */
  lemma {:induction false} DuplicateExactlyHonest(s: State, r: ReceiptId, key: Key, now: int, stamp: int)
    requires Inv(s) && Enabled(s, Arrive(r, key, now, stamp)) && key in Purged(s.claims, now)
    ensures var first := s.claims[key].receipt;
            var t := Apply(s, Arrive(r, key, now, stamp));
            && first in s.pcs && t.pcs[r] == Duplicate(key, first)
            && (s.pcs[first].Accepted? ==> Honest(t, r))
            && (!s.pcs[first].Accepted? ==> Enabled(t, Refuse(first)) && !Honest(Apply(t, Refuse(first)), r))
  {
    assert ClaimOk(s, key);
  }
}
