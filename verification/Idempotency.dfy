/** Owner-scoped, payload-bound idempotency keys: one table, many requests. */
module Idempotency {
  import opened Options

  /** `KEY_TTL_HOURS` in seconds. Stored stamps are whole seconds, and so is every comparison with them. */
  const KEY_TTL: int := 24 * 3600

  datatype RowKey = RowKey(owner: string, scope: string, key: string)

  datatype Row = Row(digest: string, answer: Option<string>, createdAt: int)

  type Table = map<RowKey, Row>

  datatype Begun = Proceed | Replay(answer: string) | KeyInvalid | KeyReused | KeyInProgress

  predicate KeyChar(c: char) {
    'A' <= c <= 'Z' || 'a' <= c <= 'z' || '0' <= c <= '9' || c in "_.:-"
  }

  predicate ValidKey(key: string) {
    8 <= |key| <= 128 && forall i :: 0 <= i < |key| ==> KeyChar(key[i])
  }

  // ----- The three database blocks -----

  function Purge(rows: Table, cutoff: int): Table {
    map k | k in rows && rows[k].createdAt >= cutoff :: rows[k]
  }

  function Reserve(rows: Table, k: RowKey, digest: string, readAt: int, stampedAt: int): Table {
    var live := Purge(rows, readAt - KEY_TTL);
    if k in live then live else live[k := Row(digest, None, stampedAt)]
  }

  function Answer(rows: Table, k: RowKey, digest: string, readAt: int): Begun {
    var live := Purge(rows, readAt - KEY_TTL);
    if k !in live then Proceed
    else if live[k].digest != digest then KeyReused
    else if live[k].answer == None then KeyInProgress
    else Replay(live[k].answer.value)
  }

  function Record(rows: Table, k: RowKey, answer: string): Table {
    if k in rows then rows[k := rows[k].(answer := Some(answer))] else rows
  }

  function Release(rows: Table, k: RowKey): Table {
    if k in rows && rows[k].answer == None then rows - {k} else rows
  }

  // ----- The guard, as the source's class -----

  class KeyStore {
    var rows: Table

    constructor ()
      ensures rows == map[]
    {
      rows := map[];
    }
  }

  class IdempotencyGuard {
    const store: KeyStore
    const owner: string
    const scope: string
    const key: Option<string>
    var reserved: bool

    constructor (store: KeyStore, owner: string, scope: string, key: Option<string>)
      ensures this.store == store && this.owner == owner && this.scope == scope && this.key == key
      ensures !reserved
    {
      this.store, this.owner, this.scope, this.key := store, owner, scope, key;
      reserved := false;
    }

    function Name(): RowKey
      requires key.Some?
    {
      RowKey(owner, scope, key.value)
    }

    method Begin(digest: string, readAt: int, stampedAt: int) returns (begun: Begun)
      modifies this`reserved, store`rows
      ensures key == None ==> begun == Proceed && unchanged(this) && unchanged(store)
      ensures key.Some? && !ValidKey(key.value) ==> begun == KeyInvalid && unchanged(this) && unchanged(store)
      ensures key.Some? && ValidKey(key.value) ==>
                && begun == Answer(old(store.rows), Name(), digest, readAt)
                && store.rows == Reserve(old(store.rows), Name(), digest, readAt, stampedAt)
                && reserved == (old(reserved) || begun == Proceed)
    {
      if key == None {
        return Proceed;
      }
      if !ValidKey(key.value) {
        return KeyInvalid;
      }
      store.rows := map k | k in store.rows && store.rows[k].createdAt >= readAt - KEY_TTL :: store.rows[k];
      if Name() !in store.rows {
        store.rows := store.rows[Name() := Row(digest, None, stampedAt)];
        reserved := true;
        return Proceed;
      }
      var row := store.rows[Name()];
      if row.digest != digest {
        return KeyReused;
      }
      if row.answer == None {
        return KeyInProgress;
      }
      return Replay(row.answer.value);
    }

    method Complete(answer: string)
      requires reserved ==> key.Some?
      modifies store`rows
      ensures store.rows == if reserved then Record(old(store.rows), Name(), answer) else old(store.rows)
    {
      if !reserved {
        return;
      }
      if Name() in store.rows {
        store.rows := store.rows[Name() := store.rows[Name()].(answer := Some(answer))];
      }
    }

    method Abandon()
      requires reserved ==> key.Some?
      modifies this`reserved, store`rows
      ensures !reserved
      ensures store.rows == if old(reserved) then Release(old(store.rows), Name()) else old(store.rows)
    {
      if !reserved {
        return;
      }
      if Name() in store.rows && store.rows[Name()].answer == None {
        store.rows := store.rows - {Name()};
      }
      reserved := false;
    }
  }

  // ----- Many guards, interleaved at block granularity -----

  /** A request that reserved its key: what it recorded, and whether it has released. */
  datatype Request = Request(key: RowKey, digest: string, reservedAt: int, recorded: Option<string>, released: bool) {
    /** It is creating, or it has created. */
    predicate Holds() {
      !released || recorded.Some?
    }

    predicate Expired(now: int) {
      now > reservedAt + KEY_TTL
    }

    function AsRow(): Row {
      Row(digest, recorded, reservedAt)
    }
  }

  /** `holder` names the request whose INSERT made each row. */
  datatype State = State(rows: Table, holder: map<RowKey, int>, requests: map<int, Request>, now: int)

  datatype Step =
    | Begin(id: int, key: RowKey, digest: string, readAt: int, at: int)
    | Complete(id: int, answer: string, at: int)
    | Abandon(id: int, at: int)

  const START := State(map[], map[], map[], 0)

  predicate Enabled(s: State, step: Step) {
    && s.now <= step.at
    && match step
       case Begin(id, _, _, readAt, at) => id !in s.requests && readAt <= at
       case _ => step.id in s.requests && !s.requests[step.id].released
  }

  /** A request settles its key while the row it inserted cannot have been purged. */
  predicate Timely(s: State, step: Step)
    requires Enabled(s, step)
  {
    step.Begin? || !s.requests[step.id].Expired(step.at)
  }

  function Apply(s: State, step: Step): State
    requires Enabled(s, step)
  {
    match step
    case Begin(id, k, digest, readAt, at) =>
      var rows := Reserve(s.rows, k, digest, readAt, at);
      if Answer(s.rows, k, digest, readAt) == Proceed then
        State(rows, (map r | r in rows && r in s.holder :: s.holder[r])[k := id],
              s.requests[id := Request(k, digest, at, None, false)], at)
      else
        State(rows, map r | r in rows && r in s.holder :: s.holder[r], s.requests, at)
    case Complete(id, answer, at) =>
      var r := s.requests[id];
      State(Record(s.rows, r.key, answer), s.holder, s.requests[id := r.(recorded := Some(answer))], at)
    case Abandon(id, at) =>
      var r := s.requests[id];
      var rows := Release(s.rows, r.key);
      State(rows, map k | k in rows && k in s.holder :: s.holder[k], s.requests[id := r.(released := true)], at)
  }

  ghost predicate IsRun(s: State, steps: seq<Step>)
    decreases |steps|
  {
    steps == [] || (Enabled(s, steps[0]) && IsRun(Apply(s, steps[0]), steps[1..]))
  }

  ghost predicate IsTimelyRun(s: State, steps: seq<Step>)
    decreases |steps|
  {
    steps == [] ||
    (Enabled(s, steps[0]) && Timely(s, steps[0]) && IsTimelyRun(Apply(s, steps[0]), steps[1..]))
  }

  function After(s: State, steps: seq<Step>): State
    requires IsRun(s, steps)
    decreases |steps|
  {
    if steps == [] then s else After(Apply(s, steps[0]), steps[1..])
  }

  /** Every row is the reservation of the request that holds it, answer and all. */
  ghost predicate RowsAreTheirs(s: State) {
    && s.holder.Keys == s.rows.Keys
    && forall k :: k in s.rows ==>
         && s.holder[k] in s.requests
         && s.requests[s.holder[k]].key == k && s.requests[s.holder[k]].Holds()
         && s.rows[k] == s.requests[s.holder[k]].AsRow()
  }

  /** A request that holds its key and has not expired still has its row. */
  ghost predicate HoldersHaveRows(s: State) {
    forall id :: id in s.requests ==>
      && s.requests[id].reservedAt <= s.now
      && (s.requests[id].Holds() && !s.requests[id].Expired(s.now) ==>
            s.requests[id].key in s.holder && s.holder[s.requests[id].key] == id)
  }

  /** Of two requests that hold the same key, one reserved it after the other's had expired. */
  ghost predicate HoldersAreApart(s: State) {
    forall i, j :: i in s.requests && j in s.requests && i != j && s.requests[i].key == s.requests[j].key &&
                   s.requests[i].Holds() && s.requests[j].Holds() ==>
      || s.requests[i].Expired(s.requests[j].reservedAt)
      || s.requests[j].Expired(s.requests[i].reservedAt)
  }

  ghost predicate Inv(s: State) {
    RowsAreTheirs(s) && HoldersHaveRows(s) && HoldersAreApart(s)
  }

  /** The answer a request gets while another holds its key and has not expired. */
  lemma HeldKeyAnswers(s: State, step: Step, id: int)
    requires Inv(s) && step.Begin? && Enabled(s, step)
    requires id in s.requests && s.requests[id].key == step.key && s.requests[id].Holds()
    requires !s.requests[id].Expired(step.at)
    ensures var r := s.requests[id];
            Answer(s.rows, step.key, step.digest, step.readAt) ==
            if r.digest != step.digest then KeyReused
            else if r.recorded == None then KeyInProgress
            else Replay(r.recorded.value)
  {
    assert s.holder[step.key] == id;
  }

  /** Whoever held the key a request reserves has expired. */
  lemma ReservesAfterExpiry(s: State, step: Step, id: int)
    requires Inv(s) && step.Begin? && Enabled(s, step)
    requires Answer(s.rows, step.key, step.digest, step.readAt) == Proceed
    requires id in s.requests && s.requests[id].key == step.key && s.requests[id].Holds()
    ensures s.requests[id].Expired(step.at)
  {
    if !s.requests[id].Expired(step.at) {
      HeldKeyAnswers(s, step, id);
    }
  }

  lemma BeginKeepsRows(s: State, step: Step)
    requires Inv(s) && step.Begin? && Enabled(s, step)
    ensures RowsAreTheirs(Apply(s, step))
  {
  }

  lemma BeginKeepsHolders(s: State, step: Step)
    requires Inv(s) && step.Begin? && Enabled(s, step)
    ensures HoldersHaveRows(Apply(s, step)) && HoldersAreApart(Apply(s, step))
  {
    if Answer(s.rows, step.key, step.digest, step.readAt) == Proceed {
      forall id | id in s.requests && s.requests[id].key == step.key && s.requests[id].Holds()
        ensures s.requests[id].Expired(step.at)
      {
        ReservesAfterExpiry(s, step, id);
      }
    }
  }

  lemma BeginKeepsInv(s: State, step: Step)
    requires Inv(s) && step.Begin? && Enabled(s, step)
    ensures Inv(Apply(s, step))
  {
    BeginKeepsRows(s, step);
    BeginKeepsHolders(s, step);
  }

  lemma CompleteKeepsInv(s: State, step: Step)
    requires Inv(s) && step.Complete? && Enabled(s, step) && Timely(s, step)
    ensures Inv(Apply(s, step))
  {
  }

  lemma AbandonKeepsInv(s: State, step: Step)
    requires Inv(s) && step.Abandon? && Enabled(s, step) && Timely(s, step)
    ensures Inv(Apply(s, step))
  {
  }

  lemma {:induction false} TimelyRunsKeepInv(s: State, steps: seq<Step>)
    requires Inv(s) && IsTimelyRun(s, steps)
    ensures IsRun(s, steps) && Inv(After(s, steps))
    decreases |steps|
  {
    if steps != [] {
      match steps[0] {
        case Begin(_, _, _, _, _) => BeginKeepsInv(s, steps[0]);
        case Complete(_, _, _) => CompleteKeepsInv(s, steps[0]);
        case Abandon(_, _) => AbandonKeepsInv(s, steps[0]);
      }
      TimelyRunsKeepInv(Apply(s, steps[0]), steps[1..]);
    }
  }

  // ----- Main results -----

  /**
   * In every timely run, two requests that are creating or have created under one key
   * reserved it more than the TTL apart: a double click never creates twice.
   */
  lemma {:induction false} OneCreationPerKey(steps: seq<Step>, i: int, j: int)
    requires IsTimelyRun(START, steps)
    ensures IsRun(START, steps)
    ensures var s := After(START, steps);
            i in s.requests && j in s.requests && i != j && s.requests[i].key == s.requests[j].key &&
            s.requests[i].Holds() && s.requests[j].Holds() ==>
            || s.requests[i].reservedAt + KEY_TTL < s.requests[j].reservedAt
            || s.requests[j].reservedAt + KEY_TTL < s.requests[i].reservedAt
  {
    TimelyRunsKeepInv(START, steps);
  }

  /** A replayed answer was recorded by a request with the same key and the same payload. */
  lemma {:induction false} ReplaysAreGenuine(steps: seq<Step>, retry: Step) returns (id: int)
    requires IsTimelyRun(START, steps) && IsRun(START, steps)
    requires retry.Begin? && Enabled(After(START, steps), retry)
    requires Answer(After(START, steps).rows, retry.key, retry.digest, retry.readAt).Replay?
    ensures var s := After(START, steps);
            && id in s.requests && s.requests[id].key == retry.key && s.requests[id].digest == retry.digest
            && s.requests[id].recorded == Some(Answer(s.rows, retry.key, retry.digest, retry.readAt).answer)
  {
    TimelyRunsKeepInv(START, steps);
    id := After(START, steps).holder[retry.key];
  }

  /** Until it expires, every retry of a finished request gets its answer, and another payload is refused. */
  lemma {:induction false} RetriesGetTheAnswer(steps: seq<Step>, retry: Step, id: int)
    requires IsTimelyRun(START, steps) && IsRun(START, steps)
    requires retry.Begin? && Enabled(After(START, steps), retry)
    requires id in After(START, steps).requests
    requires var r := After(START, steps).requests[id];
             r.key == retry.key && r.recorded.Some? && !r.Expired(retry.at)
    ensures var r := After(START, steps).requests[id];
            Answer(After(START, steps).rows, retry.key, retry.digest, retry.readAt) ==
            if r.digest == retry.digest then Replay(r.recorded.value) else KeyReused
  {
    TimelyRunsKeepInv(START, steps);
    HeldKeyAnswers(After(START, steps), retry, id);
  }

  /** Whatever the state, releasing a key removes no recorded answer. */
  lemma AbandonKeepsAnswers(s: State, step: Step, k: RowKey)
    requires step.Abandon? && Enabled(s, step)
    ensures k in s.rows && s.rows[k].answer.Some? ==> k in Apply(s, step).rows && Apply(s, step).rows[k] == s.rows[k]
  {
  }

  // ----- Why the runs must be timely -----

  lemma {:induction false} RunOfThree(s: State, a: Step, b: Step, c: Step)
    requires Enabled(s, a) && Enabled(Apply(s, a), b)
    ensures IsRun(s, [a, b]) && After(s, [a, b]) == Apply(Apply(s, a), b)
    ensures Enabled(Apply(Apply(s, a), b), c) ==>
              IsRun(s, [a, b, c]) && After(s, [a, b, c]) == Apply(Apply(Apply(s, a), b), c)
  {
    var s1 := Apply(s, a);
    var s2 := Apply(s1, b);
    assert [a, b][1..] == [b] && [b][1..] == [];
    assert IsRun(s2, []) && IsRun(s1, [b]) && After(s1, [b]) == s2;
    if Enabled(s2, c) {
      assert [a, b, c][1..] == [b, c] && [b, c][1..] == [c] && [c][1..] == [];
      assert IsRun(Apply(s2, c), []) && IsRun(s2, [c]) && After(s2, [c]) == Apply(s2, c);
      assert IsRun(s1, [b, c]) && After(s1, [b, c]) == Apply(s2, c);
    }
  }

  /** The rows a request that begins at `at` finds. */
  function Live(s: State, at: int): Table { Purge(s.rows, at - KEY_TTL) }

  /**
   * `complete` names only the key. Once nobody's row for it is live, a second request may hold the key with another
   * payload, and completing the first makes its answer the second payload's replay.
   */
  lemma {:induction false} LateCompletionPoisons(
      s: State, late: int, at: int, second: int, digest: string, answer: string)
    requires s.now <= at && second !in s.requests && late in s.requests && !s.requests[late].released
    requires digest != s.requests[late].digest && s.requests[late].key !in Live(s, at)
    ensures var k := s.requests[late].key;
            var run := [Begin(second, k, digest, at, at), Complete(late, answer, at)];
            && IsRun(s, run)
            && second in After(s, run).requests && After(s, run).requests[second].recorded == None
            && Answer(After(s, run).rows, k, digest, at) == Replay(answer)
  {
    var k := s.requests[late].key;
    var begin, complete := Begin(second, k, digest, at, at), Complete(late, answer, at);
    assert Apply(s, begin).rows[k] == Row(digest, None, at);
    RunOfThree(s, begin, complete, complete);
  }

  /** Completing `late` at `at` makes its answer the replay of a payload it was not given for. */
  ghost predicate Poisons(s: State, late: int, at: int, second: int, digest: string, answer: string)
    requires late in s.requests
  {
    var k := s.requests[late].key;
    var run := [Begin(second, k, digest, at, at), Complete(late, answer, at)];
    && digest != s.requests[late].digest
    && IsRun(s, run) && Answer(After(s, run).rows, k, digest, at) == Replay(answer)
  }

  /** The request no longer has its row. */
  lemma ExpiredHasNoRow(s: State, late: int, at: int)
    requires Inv(s) && s.now <= at && late in s.requests && s.requests[late].Holds()
    ensures var r := s.requests[late];
            if r.Expired(at) then r.key in Live(s, at) ==> s.holder[r.key] != late
            else r.key in Live(s, at) && Live(s, at)[r.key] == r.AsRow()
  {
  }

  /** A live row of another payload takes the answer. */
  lemma {:induction false} PoisonsLiveRow(s: State, late: int, at: int, second: int, answer: string)
    requires s.now <= at && late in s.requests && !s.requests[late].released && second !in s.requests
    requires s.requests[late].key in Live(s, at)
    requires s.rows[s.requests[late].key].digest != s.requests[late].digest
    ensures Poisons(s, late, at, second, s.rows[s.requests[late].key].digest, answer)
  {
    var k := s.requests[late].key;
    var begin, complete := Begin(second, k, s.rows[k].digest, at, at), Complete(late, answer, at);
    assert Apply(s, begin).rows[k] == s.rows[k];
    RunOfThree(s, begin, complete, complete);
  }

  lemma {:induction false} SamePayloadIsSafe(s: State, late: int, at: int, second: int, digest: string, answer: string)
    requires s.now <= at && late in s.requests && s.requests[late].key in Live(s, at)
    requires s.rows[s.requests[late].key].digest == s.requests[late].digest
    ensures !Poisons(s, late, at, second, digest, answer)
  {
    var k := s.requests[late].key;
    var begin, complete := Begin(second, k, digest, at, at), Complete(late, answer, at);
    if digest != s.requests[late].digest && IsRun(s, [begin, complete]) {
      assert [begin, complete][1..] == [complete];
      assert IsRun(Apply(s, begin), [complete]);
      RunOfThree(s, begin, complete, complete);
      assert Apply(Apply(s, begin), complete).rows[k].digest == s.rows[k].digest;
    }
  }

  /**
   * A completion can be poisoned by another request exactly when it comes after the expiry and no live row for its own
   * payload stands under the key (`spare` is any unused id).
   */
  lemma {:induction false} PoisonedExactlyWhenLate(s: State, late: int, at: int, spare: int)
    requires Inv(s) && s.now <= at && late in s.requests && !s.requests[late].released && spare !in s.requests
    ensures (exists second, digest, answer :: Poisons(s, late, at, second, digest, answer)) <==>
            var r := s.requests[late];
            r.Expired(at) && !(r.key in Live(s, at) && s.rows[r.key].digest == r.digest)
  {
    var r := s.requests[late];
    ExpiredHasNoRow(s, late, at);
    if r.key !in Live(s, at) {
      LateCompletionPoisons(s, late, at, spare, r.digest + "'", "answer");
      assert Poisons(s, late, at, spare, r.digest + "'", "answer");
    } else if s.rows[r.key].digest != r.digest {
      PoisonsLiveRow(s, late, at, spare, "answer");
    } else {
      forall second, digest, answer ensures !Poisons(s, late, at, second, digest, answer) {
        SamePayloadIsSafe(s, late, at, second, digest, answer);
      }
    }
  }

  // ----- Abandoning late -----

  /** Two requests begin under the key of `late` at `at`, and `late` abandons in between. */
  function AbandonRun(s: State, late: int, at: int, second: int, third: int, digest: string): seq<Step>
    requires late in s.requests
  {
    var k := s.requests[late].key;
    [Begin(second, k, digest, at, at), Abandon(late, at), Begin(third, k, digest, at, at)]
  }

  /** Somebody else is creating under the key, and its lifetime is not over. */
  ghost predicate AnotherCreates(s: State, third: int, k: RowKey, at: int) {
    exists j :: j in s.requests && j != third && s.requests[j].key == k &&
      !s.requests[j].released && s.requests[j].recorded == None && !s.requests[j].Expired(at)
  }

  /** The abandon lets the third request create while another still does. */
  ghost predicate Doubles(s: State, late: int, at: int, second: int, third: int, digest: string)
    requires late in s.requests
  {
    var run := AbandonRun(s, late, at, second, third, digest);
    && third !in s.requests && third != second && IsRun(s, run)
    && third in After(s, run).requests && AnotherCreates(After(s, run), third, s.requests[late].key, at)
  }

  /** `abandon` too names only the key: it frees another request's reservation while that one is creating. */
  lemma {:induction false} LateAbandonFreesAnother(
      s: State, late: int, at: int, second: int, third: int, digest: string)
    requires s.now <= at && second !in s.requests && third !in s.requests && second != third
    requires late in s.requests && !s.requests[late].released && s.requests[late].key !in Live(s, at)
    ensures var run := AbandonRun(s, late, at, second, third, digest);
            var creating := Request(s.requests[late].key, digest, at, None, false);
            && IsRun(s, run)
            && second in After(s, run).requests && third in After(s, run).requests
            && After(s, run).requests[second] == After(s, run).requests[third] == creating
  {
    var k := s.requests[late].key;
    var begin, abandon, again := Begin(second, k, digest, at, at), Abandon(late, at), Begin(third, k, digest, at, at);
    assert Apply(s, begin).rows[k] == Row(digest, None, at);
    assert k !in Apply(Apply(s, begin), abandon).rows;
    RunOfThree(s, begin, abandon, again);
  }

  /**
   * The three steps when the key is live: nothing is reserved before the abandon, and then exactly if there is no
   * answer.
   */
  lemma {:induction false} AbandonLive(s: State, late: int, at: int, second: int, third: int, digest: string)
    requires s.now <= at && second !in s.requests && third !in s.requests
    requires late in s.requests && !s.requests[late].released && s.requests[late].key in Live(s, at)
    ensures var k := s.requests[late].key;
            var run := AbandonRun(s, late, at, second, third, digest);
            var left := s.requests[late := s.requests[late].(released := true)];
            && IsRun(s, run)
            && After(s, run).requests ==
               if s.rows[k].answer == None then left[third := Request(k, digest, at, None, false)] else left
  {
    var k := s.requests[late].key;
    var begin, abandon, again := Begin(second, k, digest, at, at), Abandon(late, at), Begin(third, k, digest, at, at);
    var s1 := Apply(s, begin);
    assert s1.rows == Live(s, at) && s1.requests == s.requests;
    var s2 := Apply(s1, abandon);
    assert k in s2.rows <==> s.rows[k].answer.Some?;
    assert k in s2.rows ==> s2.rows[k] == s.rows[k];
    RunOfThree(s, begin, abandon, again);
  }

  /** While a request has not expired nobody else creates under its key. */
  lemma AloneUntilExpiry(s: State, late: int, at: int, j: int)
    requires Inv(s) && s.now <= at && late in s.requests && j in s.requests && j != late
    requires s.requests[late].Holds() && s.requests[j].Holds() && s.requests[j].key == s.requests[late].key
    requires !s.requests[late].Expired(at)
    ensures s.requests[j].Expired(at)
  {
  }

  /** A timely abandon lets nobody create beside another. */
  lemma {:induction false} TimelyAbandonIsSafe(s: State, late: int, at: int, second: int, third: int, digest: string)
    requires Inv(s) && s.now <= at && late in s.requests && !s.requests[late].released
    requires !s.requests[late].Expired(at) && second !in s.requests
    ensures !Doubles(s, late, at, second, third, digest)
  {
    if third !in s.requests {
      var k := s.requests[late].key;
      ExpiredHasNoRow(s, late, at);
      AbandonLive(s, late, at, second, third, digest);
      var t := After(s, AbandonRun(s, late, at, second, third, digest));
      forall j | j in t.requests && j != third && t.requests[j].key == k && !t.requests[j].released
        ensures t.requests[j].Expired(at)
      {
        assert j != late && t.requests[j] == s.requests[j];
        AloneUntilExpiry(s, late, at, j);
      }
    }
  }

  /** The holder of a live row without an answer is creating, and the abandon takes its row away. */
  lemma {:induction false} LiveHolderIsDoubled(s: State, late: int, at: int, second: int, third: int, digest: string)
    requires Inv(s) && s.now <= at && late in s.requests && !s.requests[late].released && s.requests[late].Expired(at)
    requires second !in s.requests && third !in s.requests && second != third
    requires s.requests[late].key in Live(s, at) && s.rows[s.requests[late].key].answer == None
    ensures Doubles(s, late, at, second, third, digest)
  {
    var k := s.requests[late].key;
    var j := s.holder[k];
    AbandonLive(s, late, at, second, third, digest);
    var t := After(s, AbandonRun(s, late, at, second, third, digest));
    assert j != late && t.requests[j] == s.requests[j];
  }

  /**
   * An abandon can let two requests create at once exactly when it comes after the expiry and no live row with an
   * answer stands under the key (`second` and `third` are any unused ids).
   */
  lemma {:induction false} DoubledExactlyWhenLate(s: State, late: int, at: int, second: int, third: int, digest: string)
    requires Inv(s) && s.now <= at && late in s.requests && !s.requests[late].released
    requires second !in s.requests && third !in s.requests && second != third
    ensures Doubles(s, late, at, second, third, digest) <==>
            var r := s.requests[late];
            r.Expired(at) && !(r.key in Live(s, at) && s.rows[r.key].answer.Some?)
  {
    var r := s.requests[late];
    if !r.Expired(at) {
      TimelyAbandonIsSafe(s, late, at, second, third, digest);
    } else if r.key !in Live(s, at) {
      LateAbandonFreesAnother(s, late, at, second, third, digest);
      assert !After(s, AbandonRun(s, late, at, second, third, digest)).requests[second].Expired(at);
    } else if s.rows[r.key].answer == None {
      LiveHolderIsDoubled(s, late, at, second, third, digest);
    } else {
      AbandonLive(s, late, at, second, third, digest);
    }
  }
}
