/**
 * The receiver of inbound channel messages, in the two stretches between which a handler awaits the turn it started:
 * admitting a message, and settling it. Any number of messages may be waiting in between.
 */
module InboundReceiver {
  import opened Options
  import opened Texts
  import opened EventClaims
  import opened InboundLedger

  /** The clock readings an admission takes, in the order it takes them. */
  datatype Times = Times(claim: int, stamp: int, budget: real, sender: real, record: real, loop: real)

  /** What the budgets and the loop guard make of a message, read off their full logs: budgets first. */
  ghost function Screened(log: seq<Budget.Accepted>, replies: seq<Loops.Reply>, seen: seq<Loops.Seen>,
                          m: Message, limits: Budget.Limits, t: Times, id: Id): (refused: Option<Outcome>)
    ensures refused.Some? ==> (refused.value.OverBudget? || refused.value.Looping?) && refused.value.id == id
  {
    var spent := Budget.Verdict(log, m.connector, m.sender, t.budget, t.sender, limits);
    var loop := Loops.Verdict(replies, seen, m.connector, m.sender, m.mark, t.loop);
    if spent.Some? then Some(OverBudget(id, spent.value))
    else if loop.Some? then Some(Looping(id, loop.value))
    else None
  }

  /** What is done with a message that is no duplicate. */
  function Decided(
      refused: Option<Outcome>, p: Pairing, m: Message, id: Id, queueFull: bool, newSession: string): Outcome
  {
    if refused.Some? then refused.value
    else if p.paused then HeldBack(id)
    else Admitted(id, PlanOf(p, m, queueFull, newSession))
  }

  lemma DecidedIsPlanned(
      refused: Option<Outcome>, p: Pairing, m: Message, id: Id, queueFull: bool, newSession: string)
    requires m.sender in p.allowlist
    requires refused.Some? ==> (refused.value.OverBudget? || refused.value.Looping?) && refused.value.id == id
    ensures var o := Decided(refused, p, m, id, queueFull, newSession);
            Planned(Entry(p, m, queueFull, newSession, o)) && HasReceipt(o) && o.id == id
  {
  }

  lemma {:induction false} ClaimThenRelease(claims: Claims, key: Key, id: Id, now: int, stamp: int)
    requires Claimed(claims, key, id, now, stamp).1 == None
    ensures Released(Claimed(claims, key, id, now, stamp).0, key, id) == Purged(claims, now)
  {
    assert Purged(claims, now)[key := Claim(id, stamp)] - {key} == Purged(claims, now);
  }

  /** Whether this message repeats an event whose claim is live. */
  predicate IsDuplicate(claims: Claims, m: Message, now: int) {
    m.eventKey.Some? && (m.connector, m.eventKey.value) in Purged(claims, now)
  }

  /** The claim table after a message with this outcome. */
  function ClaimsAfter(claims: Claims, m: Message, o: Outcome, t: Times): Claims {
    if m.eventKey == None || o.NotPaired? || o.NotAllowlisted? then claims
    else if o.HeldBack? || o.Admitted?
    then Purged(claims, t.claim)[(m.connector, m.eventKey.value) := Claim(o.id, t.stamp)]
    else Purged(claims, t.claim)
  }

  class Receiver {
    const budgets: Budget.InboundBudgets
    const guards: Loops.LoopGuards
    var claims: Claims
    var receipts: map<Id, Receipt>
    var interrupts: seq<Started>
    var turns: seq<Started>
    var nextId: Id
    /** Messages admitted and not yet settled. */
    var waiting: map<Id, Entry>
    ghost var ledger: seq<Entry>
    ghost var done: Responses

    constructor (budgets: Budget.InboundBudgets, guards: Loops.LoopGuards)
      requires budgets.Valid() && guards.Valid()
      ensures Valid() && this.budgets == budgets && this.guards == guards && ledger == [] && done == map[]
    {
      this.budgets, this.guards := budgets, guards;
      claims, receipts, interrupts, turns, nextId, waiting := map[], map[], [], [], 0, map[];
      ledger, done := [], map[];
    }

    /** The books are kept, and whoever is waiting was admitted and has not come back. */
    ghost predicate Books()
      reads this`ledger, this`done, this`nextId, this`receipts, this`interrupts, this`turns, this`waiting
    {
      && Kept(ledger, done, nextId, receipts, interrupts, turns)
      && (forall id :: id in waiting ==> InLedger(id) && id !in done)
      && (forall id :: id in done ==> id < nextId)
    }

    ghost predicate InLedger(id: Id)
      requires id in waiting
      reads this`waiting, this`ledger
    {
      waiting[id].outcome.Admitted? && waiting[id].outcome.id == id && waiting[id] in ledger
    }

    ghost predicate Valid()
      reads this, budgets, guards
    {
      budgets.Valid() && guards.Valid() && Books()
    }

    /** The readings come after all the earlier ones; nothing is awaited inside an admission. */
    ghost predicate InTime(t: Times)
      reads budgets, guards
    {
      budgets.clock <= t.budget <= t.sender <= t.record && guards.clock <= t.loop
    }

    /** The event claim: `Some` names the live claim's receipt. */
    method ClaimEvent(m: Message, id: Id, t: Times) returns (first: Option<Id>)
      modifies this`claims
      ensures first.Some? <==> IsDuplicate(old(claims), m, t.claim)
      ensures first.Some? ==> first.value == old(claims)[(m.connector, m.eventKey.value)].receipt
      ensures claims ==
        if first.Some? then Purged(old(claims), t.claim) else ClaimsAfter(old(claims), m, HeldBack(id), t)
    {
      first := None;
      if m.eventKey.Some? {
        var r := Claimed(claims, (m.connector, m.eventKey.value), id, t.claim, t.stamp);
        claims, first := r.0, r.1;
      }
    }

    method ReleaseEvent(m: Message, id: Id, ghost before: Claims, t: Times)
      requires !IsDuplicate(before, m, t.claim) && claims == ClaimsAfter(before, m, HeldBack(id), t)
      modifies this`claims
      ensures claims == if m.eventKey == None then before else Purged(before, t.claim)
    {
      if m.eventKey.Some? {
        ClaimThenRelease(before, (m.connector, m.eventKey.value), id, t.claim, t.stamp);
        claims := Released(claims, (m.connector, m.eventKey.value), id);
      }
    }

    /** Budgets first, then the loop guard: the first refusal. */
    method Screen(m: Message, limits: Budget.Limits, t: Times, id: Id) returns (refused: Option<Outcome>)
      requires budgets.Valid() && guards.Valid() && InTime(t)
      modifies budgets, guards
      ensures budgets.Valid() && guards.Valid() && guards.clock <= t.loop
      ensures refused == Screened(old(budgets.log), old(guards.replies), old(guards.seen), m, limits, t, id)
      ensures guards.replies == old(guards.replies)
      ensures refused.Some? && refused.value.OverBudget? ==>
        budgets.log == old(budgets.log) && guards.seen == old(guards.seen)
      ensures refused == None ==>
        && budgets.log == old(budgets.log) + [Budget.Accepted(m.connector, m.sender, t.budget, t.record, limits)]
        && guards.seen == old(guards.seen) + [Loops.Seen(m.connector, m.sender, t.loop, m.mark, true)]
    {
      var spent := budgets.Spend(m.connector, m.sender, t.budget, t.sender, t.record, limits);
      if spent.Some? {
        return Some(OverBudget(id, spent.value));
      }
      var loop := guards.LoopReason(m.connector, m.sender, m.mark, t.loop);
      refused := if loop.Some? then Some(Looping(id, loop.value)) else None;
    }

    /** Sets an admitted message's plan going. */
    method Start(e: Entry)
      requires e.outcome.Admitted?
      modifies this`interrupts, this`turns, this`waiting
      ensures interrupts == old(interrupts) +
        if e.outcome.plan.Stop? || e.outcome.plan.Steer? then [Started(e.outcome.plan, e.p, e.m)] else []
      ensures turns == old(turns) + if e.outcome.plan.Turn? then [Started(e.outcome.plan, e.p, e.m)] else []
      ensures waiting == old(waiting)[e.outcome.id := e]
    {
      if e.outcome.plan.Stop? || e.outcome.plan.Steer? {
        interrupts := interrupts + [Started(e.outcome.plan, e.p, e.m)];
      }
      if e.outcome.plan.Turn? {
        turns := turns + [Started(e.outcome.plan, e.p, e.m)];
      }
      waiting := waiting[e.outcome.id := e];
    }

    /** Writes a message's receipt and, if it is admitted, sets its plan going. */
    method Enter(e: Entry)
      requires Books() && Planned(e)
      requires HasReceipt(e.outcome) ==> e.outcome.id == nextId
      modifies this`receipts, this`interrupts, this`turns, this`nextId, this`waiting, this`ledger
      ensures Books() && ledger == old(ledger) + [e]
      ensures nextId == old(nextId) + if HasReceipt(e.outcome) then 1 else 0
      ensures waiting == if e.outcome.Admitted? then old(waiting)[e.outcome.id := e] else old(waiting)
    {
      EntryAdded(ledger, done, e);
      LedgerExtends(ledger, nextId, e);
      if HasReceipt(e.outcome) {
        assert e.outcome.id !in done;
        receipts := receipts[e.outcome.id := ReceiptNow(e, map[])];
        nextId := nextId + 1;
      }
      if e.outcome.Admitted? {
        Start(e);
      }
      ledger := ledger + [e];
      assert e in ledger;
    }

    /** A message that is no duplicate: refused, and then its claim is given back, or let in. */
    method LetIn(
        p: Pairing, m: Message, refused: Option<Outcome>, queueFull: bool, newSession: string, t: Times,
        ghost before: Claims)
      returns (outcome: Outcome)
      requires Books() && m.sender in p.allowlist
      requires refused.Some? ==>
        (refused.value.OverBudget? || refused.value.Looping?) && refused.value.id == nextId
      requires !IsDuplicate(before, m, t.claim) && claims == ClaimsAfter(before, m, HeldBack(nextId), t)
      modifies this
      ensures Books() && done == old(done)
      ensures outcome == Decided(refused, p, m, old(nextId), queueFull, newSession)
      ensures ledger == old(ledger) + [Entry(p, m, queueFull, newSession, outcome)]
      ensures waiting ==
        if outcome.Admitted? then old(waiting)[outcome.id := Entry(p, m, queueFull, newSession, outcome)]
        else old(waiting)
      ensures claims == ClaimsAfter(before, m, outcome, t)
    {
      outcome := Decided(refused, p, m, nextId, queueFull, newSession);
      DecidedIsPlanned(refused, p, m, nextId, queueFull, newSession);
      if refused.Some? {
        ReleaseEvent(m, nextId, before, t);
      }
      assert claims == ClaimsAfter(before, m, outcome, t);
      Enter(Entry(p, m, queueFull, newSession, outcome));
    }

    /** An allowed sender's message: the event claim, then the budgets and the loop guard, then in or out. */
    method AdmitAllowed(p: Pairing, m: Message, limits: Budget.Limits, queueFull: bool, newSession: string, t: Times)
      returns (outcome: Outcome)
      requires budgets.Valid() && guards.Valid() && Books() && InTime(t) && m.sender in p.allowlist
      modifies this, budgets, guards
      ensures budgets.Valid() && guards.Valid() && Books() && done == old(done) && guards.replies == old(guards.replies)
      ensures ledger == old(ledger) + [Entry(p, m, queueFull, newSession, outcome)]
      ensures waiting ==
        if outcome.Admitted? then old(waiting)[outcome.id := Entry(p, m, queueFull, newSession, outcome)]
        else old(waiting)
      ensures claims == ClaimsAfter(old(claims), m, outcome, t)
      ensures outcome ==
        if IsDuplicate(old(claims), m, t.claim) then DuplicateOf(old(claims)[(m.connector, m.eventKey.value)].receipt)
        else Decided(Screened(old(budgets.log), old(guards.replies), old(guards.seen), m, limits, t, old(nextId)),
                     p, m, old(nextId), queueFull, newSession)
      ensures outcome.DuplicateOf? || outcome.OverBudget? ==>
        budgets.log == old(budgets.log) && guards.seen == old(guards.seen)
      ensures outcome.HeldBack? || outcome.Admitted? ==>
        && budgets.log == old(budgets.log) + [Budget.Accepted(m.connector, m.sender, t.budget, t.record, limits)]
        && guards.seen == old(guards.seen) + [Loops.Seen(m.connector, m.sender, t.loop, m.mark, true)]
    {
      ghost var before := claims;
      var first := ClaimEvent(m, nextId, t);
      if first.Some? {
        outcome := NoteRepeat(p, m, queueFull, newSession, first.value);
      } else {
        outcome := AdmitFresh(p, m, limits, queueFull, newSession, t, before);
      }
    }

    /** A repeat is answered with the first receipt and gets none of its own. */
    method NoteRepeat(p: Pairing, m: Message, queueFull: bool, newSession: string, first: Id) returns (outcome: Outcome)
      requires Books() && m.sender in p.allowlist
      modifies this`receipts, this`interrupts, this`turns, this`nextId, this`waiting, this`ledger
      ensures Books() && ledger == old(ledger) + [Entry(p, m, queueFull, newSession, outcome)]
      ensures outcome == DuplicateOf(first) && waiting == old(waiting)
      ensures receipts == old(receipts) && interrupts == old(interrupts) && turns == old(turns)
    {
      outcome := DuplicateOf(first);
      EntryAdded(ledger, done, Entry(p, m, queueFull, newSession, outcome));
      Enter(Entry(p, m, queueFull, newSession, outcome));
    }

    /** The event is this message's: the budgets and the loop guard, then in or out. */
    method AdmitFresh(
        p: Pairing, m: Message, limits: Budget.Limits, queueFull: bool, newSession: string, t: Times,
        ghost before: Claims)
      returns (outcome: Outcome)
      requires budgets.Valid() && guards.Valid() && Books() && InTime(t) && m.sender in p.allowlist
      requires !IsDuplicate(before, m, t.claim) && claims == ClaimsAfter(before, m, HeldBack(nextId), t)
      modifies this, budgets, guards
      ensures budgets.Valid() && guards.Valid() && Books() && done == old(done) && guards.replies == old(guards.replies)
      ensures ledger == old(ledger) + [Entry(p, m, queueFull, newSession, outcome)]
      ensures waiting ==
        if outcome.Admitted? then old(waiting)[outcome.id := Entry(p, m, queueFull, newSession, outcome)]
        else old(waiting)
      ensures claims == ClaimsAfter(before, m, outcome, t)
      ensures outcome ==
        Decided(Screened(old(budgets.log), old(guards.replies), old(guards.seen), m, limits, t, old(nextId)),
                p, m, old(nextId), queueFull, newSession)
      ensures outcome.OverBudget? ==> budgets.log == old(budgets.log) && guards.seen == old(guards.seen)
      ensures outcome.HeldBack? || outcome.Admitted? ==>
        && budgets.log == old(budgets.log) + [Budget.Accepted(m.connector, m.sender, t.budget, t.record, limits)]
        && guards.seen == old(guards.seen) + [Loops.Seen(m.connector, m.sender, t.loop, m.mark, true)]
    {
      var refused := Screen(m, limits, t, nextId);
      outcome := LetIn(p, m, refused, queueFull, newSession, t, before);
    }

    /** The handler up to its await. */
    method Admit(
        pairing: Option<Pairing>, m: Message, limits: Budget.Limits, queueFull: bool, newSession: string, t: Times)
      returns (outcome: Outcome)
      requires Valid() && InTime(t)
      modifies this, budgets, guards
      ensures Valid() && done == old(done) && guards.replies == old(guards.replies)
      ensures ledger == old(ledger) +
        if pairing == None then [] else [Entry(pairing.value, m, queueFull, newSession, outcome)]
      ensures waiting ==
        if pairing.Some? && outcome.Admitted?
        then old(waiting)[outcome.id := Entry(pairing.value, m, queueFull, newSession, outcome)]
        else old(waiting)
      ensures outcome ==
        if pairing == None then NotPaired
        else if m.sender !in pairing.value.allowlist then NotAllowlisted(old(nextId))
        else if IsDuplicate(old(claims), m, t.claim)
        then DuplicateOf(old(claims)[(m.connector, m.eventKey.value)].receipt)
        else Decided(Screened(old(budgets.log), old(guards.replies), old(guards.seen), m, limits, t, old(nextId)),
                     pairing.value, m, old(nextId), queueFull, newSession)
      // A duplicate, or a stranger's message, spends no budget and marks no loop; what passes spends and is marked.
      ensures outcome.NotPaired? || outcome.NotAllowlisted? || outcome.DuplicateOf? || outcome.OverBudget? ==>
        budgets.log == old(budgets.log) && guards.seen == old(guards.seen)
      ensures outcome.HeldBack? || outcome.Admitted? ==>
        && budgets.log == old(budgets.log) + [Budget.Accepted(m.connector, m.sender, t.budget, t.record, limits)]
        && guards.seen == old(guards.seen) + [Loops.Seen(m.connector, m.sender, t.loop, m.mark, true)]
      // A refused message leaves no claim of its own behind; one that passes leaves exactly its own.
      ensures claims == ClaimsAfter(old(claims), m, outcome, t)
    {
      if pairing == None {
        return NotPaired;
      }
      if m.sender !in pairing.value.allowlist {
        outcome := NotAllowlisted(nextId);
        Enter(Entry(pairing.value, m, queueFull, newSession, outcome));
        return;
      }
      outcome := AdmitAllowed(pairing.value, m, limits, queueFull, newSession, t);
    }

    /** The handler after its await: the receipt is settled and the reply remembered. */
    method Settle(id: Id, response: Response, replyMark: string, now: real)
      requires Valid() && id in waiting && guards.clock <= now
      modifies this, guards
      ensures Valid() && ledger == old(ledger) && done == old(done)[id := response] && waiting == old(waiting) - {id}
      ensures claims == old(claims) && budgets.log == old(budgets.log) && guards.seen == old(guards.seen)
      ensures interrupts == old(interrupts) && turns == old(turns) && nextId == old(nextId)
      ensures receipts == old(receipts)[id := ReceiptNow(old(waiting)[id], done)]
      ensures guards.replies == old(guards.replies) +
        if old(waiting)[id].outcome.plan.Turn? && Strip(response.reply) != ""
        then [Loops.Reply(old(waiting)[id].m.connector, now, replyMark)] else []
    {
      var e := waiting[id];
      assert InLedger(id);
      Note(id, response);
      guards.RememberReply(e.m.connector, !e.outcome.plan.Turn? || Strip(response.reply) == "", replyMark, now);
    }

    method Note(id: Id, response: Response)
      requires Books() && id in waiting
      modifies this`receipts, this`waiting, this`done
      ensures Books() && done == old(done)[id := response] && waiting == old(waiting) - {id}
      ensures old(waiting)[id].outcome.Admitted? && receipts == old(receipts)[id := ReceiptNow(old(waiting)[id], done)]
    {
      var e := waiting[id];
      assert InLedger(id);
      ghost var i :| 0 <= i < |ledger| && ledger[i] == e;
      ResponseRecorded(ledger, done, nextId, i, response);
      AdmittedBelow(ledger, nextId, i);
      var open := AcceptedReceipt(RoleOf(e.p, e.m), None);
      receipts := receipts[id := Settled(open, e.outcome.plan, response, e.p.telegram)];
      waiting := waiting - {id};
      done := done[id := response];
    }
  }
}
