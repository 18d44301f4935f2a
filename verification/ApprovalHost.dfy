/** The requests' own statements on the approval store: each is a step of the state machine. */
module ApprovalHost {
  import opened Options
  import opened Approvals
  import opened ApprovalSafety
  import opened ApprovalSends

  /** All that any interleaving keeps. */
  ghost predicate Safe(s: State) { ExecOk(s) && DoorOk(s) && SendOk(s) }

  lemma StepKeepsSafe(s: State, step: Step)
    requires Safe(s) && Enabled(s, step)
    ensures Safe(Apply(s, step))
  {
    StepKeepsExec(s, step);
    StepKeepsDoor(s, step);
    StepKeepsSend(s, step);
  }

  /** What a request does after the inbox's update. */
  function AfterDecision(pc: Pc, intent: Intent): Pc
    requires pc.Deciding?
  {
    if pc.replacement.Some? then Gone(SaysReplaced(pc.target, pc.replacement.value))
    else if intent != NoIntent then Intending(pc.target, pc.approve)
    else Gone(SaysDecided(pc.target, pc.approve))
  }

  lemma DecisionTaken(s: State, w: Worker, pc: Pc)
    requires w in s.pcs && s.pcs[w] == pc && pc.Deciding? && pc.target in s.rows
    ensures var t := Apply(s, By(w, Act.Decide));
            && t.rows == Moved(s.rows, pc.target, Pending, if pc.approve then Approved else Denied)
            && t.relays == s.relays && t.pcs == s.pcs[w := AfterDecision(pc, s.rows[pc.target].intent)]
  {
  }

  lemma HoldTaken(s: State, w: Worker, pc: Pc)
    requires w in s.pcs && s.pcs[w] == pc && pc.Intending? && pc.approve
    ensures var t := Apply(s, By(w, Act.Intend));
            && t.rows == IntentMoved(s.rows, pc.target, AwaitingApproval, Held) && t.relays == s.relays
            && t.pcs ==
               s.pcs[w := if IntentMoves(s.rows, pc.target, AwaitingApproval) then Waiting(pc.target)
                          else Gone(Refusal)]
  {
  }

  lemma SettleTaken(s: State, w: Worker, pc: Pc)
    requires w in s.pcs && s.pcs[w] == pc && (pc.Finishing? || pc.Releasing?)
    ensures var t, e := Apply(s, By(w, Act.Settle)), Settling(s, pc);
            t.rows == e.rows && t.relays == s.relays && t.pcs == s.pcs[w := e.pc]
  {
  }

  lemma ConsumeTaken(s: State, w: Worker, pc: Pc, gatesOn: bool)
    requires w in s.pcs && s.pcs[w] == pc && pc.Answering?
    ensures var t, e := Apply(s, By(w, Act.Consume(gatesOn))), Consuming(s, pc, gatesOn);
            && t.rows == s.rows && t.pcs == s.pcs[w := e.pc]
            && t.relays == if e.note.Uses? then RelayUsed(s.relays, pc.relay, pc.approve) else s.relays
  {
  }

  class Host {
    const store: ApprovalStore
    /** Where each request stands. */
    var pcs: map<Worker, Pc>
    ghost var s: State

    constructor (store: ApprovalStore)
      requires store.rows == map[] && store.relays == map[]
      ensures Valid() && this.store == store && s == EMPTY
    {
      this.store, pcs, s := store, map[], EMPTY;
    }

    /** The tables and the requests are those of a state every interleaving keeps safe. */
    ghost predicate Valid()
      reads this, store
    {
      Matches() && Safe(s)
    }

    ghost predicate Matches()
      reads this, store
    {
      s.rows == store.rows && s.relays == store.relays && s.pcs == pcs
    }

    /** The claim of the execution relay. */
    method Claim(w: Worker) returns (won: bool)
      requires Valid() && w in pcs && pcs[w].Claiming?
      modifies this, store
      ensures Valid() && s == Apply(old(s), By(w, Act.Claim))
      ensures won <==> pcs[w].Claimed?
    {
      var pc := pcs[w];
      StepKeepsSafe(s, By(w, Act.Claim));
      won := store.ClaimForExecution(pc.target);
      pcs := pcs[w := if won then Claimed(pc.target, pc.via) else Gone(Refusal)];
      s := Taken(s, w, Claims(s, pc));
    }

    /** Its end: the outcome recorded, or the claim given back when nothing ran. */
    method Settle(w: Worker)
      requires Valid() && w in pcs && (pcs[w].Finishing? || pcs[w].Releasing?)
      modifies this, store
      ensures Valid() && s == Apply(old(s), By(w, Act.Settle))
    {
      var pc := pcs[w];
      StepKeepsSafe(s, By(w, Act.Settle));
      if pc.Releasing? {
        var _ := store.ReleaseClaim(pc.target);
        pcs := pcs[w := Gone(SaysReleased(pc.target))];
      } else {
        var _ := store.FinalizeExecution(pc.target, pc.ok);
        pcs := pcs[w := Gone(SaysRan(pc.target, pc.ok))];
      }
      SettleTaken(s, w, pc);
      s := Apply(s, By(w, Act.Settle));
    }

    /** The inbox's update, whose row count nobody reads. */
    method Decide(w: Worker)
      requires Valid() && w in pcs && pcs[w].Deciding? && pcs[w].target in store.rows
      modifies this, store
      ensures Valid() && s == Apply(old(s), By(w, Act.Decide))
    {
      var pc := pcs[w];
      StepKeepsSafe(s, By(w, Act.Decide));
      DecisionTaken(s, w, pc);
      pcs := pcs[w := AfterDecision(pc, store.rows[pc.target].intent)];
      store.ResolveApproval(pc.target, pc.approve);
      s := Apply(s, By(w, Act.Decide));
    }

    /** What follows an approval of a connector write: it is held for its undo window. */
    method HoldWrite(w: Worker) returns (won: bool)
      requires Valid() && w in pcs && pcs[w].Intending? && pcs[w].approve
      modifies this, store
      ensures Valid() && s == Apply(old(s), By(w, Act.Intend))
      ensures won <==> pcs[w].Waiting?
    {
      var pc := pcs[w];
      StepKeepsSafe(s, By(w, Act.Intend));
      HoldTaken(s, w, pc);
      won := store.Hold(pc.target);
      pcs := pcs[w := if won then Waiting(pc.target) else Gone(Refusal)];
      s := Apply(s, By(w, Act.Intend));
    }

    /** What follows its denial. */
    method RefuseWrite(w: Worker)
      requires Valid() && w in pcs && pcs[w].Intending? && !pcs[w].approve
      modifies this, store
      ensures Valid() && s == Apply(old(s), By(w, Act.Intend))
    {
      var pc := pcs[w];
      StepKeepsSafe(s, By(w, Act.Intend));
      var _ := store.UpdateIntent(pc.target, AwaitingApproval, Refused);
      pcs := pcs[w := Gone(SaysDecided(pc.target, false))];
      s := Taken(s, w, Intends(s, pc));
    }

    /** The end of the undo window. */
    method ClaimHeld(w: Worker) returns (won: bool)
      requires Valid() && w in pcs && pcs[w].Waiting?
      modifies this, store
      ensures Valid() && s == Apply(old(s), By(w, Act.ClaimHeld))
      ensures won <==> pcs[w].Invoking?
    {
      var pc := pcs[w];
      StepKeepsSafe(s, By(w, Act.ClaimHeld));
      won := store.ClaimSend(pc.target);
      pcs := pcs[w := if won then Invoking(pc.target) else Gone(SaysUndone(pc.target))];
      s := Taken(s, w, ClaimsHeld(s, pc));
    }

    /** The undo route: once it has answered that it took the write back, nothing that can happen sends it. */
    method Undo(a: Id) returns (won: bool)
      requires Valid()
      modifies this, store
      ensures Valid() && s == Apply(old(s), Step.Undo(a))
      ensures won ==> NeverSends(s, a)
    {
      StepKeepsSafe(s, Step.Undo(a));
      if a in s.rows && s.rows[a].intent == Held { UndoIsFinal(s, a); }
      won := store.UndoSend(a);
      s := Apply(s, Step.Undo(a));
    }

    /** The channel's use of its relay, before anything is decided or run. */
    method Consume(w: Worker, gatesOn: bool) returns (won: bool)
      requires Valid() && w in pcs && pcs[w].Answering? && pcs[w].target in store.rows
      modifies this, store
      ensures Valid() && s == Apply(old(s), By(w, Act.Consume(gatesOn)))
    {
      var pc := pcs[w];
      StepKeepsSafe(s, By(w, Act.Consume(gatesOn)));
      won := store.ResolveRelay(pc.relay, pc.approve);
      pcs := pcs[w :=
        if won then Course(store.rows[pc.target], pc.target, pc.approve, gatesOn, Some(pc.relay)) else Gone(Refusal)];
      ConsumeTaken(s, w, pc, gatesOn);
      s := Apply(s, By(w, Act.Consume(gatesOn)));
    }
  }
}
