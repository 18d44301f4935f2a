/** What each request does when nothing gets in its way: the doors lead where they say. */
module ApprovalCourses {
  import opened Options
  import opened Approvals

  /** A list of states, each made from the one before by the request's next statement, is the run. */
  lemma {:induction false} RunOf(s: State, steps: seq<Step>, states: seq<State>)
    requires |states| == |steps| + 1 && states[0] == s
    requires forall i :: 0 <= i < |steps| ==>
             Enabled(states[i], steps[i]) && states[i + 1] == Apply(states[i], steps[i])
    ensures IsRun(s, steps) && After(s, steps) == states[|steps|]
    decreases |steps|
  {
    if steps != [] {
      assert Enabled(states[0], steps[0]) && states[1] == Apply(states[0], steps[0]);
      RunOf(states[1], steps[1..], states[1..]);
    }
  }

  lemma Overwritten<K, V>(m: map<K, V>, k: K, first: V, second: V)
    ensures m[k := first][k := second] == m[k := second]
  {
  }

  /** An approval that the owner may decide: pending, and not critical. */
  predicate Decidable(s: State, a: Id) { a in s.rows && s.rows[a].status == Pending && !s.rows[a].critical }

  /** A decidable approval of an action that is neither a question nor a connector write. */
  predicate Executable(s: State, a: Id) {
    Decidable(s, a) && (s.rows[a].tool == Patch || s.rows[a].tool == OtherTool) && s.rows[a].intent == NoIntent
  }

  /** The row, and nothing else in the table, has this status now. */
  function WithStatus(rows: Rows, a: Id, status: Status): Rows
    requires a in rows
  {
    rows[a := rows[a].(status := status)]
  }

  /** What an execution leaves behind: the action ran, and its outcome is recorded; or all is as it was before. */
  ghost predicate Executes(s: State, t: State, w: Worker, a: Id, outcome: Outcome)
    requires a in s.rows
  {
    && t.pcs == s.pcs[w := Says(a, outcome)]
    && if outcome == Blocked then t.rows == s.rows && t.ran == s.ran
       else
         && t.rows == WithStatus(s.rows, a, if outcome.ok then Executed else ExecutionFailed)
         && t.ran == s.ran + multiset{a}
  }

  function Says(a: Id, outcome: Outcome): Pc {
    Gone(if outcome == Blocked then SaysReleased(a) else SaysRan(a, outcome.ok))
  }

  function Claiming(w: Worker): seq<Step> { [By(w, Recheck), By(w, Claim)] }

  function Running(w: Worker, outcome: Outcome): seq<Step> { [By(w, Route(outcome)), By(w, Settle)] }

  lemma {:induction false} ClaimingGoes(s: State, w: Worker, a: Id, via: Option<RelayId>)
    requires a in s.rows && s.rows[a].status == Pending && w in s.pcs && s.pcs[w] == Relaying(a, via)
    ensures IsRun(s, Claiming(w))
    ensures After(s, Claiming(w)) ==
            s.(rows := WithStatus(s.rows, a, Executing), pcs := s.pcs[w := Claimed(a, via)], owner := s.owner[a := w])
  {
    var s1 := Apply(s, By(w, Recheck));
    assert s1 == s.(pcs := s.pcs[w := Pc.Claiming(a, via)]);
    var s2 := Apply(s1, By(w, Claim));
    assert s2.pcs == s.pcs[w := Claimed(a, via)];
    RunOf(s, Claiming(w), [s, s1, s2]);
  }

  lemma {:induction false} RunningGoes(s: State, w: Worker, a: Id, via: Option<RelayId>, outcome: Outcome)
    requires a in s.rows && s.rows[a].status == Executing && w in s.pcs && s.pcs[w] == Claimed(a, via)
    ensures IsRun(s, Running(w, outcome))
    ensures var t := After(s, Running(w, outcome));
            && t.relays == s.relays && t.pcs == s.pcs[w := Says(a, outcome)]
            && if outcome == Blocked then t.rows == WithStatus(s.rows, a, Pending) && t.ran == s.ran
               else
                 && t.rows == WithStatus(s.rows, a, if outcome.ok then Executed else ExecutionFailed)
                 && t.ran == s.ran + multiset{a} && (via.Some? ==> (a, via.value) in t.runs)
  {
    var s1 := Apply(s, By(w, Route(outcome)));
    var s2 := Apply(s1, By(w, Settle));
    if outcome == Blocked {
      assert s1.pcs[w] == Releasing(a);
    } else {
      assert s1.pcs[w] == Finishing(a, outcome.ok);
    }
    Overwritten(s.pcs, w, s1.pcs[w], s2.pcs[w]);
    RunOf(s, Running(w, outcome), [s, s1, s2]);
  }

  /** From the door to the outcome: the claim, the action, and its outcome recorded, or the claim given back. */
  lemma {:induction false} ExecutionGoes(s: State, w: Worker, a: Id, via: Option<RelayId>, outcome: Outcome)
    requires a in s.rows && s.rows[a].status == Pending && w in s.pcs && s.pcs[w] == Relaying(a, via)
    ensures IsRun(s, Claiming(w)) && IsRun(After(s, Claiming(w)), Running(w, outcome))
    ensures var t := After(After(s, Claiming(w)), Running(w, outcome));
            && Executes(s, t, w, a, outcome) && t.relays == s.relays
            && (outcome != Blocked && via.Some? ==> (a, via.value) in t.runs)
  {
    ClaimingGoes(s, w, a, via);
    var claimed := After(s, Claiming(w));
    RunningGoes(claimed, w, a, via, outcome);
    var t := After(claimed, Running(w, outcome));
    Overwritten(s.rows, a, claimed.rows[a], t.rows[a]);
    Overwritten(s.pcs, w, claimed.pcs[w], t.pcs[w]);
    assert s.rows[a := s.rows[a]] == s.rows;
  }

  /** Approved on this computer with both gates on, an executable action runs, once, and its outcome is recorded. */
  lemma {:induction false} ApprovedActionRuns(s: State, w: Worker, a: Id, outcome: Outcome)
    requires Executable(s, a) && w !in s.pcs
    ensures Enabled(s, By(w, OpenResolve(a, true, true)))
    ensures var begun := Apply(s, By(w, OpenResolve(a, true, true)));
            && IsRun(begun, Claiming(w)) && IsRun(After(begun, Claiming(w)), Running(w, outcome))
            && Executes(s, After(After(begun, Claiming(w)), Running(w, outcome)), w, a, outcome)
  {
    var begun := Apply(s, By(w, OpenResolve(a, true, true)));
    assert begun == s.(pcs := s.pcs[w := Relaying(a, None)]);
    ExecutionGoes(begun, w, a, None, outcome);
    Overwritten(s.pcs, w, begun.pcs[w], Says(a, outcome));
  }

  /** An answer over a paired channel uses its relay up before anything runs. */
  lemma {:induction false} RelayIsUsedFirst(s: State, w: Worker, r: RelayId)
    requires r in s.relays && s.relays[r].status == Open && Executable(s, s.relays[r].target) && w !in s.pcs
    ensures Enabled(s, By(w, OpenChannel(r, true)))
    ensures Enabled(Apply(s, By(w, OpenChannel(r, true))), By(w, Consume(true)))
    ensures var a := s.relays[r].target;
            Apply(Apply(s, By(w, OpenChannel(r, true))), By(w, Consume(true))) ==
            s.(relays := s.relays[r := Relay(a, Used(true))], consumed := s.consumed + multiset{r},
               pcs := s.pcs[w := Relaying(a, Some(r))])
  {
    var a := s.relays[r].target;
    var begun := Apply(s, By(w, OpenChannel(r, true)));
    assert begun == s.(pcs := s.pcs[w := Answering(r, a, true)]);
    Overwritten(s.pcs, w, Answering(r, a, true), Relaying(a, Some(r)));
  }

  /** Then the action runs as if approved on this computer, and the run is the relay's. */
  lemma {:induction false} RelayedActionRuns(s: State, w: Worker, a: Id, r: RelayId, outcome: Outcome)
    requires a in s.rows && s.rows[a].status == Pending && w in s.pcs && s.pcs[w] == Relaying(a, Some(r))
    ensures IsRun(s, Claiming(w)) && IsRun(After(s, Claiming(w)), Running(w, outcome))
    ensures var t := After(After(s, Claiming(w)), Running(w, outcome));
            && Executes(s, t, w, a, outcome) && t.relays == s.relays && (outcome != Blocked ==> (a, r) in t.runs)
  {
    ExecutionGoes(s, w, a, Some(r), outcome);
  }

  // ----- Decisions that run nothing -----

  function Recorded(approve: bool): Status { if approve then Approved else Denied }

  lemma {:induction false} CheckPasses(s: State, w: Worker, a: Id, approve: bool, replacement: Option<Id>)
    requires Decidable(s, a) && w in s.pcs && s.pcs[w] == Choosing(a, approve, replacement)
    ensures Enabled(s, By(w, Check))
    ensures Apply(s, By(w, Check)) == s.(pcs := s.pcs[w := Pc.Deciding(a, approve, replacement)])
  {
  }

  /** The decision is written to the row, under the replacement's name if there is one. */
  lemma {:induction false} DecideWrites(s: State, w: Worker, a: Id, approve: bool, replacement: Option<Id>)
    requires Decidable(s, a) && w in s.pcs && s.pcs[w] == Pc.Deciding(a, approve, replacement)
    ensures Enabled(s, By(w, Decide))
    ensures Apply(s, By(w, Decide)) ==
            s.(rows := WithStatus(s.rows, a, Recorded(approve)),
               named := s.named + (if replacement.Some? then {(a, replacement.value)} else {}),
               pcs := s.pcs[w := if replacement.Some? then Gone(SaysReplaced(a, replacement.value))
                                 else if s.rows[a].intent != NoIntent then Intending(a, approve)
                                 else Gone(SaysDecided(a, approve))])
  {
    assert replacement == None ==> s.named + {} == s.named;
  }

  function Deciding(w: Worker): seq<Step> { [By(w, Check), By(w, Decide)] }

  lemma {:induction false} DecidingGoes(s: State, w: Worker, a: Id, approve: bool, replacement: Option<Id>)
    requires Decidable(s, a) && w in s.pcs && s.pcs[w] == Choosing(a, approve, replacement)
    ensures IsRun(s, Deciding(w))
    ensures var t := After(s, Deciding(w));
            && t.rows == WithStatus(s.rows, a, Recorded(approve)) && t.ran == s.ran && t.sent == s.sent
            && t.named == s.named + (if replacement.Some? then {(a, replacement.value)} else {})
            && t.pcs == s.pcs[w := if replacement.Some? then Gone(SaysReplaced(a, replacement.value))
                                   else if s.rows[a].intent != NoIntent then Intending(a, approve)
                                   else Gone(SaysDecided(a, approve))]
  {
    CheckPasses(s, w, a, approve, replacement);
    var checked := Apply(s, By(w, Check));
    DecideWrites(checked, w, a, approve, replacement);
    var decided := Apply(checked, By(w, Decide));
    Overwritten(s.pcs, w, checked.pcs[w], decided.pcs[w]);
    RunOf(s, Deciding(w), [s, checked, decided]);
  }

  /**
   * A denial, or an approval with a gate off, of an executable action: nothing runs, and the row says what was decided.
   */
  lemma {:induction false} DecisionIsRecorded(s: State, w: Worker, a: Id, approve: bool, gatesOn: bool)
    requires Executable(s, a) && !(approve && gatesOn) && w !in s.pcs
    ensures Enabled(s, By(w, OpenResolve(a, approve, gatesOn)))
    ensures var begun := Apply(s, By(w, OpenResolve(a, approve, gatesOn)));
            && IsRun(begun, Deciding(w))
            && var t := After(begun, Deciding(w));
               && t.rows == WithStatus(s.rows, a, Recorded(approve)) && t.ran == s.ran && t.sent == s.sent
               && t.pcs == s.pcs[w := Gone(SaysDecided(a, approve))]
  {
    var begun := Apply(s, By(w, OpenResolve(a, approve, gatesOn)));
    assert begun == s.(pcs := s.pcs[w := Choosing(a, approve, None)]);
    DecidingGoes(begun, w, a, approve, None);
    Overwritten(s.pcs, w, begun.pcs[w], Gone(SaysDecided(a, approve)));
  }

  /** A replacement is proposed, as a patch of its own, before anything is decided about the one it replaces ... */
  lemma {:induction false} ReplacementIsProposed(s: State, w: Worker, a: Id, raised: Id)
    requires Decidable(s, a) && s.rows[a].tool == Patch && w !in s.pcs && raised !in s.rows
    ensures Enabled(s, By(w, OpenReplace(a))) && Enabled(Apply(s, By(w, OpenReplace(a))), By(w, Raise(raised)))
    ensures Apply(Apply(s, By(w, OpenReplace(a))), By(w, Raise(raised))) ==
            s.(rows := s.rows[raised := Row(Patch, false, Pending, NoIntent)],
               pcs := s.pcs[w := Choosing(a, false, Some(raised))])
  {
    var begun := Apply(s, By(w, OpenReplace(a)));
    assert begun == s.(pcs := s.pcs[w := Replacing(a)]);
    Overwritten(s.pcs, w, Replacing(a), Choosing(a, false, Some(raised)));
  }

  /** ... which is then denied under its name. */
  lemma {:induction false} ReplacedIsDenied(s: State, w: Worker, a: Id, raised: Id)
    requires Decidable(s, a) && w in s.pcs && s.pcs[w] == Choosing(a, false, Some(raised))
    ensures IsRun(s, Deciding(w))
    ensures var t := After(s, Deciding(w));
            && t.rows == WithStatus(s.rows, a, Denied) && t.ran == s.ran && (a, raised) in t.named
            && t.pcs == s.pcs[w := Gone(SaysReplaced(a, raised))]
  {
    DecidingGoes(s, w, a, false, Some(raised));
  }

  // ----- Connector writes -----

  /** A decidable approval of a connector write that is still waiting for it. */
  predicate Writable(s: State, a: Id) {
    Decidable(s, a) && s.rows[a].tool == OtherTool && s.rows[a].intent == AwaitingApproval
  }

  function WithIntent(rows: Rows, a: Id, intent: Intent): Rows
    requires a in rows
  {
    rows[a := rows[a].(intent := intent)]
  }

  /** The decision on a connector write is recorded first, whatever the gates say. */
  lemma {:induction false} WriteIsDecided(s: State, w: Worker, a: Id, approve: bool, gatesOn: bool)
    requires Writable(s, a) && w !in s.pcs
    ensures Enabled(s, By(w, OpenResolve(a, approve, gatesOn)))
    ensures var begun := Apply(s, By(w, OpenResolve(a, approve, gatesOn)));
            && IsRun(begun, Deciding(w))
            && var t := After(begun, Deciding(w));
               && t.rows == WithStatus(s.rows, a, Recorded(approve)) && t.ran == s.ran && t.sent == s.sent
               && t.pcs == s.pcs[w := Intending(a, approve)]
  {
    var begun := Apply(s, By(w, OpenResolve(a, approve, gatesOn)));
    assert begun == s.(pcs := s.pcs[w := Choosing(a, approve, None)]);
    DecidingGoes(begun, w, a, approve, None);
    Overwritten(s.pcs, w, begun.pcs[w], Intending(a, approve));
  }

  /** Approved, it is then held for its undo window; denied, it is refused. */
  lemma {:induction false} WriteIsHeld(s: State, w: Worker, a: Id, approve: bool)
    requires a in s.rows && s.rows[a].intent == AwaitingApproval && w in s.pcs && s.pcs[w] == Intending(a, approve)
    ensures Enabled(s, By(w, Intend))
    ensures var t := Apply(s, By(w, Intend));
            && t.rows == WithIntent(s.rows, a, if approve then Held else Refused)
            && t.pcs == s.pcs[w := if approve then Waiting(a) else Gone(SaysDecided(a, false))]
            && t.ran == s.ran && t.sent == s.sent
  {
  }

  function Sending(w: Worker, ok: bool): seq<Step> { [By(w, ClaimHeld), By(w, Invoke(ok)), By(w, Record)] }

  lemma {:induction false} WindowEnds(s: State, w: Worker, a: Id)
    requires a in s.rows && s.rows[a].intent == Held && w in s.pcs && s.pcs[w] == Waiting(a)
    ensures Enabled(s, By(w, ClaimHeld))
    ensures Apply(s, By(w, ClaimHeld)) ==
            s.(rows := WithIntent(s.rows, a, Intent.Sending), pcs := s.pcs[w := Invoking(a)])
  {
  }

  lemma {:induction false} OutcomeIsRecorded(s: State, w: Worker, a: Id, ok: bool)
    requires a in s.rows && w in s.pcs && s.pcs[w] == Recording(a, ok)
    ensures Enabled(s, By(w, Record))
    ensures Apply(s, By(w, Record)) ==
            s.(rows := WithIntent(s.rows, a, if ok then Sent else SendFailed), pcs := s.pcs[w := Gone(SaysSent(a, ok))])
  {
  }

  /** At the end of its window a held write is sent, once, and its outcome is recorded. */
  lemma {:induction false} HeldWriteIsSent(s: State, w: Worker, a: Id, ok: bool)
    requires a in s.rows && s.rows[a].intent == Held && w in s.pcs && s.pcs[w] == Waiting(a)
    ensures IsRun(s, Sending(w, ok))
    ensures var t := After(s, Sending(w, ok));
            && t.rows == WithIntent(s.rows, a, if ok then Sent else SendFailed)
            && t.sent == s.sent + multiset{a} && t.pcs == s.pcs[w := Gone(SaysSent(a, ok))]
  {
    WindowEnds(s, w, a);
    var s1 := Apply(s, By(w, ClaimHeld));
    var s2 := Apply(s1, By(w, Invoke(ok)));
    assert s2 == s1.(pcs := s1.pcs[w := Recording(a, ok)], sent := s.sent + multiset{a});
    OutcomeIsRecorded(s2, w, a, ok);
    var s3 := Apply(s2, By(w, Record));
    Overwritten(s.rows, a, s1.rows[a], s3.rows[a]);
    Overwritten(s.pcs, w, s1.pcs[w], s2.pcs[w]);
    Overwritten(s.pcs, w, s2.pcs[w], s3.pcs[w]);
    RunOf(s, Sending(w, ok), [s, s1, s2, s3]);
  }

  /** Undone inside its window, it is not: the waiting request says so and sends nothing. */
  lemma {:induction false} UndoneWriteIsNotSent(s: State, w: Worker, a: Id)
    requires a in s.rows && s.rows[a].intent == Held && w in s.pcs && s.pcs[w] == Waiting(a)
    ensures var undone := Apply(s, Undo(a));
            && undone.rows[a].intent == Undone && Enabled(undone, By(w, ClaimHeld))
            && Apply(undone, By(w, ClaimHeld)) == undone.(pcs := s.pcs[w := Gone(SaysUndone(a))])
  {
  }

  // ----- Rows nobody decides any more -----

  /** An approval that is no longer pending is refused at every door's next look, and nothing about it changes. */
  lemma {:induction false} ClosedIsRefused(s: State, w: Worker, act: Act)
    requires Enabled(s, By(w, act)) && w in s.pcs && (act == Recheck || act == Claim || act == Check)
    requires s.pcs[w].target in s.rows && s.rows[s.pcs[w].target].status != Pending
    ensures Apply(s, By(w, act)) == s.(pcs := s.pcs[w := Gone(Refusal)])
  {
  }

  /** Time and an owner's answer close pending rows only. */
  lemma {:induction false} ExpiryClosesPending(s: State, a: Id)
    requires a in s.rows
    ensures var t := Apply(s, Expire(a));
            t == if s.rows[a].status == Pending then s.(rows := s.rows[a := s.rows[a].(status := Expired)]) else s
    ensures s.rows[a].tool == Question ==>
            var t := Apply(s, AnswerQuestion(a));
            t == if s.rows[a].status == Pending then s.(rows := s.rows[a := s.rows[a].(status := Answered)]) else s
  {
  }
}
