/** Connector writes: held, undone, sent at most once, and what a denial of one is worth. */
module ApprovalSends {
  import opened Options
  import opened Approvals
  import opened ApprovalSafety

  predicate Sender(pc: Pc) { pc.Waiting? || pc.Invoking? || pc.Recording? }

  /** The write has been taken into its undo window, whatever became of it there. */
  predicate InWindow(intent: Intent) {
    intent.Held? || intent.Sending? || intent.Sent? || intent.SendFailed? || intent.Undone?
  }

  predicate SendingOrSent(intent: Intent) { intent.Sending? || intent.Sent? || intent.SendFailed? }

  ghost predicate RowSend(s: State, a: Id)
    requires a in s.rows
  {
    var intent := s.rows[a].intent;
    && s.sent[a] <= 1
    && (s.sent[a] == 1 ==> SendingOrSent(intent))
    && (intent.Sent? || intent.SendFailed? ==> s.sent[a] == 1)
    && (InWindow(intent) <==> a in s.sender)
    && (intent.Held? ==> s.sender[a] in s.pcs && s.pcs[s.sender[a]] == Waiting(a))
    && (intent.Sending? && s.sent[a] == 0 ==> s.sender[a] in s.pcs && s.pcs[s.sender[a]] == Invoking(a))
  }

  ghost predicate PcSend(s: State, w: Worker)
    requires w in s.pcs
  {
    var pc := s.pcs[w];
    Sender(pc) ==>
      && pc.target in s.rows && pc.target in s.sender && s.sender[pc.target] == w
      && (pc.Waiting? ==> s.rows[pc.target].intent.Held? || s.rows[pc.target].intent.Undone?)
      && (pc.Invoking? || pc.Recording? ==> s.rows[pc.target].intent.Sending?)
      && s.sent[pc.target] == (if pc.Recording? then 1 else 0)
  }

  ghost predicate SendOk(s: State) {
    && (forall a :: a in s.rows ==> RowSend(s, a))
    && (forall w :: w in s.pcs ==> PcSend(s, w))
    && (forall a :: a in s.sent || a in s.sender ==> a in s.rows)
  }

  // ----- Statements that touch no write -----

  predicate StillIntent(r: Row, q: Row) {
    q.intent == r.intent || (r.intent.Held? && q.intent.Undone?) || (r.intent.AwaitingApproval? && q.intent.Refused?)
  }

  ghost predicate IntentsStay(rows: Rows, next: Rows) {
    && (forall a :: a in rows ==> a in next && StillIntent(rows[a], next[a]))
    && (forall a :: a in next && a !in rows ==> !InWindow(next[a].intent))
  }

  lemma StillRowsKeepSend(s: State, rows: Rows)
    requires SendOk(s) && IntentsStay(s.rows, rows)
    ensures SendOk(s.(rows := rows))
  {
    var t := s.(rows := rows);
    forall a | a in rows ensures RowSend(t, a) {
      if a in s.rows { assert RowSend(s, a) && StillIntent(s.rows[a], rows[a]); }
    }
    forall w | w in t.pcs ensures PcSend(t, w) {
      assert PcSend(s, w);
      var pc := t.pcs[w];
      if Sender(pc) { assert StillIntent(s.rows[pc.target], rows[pc.target]); }
    }
  }

  lemma SameSends(s: State, t: State, w: Worker)
    requires SendOk(s) && t.rows == s.rows && t.sent == s.sent && t.sender == s.sender
    requires w in t.pcs && !Sender(t.pcs[w]) && (w in s.pcs ==> !Sender(s.pcs[w])) && t.pcs == s.pcs[w := t.pcs[w]]
    ensures SendOk(t)
  {
    forall a | a in t.rows ensures RowSend(t, a) {
      assert RowSend(s, a);
    }
    forall v | v in t.pcs ensures PcSend(t, v) {
      if v != w { assert PcSend(s, v); }
    }
  }

  lemma StillNote(s: State, w: Worker, note: Note, approve: bool)
    requires !note.Holds? && !note.Sends?
    ensures var t := Noted(s, w, note, approve); t.sent == s.sent && t.sender == s.sender
  {
  }

  lemma StillEffectKeepsSend(s: State, w: Worker, e: Effect)
    requires SendOk(s) && !Sender(e.pc) && (w in s.pcs ==> !Sender(s.pcs[w]))
    requires IntentsStay(s.rows, e.rows) && !e.note.Holds? && !e.note.Sends?
    ensures SendOk(Taken(s, w, e))
  {
    var still := e.(rows := s.rows);
    StillNote(s, w, e.note, Approving(s, w));
    SameSends(s, Taken(s, w, still), w);
    StillRowsKeepSend(Taken(s, w, still), e.rows);
    assert Taken(s, w, e) == Taken(s, w, still).(rows := e.rows);
  }

  predicate IsSend(act: Act) { act.Intend? || act.ClaimHeld? || act.Invoke? || act.Record? }

  lemma EffectIsStill(s: State, w: Worker, act: Act)
    requires Enabled(s, By(w, act)) && !IsSend(act)
    ensures var e := EffectOf(s, w, act);
            !Sender(e.pc) && !e.note.Holds? && !e.note.Sends? && (w in s.pcs ==> !Sender(s.pcs[w]))
  {
  }

  lemma EffectIntentsStay(s: State, w: Worker, act: Act)
    requires Enabled(s, By(w, act)) && !IsSend(act)
    ensures IntentsStay(s.rows, EffectOf(s, w, act).rows)
  {
  }

  // ----- Statements of a send -----

  lemma IntendKeepsSend(s: State, w: Worker)
    requires SendOk(s) && w in s.pcs && s.pcs[w].Intending?
    ensures SendOk(Taken(s, w, Intends(s, s.pcs[w])))
  {
    var e, a := Intends(s, s.pcs[w]), s.pcs[w].target;
    if s.pcs[w].approve && IntentMoves(s.rows, a, AwaitingApproval) {
      HoldKeepsSend(s, w);
    } else {
      StillEffectKeepsSend(s, w, e);
    }
  }

  lemma HoldKeepsSend(s: State, w: Worker)
    requires SendOk(s) && w in s.pcs && s.pcs[w].Intending? && s.pcs[w].approve
    requires IntentMoves(s.rows, s.pcs[w].target, AwaitingApproval)
    ensures SendOk(Taken(s, w, Intends(s, s.pcs[w])))
  {
    var t, a := Taken(s, w, Intends(s, s.pcs[w])), s.pcs[w].target;
    assert RowSend(s, a);
    forall b | b in t.rows ensures RowSend(t, b) {
      if b != a { assert RowSend(s, b); }
    }
    forall v | v in t.pcs ensures PcSend(t, v) {
      if v != w { assert PcSend(s, v); }
    }
  }

  lemma ClaimHeldKeepsSend(s: State, w: Worker)
    requires SendOk(s) && w in s.pcs && s.pcs[w].Waiting?
    ensures SendOk(Taken(s, w, ClaimsHeld(s, s.pcs[w])))
  {
    var t, a := Taken(s, w, ClaimsHeld(s, s.pcs[w])), s.pcs[w].target;
    assert PcSend(s, w) && RowSend(s, a);
    forall b | b in t.rows ensures RowSend(t, b) {
      assert RowSend(s, b);
    }
    forall v | v in t.pcs ensures PcSend(t, v) {
      if v != w { assert PcSend(s, v); }
    }
  }

  lemma InvokeKeepsSend(s: State, w: Worker, ok: bool)
    requires SendOk(s) && w in s.pcs && s.pcs[w].Invoking?
    ensures SendOk(Apply(s, By(w, Invoke(ok))))
  {
    var t, a := Apply(s, By(w, Invoke(ok))), s.pcs[w].target;
    assert PcSend(s, w) && RowSend(s, a);
    forall b | b in t.rows ensures RowSend(t, b) {
      assert RowSend(s, b);
    }
    forall v | v in t.pcs ensures PcSend(t, v) {
      if v != w { assert PcSend(s, v); }
    }
  }

  lemma RecordKeepsSend(s: State, w: Worker)
    requires SendOk(s) && Enabled(s, By(w, Record))
    ensures SendOk(Apply(s, By(w, Record)))
  {
    var t, a := Apply(s, By(w, Record)), s.pcs[w].target;
    assert PcSend(s, w) && RowSend(s, a);
    forall b | b in t.rows ensures RowSend(t, b) {
      assert RowSend(s, b);
    }
    forall v | v in t.pcs ensures PcSend(t, v) {
      if v != w { assert PcSend(s, v); }
    }
  }

  lemma ActKeepsSend(s: State, w: Worker, act: Act)
    requires SendOk(s) && Enabled(s, By(w, act))
    ensures SendOk(Apply(s, By(w, act)))
  {
    match act
    case Intend => IntendKeepsSend(s, w);
    case ClaimHeld => ClaimHeldKeepsSend(s, w);
    case Invoke(ok) => InvokeKeepsSend(s, w, ok);
    case Record => RecordKeepsSend(s, w);
    case _ => StillActKeepsSend(s, w, act);
  }

  lemma StillActKeepsSend(s: State, w: Worker, act: Act)
    requires SendOk(s) && Enabled(s, By(w, act)) && !IsSend(act)
    ensures SendOk(Apply(s, By(w, act)))
  {
    EffectIsStill(s, w, act);
    EffectIntentsStay(s, w, act);
    StillEffectKeepsSend(s, w, EffectOf(s, w, act));
  }

  lemma OutsideKeepsSend(s: State, step: Step)
    requires SendOk(s) && Enabled(s, step) && !step.By?
    ensures SendOk(Apply(s, step))
  {
    if step.Offer? {
      OfferKeepsSend(s, step);
    } else {
      StillRowsKeepSend(s, Apply(s, step).rows);
    }
  }

  lemma OfferKeepsSend(s: State, step: Step)
    requires SendOk(s) && Enabled(s, step) && step.Offer?
    ensures SendOk(Apply(s, step))
  {
    var t := Apply(s, step);
    forall a | a in t.rows ensures RowSend(t, a) { assert RowSend(s, a); }
    forall w | w in t.pcs ensures PcSend(t, w) { assert PcSend(s, w); }
  }

  lemma StepKeepsSend(s: State, step: Step)
    requires SendOk(s) && Enabled(s, step)
    ensures SendOk(Apply(s, step))
  {
    match step
    case By(w, act) => ActKeepsSend(s, w, act);
    case _ => OutsideKeepsSend(s, step);
  }

  lemma {:induction false} RunKeepsSend(s: State, steps: seq<Step>)
    requires SendOk(s) && IsRun(s, steps)
    ensures SendOk(After(s, steps))
    decreases |steps|
  {
    if steps != [] {
      StepKeepsSend(s, steps[0]);
      RunKeepsSend(Apply(s, steps[0]), steps[1..]);
    }
  }

  /** In every run each connector write is sent at most once. */
  lemma {:induction false} SendsAtMostOnce(steps: seq<Step>, a: Id)
    requires IsRun(EMPTY, steps)
    ensures After(EMPTY, steps).sent[a] <= 1
  {
    RunKeepsSend(EMPTY, steps);
    var t := After(EMPTY, steps);
    if a in t.rows { assert RowSend(t, a); }
  }

  // ----- Undone or refused is for good -----

  predicate Dead(intent: Intent) { intent.Undone? || intent.Refused? }

  ghost predicate DeadIn(s: State, a: Id) { a in s.rows && Dead(s.rows[a].intent) }

  lemma SendKeepsDead(s: State, w: Worker, act: Act, a: Id)
    requires SendOk(s) && Enabled(s, By(w, act)) && DeadIn(s, a) && IsSend(act)
    ensures DeadIn(Apply(s, By(w, act)), a)
  {
    assert PcSend(s, w) && RowSend(s, a);
  }

  lemma ActKeepsDead(s: State, w: Worker, act: Act, a: Id)
    requires SendOk(s) && Enabled(s, By(w, act)) && DeadIn(s, a)
    ensures DeadIn(Apply(s, By(w, act)), a)
  {
    if IsSend(act) {
      SendKeepsDead(s, w, act, a);
    } else {
      EffectIntentsStay(s, w, act);
      assert StillIntent(s.rows[a], EffectOf(s, w, act).rows[a]);
    }
  }

  lemma StepKeepsDead(s: State, step: Step, a: Id)
    requires SendOk(s) && Enabled(s, step) && DeadIn(s, a)
    ensures DeadIn(Apply(s, step), a)
  {
    if step.By? { ActKeepsDead(s, step.w, step.act, a); }
  }

  lemma {:induction false} DeadNeverSends(s: State, steps: seq<Step>, a: Id)
    requires SendOk(s) && IsRun(s, steps) && DeadIn(s, a)
    ensures After(s, steps).sent[a] == 0 && DeadIn(After(s, steps), a)
    decreases |steps|
  {
    if steps == [] {
      assert RowSend(s, a);
    } else {
      StepKeepsDead(s, steps[0], a);
      StepKeepsSend(s, steps[0]);
      DeadNeverSends(Apply(s, steps[0]), steps[1..], a);
    }
  }

  ghost predicate NeverSends(s: State, a: Id) {
    forall steps :: IsRun(s, steps) ==> a !in After(s, steps).sent
  }

  /** An undo that changed a row has taken the write back for good. */
  lemma {:induction false} UndoIsFinal(s: State, a: Id)
    requires SendOk(s) && a in s.rows && s.rows[a].intent == Held
    ensures NeverSends(Apply(s, Undo(a)), a)
  {
    var t := Apply(s, Undo(a));
    StepKeepsSend(s, Undo(a));
    forall steps | IsRun(t, steps) ensures a !in After(t, steps).sent {
      DeadNeverSends(t, steps, a);
    }
  }

  lemma {:induction false} HeldCanSend(s: State, a: Id) returns (steps: seq<Step>)
    requires SendOk(s) && a in s.rows && InWindow(s.rows[a].intent) && !s.rows[a].intent.Undone?
    ensures IsRun(s, steps) && a in After(s, steps).sent
  {
    assert RowSend(s, a);
    if a in s.sent {
      steps := [];
    } else {
      var o := s.sender[a];
      if s.rows[a].intent.Held? {
        var t := Apply(s, By(o, ClaimHeld));
        OneStep(t, By(o, Invoke(true)));
        RunAfterStep(s, By(o, ClaimHeld), [By(o, Invoke(true))]);
        steps := [By(o, ClaimHeld)] + [By(o, Invoke(true))];
      } else {
        steps := [By(o, Invoke(true))];
        OneStep(s, steps[0]);
      }
    }
  }

  /**
   * A request that denies a connector write says so in any case. The write is then never sent exactly when
   * no approval had taken it into its undo window by the time of the denial's own update, or it was undone there.
   */
  lemma {:induction false} WriteDenialHoldsExactly(s: State, w: Worker)
    requires SendOk(s) && DoorOk(s) && Enabled(s, By(w, Intend)) && !s.pcs[w].approve
    ensures var a, t := s.pcs[w].target, Apply(s, By(w, Intend));
            a in s.rows && (NeverSends(t, a) <==> !InWindow(s.rows[a].intent) || s.rows[a].intent.Undone?)
    ensures Apply(s, By(w, Intend)).pcs[w] == Gone(SaysDecided(s.pcs[w].target, false))
  {
    var a, t := s.pcs[w].target, Apply(s, By(w, Intend));
    assert PcDoor(s.rows, s.pcs[w]);
    StepKeepsSend(s, By(w, Intend));
    if InWindow(s.rows[a].intent) && !s.rows[a].intent.Undone? {
      var steps := HeldCanSend(t, a);
      assert !NeverSends(t, a);
    } else {
      forall steps | IsRun(t, steps) ensures a !in After(t, steps).sent {
        DeadNeverSends(t, steps, a);
      }
    }
  }

  // ----- One event loop -----

  /**
   * Between a decision on a connector write and what follows it the route does not yield, so no other statement comes
   * there.
   */
  ghost predicate Prompt(s: State, step: Step) {
    forall w :: w in s.pcs && s.pcs[w].Intending? ==> step == By(w, Intend)
  }

  ghost predicate IsPromptRun(s: State, steps: seq<Step>)
    decreases |steps|
  {
    steps == [] ||
    (Enabled(s, steps[0]) && Prompt(s, steps[0]) && IsPromptRun(Apply(s, steps[0]), steps[1..]))
  }

  predicate Denying(pc: Pc, a: Id) { pc == Intending(a, false) }

  ghost predicate RowLoop(s: State, a: Id)
    requires a in s.rows
  {
    var row := s.rows[a];
    && (row.intent == NoIntent || row.tool.OtherTool?)
    && (InWindow(row.intent) ==> !row.status.Pending? && !row.status.Denied?)
    && (row.status.Denied? && row.intent.AwaitingApproval? ==> exists w :: w in s.pcs && Denying(s.pcs[w], a))
  }

  ghost predicate PcLoop(s: State, w: Worker)
    requires w in s.pcs
  {
    var pc := s.pcs[w];
    && (pc.Intending? ==> pc.target in s.rows && !s.rows[pc.target].status.Pending?)
    && (pc.Replacing? ==> pc.target in s.rows && s.rows[pc.target].tool.Patch?)
    && ((pc.Choosing? || pc.Deciding?) && pc.replacement.Some? ==> pc.target in s.rows && s.rows[pc.target].tool.Patch?)
  }

  ghost predicate LoopOk(s: State) {
    && (forall a :: a in s.rows ==> RowLoop(s, a))
    && (forall w :: w in s.pcs ==> PcLoop(s, w))
    && (forall v, w :: v in s.pcs && w in s.pcs && s.pcs[v].Intending? && s.pcs[w].Intending? ==> v == w)
  }

  /** Statuses and writes as some statement may leave them when no decision on a write is under way. */
  predicate LoopRowNext(r: Row, q: Row) {
    && q.tool == r.tool && (q.intent == NoIntent <==> r.intent == NoIntent)
    && (q.status == r.status || r.intent == NoIntent || (r.status.Pending? && q.status.Expired?))
    && (q.intent == r.intent || (InWindow(r.intent) && InWindow(q.intent)))
  }

  ghost predicate LoopRowsNext(rows: Rows, next: Rows) {
    && (forall a :: a in rows ==> a in next && LoopRowNext(rows[a], next[a]))
    && (forall a :: a in next && a !in rows ==> Fresh(next[a]))
  }

  predicate Calm(pcs: map<Worker, Pc>) { forall w :: w in pcs ==> !pcs[w].Intending? }

  lemma CalmStepKeepsLoop(s: State, t: State)
    requires LoopOk(s) && Calm(s.pcs) && LoopRowsNext(s.rows, t.rows) && Calm(t.pcs)
    requires forall w :: w in t.pcs ==> PcLoop(t, w)
    ensures LoopOk(t)
  {
    forall a | a in t.rows ensures RowLoop(t, a) {
      if a in s.rows { assert RowLoop(s, a) && LoopRowNext(s.rows[a], t.rows[a]); }
    }
  }

  predicate IsDecision(act: Act) { act.Decide? || act.Intend? }

  lemma EffectLoopRows(s: State, w: Worker, act: Act)
    requires Enabled(s, By(w, act)) && !IsDecision(act) && (w in s.pcs ==> PcDoor(s.rows, s.pcs[w]))
    requires w in s.pcs ==> PcSend(s, w)
    ensures LoopRowsNext(s.rows, EffectOf(s, w, act).rows)
  {
    var e := EffectOf(s, w, act);
    if !act.Claim? && !act.Settle? && !act.ClaimHeld? && !act.Record? && !act.Raise? {
      assert e.rows == s.rows;
    }
  }

  lemma EffectLoopPc(s: State, w: Worker, act: Act)
    requires Enabled(s, By(w, act)) && !IsDecision(act) && (w in s.pcs ==> PcLoop(s, w))
    ensures var e := EffectOf(s, w, act); !e.pc.Intending? && PcLoop(s.(pcs := s.pcs[w := e.pc]), w)
  {
  }

  lemma PcLoopStays(s: State, t: State, w: Worker)
    requires w in s.pcs && w in t.pcs && t.pcs[w] == s.pcs[w] && PcLoop(s, w) && !s.pcs[w].Intending?
    requires LoopRowsNext(s.rows, t.rows)
    ensures PcLoop(t, w)
  {
    var pc := s.pcs[w];
    if !pc.Gone? && !pc.Answering? && pc.target in s.rows {
      assert LoopRowNext(s.rows[pc.target], t.rows[pc.target]);
    }
  }

  lemma CalmEffectKeepsLoop(s: State, w: Worker, pc: Pc, t: State)
    requires LoopOk(s) && Calm(s.pcs) && LoopRowsNext(s.rows, t.rows) && t.pcs == s.pcs[w := pc]
    requires !pc.Intending? && PcLoop(s.(pcs := s.pcs[w := pc]), w)
    ensures LoopOk(t)
  {
    var u := s.(pcs := s.pcs[w := pc]);
    forall v | v in t.pcs ensures PcLoop(t, v) {
      assert v != w ==> PcLoop(s, v);
      PcLoopStays(u, t, v);
    }
    CalmStepKeepsLoop(s, t);
  }

  lemma OtherActKeepsLoop(s: State, w: Worker, act: Act)
    requires LoopOk(s) && DoorOk(s) && SendOk(s) && Enabled(s, By(w, act)) && !IsDecision(act) && Calm(s.pcs)
    ensures LoopOk(Apply(s, By(w, act)))
  {
    assert w in s.pcs ==> PcSend(s, w) && PcDoor(s.rows, s.pcs[w]) && PcLoop(s, w);
    EffectLoopRows(s, w, act);
    EffectLoopPc(s, w, act);
    CalmEffectKeepsLoop(s, w, EffectOf(s, w, act).pc, Apply(s, By(w, act)));
  }

  lemma DecideKeepsLoop(s: State, w: Worker)
    requires LoopOk(s) && DoorOk(s) && Enabled(s, By(w, Decide)) && Calm(s.pcs)
    ensures LoopOk(Apply(s, By(w, Decide)))
  {
    var t, pc := Apply(s, By(w, Decide)), s.pcs[w];
    assert PcLoop(s, w) && RowLoop(s, pc.target);
    assert t.rows == Moved(s.rows, pc.target, Pending, if pc.approve then Approved else Denied);
    forall a | a in t.rows ensures RowLoop(t, a) {
      assert RowLoop(s, a);
      if a == pc.target && t.rows[a].status.Denied? && t.rows[a].intent.AwaitingApproval? {
        assert s.rows[a].status.Pending?;
        assert Denying(t.pcs[w], a);
      }
    }
    forall v | v in t.pcs ensures PcLoop(t, v) {
      if v != w { assert PcLoop(s, v); }
    }
  }

  lemma IntendKeepsRow(s: State, w: Worker, a: Id)
    requires LoopOk(s) && Enabled(s, By(w, Intend)) && a in s.rows
    ensures a in Apply(s, By(w, Intend)).rows && RowLoop(Apply(s, By(w, Intend)), a)
  {
    assert PcLoop(s, w) && RowLoop(s, a);
    if s.rows[a].status.Denied? && s.rows[a].intent.AwaitingApproval? {
      var v :| v in s.pcs && Denying(s.pcs[v], a);
      assert v == w;
    }
  }

  lemma IntendKeepsLoop(s: State, w: Worker)
    requires LoopOk(s) && Enabled(s, By(w, Intend))
    ensures LoopOk(Apply(s, By(w, Intend)))
  {
    var t := Apply(s, By(w, Intend));
    assert PcLoop(s, w);
    forall a | a in t.rows ensures RowLoop(t, a) {
      IntendKeepsRow(s, w, a);
    }
    forall v | v in t.pcs ensures PcLoop(t, v) {
      if v != w { assert PcLoop(s, v); }
    }
  }

  lemma OutsideKeepsLoop(s: State, step: Step)
    requires LoopOk(s) && Enabled(s, step) && !step.By? && Calm(s.pcs)
    ensures LoopOk(Apply(s, step))
  {
    var t := Apply(s, step);
    assert t.pcs == s.pcs;
    if step.AnswerQuestion? { assert RowLoop(s, step.a); }
    forall v | v in t.pcs ensures PcLoop(t, v) {
      assert PcLoop(s, v);
      PcLoopStays(s, t, v);
    }
    CalmStepKeepsLoop(s, t);
  }

  lemma StepKeepsLoop(s: State, step: Step)
    requires LoopOk(s) && DoorOk(s) && SendOk(s) && Enabled(s, step) && Prompt(s, step)
    ensures LoopOk(Apply(s, step))
  {
    match step
    case By(w, act) =>
      if act.Intend? {
        IntendKeepsLoop(s, w);
      } else {
        assert Calm(s.pcs);
        if act.Decide? { DecideKeepsLoop(s, w); } else { OtherActKeepsLoop(s, w, act); }
      }
    case _ => OutsideKeepsLoop(s, step);
  }

  lemma {:induction false} PromptRunKeepsLoop(s: State, steps: seq<Step>)
    requires LoopOk(s) && DoorOk(s) && SendOk(s) && IsPromptRun(s, steps)
    ensures IsRun(s, steps) && LoopOk(After(s, steps)) && SendOk(After(s, steps))
    decreases |steps|
  {
    if steps != [] {
      StepKeepsLoop(s, steps[0]);
      StepKeepsDoor(s, steps[0]);
      StepKeepsSend(s, steps[0]);
      PromptRunKeepsLoop(Apply(s, steps[0]), steps[1..]);
    }
  }

  /** On one event loop a connector write whose approval row says denied has not been sent. */
  lemma {:induction false} DeniedWriteIsNotSent(steps: seq<Step>, a: Id)
    requires IsPromptRun(EMPTY, steps)
    ensures IsRun(EMPTY, steps)
    ensures StatusIs(After(EMPTY, steps), a, Denied) ==> After(EMPTY, steps).sent[a] == 0
  {
    PromptRunKeepsLoop(EMPTY, steps);
    var t := After(EMPTY, steps);
    if StatusIs(t, a, Denied) { assert RowLoop(t, a) && RowSend(t, a); }
  }

  /**
   * With two event loops it can be: both look, the denial is recorded, and the approval takes the write before the
   * denial does.
   */
  lemma {:induction false} DeniedWriteCanBeSent() returns (steps: seq<Step>)
    ensures IsRun(EMPTY, steps)
    ensures var s := After(EMPTY, steps); StatusIs(s, 0, Denied) && 0 in s.sent
  {
    var row := Row(OtherTool, false, Pending, AwaitingApproval);
    var s0 := Apply(EMPTY, Propose(0, row));
    var deny := BothLook(s0, 0, false);
    var s1 := After(s0, deny);
    var approve := BothLook(s1, 1, true);
    var s2 := After(s1, approve);
    var take := [By(0, Decide), By(1, Decide), By(1, Intend)];
    DenialThenHold(s2);
    var s3 := After(s2, take);
    RunsJoin(s1, approve, take);
    RunsJoin(s0, deny, approve + take);
    var front := deny + (approve + take);
    RunAfterStep(EMPTY, Propose(0, row), front);
    RunKeepsSend(EMPTY, [Propose(0, row)] + front);
    var send := HeldCanSend(s3, 0);
    DeniedStays(s3, send);
    RunsJoin(EMPTY, [Propose(0, row)] + front, send);
    steps := [Propose(0, row)] + front + send;
  }

  lemma BothLook(s: State, w: Worker, approve: bool) returns (steps: seq<Step>)
    requires w !in s.pcs && 0 in s.rows && s.rows[0] == Row(OtherTool, false, Pending, AwaitingApproval)
    ensures IsRun(s, steps)
    ensures After(s, steps).rows == s.rows && After(s, steps).pcs == s.pcs[w := Deciding(0, approve, None)]
  {
    var p, q := By(w, OpenResolve(0, approve, true)), By(w, Check);
    var t := Apply(s, p);
    assert t.pcs[w] == Choosing(0, approve, None) && t.rows == s.rows;
    OneStep(t, q);
    RunAfterStep(s, p, [q]);
    steps := [p] + [q];
    assert Apply(t, q).pcs == s.pcs[w := Deciding(0, approve, None)];
  }

  lemma DenialThenHold(s: State)
    requires 0 in s.rows && s.rows[0] == Row(OtherTool, false, Pending, AwaitingApproval)
    requires 0 in s.pcs && s.pcs[0] == Deciding(0, false, None) && 1 in s.pcs && s.pcs[1] == Deciding(0, true, None)
    ensures var steps := [By(0, Decide), By(1, Decide), By(1, Intend)];
            IsRun(s, steps) && StatusIs(After(s, steps), 0, Denied) && After(s, steps).rows[0].intent == Held
  {
    var s1 := Apply(s, By(0, Decide));
    DenialRecorded(s);
    ApprovalGoesOn(s1);
    HeldThough(Apply(s1, By(1, Decide)));
    ThreeSteps(s, By(0, Decide), By(1, Decide), By(1, Intend));
  }

  lemma DenialRecorded(s: State)
    requires 0 in s.rows && s.rows[0] == Row(OtherTool, false, Pending, AwaitingApproval)
    requires 0 in s.pcs && s.pcs[0] == Deciding(0, false, None) && 1 in s.pcs
    ensures Enabled(s, By(0, Decide))
    ensures var t := Apply(s, By(0, Decide));
            && 0 in t.rows && t.rows[0] == Row(OtherTool, false, Denied, AwaitingApproval)
            && 1 in t.pcs && t.pcs[1] == s.pcs[1]
  {
  }

  lemma ApprovalGoesOn(s: State)
    requires 0 in s.rows && s.rows[0] == Row(OtherTool, false, Denied, AwaitingApproval)
    requires 1 in s.pcs && s.pcs[1] == Deciding(0, true, None)
    ensures Enabled(s, By(1, Decide))
    ensures var t := Apply(s, By(1, Decide)); t.rows == s.rows && 1 in t.pcs && t.pcs[1] == Intending(0, true)
  {
  }

  lemma HeldThough(s: State)
    requires 0 in s.rows && s.rows[0] == Row(OtherTool, false, Denied, AwaitingApproval)
    requires 1 in s.pcs && s.pcs[1] == Intending(0, true)
    ensures Enabled(s, By(1, Intend))
    ensures var t := Apply(s, By(1, Intend)); StatusIs(t, 0, Denied) && t.rows[0].intent == Held
  {
  }

  lemma {:induction false} DeniedStays(s: State, steps: seq<Step>)
    requires IsRun(s, steps) && StatusIs(s, 0, Denied)
    ensures StatusIs(After(s, steps), 0, Denied)
    decreases |steps|
  {
    if steps != [] {
      StepKeepsClosed(s, steps[0], 0, Denied);
      DeniedStays(Apply(s, steps[0]), steps[1..]);
    }
  }
}
