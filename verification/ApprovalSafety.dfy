/** What every interleaving of approvals, denials, replacements, expiries and undos keeps. */
module ApprovalSafety {
  import opened Options
  import opened Approvals

  // ----- Execution -----

  predicate Holding(pc: Pc) { pc.Claimed? || pc.Finishing? || pc.Releasing? }

  predicate RunningOrRun(status: Status) { status.Executing? || status.Executed? || status.ExecutionFailed? }

  /** An action has run at most once, only out of its claim, and a claimed row has the one request that claimed it. */
  ghost predicate RowExec(s: State, a: Id)
    requires a in s.rows
  {
    var status := s.rows[a].status;
    && s.ran[a] <= 1
    && (s.ran[a] == 1 ==> RunningOrRun(status))
    && (status.Executed? || status.ExecutionFailed? ==> s.ran[a] == 1)
    && (status.Executing? ==>
          a in s.owner && s.owner[a] in s.pcs && Holding(s.pcs[s.owner[a]]) && s.pcs[s.owner[a]].target == a)
  }

  ghost predicate PcExec(s: State, w: Worker)
    requires w in s.pcs
  {
    var pc := s.pcs[w];
    Holding(pc) ==>
      && pc.target in s.rows && s.rows[pc.target].status == Executing
      && pc.target in s.owner && s.owner[pc.target] == w
      && s.ran[pc.target] == (if pc.Finishing? then 1 else 0)
  }

  ghost predicate ExecOk(s: State) {
    && (forall a :: a in s.rows ==> RowExec(s, a))
    && (forall w :: w in s.pcs ==> PcExec(s, w))
    && (forall a :: a in s.ran ==> a in s.rows)
  }

  /** A status may change only away from pending, and not into a claim. */
  predicate QuietRow(r: Row, q: Row) { q.status == r.status || (r.status.Pending? && !RunningOrRun(q.status)) }

  ghost predicate QuietRows(rows: Rows, next: Rows) {
    && (forall a :: a in rows ==> a in next && QuietRow(rows[a], next[a]))
    && (forall a :: a in next && a !in rows ==> next[a].status.Pending?)
  }

  lemma QuietRowsKeepExec(s: State, rows: Rows)
    requires ExecOk(s) && QuietRows(s.rows, rows)
    ensures ExecOk(s.(rows := rows))
  {
    var t := s.(rows := rows);
    forall a | a in rows ensures RowExec(t, a) {
      if a in s.rows { assert RowExec(s, a) && QuietRow(s.rows[a], rows[a]); }
    }
    forall w | w in t.pcs ensures PcExec(t, w) {
      assert PcExec(s, w);
    }
  }

  lemma QuietNote(s: State, w: Worker, note: Note, approve: bool)
    requires !note.Wins? && !note.Runs?
    ensures var t := Noted(s, w, note, approve); t.ran == s.ran && t.owner == s.owner
  {
  }

  lemma QuietPcKeepsExec(s: State, w: Worker, e: Effect)
    requires ExecOk(s) && !Holding(e.pc) && (w in s.pcs ==> !Holding(s.pcs[w]))
    requires e.rows == s.rows && !e.note.Wins? && !e.note.Runs?
    ensures ExecOk(Taken(s, w, e))
  {
    QuietNote(s, w, e.note, Approving(s, w));
    SameClaims(s, Taken(s, w, e), w);
  }

  lemma SameClaims(s: State, t: State, w: Worker)
    requires ExecOk(s) && t.rows == s.rows && t.ran == s.ran && t.owner == s.owner
    requires w in t.pcs && !Holding(t.pcs[w]) && (w in s.pcs ==> !Holding(s.pcs[w])) && t.pcs == s.pcs[w := t.pcs[w]]
    ensures ExecOk(t)
  {
    forall a | a in t.rows ensures RowExec(t, a) {
      assert RowExec(s, a);
    }
    forall v | v in t.pcs ensures PcExec(t, v) {
      if v != w { assert PcExec(s, v); }
    }
  }

  /** Only the three statements of an execution touch claims. */
  predicate IsExecution(act: Act) { act.Claim? || act.Route? || act.Settle? }

  lemma EffectIsQuiet(s: State, w: Worker, act: Act)
    requires Enabled(s, By(w, act)) && !IsExecution(act)
    ensures var e := EffectOf(s, w, act);
            !Holding(e.pc) && !e.note.Wins? && !e.note.Runs? && (w in s.pcs ==> !Holding(s.pcs[w]))
  {
  }

  lemma EffectRowsAreQuiet(s: State, w: Worker, act: Act)
    requires Enabled(s, By(w, act)) && !IsExecution(act)
    ensures QuietRows(s.rows, EffectOf(s, w, act).rows)
  {
  }

  lemma QuietActKeepsExec(s: State, w: Worker, act: Act)
    requires ExecOk(s) && Enabled(s, By(w, act)) && !IsExecution(act)
    ensures ExecOk(Apply(s, By(w, act)))
  {
    EffectIsQuiet(s, w, act);
    EffectRowsAreQuiet(s, w, act);
    QuietEffectKeepsExec(s, w, EffectOf(s, w, act));
  }

  lemma QuietEffectKeepsExec(s: State, w: Worker, e: Effect)
    requires ExecOk(s) && !Holding(e.pc) && (w in s.pcs ==> !Holding(s.pcs[w]))
    requires QuietRows(s.rows, e.rows) && !e.note.Wins? && !e.note.Runs?
    ensures ExecOk(Taken(s, w, e))
  {
    QuietPcKeepsExec(s, w, e.(rows := s.rows));
    QuietRowsKeepExec(Taken(s, w, e.(rows := s.rows)), e.rows);
    assert Taken(s, w, e) == Taken(s, w, e.(rows := s.rows)).(rows := e.rows);
  }

  lemma ClaimKeepsExec(s: State, w: Worker)
    requires ExecOk(s) && w in s.pcs && s.pcs[w].Claiming?
    ensures ExecOk(Taken(s, w, Claims(s, s.pcs[w])))
  {
    var e, a := Claims(s, s.pcs[w]), s.pcs[w].target;
    if Moves(s.rows, a, Pending) {
      var t := Taken(s, w, e);
      assert RowExec(s, a);
      forall b | b in t.rows ensures RowExec(t, b) {
        if b != a { assert RowExec(s, b); }
      }
      forall v | v in t.pcs ensures PcExec(t, v) {
        if v != w { assert PcExec(s, v); }
      }
    } else {
      QuietPcKeepsExec(s, w, e);
    }
  }

  lemma RouteKeepsExec(s: State, w: Worker, outcome: Outcome)
    requires ExecOk(s) && w in s.pcs && s.pcs[w].Claimed?
    ensures ExecOk(Apply(s, By(w, Route(outcome))))
  {
    var t, a := Apply(s, By(w, Route(outcome))), s.pcs[w].target;
    assert PcExec(s, w) && RowExec(s, a);
    assert t.rows == s.rows && t.owner == s.owner;
    forall b | b in t.rows ensures RowExec(t, b) {
      if b != a { assert RowExec(s, b); }
    }
    forall v | v in t.pcs ensures PcExec(t, v) {
      if v != w { assert PcExec(s, v); }
    }
  }

  lemma SettleKeepsExec(s: State, w: Worker)
    requires ExecOk(s) && w in s.pcs && (s.pcs[w].Finishing? || s.pcs[w].Releasing?)
    ensures ExecOk(Taken(s, w, Settling(s, s.pcs[w])))
  {
    var t, a := Taken(s, w, Settling(s, s.pcs[w])), s.pcs[w].target;
    assert PcExec(s, w) && RowExec(s, a);
    forall b | b in t.rows ensures RowExec(t, b) {
      if b != a { assert RowExec(s, b); }
    }
    forall v | v in t.pcs ensures PcExec(t, v) {
      if v != w { assert PcExec(s, v); }
    }
  }

  lemma ActKeepsExec(s: State, w: Worker, act: Act)
    requires ExecOk(s) && Enabled(s, By(w, act))
    ensures ExecOk(Apply(s, By(w, act)))
  {
    match act
    case Claim => ClaimKeepsExec(s, w);
    case Route(outcome) => RouteKeepsExec(s, w, outcome);
    case Settle => SettleKeepsExec(s, w);
    case _ => QuietActKeepsExec(s, w, act);
  }

  lemma StepKeepsExec(s: State, step: Step)
    requires ExecOk(s) && Enabled(s, step)
    ensures ExecOk(Apply(s, step))
  {
    match step
    case By(w, act) => ActKeepsExec(s, w, act);
    case _ => OutsideKeepsExec(s, step);
  }

  lemma OutsideKeepsExec(s: State, step: Step)
    requires ExecOk(s) && Enabled(s, step) && !step.By?
    ensures ExecOk(Apply(s, step))
  {
    var t := Apply(s, step);
    if step.Offer? {
      forall a | a in t.rows ensures RowExec(t, a) { assert RowExec(s, a); }
      forall w | w in t.pcs ensures PcExec(t, w) { assert PcExec(s, w); }
    } else {
      QuietRowsKeepExec(s, t.rows);
    }
  }

  lemma {:induction false} RunKeepsExec(s: State, steps: seq<Step>)
    requires ExecOk(s) && IsRun(s, steps)
    ensures ExecOk(After(s, steps))
    decreases |steps|
  {
    if steps != [] {
      StepKeepsExec(s, steps[0]);
      RunKeepsExec(Apply(s, steps[0]), steps[1..]);
    }
  }

  /** In every run each action executes at most once, and only while its row is claimed or says it ran. */
  lemma {:induction false} ExecutesAtMostOnce(steps: seq<Step>, a: Id)
    requires IsRun(EMPTY, steps)
    ensures After(EMPTY, steps).ran[a] <= 1
    ensures a in After(EMPTY, steps).ran ==>
      a in After(EMPTY, steps).rows && RunningOrRun(After(EMPTY, steps).rows[a].status)
  {
    RunKeepsExec(EMPTY, steps);
    var t := After(EMPTY, steps);
    if a in t.rows { assert RowExec(t, a); }
  }

  // ----- Decisions are final -----

  predicate Closed(status: Status) { status.Approved? || status.Denied? || status.Expired? || status.Answered? }

  ghost predicate StatusIs(s: State, a: Id, status: Status) { a in s.rows && s.rows[a].status == status }

  lemma StepKeepsClosed(s: State, step: Step, a: Id, status: Status)
    requires Enabled(s, step) && Closed(status) && StatusIs(s, a, status)
    ensures StatusIs(Apply(s, step), a, status)
  {
    match step {
      case By(w, act) =>
        if IsExecution(act) {
        } else {
          EffectRowsAreQuiet(s, w, act);
          assert QuietRow(s.rows[a], EffectOf(s, w, act).rows[a]);
        }
      case _ =>
    }
  }

  /** A row recorded as denied, approved, expired or answered stays so, and its action never executes. */
  lemma {:induction false} DeniedNeverRuns(s: State, steps: seq<Step>, a: Id)
    requires ExecOk(s) && IsRun(s, steps) && a in s.rows && Closed(s.rows[a].status)
    ensures StatusIs(After(s, steps), a, s.rows[a].status) && After(s, steps).ran[a] == 0
    decreases |steps|
  {
    if steps == [] {
      assert RowExec(s, a);
    } else {
      StepKeepsExec(s, steps[0]);
      StepKeepsClosed(s, steps[0], a, s.rows[a].status);
      DeniedNeverRuns(Apply(s, steps[0]), steps[1..], a);
    }
  }

  // ----- What a row is never stops it being that -----

  predicate SameKind(r: Row, q: Row) {
    q.tool == r.tool && q.critical == r.critical && (q.intent == NoIntent <==> r.intent == NoIntent)
  }

  ghost predicate KindsStay(rows: Rows, next: Rows) {
    forall a :: a in rows ==> a in next && SameKind(rows[a], next[a])
  }

  /** A request on its way to execution is about a relayable row, one about to decide is not about a critical one. */
  predicate PcDoor(rows: Rows, pc: Pc) {
    && (pc.Relaying? || pc.Claiming? || Holding(pc) ==> pc.target in rows && Relayable(rows[pc.target]))
    && (pc.Deciding? ==> pc.target in rows && !rows[pc.target].critical)
    && (pc.Intending? || pc.Waiting? || pc.Invoking? || pc.Recording? ==>
          pc.target in rows && rows[pc.target].intent != NoIntent)
  }

  ghost predicate DoorOk(s: State) {
    forall w :: w in s.pcs ==> PcDoor(s.rows, s.pcs[w])
  }

  lemma DoorStays(rows: Rows, next: Rows, pc: Pc)
    requires KindsStay(rows, next) && PcDoor(rows, pc)
    ensures PcDoor(next, pc)
  {
  }

  lemma EffectKeepsKinds(s: State, w: Worker, act: Act)
    requires Enabled(s, By(w, act)) && (w in s.pcs ==> PcDoor(s.rows, s.pcs[w]))
    ensures KindsStay(s.rows, EffectOf(s, w, act).rows)
  {
  }

  lemma EffectIsThroughADoor(s: State, w: Worker, act: Act)
    requires Enabled(s, By(w, act)) && (w in s.pcs ==> PcDoor(s.rows, s.pcs[w]))
    ensures PcDoor(s.rows, EffectOf(s, w, act).pc)
  {
  }

  lemma StepKeepsDoor(s: State, step: Step)
    requires DoorOk(s) && Enabled(s, step)
    ensures DoorOk(Apply(s, step))
  {
    var t := Apply(s, step);
    assert KindsStay(s.rows, t.rows) by {
      if step.By? { EffectKeepsKinds(s, step.w, step.act); }
    }
    forall w | w in t.pcs ensures PcDoor(t.rows, t.pcs[w]) {
      if step.By? && w == step.w {
        EffectIsThroughADoor(s, w, step.act);
      }
      DoorStays(s.rows, t.rows, t.pcs[w]);
    }
  }

  predicate Undecided(status: Status) { status.Pending? || status.Expired? || status.Answered? }

  ghost predicate CriticalOk(s: State) {
    forall a :: a in s.rows && s.rows[a].critical ==> Undecided(s.rows[a].status)
  }

  lemma StepKeepsCritical(s: State, step: Step)
    requires DoorOk(s) && CriticalOk(s) && Enabled(s, step)
    ensures CriticalOk(Apply(s, step))
  {
    if step.By? {
      var e := EffectOf(s, step.w, step.act);
      assert step.w in s.pcs ==> PcDoor(s.rows, s.pcs[step.w]);
      EffectKeepsKinds(s, step.w, step.act);
      EffectSparesCritical(s, step.w, step.act);
    }
  }

  lemma EffectSparesCritical(s: State, w: Worker, act: Act)
    requires Enabled(s, By(w, act)) && CriticalOk(s) && (w in s.pcs ==> PcDoor(s.rows, s.pcs[w]))
    ensures CriticalOk(s.(rows := EffectOf(s, w, act).rows))
  {
  }

  lemma {:induction false} RunKeepsDoors(s: State, steps: seq<Step>)
    requires DoorOk(s) && CriticalOk(s) && IsRun(s, steps)
    ensures DoorOk(After(s, steps)) && CriticalOk(After(s, steps))
    decreases |steps|
  {
    if steps != [] {
      StepKeepsDoor(s, steps[0]);
      StepKeepsCritical(s, steps[0]);
      RunKeepsDoors(Apply(s, steps[0]), steps[1..]);
    }
  }

  /** None of these doors decides or executes a critical approval: it can only expire, or be an answered question. */
  lemma {:induction false} CriticalIsNeverTouched(steps: seq<Step>, a: Id)
    requires IsRun(EMPTY, steps) && a in After(EMPTY, steps).rows && After(EMPTY, steps).rows[a].critical
    ensures After(EMPTY, steps).ran[a] == 0
    ensures Undecided(After(EMPTY, steps).rows[a].status)
  {
    RunKeepsDoors(EMPTY, steps);
    RunKeepsExec(EMPTY, steps);
    assert RowExec(After(EMPTY, steps), a);
  }

  // ----- A denial whose update came too late -----

  lemma {:induction false} FreshWorker(taken: set<Worker>) returns (n: Worker)
    ensures forall w :: w in taken ==> w < n
  {
    if taken == {} {
      n := 0;
    } else {
      var w :| w in taken;
      var rest := FreshWorker(taken - {w});
      n := if w < rest then rest else w + 1;
      forall v | v in taken ensures v < n { if v != w { assert v in taken - {w}; } }
    }
  }

  /** A new request claims a pending, relayable row, undisturbed. */
  lemma {:induction false} ApprovalClaims(s: State, a: Id, n: Worker) returns (steps: seq<Step>)
    requires n !in s.pcs && a in s.rows && s.rows[a].status == Pending && Relayable(s.rows[a])
    ensures IsRun(s, steps)
    ensures var t := After(s, steps);
            t.pcs == s.pcs[n := Claimed(a, None)] && t.rows == Moved(s.rows, a, Pending, Executing)
  {
    var s1 := Apply(s, By(n, OpenResolve(a, true, true)));
    assert s1.pcs[n] == Relaying(a, None);
    var s2 := Apply(s1, By(n, Recheck));
    assert s2.pcs[n] == Claiming(a, None) && s2.rows == s.rows;
    steps := [By(n, OpenResolve(a, true, true)), By(n, Recheck), By(n, Claim)];
    ThreeSteps(s, steps[0], steps[1], steps[2]);
    var s3 := Apply(s2, By(n, Claim));
    assert s3.pcs == s.pcs[n := Claimed(a, None)];
  }

  lemma {:induction false} ApprovalRuns(s: State, a: Id) returns (steps: seq<Step>)
    requires a in s.rows && s.rows[a].status == Pending && Relayable(s.rows[a])
    ensures IsRun(s, steps) && a in After(s, steps).ran
  {
    var n := FreshWorker(s.pcs.Keys);
    assert n !in s.pcs;
    var claim := ApprovalClaims(s, a, n);
    var t := After(s, claim);
    OneStep(t, By(n, Route(Ran(true))));
    RunsJoin(s, claim, [By(n, Route(Ran(true)))]);
    steps := claim + [By(n, Route(Ran(true)))];
  }

  lemma ThreeSteps(s: State, p: Step, q: Step, r: Step)
    requires Enabled(s, p) && Enabled(Apply(s, p), q) && Enabled(Apply(Apply(s, p), q), r)
    ensures IsRun(s, [p, q, r]) && After(s, [p, q, r]) == Apply(Apply(Apply(s, p), q), r)
  {
    var s1 := Apply(s, p);
    OneStep(Apply(s1, q), r);
    RunAfterStep(s1, q, [r]);
    assert [q] + [r] == [q, r];
    RunAfterStep(s, p, [q, r]);
    assert [p] + [q, r] == [p, q, r];
  }

  lemma OneStep(s: State, p: Step)
    requires Enabled(s, p)
    ensures IsRun(s, [p]) && After(s, [p]) == Apply(s, p)
  {
    assert [p][1..] == [];
    assert IsRun(Apply(s, p), []) && After(Apply(s, p), []) == Apply(s, p);
  }

  lemma {:induction false} RunAfterStep(s: State, p: Step, steps: seq<Step>)
    requires Enabled(s, p) && IsRun(Apply(s, p), steps)
    ensures IsRun(s, [p] + steps) && After(s, [p] + steps) == After(Apply(s, p), steps)
  {
    assert ([p] + steps)[1..] == steps;
  }

  /** A row that is claimed, or has run, can still go on to run. */
  lemma {:induction false} ClaimedCanRun(s: State, a: Id) returns (steps: seq<Step>)
    requires ExecOk(s) && DoorOk(s) && a in s.rows && RunningOrRun(s.rows[a].status)
    ensures IsRun(s, steps) && a in After(s, steps).ran
  {
    assert RowExec(s, a);
    if a in s.ran {
      steps := [];
    } else {
      var o := s.owner[a];
      assert PcExec(s, o) && PcDoor(s.rows, s.pcs[o]);
      if s.pcs[o].Claimed? {
        steps := [By(o, Route(Ran(true)))];
        OneStep(s, steps[0]);
      } else {
        var t := Apply(s, By(o, Settle));
        var rest := ApprovalRuns(t, a);
        RunAfterStep(s, By(o, Settle), rest);
        steps := [By(o, Settle)] + rest;
      }
    }
  }

  /** Nothing that can still happen executes the action. */
  ghost predicate NeverRuns(s: State, a: Id) {
    forall steps :: IsRun(s, steps) ==> a !in After(s, steps).ran
  }

  /**
   * A request that denies or replaces an approval says so whether or not its update changed the row. The action
   * is then safe from ever executing exactly when the row was not claimed for execution, or run, by the time
   * of that update.
   */
  lemma {:induction false} DenialHoldsExactly(s: State, w: Worker)
    requires ExecOk(s) && DoorOk(s) && Enabled(s, By(w, Decide)) && !s.pcs[w].approve
    requires s.rows[s.pcs[w].target].intent == NoIntent
    ensures var a, t := s.pcs[w].target, Apply(s, By(w, Decide));
            NeverRuns(t, a) <==> !RunningOrRun(s.rows[a].status)
    ensures var answer := Apply(s, By(w, Decide)).pcs[w];
            answer == Gone(SaysDecided(s.pcs[w].target, false)) ||
            (s.pcs[w].replacement.Some? && answer == Gone(SaysReplaced(s.pcs[w].target, s.pcs[w].replacement.value)))
  {
    var a, t := s.pcs[w].target, Apply(s, By(w, Decide));
    StepKeepsExec(s, By(w, Decide));
    StepKeepsDoor(s, By(w, Decide));
    if RunningOrRun(s.rows[a].status) {
      var steps := ClaimedCanRun(t, a);
      assert !NeverRuns(t, a);
    } else {
      forall steps | IsRun(t, steps) ensures a !in After(t, steps).ran {
        DeniedNeverRuns(t, steps, a);
      }
    }
  }

  /**
   * Such a moment is reachable: a denial looks, an approval claims, and the denial then writes nothing and says denied.
   */
  lemma {:induction false} DenialCanComeTooLate() returns (steps: seq<Step>)
    ensures IsRun(EMPTY, steps)
    ensures var s := After(EMPTY, steps);
            0 in s.pcs && s.pcs[0] == Gone(SaysDecided(0, false)) && 0 in s.ran && StatusIs(s, 0, Executing)
  {
    var s0 := EMPTY.(rows := map[0 := Row(Patch, false, Pending, NoIntent)]);
    var s1 := s0.(pcs := map[0 := Deciding(0, false, None)]);
    var opening := [Propose(0, Row(Patch, false, Pending, NoIntent)), By(0, OpenResolve(0, false, true)), By(0, Check)];
    assert IsRun(EMPTY, opening) && After(EMPTY, opening) == s1 by { LateOpening(); }
    var rest := LateClaim(s1);
    RunsJoin(EMPTY, opening, rest);
    steps := opening + rest;
  }

  lemma LateOpening()
    ensures
      var steps := [Propose(0, Row(Patch, false, Pending, NoIntent)), By(0, OpenResolve(0, false, true)), By(0, Check)];
      IsRun(EMPTY, steps) &&
      After(EMPTY, steps) ==
        EMPTY.(rows := map[0 := Row(Patch, false, Pending, NoIntent)], pcs := map[0 := Deciding(0, false, None)])
  {
    var p, q := Propose(0, Row(Patch, false, Pending, NoIntent)), By(0, OpenResolve(0, false, true));
    var s1 := EMPTY.(rows := map[0 := Row(Patch, false, Pending, NoIntent)]);
    assert Apply(EMPTY, p) == s1;
    var s2 := s1.(pcs := map[0 := Choosing(0, false, None)]);
    assert Apply(s1, q) == s2;
    OneStep(s2, By(0, Check));
    assert Apply(s2, By(0, Check)) == s1.(pcs := map[0 := Deciding(0, false, None)]);
    RunAfterStep(s1, q, [By(0, Check)]);
    assert [q] + [By(0, Check)] == [q, By(0, Check)];
    RunAfterStep(EMPTY, p, [q, By(0, Check)]);
    assert [p] + [q, By(0, Check)] == [p, q, By(0, Check)];
  }

  lemma LateClaim(s: State) returns (steps: seq<Step>)
    requires s ==
      EMPTY.(rows := map[0 := Row(Patch, false, Pending, NoIntent)], pcs := map[0 := Deciding(0, false, None)])
    ensures IsRun(s, steps)
    ensures var t := After(s, steps);
            0 in t.pcs && t.pcs[0] == Gone(SaysDecided(0, false)) && 0 in t.ran && StatusIs(t, 0, Executing)
  {
    var claim := ApprovalClaims(s, 0, 1);
    var rest := DeniedThenRuns(After(s, claim));
    RunsJoin(s, claim, rest);
    steps := claim + rest;
  }

  /** The denial is answered while the claimed action is on its way to run. */
  lemma {:induction false} DeniedThenRuns(s: State) returns (steps: seq<Step>)
    requires 0 in s.rows && s.rows[0] == Row(Patch, false, Executing, NoIntent)
    requires s.pcs == map[0 := Deciding(0, false, None), 1 := Claimed(0, None)]
    ensures IsRun(s, steps)
    ensures var t := After(s, steps);
            0 in t.pcs && t.pcs[0] == Gone(SaysDecided(0, false)) && 0 in t.ran && StatusIs(t, 0, Executing)
  {
    var t := Apply(s, By(0, Decide));
    assert t.pcs[1] == Claimed(0, None) && t.rows == s.rows;
    OneStep(t, By(1, Route(Ran(true))));
    RunAfterStep(s, By(0, Decide), [By(1, Route(Ran(true)))]);
    steps := [By(0, Decide)] + [By(1, Route(Ran(true)))];
  }

  lemma {:induction false} RunsJoin(s: State, front: seq<Step>, rest: seq<Step>)
    requires IsRun(s, front) && IsRun(After(s, front), rest)
    ensures IsRun(s, front + rest) && After(s, front + rest) == After(After(s, front), rest)
    decreases |front|
  {
    if front == [] {
      assert front + rest == rest;
    } else {
      var tail := front[1..];
      assert (front + rest)[0] == front[0] && (front + rest)[1..] == tail + rest;
      RunsJoin(Apply(s, front[0]), tail, rest);
    }
  }
}
