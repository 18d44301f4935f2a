/** Relays are used before what they answer runs, and every denial names a row that exists. */
module ApprovalRelays {
  import opened Approvals

  // ----- Relays -----

  /** This relay was used to approve this row. */
  predicate ApprovedFor(relays: Relays, r: RelayId, a: Id) {
    r in relays && relays[r] == Relay(a, Used(true))
  }

  predicate PcRelay(relays: Relays, pc: Pc) {
    && (pc.Answering? ==> pc.relay in relays && relays[pc.relay].target == pc.target)
    && ((pc.Relaying? || pc.Claiming? || pc.Claimed?) && pc.via.Some? ==> ApprovedFor(relays, pc.via.value, pc.target))
  }

  ghost predicate RelayOk(s: State) {
    && (forall r :: r in s.relays ==> s.consumed[r] == if s.relays[r].status == Open then 0 else 1)
    && (forall r :: r in s.consumed ==> r in s.relays)
    && (forall w :: w in s.pcs ==> PcRelay(s.relays, s.pcs[w]))
    && (forall p :: p in s.runs ==> ApprovedFor(s.relays, p.1, p.0))
  }

  /** A used relay stays as it is. */
  ghost predicate RelaysStay(relays: Relays, next: Relays) {
    forall r :: r in relays ==>
      r in next && next[r].target == relays[r].target && (relays[r].status != Open ==> next[r] == relays[r])
  }

  lemma PcRelayStays(relays: Relays, next: Relays, pc: Pc)
    requires RelaysStay(relays, next) && PcRelay(relays, pc)
    ensures PcRelay(next, pc)
  {
  }

  lemma NoteKeepsRelays(s: State, w: Worker, note: Note, approve: bool)
    ensures RelaysStay(s.relays, Noted(s, w, note, approve).relays)
  {
  }

  lemma EffectPcRelay(s: State, w: Worker, act: Act)
    requires Enabled(s, By(w, act)) && (w in s.pcs ==> PcRelay(s.relays, s.pcs[w]))
    ensures var e := EffectOf(s, w, act); PcRelay(Noted(s, w, e.note, Approving(s, w)).relays, e.pc)
  {
  }

  /** A relay is noted as used only while it is open. */
  lemma EffectNotes(s: State, w: Worker, act: Act)
    requires Enabled(s, By(w, act)) && (w in s.pcs ==> PcRelay(s.relays, s.pcs[w]))
    ensures var note := EffectOf(s, w, act).note;
            && (note.Uses? ==> note.relay in s.relays && s.relays[note.relay].status == Open)
            && (note.Runs? && note.via.Some? ==> ApprovedFor(s.relays, note.via.value, note.target))
  {
  }

  lemma NotedRelayOk(s: State, w: Worker, note: Note, approve: bool)
    requires RelayOk(s)
    requires note.Uses? ==> note.relay in s.relays && s.relays[note.relay].status == Open
    requires note.Runs? && note.via.Some? ==> ApprovedFor(s.relays, note.via.value, note.target)
    ensures RelayOk(Noted(s, w, note, approve))
  {
    var t := Noted(s, w, note, approve);
    NoteKeepsRelays(s, w, note, approve);
    forall v | v in t.pcs ensures PcRelay(t.relays, t.pcs[v]) {
      PcRelayStays(s.relays, t.relays, t.pcs[v]);
    }
  }

  lemma ActKeepsRelays(s: State, w: Worker, act: Act)
    requires RelayOk(s) && Enabled(s, By(w, act))
    ensures RelayOk(Apply(s, By(w, act)))
  {
    var e := EffectOf(s, w, act);
    EffectNotes(s, w, act);
    EffectPcRelay(s, w, act);
    NotedRelayOk(s, w, e.note, Approving(s, w));
    RelayOkWith(s, w, e);
  }

  lemma RelayOkWith(s: State, w: Worker, e: Effect)
    requires RelayOk(Noted(s, w, e.note, Approving(s, w)))
    requires PcRelay(Noted(s, w, e.note, Approving(s, w)).relays, e.pc)
    ensures RelayOk(Taken(s, w, e))
  {
    NotedPcs(s, w, e.note, Approving(s, w));
    RelayOkMoved(Noted(s, w, e.note, Approving(s, w)), w, e.pc, e.rows);
  }

  lemma NotedPcs(s: State, w: Worker, note: Note, approve: bool)
    ensures Noted(s, w, note, approve).pcs == s.pcs
  {
  }

  lemma RelayOkMoved(n: State, w: Worker, pc: Pc, rows: Rows)
    requires RelayOk(n) && PcRelay(n.relays, pc)
    ensures RelayOk(n.(rows := rows, pcs := n.pcs[w := pc]))
  {
  }

  lemma StepKeepsRelays(s: State, step: Step)
    requires RelayOk(s) && Enabled(s, step)
    ensures RelayOk(Apply(s, step))
  {
    match step
    case By(w, act) => ActKeepsRelays(s, w, act);
    case Offer(r, target) =>
      var t := Apply(s, step);
      forall w | w in t.pcs ensures PcRelay(t.relays, t.pcs[w]) {
        PcRelayStays(s.relays, t.relays, t.pcs[w]);
      }
    case _ =>
  }

  lemma {:induction false} RunKeepsRelays(s: State, steps: seq<Step>)
    requires RelayOk(s) && IsRun(s, steps)
    ensures RelayOk(After(s, steps))
    decreases |steps|
  {
    if steps != [] {
      StepKeepsRelays(s, steps[0]);
      RunKeepsRelays(Apply(s, steps[0]), steps[1..]);
    }
  }

  /**
   * At every moment of every run, an action run for a relay belongs to that relay and the relay is already
   * used up as approved; no relay is used twice.
   */
  lemma {:induction false} RelayUsedBeforeItsActionRuns(steps: seq<Step>, a: Id, r: RelayId)
    requires IsRun(EMPTY, steps)
    ensures After(EMPTY, steps).consumed[r] <= 1
    ensures (a, r) in After(EMPTY, steps).runs ==> After(EMPTY, steps).consumed[r] == 1
    ensures (a, r) in After(EMPTY, steps).runs ==> ApprovedFor(After(EMPTY, steps).relays, r, a)
  {
    RunKeepsRelays(EMPTY, steps);
    var t := After(EMPTY, steps);
    if (a, r) in t.runs {
      assert ApprovedFor(t.relays, (a, r).1, (a, r).0);
    }
  }

  // ----- Replacements -----

  predicate PcNames(rows: Rows, pc: Pc) {
    && (pc.Replacing? ==> pc.target in rows)
    && ((pc.Choosing? || pc.Deciding?) && pc.replacement.Some? ==>
          pc.replacement.value in rows && pc.replacement.value != pc.target)
  }

  ghost predicate NamesOk(s: State) {
    && (forall w :: w in s.pcs ==> PcNames(s.rows, s.pcs[w]))
    && (forall p :: p in s.named ==> p.1 in s.rows && p.1 != p.0)
  }

  lemma EffectNames(s: State, w: Worker, act: Act)
    requires Enabled(s, By(w, act)) && (w in s.pcs ==> PcNames(s.rows, s.pcs[w]))
    ensures var e := EffectOf(s, w, act);
            PcNames(e.rows, e.pc) &&
            (e.note.Names? ==> e.note.replacement in e.rows && e.note.replacement != e.note.target)
  {
  }

  lemma RowsOnlyGrow(s: State, w: Worker, act: Act)
    requires Enabled(s, By(w, act))
    ensures s.rows.Keys <= EffectOf(s, w, act).rows.Keys
  {
  }

  lemma NotedNames(s: State, w: Worker, note: Note, approve: bool)
    ensures Noted(s, w, note, approve).named == s.named + if note.Names? then {(note.target, note.replacement)} else {}
  {
  }

  lemma StepKeepsNames(s: State, step: Step)
    requires NamesOk(s) && Enabled(s, step)
    ensures NamesOk(Apply(s, step))
  {
    match step
    case By(w, act) =>
      var e := EffectOf(s, w, act);
      EffectNames(s, w, act);
      RowsOnlyGrow(s, w, act);
      NotedNames(s, w, e.note, Approving(s, w));
      NamesOkWith(s, w, e);
    case _ => assert s.rows.Keys <= Apply(s, step).rows.Keys;
  }

  lemma NamesOkWith(s: State, w: Worker, e: Effect)
    requires NamesOk(s) && s.rows.Keys <= e.rows.Keys && PcNames(e.rows, e.pc)
    requires e.note.Names? ==> e.note.replacement in e.rows && e.note.replacement != e.note.target
    ensures NamesOk(Taken(s, w, e))
  {
    NotedNames(s, w, e.note, Approving(s, w));
  }

  lemma {:induction false} RunKeepsNames(s: State, steps: seq<Step>)
    requires NamesOk(s) && IsRun(s, steps)
    ensures NamesOk(After(s, steps))
    decreases |steps|
  {
    if steps != [] {
      StepKeepsNames(s, steps[0]);
      RunKeepsNames(Apply(s, steps[0]), steps[1..]);
    }
  }

  /** However replacements race, a denial that names a replacement names another row that is there. */
  lemma {:induction false} DenialsNameExistingRows(steps: seq<Step>, a: Id, b: Id)
    requires IsRun(EMPTY, steps) && (a, b) in After(EMPTY, steps).named
    ensures b in After(EMPTY, steps).rows && a != b
  {
    RunKeepsNames(EMPTY, steps);
    assert (a, b).1 in After(EMPTY, steps).rows;
  }
}
