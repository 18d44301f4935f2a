/**
 * The doors onto one approval row: the local resolve, replace and undo routes, the channel's approval
 * response, and the relay that executes. Every database statement is one step, and the steps of any number
 * of requests interleave.
 */
module Approvals {
  import opened Options

  type Id = nat
  type RelayId = nat
  type Worker = nat

  datatype Status = Pending | Executing | Executed | ExecutionFailed | Approved | Denied | Expired | Answered

  /** The connector write bound to an approval, if there is one. */
  datatype Intent = NoIntent | AwaitingApproval | Held | Sending | Sent | SendFailed | Undone | Refused

  datatype Tool = Patch | Question | OtherTool

  datatype Row = Row(tool: Tool, critical: bool, status: Status, intent: Intent)

  datatype RelayStatus = Open | Used(approved: bool)

  datatype Relay = Relay(target: Id, status: RelayStatus)

  type Rows = map<Id, Row>
  type Relays = map<RelayId, Relay>

  // ----- The store's conditional updates -----

  /** `UPDATE approvals SET status = to WHERE approval_id = a AND status = was`. */
  function Moved(rows: Rows, a: Id, was: Status, to: Status): Rows {
    if a in rows && rows[a].status == was then rows[a := rows[a].(status := to)] else rows
  }

  predicate Moves(rows: Rows, a: Id, was: Status) { a in rows && rows[a].status == was }

  /** The same on the connector write's own row. */
  function IntentMoved(rows: Rows, a: Id, was: Intent, to: Intent): Rows {
    if a in rows && rows[a].intent == was then rows[a := rows[a].(intent := to)] else rows
  }

  predicate IntentMoves(rows: Rows, a: Id, was: Intent) { a in rows && rows[a].intent == was }

  function RelayUsed(relays: Relays, r: RelayId, approve: bool): Relays {
    if r in relays && relays[r].status == Open then relays[r := relays[r].(status := Used(approve))] else relays
  }

  class ApprovalStore {
    var rows: Rows
    var relays: Relays

    /** One guarded update; the row count says whether this caller won. */
    method Update(a: Id, was: Status, to: Status) returns (changed: bool)
      modifies this`rows
      ensures rows == Moved(old(rows), a, was, to)
      ensures changed == Moves(old(rows), a, was)
    {
      changed := a in rows && rows[a].status == was;
      if changed {
        rows := rows[a := rows[a].(status := to)];
      }
    }

    method ClaimForExecution(a: Id) returns (won: bool)
      modifies this`rows
      ensures rows == Moved(old(rows), a, Pending, Executing)
      ensures won == Moves(old(rows), a, Pending)
    {
      won := Update(a, Pending, Executing);
    }

    method FinalizeExecution(a: Id, ok: bool) returns (changed: bool)
      modifies this`rows
      ensures rows == Moved(old(rows), a, Executing, if ok then Executed else ExecutionFailed)
      ensures changed == Moves(old(rows), a, Executing)
    {
      changed := Update(a, Executing, if ok then Executed else ExecutionFailed);
    }

    method ReleaseClaim(a: Id) returns (changed: bool)
      modifies this`rows
      ensures rows == Moved(old(rows), a, Executing, Pending)
      ensures changed == Moves(old(rows), a, Executing)
    {
      changed := Update(a, Executing, Pending);
    }

    /** Says nothing about whether the row was still pending: no caller can tell. */
    method ResolveApproval(a: Id, approve: bool)
      modifies this`rows
      ensures rows == Moved(old(rows), a, Pending, if approve then Approved else Denied)
    {
      var _ := Update(a, Pending, if approve then Approved else Denied);
    }

    method ResolveRelay(r: RelayId, approve: bool) returns (won: bool)
      modifies this`relays
      ensures relays == RelayUsed(old(relays), r, approve)
      ensures won <==> r in old(relays) && old(relays)[r].status == Open
    {
      won := r in relays && relays[r].status == Open;
      if won {
        relays := relays[r := relays[r].(status := Used(approve))];
      }
    }

    method UpdateIntent(a: Id, was: Intent, to: Intent) returns (changed: bool)
      modifies this`rows
      ensures rows == IntentMoved(old(rows), a, was, to)
      ensures changed == IntentMoves(old(rows), a, was)
    {
      changed := a in rows && rows[a].intent == was;
      if changed {
        rows := rows[a := rows[a].(intent := to)];
      }
    }

    method Hold(a: Id) returns (won: bool)
      modifies this`rows
      ensures rows == IntentMoved(old(rows), a, AwaitingApproval, Held)
      ensures won == IntentMoves(old(rows), a, AwaitingApproval)
    {
      won := UpdateIntent(a, AwaitingApproval, Held);
    }

    method ClaimSend(a: Id) returns (won: bool)
      modifies this`rows
      ensures rows == IntentMoved(old(rows), a, Held, Sending)
      ensures won == IntentMoves(old(rows), a, Held)
    {
      won := UpdateIntent(a, Held, Sending);
    }

    method UndoSend(a: Id) returns (won: bool)
      modifies this`rows
      ensures rows == IntentMoved(old(rows), a, Held, Undone)
      ensures won == IntentMoves(old(rows), a, Held)
    {
      won := UpdateIntent(a, Held, Undone);
    }
  }

  // ----- Requests in flight -----

  datatype Answer =
    | Refusal
    | SaysDecided(target: Id, approve: bool)
    | SaysReplaced(target: Id, replacement: Id)
    | SaysRan(target: Id, ok: bool)
    | SaysReleased(target: Id)
    | SaysSent(target: Id, ok: bool)
    | SaysUndone(target: Id)

  /** What a request does next. */
  datatype Pc =
    | Answering(relay: RelayId, target: Id, approve: bool)
    | Relaying(target: Id, via: Option<RelayId>)
    | Claiming(target: Id, via: Option<RelayId>)
    | Claimed(target: Id, via: Option<RelayId>)
    | Finishing(target: Id, ok: bool)
    | Releasing(target: Id)
    | Replacing(target: Id)
    | Choosing(target: Id, approve: bool, replacement: Option<Id>)
    | Deciding(target: Id, approve: bool, replacement: Option<Id>)
    | Intending(target: Id, approve: bool)
    | Waiting(target: Id)
    | Invoking(target: Id)
    | Recording(target: Id, ok: bool)
    | Gone(answer: Answer)

  /**
   * The tables, the requests, and what has happened: which approved actions ran and how often, which writes
   * were sent, which relay each run answered to, how often each relay was used, which replacement each
   * recorded denial names, and who won each claim and each hold.
   */
  datatype State = State(
    rows: Rows,
    relays: Relays,
    pcs: map<Worker, Pc>,
    ran: multiset<Id>,
    sent: multiset<Id>,
    runs: set<(Id, RelayId)>,
    consumed: multiset<RelayId>,
    named: set<(Id, Id)>,
    owner: map<Id, Worker>,
    sender: map<Id, Worker>)

  /** Before the first proposal. */
  const EMPTY := State(map[], map[], map[], multiset{}, multiset{}, {}, multiset{}, {}, map[], map[])

  datatype Outcome = Ran(ok: bool) | Blocked

  /** One statement of a request. */
  datatype Act =
    | OpenResolve(a: Id, approve: bool, gatesOn: bool)
    | OpenChannel(r: RelayId, approve: bool)
    | OpenReplace(a: Id)
    | Consume(gatesOn: bool)
    | Raise(raised: Id)
    | Recheck
    | Claim
    | Route(outcome: Outcome)
    | Settle
    | Check
    | Decide
    | Intend
    | ClaimHeld
    | Invoke(ok: bool)
    | Record
    | GiveUp

  datatype Step =
    | By(w: Worker, act: Act)
    | Propose(a: Id, row: Row)
    | Offer(r: RelayId, target: Id)
    | Undo(a: Id)
    | Expire(a: Id)
    | AnswerQuestion(a: Id)

  /** What one statement writes down beside the tables. */
  datatype Note =
    | Nothing
    | Uses(relay: RelayId)
    | Wins(target: Id)
    | Runs(target: Id, via: Option<RelayId>)
    | Names(target: Id, replacement: Id)
    | Holds(target: Id)
    | Sends(target: Id)

  datatype Effect = Effect(pc: Pc, rows: Rows, note: Note)

  /** The requests that stop at a failed check before anything is claimed. */
  predicate MayGiveUp(pc: Pc) {
    pc.Answering? || pc.Relaying? || pc.Claiming? || pc.Replacing? || pc.Choosing?
  }

  /** A row as it is inserted: a connector write is neither a patch nor a question. */
  predicate Fresh(row: Row) {
    row.status == Pending && (row.intent == NoIntent || (row.intent == AwaitingApproval && row.tool.OtherTool?))
  }

  predicate CanOpen(s: State, act: Act) {
    match act
    case OpenResolve(a, _, _) => a in s.rows && !s.rows[a].tool.Question?
    case OpenChannel(r, _) =>
      r in s.relays && s.relays[r].status == Open && s.relays[r].target in s.rows &&
      !s.rows[s.relays[r].target].critical && s.rows[s.relays[r].target].intent == NoIntent
    case OpenReplace(a) => a in s.rows && s.rows[a].status == Pending && !s.rows[a].critical && s.rows[a].tool.Patch?
    case _ => false
  }

  predicate CanGoOn(s: State, pc: Pc, act: Act) {
    match act
    case Consume(_) => pc.Answering?
    case Raise(raised) => pc.Replacing? && raised !in s.rows
    case Recheck => pc.Relaying? && pc.target in s.rows
    case Claim => pc.Claiming?
    case Route(_) => pc.Claimed?
    case Settle => pc.Finishing? || pc.Releasing?
    case Check => pc.Choosing? && pc.target in s.rows
    case Decide => pc.Deciding? && pc.target in s.rows
    case Intend => pc.Intending?
    case ClaimHeld => pc.Waiting?
    case Invoke(_) => pc.Invoking?
    case Record => pc.Recording? && pc.target in s.rows
    case GiveUp => MayGiveUp(pc)
    case _ => false
  }

  /** What an approval can execute on its own: no critical action, no question, no connector write. */
  predicate Relayable(row: Row) { !row.critical && !row.tool.Question? && row.intent == NoIntent }

  /** Approving a relayable action with both gates on runs it; anything else only records the decision. */
  function Course(row: Row, a: Id, approve: bool, gatesOn: bool, via: Option<RelayId>): Pc {
    if approve && gatesOn && Relayable(row) then Relaying(a, via) else Choosing(a, approve, None)
  }

  function Opened(s: State, act: Act): Pc
    requires CanOpen(s, act)
  {
    match act
    case OpenResolve(a, approve, gatesOn) => Course(s.rows[a], a, approve, gatesOn, None)
    case OpenChannel(r, approve) => Answering(r, s.relays[r].target, approve)
    case OpenReplace(a) => Replacing(a)
  }

  /** The relay is used before the action is decided or run. */
  function Consuming(s: State, pc: Pc, gatesOn: bool): Effect
    requires pc.Answering?
  {
    if pc.relay in s.relays && s.relays[pc.relay].status == Open && pc.target in s.rows then
      Effect(Course(s.rows[pc.target], pc.target, pc.approve, gatesOn, Some(pc.relay)), s.rows, Uses(pc.relay))
    else Effect(Gone(Refusal), s.rows, Nothing)
  }

  function Claims(s: State, pc: Pc): Effect
    requires pc.Claiming?
  {
    if Moves(s.rows, pc.target, Pending) then
      Effect(Claimed(pc.target, pc.via), Moved(s.rows, pc.target, Pending, Executing), Wins(pc.target))
    else Effect(Gone(Refusal), s.rows, Nothing)
  }

  function Settling(s: State, pc: Pc): Effect
    requires pc.Finishing? || pc.Releasing?
  {
    if pc.Releasing? then Effect(Gone(SaysReleased(pc.target)), Moved(s.rows, pc.target, Executing, Pending), Nothing)
    else
      Effect(Gone(SaysRan(pc.target, pc.ok)),
             Moved(s.rows, pc.target, Executing, if pc.ok then Executed else ExecutionFailed), Nothing)
  }

  /** The update whose row count nobody reads, and the decision recorded and answered either way. */
  function Decides(s: State, pc: Pc): Effect
    requires pc.Deciding? && pc.target in s.rows
  {
    var rows := Moved(s.rows, pc.target, Pending, if pc.approve then Approved else Denied);
    if pc.replacement.Some? then
      Effect(Gone(SaysReplaced(pc.target, pc.replacement.value)), rows, Names(pc.target, pc.replacement.value))
    else if s.rows[pc.target].intent != NoIntent then Effect(Intending(pc.target, pc.approve), rows, Nothing)
    else Effect(Gone(SaysDecided(pc.target, pc.approve)), rows, Nothing)
  }

  function Intends(s: State, pc: Pc): Effect
    requires pc.Intending?
  {
    if !pc.approve then
      Effect(Gone(SaysDecided(pc.target, false)), IntentMoved(s.rows, pc.target, AwaitingApproval, Refused), Nothing)
    else if IntentMoves(s.rows, pc.target, AwaitingApproval) then
      Effect(Waiting(pc.target), IntentMoved(s.rows, pc.target, AwaitingApproval, Held), Holds(pc.target))
    else Effect(Gone(Refusal), s.rows, Nothing)
  }

  function ClaimsHeld(s: State, pc: Pc): Effect
    requires pc.Waiting?
  {
    if IntentMoves(s.rows, pc.target, Held) then
      Effect(Invoking(pc.target), IntentMoved(s.rows, pc.target, Held, Sending), Nothing)
    else Effect(Gone(SaysUndone(pc.target)), s.rows, Nothing)
  }

  function GoesOn(s: State, pc: Pc, act: Act): Effect
    requires CanGoOn(s, pc, act)
  {
    match act
    case Consume(gatesOn) => Consuming(s, pc, gatesOn)
    case Raise(raised) =>
      Effect(Choosing(pc.target, false, Some(raised)), s.rows[raised := Row(Patch, false, Pending, NoIntent)], Nothing)
    case Recheck =>
      Effect(if s.rows[pc.target].status == Pending then Claiming(pc.target, pc.via) else Gone(Refusal),
             s.rows, Nothing)
    case Claim => Claims(s, pc)
    case Route(outcome) =>
      if outcome == Blocked then Effect(Releasing(pc.target), s.rows, Nothing)
      else Effect(Finishing(pc.target, outcome.ok), s.rows, Runs(pc.target, pc.via))
    case Settle => Settling(s, pc)
    case Check =>
      // `ApprovalInbox.resolve` looks here, and writes at its next statement.
      var row := s.rows[pc.target];
      Effect(if row.critical || row.status != Pending then Gone(Refusal)
             else Deciding(pc.target, pc.approve, pc.replacement), s.rows, Nothing)
    case Decide => Decides(s, pc)
    case Intend => Intends(s, pc)
    case ClaimHeld => ClaimsHeld(s, pc)
    case Invoke(ok) => Effect(Recording(pc.target, ok), s.rows, Sends(pc.target))
    case Record =>
      // The last update of a send is not conditional.
      Effect(Gone(SaysSent(pc.target, pc.ok)),
             s.rows[pc.target := s.rows[pc.target].(intent := if pc.ok then Sent else SendFailed)], Nothing)
    case GiveUp => Effect(Gone(Refusal), s.rows, Nothing)
  }

  function Noted(s: State, w: Worker, note: Note, approve: bool): State {
    match note
    case Nothing => s
    case Uses(relay) => s.(relays := RelayUsed(s.relays, relay, approve), consumed := s.consumed + multiset{relay})
    case Wins(target) => s.(owner := s.owner[target := w])
    case Runs(target, via) =>
      s.(ran := s.ran + multiset{target}, runs := s.runs + if via.Some? then {(target, via.value)} else {})
    case Names(target, replacement) => s.(named := s.named + {(target, replacement)})
    case Holds(target) => s.(sender := s.sender[target := w])
    case Sends(target) => s.(sent := s.sent + multiset{target})
  }

  predicate Enabled(s: State, step: Step) {
    match step
    case By(w, act) => if w in s.pcs then CanGoOn(s, s.pcs[w], act) else CanOpen(s, act)
    case Propose(a, row) => a !in s.rows && Fresh(row)
    case Offer(r, _) => r !in s.relays
    case AnswerQuestion(a) => a in s.rows && s.rows[a].tool.Question?
    case _ => true
  }

  /** What the request's statement does; an opening request only starts. */
  function EffectOf(s: State, w: Worker, act: Act): Effect
    requires Enabled(s, By(w, act))
  {
    if w in s.pcs then GoesOn(s, s.pcs[w], act) else Effect(Opened(s, act), s.rows, Nothing)
  }

  /** The relay answer the request carries, if it carries one. */
  predicate Approving(s: State, w: Worker) { w in s.pcs && s.pcs[w].Answering? && s.pcs[w].approve }

  function Taken(s: State, w: Worker, e: Effect): State {
    Noted(s, w, e.note, Approving(s, w)).(rows := e.rows, pcs := s.pcs[w := e.pc])
  }

  function Apply(s: State, step: Step): State
    requires Enabled(s, step)
  {
    match step
    case By(w, act) => Taken(s, w, EffectOf(s, w, act))
    case Propose(a, row) => s.(rows := s.rows[a := row])
    case Offer(r, target) => s.(relays := s.relays[r := Relay(target, Open)])
    case Undo(a) => s.(rows := IntentMoved(s.rows, a, Held, Undone))
    case Expire(a) => s.(rows := Moved(s.rows, a, Pending, Expired))
    case AnswerQuestion(a) => s.(rows := Moved(s.rows, a, Pending, Answered))
  }

  ghost predicate IsRun(s: State, steps: seq<Step>)
    decreases |steps|
  {
    steps == [] || (Enabled(s, steps[0]) && IsRun(Apply(s, steps[0]), steps[1..]))
  }

  ghost function After(s: State, steps: seq<Step>): State
    requires IsRun(s, steps)
    decreases |steps|
  {
    if steps == [] then s else After(Apply(s, steps[0]), steps[1..])
  }
}
