/** What becomes of inbound channel messages: routes, receipts, and the books kept over any number of them. */
module InboundLedger {
  import opened Options
  import opened Texts
  import Budget = InboundBudget
  import Loops = LoopGuard

  type Id = nat

  datatype Mode = RecordOnly | NewTurn | Interrupt | SideQuestion | OtherMode

  /** What the owner stored about a connector. */
  datatype Pairing = Pairing(
    allowlist: set<string>, owner: string, paused: bool, mode: Mode, target: Option<string>, telegram: bool)

  /** What arrived: `mark` is the text's fingerprint. */
  datatype Message = Message(connector: string, sender: string, mark: string, text: string, eventKey: Option<string>)

  predicate IsOwner(p: Pairing, m: Message) { p.owner != "" && m.sender == p.owner }

  /** A text that stops the running turn: one of three words, in any case, with blanks around it or without. */
  predicate IsStopWord(text: string) { Lower(Strip(text)) in {"stop", "cancel", "pause"} }

  // ----- Routing -----

  /** What an admitted message sets going before anything is awaited. */
  datatype Plan =
    | NoRoute(reason: Option<string>)
    | Stop(session: string)
    | Steer(session: string, text: string)
    | Turn(session: string, prompt: string, toolBudget: nat)

  function FirstOf(text: string, n: nat): (first: string)
    ensures first <= text && |first| <= n && (first == text || |first| == n)
  {
    text[..if |text| <= n then |text| else n]
  }

  const STEER_LIMIT := 4000
  const PROMPT_LIMIT := 16000
  const OWNER_TOOL_BUDGET := 12

  function PromptOf(text: string): string {
    if text == "" then "(empty channel message)" else FirstOf(text, PROMPT_LIMIT)
  }

  /** `_route_inbound_message` up to its await: the stored route decides, never the message. */
  function PlanOf(p: Pairing, m: Message, queueFull: bool, newSession: string): Plan {
    if p.mode == RecordOnly then NoRoute(None)
    else if (p.mode == NewTurn || p.mode == Interrupt) && !IsOwner(p, m)
    then NoRoute(Some("channel_owner_sender_required"))
    else if p.mode == Interrupt then
      if p.target == None then NoRoute(Some("channel_target_session_required"))
      else if IsStopWord(m.text) then Stop(p.target.value)
      else if queueFull then NoRoute(Some("steer_queue_full"))
      else Steer(p.target.value, FirstOf(m.text, STEER_LIMIT))
    else if p.mode == OtherMode then NoRoute(Some("channel_routing_mode_unsupported"))
    else if p.mode == SideQuestion && p.target == None then NoRoute(Some("channel_target_session_required"))
    else Turn(if p.target == None then newSession else p.target.value, PromptOf(m.text),
              if p.mode == SideQuestion then 0 else OWNER_TOOL_BUDGET)
  }

  /** Whoever is not the owner stops and steers nothing, and starts at most a side question that may call no tool. */
  lemma {:induction false} OthersOnlyAsk(p: Pairing, m: Message, queueFull: bool, newSession: string)
    requires p.owner == "" || m.sender != p.owner
    ensures var plan := PlanOf(p, m, queueFull, newSession);
            && !plan.Stop? && !plan.Steer?
            && (plan.Turn? ==> p.mode == SideQuestion && plan.toolBudget == 0 && p.target == Some(plan.session))
  {
  }

  /**
   * On a pairing that interrupts, the owner's stop words stop the paired session, and every other text of the owner's
   * steers it, in its first 4000 characters, unless the queue is full.
   */
  lemma {:induction false} OwnersInterrupt(p: Pairing, m: Message, queueFull: bool, newSession: string)
    requires p.owner != "" && m.sender == p.owner && p.mode == Interrupt && p.target.Some?
    ensures var plan := PlanOf(p, m, queueFull, newSession);
            && (plan == Stop(p.target.value) <==> IsStopWord(m.text))
            && (plan.Steer? <==> !IsStopWord(m.text) && !queueFull)
            && (plan == NoRoute(Some("steer_queue_full")) <==> !IsStopWord(m.text) && queueFull)
            && (plan.Steer? ==> plan.session == p.target.value && plan.text <= m.text && |plan.text| <= 4000 &&
                                (plan.text == m.text || |plan.text| == 4000))
  {
  }

  /** The text is the word, with blanks around it or without. */
  ghost predicate Says(text: string, word: string) {
    exists left, right :: AllBlank(left, IsSpace) && AllBlank(right, IsSpace) && text == left + word + right
  }

  /** A stop word is stop, cancel or pause in any case, with blanks around it or without, and nothing else is. */
  lemma {:induction false} StopWordsExactly(text: string)
    ensures IsStopWord(text) <==> exists word :: Says(text, word) && Lower(word) in {"stop", "cancel", "pause"}
  {
    var i, j := StripWhere(text, IsSpace);
    assert Says(text, text[i..j]);
    forall word | Says(text, word) && Lower(word) in {"stop", "cancel", "pause"} ensures IsStopWord(text) {
      var left, right :| AllBlank(left, IsSpace) && AllBlank(right, IsSpace) && text == left + word + right;
      LettersAreBare(word);
      Stripped(left, word, right, IsSpace);
    }
  }

  lemma LettersAreBare(word: string)
    requires Lower(word) in {"stop", "cancel", "pause"}
    ensures Bare(word, IsSpace)
  {
    assert Lower(word)[0] == LowerChar(word[0]) && Lower(word)[|word| - 1] == LowerChar(word[|word| - 1]);
  }

  /**
   * On a pairing that starts turns, the owner's message starts one in the paired session, or in a new one, with twelve
   * tool calls; a side question of anybody's starts one in the paired session with none. The prompt is the text.
   */
  lemma {:induction false} TurnsAreStarted(p: Pairing, m: Message, queueFull: bool, newSession: string)
    requires || (p.mode == NewTurn && p.owner != "" && m.sender == p.owner)
             || (p.mode == SideQuestion && p.target.Some?)
    ensures var plan := PlanOf(p, m, queueFull, newSession);
            && plan.Turn? && plan.toolBudget == (if p.mode == NewTurn then 12 else 0)
            && (p.target.Some? ==> plan.session == p.target.value) && (p.target == None ==> plan.session == newSession)
            && (m.text != "" ==> plan.prompt <= m.text && (plan.prompt == m.text || |plan.prompt| == 16000))
            && 0 < |plan.prompt| <= 16000
  {
  }

  /** Nothing else is set going, and a pairing that only records gives no reason for it. */
  lemma {:induction false} NothingElseStarts(p: Pairing, m: Message, queueFull: bool, newSession: string)
    ensures var plan := PlanOf(p, m, queueFull, newSession);
            && (plan.NoRoute? && plan.reason == None <==> p.mode == RecordOnly)
            && (plan.NoRoute? ==> plan.reason.Some? ==> plan.reason.value != "")
            && (!IsOwner(p, m) && (p.mode == NewTurn || p.mode == Interrupt) ==>
                  plan == NoRoute(Some("channel_owner_sender_required")))
            && (IsOwner(p, m) && p.mode == Interrupt && p.target == None ==>
                  plan == NoRoute(Some("channel_target_session_required")))
            && (p.mode == OtherMode ==> plan == NoRoute(Some("channel_routing_mode_unsupported")))
            && (p.mode == SideQuestion && p.target == None ==> plan == NoRoute(Some("channel_target_session_required")))
            && (plan.Turn? ==> p.mode == NewTurn || p.mode == SideQuestion)
            && (plan.Stop? || plan.Steer? ==> p.mode == Interrupt && p.target == Some(plan.session))
  {
  }

  /** What the awaited turn came back with. */
  datatype Response = Response(status: string, reply: string)

  // ----- Receipts -----

  datatype Role = NotAllowed | Owner | Allowed

  datatype Receipt = Receipt(
    role: Role, accepted: bool, queued: bool, processed: bool, failed: bool, replyQueued: bool, delivered: bool,
    reason: Option<string>, session: Option<string>)

  /** Never both processed and failed, no failure without a reason, nothing delivered that was not processed. */
  predicate ReceiptOk(r: Receipt) {
    && !(r.processed && r.failed)
    && (r.failed ==> r.reason.Some? && r.reason.value != "")
    && (r.delivered ==> r.processed && r.replyQueued)
    && (r.processed || r.queued ==> r.accepted)
  }

  function RoleOf(p: Pairing, m: Message): Role { if IsOwner(p, m) then Owner else Allowed }

  function FailedReceipt(role: Role, reason: string): Receipt {
    Receipt(role, false, false, false, true, false, false, Some(reason), None)
  }

  function AcceptedReceipt(role: Role, reason: Option<string>): Receipt {
    Receipt(role, true, false, false, false, false, false, reason, None)
  }

  const FAILED_STATUSES := {"error", "failed", "refused", "stopped", "cancelled", "resume_failed"}

  /** The turn is waiting for the owner: queued, and not yet processed. */
  predicate IsWaiting(status: string) {
    Contains(status, "approval") || Contains(status, "suspend") || Contains(status, "waiting")
  }

  /** `_settle_receipt`; a stage or reason already written stays. */
  function Settled(r: Receipt, plan: Plan, response: Response, telegram: bool): Receipt {
    match plan
    case NoRoute(reason) => if reason == None then r else r.(failed := true, reason := reason)
    case Stop(session) => r.(queued := true, processed := true, session := Some(session))
    case Steer(session, _) => r.(queued := true, processed := true, session := Some(session))
    case Turn(session, _, _) =>
      var q := r.(queued := true, session := if session == "" then r.session else Some(session));
      if response.status in FAILED_STATUSES then q.(failed := true, reason := Some("turn_" + response.status))
      else if IsWaiting(response.status) || response.status == "" then q
      else if response.reply != "" && !telegram then q.(processed := true, replyQueued := true, delivered := true)
      else q.(processed := true)
  }

  /** The turn is over, and not by failing. */
  predicate IsFinished(status: string) {
    && status != "" && status !in {"error", "failed", "refused", "stopped", "cancelled", "resume_failed"}
    && !Contains(status, "approval") && !Contains(status, "suspend") && !Contains(status, "waiting")
  }

  /**
   * Whatever the route did, an accepted receipt settles into a coherent one. It is queued exactly if something was set
   * going, processed exactly for an interrupt or a finished turn, failed exactly for a refused route or a failed turn
   * and then with that reason, and delivered exactly for a finished turn's reply on a channel that answers in place.
   */
  lemma {:induction false} SettlingIsCoherent(
      p: Pairing, m: Message, queueFull: bool, newSession: string, response: Response, role: Role)
    ensures var plan := PlanOf(p, m, queueFull, newSession);
            var r := Settled(AcceptedReceipt(role, None), plan, response, p.telegram);
            && ReceiptOk(r) && r.accepted && r.role == role
            && (r.queued <==> !plan.NoRoute?)
            && (r.processed <==> plan.Stop? || plan.Steer? || (plan.Turn? && IsFinished(response.status)))
            && (r.failed <==>
                  (plan.NoRoute? && plan.reason.Some?) || (plan.Turn? && response.status in FAILED_STATUSES))
            && (r.delivered <==> plan.Turn? && IsFinished(response.status) && response.reply != "" && !p.telegram)
            && (r.replyQueued <==> r.delivered)
            && (r.reason == if plan.NoRoute? then plan.reason
                            else if r.failed then Some("turn_" + response.status) else None)
            && (!plan.NoRoute? && plan.session != "" ==> r.session == Some(plan.session))
  {
  }

  // ----- Outcomes -----

  datatype Outcome =
    | NotPaired
    | NotAllowlisted(id: Id)
    | DuplicateOf(first: Id)
    | OverBudget(id: Id, refusal: Budget.Refusal)
    | Looping(id: Id, loop: Loops.Loop)
    | HeldBack(id: Id)
    | Admitted(id: Id, plan: Plan)

  predicate HasReceipt(o: Outcome) { !o.NotPaired? && !o.DuplicateOf? }

  function BudgetReason(r: Budget.Refusal): (reason: string)
    ensures reason != ""
  {
    match r
    case RateLimited => "rate_limited"
    case ChannelRateLimited => "channel_rate_limited"
    case InboundRateLimited => "inbound_rate_limited"
  }

  function LoopReason(l: Loops.Loop): (reason: string)
    ensures reason != ""
  {
    match l
    case Echo => "loop_echo"
    case Repeated => "loop_repeated"
  }

  function ReasonOf(refused: Outcome): (reason: string)
    requires refused.OverBudget? || refused.Looping?
    ensures reason != ""
  {
    if refused.OverBudget? then BudgetReason(refused.refusal) else LoopReason(refused.loop)
  }

  // ----- The books -----

  /** One message as it was handled on arrival, and what the queue and the session ids were like. */
  datatype Entry = Entry(p: Pairing, m: Message, queueFull: bool, newSession: string, outcome: Outcome)

  /** Something set going, and the message that did. */
  datatype Started = Started(plan: Plan, p: Pairing, m: Message)

  /** How the awaited turns have come back so far. */
  type Responses = map<Id, Response>

  /** The receipt an entry has by now. */
  function ReceiptNow(e: Entry, done: Responses): Receipt
    requires HasReceipt(e.outcome)
  {
    match e.outcome
    case NotAllowlisted(_) => FailedReceipt(NotAllowed, "sender_not_allowlisted")
    case OverBudget(_, _) => FailedReceipt(RoleOf(e.p, e.m), ReasonOf(e.outcome))
    case Looping(_, _) => FailedReceipt(RoleOf(e.p, e.m), ReasonOf(e.outcome))
    case HeldBack(_) => AcceptedReceipt(RoleOf(e.p, e.m), Some("channel_paused"))
    case Admitted(id, plan) =>
      var accepted := AcceptedReceipt(RoleOf(e.p, e.m), None);
      if id in done then Settled(accepted, plan, done[id], e.p.telegram) else accepted
  }

  /** Who sent it, and why it went no further. */
  lemma {:induction false} ReceiptSaysWhoAndWhy(e: Entry, done: Responses)
    requires HasReceipt(e.outcome) && Planned(e)
    ensures var r := ReceiptNow(e, done);
            && (r.role == NotAllowed <==> e.m.sender !in e.p.allowlist)
            && (r.role == Owner <==> e.m.sender in e.p.allowlist && e.p.owner != "" && e.m.sender == e.p.owner)
            && (r.accepted <==> e.outcome.HeldBack? || e.outcome.Admitted?)
            && (e.outcome.HeldBack? ==> r == AcceptedReceipt(r.role, Some("channel_paused")))
            && (!r.accepted ==> r.failed && !r.queued && !r.processed && !r.replyQueued && !r.delivered)
            && (e.outcome.NotAllowlisted? ==> r.reason == Some("sender_not_allowlisted"))
            && (e.outcome.OverBudget? ==> r.reason == Some(
                  if e.outcome.refusal == Budget.RateLimited then "rate_limited"
                  else if e.outcome.refusal == Budget.ChannelRateLimited then "channel_rate_limited"
                  else "inbound_rate_limited"))
            && (e.outcome.Looping? ==>
                  r.reason == Some(if e.outcome.loop == Loops.Echo then "loop_echo" else "loop_repeated"))
  {
    if e.outcome.Admitted? && e.outcome.id in done {
      SettlingIsCoherent(e.p, e.m, e.queueFull, e.newSession, done[e.outcome.id], RoleOf(e.p, e.m));
    }
  }

  function ReceiptsOf(ledger: seq<Entry>, done: Responses): map<Id, Receipt> {
    if ledger == [] then map[]
    else
      var rest, e := ReceiptsOf(ledger[..|ledger| - 1], done), ledger[|ledger| - 1];
      if HasReceipt(e.outcome) then rest[e.outcome.id := ReceiptNow(e, done)] else rest
  }

  /** The interrupts sent. */
  function InterruptsOf(ledger: seq<Entry>): seq<Started> {
    if ledger == [] then []
    else
      var e := ledger[|ledger| - 1];
      InterruptsOf(ledger[..|ledger| - 1]) +
      if e.outcome.Admitted? && (e.outcome.plan.Stop? || e.outcome.plan.Steer?)
      then [Started(e.outcome.plan, e.p, e.m)] else []
  }

  function TurnsOf(ledger: seq<Entry>): seq<Started> {
    if ledger == [] then []
    else
      var e := ledger[|ledger| - 1];
      TurnsOf(ledger[..|ledger| - 1]) +
      if e.outcome.Admitted? && e.outcome.plan.Turn? then [Started(e.outcome.plan, e.p, e.m)] else []
  }

  /** How many messages were not turned away unpaired and not duplicates. */
  function Receivable(ledger: seq<Entry>): nat {
    if ledger == [] then 0
    else Receivable(ledger[..|ledger| - 1]) + if HasReceipt(ledger[|ledger| - 1].outcome) then 1 else 0
  }

  /** A message is let in only if its sender is listed and the pairing is not paused, and follows the stored plan. */
  ghost predicate Planned(e: Entry) {
    && (e.outcome.NotAllowlisted? <==> e.m.sender !in e.p.allowlist)
    && (e.outcome.HeldBack? ==> e.p.paused)
    && (e.outcome.Admitted? ==> !e.p.paused && e.outcome.plan == PlanOf(e.p, e.m, e.queueFull, e.newSession))
  }

  /** Receipt ids are handed out in order, and plans come from pairings. */
  ghost predicate LedgerOk(ledger: seq<Entry>, next: Id) {
    ledger == [] ||
    var e := ledger[|ledger| - 1];
    && Planned(e)
    && if HasReceipt(e.outcome) then e.outcome.id < next && LedgerOk(ledger[..|ledger| - 1], e.outcome.id)
       else LedgerOk(ledger[..|ledger| - 1], next)
  }

  lemma {:induction false} LedgerGrows(ledger: seq<Entry>, next: Id, later: Id)
    requires LedgerOk(ledger, next) && next <= later
    ensures LedgerOk(ledger, later)
    decreases |ledger|
  {
    if ledger != [] && !HasReceipt(ledger[|ledger| - 1].outcome) {
      LedgerGrows(ledger[..|ledger| - 1], next, later);
    }
  }

  lemma {:induction false} IdsBelow(ledger: seq<Entry>, done: Responses, next: Id)
    requires LedgerOk(ledger, next)
    ensures forall id :: id in ReceiptsOf(ledger, done) ==> id < next
    decreases |ledger|
  {
    if ledger != [] {
      var front, e := ledger[..|ledger| - 1], ledger[|ledger| - 1];
      if HasReceipt(e.outcome) { IdsBelow(front, done, e.outcome.id); } else { IdsBelow(front, done, next); }
    }
  }

  // ----- What holds of all books -----

  /** Exactly one receipt for each message to an enabled pairing that is no duplicate. */
  lemma {:induction false} OneReceiptEach(ledger: seq<Entry>, done: Responses, next: Id)
    requires LedgerOk(ledger, next)
    ensures |ReceiptsOf(ledger, done)| == Receivable(ledger)
    decreases |ledger|
  {
    if ledger != [] {
      var front, e := ledger[..|ledger| - 1], ledger[|ledger| - 1];
      if HasReceipt(e.outcome) {
        OneReceiptEach(front, done, e.outcome.id);
        IdsBelow(front, done, e.outcome.id);
        assert e.outcome.id !in ReceiptsOf(front, done);
      } else {
        OneReceiptEach(front, done, next);
      }
    }
  }

  lemma ReceiptNowIsOk(e: Entry, done: Responses)
    requires HasReceipt(e.outcome) && Planned(e)
    ensures ReceiptOk(ReceiptNow(e, done))
  {
    if e.outcome.Admitted? && e.outcome.id in done {
      SettlingIsCoherent(e.p, e.m, e.queueFull, e.newSession, done[e.outcome.id], RoleOf(e.p, e.m));
    }
  }

  /** Every receipt is coherent, settled or still open. */
  lemma {:induction false} AllReceiptsCoherent(ledger: seq<Entry>, done: Responses, next: Id)
    requires LedgerOk(ledger, next)
    ensures forall id :: id in ReceiptsOf(ledger, done) ==> ReceiptOk(ReceiptsOf(ledger, done)[id])
    decreases |ledger|
  {
    if ledger != [] {
      var front, e := ledger[..|ledger| - 1], ledger[|ledger| - 1];
      if HasReceipt(e.outcome) {
        AllReceiptsCoherent(front, done, e.outcome.id);
        ReceiptNowIsOk(e, done);
      } else {
        AllReceiptsCoherent(front, done, next);
      }
    }
  }

  /** From a listed sender over a pairing that is not paused. */
  predicate LetIn(s: Started) { s.m.sender in s.p.allowlist && !s.p.paused }

  /** The pairing's owner sent it. */
  predicate ByOwner(s: Started) { s.p.owner != "" && s.m.sender == s.p.owner }

  /** A stop of the paired session by one of the owner's stop words, or a steer of it by another text of the owner's. */
  predicate IsMeant(s: Started) {
    && LetIn(s) && ByOwner(s) && s.p.mode == Interrupt
    && (s.plan.Stop? || s.plan.Steer?) && s.p.target == Some(s.plan.session)
    && (s.plan.Stop? <==> IsStopWord(s.m.text)) && (s.plan.Steer? ==> s.plan.text <= s.m.text)
  }

  /** A turn of the owner's, or one that may call no tool. */
  predicate IsBounded(s: Started) {
    LetIn(s) && s.plan.Turn? && (s.plan.toolBudget == 0 || (ByOwner(s) && s.plan.toolBudget == 12))
  }

  /** Only the owner's messages stop or steer, as their texts say, and a turn of anybody else's may call no tool. */
  lemma {:induction false} OnlyOwnersInterrupt(ledger: seq<Entry>, next: Id)
    requires LedgerOk(ledger, next)
    ensures forall i :: 0 <= i < |InterruptsOf(ledger)| ==> IsMeant(InterruptsOf(ledger)[i])
    ensures forall i :: 0 <= i < |TurnsOf(ledger)| ==> IsBounded(TurnsOf(ledger)[i])
    decreases |ledger|
  {
    if ledger != [] {
      var front, e := ledger[..|ledger| - 1], ledger[|ledger| - 1];
      OnlyOwnersInterrupt(front, if HasReceipt(e.outcome) then e.outcome.id else next);
    }
  }

  /** What each admitted message of the ledger had to set going was set going. */
  ghost predicate Heard(e: Entry, interrupts: seq<Started>, turns: seq<Started>) {
    e.outcome.Admitted? && e.p.owner != "" && e.m.sender == e.p.owner ==>
      && (e.p.mode == Interrupt && e.p.target.Some? ==>
            || (IsStopWord(e.m.text) && Started(Stop(e.p.target.value), e.p, e.m) in interrupts)
            || (!IsStopWord(e.m.text) && !e.queueFull && exists text ::
                  text <= e.m.text && Started(Steer(e.p.target.value, text), e.p, e.m) in interrupts)
            || (!IsStopWord(e.m.text) && e.queueFull && e.outcome.plan == NoRoute(Some("steer_queue_full"))))
      && (e.p.mode == NewTurn ==>
            Started(Turn(if e.p.target.Some? then e.p.target.value else e.newSession, PromptOf(e.m.text), 12), e.p, e.m)
            in turns)
  }

  /** No message of the owner's that was let in is lost: it interrupts or starts a turn, unless the queue was full. */
  lemma {:induction false} OwnersAreHeard(ledger: seq<Entry>, next: Id)
    requires LedgerOk(ledger, next)
    ensures forall i :: 0 <= i < |ledger| ==> Heard(ledger[i], InterruptsOf(ledger), TurnsOf(ledger))
    decreases |ledger|
  {
    if ledger != [] {
      var front, e := ledger[..|ledger| - 1], ledger[|ledger| - 1];
      OwnersAreHeard(front, if HasReceipt(e.outcome) then e.outcome.id else next);
      forall i | 0 <= i < |front| ensures Heard(ledger[i], InterruptsOf(ledger), TurnsOf(ledger)) {
        assert Heard(front[i], InterruptsOf(front), TurnsOf(front));
        HeardStill(front[i], InterruptsOf(front), TurnsOf(front), InterruptsOf(ledger), TurnsOf(ledger));
      }
      assert Heard(e, InterruptsOf(ledger), TurnsOf(ledger));
    }
  }

  lemma HeardStill(e: Entry, a: seq<Started>, b: seq<Started>, c: seq<Started>, d: seq<Started>)
    requires Heard(e, a, b) && a <= c && b <= d
    ensures Heard(e, c, d)
  {
  }

  /** The tables say what the ledger of every message and the turns that have come back say. */
  ghost predicate Kept(
      ledger: seq<Entry>, done: Responses, next: Id,
      receipts: map<Id, Receipt>, interrupts: seq<Started>, turns: seq<Started>)
  {
    && LedgerOk(ledger, next) && receipts == ReceiptsOf(ledger, done)
    && interrupts == InterruptsOf(ledger) && turns == TurnsOf(ledger)
  }

  /**
   * At every moment, however admissions and settlements have interleaved: exactly one receipt for each message that
   * is neither unpaired nor a duplicate, every receipt coherent, only the owner's messages among the interrupts, each
   * doing what its text says, and none of the owner's lost.
   */
  lemma {:induction false} BooksBalance(
      ledger: seq<Entry>, done: Responses, next: Id,
      receipts: map<Id, Receipt>, interrupts: seq<Started>, turns: seq<Started>)
    requires Kept(ledger, done, next, receipts, interrupts, turns)
    ensures |receipts| == Receivable(ledger)
    ensures forall id :: id in receipts ==> ReceiptOk(receipts[id])
    ensures forall i :: 0 <= i < |interrupts| ==> IsMeant(interrupts[i])
    ensures forall i :: 0 <= i < |turns| ==> IsBounded(turns[i])
    ensures forall i :: 0 <= i < |ledger| ==> Heard(ledger[i], interrupts, turns)
  {
    OneReceiptEach(ledger, done, next);
    AllReceiptsCoherent(ledger, done, next);
    OnlyOwnersInterrupt(ledger, next);
    OwnersAreHeard(ledger, next);
  }

  // ----- How the books change -----

  lemma LedgerExtends(ledger: seq<Entry>, next: Id, e: Entry)
    requires LedgerOk(ledger, next) && Planned(e) && (HasReceipt(e.outcome) ==> e.outcome.id == next)
    ensures LedgerOk(ledger + [e], next + if HasReceipt(e.outcome) then 1 else 0)
  {
    assert (ledger + [e])[..|ledger|] == ledger;
  }

  lemma {:induction false} EntryAdded(ledger: seq<Entry>, done: Responses, e: Entry)
    ensures ReceiptsOf(ledger + [e], done) ==
            if HasReceipt(e.outcome) then ReceiptsOf(ledger, done)[e.outcome.id := ReceiptNow(e, done)]
            else ReceiptsOf(ledger, done)
    ensures InterruptsOf(ledger + [e]) == InterruptsOf(ledger) +
            if e.outcome.Admitted? && (e.outcome.plan.Stop? || e.outcome.plan.Steer?)
            then [Started(e.outcome.plan, e.p, e.m)] else []
    ensures TurnsOf(ledger + [e]) == TurnsOf(ledger) +
            if e.outcome.Admitted? && e.outcome.plan.Turn? then [Started(e.outcome.plan, e.p, e.m)] else []
  {
    assert (ledger + [e])[..|ledger|] == ledger;
  }

  /** A turn that comes back changes its own message's receipt and no other. */
  lemma {:induction false} ResponseRecorded(ledger: seq<Entry>, done: Responses, next: Id, i: nat, response: Response)
    requires LedgerOk(ledger, next) && i < |ledger| && ledger[i].outcome.Admitted? && ledger[i].outcome.id !in done
    ensures var id := ledger[i].outcome.id;
            ReceiptsOf(ledger, done[id := response]) ==
            ReceiptsOf(ledger, done)[id := ReceiptNow(ledger[i], done[id := response])]
    decreases |ledger|
  {
    var id, front, e := ledger[i].outcome.id, ledger[..|ledger| - 1], ledger[|ledger| - 1];
    if i == |ledger| - 1 {
      SameBelow(front, done, e.outcome.id, id, response);
    } else {
      var below := if HasReceipt(e.outcome) then e.outcome.id else next;
      ResponseRecorded(front, done, below, i, response);
      AdmittedBelow(front, below, i);
    }
  }

  lemma {:induction false} AdmittedBelow(ledger: seq<Entry>, next: Id, i: nat)
    requires LedgerOk(ledger, next) && i < |ledger| && HasReceipt(ledger[i].outcome)
    ensures ledger[i].outcome.id < next
    decreases |ledger|
  {
    if i < |ledger| - 1 {
      var e := ledger[|ledger| - 1];
      AdmittedBelow(ledger[..|ledger| - 1], if HasReceipt(e.outcome) then e.outcome.id else next, i);
    }
  }

  lemma {:induction false} SameBelow(ledger: seq<Entry>, done: Responses, next: Id, id: Id, response: Response)
    requires LedgerOk(ledger, next) && next <= id
    ensures ReceiptsOf(ledger, done[id := response]) == ReceiptsOf(ledger, done)
    decreases |ledger|
  {
    if ledger != [] {
      var e := ledger[|ledger| - 1];
      SameBelow(ledger[..|ledger| - 1], done, if HasReceipt(e.outcome) then e.outcome.id else next, id, response);
    }
  }
}
