/** Sessions, enrolments and the epoch that ends remote sessions. */
module SessionAssurance {
  import opened Options
  import opened RemoteAccess

  type Id = nat
  type Principal = nat

  /** A scope; tickets for a second factor or a password recovery have scopes of their own. */
  datatype Level = HostControl | Control | Elevated | OtherScope(name: string)

  datatype Assurance = Password | Mfa

  /** A session row; times are in seconds. */
  datatype Session = Session(
    principal: Principal, level: Level, fromRemote: bool, assurance: Assurance, epoch: Option<int>, revoked: bool,
    expires: Option<int>, absolute: Option<int>)

  datatype Account = Account(enrolled: bool, epoch: int)

  datatype Db = Db(accounts: map<Principal, Account>, active: set<Principal>, sessions: map<Id, Session>)

  predicate Satisfies(level: Level, required: Level) {
    match required
    case HostControl => level == HostControl || level == Control || level == Elevated
    case Control => level == Control || level == Elevated
    case Elevated => level == Elevated
    case OtherScope(_) => level == required
  }

  predicate IsExpired(session: Session, now: int) {
    || (session.absolute.Some? && now > session.absolute.value)
    || (session.expires.Some? && now > session.expires.value)
  }

  datatype Denial =
    NoSession | Revoked | Expired | PrincipalGone | ScopeInsufficient | RemoteSuspended | RemoteMfaRequired

  /** `_require_remote_assurance`. */
  function RemoteDenial(db: Db, session: Session): Option<Denial> {
    if session.principal !in db.accounts || !db.accounts[session.principal].enrolled then Some(RemoteSuspended)
    else if !session.fromRemote || session.assurance != Mfa ||
      session.epoch != Some(db.accounts[session.principal].epoch) then
      Some(RemoteMfaRequired)
    else None
  }

  /** `authenticate`, once the token has named a session and a cookie has passed its check. */
  function Denied(db: Db, id: Id, now: int, required: Level, remote: bool): Option<Denial> {
    if id !in db.sessions then Some(NoSession)
    else
      var session := db.sessions[id];
      if session.revoked then Some(Revoked)
      else if IsExpired(session, now) then Some(Expired)
      else if session.principal !in db.active then Some(PrincipalGone)
      else if !Satisfies(session.level, required) then Some(ScopeInsufficient)
      else if remote then RemoteDenial(db, session)
      else None
  }

  /** `require_fresh_mfa`. */
  predicate FreshMfa(db: Db, id: Id, now: int, remote: bool) {
    Denied(db, id, now, Elevated, remote) == None &&
    var session := db.sessions[id];
    session.assurance == Mfa &&
    session.epoch == Some(if session.principal in db.accounts then db.accounts[session.principal].epoch else -1)
  }

  // ----- Who is let in -----

  /** The order of the levels: each does what the ones before it do. */
  const LADDER := [HostControl, Control, Elevated]

  /** A session reaches a level at or below its own; a ticket's scope is good for that scope only. */
  predicate Reaches(level: Level, required: Level) {
    if level in LADDER && required in LADDER
    then exists i, j :: 0 <= i <= j < |LADDER| && LADDER[i] == required && LADDER[j] == level
    else level == required
  }

  lemma LevelsAreALadder(level: Level, required: Level)
    ensures Satisfies(level, required) <==> Reaches(level, required)
  {
    assert LADDER[0] == HostControl && LADDER[1] == Control && LADDER[2] == Elevated;
    if level in LADDER && required in LADDER && Satisfies(level, required) {
      var j := if level == HostControl then 0 else if level == Control then 1 else 2;
      var i := if required == HostControl then 0 else if required == Control then 1 else 2;
      assert LADDER[i] == required && LADDER[j] == level;
    }
  }

  /** The session is one that another device may use: made there, with a code of the enrolment in force. */
  predicate GoodRemotely(db: Db, session: Session) {
    && session.fromRemote && session.assurance == Mfa && session.principal in db.accounts
    && db.accounts[session.principal].enrolled && session.epoch == Some(db.accounts[session.principal].epoch)
  }

  /** In force: not signed out, neither limit passed, and its account active. */
  predicate InForce(db: Db, id: Id, now: int) {
    && id in db.sessions && !db.sessions[id].revoked && db.sessions[id].principal in db.active
    && (db.sessions[id].expires.Some? ==> now <= db.sessions[id].expires.value)
    && (db.sessions[id].absolute.Some? ==> now <= db.sessions[id].absolute.value)
  }

  /**
   * Exactly the sessions in force with a level at or above the required one are let in, and from another device only
   * those good remotely.
   */
  lemma {:induction false} LetInExactly(db: Db, id: Id, now: int, required: Level, remote: bool)
    ensures Denied(db, id, now, required, remote) == None <==>
            && InForce(db, id, now) && Reaches(db.sessions[id].level, required)
            && (remote ==> GoodRemotely(db, db.sessions[id]))
    ensures FreshMfa(db, id, now, remote) && db.sessions[id].principal in db.accounts ==>
            && InForce(db, id, now) && db.sessions[id].level == Elevated && db.sessions[id].assurance == Mfa
            && db.sessions[id].epoch == Some(db.accounts[db.sessions[id].principal].epoch)
    ensures InForce(db, id, now) && db.sessions[id].level == Elevated && GoodRemotely(db, db.sessions[id]) ==>
            FreshMfa(db, id, now, remote)
  {
    if id in db.sessions { LevelsAreALadder(db.sessions[id].level, required); }
  }

  /** Each refusal says what is missing: the session first, then its level, then what another device needs. */
  lemma {:induction false} RefusalSaysWhy(db: Db, id: Id, now: int, required: Level, remote: bool)
    ensures var d := Denied(db, id, now, required, remote);
            && (d == Some(NoSession) <==> id !in db.sessions)
            && (d == Some(Revoked) <==> id in db.sessions && db.sessions[id].revoked)
            && (d == Some(ScopeInsufficient) <==> InForce(db, id, now) && !Reaches(db.sessions[id].level, required))
            && (d == Some(RemoteSuspended) || d == Some(RemoteMfaRequired) ==> remote)
            && (d == Some(RemoteSuspended) ==> var p := db.sessions[id].principal;
                                               p !in db.accounts || !db.accounts[p].enrolled)
            && (d == Some(RemoteMfaRequired) ==> db.sessions[id].principal in db.accounts)
  {
    if id in db.sessions { LevelsAreALadder(db.sessions[id].level, required); }
  }

  /** A request from the remote listener that reaches the application authenticates only as another device's. */
  lemma {:induction false} RemoteListenerNeedsRemoteMfa(
      net: Net, listener: Option<Listener>, loopbackOnly: bool, disabled: bool, scope: Scope,
      db: Db, id: Id, now: int, required: Level)
    requires Remote(net, listener, scope) && Guarded(net, listener, loopbackOnly, disabled, scope).Passed?
    ensures var seen := Guarded(net, listener, loopbackOnly, disabled, scope).scope;
            Denied(db, id, now, required, !IsLocal(net, seen)) == None ==>
              && !disabled && id in db.sessions && db.sessions[id].fromRemote && db.sessions[id].assurance == Mfa
              && db.sessions[id].principal in db.accounts && db.accounts[db.sessions[id].principal].enrolled
              && db.sessions[id].epoch == Some(db.accounts[db.sessions[id].principal].epoch)
  {
    RemoteIsNeverLocal(net, listener, loopbackOnly, disabled, scope);
  }

  // ----- What happens to accounts and sessions -----

  /** A session is issued against an epoch read a moment before: the current one, or one that has just gone. */
  datatype Step =
    | Enrol(p: Principal)
    | SignIn(id: Id, session: Session)
    | ActivateMfa(p: Principal, keep: Option<Id>)
    | DisableMfa(p: Principal, kept: set<Id>)
    | RevokeSession(id: Id)
    | RevokeOthers(p: Principal, but: Id)
    | RevokeAll(p: Principal)
    | Retire(p: Principal)
    | Touch(id: Id, when: int, remote: bool)

  predicate Enabled(db: Db, step: Step) {
    match step
    case Enrol(p) => p !in db.accounts
    case SignIn(id, session) =>
      id !in db.sessions && session.principal in db.accounts &&
      (session.assurance == Mfa <==> session.epoch.Some?) &&
      (session.epoch.Some? ==> session.epoch.value <= db.accounts[session.principal].epoch)
    case ActivateMfa(p, keep) => p in db.accounts && (keep.Some? ==> keep.value in db.sessions)
    case DisableMfa(p, _) => p in db.accounts
    case _ => true
  }

  function RevokedExcept(sessions: map<Id, Session>, p: Principal, keep: set<Id>): map<Id, Session> {
    map id | id in sessions ::
      if sessions[id].principal == p && id !in keep then sessions[id].(revoked := true) else sessions[id]
  }

  function Apply(db: Db, step: Step): Db
    requires Enabled(db, step)
  {
    match step
    case Enrol(p) => db.(accounts := db.accounts[p := Account(false, 0)], active := db.active + {p})
    case SignIn(id, session) => db.(sessions := db.sessions[id := session.(revoked := false)])
    case ActivateMfa(p, keep) =>
      var epoch := db.accounts[p].epoch + 1;
      var left := RevokedExcept(db.sessions, p, if keep.Some? then {keep.value} else {});
      Db(db.accounts[p := Account(true, epoch)], db.active,
         if keep.Some? then left[keep.value := left[keep.value].(assurance := Mfa, epoch := Some(epoch))] else left)
    case DisableMfa(p, keep) =>
      Db(db.accounts[p := Account(false, db.accounts[p].epoch + 1)], db.active, RevokedExcept(db.sessions, p, keep))
    case RevokeSession(id) =>
      if id in db.sessions then db.(sessions := db.sessions[id := db.sessions[id].(revoked := true)]) else db
    case RevokeOthers(p, keep) => db.(sessions := RevokedExcept(db.sessions, p, {keep}))
    case RevokeAll(p) => db.(sessions := RevokedExcept(db.sessions, p, {}))
    case Retire(p) => db.(active := db.active - {p}, sessions := RevokedExcept(db.sessions, p, {}))
    case Touch(id, when, remote) =>
      if id in db.sessions && remote && db.sessions[id].fromRemote && db.sessions[id].level == Control
      then db.(sessions := db.sessions[id := Slid(db.sessions[id], when + REMOTE_SESSION_IDLE_TTL)])
      else db
  }

  const REMOTE_SESSION_IDLE_TTL := 3600 * 12

  /** The idle limit moves on with use, and never past the hard one. */
  function Slid(session: Session, slid: int): Session {
    session.(expires :=
      Some(if session.absolute.Some? && session.absolute.value < slid then session.absolute.value else slid))
  }

  ghost predicate IsRun(db: Db, steps: seq<Step>)
    decreases |steps|
  {
    steps == [] || (Enabled(db, steps[0]) && IsRun(Apply(db, steps[0]), steps[1..]))
  }

  ghost function After(db: Db, steps: seq<Step>): Db
    requires IsRun(db, steps)
    decreases |steps|
  {
    if steps == [] then db else After(Apply(db, steps[0]), steps[1..])
  }

  /** No activation in the run re-verifies this session: it is not the one that entered the new code. */
  predicate NeverKept(steps: seq<Step>, id: Id) {
    forall i :: 0 <= i < |steps| ==> !(steps[i].ActivateMfa? && steps[i].keep == Some(id))
  }

  /** The session was verified against an enrolment that is over. */
  ghost predicate Stale(db: Db, id: Id) {
    id in db.sessions && db.sessions[id].principal in db.accounts &&
    (db.sessions[id].epoch == None || db.sessions[id].epoch.value < db.accounts[db.sessions[id].principal].epoch)
  }

  lemma StepKeepsStale(db: Db, step: Step, id: Id)
    requires Enabled(db, step) && Stale(db, id) && !(step.ActivateMfa? && step.keep == Some(id))
    ensures Stale(Apply(db, step), id)
  {
  }

  lemma {:induction false} StaleStays(db: Db, steps: seq<Step>, id: Id)
    requires IsRun(db, steps) && Stale(db, id) && NeverKept(steps, id)
    ensures Stale(After(db, steps), id)
    decreases |steps|
  {
    if steps != [] {
      StepKeepsStale(db, steps[0], id);
      assert forall i :: 0 <= i < |steps[1..]| ==> steps[1..][i] == steps[i + 1];
      StaleStays(Apply(db, steps[0]), steps[1..], id);
    }
  }

  /** Every session's epoch is one its account has had; every session belongs to an account. */
  ghost predicate EpochsOk(db: Db) {
    forall id :: id in db.sessions ==> SessionOk(db, id)
  }

  ghost predicate SessionOk(db: Db, id: Id)
    requires id in db.sessions
  {
    db.sessions[id].principal in db.accounts &&
    (db.sessions[id].epoch.Some? ==> db.sessions[id].epoch.value <= db.accounts[db.sessions[id].principal].epoch)
  }

  /** The one session that a new enrolment verifies is one of that account's own. */
  predicate KeepsOwn(db: Db, step: Step) {
    step.ActivateMfa? && step.keep.Some? ==>
      step.keep.value in db.sessions && db.sessions[step.keep.value].principal == step.p
  }

  ghost predicate KeepsOwnRun(db: Db, steps: seq<Step>)
    decreases |steps|
  {
    steps == [] ||
    (Enabled(db, steps[0]) && KeepsOwn(db, steps[0]) && KeepsOwnRun(Apply(db, steps[0]), steps[1..]))
  }

  lemma StepKeepsEpochs(db: Db, step: Step)
    requires Enabled(db, step) && KeepsOwn(db, step) && EpochsOk(db)
    ensures EpochsOk(Apply(db, step))
  {
    var t := Apply(db, step);
    forall id | id in t.sessions ensures SessionOk(t, id) {
      if id in db.sessions { assert SessionOk(db, id); }
    }
  }

  lemma {:induction false} RunKeepsEpochs(db: Db, steps: seq<Step>)
    requires KeepsOwnRun(db, steps) && EpochsOk(db)
    ensures IsRun(db, steps) && EpochsOk(After(db, steps))
    decreases |steps|
  {
    if steps != [] {
      StepKeepsEpochs(db, steps[0]);
      RunKeepsEpochs(Apply(db, steps[0]), steps[1..]);
    }
  }

  const EMPTY := Db(map[], {}, map[])

  predicate ChangesEpoch(step: Step, p: Principal) { (step.ActivateMfa? || step.DisableMfa?) && step.p == p }

  /**
   * After any run, a change of an account's enrolment ends every session it had, for other devices and for every
   * later moment, and as proof of a fresh code anywhere, but for a session that a new enrolment itself verified
   * by its first code.
   */
  lemma {:induction false} EpochChangeEndsRemoteSessions(
      before: seq<Step>, change: Step, later: seq<Step>, id: Id, now: int, required: Level)
    requires KeepsOwnRun(EMPTY, before) && IsRun(EMPTY, before)
    requires var db := After(EMPTY, before);
             id in db.sessions && Enabled(db, change) && ChangesEpoch(change, db.sessions[id].principal)
    requires IsRun(Apply(After(EMPTY, before), change), later)
    requires NeverKept([change] + later, id)
    ensures Denied(After(Apply(After(EMPTY, before), change), later), id, now, required, true).Some?
    ensures forall remote :: !FreshMfa(After(Apply(After(EMPTY, before), change), later), id, now, remote)
  {
    var db := After(EMPTY, before);
    RunKeepsEpochs(EMPTY, before);
    assert SessionOk(db, id);
    NeverKeptSplits(change, later, id);
    ChangeMakesStale(db, change, id);
    StaleStays(Apply(db, change), later, id);
    StaleIsDenied(After(Apply(db, change), later), id, now, required);
  }

  lemma NeverKeptSplits(change: Step, later: seq<Step>, id: Id)
    requires NeverKept([change] + later, id)
    ensures !(change.ActivateMfa? && change.keep == Some(id)) && NeverKept(later, id)
  {
    assert ([change] + later)[0] == change;
    assert forall i :: 0 <= i < |later| ==> ([change] + later)[i + 1] == later[i];
  }

  lemma ChangeMakesStale(db: Db, change: Step, id: Id)
    requires id in db.sessions && SessionOk(db, id) && Enabled(db, change)
    requires ChangesEpoch(change, db.sessions[id].principal)
    requires !(change.ActivateMfa? && change.keep == Some(id))
    ensures Stale(Apply(db, change), id)
  {
  }

  lemma StaleIsDenied(db: Db, id: Id, now: int, required: Level)
    requires Stale(db, id)
    ensures Denied(db, id, now, required, true).Some?
    ensures !FreshMfa(db, id, now, true) && !FreshMfa(db, id, now, false)
  {
  }

  /**
   * The exception is real: the session that confirms a new enrolment is at once good for other devices if it came from
   * one.
   */
  lemma {:induction false} ConfirmingSessionGoesOn(db: Db, p: Principal, id: Id, now: int, required: Level)
    requires id in db.sessions && p in db.accounts && p in db.active && db.sessions[id].principal == p
    requires InForce(db, id, now) && Reaches(db.sessions[id].level, required)
    ensures Denied(Apply(db, ActivateMfa(p, Some(id))), id, now, required, true) == None <==>
      db.sessions[id].fromRemote
  {
    LevelsAreALadder(db.sessions[id].level, required);
  }

  // ----- What ends a session -----

  /** The step signs this session out. */
  predicate SignsOut(db: Db, step: Step, id: Id) {
    && id in db.sessions
    && match step
       case RevokeSession(other) => other == id
       case RevokeOthers(p, keep) => db.sessions[id].principal == p && keep != id
       case RevokeAll(p) => db.sessions[id].principal == p
       case Retire(p) => db.sessions[id].principal == p
       case ActivateMfa(p, keep) => db.sessions[id].principal == p && keep != Some(id)
       case DisableMfa(p, kept) => db.sessions[id].principal == p && id !in kept
       case _ => false
  }

  lemma {:induction false} SignedOutStays(db: Db, steps: seq<Step>, id: Id)
    requires IsRun(db, steps) && id in db.sessions && db.sessions[id].revoked
    ensures id in After(db, steps).sessions && After(db, steps).sessions[id].revoked
    decreases |steps|
  {
    if steps != [] { SignedOutStays(Apply(db, steps[0]), steps[1..], id); }
  }

  /** A session once signed out opens nothing, from anywhere, in any continuation and at any time. */
  lemma {:induction false} SignedOutStaysOut(
      db: Db, step: Step, later: seq<Step>, id: Id, now: int, required: Level, remote: bool)
    requires Enabled(db, step) && SignsOut(db, step, id) && IsRun(Apply(db, step), later)
    ensures Denied(After(Apply(db, step), later), id, now, required, remote).Some?
    ensures !FreshMfa(After(Apply(db, step), later), id, now, remote)
  {
    SignedOutStays(Apply(db, step), later, id);
  }

  /** Nobody but those named is signed out: the step leaves every other session as it was, but for its proof. */
  lemma {:induction false} OthersStaySignedIn(db: Db, step: Step, id: Id)
    requires Enabled(db, step) && id in db.sessions && !SignsOut(db, step, id)
    ensures id in Apply(db, step).sessions && Apply(db, step).sessions[id].revoked == db.sessions[id].revoked
  {
  }

  /** The account is no longer active, and nothing makes it so again. */
  lemma {:induction false} RetiredStays(db: Db, steps: seq<Step>, p: Principal)
    requires IsRun(db, steps) && p in db.accounts && p !in db.active
    ensures p in After(db, steps).accounts && p !in After(db, steps).active
    decreases |steps|
  {
    if steps != [] { RetiredStays(Apply(db, steps[0]), steps[1..], p); }
  }

  /** A retired account opens nothing again, by any session it has or is ever given. */
  lemma {:induction false} RetiredStaysOut(
      db: Db, p: Principal, later: seq<Step>, id: Id, now: int, required: Level, remote: bool)
    requires p in db.accounts && IsRun(Apply(db, Retire(p)), later)
    requires var end := After(Apply(db, Retire(p)), later); id in end.sessions && end.sessions[id].principal == p
    ensures Denied(After(Apply(db, Retire(p)), later), id, now, required, remote).Some?
  {
    RetiredStays(Apply(db, Retire(p)), later, p);
  }

  // ----- The two limits -----

  lemma {:induction false} HardLimitStays(db: Db, steps: seq<Step>, id: Id)
    requires IsRun(db, steps) && id in db.sessions
    ensures id in After(db, steps).sessions && After(db, steps).sessions[id].absolute == db.sessions[id].absolute
    decreases |steps|
  {
    if steps != [] { HardLimitStays(Apply(db, steps[0]), steps[1..], id); }
  }

  /** However a session is used, it is over once its hard limit has passed. */
  lemma {:induction false} HardLimitHolds(db: Db, steps: seq<Step>, id: Id, now: int, required: Level, remote: bool)
    requires IsRun(db, steps) && id in db.sessions
    requires db.sessions[id].absolute.Some? && now > db.sessions[id].absolute.value
    ensures Denied(After(db, steps), id, now, required, remote).Some?
  {
    HardLimitStays(db, steps, id);
  }

  /** The last use of the session in the run was no later than `last`. */
  predicate UsedUntil(steps: seq<Step>, id: Id, last: int) {
    forall i :: 0 <= i < |steps| && steps[i].Touch? && steps[i].id == id ==> steps[i].when <= last
  }

  lemma {:induction false} IdleLimitStays(db: Db, steps: seq<Step>, id: Id, last: int)
    requires IsRun(db, steps) && UsedUntil(steps, id, last) && id in db.sessions
    requires db.sessions[id].expires.Some? && db.sessions[id].expires.value <= last + REMOTE_SESSION_IDLE_TTL
    ensures var s := After(db, steps).sessions;
            id in s && s[id].expires.Some? && s[id].expires.value <= last + REMOTE_SESSION_IDLE_TTL
    decreases |steps|
  {
    if steps != [] {
      assert steps[0].Touch? && steps[0].id == id ==> steps[0].when <= last;
      assert forall i :: 0 <= i < |steps[1..]| ==> steps[1..][i] == steps[i + 1];
      IdleLimitStays(Apply(db, steps[0]), steps[1..], id, last);
    }
  }

  /** A session that nobody has used for twelve hours, whatever else has happened, is over. */
  lemma {:induction false} IdleSessionEnds(
      db: Db, steps: seq<Step>, id: Id, last: int, now: int, required: Level, remote: bool)
    requires IsRun(db, steps) && UsedUntil(steps, id, last) && id in db.sessions
    requires db.sessions[id].expires.Some? && db.sessions[id].expires.value <= last + REMOTE_SESSION_IDLE_TTL
    requires now > last + REMOTE_SESSION_IDLE_TTL
    ensures Denied(After(db, steps), id, now, required, remote).Some?
  {
    IdleLimitStays(db, steps, id, last);
  }

  /** One that is used keeps going: each use from another device buys twelve hours, up to the hard limit. */
  lemma {:induction false} UseKeepsItGoing(db: Db, id: Id, when: int, now: int)
    requires id in db.sessions && db.sessions[id].fromRemote && db.sessions[id].level == Control
    requires InForce(db, id, when) && GoodRemotely(db, db.sessions[id]) && when <= now
    ensures Denied(Apply(db, Touch(id, when, true)), id, now, Control, true) == None <==>
            && now <= when + REMOTE_SESSION_IDLE_TTL
            && (db.sessions[id].absolute.Some? ==> now <= db.sessions[id].absolute.value)
  {
  }

  /** What only a remote session that signs in has: a limit that moves with use. */
  predicate Slides(session: Session) { session.fromRemote && session.level == Control }

  /** Used from this computer only. */
  predicate UsedHere(steps: seq<Step>, id: Id) {
    forall i :: 0 <= i < |steps| && steps[i].Touch? && steps[i].id == id ==> !steps[i].remote
  }

  lemma {:induction false} LimitStays(db: Db, steps: seq<Step>, id: Id)
    requires IsRun(db, steps) && id in db.sessions && (!Slides(db.sessions[id]) || UsedHere(steps, id))
    ensures var s := After(db, steps).sessions; id in s && s[id].expires == db.sessions[id].expires
    decreases |steps|
  {
    if steps != [] {
      assert steps[0].Touch? && steps[0].id == id ==> !Slides(db.sessions[id]) || !steps[0].remote;
      assert forall i :: 0 <= i < |steps[1..]| ==> steps[1..][i] == steps[i + 1];
      LimitStays(Apply(db, steps[0]), steps[1..], id);
    }
  }

  /** No use prolongs any other session, an elevated one least of all: it is over when it was first to be. */
  lemma {:induction false} UseProlongsNothingElse(
      db: Db, steps: seq<Step>, id: Id, now: int, required: Level, remote: bool)
    requires IsRun(db, steps) && id in db.sessions && (!Slides(db.sessions[id]) || UsedHere(steps, id))
    requires db.sessions[id].expires.Some? && now > db.sessions[id].expires.value
    ensures Denied(After(db, steps), id, now, required, remote).Some?
  {
    LimitStays(db, steps, id);
  }

  /** The idle limit stands at or before the hard one. */
  predicate Ordered(session: Session) {
    session.expires.Some? && session.absolute.Some? ==> session.expires.value <= session.absolute.value
  }

  /** And stays there, however the session is used. */
  lemma {:induction false} LimitsStayOrdered(db: Db, steps: seq<Step>, id: Id)
    requires IsRun(db, steps) && id in db.sessions && Ordered(db.sessions[id])
    ensures id in After(db, steps).sessions && Ordered(After(db, steps).sessions[id])
    decreases |steps|
  {
    if steps != [] { LimitsStayOrdered(Apply(db, steps[0]), steps[1..], id); }
  }
}
