/** Signed delegation: printing an attestation, verifying it, and what an accepted one proves. */
module Delegation {
  import opened Options

  datatype Value = Num(n: int) | Text(s: string) | OtherValue(id: nat)

  /** A JSON key: one of the names of the declared fields, or any other text. */
  datatype Name =
    | Version | SubagentId | SpawnPrincipalId | ParentPrincipalId | OwnerPrincipalId | SessionId | TurnId
    | SpawnTurnId | Subject | Audience | ResultDigest | IssuedAt
    | OtherName(text: string)

  /** A parsed JSON object. */
  type Mapping = map<Name, Value>

  type Bytes = seq<char>

  datatype Claims = Claims(
    version: int, subagent: string, spawnPrincipal: string, parentPrincipal: string, owner: string, session: string,
    turn: string, spawnTurn: string, subject: string, audience: string, digest: string, issuedAt: string)

  const AUDIENCE := "turn_sources"
  const SCHEMA_VERSION := 1

  const FIELDS := {
    Version, SubagentId, SpawnPrincipalId, ParentPrincipalId, OwnerPrincipalId, SessionId, TurnId,
    SpawnTurnId, Subject, Audience, ResultDigest, IssuedAt}

  function AsMapping(c: Claims): (m: Mapping)
    ensures m.Keys == FIELDS
  {
    map[
      Version := Num(c.version),
      SubagentId := Text(c.subagent),
      SpawnPrincipalId := Text(c.spawnPrincipal),
      ParentPrincipalId := Text(c.parentPrincipal),
      OwnerPrincipalId := Text(c.owner),
      SessionId := Text(c.session),
      TurnId := Text(c.turn),
      SpawnTurnId := Text(c.spawnTurn),
      Subject := Text(c.subject),
      Audience := Text(c.audience),
      ResultDigest := Text(c.digest),
      IssuedAt := Text(c.issuedAt)]
  }

  datatype Refusal =
    | Malformed
    | WrongAudience
    | IssuerKeyMissing
    | InvalidSignature
    | OwnerMismatch
    | SessionMismatch
    | TurnMismatch
    | ResultMismatch
    | SpawnUnknown
    | SpawnMismatch

  datatype Verdict = Accepted(claims: Claims) | Refused(why: Refusal)

  /** The printers, parsers and primitives the code is handed: JSON, `int` and `str`, base64, Ed25519 and SHA-256. */
  datatype Tools = Tools(
    render: Mapping -> Bytes,
    parse: Bytes -> Option<Mapping>,
    asInt: Value -> Option<int>,
    asText: Value -> string,
    encode: Bytes -> string,
    decode: string -> Option<Bytes>,
    publicOf: Bytes -> Bytes,
    sign: (Bytes, Bytes) -> Bytes,
    check: (Bytes, Bytes, Bytes) -> bool,
    digest: string -> string)

  predicate NoDot(s: string) { forall i :: 0 <= i < |s| ==> s[i] != '.' }

  /** `int` of a number and `str` of a string are that number and that string. */
  ghost predicate ReadsPlainly(t: Tools) {
    (forall n :: t.asInt(Num(n)) == Some(n)) && (forall s :: t.asText(Text(s)) == s)
  }

  /** What is printed reads back, base64 has no dots, a signature checks, and no two findings share a digest. */
  ghost predicate Sound(t: Tools) {
    && (forall m :: t.render(m) != [] && t.parse(t.render(m)) == Some(m))
    && ReadsPlainly(t)
    && (forall b :: NoDot(t.encode(b)) && (b != [] ==> t.decode(t.encode(b)) == Some(b)))
    && (forall k, m :: t.sign(k, m) != [] && t.check(t.publicOf(k), t.sign(k, m), m))
    && (forall a, b :: t.digest(a) == t.digest(b) ==> a == b)
  }

  /** `from_mapping`: exactly the declared fields, a readable version. */
  function FromMapping(t: Tools, raw: Mapping): Option<Claims> {
    if raw.Keys != FIELDS then None
    else if t.asInt(raw[Version]) == None then None
    else
      Some(Claims(
        t.asInt(raw[Version]).value, t.asText(raw[SubagentId]), t.asText(raw[SpawnPrincipalId]),
        t.asText(raw[ParentPrincipalId]), t.asText(raw[OwnerPrincipalId]), t.asText(raw[SessionId]),
        t.asText(raw[TurnId]), t.asText(raw[SpawnTurnId]), t.asText(raw[Subject]), t.asText(raw[Audience]),
        t.asText(raw[ResultDigest]), t.asText(raw[IssuedAt])))
  }

  lemma MappingReadsBack(t: Tools, c: Claims)
    requires ReadsPlainly(t)
    ensures FromMapping(t, AsMapping(c)) == Some(c)
  {
  }

  // ----- The store's side -----

  datatype Key = Key(seed: Bytes, public: Bytes)

  datatype Identity = Identity(owner: string, session: string, turn: string, subject: string)

  datatype Store = Store(key: Option<Key>, identities: map<string, Identity>)

  // ----- Tokens -----

  function Dots(s: string): nat {
    if s == "" then 0 else (if s[0] == '.' then 1 else 0) + Dots(s[1..])
  }

  function UpToDot(s: string): string {
    if s == "" || s[0] == '.' then "" else [s[0]] + UpToDot(s[1..])
  }

  function PastDot(s: string): string {
    if s == "" then "" else if s[0] == '.' then s[1..] else PastDot(s[1..])
  }

  lemma {:induction false} NoDotsIn(s: string)
    requires NoDot(s)
    ensures Dots(s) == 0
  {
    if s != "" { NoDotsIn(s[1..]); }
  }

  lemma {:induction false} TokenSplits(a: string, b: string)
    requires NoDot(a) && NoDot(b)
    ensures Dots(a + "." + b) == 1 && UpToDot(a + "." + b) == a && PastDot(a + "." + b) == b
  {
    var token := a + "." + b;
    if a == "" {
      assert token == "." + b;
      assert token[1..] == b;
      NoDotsIn(b);
    } else {
      TokenSplits(a[1..], b);
      assert token[1..] == a[1..] + "." + b;
      assert a == [a[0]] + a[1..];
    }
  }

  lemma {:induction false} NoDotsOut(s: string)
    requires Dots(s) == 0
    ensures NoDot(s)
  {
    if s != "" {
      NoDotsOut(s[1..]);
      assert s == [s[0]] + s[1..];
    }
  }

  /** And a token of one dot is its two halves around it. */
  lemma {:induction false} TokenJoins(token: string)
    requires Dots(token) == 1
    ensures NoDot(UpToDot(token)) && NoDot(PastDot(token)) && token == UpToDot(token) + "." + PastDot(token)
  {
    if token[0] == '.' {
      NoDotsOut(token[1..]);
      assert token == "." + token[1..];
    } else {
      TokenJoins(token[1..]);
      assert token == [token[0]] + token[1..];
    }
  }

  /** What one signing was asked to bind. */
  datatype Grant = Grant(
    subagent: string, spawnPrincipal: string, parentPrincipal: string, owner: string, session: string, turn: string,
    spawnTurn: string, subject: string, content: string, issuedAt: string)

  function ClaimsOf(t: Tools, g: Grant): Claims {
    Claims(SCHEMA_VERSION, g.subagent, g.spawnPrincipal, g.parentPrincipal, g.owner, g.session, g.turn, g.spawnTurn,
           g.subject, AUDIENCE, t.digest(g.content), g.issuedAt)
  }

  function Canonical(t: Tools, c: Claims): Bytes { t.render(AsMapping(c)) }

  function SignDelegation(t: Tools, store: Store, g: Grant): Option<string> {
    if store.key == None then None
    else
      var payload := Canonical(t, ClaimsOf(t, g));
      Some(t.encode(payload) + "." + t.encode(t.sign(store.key.value.seed, payload)))
  }

  /** What the parent holds and expects. */
  datatype Expected = Expected(owner: string, session: string, turn: string, content: string)

  /** The spawn's identity row exists and says what the claims say. */
  predicate SpawnAgrees(identities: map<string, Identity>, c: Claims) {
    c.spawnPrincipal in identities &&
    identities[c.spawnPrincipal] == Identity(c.owner, c.session, c.spawnTurn, c.subject)
  }

  function CheckClaims(t: Tools, store: Store, c: Claims, e: Expected): Verdict {
    if c.owner != e.owner then Refused(OwnerMismatch)
    else if c.session != e.session then Refused(SessionMismatch)
    else if c.turn != e.turn then Refused(TurnMismatch)
    else if c.digest != t.digest(e.content) then Refused(ResultMismatch)
    else if c.spawnPrincipal !in store.identities then Refused(SpawnUnknown)
    else if !SpawnAgrees(store.identities, c) then Refused(SpawnMismatch)
    else Accepted(c)
  }

  function VerifyPayload(
      t: Tools, store: Store, payload: Bytes, signature: Bytes, e: Expected): Verdict {
    var raw := t.parse(payload);
    if raw == None then Refused(Malformed)
    else
      var c := FromMapping(t, raw.value);
      if c == None || c.value.version != SCHEMA_VERSION then Refused(Malformed)
      else if c.value.audience != AUDIENCE then Refused(WrongAudience)
      else if store.key == None then Refused(IssuerKeyMissing)
      else if !t.check(store.key.value.public, signature, payload) then Refused(InvalidSignature)
      else CheckClaims(t, store, c.value, e)
  }

  function VerifyDelegation(t: Tools, store: Store, token: string, e: Expected): Verdict {
    if Dots(token) != 1 then Refused(Malformed)
    else
      var payload, signature := t.decode(UpToDot(token)), t.decode(PastDot(token));
      if payload == None || signature == None then Refused(Malformed)
      else VerifyPayload(t, store, payload.value, signature.value, e)
  }

  // ----- Round trip -----

  /** The active key is a pair that belongs together. */
  ghost predicate KeyFits(t: Tools, store: Store) {
    store.key.Some? ==> store.key.value.public == t.publicOf(store.key.value.seed)
  }

  lemma {:induction false} SignedTokenReadsBack(t: Tools, store: Store, g: Grant, e: Expected)
    requires Sound(t) && KeyFits(t, store) && store.key.Some?
    ensures VerifyDelegation(t, store, SignDelegation(t, store, g).value, e) == CheckClaims(t, store, ClaimsOf(t, g), e)
  {
    var c := ClaimsOf(t, g);
    var payload := Canonical(t, c);
    var signature := t.sign(store.key.value.seed, payload);
    TokenSplits(t.encode(payload), t.encode(signature));
    MappingReadsBack(t, c);
    assert t.parse(payload) == Some(AsMapping(c));
    assert t.check(store.key.value.public, signature, payload);
  }

  /**
   * A token signed for one delegation is accepted, with exactly its claims, if and only if the parent expects that
   * very owner, session, turn and content and the spawn's row agrees; for any other content it is refused as a
   * result mismatch.
   */
  lemma {:induction false} SignedIsAcceptedExactly(t: Tools, store: Store, g: Grant, e: Expected)
    requires Sound(t) && KeyFits(t, store) && store.key.Some?
    ensures var v := VerifyDelegation(t, store, SignDelegation(t, store, g).value, e);
            && (v == Accepted(ClaimsOf(t, g)) <==>
                  e == Expected(g.owner, g.session, g.turn, g.content) && SpawnAgrees(store.identities, ClaimsOf(t, g)))
            && (v.Accepted? ==> v == Accepted(ClaimsOf(t, g)))
            && (e.owner == g.owner && e.session == g.session && e.turn == g.turn && e.content != g.content ==>
                  v == Refused(ResultMismatch))
  {
    SignedTokenReadsBack(t, store, g, e);
  }

  /** Any other expectation is refused for the first thing that differs, and a spawn's row last. */
  lemma {:induction false} RefusalSaysWhy(t: Tools, store: Store, g: Grant, e: Expected)
    requires Sound(t) && KeyFits(t, store) && store.key.Some?
    ensures var v := VerifyDelegation(t, store, SignDelegation(t, store, g).value, e);
            var wanted := Expected(g.owner, g.session, g.turn, g.content);
            && (v == Refused(OwnerMismatch) <==> e.owner != g.owner)
            && (v == Refused(SessionMismatch) <==> e.owner == g.owner && e.session != g.session)
            && (v == Refused(TurnMismatch) <==> e.owner == g.owner && e.session == g.session && e.turn != g.turn)
            && (v == Refused(SpawnUnknown) <==> e == wanted && g.spawnPrincipal !in store.identities)
            && (v == Refused(SpawnMismatch) <==>
                  e == wanted && g.spawnPrincipal in store.identities &&
                  store.identities[g.spawnPrincipal] != Identity(g.owner, g.session, g.spawnTurn, g.subject))
  {
    SignedTokenReadsBack(t, store, g, e);
  }

  /** The token is two halves around a dot, and the second is the key's signature of the first, which has the fields. */
  predicate IsSignedBy(t: Tools, store: Store, token: string, a: string, b: string) {
    && token == a + "." + b && NoDot(a) && NoDot(b) && store.key.Some?
    && t.decode(a).Some? && t.decode(b).Some? && t.check(store.key.value.public, t.decode(b).value, t.decode(a).value)
    && t.parse(t.decode(a).value).Some? && t.parse(t.decode(a).value).value.Keys == FIELDS
  }

  /** Whatever the token: one that is accepted is signed, for this audience, and says what is expected of it. */
  lemma {:induction false} AcceptedIsSigned(t: Tools, store: Store, token: string, e: Expected)
    requires VerifyDelegation(t, store, token, e).Accepted?
    ensures IsSignedBy(t, store, token, UpToDot(token), PastDot(token))
    ensures var c := VerifyDelegation(t, store, token, e).claims;
            && c.version == SCHEMA_VERSION && c.audience == AUDIENCE
            && c.owner == e.owner && c.session == e.session && c.turn == e.turn && c.digest == t.digest(e.content)
            && c.spawnPrincipal in store.identities
            && store.identities[c.spawnPrincipal] == Identity(c.owner, c.session, c.spawnTurn, c.subject)
  {
    TokenJoins(token);
  }

  /** Claims of this kind that the key has signed for another audience are refused as such, whatever is expected. */
  lemma {:induction false} OtherAudienceIsRefused(t: Tools, store: Store, c: Claims, e: Expected)
    requires Sound(t) && c.version == SCHEMA_VERSION && c.audience != AUDIENCE
    requires store.key.Some?
    ensures var payload := Canonical(t, c);
            VerifyDelegation(t, store, t.encode(payload) + "." + t.encode(t.sign(store.key.value.seed, payload)), e) ==
            Refused(WrongAudience)
  {
    var payload := Canonical(t, c);
    TokenSplits(t.encode(payload), t.encode(t.sign(store.key.value.seed, payload)));
    MappingReadsBack(t, c);
    assert t.parse(payload) == Some(AsMapping(c));
  }

  /** Findings exchanged between two spawns of one turn are refused, both ways. */
  lemma {:induction false} SwappedResultsAreRefused(t: Tools, store: Store, g: Grant, h: Grant)
    requires Sound(t) && KeyFits(t, store) && store.key.Some?
    requires g.owner == h.owner && g.session == h.session && g.turn == h.turn && g.content != h.content
    ensures VerifyDelegation(t, store, SignDelegation(t, store, g).value,
                             Expected(h.owner, h.session, h.turn, h.content)) ==
            Refused(ResultMismatch)
    ensures VerifyDelegation(t, store, SignDelegation(t, store, h).value,
                             Expected(g.owner, g.session, g.turn, g.content)) ==
            Refused(ResultMismatch)
  {
    SignedIsAcceptedExactly(t, store, g, Expected(h.owner, h.session, h.turn, h.content));
    SignedIsAcceptedExactly(t, store, h, Expected(g.owner, g.session, g.turn, g.content));
  }

  // ----- Binding -----

  /**
   * One use of the issuer key: a delegation, or a machine identity or other record, none of which has a delegation's
   * fields.
   */
  datatype Signing = OfGrant(grant: Grant) | OfRecord(record: Mapping)

  function PayloadOf(t: Tools, signing: Signing): Bytes {
    match signing
    case OfGrant(grant) => Canonical(t, ClaimsOf(t, grant))
    case OfRecord(record) => t.render(record)
  }

  /** The payloads and signatures that a history of uses has put into the world. */
  function Issued(t: Tools, seed: Bytes, history: seq<Signing>): set<(Bytes, Bytes)> {
    if history == [] then {}
    else
      var payload := PayloadOf(t, history[|history| - 1]);
      Issued(t, seed, history[..|history| - 1]) + {(payload, t.sign(seed, payload))}
  }

  ghost predicate OnlyForeignRecords(history: seq<Signing>) {
    forall i :: 0 <= i < |history| && history[i].OfRecord? ==> history[i].record.Keys != FIELDS
  }

  /** If the token's signature checks, it is one the key has issued for that payload: nobody else could make it. */
  ghost predicate NotForged(t: Tools, store: Store, history: seq<Signing>, token: string) {
    var payload, signature := t.decode(UpToDot(token)), t.decode(PastDot(token));
    payload.Some? && signature.Some? && store.key.Some? &&
    t.check(store.key.value.public, signature.value, payload.value) ==>
      (payload.value, signature.value) in Issued(t, store.key.value.seed, history)
  }

  lemma {:induction false} IssuedFor(t: Tools, seed: Bytes, history: seq<Signing>, payload: Bytes, signature: Bytes)
    returns (i: nat)
    requires (payload, signature) in Issued(t, seed, history)
    ensures i < |history| && payload == PayloadOf(t, history[i]) && signature == t.sign(seed, payload)
  {
    var last := |history| - 1;
    if payload == PayloadOf(t, history[last]) && signature == t.sign(seed, payload) {
      i := last;
    } else {
      i := IssuedFor(t, seed, history[..last], payload, signature);
    }
  }

  lemma {:induction false} IssuedStays(t: Tools, seed: Bytes, history: seq<Signing>, i: nat)
    requires i < |history|
    ensures (PayloadOf(t, history[i]), t.sign(seed, PayloadOf(t, history[i]))) in Issued(t, seed, history)
  {
    if i < |history| - 1 {
      IssuedStays(t, seed, history[..|history| - 1], i);
    }
  }

  /** Every token the key's holder hands out meets that assumption, whatever else was signed before and after. */
  lemma {:induction false} SignedIsNotForged(t: Tools, store: Store, history: seq<Signing>, i: nat)
    requires Sound(t) && store.key.Some? && i < |history| && history[i].OfGrant?
    ensures NotForged(t, store, history, SignDelegation(t, store, history[i].grant).value)
  {
    var payload := PayloadOf(t, history[i]);
    var signature := t.sign(store.key.value.seed, payload);
    TokenSplits(t.encode(payload), t.encode(signature));
    IssuedStays(t, store.key.value.seed, history, i);
  }

  /**
   * The parent that expects what a delegation was signed for accepts its token, and what follows is then about that
   * token.
   */
  lemma {:induction false} GenuineIsAccepted(t: Tools, store: Store, history: seq<Signing>, i: nat)
    requires Sound(t) && KeyFits(t, store) && store.key.Some? && i < |history| && history[i].OfGrant?
    requires SpawnAgrees(store.identities, ClaimsOf(t, history[i].grant))
    ensures var g := history[i].grant;
            var token := SignDelegation(t, store, g).value;
            && NotForged(t, store, history, token)
            && VerifyDelegation(t, store, token, Expected(g.owner, g.session, g.turn, g.content)) ==
               Accepted(ClaimsOf(t, g))
  {
    var g := history[i].grant;
    SignedIsNotForged(t, store, history, i);
    SignedIsAcceptedExactly(t, store, g, Expected(g.owner, g.session, g.turn, g.content));
  }

  /**
   * Whatever the key has signed, every accepted token, however it was put together, was signed as a delegation for
   * exactly the owner, session, turn and content expected, and its claims are the signed ones.
   */
  lemma {:induction false} AcceptedWasSigned(t: Tools, store: Store, history: seq<Signing>, token: string, e: Expected)
    returns (g: Grant)
    requires Sound(t) && KeyFits(t, store) && OnlyForeignRecords(history) && NotForged(t, store, history, token)
    requires VerifyDelegation(t, store, token, e).Accepted?
    ensures OfGrant(g) in history && e == Expected(g.owner, g.session, g.turn, g.content)
    ensures VerifyDelegation(t, store, token, e) == Accepted(ClaimsOf(t, g))
    ensures SpawnAgrees(store.identities, ClaimsOf(t, g))
  {
    var payload, signature := t.decode(UpToDot(token)).value, t.decode(PastDot(token)).value;
    var i := IssuedFor(t, store.key.value.seed, history, payload, signature);
    if history[i].OfRecord? {
      assert false;
    } else {
      g := history[i].grant;
      MappingReadsBack(t, ClaimsOf(t, g));
      assert t.parse(payload) == Some(AsMapping(ClaimsOf(t, g)));
    }
  }

  /** A machine identity or other record the key has signed is never accepted as a delegation. */
  lemma {:induction false} RecordIsNoDelegation(t: Tools, store: Store, record: Mapping, e: Expected)
    requires Sound(t) && store.key.Some? && record.Keys != FIELDS
    ensures var payload := t.render(record);
            VerifyDelegation(t, store, t.encode(payload) + "." + t.encode(t.sign(store.key.value.seed, payload)), e) ==
            Refused(Malformed)
  {
    var payload := t.render(record);
    TokenSplits(t.encode(payload), t.encode(t.sign(store.key.value.seed, payload)));
  }
}
