/** The recursive redactor of API bodies, and the second pass that checks what it returned. */
module Redaction {
  import opened Texts

  datatype Field = Field(key: string, value: Json)

  /** What `json.loads` produces, a float by its bits; an object keeps its keys in order. */
  datatype Json =
    | Null
    | Bool(b: bool)
    | Int(i: int)
    | Float(bits: nat)
    | Str(s: string)
    | Arr(items: seq<Json>)
    | Obj(fields: seq<Field>)

  datatype Flags = Flags(locator: bool, identifier: bool, digest: bool, model: bool)

  const FREE_TEXT := Flags(false, false, false, false)

  const REDACTED_VALUE := "***REDACTED***"

  /** The key tests, and `redact_text` for fixed flags. */
  datatype Rules = Rules(
    secret: string -> bool,
    countWord: string -> bool,
    flags: string -> Flags,
    text: (string, Flags) -> string)

  /** A boolean, or an integer or null under a key that counts tokens: it cannot carry a credential. */
  predicate Exempt(rules: Rules, f: Field) {
    f.value.Bool? || (rules.countWord(f.key) && (f.value.Int? || f.value.Null?))
  }

  // ----- The redactor -----

  function Redact(rules: Rules, v: Json, flags: Flags): Json
    decreases v, 1
  {
    match v
    case Obj(fields) => Obj(RedactFields(rules, fields))
    case Arr(items) => Arr(RedactItems(rules, items, flags))
    case Str(s) => Str(rules.text(s, flags))
    case _ => v
  }

  function RedactItems(rules: Rules, items: seq<Json>, flags: Flags): seq<Json>
    decreases items, 0
  {
    if items == [] then [] else [Redact(rules, items[0], flags)] + RedactItems(rules, items[1..], flags)
  }

  function RedactFields(rules: Rules, fields: seq<Field>): seq<Field>
    decreases fields, 0
  {
    if fields == [] then []
    else
      var f := fields[0];
      var value :=
        if Exempt(rules, f) then f.value
        else if rules.secret(f.key) then Str(REDACTED_VALUE)
        else Redact(rules, f.value, rules.flags(f.key));
      [Field(f.key, value)] + RedactFields(rules, fields[1..])
  }

  /** `redact_response_body`. */
  function RedactBody(rules: Rules, body: Json): Json { Redact(rules, body, FREE_TEXT) }

  // ----- The checker -----

  datatype Part = Key(key: string) | Index(index: nat)

  type Path = seq<Part>

  function Residual(rules: Rules, v: Json, path: Path, flags: Flags): seq<Path>
    decreases v, 1
  {
    match v
    case Obj(fields) => ResidualFields(rules, fields, path)
    case Arr(items) => ResidualItems(rules, items, path, 0, flags)
    case Str(s) => if rules.text(s, flags) != s then [path] else []
    case _ => []
  }

  function ResidualItems(rules: Rules, items: seq<Json>, path: Path, index: nat, flags: Flags): seq<Path>
    decreases items, 0
  {
    if items == [] then []
    else
      Residual(rules, items[0], path + [Index(index)], flags) +
      ResidualItems(rules, items[1..], path, index + 1, flags)
  }

  function ResidualField(rules: Rules, f: Field, path: Path): seq<Path>
    decreases f, 2
  {
    if Exempt(rules, f) then []
    else if rules.secret(f.key) then if f.value != Str(REDACTED_VALUE) then [path + [Key(f.key)]] else []
    else Residual(rules, f.value, path + [Key(f.key)], rules.flags(f.key))
  }

  function ResidualFields(rules: Rules, fields: seq<Field>, path: Path): seq<Path>
    decreases fields, 0
  {
    if fields == [] then [] else ResidualField(rules, fields[0], path) + ResidualFields(rules, fields[1..], path)
  }

  /** The nested `walk` of `residual_secret_paths`, appending to `found` as it goes. */
  method Walk(rules: Rules, v: Json, path: Path, flags: Flags, before: seq<Path>) returns (found: seq<Path>)
    ensures found == before + Residual(rules, v, path, flags)
    decreases v, 1
  {
    found := before;
    match v {
      case Obj(fields) => found := WalkFields(rules, fields, path, before);
      case Arr(items) => found := WalkItems(rules, items, path, flags, before);
      case Str(s) =>
        if rules.text(s, flags) != s {
          found := found + [path];
        }
      case _ =>
    }
  }

  method WalkFields(rules: Rules, fields: seq<Field>, path: Path, before: seq<Path>) returns (found: seq<Path>)
    ensures found == before + ResidualFields(rules, fields, path)
    decreases fields, 0
  {
    found := before;
    for i := 0 to |fields|
      invariant before + ResidualFields(rules, fields, path) == found + ResidualFields(rules, fields[i..], path)
    {
      var f := fields[i];
      assert fields[i..][1..] == fields[i + 1..];
      if Exempt(rules, f) {
      } else if rules.secret(f.key) {
        if f.value != Str(REDACTED_VALUE) {
          found := found + [path + [Key(f.key)]];
        }
      } else {
        found := Walk(rules, f.value, path + [Key(f.key)], rules.flags(f.key), found);
      }
    }
  }

  method WalkItems(rules: Rules, items: seq<Json>, path: Path, flags: Flags, before: seq<Path>)
    returns (found: seq<Path>)
    ensures found == before + ResidualItems(rules, items, path, 0, flags)
    decreases items, 0
  {
    found := before;
    for i := 0 to |items|
      invariant before + ResidualItems(rules, items, path, 0, flags) ==
                found + ResidualItems(rules, items[i..], path, i, flags)
    {
      assert items[i..][1..] == items[i + 1..];
      found := Walk(rules, items[i], path + [Index(i)], flags, found);
    }
  }

  method ResidualSecretPaths(rules: Rules, body: Json) returns (found: seq<Path>)
    ensures found == Residual(rules, body, [], FREE_TEXT)
  {
    found := Walk(rules, body, [], FREE_TEXT, []);
  }

  // ----- The checker accepts exactly what the redactor leaves alone -----

  lemma {:induction false} AcceptedIsFixed(rules: Rules, v: Json, path: Path, flags: Flags)
    ensures Residual(rules, v, path, flags) == [] <==> Redact(rules, v, flags) == v
    decreases v, 1
  {
    match v {
      case Obj(fields) => AcceptedFieldsAreFixed(rules, fields, path);
      case Arr(items) => AcceptedItemsAreFixed(rules, items, path, 0, flags);
      case _ =>
    }
  }

  lemma {:induction false} AcceptedItemsAreFixed(rules: Rules, items: seq<Json>, path: Path, index: nat, flags: Flags)
    ensures ResidualItems(rules, items, path, index, flags) == [] <==> RedactItems(rules, items, flags) == items
    decreases items, 0
  {
    if items != [] {
      AcceptedIsFixed(rules, items[0], path + [Index(index)], flags);
      AcceptedItemsAreFixed(rules, items[1..], path, index + 1, flags);
      assert items == [items[0]] + items[1..];
      assert RedactItems(rules, items, flags)[1..] == RedactItems(rules, items[1..], flags);
    }
  }

  lemma {:induction false} AcceptedFieldsAreFixed(rules: Rules, fields: seq<Field>, path: Path)
    ensures ResidualFields(rules, fields, path) == [] <==> RedactFields(rules, fields) == fields
    decreases fields, 0
  {
    if fields != [] {
      var f := fields[0];
      AcceptedIsFixed(rules, f.value, path + [Key(f.key)], rules.flags(f.key));
      AcceptedFieldsAreFixed(rules, fields[1..], path);
      assert fields == [f] + fields[1..];
      assert RedactFields(rules, fields)[1..] == RedactFields(rules, fields[1..]);
    }
  }

  // ----- One pass reaches a fixpoint exactly when `redact_text` does -----

  /** The flags some string of some body is scanned with. */
  ghost predicate InUse(rules: Rules, flags: Flags) {
    flags == FREE_TEXT || exists key :: !rules.secret(key) && rules.flags(key) == flags
  }

  ghost predicate TextSettles(rules: Rules) {
    forall s, flags :: InUse(rules, flags) ==> rules.text(rules.text(s, flags), flags) == rules.text(s, flags)
  }

  lemma {:induction false} RedactTwice(rules: Rules, v: Json, flags: Flags)
    requires TextSettles(rules) && InUse(rules, flags)
    ensures Redact(rules, Redact(rules, v, flags), flags) == Redact(rules, v, flags)
    decreases v, 1
  {
    match v {
      case Obj(fields) => RedactFieldsTwice(rules, fields);
      case Arr(items) => RedactItemsTwice(rules, items, flags);
      case _ =>
    }
  }

  lemma {:induction false} RedactItemsTwice(rules: Rules, items: seq<Json>, flags: Flags)
    requires TextSettles(rules) && InUse(rules, flags)
    ensures RedactItems(rules, RedactItems(rules, items, flags), flags) == RedactItems(rules, items, flags)
    decreases items, 0
  {
    if items != [] {
      RedactTwice(rules, items[0], flags);
      RedactItemsTwice(rules, items[1..], flags);
      var once := RedactItems(rules, items, flags);
      assert once[0] == Redact(rules, items[0], flags) && once[1..] == RedactItems(rules, items[1..], flags);
    }
  }

  lemma {:induction false} RedactFieldsTwice(rules: Rules, fields: seq<Field>)
    requires TextSettles(rules)
    ensures RedactFields(rules, RedactFields(rules, fields)) == RedactFields(rules, fields)
    decreases fields, 0
  {
    if fields != [] {
      var f, once := fields[0], RedactFields(rules, fields);
      RedactFieldsTwice(rules, fields[1..]);
      assert once[1..] == RedactFields(rules, fields[1..]);
      if !Exempt(rules, f) && !rules.secret(f.key) {
        RedactTwice(rules, f.value, rules.flags(f.key));
        ExemptStays(rules, f.value, rules.flags(f.key));
      }
    }
  }

  lemma ExemptStays(rules: Rules, v: Json, flags: Flags)
    ensures var r := Redact(rules, v, flags); r.Bool? == v.Bool? && r.Int? == v.Int? && r.Null? == v.Null?
  {
  }

  /**
   * Every redacted body is accepted by the checker, and redacting it again changes nothing,
   * if and only if `redact_text` is idempotent under every setting of the flags in use.
   */
  lemma {:induction false} OnePassSuffices(rules: Rules)
    ensures TextSettles(rules) <==> forall body :: Residual(rules, RedactBody(rules, body), [], FREE_TEXT) == []
    ensures TextSettles(rules) <==> forall body :: RedactBody(rules, RedactBody(rules, body)) == RedactBody(rules, body)
  {
    forall body
      ensures Residual(rules, RedactBody(rules, body), [], FREE_TEXT) == [] <==>
              RedactBody(rules, RedactBody(rules, body)) == RedactBody(rules, body)
    {
      AcceptedIsFixed(rules, RedactBody(rules, body), [], FREE_TEXT);
    }
    if TextSettles(rules) {
      forall body ensures RedactBody(rules, RedactBody(rules, body)) == RedactBody(rules, body) {
        RedactTwice(rules, body, FREE_TEXT);
      }
    } else {
      var s, flags :| InUse(rules, flags) && rules.text(rules.text(s, flags), flags) != rules.text(s, flags);
      var body := UnsettledBody(rules, s, flags);
      assert RedactBody(rules, RedactBody(rules, body)) != RedactBody(rules, body);
    }
  }

  lemma UnsettledBody(rules: Rules, s: string, flags: Flags) returns (body: Json)
    requires InUse(rules, flags) && rules.text(rules.text(s, flags), flags) != rules.text(s, flags)
    ensures RedactBody(rules, RedactBody(rules, body)) != RedactBody(rules, body)
    ensures body.Str? || (body.Obj? && |body.fields| == 1 && body.fields[0].value.Str?)
  {
    if flags == FREE_TEXT {
      body := Str(s);
    } else {
      var key :| !rules.secret(key) && rules.flags(key) == flags;
      var once, twice := Str(rules.text(s, flags)), Str(rules.text(rules.text(s, flags), flags));
      body := Obj([Field(key, Str(s))]);
      assert RedactFields(rules, [Field(key, Str(s))]) == [Field(key, once)];
      assert RedactFields(rules, [Field(key, once)]) == [Field(key, twice)];
    }
  }

  // ----- What survives -----

  /** Same keys in the same order, same list lengths, and every value that is not a string or a secret unchanged. */
  ghost predicate SameOutline(rules: Rules, v: Json, w: Json)
    decreases v, 1
  {
    match v
    case Obj(fields) =>
      w.Obj? && |w.fields| == |fields| &&
      forall i :: 0 <= i < |fields| ==> SameField(rules, fields[i], w.fields[i])
    case Arr(items) =>
      w.Arr? && |w.items| == |items| && forall i :: 0 <= i < |items| ==> SameOutline(rules, items[i], w.items[i])
    case Str(_) => w.Str?
    case _ => w == v
  }

  ghost predicate SameField(rules: Rules, f: Field, g: Field)
    decreases f, 2
  {
    && g.key == f.key
    && (Exempt(rules, f) ==> g.value == f.value)
    && (!Exempt(rules, f) && !rules.secret(f.key) ==> SameOutline(rules, f.value, g.value))
  }

  lemma {:induction false} RedactKeepsOutline(rules: Rules, v: Json, flags: Flags)
    ensures SameOutline(rules, v, Redact(rules, v, flags))
    decreases v, 1
  {
    match v {
      case Obj(fields) => RedactKeepsFields(rules, fields);
      case Arr(items) => RedactKeepsItems(rules, items, flags);
      case _ =>
    }
  }

  lemma {:induction false} RedactKeepsItems(rules: Rules, items: seq<Json>, flags: Flags)
    ensures var r := RedactItems(rules, items, flags);
            |r| == |items| && forall i :: 0 <= i < |items| ==> SameOutline(rules, items[i], r[i])
    decreases items, 0
  {
    if items != [] {
      RedactKeepsOutline(rules, items[0], flags);
      RedactKeepsItems(rules, items[1..], flags);
      forall i | 0 <= i < |items| ensures SameOutline(rules, items[i], RedactItems(rules, items, flags)[i]) {
        if i > 0 { assert items[i] == items[1..][i - 1]; }
      }
    }
  }

  lemma {:induction false} RedactKeepsFields(rules: Rules, fields: seq<Field>)
    ensures var r := RedactFields(rules, fields);
            |r| == |fields| && forall i :: 0 <= i < |fields| ==> SameField(rules, fields[i], r[i])
    decreases fields, 0
  {
    if fields != [] {
      RedactKeepsOutline(rules, fields[0].value, rules.flags(fields[0].key));
      RedactKeepsFields(rules, fields[1..]);
      forall i | 0 <= i < |fields| ensures SameField(rules, fields[i], RedactFields(rules, fields)[i]) {
        if i > 0 { assert fields[i] == fields[1..][i - 1]; }
      }
    }
  }

  // ----- The key tests of the API -----

  const SECRET_PATTERNS := [
    "password", "passwd", "secret", "token", "api_key", "api-key", "bearer", "authorization",
    "private_key", "private-key", "-----begin"]

  ghost predicate IsSecretKey(key: string) {
    exists p :: p in SECRET_PATTERNS && Contains(Lower(key), p)
  }

  /**
   * A whole `tokens` word, underscores or the ends of the key around it; every name listed beside the pattern has one.
   */
  ghost predicate TokensWord(lower: string) {
    exists i: nat ::
      && At(lower, i, "tokens")
      && (i == 0 || lower[i - 1] == '_')
      && (i + 6 == |lower| || lower[i + 6] == '_' || (i + 7 == |lower| && lower[i + 6] == '\n'))
  }

  predicate EndsWithAny(s: string, suffixes: seq<string>) {
    exists suffix :: suffix in suffixes && EndsWith(s, suffix)
  }

  const LOCATOR_KEYS := ["subject", "path", "paths", "subpath", "url", "urls", "uri", "uris"]

  const LOCATOR_KEY_SUFFIXES := ["_url", "_urls", "_uri", "_path", "_paths", "_subpath"]

  const IDENTIFIER_KEY_SUFFIXES := ["_id", "_ids"]

  const DIGEST_KEYS := [
    "revision", "sha", "commit_sha", "digest", "fingerprint", "hash", "manifest_hash", "checksum",
    "sha256", "sha1", "md5"]

  const DIGEST_KEY_SUFFIXES := [
    "_revision", "_sha", "_digest", "_fingerprint", "_hash", "_checksum", "_sha256", "_sha1", "_md5"]

  const MODEL_KEYS := ["model", "models", "repo_id", "repo_ids"]

  const MODEL_KEY_SUFFIXES := ["_model", "_models"]

  function KeyFlags(key: string): Flags {
    var k := Lower(key);
    Flags(
      k in LOCATOR_KEYS || EndsWithAny(k, LOCATOR_KEY_SUFFIXES),
      EndsWithAny(k, IDENTIFIER_KEY_SUFFIXES) && k !in MODEL_KEYS,
      k in DIGEST_KEYS || EndsWithAny(k, DIGEST_KEY_SUFFIXES),
      k in MODEL_KEYS || EndsWithAny(k, MODEL_KEY_SUFFIXES))
  }

  ghost function ApiRules(text: (string, Flags) -> string): Rules {
    Rules(IsSecretKey, key => TokensWord(Lower(key)), KeyFlags, text)
  }

  /** Every key that counts tokens is a secret key by name: without the exemption each count would be discarded. */
  lemma {:induction false} CountsAreNamedLikeSecrets(key: string)
    requires TokensWord(Lower(key))
    ensures IsSecretKey(key)
  {
    var lower := Lower(key);
    var i: nat :| At(lower, i, "tokens");
    assert "tokens"[..5] == "token";
    assert lower[i..i + 5] == lower[i..i + 6][..5];
    assert At(lower, i, "token");
    var p := SECRET_PATTERNS[3];
    assert p in SECRET_PATTERNS && Contains(lower, p);
  }
}
