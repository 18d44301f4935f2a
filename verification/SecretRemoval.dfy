/** Removing registered secrets by literal replacement, and exactly when doing it twice is doing it once. */
module SecretRemoval {
  import opened Texts
  import opened Redaction

  const REDACTED_CREDENTIAL := "[REDACTED_CREDENTIAL]"

  /** `str.replace`: left to right, never inside a replacement. */
  function ReplaceAll(s: string, part: string, marker: string): string
    requires part != ""
    decreases |s|
  {
    if s == "" then ""
    else if At(s, 0, part) then marker + ReplaceAll(s[|part|..], part, marker)
    else [s[0]] + ReplaceAll(s[1..], part, marker)
  }

  /** `_strip_registered_secrets`; the source puts longer secrets first. */
  function StripSecrets(s: string, secrets: seq<string>): string
    requires forall i :: 0 <= i < |secrets| ==> secrets[i] != ""
    decreases |secrets|
  {
    if secrets == [] then s else StripSecrets(ReplaceAll(s, secrets[0], REDACTED_CREDENTIAL), secrets[1..])
  }

  // ----- How one replacement reads -----

  lemma {:induction false} PlainPrefix(x: string, rest: string, p: string, m: string)
    requires p != "" && forall i :: 0 <= i < |x| ==> !At(x + rest, i, p)
    ensures ReplaceAll(x + rest, p, m) == x + ReplaceAll(rest, p, m)
  {
    if x == "" {
      assert x + rest == rest;
    } else {
      var tail := x[1..];
      assert (x + rest)[1..] == tail + rest;
      forall i | 0 <= i < |tail| ensures !At(tail + rest, i, p) {
        AtShift(x + rest, i, p);
        assert !At(x + rest, i + 1, p);
      }
      PlainPrefix(tail, rest, p, m);
      assert x == [x[0]] + tail;
    }
  }

  lemma AtShift(s: string, i: nat, p: string)
    requires s != ""
    ensures At(s[1..], i, p) == At(s, i + 1, p)
  {
    if i + 1 + |p| <= |s| { assert s[1..][i..i + |p|] == s[i + 1..i + 1 + |p|]; }
  }

  lemma MatchFirst(y: string, p: string, m: string)
    requires p != ""
    ensures ReplaceAll(p + y, p, m) == m + ReplaceAll(y, p, m)
  {
    assert (p + y)[0..|p|] == p && (p + y)[|p|..] == y;
  }

  lemma Untouched(s: string, p: string, m: string)
    requires p != "" && !Contains(s, p)
    ensures ReplaceAll(s, p, m) == s
  {
    assert s + "" == s;
    PlainPrefix(s, "", p, m);
  }

  lemma TooShort(s: string, p: string, m: string)
    requires |s| < |p|
    ensures ReplaceAll(s, p, m) == s
  {
    Untouched(s, p, m);
  }

  lemma {:induction false} FirstMatch(s: string, p: string, from: nat) returns (k: nat)
    requires exists i: nat :: from <= i <= |s| && At(s, i, p)
    ensures from <= k && At(s, k, p) && forall i :: from <= i < k ==> !At(s, i, p)
    decreases |s| - from
  {
    if At(s, from, p) {
      k := from;
    } else {
      k := FirstMatch(s, p, from + 1);
    }
  }

  /** The text up to the first match, the marker, and the rest treated alike. */
  lemma {:induction false} SplitAtMatch(s: string, p: string, m: string) returns (k: nat)
    requires p != "" && Contains(s, p)
    ensures At(s, k, p) && forall i :: 0 <= i < k ==> !At(s, i, p)
    ensures ReplaceAll(s, p, m) == s[..k] + (m + ReplaceAll(s[k + |p|..], p, m))
  {
    k := FirstMatch(s, p, 0);
    var rest := s[k + |p|..];
    assert s == s[..k] + (p + rest);
    PlainPrefix(s[..k], p + rest, p, m);
    MatchFirst(rest, p, m);
  }

  lemma {:induction false} ReplaceLength(s: string, p: string, m: string)
    requires p != ""
    ensures |p| <= |m| ==> |ReplaceAll(s, p, m)| >= |s|
    ensures |p| >= |m| ==> |ReplaceAll(s, p, m)| <= |s|
    decreases |s|
  {
    if s == "" {
    } else if At(s, 0, p) {
      ReplaceLength(s[|p|..], p, m);
    } else {
      ReplaceLength(s[1..], p, m);
    }
  }

  /** A text in which the secret occurs is changed. */
  lemma {:induction false} MatchChanges(t: string, p: string, m: string)
    requires p != "" && p != m && Contains(t, p)
    ensures ReplaceAll(t, p, m) != t
  {
    var k := SplitAtMatch(t, p, m);
    var rest := t[k + |p|..];
    ReplaceLength(rest, p, m);
    var after := m + ReplaceAll(rest, p, m);
    assert t[k..] == p + rest;
    if |p| == |m| {
      assert after[..|m|] == m && (p + rest)[..|m|] == p;
    }
    assert after != p + rest;
    assert (t[..k] + after)[k..] == after;
  }

  lemma {:induction false} ReplaceBySelf(s: string, p: string)
    requires p != ""
    ensures ReplaceAll(s, p, p) == s
    decreases |s|
  {
    if s == "" {
    } else if At(s, 0, p) {
      ReplaceBySelf(s[|p|..], p);
      assert s == p + s[|p|..];
    } else {
      ReplaceBySelf(s[1..], p);
    }
  }

  // ----- The overlap test -----

  /** The marker ends with the first `k` characters of the secret. */
  predicate EndsInto(p: string, m: string, k: nat) {
    0 < k <= |m| && k <= |p| && m[|m| - k..] == p[..k]
  }

  /** The secret ends with the first `k` characters of the marker ... */
  predicate RunsInto(p: string, m: string, k: nat) {
    0 < k <= |m| && k < |p| && p[|p| - k..] == m[..k]
  }

  /** ... and, preceded by what it then lacks, is found there and no earlier. */
  predicate FoundThere(p: string, k: nat)
    requires k <= |p|
  {
    var w := p[..|p| - k];
    forall i :: 0 <= i < |w| ==> !At(w + p, i, p)
  }

  /** One lies inside the other, or the two overlap across the seam. */
  predicate Clashes(p: string, m: string) {
    p != m &&
    (|| Contains(m, p) || Contains(p, m)
     || (exists k :: 0 < k <= |m| && EndsInto(p, m, k))
     || (exists k :: 0 < k < |p| && RunsInto(p, m, k) && FoundThere(p, k)))
  }

  // ----- Without a clash the secret is gone for good -----

  lemma MarkerSide(p: string, m: string, x: string, i: nat)
    requires p != "" && p != m && i < |m| && At(m + x, i, p)
    ensures Clashes(p, m)
  {
    if i + |p| <= |m| {
      assert m[i..i + |p|] == (m + x)[i..i + |p|];
      assert At(m, i, p);
    } else {
      var k := |m| - i;
      assert m[i..] == (m + x)[i..|m|] == p[..k];
      assert EndsInto(p, m, k);
    }
  }

  lemma {:induction false} PlainSide(s: string, p: string, m: string)
    requires p != "" && p != m && !At(s, 0, p) && At(ReplaceAll(s, p, m), 0, p)
    ensures Clashes(p, m)
  {
    StartIsChanged(s, p, m);
    var k := SplitAtMatch(s, p, m);
    var x := ReplaceAll(s[k + |p|..], p, m);
    var out := s[..k] + (m + x);
    PastThePlain(s, p, out, k);
    assert p == out[0..|p|];
    assert p[..k] == s[..k];
    assert p[k..] == (m + x)[..|p| - k];
    if |p| - k >= |m| {
      assert p[k..k + |m|] == p[k..][..|m|] == (m + x)[..|m|] == m;
      assert At(p, k, m);
    } else {
      assert p[k..] == m[..|p| - k];
      RunsIntoMarker(s, p, m, k);
    }
  }

  lemma StartIsChanged(s: string, p: string, m: string)
    requires p != "" && At(s, 0, p) != At(ReplaceAll(s, p, m), 0, p)
    ensures Contains(s, p)
  {
    if !Contains(s, p) { Untouched(s, p, m); }
  }

  lemma PastThePlain(s: string, p: string, out: string, k: nat)
    requires k <= |s| && k <= |out| && out[..k] == s[..k]
    ensures |p| <= k ==> At(s, 0, p) == At(out, 0, p)
  {
    if |p| <= k { assert out[..k][0..|p|] == out[0..|p|] && s[..k][0..|p|] == s[0..|p|]; }
  }

  lemma RunsIntoMarker(s: string, p: string, m: string, k: nat)
    requires p != m && 0 < k < |p| && |p| - k < |m| && At(s, k, p)
    requires p[..k] == s[..k] && p[k..] == m[..|p| - k]
    requires forall i :: 0 <= i < k ==> !At(s, i, p)
    ensures Clashes(p, m)
  {
    var w := p[..k];
    assert w + p == s[..k + |p|];
    forall i | 0 <= i < k ensures !At(w + p, i, p) {
      assert !At(s, i, p);
      assert (w + p)[i..i + |p|] == s[i..i + |p|];
    }
    assert RunsInto(p, m, |p| - k) && FoundThere(p, |p| - k);
  }

  lemma {:induction false} GoneForGood(s: string, p: string, m: string)
    requires p != "" && p != m && !Clashes(p, m)
    ensures !Contains(ReplaceAll(s, p, m), p)
    decreases |s|
  {
    if s == "" {
    } else if At(s, 0, p) {
      var x := ReplaceAll(s[|p|..], p, m);
      GoneForGood(s[|p|..], p, m);
      forall i: nat | i <= |m + x| ensures !At(m + x, i, p) {
        if i < |m| {
          if At(m + x, i, p) { MarkerSide(p, m, x, i); }
        } else {
          assert !At(x, i - |m|, p);
          if i + |p| <= |m + x| { assert (m + x)[i..i + |p|] == x[i - |m|..i - |m| + |p|]; }
        }
      }
    } else {
      var x := ReplaceAll(s[1..], p, m);
      GoneForGood(s[1..], p, m);
      forall i: nat | i <= |[s[0]] + x| ensures !At([s[0]] + x, i, p) {
        if i == 0 {
          if At([s[0]] + x, 0, p) { PlainSide(s, p, m); }
        } else {
          assert ([s[0]] + x)[1..] == x;
          AtShift([s[0]] + x, i - 1, p);
          assert !At(x, i - 1, p);
        }
      }
    }
  }

  // ----- A clash leaves the secret behind -----

  lemma SecretInside(p: string, m: string)
    requires p != "" && Contains(m, p)
    ensures Contains(ReplaceAll(p + "", p, m), p)
  {
    MatchFirst("", p, m);
    assert m + "" == m;
  }

  lemma SeamAfter(p: string, m: string, k: nat)
    requires EndsInto(p, m, k)
    ensures Contains(ReplaceAll(p + p[k..], p, m), p)
  {
    var w := p[k..];
    MatchFirst(w, p, m);
    TooShort(w, p, m);
    var head := m[..|m| - k];
    assert m + w == head + p by { assert m == head + p[..k] && p == p[..k] + w; }
    EndsWithPart(head, p);
  }

  lemma EndsWithPart(head: string, p: string)
    ensures Contains(head + p, p)
  {
    assert (head + p)[|head|..|head| + |p|] == p;
    assert At(head + p, |head|, p);
  }

  lemma SeamBefore(p: string, m: string, k: nat)
    requires RunsInto(p, m, k) && FoundThere(p, k)
    ensures Contains(ReplaceAll(p[..|p| - k] + (p + ""), p, m), p)
  {
    var w := p[..|p| - k];
    assert p + "" == p;
    PlainPrefix(w, p + "", p, m);
    MatchFirst("", p, m);
    assert m + ReplaceAll("", p, m) == m;
    assert p == w + p[|p| - k..];
    assert (w + m)[..|p|] == w + m[..k];
    assert At(w + m, 0, p);
  }

  lemma {:induction false} NoEarlierMarker(p: string, m: string, j: nat)
    requires m != "" && At(p, j, m) && forall i :: 0 <= i < j ==> !At(p, i, m)
    ensures var s := p[..j] + (p + p[j + |m|..]); forall i :: 0 <= i < j ==> !At(s, i, p)
  {
    var s := p[..j] + (p + p[j + |m|..]);
    forall i | 0 <= i < j ensures !At(s, i, p) {
      assert !At(p, i, m);
      assert s[i + j..i + j + |m|] == p[i..i + |m|];
      InnerMatch(s, i, p, j, m);
    }
  }

  lemma InnerMatch(s: string, i: nat, p: string, j: nat, m: string)
    requires At(p, j, m)
    ensures At(s, i, p) ==> At(s, i + j, m)
  {
    if At(s, i, p) {
      var part := s[i + j..i + j + |m|];
      forall t | 0 <= t < |m| ensures part[t] == m[t] {
        assert part[t] == s[i..i + |p|][j + t] && m[t] == p[j..j + |m|][t];
      }
    }
  }

  lemma {:induction false} MarkerInside(p: string, m: string) returns (s: string)
    requires p != "" && m != "" && Contains(p, m)
    ensures Contains(ReplaceAll(s, p, m), p)
  {
    var j := FirstMatch(p, m, 0);
    var x, y := p[..j], p[j + |m|..];
    s := x + (p + y);
    NoEarlierMarker(p, m, j);
    PlainPrefix(x, p + y, p, m);
    MatchFirst(y, p, m);
    TooShort(y, p, m);
    assert p == x + p[j..] && p[j..] == m + y;
    assert At(p, 0, p);
  }

  lemma {:induction false} ClashLeavesSecret(p: string, m: string) returns (s: string)
    requires p != "" && m != "" && Clashes(p, m)
    ensures Contains(ReplaceAll(s, p, m), p)
  {
    if Contains(m, p) {
      s := p + "";
      SecretInside(p, m);
    } else if Contains(p, m) {
      s := MarkerInside(p, m);
    } else if k :| 0 < k <= |m| && EndsInto(p, m, k) {
      s := p + p[k..];
      SeamAfter(p, m, k);
    } else {
      var k :| 0 < k < |p| && RunsInto(p, m, k) && FoundThere(p, k);
      s := p[..|p| - k] + (p + "");
      SeamBefore(p, m, k);
    }
  }

  // ----- Main results -----

  /** Removing the secret from this text twice is removing it once. */
  predicate SettlesOn(s: string, p: string, m: string)
    requires p != ""
  {
    ReplaceAll(ReplaceAll(s, p, m), p, m) == ReplaceAll(s, p, m)
  }

  /**
   * Removing one secret twice is removing it once, for every text, if and only if secret and marker do not clash:
   * neither lies inside the other, and they do not overlap where they can meet.
   */
  lemma {:induction false} SettlesExactlyWithoutClash(p: string, m: string)
    requires p != "" && m != ""
    ensures (forall s :: SettlesOn(s, p, m)) <==> !Clashes(p, m)
  {
    if Clashes(p, m) {
      var s := ClashLeavesSecret(p, m);
      MatchChanges(ReplaceAll(s, p, m), p, m);
      assert !SettlesOn(s, p, m);
    } else {
      forall s ensures SettlesOn(s, p, m) {
        if p == m {
          ReplaceBySelf(s, p);
        } else {
          GoneForGood(s, p, m);
          Untouched(ReplaceAll(s, p, m), p, m);
        }
      }
    }
  }

  /** The API's own key rules, with the text rule given. */
  ghost predicate RemovesOne(rules: Rules, secret: string)
    requires secret != ""
  {
    rules == ApiRules(rules.text) &&
    forall s, flags :: rules.text(s, flags) == ReplaceAll(s, secret, REDACTED_CREDENTIAL)
  }

  lemma {:induction false} OneSecretSettles(rules: Rules, secret: string)
    requires secret != "" && RemovesOne(rules, secret)
    ensures TextSettles(rules) <==> forall s :: SettlesOn(s, secret, REDACTED_CREDENTIAL)
  {
    if s :| !SettlesOn(s, secret, REDACTED_CREDENTIAL) {
      assert rules.text(rules.text(s, FREE_TEXT), FREE_TEXT) != rules.text(s, FREE_TEXT);
    } else {
      forall s, flags | InUse(rules, flags)
        ensures rules.text(rules.text(s, flags), flags) == rules.text(s, flags)
      {
        assert SettlesOn(s, secret, REDACTED_CREDENTIAL);
      }
    }
  }

  /**
   * With the API's key rules and one secret on loan, every redacted body passes the checker if and only if the secret
   * does not clash with the marker.
   */
  lemma {:induction false} BodiesSettleExactlyWithoutClash(rules: Rules, secret: string)
    requires secret != "" && RemovesOne(rules, secret)
    ensures (forall body :: Residual(rules, RedactBody(rules, body), [], FREE_TEXT) == []) <==>
            !Clashes(secret, REDACTED_CREDENTIAL)
  {
    SettlesExactlyWithoutClash(secret, REDACTED_CREDENTIAL);
    OneSecretSettles(rules, secret);
    OnePassSuffices(rules);
  }

  /** A secret inside the marker clashes, and so does one that begins with the marker's end. */
  lemma ClashingSecrets()
    ensures Clashes("CREDENTIAL", REDACTED_CREDENTIAL) && Clashes("]]aaaaaa", REDACTED_CREDENTIAL)
  {
    assert At(REDACTED_CREDENTIAL, 10, "CREDENTIAL");
    assert EndsInto("]]aaaaaa", REDACTED_CREDENTIAL, 1);
  }

  // ----- Several secrets on loan -----

  /** No way for the marker to take part in an occurrence of the secret. */
  predicate Apart(q: string, m: string) {
    && !Contains(m, q) && !Contains(q, m)
    && (forall k :: 0 < k <= |m| ==> !EndsInto(q, m, k))
    && (forall k :: 0 < k < |q| ==> !RunsInto(q, m, k))
  }

  lemma ApartNeverClashes(q: string, m: string)
    requires Apart(q, m)
    ensures q != m && !Clashes(q, m)
  {
    assert At(q, 0, q);
  }

  lemma {:induction false} PlainSideOfAnother(t: string, p: string, m: string, q: string)
    requires p != "" && !At(t, 0, p) && !Contains(t, q) && At(ReplaceAll(t, p, m), 0, q)
    ensures !Apart(q, m)
  {
    if !Contains(t, p) {
      Untouched(t, p, m);
    } else {
      var k := SplitAtMatch(t, p, m);
      var x := ReplaceAll(t[k + |p|..], p, m);
      var out := t[..k] + (m + x);
      assert !At(t, 0, q);
      PastThePlain(t, q, out, k);
      assert q == out[0..|q|];
      assert q[k..] == (m + x)[..|q| - k];
      if |q| - k >= |m| {
        assert q[k..k + |m|] == q[k..][..|m|] == (m + x)[..|m|] == m;
        assert At(q, k, m);
      } else {
        assert q[k..] == m[..|q| - k];
        assert RunsInto(q, m, |q| - k);
      }
    }
  }

  /** Removing another secret does not bring this one back. */
  lemma {:induction false} StaysAway(t: string, p: string, m: string, q: string)
    requires p != "" && q != "" && Apart(q, m) && !Contains(t, q)
    ensures !Contains(ReplaceAll(t, p, m), q)
    decreases |t|
  {
    ApartNeverClashes(q, m);
    if t == "" {
    } else if At(t, 0, p) {
      var rest := t[|p|..];
      var x := ReplaceAll(rest, p, m);
      forall i: nat | i <= |rest| ensures !At(rest, i, q) {
        assert !At(t, i + |p|, q);
        if i + |q| <= |rest| { assert rest[i..i + |q|] == t[i + |p|..i + |p| + |q|]; }
      }
      StaysAway(rest, p, m, q);
      forall i: nat | i <= |m + x| ensures !At(m + x, i, q) {
        if i < |m| {
          if At(m + x, i, q) { MarkerSide(q, m, x, i); }
        } else {
          assert !At(x, i - |m|, q);
          if i + |q| <= |m + x| { assert (m + x)[i..i + |q|] == x[i - |m|..i - |m| + |q|]; }
        }
      }
    } else {
      StaysAwayPlain(t, p, m, q);
    }
  }

  lemma {:induction false} StaysAwayPlain(t: string, p: string, m: string, q: string)
    requires p != "" && q != "" && Apart(q, m) && !Contains(t, q) && t != "" && !At(t, 0, p)
    ensures !Contains(ReplaceAll(t, p, m), q)
    decreases |t|, 0
  {
    var x := ReplaceAll(t[1..], p, m);
    forall i: nat | i <= |t[1..]| ensures !At(t[1..], i, q) {
      AtShift(t, i, q);
      assert !At(t, i + 1, q);
    }
    StaysAway(t[1..], p, m, q);
    forall i: nat | i <= |[t[0]] + x| ensures !At([t[0]] + x, i, q) {
      if i == 0 {
        if At([t[0]] + x, 0, q) { PlainSideOfAnother(t, p, m, q); }
      } else {
        assert ([t[0]] + x)[1..] == x;
        AtShift([t[0]] + x, i - 1, q);
        assert !At(x, i - 1, q);
      }
    }
  }

  predicate AllApart(secrets: seq<string>) {
    forall i :: 0 <= i < |secrets| ==> secrets[i] != "" && Apart(secrets[i], REDACTED_CREDENTIAL)
  }

  lemma {:induction false} StripKeepsAway(s: string, secrets: seq<string>, q: string)
    requires AllApart(secrets) && q != "" && Apart(q, REDACTED_CREDENTIAL) && !Contains(s, q)
    ensures !Contains(StripSecrets(s, secrets), q)
    decreases |secrets|
  {
    if secrets != [] {
      StaysAway(s, secrets[0], REDACTED_CREDENTIAL, q);
      StripKeepsAway(ReplaceAll(s, secrets[0], REDACTED_CREDENTIAL), secrets[1..], q);
    }
  }

  lemma {:induction false} StripRemoves(s: string, secrets: seq<string>, j: nat)
    requires AllApart(secrets) && j < |secrets|
    ensures !Contains(StripSecrets(s, secrets), secrets[j])
    decreases |secrets|
  {
    var once := ReplaceAll(s, secrets[0], REDACTED_CREDENTIAL);
    if j == 0 {
      ApartNeverClashes(secrets[0], REDACTED_CREDENTIAL);
      GoneForGood(s, secrets[0], REDACTED_CREDENTIAL);
      StripKeepsAway(once, secrets[1..], secrets[0]);
    } else {
      StripRemoves(once, secrets[1..], j - 1);
    }
  }

  lemma {:induction false} StripNothing(s: string, secrets: seq<string>)
    requires AllApart(secrets) && forall j :: 0 <= j < |secrets| ==> !Contains(s, secrets[j])
    ensures StripSecrets(s, secrets) == s
    decreases |secrets|
  {
    if secrets != [] {
      Untouched(s, secrets[0], REDACTED_CREDENTIAL);
      StripNothing(s, secrets[1..]);
    }
  }

  /**
   * However many secrets are on loan, if each keeps apart from the marker, one pass removes them all and a second
   * changes nothing.
   */
  lemma {:induction false} ManySecretsSettle(s: string, secrets: seq<string>)
    requires AllApart(secrets)
    ensures forall j :: 0 <= j < |secrets| ==> !Contains(StripSecrets(s, secrets), secrets[j])
    ensures StripSecrets(StripSecrets(s, secrets), secrets) == StripSecrets(s, secrets)
  {
    forall j | 0 <= j < |secrets| ensures !Contains(StripSecrets(s, secrets), secrets[j]) {
      StripRemoves(s, secrets, j);
    }
    StripNothing(StripSecrets(s, secrets), secrets);
  }

  // ----- In any company -----

  /** `MIN_REGISTERED_SECRET`. */
  const MIN_SECRET: nat := 8

  /** What the registry takes: values without blank ends, not too short. */
  predicate Registrable(q: string) { |q| >= MIN_SECRET && Strip(q) == q }

  /** The registry as a pass sees it: each secret once, longer ones first. */
  predicate Registry(secrets: seq<string>) {
    && (forall i :: 0 <= i < |secrets| ==> Registrable(secrets[i]))
    && (forall i, j :: 0 <= i < j < |secrets| ==> secrets[i] != secrets[j] && |secrets[i]| >= |secrets[j]|)
  }

  /** The marker itself, or apart from it. */
  predicate Safe(q: string) { q == REDACTED_CREDENTIAL || Apart(q, REDACTED_CREDENTIAL) }

  /** Whatever the text, a second pass changes nothing. */
  ghost predicate Settles(secrets: seq<string>)
    requires forall i :: 0 <= i < |secrets| ==> secrets[i] != ""
  {
    forall s :: StripSecrets(StripSecrets(s, secrets), secrets) == StripSecrets(s, secrets)
  }

  function WithoutMarker(secrets: seq<string>): seq<string> {
    if secrets == [] then []
    else (if secrets[0] == REDACTED_CREDENTIAL then [] else [secrets[0]]) + WithoutMarker(secrets[1..])
  }

  lemma {:induction false} MarkerDoesNothing(s: string, secrets: seq<string>)
    requires forall i :: 0 <= i < |secrets| ==> secrets[i] != "" && Safe(secrets[i])
    ensures AllApart(WithoutMarker(secrets)) && StripSecrets(s, secrets) == StripSecrets(s, WithoutMarker(secrets))
    decreases |secrets|
  {
    if secrets != [] {
      var others := WithoutMarker(secrets[1..]);
      MarkerDoesNothing(ReplaceAll(s, secrets[0], REDACTED_CREDENTIAL), secrets[1..]);
      if secrets[0] == REDACTED_CREDENTIAL {
        ReplaceBySelf(s, REDACTED_CREDENTIAL);
        assert WithoutMarker(secrets) == others;
      } else {
        assert WithoutMarker(secrets)[0] == secrets[0] && WithoutMarker(secrets)[1..] == others;
      }
    }
  }

  lemma {:induction false} SafeSettles(secrets: seq<string>)
    requires forall i :: 0 <= i < |secrets| ==> secrets[i] != "" && Safe(secrets[i])
    ensures Settles(secrets)
  {
    forall s ensures StripSecrets(StripSecrets(s, secrets), secrets) == StripSecrets(s, secrets) {
      MarkerDoesNothing(s, secrets);
      MarkerDoesNothing(StripSecrets(s, secrets), secrets);
      ManySecretsSettle(s, WithoutMarker(secrets));
    }
  }

  /** `n` letters that neither the marker has nor `w` ends with. */
  function Companion(w: string, n: nat): string {
    seq(n, _ => if w != "" && w[|w| - 1] == 'z' then 'y' else 'z')
  }

  /** A text of letters the marker does not have. */
  predicate Foreign(p: string) {
    p != "" && forall i :: 0 <= i < |p| ==> p[i] == 'y' || p[i] == 'z'
  }

  lemma MarkerLetters()
    ensures forall i :: 0 <= i < |REDACTED_CREDENTIAL| ==>
      REDACTED_CREDENTIAL[i] != 'y' && REDACTED_CREDENTIAL[i] != 'z'
  {
  }

  lemma AtChar(s: string, i: nat, part: string, t: nat)
    requires t < |part|
    ensures At(s, i, part) ==> s[i + t] == part[t]
  {
    if At(s, i, part) { assert s[i + t] == s[i..i + |part|][t]; }
  }

  lemma ForeignIsApart(p: string)
    requires Foreign(p)
    ensures Apart(p, REDACTED_CREDENTIAL)
  {
    var m := REDACTED_CREDENTIAL;
    MarkerLetters();
    forall i: nat | i <= |m| ensures !At(m, i, p) {
      AtChar(m, i, p, 0);
    }
    forall i: nat | i <= |p| ensures !At(p, i, m) {
      AtChar(p, i, m, 0);
    }
    forall k | 0 < k <= |m| && k <= |p| ensures m[|m| - k..] != p[..k] {
      assert m[|m| - k] == m[|m| - k..][0] && p[0] == p[..k][0];
    }
    forall k | 0 < k <= |m| && k < |p| ensures p[|p| - k..] != m[..k] {
      assert p[|p| - k] == p[|p| - k..][0] && m[0] == m[..k][0];
    }
  }

  lemma ForeignIsNowhere(t: string, p: string)
    requires Foreign(p) && forall i :: 0 <= i < |t| ==> t[i] != 'y' && t[i] != 'z'
    ensures !Contains(t, p)
  {
    forall i: nat | i <= |t| ensures !At(t, i, p) {
      AtChar(t, i, p, 0);
    }
  }

  /** The secret is not there yet while its companion stands in the marker's place ... */
  lemma {:induction false} NotThereYet(q: string, k: nat, p: string)
    requires RunsInto(q, REDACTED_CREDENTIAL, k) && Foreign(p)
    ensures !Contains(q[..|q| - k] + p, q)
  {
    var w, t := q[..|q| - k], q[..|q| - k] + p;
    MarkerLetters();
    assert q[|q| - 1] == q[|q| - k..][k - 1] == REDACTED_CREDENTIAL[k - 1];
    assert forall i :: |w| <= i < |t| ==> t[i] == p[i - |w|];
    forall i: nat | i <= |t| ensures !At(t, i, q) {
      AtChar(t, i, q, |q| - 1);
    }
  }

  /** ... and is there once the companion has been removed. */
  lemma {:induction false} CompanionRemoved(w: string, n: nat, m: string)
    requires |w| < n
    ensures ReplaceAll(w + Companion(w, n), Companion(w, n), m) == w + m
  {
    var p := Companion(w, n);
    forall i | 0 <= i < |w| ensures !At(w + p, i, p) {
      AtChar(w + p, i, p, |w| - 1 - i);
    }
    PlainPrefix(w, p, p, m);
    assert p + "" == p;
    MatchFirst("", p, m);
    assert m + ReplaceAll("", p, m) == m;
  }

  lemma StripTwo(s: string, q: string, p: string)
    requires q != "" && p != ""
    ensures StripSecrets(s, [q, p]) ==
            ReplaceAll(ReplaceAll(s, q, REDACTED_CREDENTIAL), p, REDACTED_CREDENTIAL)
  {
    assert [q, p][1..] == [p] && [p][1..] == [];
    assert StripSecrets(ReplaceAll(s, q, REDACTED_CREDENTIAL), [p]) ==
           StripSecrets(ReplaceAll(ReplaceAll(s, q, REDACTED_CREDENTIAL), p, REDACTED_CREDENTIAL), []);
  }

  lemma NotInTail(t: string, k: nat, q: string)
    requires k <= |t| && !Contains(t, q)
    ensures !Contains(t[k..], q)
  {
    var rest := t[k..];
    forall i: nat | i <= |rest| ensures !At(rest, i, q) {
      assert !At(t, i + k, q);
      assert i + |q| <= |rest| ==> rest[i..i + |q|] == t[i + k..i + k + |q|];
    }
  }

  lemma Rejoined(q: string, m: string, k: nat)
    requires RunsInto(q, m, k)
    ensures q[..|q| - k] + m == q + m[k..]
  {
    assert q == q[..|q| - k] + m[..k] && m == m[..k] + m[k..];
  }

  lemma {:induction false} FoundInFront(q: string, k: nat, m: string)
    requires RunsInto(q, m, k) && !Contains(m, q)
    ensures ReplaceAll(q[..|q| - k] + m, q, m) == m + m[k..]
  {
    Rejoined(q, m, k);
    NotInTail(m, k, q);
    MatchFirst(m[k..], q, m);
    Untouched(m[k..], q, m);
  }

  /** The second pass finds the secret at the front and leaves a text of the marker's letters. */
  lemma {:induction false} SecondPass(q: string, k: nat, p: string)
    requires RunsInto(q, REDACTED_CREDENTIAL, k) && !Contains(REDACTED_CREDENTIAL, q) && Foreign(p)
    ensures StripSecrets(q[..|q| - k] + REDACTED_CREDENTIAL, [q, p]) == REDACTED_CREDENTIAL + REDACTED_CREDENTIAL[k..]
  {
    var m := REDACTED_CREDENTIAL;
    FoundInFront(q, k, m);
    MarkerLetters();
    ForeignIsNowhere(m + m[k..], p);
    Untouched(m + m[k..], p, m);
    StripTwo(q[..|q| - k] + m, q, p);
  }

  lemma {:induction false} FirstPass(q: string, k: nat)
    requires RunsInto(q, REDACTED_CREDENTIAL, k)
    ensures var w := q[..|q| - k]; var p := Companion(w, |q|);
            StripSecrets(w + p, [q, p]) == w + REDACTED_CREDENTIAL
  {
    var w := q[..|q| - k];
    var p := Companion(w, |q|);
    NotThereYet(q, k, p);
    Untouched(w + p, q, REDACTED_CREDENTIAL);
    CompanionRemoved(w, |q|, REDACTED_CREDENTIAL);
    StripTwo(w + p, q, p);
  }

  lemma PassesDiffer(q: string, k: nat, m: string)
    requires RunsInto(q, m, k) && q != m
    ensures q[..|q| - k] + m != m + m[k..]
  {
    var w := q[..|q| - k];
    assert w + m[..k] == q;
    if |w| == |m| - k {
      assert (w + m)[..|m|] == w + m[..k] && (m + m[k..])[..|m|] == m;
    } else {
      assert |w + m| != |m + m[k..]|;
    }
  }

  /** A secret that runs into the marker comes back in the company of another. */
  lemma {:induction false} ComesBack(q: string, k: nat)
    requires RunsInto(q, REDACTED_CREDENTIAL, k) && !Contains(REDACTED_CREDENTIAL, q) && q != REDACTED_CREDENTIAL
    ensures !Settles([q, Companion(q[..|q| - k], |q|)])
  {
    var w := q[..|q| - k];
    var p := Companion(w, |q|);
    FirstPass(q, k);
    SecondPass(q, k, p);
    PassesDiffer(q, k, REDACTED_CREDENTIAL);
    assert StripSecrets(StripSecrets(w + p, [q, p]), [q, p]) != StripSecrets(w + p, [q, p]);
  }

  /** A registry with this secret in it, and otherwise safe ones. */
  predicate InCompany(secrets: seq<string>, q: string) {
    Registry(secrets) && q in secrets && forall i :: 0 <= i < |secrets| ==> secrets[i] == q || Safe(secrets[i])
  }

  lemma CompanionIsRegistrable(w: string, n: nat)
    requires n >= MIN_SECRET
    ensures Registrable(Companion(w, n)) && Foreign(Companion(w, n)) && Safe(Companion(w, n))
  {
    ForeignIsApart(Companion(w, n));
  }

  lemma {:induction false} UnsafeUnsettled(q: string) returns (secrets: seq<string>)
    requires Registrable(q) && !Safe(q)
    ensures InCompany(secrets, q) && !Settles(secrets)
  {
    var m := REDACTED_CREDENTIAL;
    if Clashes(q, m) {
      secrets := [q];
      ClashUnsettled(q);
    } else {
      var k :| 0 < k < |q| && RunsInto(q, m, k);
      var p := Companion(q[..|q| - k], |q|);
      CompanionIsRegistrable(q[..|q| - k], |q|);
      secrets := [q, p];
      ComesBack(q, k);
      assert q in secrets && q != p;
    }
  }

  lemma {:induction false} ClashUnsettled(q: string)
    requires q != "" && Clashes(q, REDACTED_CREDENTIAL)
    ensures !Settles([q])
  {
    var s := ClashLeavesSecret(q, REDACTED_CREDENTIAL);
    var once := ReplaceAll(s, q, REDACTED_CREDENTIAL);
    MatchChanges(once, q, REDACTED_CREDENTIAL);
    AloneStripped(s, q);
    AloneStripped(once, q);
    assert StripSecrets(StripSecrets(s, [q]), [q]) != StripSecrets(s, [q]);
  }

  lemma AloneStripped(s: string, q: string)
    requires q != ""
    ensures StripSecrets(s, [q]) == ReplaceAll(s, q, REDACTED_CREDENTIAL)
  {
    assert [q][1..] == [];
  }

  /** Between brackets, like the marker's own, but of other letters. */
  lemma {:induction false} BracketedNeverClashes(q: string)
    requires q == "[aaaaaaa["
    ensures RunsInto(q, REDACTED_CREDENTIAL, 1) && !Contains(REDACTED_CREDENTIAL, q) && !Clashes(q, REDACTED_CREDENTIAL)
  {
    var m := REDACTED_CREDENTIAL;
    assert forall i :: 0 <= i < |m| ==> m[i] != 'a';
    assert forall i :: 0 <= i < |q| ==> q[i] != ']' && q[i] != 'R';
    forall i: nat | i <= |m| ensures !At(m, i, q) {
      AtChar(m, i, q, 1);
    }
    forall k | 0 < k <= |m| && k <= |q| ensures m[|m| - k..] != q[..k] {
      assert m[|m| - k..][k - 1] == ']' && q[..k][k - 1] == q[k - 1];
    }
    forall k | 1 < k <= |m| && k < |q| ensures q[|q| - k..] != m[..k] {
      assert q[|q| - k..][1] == q[|q| - k + 1] && m[..k][1] == 'R';
    }
    assert q[8..] == m[..1];
    assert (q[..8] + q)[0..9] == q;
    assert At(q[..8] + q, 0, q);
  }

  /** Two secrets that each settle alone, and do not together. */
  lemma {:induction false} TwoSecretsUnsettled(q: string, p: string)
    requires q == "[aaaaaaa[" && p == "zzzzzzzzz"
    ensures Registry([q, p]) && !Clashes(q, REDACTED_CREDENTIAL) && !Clashes(p, REDACTED_CREDENTIAL)
    ensures !Settles([q, p])
  {
    BracketedNeverClashes(q);
    assert p == Companion(q[..|q| - 1], |q|);
    ComesBack(q, 1);
    ForeignIsApart(p);
    ApartNeverClashes(p, REDACTED_CREDENTIAL);
  }

  /**
   * A secret is harmless in every registry of safe ones, whatever the text, if and only if it is safe itself: apart
   * from the marker, or the marker.
   */
  lemma {:induction false} SettlesInAnyCompanyExactly(q: string)
    requires Registrable(q)
    ensures (forall secrets :: InCompany(secrets, q) ==> Settles(secrets)) <==> Safe(q)
  {
    if Safe(q) {
      forall secrets | InCompany(secrets, q) ensures Settles(secrets) {
        SafeSettles(secrets);
      }
    } else {
      var secrets := UnsafeUnsettled(q);
    }
  }

  /** The API's own key rules over this registry. */
  ghost predicate RemovesAll(rules: Rules, secrets: seq<string>)
    requires forall i :: 0 <= i < |secrets| ==> secrets[i] != ""
  {
    rules == ApiRules(rules.text) && forall s, flags :: rules.text(s, flags) == StripSecrets(s, secrets)
  }

  /**
   * With the API's key rules, every redacted body passes the checker if and only if the registry settles on every text.
   */
  lemma {:induction false} BodiesSettleAsTextsDo(rules: Rules, secrets: seq<string>)
    requires forall i :: 0 <= i < |secrets| ==> secrets[i] != ""
    requires RemovesAll(rules, secrets)
    ensures (forall body :: Residual(rules, RedactBody(rules, body), [], FREE_TEXT) == []) <==> Settles(secrets)
  {
    OnePassSuffices(rules);
    if TextSettles(rules) {
      forall s ensures StripSecrets(StripSecrets(s, secrets), secrets) == StripSecrets(s, secrets) {
        assert rules.text(rules.text(s, FREE_TEXT), FREE_TEXT) == rules.text(s, FREE_TEXT);
      }
    }
  }
}
