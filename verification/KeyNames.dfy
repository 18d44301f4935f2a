/** What a field's name says about its value: a credential, a count, a locator, an identifier, a digest, a model. */
module KeyNames {
  import opened Texts
  import opened Redaction

  // ----- Credentials -----

  predicate SpelledAt(key: string, i: nat, word: string) {
    i + |word| <= |key| && Lower(key[i..i + |word|]) == word
  }

  /** The word stands somewhere in the key, in any case. */
  ghost predicate Holds(key: string, word: string) { exists i: nat :: SpelledAt(key, i, word) }

  lemma LowerInside(key: string, word: string, i: nat)
    ensures At(Lower(key), i, word) <==> SpelledAt(key, i, word)
  {
    if i + |word| <= |key| { assert Lower(key)[i..i + |word|] == Lower(key[i..i + |word|]); }
  }

  lemma {:induction false} SecretWordInAnyCase(key: string, word: string)
    ensures Contains(Lower(key), word) <==> Holds(key, word)
  {
    forall i: nat ensures At(Lower(key), i, word) <==> SpelledAt(key, i, word) { LowerInside(key, word, i); }
  }

  /** A key names a credential exactly when one of these words stands in it, in any case. */
  lemma {:induction false} SecretExactly(key: string)
    ensures IsSecretKey(key) <==>
      || Holds(key, "password") || Holds(key, "passwd") || Holds(key, "secret") || Holds(key, "token")
      || Holds(key, "api_key") || Holds(key, "api-key") || Holds(key, "private_key") || Holds(key, "private-key")
      || Holds(key, "bearer") || Holds(key, "authorization") || Holds(key, "-----begin")
  {
    var ps := SECRET_PATTERNS;
    forall p: string ensures Contains(Lower(key), p) <==> Holds(key, p) { SecretWordInAnyCase(key, p); }
    assert ps[0] == "password" && ps[1] == "passwd" && ps[2] == "secret" && ps[3] == "token" && ps[4] == "api_key";
    assert ps[5] == "api-key" && ps[6] == "bearer" && ps[7] == "authorization" && ps[8] == "private_key";
    assert ps[9] == "private-key" && ps[10] == "-----begin";
  }

  // ----- What kind of value -----

  /** The part after the last underscore. */
  function LastWord(s: string): string {
    if s == "" || s[|s| - 1] == '_' then "" else LastWord(s[..|s| - 1]) + [s[|s| - 1]]
  }

  lemma {:induction false} LastWordWhere(s: string) returns (k: nat)
    ensures k <= |s| && LastWord(s) == s[k..] && '_' !in s[k..] && (if k == 0 then '_' !in s else s[k - 1] == '_')
  {
    if s == "" || s[|s| - 1] == '_' {
      k := |s|;
    } else {
      var front := s[..|s| - 1];
      k := LastWordWhere(front);
      assert s[k..] == front[k..] + [s[|s| - 1]] && s == front + [s[|s| - 1]];
    }
  }

  lemma BehindUnderscore(s: string, k: nat, j: nat)
    requires 0 < j <= |s| && k <= |s| && s[j - 1] == '_' && '_' !in s[k..]
    ensures j <= k
  {
    assert forall m :: k <= m < |s| ==> s[m] == s[k..][m - k];
  }

  lemma {:induction false} EndsInWord(s: string, word: string)
    requires '_' !in word
    ensures EndsWith(s, "_" + word) <==> '_' in s && LastWord(s) == word
  {
    var k := LastWordWhere(s);
    if EndsWith(s, "_" + word) {
      var j := |s| - |word|;
      assert s[j - 1..] == "_" + word;
      assert s[j - 1] == ("_" + word)[0] && s[j..] == s[j - 1..][1..] == ("_" + word)[1..] == word;
      BehindUnderscore(s, k, j);
      BehindUnderscore(s, j, k);
    }
    if '_' in s && LastWord(s) == word {
      assert s[k - 1..] == [s[k - 1]] + s[k..];
    }
  }

  /** Each suffix is an underscore and a word. */
  predicate AreSuffixes(suffixes: seq<string>, words: seq<string>) {
    |suffixes| == |words| && forall i :: 0 <= i < |words| ==> suffixes[i] == "_" + words[i] && '_' !in words[i]
  }

  lemma {:induction false} EndsInAnyWord(s: string, suffixes: seq<string>, words: seq<string>)
    requires AreSuffixes(suffixes, words)
    ensures EndsWithAny(s, suffixes) <==> '_' in s && LastWord(s) in words
  {
    forall i | 0 <= i < |words| ensures EndsWith(s, suffixes[i]) <==> '_' in s && LastWord(s) == words[i] {
      EndsInWord(s, words[i]);
    }
    if EndsWithAny(s, suffixes) {
      var suffix :| suffix in suffixes && EndsWith(s, suffix);
      var i :| 0 <= i < |suffixes| && suffixes[i] == suffix;
      assert words[i] in words;
    }
    if '_' in s && LastWord(s) in words {
      var i :| 0 <= i < |words| && words[i] == LastWord(s);
      assert suffixes[i] in suffixes;
    }
  }

  lemma AloneIsLastWord(s: string)
    requires '_' !in s
    ensures LastWord(s) == s
  {
    var k := LastWordWhere(s);
    assert forall m :: 0 <= m < |s| ==> s[m] in s;
  }

  const LOCATORS := ["url", "urls", "uri", "path", "paths", "subpath"]

  const DIGESTS := ["revision", "sha", "digest", "fingerprint", "hash", "checksum", "sha256", "sha1", "md5"]

  const REPOSITORIES := ["repo_id", "repo_ids"]

  lemma {:induction false} LocatorExactly(key: string)
    ensures KeyFlags(key).locator <==>
            var k := Lower(key); k in LOCATOR_KEYS || ('_' in k && LastWord(k) in LOCATORS)
  {
    EndsInAnyWord(Lower(key), LOCATOR_KEY_SUFFIXES, LOCATORS);
  }

  lemma {:induction false} IdentifierExactly(key: string)
    ensures KeyFlags(key).identifier <==>
            var k := Lower(key); '_' in k && LastWord(k) in ["id", "ids"] && k !in REPOSITORIES
  {
    EndsInAnyWord(Lower(key), IDENTIFIER_KEY_SUFFIXES, ["id", "ids"]);
  }

  /** A digest is known by its last word alone. */
  lemma {:induction false} DigestExactly(key: string)
    ensures KeyFlags(key).digest <==> LastWord(Lower(key)) in DIGESTS
  {
    var k := Lower(key);
    EndsInAnyWord(k, DIGEST_KEY_SUFFIXES, DIGESTS);
    DigestNames(k);
    if '_' !in k { AloneIsLastWord(k); }
  }

  lemma DigestNames(k: string)
    ensures k in DIGEST_KEYS ==> LastWord(k) in DIGESTS
    ensures k in DIGESTS ==> k in DIGEST_KEYS
  {
    DigestKeys(k);
    CompoundDigests();
    if k in DIGESTS { AloneIsLastWord(k); }
  }

  lemma DigestsInKeys()
    ensures var d, keys := DIGESTS, DIGEST_KEYS;
            && |d| == 9 && |keys| == 11 && keys[2] == "commit_sha" && keys[6] == "manifest_hash"
            && keys[0] == d[0] && keys[1] == d[1] && keys[3] == d[2] && keys[4] == d[3] && keys[5] == d[4]
            && keys[7] == d[5] && keys[8] == d[6] && keys[9] == d[7] && keys[10] == d[8]
  {
  }

  lemma DigestsAreWords(k: string)
    ensures k in DIGESTS ==> '_' !in k
  {
  }

  lemma DigestKeys(k: string)
    ensures k in DIGEST_KEYS <==> k in DIGESTS || k == "commit_sha" || k == "manifest_hash"
    ensures k in DIGESTS ==> '_' !in k
  {
    DigestsInKeys();
    DigestsAreWords(k);
  }

  lemma CompoundDigests()
    ensures LastWord("commit_sha") in DIGESTS && LastWord("manifest_hash") in DIGESTS
  {
    EndsInWord("commit_sha", "sha");
    EndsInWord("manifest_hash", "hash");
    assert "commit_sha"[6..] == "_sha" == "_" + "sha" && "manifest_hash"[8..] == "_hash" == "_" + "hash";
    assert DIGESTS[1] == "sha" && DIGESTS[4] == "hash";
  }

  lemma {:induction false} ModelExactly(key: string)
    ensures KeyFlags(key).model <==> var k := Lower(key); LastWord(k) in ["model", "models"] || k in REPOSITORIES
  {
    var k := Lower(key);
    EndsInAnyWord(k, MODEL_KEY_SUFFIXES, ["model", "models"]);
    if '_' !in k { AloneIsLastWord(k); }
  }

  /** The words a name can end in, by kind; the repositories and the bare names stand apart. */
  function KindOf(word: string): nat {
    if word in LOCATOR_KEYS then 1
    else if word in ["id", "ids"] then 2
    else if word in DIGESTS then 3
    else if word in ["model", "models"] then 4
    else 0
  }

  lemma WordsApart(word: string)
    ensures word in LOCATORS ==> KindOf(word) == 1
    ensures word in ["id", "ids"] ==> KindOf(word) == 2
    ensures word in ["model", "models"] ==> KindOf(word) == 4
  {
  }

  lemma DigestsApart(word: string)
    ensures word in DIGESTS ==> KindOf(word) == 3
  {
  }

  lemma BareLocators(k: string)
    requires k in LOCATOR_KEYS
    ensures '_' !in k && k !in REPOSITORIES
  {
  }

  lemma RepositoryWords(k: string)
    requires k in REPOSITORIES
    ensures KindOf(LastWord(k)) == 2 && '_' in k
  {
    EndsInWord("repo_id", "id");
    EndsInWord("repo_ids", "ids");
    assert "repo_id"[4..] == "_id" == "_" + "id" && "repo_ids"[4..] == "_ids" == "_" + "ids";
  }

  function Kinds(flags: Flags): nat {
    (if flags.locator then 1 else 0) + (if flags.identifier then 1 else 0) +
    (if flags.digest then 1 else 0) + (if flags.model then 1 else 0)
  }

  /** No name is of two kinds: a text is scanned with one fallback narrowed at most. */
  lemma {:induction false} AtMostOneKind(key: string)
    ensures Kinds(KeyFlags(key)) <= 1
  {
    var k := Lower(key);
    LocatorExactly(key);
    IdentifierExactly(key);
    DigestExactly(key);
    ModelExactly(key);
    WordsApart(LastWord(k));
    DigestsApart(LastWord(k));
    if k in LOCATOR_KEYS {
      BareLocators(k);
      AloneIsLastWord(k);
    } else if k in REPOSITORIES {
      RepositoryWords(k);
    }
  }

  // ----- Counts -----

  /** A count of tokens by any other name: the word at the end of it, or between two others. */
  lemma {:induction false} CountNames(before: string, after: string)
    ensures TokensWord("tokens") && TokensWord(before + "_tokens")
    ensures TokensWord(before + "_tokens_" + after) && TokensWord("tokens_" + after)
  {
    var a, b, c := before + "_tokens", before + "_tokens_" + after, "tokens_" + after;
    var i := |before| + 1;
    assert At("tokens", 0, "tokens");
    assert a[i..i + 6] == "tokens" && a[i - 1] == '_';
    assert At(a, i, "tokens");
    assert b[i..i + 6] == "tokens" && b[i - 1] == '_' && b[i + 6] == '_';
    assert At(b, i, "tokens");
    assert c[0..6] == "tokens" && c[6] == '_';
    assert At(c, 0, "tokens");
  }
}
