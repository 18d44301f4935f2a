/** The string operations the source leans on; lower-casing is ASCII. */
module Texts {

  function LowerChar(c: char): char {
    if 'A' <= c <= 'Z' then ((c as int) + 32) as char else c
  }

  function Lower(s: string): (l: string)
    ensures |l| == |s|
  {
    seq(|s|, i requires 0 <= i < |s| => LowerChar(s[i]))
  }

  predicate StartsWith(s: string, prefix: string) {
    |prefix| <= |s| && s[..|prefix|] == prefix
  }

  predicate EndsWith(s: string, suffix: string) {
    |suffix| <= |s| && s[|s| - |suffix|..] == suffix
  }

  predicate At(s: string, i: nat, part: string) {
    i + |part| <= |s| && s[i..i + |part|] == part
  }

  predicate Contains(s: string, part: string) {
    exists i: nat :: i <= |s| && At(s, i, part)
  }

  /** What `str.strip` removes. */
  predicate IsSpace(c: char) {
    || '\t' <= c <= '\r' || '\U{1C}' <= c <= ' ' || c == '\U{85}' || c == '\U{A0}' || c == '\U{1680}'
    || '\U{2000}' <= c <= '\U{200A}' || c == '\U{2028}' || c == '\U{2029}' || c == '\U{202F}' || c == '\U{205F}'
    || c == '\U{3000}'
  }

  /** What `bytes.strip` removes. */
  predicate IsByteSpace(c: char) { '\t' <= c <= '\r' || c == ' ' }

  function StripLeft(s: string, blank: char -> bool): string {
    if s != "" && blank(s[0]) then StripLeft(s[1..], blank) else s
  }

  function StripRight(s: string, blank: char -> bool): string {
    if s != "" && blank(s[|s| - 1]) then StripRight(s[..|s| - 1], blank) else s
  }

  function Strip(s: string): string { StripRight(StripLeft(s, IsSpace), IsSpace) }

  function StripBytes(s: string): string { StripRight(StripLeft(s, IsByteSpace), IsByteSpace) }

  /** The first part of `str.split` at one character. */
  function Before(s: string, mark: char): string {
    if s == "" || s[0] == mark then "" else [s[0]] + Before(s[1..], mark)
  }

  // ----- Where a text is cut -----

  lemma {:induction false} ReadToMark(front: string, rest: string, mark: char)
    requires mark !in front && (rest == "" || rest[0] == mark)
    ensures Before(front + rest, mark) == front
  {
    if front == "" {
      assert front + rest == rest;
    } else {
      assert (front + rest)[1..] == front[1..] + rest;
      ReadToMark(front[1..], rest, mark);
    }
  }

  lemma {:induction false} MarkWhere(s: string, mark: char) returns (k: nat)
    ensures k <= |s| && Before(s, mark) == s[..k] && mark !in s[..k] && (s[k..] == "" || s[k] == mark)
  {
    if s == "" || s[0] == mark {
      k := 0;
    } else {
      var j := MarkWhere(s[1..], mark);
      k := j + 1;
      assert s[..k] == [s[0]] + s[1..][..j];
      assert s[k..] == s[1..][j..];
    }
  }

  // ----- What stripping leaves -----

  predicate AllBlank(s: string, blank: char -> bool) { forall i :: 0 <= i < |s| ==> blank(s[i]) }

  /** Neither end is blank. */
  predicate Bare(s: string, blank: char -> bool) { s != "" ==> !blank(s[0]) && !blank(s[|s| - 1]) }

  lemma {:induction false} LeftStripped(left: string, s: string, blank: char -> bool)
    requires AllBlank(left, blank) && (s != "" ==> !blank(s[0]))
    ensures StripLeft(left + s, blank) == s
  {
    if left == "" {
      assert left + s == s;
    } else {
      assert (left + s)[1..] == left[1..] + s;
      LeftStripped(left[1..], s, blank);
    }
  }

  lemma {:induction false} RightStripped(s: string, right: string, blank: char -> bool)
    requires AllBlank(right, blank) && (s != "" ==> !blank(s[|s| - 1]))
    ensures StripRight(s + right, blank) == s
  {
    if right == "" {
      assert s + right == s;
    } else {
      assert (s + right)[..|s + right| - 1] == s + right[..|right| - 1];
      RightStripped(s, right[..|right| - 1], blank);
    }
  }

  /** Whatever blanks stand around a text, stripping leaves the text. */
  lemma {:induction false} Stripped(left: string, s: string, right: string, blank: char -> bool)
    requires AllBlank(left, blank) && Bare(s, blank) && AllBlank(right, blank)
    ensures StripRight(StripLeft(left + s + right, blank), blank) == s
  {
    if s == "" {
      assert left + s + right == (left + right) + "";
      LeftStripped(left + right, "", blank);
    } else {
      assert left + s + right == left + (s + right);
      LeftStripped(left, s + right, blank);
      RightStripped(s, right, blank);
    }
  }

  lemma {:induction false} LeftWhere(s: string, blank: char -> bool) returns (i: nat)
    ensures i <= |s| && StripLeft(s, blank) == s[i..] && AllBlank(s[..i], blank) && (i < |s| ==> !blank(s[i]))
  {
    if s != "" && blank(s[0]) {
      var k := LeftWhere(s[1..], blank);
      i := k + 1;
      assert s[i..] == s[1..][k..] && s[..i] == [s[0]] + s[1..][..k];
    } else {
      i := 0;
    }
  }

  lemma {:induction false} RightWhere(s: string, blank: char -> bool) returns (j: nat)
    ensures j <= |s| && StripRight(s, blank) == s[..j] && AllBlank(s[j..], blank) && (j > 0 ==> !blank(s[j - 1]))
  {
    if s != "" && blank(s[|s| - 1]) {
      var front := s[..|s| - 1];
      j := RightWhere(front, blank);
      assert s[..j] == front[..j] && s[j..] == front[j..] + [s[|s| - 1]];
    } else {
      j := |s|;
      assert s[..j] == s;
    }
  }

  /** And every text has blanks, or none, around what stripping leaves. */
  lemma {:induction false} StripWhere(s: string, blank: char -> bool) returns (i: nat, j: nat)
    ensures i <= j <= |s| && StripRight(StripLeft(s, blank), blank) == s[i..j]
    ensures AllBlank(s[..i], blank) && Bare(s[i..j], blank) && AllBlank(s[j..], blank)
    ensures s == s[..i] + s[i..j] + s[j..]
  {
    i := LeftWhere(s, blank);
    var rest := s[i..];
    var k := RightWhere(rest, blank);
    j := i + k;
    assert rest[..k] == s[i..j] && rest[k..] == s[j..];
    if k > 0 { assert s[i..j][0] == s[i] && s[i..j][k - 1] == rest[k - 1]; }
  }
}
