/** How the applier and the review read the path on a `---` or `+++` line. */
module PatchNames {
  import opened Texts
  import opened TextLines
  import opened PatchSelection

  const DEV_NULL := "/dev/null"

  function Slashed(s: string): (t: string)
    ensures |t| == |s| && '\\' !in t
    ensures forall i :: 0 <= i < |s| ==> if s[i] == '\\' then t[i] == '/' else t[i] == s[i]
  {
    seq(|s|, i requires 0 <= i < |s| => if s[i] == '\\' then '/' else s[i])
  }

  function Unprefixed(p: string): string {
    if StartsWith(p, "a/") || StartsWith(p, "b/") then p[2..] else p
  }

  /** A header line's text before its timestamp. */
  function Base(rest: string): string { Strip(BeforeTab(rest)) }

  /** `_normalized_patch_path`. */
  function Normalized(rest: string): string { Unprefixed(Slashed(Base(rest))) }

  /** What follows the four characters that introduce a header line. */
  function RestOf(text: string): string { text[if |text| < 4 then |text| else 4..] }

  // ----- Stripping -----

  lemma {:induction false} StripLeftCuts(s: string) returns (k: nat)
    ensures k <= |s| && StripLeft(s, IsSpace) == s[k..] && (k < |s| ==> !IsSpace(s[k]))
  {
    if s != "" && IsSpace(s[0]) {
      var j := StripLeftCuts(s[1..]);
      k := j + 1;
      assert s[1..][j..] == s[k..];
    } else {
      k := 0;
    }
  }

  lemma {:induction false} StripRightCuts(s: string) returns (k: nat)
    ensures k <= |s| && StripRight(s, IsSpace) == s[..k] && (k > 0 ==> !IsSpace(s[k - 1]))
    ensures s != "" && !IsSpace(s[0]) ==> k > 0
  {
    if s != "" && IsSpace(s[|s| - 1]) {
      k := StripRightCuts(s[..|s| - 1]);
      assert s[..|s| - 1][..k] == s[..k];
    } else {
      k := |s|;
      assert s[..k] == s;
    }
  }

  lemma {:induction false} BeforeTabCuts(s: string) returns (k: nat)
    ensures k <= |s| && BeforeTab(s) == s[..k] && (k < |s| ==> s[k] == '\t')
    ensures forall i :: 0 <= i < k ==> s[i] != '\t'
  {
    if s == "" || s[0] == '\t' {
      k := 0;
    } else {
      var j := BeforeTabCuts(s[1..]);
      k := j + 1;
      assert s[..k] == [s[0]] + s[1..][..j];
      forall i | 0 <= i < k ensures s[i] != '\t' {
        if i > 0 { assert s[i] == s[1..][i - 1]; }
      }
    }
  }

  /** Neither end blank, no tab: what is left of a path once it is read. */
  predicate Trimmed(s: string) {
    s == "" || (!IsSpace(s[0]) && !IsSpace(s[|s| - 1]))
  }

  lemma StripFixed(s: string)
    requires Trimmed(s)
    ensures Strip(s) == s
  {
  }

  lemma StripTrims(s: string)
    ensures Trimmed(Strip(s))
  {
    var i := StripLeftCuts(s);
    var left := s[i..];
    var k := StripRightCuts(left);
  }

  // ----- The review and the applier cut the same text -----

  lemma BlankFront(c: char, y: string)
    requires IsSpace(c)
    ensures Strip([c] + y) == Strip(y)
  {
    assert ([c] + y)[1..] == y;
  }

  lemma {:induction false} StripRightBlank(y: string, c: char)
    requires IsSpace(c)
    ensures StripRight(y + [c], IsSpace) == StripRight(y, IsSpace)
  {
    assert (y + [c])[..|y|] == y;
  }

  lemma {:induction false} BeforeTabSnoc(f: string, c: char)
    ensures BeforeTab(f + [c]) == BeforeTab(f) || (BeforeTab(f) == f && BeforeTab(f + [c]) == f + [c])
  {
    if f == "" {
      assert f + [c] == [c] && [c][1..] == "";
    } else if f[0] != '\t' {
      assert (f + [c])[1..] == f[1..] + [c];
      BeforeTabSnoc(f[1..], c);
    }
  }

  lemma {:induction false} RightOrder(r: string)
    ensures StripRight(BeforeTab(StripRight(r, IsSpace)), IsSpace) == StripRight(BeforeTab(r), IsSpace)
    decreases |r|
  {
    if r != "" && IsSpace(r[|r| - 1]) {
      var f, c := r[..|r| - 1], r[|r| - 1];
      assert r == f + [c];
      RightOrder(f);
      BeforeTabSnoc(f, c);
      StripRightBlank(f, c);
    }
  }

  /**
   * Stripping before or after the timestamp is cut off makes no difference, unless a tab stands in front of the path.
   */
  lemma {:induction false} SameBase(r: string)
    requires Base(r) != ""
    ensures Strip(BeforeTab(Strip(r))) == Base(r)
    decreases |r|
  {
    if r != "" && IsSpace(r[0]) {
      if r[0] == '\t' {
        assert false;
      } else {
        BlankFront(r[0], BeforeTab(r[1..]));
        SameBase(r[1..]);
      }
    } else {
      RightOrder(r);
      var k := StripRightCuts(r);
      FrontStays(r);
      FrontStays(r[..k]);
    }
  }

  /** With a first character that is not blank there is nothing to strip on the left. */
  lemma FrontStays(r: string)
    requires r != "" ==> !IsSpace(r[0])
    ensures StripLeft(r, IsSpace) == r && StripLeft(BeforeTab(r), IsSpace) == BeforeTab(r)
  {
    if r != "" {
      var k := BeforeTabCuts(r);
      assert IsSpace('\t');
      assert k > 0;
    }
  }

  // ----- Names without breaks -----

  /** Whatever breaks there are stand at the end. */
  predicate BreaksAtEnd(s: string) {
    forall i, j :: 0 <= i <= j < |s| && IsBreak(s[i]) ==> IsBreak(s[j])
  }

  predicate NoBreaks(s: string) { forall i :: 0 <= i < |s| ==> !IsBreak(s[i]) }

  predicate NoTabs(s: string) { forall i :: 0 <= i < |s| ==> s[i] != '\t' }

  lemma {:induction false} LineBreaksAtEnd(l: string)
    requires IsLine(l)
    ensures BreaksAtEnd(l)
  {
    if !IsBreak(l[0]) && |l| > 1 {
      LineBreaksAtEnd(l[1..]);
      forall i, j | 0 <= i <= j < |l| && IsBreak(l[i]) ensures IsBreak(l[j]) {
        assert l[1..][i - 1] == l[i] && l[1..][j - 1] == l[j];
      }
    }
  }

  lemma {:induction false} BaseIsClean(r: string)
    requires BreaksAtEnd(r)
    ensures Trimmed(Base(r)) && NoTabs(Base(r)) && NoBreaks(Base(r))
  {
    var k := BeforeTabCuts(r);
    var y := r[..k];
    var i := StripLeftCuts(y);
    var left := y[i..];
    var e := StripRightCuts(left);
    var b := left[..e];
    assert Base(r) == b;
    StripTrims(y);
    assert forall x :: 0 <= x < |b| ==> b[x] == r[i + x];
    forall x | 0 <= x < |b| ensures !IsBreak(b[x]) {
      assert b[|b| - 1] == r[i + |b| - 1] && b[x] == r[i + x];
    }
  }

  // ----- Spelling a name -----

  /** A path as some header can carry it, behind `b/` if not on its own. */
  predicate Carried(n: string) {
    NoTabs(n) && NoBreaks(n) && (n != "" ==> !IsSpace(n[|n| - 1]))
  }

  lemma {:induction false} CarriedBack(raw: string)
    requires Trimmed(raw) && NoTabs(raw)
    ensures Base(raw + "\n") == raw
  {
    var r := raw + "\n";
    assert NoTabs(r);
    var k := BeforeTabCuts(r);
    assert r[..k] == r;
    if raw == "" {
      assert r == "\n" && "\n"[1..] == "";
    } else {
      assert r[0] == raw[0];
      StripRightBlank(raw, '\n');
    }
  }

  lemma CarriedName(raw: string)
    requires Trimmed(raw) && NoTabs(raw) && raw != ""
    ensures PathOf("+++ " + raw + "\n") == if StartsWith(raw, "b/") then raw[2..] else raw
  {
    var text := "+++ " + raw + "\n";
    assert text[4..] == raw + "\n";
    CarriedBack(raw);
    SameBase(raw + "\n");
  }

  lemma BehindB(n: string)
    requires Carried(n)
    ensures Trimmed("b/" + n) && NoTabs("b/" + n) && NoBreaks("b/" + n)
    ensures Slashed("b/" + n) == "b/" + Slashed(n) && Normalized("b/" + n + "\n") == Slashed(n)
    ensures PathOf("+++ " + ("b/" + n) + "\n") == n
  {
    var raw := "b/" + n;
    assert raw[2..] == n && raw[..2] == "b/";
    CarriedBack(raw);
    CarriedName(raw);
    assert Slashed(raw) == "b/" + Slashed(n);
    assert ("b/" + Slashed(n))[2..] == Slashed(n) && ("b/" + Slashed(n))[..2] == "b/";
  }
}
