/** Python's `str.splitlines(keepends=True)` and `"".join`, and when they undo each other. */
module TextLines {

  /** The single characters `splitlines` breaks at; `\r\n` counts as one break. */
  predicate IsBreak(c: char) {
    c == '\n' || c == '\r' || c == '\U{B}' || c == '\U{C}' || c == '\U{1C}' || c == '\U{1D}' ||
    c == '\U{1E}' || c == '\U{85}' || c == '\U{2028}' || c == '\U{2029}'
  }

  /** Where the first line of `s` ends, its break included. */
  function LineEnd(s: string): (k: nat)
    ensures k <= |s| && (s != "" ==> 0 < k)
  {
    if s == "" then 0
    else if s[0] == '\r' && 1 < |s| && s[1] == '\n' then 2
    else if IsBreak(s[0]) then 1
    else 1 + LineEnd(s[1..])
  }

  function SplitLines(s: string): seq<string> {
    if s == "" then [] else [s[..LineEnd(s)]] + SplitLines(s[LineEnd(s)..])
  }

  function Join(lines: seq<string>): string {
    if lines == [] then "" else lines[0] + Join(lines[1..])
  }

  /** One line: nothing after its break, and not empty. */
  predicate IsLine(l: string) {
    l != "" && LineEnd(l) == |l|
  }

  /** `next` may follow `l` without being absorbed into it. */
  predicate MayFollow(l: string, next: string) {
    l != "" && next != "" && IsBreak(l[|l| - 1]) && !(l[|l| - 1] == '\r' && next[0] == '\n')
  }

  predicate IsLineList(lines: seq<string>) {
    && (forall i :: 0 <= i < |lines| ==> IsLine(lines[i]))
    && (forall i :: 0 <= i < |lines| - 1 ==> MayFollow(lines[i], lines[i + 1]))
  }

  lemma {:induction false} LineEndOfLine(l: string, rest: string)
    requires IsLine(l)
    requires rest == "" || MayFollow(l, rest)
    ensures LineEnd(l + rest) == |l|
  {
    if rest == "" {
      assert l + rest == l;
    } else if |l| == 1 || (l[0] == '\r' && l[1] == '\n') || IsBreak(l[0]) {
      assert (l + rest)[0] == l[0];
      assert |l| == 1 ==> (l + rest)[1] == rest[0];
    } else {
      assert (l + rest)[1..] == l[1..] + rest;
      LineEndOfLine(l[1..], rest);
    }
  }

  lemma {:induction false} FirstLine(s: string)
    requires s != ""
    ensures IsLine(s[..LineEnd(s)])
    ensures LineEnd(s) < |s| ==> MayFollow(s[..LineEnd(s)], s[LineEnd(s)..])
  {
    var k := LineEnd(s);
    if (s[0] == '\r' && 1 < |s| && s[1] == '\n') || IsBreak(s[0]) {
      assert s[..k][0] == s[0];
    } else {
      assert s[..k][1..] == s[1..][..k - 1];
      if |s| > 1 {
        FirstLine(s[1..]);
      }
    }
  }

  /** Splitting yields lines that may stand next to each other ... */
  lemma {:induction false} SplitIsLineList(s: string)
    ensures IsLineList(SplitLines(s)) && Join(SplitLines(s)) == s
    decreases |s|
  {
    if s != "" {
      var k := LineEnd(s);
      FirstLine(s);
      SplitIsLineList(s[k..]);
      assert s == s[..k] + s[k..];
      assert SplitLines(s)[1..] == SplitLines(s[k..]);
      if k < |s| {
        assert SplitLines(s[k..])[0] == s[k..][..LineEnd(s[k..])];
      }
    }
  }

  /** ... and joining any such lines is undone by splitting. */
  lemma {:induction false} SplitJoin(lines: seq<string>)
    requires IsLineList(lines)
    ensures SplitLines(Join(lines)) == lines
  {
    if lines != [] {
      var rest := Join(lines[1..]);
      if |lines| > 1 {
        assert rest == lines[1] + Join(lines[1..][1..]);
      }
      LineEndOfLine(lines[0], rest);
      SplitJoin(lines[1..]);
      assert (lines[0] + rest)[..|lines[0]|] == lines[0];
      assert (lines[0] + rest)[|lines[0]|..] == rest;
    }
  }
}
