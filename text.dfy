/** The string operations of JavaScript that the modelled code relies on:
    `String.prototype.trim`, `Array.prototype.join`, `startsWith` and
    `substring`. */
module Text {

  /** The WhiteSpace and LineTerminator code points of ECMAScript, which
      `trim` removes from both ends: TAB, LF, VT, FF, CR, SPACE, NBSP, the
      remaining space separators of Unicode category Zs, LINE SEPARATOR,
      PARAGRAPH SEPARATOR and the byte order mark. */
  predicate IsWhitespace(c: char) {
    || c == '\t' || c == '\n' || c == '\U{000B}' || c == '\U{000C}' || c == '\r'
    || c == ' ' || c == '\U{00A0}' || c == '\U{1680}'
    || ('\U{2000}' <= c <= '\U{200A}')
    || c == '\U{2028}' || c == '\U{2029}' || c == '\U{202F}' || c == '\U{205F}'
    || c == '\U{3000}' || c == '\U{FEFF}'
  }

  predicate AllWhitespace(s: string) {
    forall i :: 0 <= i < |s| ==> IsWhitespace(s[i])
  }

  lemma AllWhitespaceConcat(a: string, b: string)
    requires AllWhitespace(a) && AllWhitespace(b)
    ensures AllWhitespace(a + b)
  {
    forall i | 0 <= i < |a + b| ensures IsWhitespace((a + b)[i]) {
      if i < |a| {
        assert (a + b)[i] == a[i];
      } else {
        assert (a + b)[i] == b[i - |a|];
      }
    }
  }

  /** `s` with its leading whitespace removed. */
  function TrimStart(s: string): string {
    if |s| > 0 && IsWhitespace(s[0]) then TrimStart(s[1..]) else s
  }

  /** `TrimStart` removes a prefix made of whitespace only, and stops at the
      first character that is not whitespace. */
  lemma {:induction false} TrimStartSpec(s: string)
    ensures var r := TrimStart(s);
      && |r| <= |s| && r == s[|s| - |r|..]
      && AllWhitespace(s[..|s| - |r|])
      && (r == [] || !IsWhitespace(r[0]))
  {
    if |s| > 0 && IsWhitespace(s[0]) {
      TrimStartSpec(s[1..]);
      var r := TrimStart(s[1..]);
      var cut := |s| - |r|;
      assert s[1..][..cut - 1] == s[1..cut];
      assert s[..cut] == [s[0]] + s[1..cut];
      AllWhitespaceConcat([s[0]], s[1..cut]);
      assert s[1..][cut - 1..] == s[cut..];
    } else {
      assert s[..0] == [];
    }
  }

  /** `s` with its trailing whitespace removed. */
  function TrimEnd(s: string): string {
    if |s| > 0 && IsWhitespace(s[|s| - 1]) then TrimEnd(s[..|s| - 1]) else s
  }

  /** `TrimEnd` removes a suffix made of whitespace only, and stops at the
      last character that is not whitespace. */
  lemma {:induction false} TrimEndSpec(s: string)
    ensures var r := TrimEnd(s);
      && |r| <= |s| && r == s[..|r|]
      && AllWhitespace(s[|r|..])
      && (r == [] || !IsWhitespace(r[|r| - 1]))
  {
    if |s| > 0 && IsWhitespace(s[|s| - 1]) {
      TrimEndSpec(s[..|s| - 1]);
      var r := TrimEnd(s[..|s| - 1]);
      assert s[..|s| - 1][|r|..] == s[|r|..|s| - 1];
      assert s[|r|..] == s[|r|..|s| - 1] + [s[|s| - 1]];
      AllWhitespaceConcat(s[|r|..|s| - 1], [s[|s| - 1]]);
      assert s[..|s| - 1][..|r|] == s[..|r|];
    } else {
      assert s[|s|..] == [];
    }
  }

  /** JavaScript's `s.trim()`. */
  function Trim(s: string): string {
    TrimEnd(TrimStart(s))
  }

  /** `s.trim()` is empty exactly when every character of `s` is whitespace;
      this is what makes a string falsy after trimming. */
  lemma TrimEmptyIff(s: string)
    ensures Trim(s) == "" <==> AllWhitespace(s)
  {
    var t := TrimStart(s);
    TrimStartSpec(s);
    TrimEndSpec(t);
    assert t != [] ==> t[0] == s[|s| - |t|];
    assert Trim(s) == "" ==> AllWhitespace(t[0..]);
    assert s[..|s|] == s;
  }

  /** JavaScript's `parts.join(sep)`. */
  function Join(parts: seq<string>, sep: string): string
    decreases |parts|
  {
    if |parts| == 0 then ""
    else if |parts| == 1 then parts[0]
    else parts[0] + sep + Join(parts[1..], sep)
  }

  /** With a non-empty separator, the joined string is empty exactly when
      there is nothing to join or a single empty part. */
  lemma JoinEmptyIff(parts: seq<string>, sep: string)
    requires sep != ""
    ensures Join(parts, sep) == "" <==> |parts| == 0 || (|parts| == 1 && parts[0] == "")
  {
    if |parts| >= 2 {
      assert |Join(parts, sep)| >= |sep|;
    }
  }

  /** `t` occurs in `s` starting at index `i`. */
  predicate OccursAt(s: string, t: string, i: nat) {
    i + |t| <= |s| && s[i..i + |t|] == t
  }

  /** An occurrence inside an occurrence is an occurrence. */
  lemma OccursAtTransitive(s: string, t: string, u: string, i: nat, j: nat)
    requires OccursAt(s, t, i) && OccursAt(t, u, j)
    ensures OccursAt(s, u, i + j)
  {
    forall n | 0 <= n < |u| ensures s[i + j + n] == u[n] {
      assert u[n] == t[j..j + |u|][n] == t[j + n];
      assert t[j + n] == s[i..i + |t|][j + n] == s[i + j + n];
    }
  }

  /** Every part occurs, unchanged, in the joined string. */
  lemma {:induction false} JoinPartOccurs(parts: seq<string>, sep: string, k: nat) returns (offset: nat)
    requires k < |parts|
    ensures OccursAt(Join(parts, sep), parts[k], offset)
    decreases |parts|
  {
    if |parts| == 1 {
      offset := 0;
    } else if k == 0 {
      offset := 0;
      var j := Join(parts, sep);
      assert j[..|parts[0]|] == parts[0];
    } else {
      var inner := JoinPartOccurs(parts[1..], sep, k - 1);
      var head := parts[0] + sep;
      offset := |head| + inner;
      var j := Join(parts, sep);
      assert j == head + Join(parts[1..], sep);
      assert j[offset..offset + |parts[k]|] == Join(parts[1..], sep)[inner..inner + |parts[k]|];
    }
  }

  /** `s` starts with `prefix`. */
  predicate StartsWith(s: string, prefix: string) {
    |prefix| <= |s| && s[..|prefix|] == prefix
  }

  /** JavaScript's `s.substring(n)`: the characters from index `n` on, or
      the empty string when `n` is past the end. */
  function Drop(s: string, n: nat): (r: string)
    ensures |r| == if n <= |s| then |s| - n else 0
    ensures n <= |s| ==> s == s[..n] + r
  {
    if n <= |s| then s[n..] else ""
  }
}
