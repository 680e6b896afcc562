/**
 * The few JavaScript string operations the task manager relies on: `trim`,
 * the `\s` character class, `toLowerCase`/`toUpperCase`, `includes`,
 * `startsWith`, `split(" ")` and the `<` order on strings.
 *
 * A string is a sequence of Unicode scalar values; case mapping covers the
 * ASCII letters only.
 */
module JsString {

  /** The characters removed by `String.prototype.trim` and matched by the
      regular-expression class `\s`: WhiteSpace and LineTerminator of
      ECMAScript (section 12.2 and 12.3 of ECMA-262). */
  predicate IsWhitespace(c: char) {
    c == ' ' || c == '\t' || c == '\n' || c == '\r'
    || c == '\U{000B}' || c == '\U{000C}' || c == '\U{00A0}' || c == '\U{FEFF}'
    || c == '\U{1680}' || ('\U{2000}' <= c <= '\U{200A}')
    || c == '\U{2028}' || c == '\U{2029}' || c == '\U{202F}' || c == '\U{205F}'
    || c == '\U{3000}'
  }

  predicate AllWhitespace(s: string) {
    forall i | 0 <= i < |s| :: IsWhitespace(s[i])
  }

  /** No whitespace at either end. */
  predicate Trimmed(s: string) {
    s == [] || (!IsWhitespace(s[0]) && !IsWhitespace(s[|s| - 1]))
  }

  /** Drops the leading whitespace. */
  function TrimStart(s: string): (r: string)
    decreases |s|
  {
    if s != [] && IsWhitespace(s[0]) then TrimStart(s[1..]) else s
  }

  /** What `TrimStart` leaves: a suffix not starting with whitespace, after
      whitespace only. */
  lemma {:induction false} TrimStartSpec(s: string)
    ensures var r := TrimStart(s);
            |r| <= |s| && r == s[|s| - |r|..]
            && (r == [] || !IsWhitespace(r[0]))
            && forall i | 0 <= i < |s| - |r| :: IsWhitespace(s[i])
    decreases |s|
  {
    if s != [] && IsWhitespace(s[0]) {
      TrimStartSpec(s[1..]);
      var r := TrimStart(s[1..]);
      forall i | 0 < i < |s| - |r| ensures IsWhitespace(s[i]) {
        assert s[i] == s[1..][i - 1];
      }
    }
  }

  /** Drops the trailing whitespace. */
  function TrimEnd(s: string): (r: string)
    decreases |s|
  {
    if s != [] && IsWhitespace(s[|s| - 1]) then TrimEnd(s[..|s| - 1]) else s
  }

  /** What `TrimEnd` leaves: a prefix not ending in whitespace, before
      whitespace only. */
  lemma {:induction false} TrimEndSpec(s: string)
    ensures var r := TrimEnd(s);
            |r| <= |s| && r == s[..|r|]
            && (r == [] || !IsWhitespace(r[|r| - 1]))
            && forall i | |r| <= i < |s| :: IsWhitespace(s[i])
    decreases |s|
  {
    if s != [] && IsWhitespace(s[|s| - 1]) {
      TrimEndSpec(s[..|s| - 1]);
      var r := TrimEnd(s[..|s| - 1]);
      forall i | |r| <= i < |s| - 1 ensures IsWhitespace(s[i]) {
        assert s[i] == s[..|s| - 1][i];
      }
    }
  }

  /** `s.trim()`: the result is empty exactly when `s` is all whitespace, has
      no whitespace at its ends, and is `s` itself when `s` had none there. */
  function Trim(s: string): (r: string)
    ensures |r| <= |s|
    ensures r == [] <==> AllWhitespace(s)
    ensures Trimmed(r)
    ensures Trimmed(s) ==> r == s
  {
    TrimStartSpec(s);
    TrimEndSpec(TrimStart(s));
    TrimEnd(TrimStart(s))
  }

  lemma {:induction false} TrimIdempotent(s: string)
    ensures Trim(Trim(s)) == Trim(s)
  {
    var r := Trim(s);
    assert Trimmed(r);
  }

  /** `c.toLowerCase()` on one character, ASCII letters only. */
  function LowerChar(c: char): char {
    if 'A' <= c <= 'Z' then (c as int + 32) as char else c
  }

  /** `c.toUpperCase()` on one character, ASCII letters only. */
  function UpperChar(c: char): char {
    if 'a' <= c <= 'z' then (c as int - 32) as char else c
  }

  function ToLower(s: string): (r: string)
    ensures |r| == |s|
    ensures forall i | 0 <= i < |s| :: r[i] == LowerChar(s[i])
  {
    seq(|s|, i requires 0 <= i < |s| => LowerChar(s[i]))
  }

  function ToUpper(s: string): (r: string)
    ensures |r| == |s|
    ensures forall i | 0 <= i < |s| :: r[i] == UpperChar(s[i])
  {
    seq(|s|, i requires 0 <= i < |s| => UpperChar(s[i]))
  }

  lemma LowerCharIdempotent(c: char)
    ensures LowerChar(LowerChar(c)) == LowerChar(c)
    ensures !('A' <= LowerChar(c) <= 'Z')
  {
  }

  lemma ToLowerIdempotent(s: string)
    ensures ToLower(ToLower(s)) == ToLower(s)
  {
    forall i | 0 <= i < |s| ensures ToLower(ToLower(s))[i] == ToLower(s)[i] {
      LowerCharIdempotent(s[i]);
    }
  }

  /** `s.includes(t)`: `t` occurs in `s` as a contiguous piece. */
  predicate Includes(s: string, t: string)
    decreases |s|
  {
    t <= s || (s != [] && Includes(s[1..], t))
  }

  lemma {:induction false} IncludesPiece(s: string, t: string, k: nat)
    requires k + |t| <= |s| && s[k..k + |t|] == t
    ensures Includes(s, t)
    decreases k
  {
    if k == 0 {
      assert t == s[..|t|];
    } else {
      assert s[1..][k - 1..k - 1 + |t|] == s[k..k + |t|];
      IncludesPiece(s[1..], t, k - 1);
    }
  }

  lemma {:induction false} IncludesWitness(s: string, t: string) returns (k: nat)
    requires Includes(s, t)
    ensures k + |t| <= |s| && s[k..k + |t|] == t
    decreases |s|
  {
    if t <= s {
      k := 0;
    } else {
      var k' := IncludesWitness(s[1..], t);
      k := k' + 1;
      assert s[k..k + |t|] == s[1..][k'..k' + |t|];
    }
  }

  /** Index of the first occurrence of `c`. */
  function IndexOf(s: string, c: char): (i: nat)
    requires c in s
    ensures i < |s| && s[i] == c && c !in s[..i]
  {
    if s[0] == c then 0 else 1 + IndexOf(s[1..], c)
  }

  /** `s.split(" ")`: the pieces between single spaces, in order. */
  function SplitSpaces(s: string): (r: seq<string>)
    ensures |r| >= 1
    ensures forall k | 0 <= k < |r| :: ' ' !in r[k]
    decreases |s|
  {
    if ' ' !in s then [s]
    else
      var i := IndexOf(s, ' ');
      [s[..i]] + SplitSpaces(s[i + 1..])
  }

  /** `parts.join(" ")`. */
  function JoinSpaces(parts: seq<string>): string
    requires |parts| >= 1
  {
    if |parts| == 1 then parts[0] else parts[0] + " " + JoinSpaces(parts[1..])
  }

  /** Splitting on spaces loses nothing: joining the pieces gives `s` back. */
  lemma {:induction false} JoinSplitSpaces(s: string)
    ensures JoinSpaces(SplitSpaces(s)) == s
    decreases |s|
  {
    if ' ' in s {
      var i := IndexOf(s, ' ');
      JoinSplitSpaces(s[i + 1..]);
      var parts := SplitSpaces(s);
      assert parts == [s[..i]] + SplitSpaces(s[i + 1..]);
      assert parts[0] == s[..i] && parts[1..] == SplitSpaces(s[i + 1..]);
      assert JoinSpaces(parts) == parts[0] + " " + JoinSpaces(parts[1..]);
      assert s == s[..i] + " " + s[i + 1..];
    } else {
      assert SplitSpaces(s) == [s];
    }
  }

  /** A position holding `c` with no `c` before it is the first index of `c`. */
  lemma IndexOfAt(s: string, c: char, k: int)
    requires 0 <= k < |s| && s[k] == c && c !in s[..k]
    ensures c in s && IndexOf(s, c) == k
  {
    assert s[k] in s;
    var i := IndexOf(s, c);
  }

  /** And pieces free of spaces are recovered by splitting their join. */
  lemma {:induction false} SplitJoinSpaces(parts: seq<string>)
    requires |parts| >= 1
    requires forall k | 0 <= k < |parts| :: ' ' !in parts[k]
    ensures SplitSpaces(JoinSpaces(parts)) == parts
  {
    if |parts| == 1 {
      assert JoinSpaces(parts) == parts[0];
    } else {
      var rest := JoinSpaces(parts[1..]);
      var s := parts[0] + " " + rest;
      assert JoinSpaces(parts) == s;
      var k := |parts[0]|;
      assert s[..k] == parts[0] && s[k] == ' ' && s[k + 1..] == rest;
      IndexOfAt(s, ' ', k);
      assert SplitSpaces(s) == [parts[0]] + SplitSpaces(rest);
      SplitJoinSpaces(parts[1..]);
      assert parts == [parts[0]] + parts[1..];
    }
  }

  /** `a <= b` on strings: lexicographic order of the characters' code points. */
  predicate StrLe(a: string, b: string)
    decreases |a|
  {
    a == [] || (b != [] && (a[0] < b[0] || (a[0] == b[0] && StrLe(a[1..], b[1..]))))
  }

  lemma {:induction false} StrLeReflexive(a: string)
    ensures StrLe(a, a)
    decreases |a|
  {
    if a != [] { StrLeReflexive(a[1..]); }
  }

  lemma {:induction false} StrLeTotal(a: string, b: string)
    ensures StrLe(a, b) || StrLe(b, a)
    decreases |a|
  {
    if a != [] && b != [] && a[0] == b[0] { StrLeTotal(a[1..], b[1..]); }
  }

  lemma {:induction false} StrLeTransitive(a: string, b: string, c: string)
    requires StrLe(a, b) && StrLe(b, c)
    ensures StrLe(a, c)
    decreases |a|
  {
    if a != [] && a[0] == b[0] && b[0] == c[0] {
      StrLeTransitive(a[1..], b[1..], c[1..]);
    }
  }

  lemma {:induction false} StrLeAntisymmetric(a: string, b: string)
    requires StrLe(a, b) && StrLe(b, a)
    ensures a == b
    decreases |a|
  {
    if a != [] {
      StrLeAntisymmetric(a[1..], b[1..]);
      assert a == [a[0]] + a[1..] && b == [b[0]] + b[1..];
    }
  }
}
