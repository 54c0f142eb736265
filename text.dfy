/** String operations the components use: String.prototype.trim, and
    joining / splitting a query string on a separator. */
module Text {

  /** The characters that String.prototype.trim removes: the ECMAScript
      WhiteSpace and LineTerminator code points. */
  predicate IsWhitespace(c: char)
  {
    || c == '\t' || c == '\n' || c == '\U{000B}' || c == '\U{000C}' || c == '\r'
    || c == ' ' || c == '\U{00A0}' || c == '\U{1680}'
    || ('\U{2000}' <= c <= '\U{200A}')
    || c == '\U{2028}' || c == '\U{2029}' || c == '\U{202F}' || c == '\U{205F}'
    || c == '\U{3000}' || c == '\U{FEFF}'
  }

  /** Every character of s is whitespace (the empty string included). */
  predicate IsBlank(s: string)
  {
    forall i :: 0 <= i < |s| ==> IsWhitespace(s[i])
  }

  /** s without its leading whitespace. */
  function TrimStart(s: string): (r: string)
    ensures |r| <= |s| && r == s[|s| - |r|..]
    ensures IsBlank(s[..|s| - |r|])
    ensures r == [] || !IsWhitespace(r[0])
  {
    if s == [] || !IsWhitespace(s[0]) then s
    else
      var r := TrimStart(s[1..]);
      assert s[..|s| - |r|] == [s[0]] + s[1..][..|s| - 1 - |r|];
      r
  }

  /** s without its trailing whitespace. */
  function TrimEnd(s: string): (r: string)
    ensures |r| <= |s| && r == s[..|r|]
    ensures IsBlank(s[|r|..])
    ensures r == [] || !IsWhitespace(r[|r| - 1])
  {
    if s == [] || !IsWhitespace(s[|s| - 1]) then s
    else
      var r := TrimEnd(s[..|s| - 1]);
      assert s[|r|..] == s[..|s| - 1][|r|..] + [s[|s| - 1]];
      r
  }

  /** r is the part of s starting at k, with only whitespace before and
      after it. */
  predicate IsTrimOf(s: string, r: string, k: nat)
  {
    k + |r| <= |s| && r == s[k..k + |r|] && IsBlank(s[..k]) && IsBlank(s[k + |r|..])
  }

  /** A blank-prefixed suffix t of s, cut down to a prefix r of t followed
      by blanks, is a trim of s. */
  lemma TrimOfSuffixPrefix(s: string, t: string, r: string)
    requires |t| <= |s| && t == s[|s| - |t|..] && IsBlank(s[..|s| - |t|])
    requires |r| <= |t| && r == t[..|r|] && IsBlank(t[|r|..])
    ensures IsTrimOf(s, r, |s| - |t|)
  {
    var k := |s| - |t|;
    assert s[k..k + |r|] == t[..|r|];
    assert s[k + |r|..] == t[|r|..];
  }

  /** `s.trim()`: s without its leading and trailing whitespace. */
  function Trim(s: string): (r: string)
    ensures |r| <= |s|
    ensures exists k: nat :: IsTrimOf(s, r, k)
    ensures r == [] || (!IsWhitespace(r[0]) && !IsWhitespace(r[|r| - 1]))
  {
    var t := TrimStart(s);
    var r := TrimEnd(t);
    TrimOfSuffixPrefix(s, t, r);
    r
  }

  /** `s.trim()` is falsy, the empty string, exactly when s is blank. */
  lemma TrimEmptyIffBlank(s: string)
    ensures Trim(s) == [] <==> IsBlank(s)
  {
    var t := TrimStart(s);
    var k := |s| - |t|;
    if Trim(s) == [] {
      assert IsBlank(t[0..]);
      assert t[0..] == t;
      assert s[..k] == s;
    }
    if IsBlank(s) && t != [] {
      assert false;
    }
  }

  /** `!s.trim()`: the trimmed string is empty. */
  function TrimsToEmpty(s: string): (b: bool)
    ensures b <==> IsBlank(s)
  {
    TrimEmptyIffBlank(s);
    Trim(s) == []
  }

  // ---------------------------------------------------------------------
  // Joining and splitting on a separator

  /** `parts.join(sep)`: starts with the first part and ends with the
      last. */
  function Join(parts: seq<string>, sep: char): (r: string)
    ensures |parts| == 0 ==> r == ""
    ensures |parts| >= 1 ==> parts[0] <= r
    ensures |parts| >= 1 ==> |parts[|parts| - 1]| <= |r| && r[|r| - |parts[|parts| - 1]|..] == parts[|parts| - 1]
  {
    if |parts| == 0 then ""
    else if |parts| == 1 then parts[0]
    else
      var rest := Join(parts[1..], sep);
      var r := parts[0] + [sep] + rest;
      assert parts[1..][|parts[1..]| - 1] == parts[|parts| - 1];
      assert r[|r| - |rest|..] == rest;
      r
  }

  lemma JoinCons(x: string, rest: seq<string>, sep: char)
    requires |rest| >= 1
    ensures Join([x] + rest, sep) == x + [sep] + Join(rest, sep)
  {
    assert ([x] + rest)[1..] == rest;
  }

  lemma ConcatAround(x: string, y: string, r: string, sep: char)
    ensures (x + [sep] + y) + [sep] + r == x + [sep] + (y + [sep] + r)
  {
  }

  /** A piece holding the separator joins to the same string as its two
      halves placed side by side. */
  lemma JoinSplitPiece(x: string, y: string, rest: seq<string>, sep: char)
    requires |rest| >= 1
    ensures Join([x + [sep] + y] + rest, sep) == Join([x] + ([y] + rest), sep)
  {
    var yr := [y] + rest;
    JoinCons(x + [sep] + y, rest, sep);
    JoinCons(y, rest, sep);
    JoinCons(x, yr, sep);
    ConcatAround(x, y, Join(rest, sep), sep);
  }

  /** `s.split(sep)`: the pieces between separators, at least one. */
  function Split(s: string, sep: char): (r: seq<string>)
    ensures |r| >= 1
  {
    if s == [] then [""]
    else
      var rest := Split(s[1..], sep);
      if s[0] == sep then [""] + rest else [[s[0]] + rest[0]] + rest[1..]
  }

  lemma {:induction false} SplitFree(x: string, sep: char)
    requires sep !in x
    ensures Split(x, sep) == [x]
  {
    if x != [] {
      SplitFree(x[1..], sep);
      assert [x[0]] + x[1..] == x;
    }
  }

  lemma {:induction false} SplitAtFirst(x: string, rest: string, sep: char)
    requires sep !in x
    ensures Split(x + [sep] + rest, sep) == [x] + Split(rest, sep)
  {
    if x == [] {
      assert x + [sep] + rest == [sep] + rest;
      assert ([sep] + rest)[1..] == rest;
    } else {
      SplitAtFirst(x[1..], rest, sep);
      assert (x + [sep] + rest)[1..] == x[1..] + [sep] + rest;
      assert [x[0]] + x[1..] == x;
    }
  }

  /** Splitting a join of separator-free parts gives the parts back. */
  lemma {:induction false} SplitJoin(parts: seq<string>, sep: char)
    requires |parts| >= 1
    requires forall i :: 0 <= i < |parts| ==> sep !in parts[i]
    ensures Split(Join(parts, sep), sep) == parts
  {
    if |parts| == 1 {
      SplitFree(parts[0], sep);
    } else {
      SplitJoin(parts[1..], sep);
      SplitAtFirst(parts[0], Join(parts[1..], sep), sep);
      assert [parts[0]] + parts[1..] == parts;
    }
  }

  /** Positions i and i + 1 of q both hold the separator. */
  predicate DoubledAt(q: string, sep: char, i: nat)
    requires i + 1 < |q|
  {
    q[i] == sep && q[i + 1] == sep
  }

  /** a, a separator and b hold no doubled separator when a holds no
      separator and b neither starts with one nor holds a doubled one. */
  lemma NoDoubleAcrossSeam(a: string, b: string, sep: char)
    requires sep !in a && b != [] && b[0] != sep
    requires forall j :: 0 <= j < |b| - 1 ==> !DoubledAt(b, sep, j)
    ensures forall i :: 0 <= i < |a| + |b| ==> !DoubledAt(a + [sep] + b, sep, i)
  {
    var q := a + [sep] + b;
    assert q[..|a|] == a;
    assert q[|a| + 1..] == b;
    forall i | 0 <= i < |a| ensures !DoubledAt(q, sep, i) {
      assert q[i] == a[i];
      assert a[i] in a;
    }
    assert q[|a| + 1] == b[0];
    forall i | |a| < i < |a| + |b| ensures !DoubledAt(q, sep, i) {
      var j := i - |a| - 1;
      assert q[i] == b[j] && q[i + 1] == b[j + 1];
      assert !DoubledAt(b, sep, j);
    }
  }

  /** A join of non-empty, separator-free parts neither starts nor ends with
      the separator and never holds two separators in a row. */
  lemma {:induction false} JoinNoEmptyPiece(parts: seq<string>, sep: char)
    requires |parts| >= 1
    requires forall i :: 0 <= i < |parts| ==> parts[i] != "" && sep !in parts[i]
    ensures var q := Join(parts, sep);
      q != "" && q[0] != sep && q[|q| - 1] != sep &&
      forall i :: 0 <= i < |q| - 1 ==> !DoubledAt(q, sep, i)
  {
    var q := Join(parts, sep);
    var a := parts[0];
    assert q[0] == a[0] && a[0] in a;
    if |parts| == 1 {
      assert q == a;
      assert q[|q| - 1] in a;
      forall i | 0 <= i < |q| - 1 ensures !DoubledAt(q, sep, i) {
        assert q[i] in a;
      }
    } else {
      var rest := parts[1..];
      var b := Join(rest, sep);
      JoinNoEmptyPiece(rest, sep);
      assert q == a + [sep] + b;
      assert a[0] in a;
      NoDoubleAcrossSeam(a, b, sep);
      assert q[|q| - 1] == b[|b| - 1];
    }
  }
}
