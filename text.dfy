/** String operations the application relies on: ECMAScript `String.prototype.trim`,
    decimal rendering of numbers inside template literals, `Array.prototype.join`,
    and a notion of "occurs verbatim at offset" for stating what prompts contain. */
module Text {

  /** The characters `trim` strips: ECMAScript WhiteSpace (TAB, VT, FF, SP, NBSP,
      ZWNBSP and the Unicode space separators) and LineTerminator (LF, CR, LS, PS). */
  predicate IsWhitespace(c: char) {
    c == '\t' || c == '\n' || c == '\U{B}' || c == '\U{C}' || c == '\r' || c == ' '
    || c == '\U{A0}' || c == '\U{1680}' || ('\U{2000}' <= c <= '\U{200A}')
    || c == '\U{2028}' || c == '\U{2029}' || c == '\U{202F}' || c == '\U{205F}'
    || c == '\U{3000}' || c == '\U{FEFF}'
  }

  /** `s` with its leading whitespace removed: a suffix of `s`. */
  function TrimStart(s: string): (r: string)
    ensures |r| <= |s| && r == s[|s| - |r|..]
    ensures forall i :: 0 <= i < |s| - |r| ==> IsWhitespace(s[i])
    ensures r == [] || !IsWhitespace(r[0])
  {
    if s == [] || !IsWhitespace(s[0]) then s else TrimStart(s[1..])
  }

  /** `s` with its trailing whitespace removed: a prefix of `s`. */
  function TrimEnd(s: string): (r: string)
    ensures |r| <= |s| && r == s[..|r|]
    ensures forall i :: |r| <= i < |s| ==> IsWhitespace(s[i])
    ensures r == [] || !IsWhitespace(r[|r| - 1])
  {
    if s == [] || !IsWhitespace(s[|s| - 1]) then s else TrimEnd(s[..|s| - 1])
  }

  /** No whitespace at either end. */
  predicate Trimmed(s: string) {
    s == [] || (!IsWhitespace(s[0]) && !IsWhitespace(s[|s| - 1]))
  }

  /** `s.trim()`: the contiguous part of `s` left once every leading and every
      trailing whitespace character is removed. */
  function Trim(s: string): (r: string)
    ensures Trimmed(r)
    ensures var k := |s| - |TrimStart(s)|;
      k + |r| <= |s| && r == s[k..k + |r|]
      && (forall i :: 0 <= i < k ==> IsWhitespace(s[i]))
      && (forall i :: k + |r| <= i < |s| ==> IsWhitespace(s[i]))
  {
    var t := TrimStart(s);
    var r := TrimEnd(t);
    TrimLayout(s, t, r, |s| - |TrimStart(s)|);
    r
  }

  /** A prefix `r` of the suffix `t` of `s` that starts at `k`, with
      whitespace only before `t` and after `r` and none at the ends of `r`,
      is a slice of `s` with whitespace on both sides. */
  lemma TrimLayout(s: string, t: string, r: string, k: nat)
    requires |t| <= |s| && t == s[|s| - |t|..] && k == |s| - |t|
    requires forall i :: 0 <= i < k ==> IsWhitespace(s[i])
    requires t == [] || !IsWhitespace(t[0])
    requires |r| <= |t| && r == t[..|r|]
    requires forall i :: |r| <= i < |t| ==> IsWhitespace(t[i])
    requires r == [] || !IsWhitespace(r[|r| - 1])
    ensures Trimmed(r)
    ensures k + |r| <= |s| && r == s[k..k + |r|]
    ensures forall i :: 0 <= i < k ==> IsWhitespace(s[i])
    ensures forall i :: k + |r| <= i < |s| ==> IsWhitespace(s[i])
  {
    forall i | k + |r| <= i < |s|
      ensures IsWhitespace(s[i])
    {
      assert s[i] == t[i - k];
    }
    if r != [] {
      assert r[0] == t[0];
    }
  }

  /** Trimming a string that has no whitespace at its ends changes nothing. */
  lemma TrimOfTrimmed(s: string)
    requires Trimmed(s)
    ensures Trim(s) == s
  {
  }

  lemma TrimIdempotent(s: string)
    ensures Trim(Trim(s)) == Trim(s)
  {
    TrimOfTrimmed(Trim(s));
  }

  /** A string of whitespace only (the empty string included). */
  predicate IsBlank(s: string) {
    forall i :: 0 <= i < |s| ==> IsWhitespace(s[i])
  }

  /** `!s.trim()` holds, i.e. trimming leaves nothing, exactly for blank strings. */
  lemma BlankIffTrimEmpty(s: string)
    ensures IsBlank(s) <==> Trim(s) == []
  {
    if Trim(s) != [] {
      assert !IsWhitespace(s[|s| - |TrimStart(s)|]);
    }
  }

  /** `s.length`: JavaScript counts UTF-16 code units, so a character
      outside the Basic Multilingual Plane counts twice. */
  function Utf16Length(s: string): (n: nat)
    ensures |s| <= n <= 2 * |s|
    ensures (forall i :: 0 <= i < |s| ==> s[i] <= '\U{FFFF}') ==> n == |s|
    ensures |s| == 1 ==> n == if s[0] <= '\U{FFFF}' then 1 else 2
  {
    if s == [] then 0 else (if s[0] <= '\U{FFFF}' then 1 else 2) + Utf16Length(s[1..])
  }

  /** The length of a concatenation is the sum of the lengths. */
  lemma {:induction false} Utf16LengthConcat(a: string, b: string)
    ensures Utf16Length(a + b) == Utf16Length(a) + Utf16Length(b)
    decreases |a|
  {
    if a == [] {
      assert a + b == b;
    } else {
      assert (a + b)[1..] == a[1..] + b;
      Utf16LengthConcat(a[1..], b);
    }
  }

  /** Appending a character of the Basic Multilingual Plane adds one unit. */
  lemma {:induction false} Utf16LengthAppend(s: string, c: char)
    requires c <= '\U{FFFF}'
    ensures Utf16Length(s + [c]) == Utf16Length(s) + 1
  {
    if s == [] {
      assert [] + [c] == [c];
    } else {
      assert (s + [c])[1..] == s[1..] + [c];
      Utf16LengthAppend(s[1..], c);
    }
  }

  predicate IsDigit(c: char) {
    '0' <= c <= '9'
  }

  function DigitChar(d: nat): (c: char)
    requires d < 10
    ensures IsDigit(c)
  {
    ('0' as int + d) as char
  }

  function DigitValue(c: char): (d: nat)
    requires IsDigit(c)
    ensures d < 10 && DigitChar(d) == c
  {
    c as int - '0' as int
  }

  /** The decimal text that a template literal produces for a non-negative
      integer (`${n}`): digits only, no leading zero. */
  function NatToString(n: nat): (s: string)
    ensures |s| >= 1
    ensures forall k :: 0 <= k < |s| ==> IsDigit(s[k])
    ensures s[0] == '0' ==> n == 0
    decreases n
  {
    if n < 10 then [DigitChar(n)] else NatToString(n / 10) + [DigitChar(n % 10)]
  }

  /** The value of a string of decimal digits. */
  function ParseDecimal(s: string): nat
    requires forall k :: 0 <= k < |s| ==> IsDigit(s[k])
  {
    if s == [] then 0 else 10 * ParseDecimal(s[..|s| - 1]) + DigitValue(s[|s| - 1])
  }

  lemma {:induction false} ParseNatToString(n: nat)
    ensures ParseDecimal(NatToString(n)) == n
    decreases n
  {
    if n >= 10 {
      var s := NatToString(n);
      assert s[..|s| - 1] == NatToString(n / 10);
      ParseNatToString(n / 10);
    }
  }

  /** Distinct numbers render as distinct texts. */
  lemma NatToStringInjective(m: nat, n: nat)
    requires NatToString(m) == NatToString(n)
    ensures m == n
  {
    ParseNatToString(m);
    ParseNatToString(n);
  }

  /** `parts.join(sep)`: the parts with one separator between neighbours. */
  function Join(parts: seq<string>, sep: string): (r: string)
    ensures |parts| == 0 ==> r == []
  {
    if |parts| == 0 then []
    else if |parts| == 1 then parts[0]
    else parts[0] + sep + Join(parts[1..], sep)
  }

  /** The joined text ends exactly where its last part ends: nothing follows
      the last part. (A lemma rather than a postcondition of `Join`, so that
      proofs about texts built with `Join` do not pay for it.) */
  lemma {:induction false} JoinLength(parts: seq<string>, sep: string)
    requires |parts| > 0
    ensures |Join(parts, sep)| == JoinOffset(parts, sep, |parts| - 1) + |parts[|parts| - 1]|
    decreases |parts|
  {
    if |parts| > 1 {
      JoinLength(parts[1..], sep);
      assert parts[1..][|parts| - 2] == parts[|parts| - 1];
    }
  }

  /** Where `parts[i]` starts inside `Join(parts, sep)`. */
  function JoinOffset(parts: seq<string>, sep: string, i: nat): nat
    requires i < |parts|
  {
    if i == 0 then 0 else |parts[0]| + |sep| + JoinOffset(parts[1..], sep, i - 1)
  }

  /** `sub` appears verbatim in `s` starting at position `i`. */
  predicate OccursAt(s: string, sub: string, i: nat) {
    i + |sub| <= |s| && s[i..i + |sub|] == sub
  }

  lemma OccursInConcat(a: string, sub: string, b: string)
    ensures OccursAt(a + sub + b, sub, |a|)
  {
    assert (a + sub + b)[|a|..|a| + |sub|] == sub;
  }

  /** The template literal `a${x}b${y}c`: each slot sits at its offset. */
  function Fill2(a: string, x: string, b: string, y: string, c: string): (p: string)
    ensures OccursAt(p, x, |a|) && OccursAt(p, y, |a| + |x| + |b|)
  {
    OccursInConcat(a, x, b + y + c);
    OccursInConcat(a + x + b, y, c);
    a + x + b + y + c
  }

  /** The template literal `a${x}b${y}c${z}d`: each slot sits at its offset. */
  function Fill3(a: string, x: string, b: string, y: string, c: string, z: string, d: string): (p: string)
    ensures OccursAt(p, x, |a|) && OccursAt(p, y, |a| + |x| + |b|) && OccursAt(p, z, |a| + |x| + |b| + |y| + |c|)
  {
    OccursInConcat(a, x, b + y + c + z + d);
    OccursInConcat(a + x + b, y, c + z + d);
    OccursInConcat(a + x + b + y + c, z, d);
    a + x + b + y + c + z + d
  }

  /** An occurrence survives putting text before and after: it moves to
      `off`, `|a|` further on (passed whole, so that a caller's goal matches
      without arithmetic). */
  lemma {:induction false} OccursAtShift(a: string, s: string, b: string, sub: string, i: nat, off: nat)
    requires OccursAt(s, sub, i)
    requires off == |a| + i
    ensures OccursAt(a + s + b, sub, off)
  {
    assert (a + s + b)[|a| + i..|a| + i + |sub|] == s[i..i + |sub|];
  }

  /** An occurrence inside an occurrence is an occurrence. */
  lemma OccursWithin(s: string, t: string, u: string, i: nat, j: nat)
    requires OccursAt(s, t, i) && OccursAt(t, u, j)
    ensures OccursAt(s, u, i + j)
  {
    forall k | 0 <= k < |u|
      ensures s[i + j + k] == u[k]
    {
      assert u[k] == t[j + k] == s[i + j + k];
    }
  }

  /** Every part occurs verbatim in the joined text at its offset. */
  lemma {:induction false} JoinAt(parts: seq<string>, sep: string, i: nat)
    requires i < |parts|
    ensures OccursAt(Join(parts, sep), parts[i], JoinOffset(parts, sep, i))
  {
    if |parts| == 1 {
      assert Join(parts, sep) == parts[0];
    } else if i == 0 {
      OccursInConcat([], parts[0], sep + Join(parts[1..], sep));
      assert [] + parts[0] + (sep + Join(parts[1..], sep)) == Join(parts, sep);
    } else {
      JoinAt(parts[1..], sep, i - 1);
      OccursAtShift(parts[0] + sep, Join(parts[1..], sep), [], parts[i], JoinOffset(parts[1..], sep, i - 1),
                    JoinOffset(parts, sep, i));
      assert parts[0] + sep + Join(parts[1..], sep) + [] == Join(parts, sep);
    }
  }

  /** Parts appear in order: part `i` and the separator after it end before
      part `j` starts; the separator occurs right after part `i`, and part
      `i + 1` follows right after that separator. */
  lemma {:induction false} JoinOffsetOrdered(parts: seq<string>, sep: string, i: nat, j: nat)
    requires i < j < |parts|
    ensures JoinOffset(parts, sep, i) + |parts[i]| + |sep| <= JoinOffset(parts, sep, j)
    ensures OccursAt(Join(parts, sep), sep, JoinOffset(parts, sep, i) + |parts[i]|)
    ensures j == i + 1 ==> JoinOffset(parts, sep, j) == JoinOffset(parts, sep, i) + |parts[i]| + |sep|
  {
    if i == 0 {
      if j > 1 {
        JoinOffsetOrdered(parts[1..], sep, 0, j - 1);
      }
      OccursInConcat(parts[0], sep, Join(parts[1..], sep));
    } else {
      JoinOffsetOrdered(parts[1..], sep, i - 1, j - 1);
      OccursAtShift(parts[0] + sep, Join(parts[1..], sep), [], sep, JoinOffset(parts[1..], sep, i - 1) + |parts[i]|,
                    JoinOffset(parts, sep, i) + |parts[i]|);
      assert parts[0] + sep + Join(parts[1..], sep) + [] == Join(parts, sep);
    }
  }
}
