/**
 * The JavaScript string operations the site relies on, on `string` (a sequence
 * of UTF-16 units is modelled as a sequence of characters):
 * `String.prototype.split` with a one-character separator, `Array.prototype.join`,
 * `trim`, `startsWith`, `replace` with a string pattern (first occurrence only),
 * ASCII lower-casing and the regular-expression class `\w`.
 */
module Text {

  /** WhiteSpace and LineTerminator code points of ECMAScript, the set that `trim` removes. */
  predicate IsWhitespace(c: char) {
    || c == '\t' || c == '\n' || c == '\U{B}' || c == '\U{C}' || c == '\r' || c == ' '
    || c == '\U{A0}' || c == '\U{1680}' || ('\U{2000}' <= c <= '\U{200A}')
    || c == '\U{2028}' || c == '\U{2029}' || c == '\U{202F}' || c == '\U{205F}'
    || c == '\U{3000}' || c == '\U{FEFF}'
  }

  /** `s` has no whitespace at either end. */
  predicate IsTrimmed(s: string) {
    s == [] || (!IsWhitespace(s[0]) && !IsWhitespace(s[|s| - 1]))
  }

  /** Drops leading whitespace. */
  function TrimStart(s: string): (r: string)
    ensures |r| <= |s| && r == s[|s| - |r|..]
    ensures r == [] || !IsWhitespace(r[0])
    ensures forall i :: 0 <= i < |s| - |r| ==> IsWhitespace(s[i])
  {
    if s != [] && IsWhitespace(s[0]) then TrimStart(s[1..]) else s
  }

  /** Drops trailing whitespace. */
  function TrimEnd(s: string): (r: string)
    ensures |r| <= |s| && r == s[..|r|]
    ensures r == [] || !IsWhitespace(r[|r| - 1])
    ensures forall i :: |r| <= i < |s| ==> IsWhitespace(s[i])
  {
    if s != [] && IsWhitespace(s[|s| - 1]) then TrimEnd(s[..|s| - 1]) else s
  }

  /** `s.trim()`: the longest slice of `s` without whitespace at its ends. */
  function Trim(s: string): (r: string)
    ensures IsTrimmed(r)
    ensures |r| <= |s|
  {
    var t := TrimStart(s);
    var r := TrimEnd(t);
    assert r != [] ==> r[0] == t[0];
    r
  }

  /** A string is its part before a suffix `t`, then a prefix `r` of `t`, then the rest of `t`. */
  lemma SliceParts(s: string, t: string, r: string)
    requires |t| <= |s| && t == s[|s| - |t|..]
    requires |r| <= |t| && r == t[..|r|]
    ensures s == s[..|s| - |t|] + r + t[|r|..]
  {
    assert s == s[..|s| - |t|] + t;
    assert t == r + t[|r|..];
  }

  /** `trim` cuts `s` into whitespace, the result and whitespace. */
  lemma TrimStripsOuterWhitespace(s: string) returns (a: string, b: string)
    ensures s == a + Trim(s) + b
    ensures forall k :: 0 <= k < |a| ==> IsWhitespace(a[k])
    ensures forall k :: 0 <= k < |b| ==> IsWhitespace(b[k])
  {
    var t := TrimStart(s);
    var r := TrimEnd(t);
    assert r == Trim(s);
    SliceParts(s, t, r);
    a, b := s[..|s| - |t|], t[|r|..];
    assert forall k :: 0 <= k < |a| ==> a[k] == s[k];
    assert forall k :: 0 <= k < |b| ==> b[k] == t[|r| + k];
  }

  /** Whitespace in front of a string that starts with something else is dropped, and nothing more. */
  lemma {:induction false} TrimStartPadded(a: string, t: string)
    requires forall k :: 0 <= k < |a| ==> IsWhitespace(a[k])
    requires t == [] || !IsWhitespace(t[0])
    ensures TrimStart(a + t) == t
    decreases |a|
  {
    if a != [] {
      assert (a + t)[1..] == a[1..] + t;
      TrimStartPadded(a[1..], t);
    } else {
      assert a + t == t;
    }
  }

  /** Whitespace after a string that ends with something else is dropped, and nothing more. */
  lemma {:induction false} TrimEndPadded(t: string, b: string)
    requires forall k :: 0 <= k < |b| ==> IsWhitespace(b[k])
    requires t == [] || !IsWhitespace(t[|t| - 1])
    ensures TrimEnd(t + b) == t
    decreases |b|
  {
    if b != [] {
      assert (t + b)[..|t + b| - 1] == t + b[..|b| - 1];
      TrimEndPadded(t, b[..|b| - 1]);
    } else {
      assert t + b == t;
    }
  }

  /** A trimmed string padded with whitespace on both sides is trimmed back to itself. */
  lemma TrimOfPadded(a: string, m: string, b: string)
    requires forall k :: 0 <= k < |a| ==> IsWhitespace(a[k])
    requires forall k :: 0 <= k < |b| ==> IsWhitespace(b[k])
    requires IsTrimmed(m)
    ensures Trim(a + m + b) == m
  {
    if m != [] {
      assert a + m + b == a + (m + b);
      TrimStartPadded(a, m + b);
      TrimEndPadded(m, b);
    } else {
      var w := a + b;
      assert a + m + b == w + [];
      forall k | 0 <= k < |w| ensures IsWhitespace(w[k]) {
        if k >= |a| {
          assert w[k] == b[k - |a|];
        }
      }
      TrimStartPadded(w, []);
    }
  }

  lemma {:induction false} TrimStartOfTrimmed(s: string)
    requires s == [] || !IsWhitespace(s[0])
    ensures TrimStart(s) == s
  {
  }

  lemma {:induction false} TrimEndOfTrimmed(s: string)
    requires s == [] || !IsWhitespace(s[|s| - 1])
    ensures TrimEnd(s) == s
  {
  }

  /** Trimming leaves an already trimmed string alone. */
  lemma TrimIdentity(s: string)
    requires IsTrimmed(s)
    ensures Trim(s) == s
  {
    TrimStartOfTrimmed(s);
    TrimEndOfTrimmed(s);
  }

  /** Whitespace put in front of a string is removed by `trim`. */
  lemma TrimLeadingSpace(s: string)
    ensures Trim(" " + s) == Trim(s)
  {
    assert (" " + s)[1..] == s;
  }

  /** `trim` keeps a slice of its argument: a character absent from `s` is absent from `s.trim()`. */
  lemma TrimWithin(s: string, c: char)
    requires c !in s
    ensures c !in Trim(s)
  {
    var t := TrimStart(s);
    assert c !in t by {
      assert t == s[|s| - |t|..];
    }
    var r := TrimEnd(t);
    assert r == t[..|r|];
  }

  /** `trim` is idempotent. */
  lemma TrimIdempotent(s: string)
    ensures Trim(Trim(s)) == Trim(s)
  {
    TrimIdentity(Trim(s));
  }

  /** `parts.join(sep)`; the empty array joins to the empty string. */
  function Join(parts: seq<string>, sep: string): string
  {
    if |parts| == 0 then ""
    else if |parts| == 1 then parts[0]
    else parts[0] + sep + Join(parts[1..], sep)
  }

  /**
   * `s.split(sep)` for a one-character separator: the pieces between
   * separators, empty pieces included; `"".split(",")` is `[""]`.
   */
  function Split(s: string, sep: char): (r: seq<string>)
    ensures |r| >= 1
    ensures forall i :: 0 <= i < |r| ==> sep !in r[i]
    ensures Join(r, [sep]) == s
  {
    if s == [] then [[]]
    else
      var rest := Split(s[1..], sep);
      if s[0] == sep then
        assert Join([[]] + rest, [sep]) == [sep] + Join(rest, [sep]) by {
          assert ([[]] + rest)[1..] == rest;
        }
        [[]] + rest
      else
        var r := [[s[0]] + rest[0]] + rest[1..];
        assert r[1..] == rest[1..];
        assert Join(r, [sep]) == [s[0]] + Join(rest, [sep]) by {
          if |rest| > 1 {
            assert Join(rest, [sep]) == rest[0] + [sep] + Join(rest[1..], [sep]);
          }
        }
        assert s == [s[0]] + s[1..];
        r
  }

  /** A string without the separator splits into itself. */
  lemma {:induction false} SplitWithoutSeparator(s: string, sep: char)
    requires sep !in s
    ensures Split(s, sep) == [s]
  {
    if s != [] {
      SplitWithoutSeparator(s[1..], sep);
    }
  }

  /** Splitting at the first separator. */
  lemma {:induction false} SplitAtFirst(a: string, sep: char, b: string)
    requires sep !in a
    ensures Split(a + [sep] + b, sep) == [a] + Split(b, sep)
  {
    if a == [] {
      assert (a + [sep] + b)[1..] == b;
    } else {
      assert (a + [sep] + b)[1..] == a[1..] + [sep] + b;
      SplitAtFirst(a[1..], sep, b);
      assert [a[0]] + a[1..] == a;
    }
  }

  /** Splitting the pieces joined by the separator gives them back. */
  lemma {:induction false} SplitJoin(parts: seq<string>, sep: char)
    requires |parts| >= 1
    requires forall i :: 0 <= i < |parts| ==> sep !in parts[i]
    ensures Split(Join(parts, [sep]), sep) == parts
  {
    if |parts| == 1 {
      SplitWithoutSeparator(parts[0], sep);
    } else {
      SplitJoin(parts[1..], sep);
      SplitAtFirst(parts[0], sep, Join(parts[1..], [sep]));
      assert [parts[0]] + parts[1..] == parts;
    }
  }

  /** A leading character other than the separator joins the first piece. */
  lemma SplitConsNonSeparator(c: char, s: string, sep: char)
    requires c != sep
    ensures Split([c] + s, sep) == [[c] + Split(s, sep)[0]] + Split(s, sep)[1..]
  {
    assert ([c] + s)[1..] == s;
  }

  /** The first piece is the text up to the first separator, or all of it. */
  lemma {:induction false} SplitFirstPiece(s: string, sep: char)
    ensures var first := Split(s, sep)[0];
            |first| <= |s| && s[..|first|] == first && (|first| == |s| || s[|first|] == sep)
  {
    if s != [] {
      SplitFirstPiece(s[1..], sep);
      if s[0] != sep {
        SplitConsNonSeparator(s[0], s[1..], sep);
        assert s == [s[0]] + s[1..];
      }
    }
  }

  /** `s.startsWith(p)`. */
  predicate StartsWith(s: string, p: string) {
    |p| <= |s| && s[..|p|] == p
  }

  /** `p` occurs in `s` at position `i`. */
  predicate OccursAt(s: string, p: string, i: int) {
    0 <= i && i + |p| <= |s| && s[i..i + |p|] == p
  }

  /** `s.replace(p, "")` for a non-empty string pattern: deletes the first occurrence of `p`, if any. */
  function RemoveFirst(s: string, p: string): (r: string)
    requires p != []
    ensures |r| == |s| || |r| == |s| - |p|
  {
    if |s| < |p| then s
    else if s[..|p|] == p then s[|p|..]
    else [s[0]] + RemoveFirst(s[1..], p)
  }

  /** A text in which the pattern does not occur is left unchanged. */
  lemma {:induction false} RemoveFirstAbsent(s: string, p: string)
    requires p != []
    requires forall i :: !OccursAt(s, p, i)
    ensures RemoveFirst(s, p) == s
  {
    if |s| >= |p| {
      assert !OccursAt(s, p, 0);
      forall i ensures !OccursAt(s[1..], p, i) {
        if i >= 0 {
          OccursAfterFirst(s, p, i);
        }
      }
      RemoveFirstAbsent(s[1..], p);
      assert [s[0]] + s[1..] == s;
    }
  }

  /** A string that begins with the pattern loses exactly that prefix. */
  lemma RemoveFirstAtStart(p: string, s: string)
    requires p != []
    ensures RemoveFirst(p + s, p) == s
  {
    assert (p + s)[..|p|] == p;
    assert (p + s)[|p|..] == s;
  }

  /** When `p` first occurs at `k`, exactly those characters are deleted and the rest is kept. */
  lemma {:induction false} RemoveFirstDeletesFirstOccurrence(s: string, p: string, k: nat)
    requires p != []
    requires OccursAt(s, p, k)
    requires forall j :: 0 <= j < k ==> !OccursAt(s, p, j)
    ensures RemoveFirst(s, p) == s[..k] + s[k + |p|..]
    decreases k
  {
    if k == 0 {
      assert s[..|p|] == p;
      assert s[..0] + s[|p|..] == s[|p|..];
    } else {
      calc {
        RemoveFirst(s, p);
        { assert !OccursAt(s, p, 0); }
        [s[0]] + RemoveFirst(s[1..], p);
        { FirstOccurrenceInTail(s, p, k);
          RemoveFirstDeletesFirstOccurrence(s[1..], p, k - 1); }
        [s[0]] + (s[1..][..k - 1] + s[1..][k - 1 + |p|..]);
        { ConsAroundGap(s, k, |p|); }
        s[..k] + s[k + |p|..];
      }
    }
  }

  /** Putting the first character back in front of a tail with a gap cut out. */
  lemma ConsAroundGap(s: string, k: nat, m: nat)
    requires 1 <= k && k + m <= |s|
    ensures [s[0]] + (s[1..][..k - 1] + s[1..][k - 1 + m..]) == s[..k] + s[k + m..]
  {
    assert s[1..][..k - 1] == s[1..k];
    assert s[1..][k - 1 + m..] == s[k + m..];
    assert [s[0]] + s[1..k] == s[..k];
  }

  /** A first occurrence at `k > 0` is the first occurrence of the tail at `k - 1`. */
  lemma FirstOccurrenceInTail(s: string, p: string, k: nat)
    requires 0 < k && OccursAt(s, p, k)
    requires forall j :: 0 <= j < k ==> !OccursAt(s, p, j)
    ensures OccursAt(s[1..], p, k - 1)
    ensures forall j :: 0 <= j < k - 1 ==> !OccursAt(s[1..], p, j)
  {
    forall j | 0 <= j < k - 1 ensures !OccursAt(s[1..], p, j) {
      OccursAfterFirst(s, p, j);
    }
    OccursAfterFirst(s, p, k - 1);
  }

  /** An occurrence in the tail is an occurrence one position further on in the whole. */
  lemma OccursAfterFirst(s: string, p: string, j: nat)
    requires s != []
    ensures OccursAt(s[1..], p, j) <==> OccursAt(s, p, j + 1)
  {
    if j + 1 + |p| <= |s| {
      assert s[1..][j..j + |p|] == s[j + 1..j + 1 + |p|];
    }
  }

  /** A suffix after a body without its first character is the first occurrence there. */
  lemma {:induction false} RemoveFirstAtEnd(w: string, p: string)
    requires p != [] && p[0] !in w
    ensures RemoveFirst(w + p, p) == w
  {
    if w == [] {
      assert w + p == p;
      assert p[..|p|] == p;
    } else {
      assert (w + p)[..|p|][0] == w[0];
      assert (w + p)[1..] == w[1..] + p;
      RemoveFirstAtEnd(w[1..], p);
      assert [w[0]] + w[1..] == w;
    }
  }

  /** The regular-expression class `\w`: ASCII letters, digits and `_`. */
  predicate IsWordChar(c: char) {
    ('a' <= c <= 'z') || ('A' <= c <= 'Z') || ('0' <= c <= '9') || c == '_'
  }

  /** `toLowerCase` on the ASCII letters. */
  function LowerChar(c: char): (r: char)
    ensures IsWordChar(r) <==> IsWordChar(c)
    ensures !('A' <= r <= 'Z')
  {
    if 'A' <= c <= 'Z' then (c as int - 'A' as int + 'a' as int) as char else c
  }

  function Lower(s: string): (r: string)
    ensures |r| == |s|
    ensures forall i :: 0 <= i < |s| ==> r[i] == LowerChar(s[i])
  {
    if s == [] then [] else [LowerChar(s[0])] + Lower(s[1..])
  }

  /** `s.replace(/[^\w]/g, '')`: keeps the word characters, in order. */
  function KeepWordChars(s: string): (r: string)
    ensures |r| <= |s|
    ensures forall i :: 0 <= i < |r| ==> IsWordChar(r[i])
  {
    if s == [] then []
    else if IsWordChar(s[0]) then [s[0]] + KeepWordChars(s[1..])
    else KeepWordChars(s[1..])
  }

  /** A string of word characters is kept whole. */
  lemma {:induction false} KeepWordCharsOfWord(s: string)
    requires forall i :: 0 <= i < |s| ==> IsWordChar(s[i])
    ensures KeepWordChars(s) == s
    decreases |s|
  {
    if s != [] {
      KeepWordCharsOfWord(s[1..]);
      assert [s[0]] + s[1..] == s;
    }
  }

  lemma {:induction false} KeepWordCharsAppend(a: string, b: string)
    ensures KeepWordChars(a + b) == KeepWordChars(a) + KeepWordChars(b)
  {
    if a != [] {
      assert (a + b)[1..] == a[1..] + b;
      KeepWordCharsAppend(a[1..], b);
    } else {
      assert a + b == b;
    }
  }

  /** Two runs of word characters around one other character are joined. */
  lemma KeepWordCharsAround(x: string, c: char, z: string)
    requires forall i :: 0 <= i < |x| ==> IsWordChar(x[i])
    requires forall i :: 0 <= i < |z| ==> IsWordChar(z[i])
    requires !IsWordChar(c)
    ensures KeepWordChars(x + [c] + z) == x + z
  {
    var cz := [c] + z;
    calc {
      KeepWordChars(x + [c] + z);
      { assert x + [c] + z == x + cz; }
      KeepWordChars(x + cz);
      { KeepWordCharsAppend(x, cz); }
      KeepWordChars(x) + KeepWordChars(cz);
      { assert cz[0] == c && cz[1..] == z; }
      KeepWordChars(x) + KeepWordChars(z);
      { KeepWordCharsOfWord(x); KeepWordCharsOfWord(z); }
      x + z;
    }
  }

  /** The value of a decimal digit (0 for any other character). */
  function DigitValue(c: char): nat {
    if '0' <= c <= '9' then c as int - '0' as int else 0
  }

  /** The number a string of decimal digits denotes, most significant digit first. */
  function DigitsValue(s: string): nat {
    if s == [] then 0 else 10 * DigitsValue(s[..|s| - 1]) + DigitValue(s[|s| - 1])
  }

  /** Decimal digits of a natural number, as template literals print it. */
  function NatToString(n: nat): (r: string)
    ensures |r| >= 1
    ensures forall i :: 0 <= i < |r| ==> '0' <= r[i] <= '9'
    ensures n > 0 ==> r[0] != '0'
    ensures DigitsValue(r) == n
  {
    var d := ['0' + (n % 10) as char];
    assert DigitValue(d[0]) == n % 10;
    if n < 10 then d
    else
      var r := NatToString(n / 10) + d;
      assert r[..|r| - 1] == NatToString(n / 10);
      r
  }
}
