/**
  The parts of Python's `str` that the backend relies on, written out over
  `seq<char>`: `isspace`, `lower`, `strip`, `rstrip`, `startswith`,
  `endswith`, `in`, `count`, `replace`, `split`, `"sep".join` and `str(int)`.
  Prefixes are Dafny's `p <= s`.
 */
module Text {

  /** `c.isspace()` in Python 3: the 29 code points of Unicode's White_Space
      property together with the four ASCII separators 0x1C to 0x1F. */
  predicate IsSpace(c: char)
  {
    var n := c as int;
    (9 <= n <= 13) || (28 <= n <= 32) || n == 0x85 || n == 0xA0 || n == 0x1680
    || (0x2000 <= n <= 0x200A) || n == 0x2028 || n == 0x2029 || n == 0x202F
    || n == 0x205F || n == 0x3000
  }

  predicate IsUpper(c: char) { 'A' <= c <= 'Z' }

  function LowerChar(c: char): (r: char)
    ensures !IsUpper(r)
  {
    if IsUpper(c) then (c as int + 32) as char else c
  }

  /** `s.lower()`, restricted to the ASCII letters. */
  function Lower(s: string): (r: string)
    ensures |r| == |s|
    ensures forall i :: 0 <= i < |s| ==> r[i] == LowerChar(s[i])
  {
    if s == [] then [] else [LowerChar(s[0])] + Lower(s[1..])
  }

  lemma {:induction false} LowerOfLowerCase(s: string)
    requires forall i :: 0 <= i < |s| ==> !IsUpper(s[i])
    ensures Lower(s) == s
  {
    if s != [] {
      LowerOfLowerCase(s[1..]);
    }
  }

  /** `s.lstrip()` */
  function LStrip(s: string): string
  {
    if s != [] && IsSpace(s[0]) then LStrip(s[1..]) else s
  }

  /** `s.rstrip()` */
  function RStrip(s: string): string
  {
    if s != [] && IsSpace(s[|s| - 1]) then RStrip(s[..|s| - 1]) else s
  }

  /** `s.strip()` */
  function Strip(s: string): string
  {
    RStrip(LStrip(s))
  }

  /** `lstrip` removes a prefix, and what it leaves does not start with
      whitespace. */
  lemma {:induction false} LStripShape(s: string)
    ensures |LStrip(s)| <= |s| && LStrip(s) == s[|s| - |LStrip(s)|..]
    ensures LStrip(s) != [] ==> !IsSpace(LStrip(s)[0])
  {
    if s != [] && IsSpace(s[0]) {
      LStripShape(s[1..]);
    }
  }

  /** `rstrip` removes a suffix, and what it leaves does not end with
      whitespace. */
  lemma {:induction false} RStripShape(s: string)
    ensures |RStrip(s)| <= |s| && RStrip(s) == s[..|RStrip(s)|]
    ensures RStrip(s) != [] ==> !IsSpace(RStrip(s)[|RStrip(s)| - 1])
  {
    if s != [] && IsSpace(s[|s| - 1]) {
      RStripShape(s[..|s| - 1]);
    }
  }

  /** A stripped string neither starts nor ends with whitespace. */
  lemma StripShape(s: string)
    ensures Strip(s) != [] ==> !IsSpace(Strip(s)[0]) && !IsSpace(Strip(s)[|Strip(s)| - 1])
  {
    LStripShape(s);
    RStripShape(LStrip(s));
    var l := LStrip(s);
    var r := RStrip(l);
    if r != [] {
      assert r[0] == l[0];
    }
  }

  /** Every character is whitespace, so that `s.strip()` is empty. */
  predicate IsBlank(s: string)
  {
    forall i :: 0 <= i < |s| ==> IsSpace(s[i])
  }

  lemma {:induction false} LStripEmpty(s: string)
    ensures LStrip(s) == [] <==> IsBlank(s)
  {
    if s != [] {
      if IsSpace(s[0]) {
        LStripEmpty(s[1..]);
        if IsBlank(s[1..]) {
          forall i | 0 <= i < |s|
            ensures IsSpace(s[i])
          {
            if i > 0 {
              assert s[i] == s[1..][i - 1];
            }
          }
        }
      } else {
        assert !IsSpace(s[0]);
      }
    }
  }

  lemma {:induction false} RStripEmpty(s: string)
    ensures RStrip(s) == [] <==> IsBlank(s)
  {
    if s != [] {
      var init := s[..|s| - 1];
      if IsSpace(s[|s| - 1]) {
        RStripEmpty(init);
        if IsBlank(init) {
          forall i | 0 <= i < |s|
            ensures IsSpace(s[i])
          {
            if i < |s| - 1 {
              assert s[i] == init[i];
            }
          }
        }
      } else {
        assert !IsSpace(s[|s| - 1]);
      }
    }
  }

  /** `s.strip()` is empty exactly when every character is whitespace. */
  lemma StripEmptyIffBlank(s: string)
    ensures Strip(s) == [] <==> IsBlank(s)
  {
    LStripEmpty(s);
    LStripShape(s);
    RStripEmpty(LStrip(s));
  }

  /** Stripping leaves a string without whitespace unchanged. */
  lemma StripNoSpace(s: string)
    requires forall i :: 0 <= i < |s| ==> !IsSpace(s[i])
    ensures Strip(s) == s
  {
  }

  /** `s.rstrip(c)` for a single character `c`. */
  function RStripChar(s: string, c: char): string
  {
    if s != [] && s[|s| - 1] == c then RStripChar(s[..|s| - 1], c) else s
  }

  /** `s.endswith(p)` */
  predicate EndsWith(s: string, p: string)
  {
    |p| <= |s| && s[|s| - |p|..] == p
  }

  /** `p in s` */
  predicate Contains(s: string, p: string)
  {
    p <= s || (s != [] && Contains(s[1..], p))
  }

  lemma {:induction false} NotContainsFirstChar(s: string, p: string)
    requires p != [] && p[0] !in s
    ensures !Contains(s, p)
  {
    if s != [] {
      assert p[0] !in s[1..];
      NotContainsFirstChar(s[1..], p);
    }
  }

  /** `s.count(c)` for a single character `c`. */
  function CountChar(s: string, c: char): nat
  {
    if s == [] then 0 else (if s[0] == c then 1 else 0) + CountChar(s[1..], c)
  }

  lemma {:induction false} CountCharAppend(a: string, b: string, c: char)
    ensures CountChar(a + b, c) == CountChar(a, c) + CountChar(b, c)
  {
    if a != [] {
      assert (a + b)[1..] == a[1..] + b;
      CountCharAppend(a[1..], b, c);
    } else {
      assert a + b == b;
    }
  }

  lemma {:induction false} CountCharZero(s: string, c: char)
    ensures CountChar(s, c) == 0 <==> c !in s
  {
    if s != [] {
      CountCharZero(s[1..], c);
      assert s == [s[0]] + s[1..];
    }
  }

  /** `s.count(p)` for a non-empty pattern: non-overlapping, left to right. */
  function Count(s: string, p: string): nat
    requires p != []
  {
    if s == [] then 0
    else if p <= s then 1 + Count(s[|p|..], p)
    else Count(s[1..], p)
  }

  /** `s.replace(p, q)` for a non-empty pattern: non-overlapping, left to right. */
  function Replace(s: string, p: string, q: string): string
    requires p != []
  {
    if s == [] then []
    else if p <= s then q + Replace(s[|p|..], p, q)
    else [s[0]] + Replace(s[1..], p, q)
  }

  lemma {:induction false} ReplaceAbsent(s: string, p: string, q: string)
    requires p != [] && !Contains(s, p)
    ensures Replace(s, p, q) == s
  {
    if s != [] {
      ReplaceAbsent(s[1..], p, q);
    }
  }

  /** Removing the only occurrence of `p` where `p` starts with a character
      that `x` does not hold. */
  lemma {:induction false} ReplaceSuffix(x: string, p: string)
    requires p != [] && p[0] !in x
    ensures Replace(x + p, p, []) == x
  {
    if x == [] {
      assert x + p == p;
      assert p[|p|..] == [];
    } else {
      assert !(p <= x + p) by {
        assert (x + p)[0] == x[0] != p[0];
      }
      assert (x + p)[1..] == x[1..] + p;
      assert p[0] !in x[1..];
      ReplaceSuffix(x[1..], p);
    }
  }

  /** `s.split(c)` for a single-character separator. */
  function Split(s: string, c: char): (r: seq<string>)
    ensures |r| >= 1
  {
    if s == [] then [[]]
    else if s[0] == c then [[]] + Split(s[1..], c)
    else var rest := Split(s[1..], c); [[s[0]] + rest[0]] + rest[1..]
  }

  lemma {:induction false} SplitNoSeparator(s: string, c: char)
    requires c !in s
    ensures Split(s, c) == [s]
  {
    if s != [] {
      SplitNoSeparator(s[1..], c);
      assert [s[0]] + s[1..] == s;
    }
  }

  lemma {:induction false} SplitPieces(s: string, c: char)
    ensures |Split(s, c)| == CountChar(s, c) + 1
    ensures forall k :: 0 <= k < |Split(s, c)| ==> c !in Split(s, c)[k]
  {
    if s != [] {
      SplitPieces(s[1..], c);
    }
  }

  lemma {:induction false} SplitAfterPiece(a: string, c: char, b: string)
    requires c !in a
    ensures Split(a + [c] + b, c) == [a] + Split(b, c)
  {
    if a == [] {
      assert a + [c] + b == [c] + b;
      assert ([c] + b)[1..] == b;
    } else {
      assert (a + [c] + b)[1..] == a[1..] + [c] + b;
      SplitAfterPiece(a[1..], c, b);
      assert [a[0]] + a[1..] == a;
    }
  }

  /** `s.split()[0]` for a string that is not empty and does not start with
      whitespace: the characters before the first whitespace character. */
  function FirstField(s: string): (r: string)
    ensures r <= s
    ensures forall i :: 0 <= i < |r| ==> !IsSpace(r[i])
    ensures |r| < |s| ==> IsSpace(s[|r|])
  {
    if s == [] || IsSpace(s[0]) then [] else [s[0]] + FirstField(s[1..])
  }

  /** `sep.join(parts)` */
  function Join(parts: seq<string>, sep: string): string
  {
    if parts == [] then []
    else if |parts| == 1 then parts[0]
    else parts[0] + sep + Join(parts[1..], sep)
  }

  lemma {:induction false} JoinStartsWithFirst(parts: seq<string>, sep: string)
    requires parts != []
    ensures parts[0] <= Join(parts, sep)
  {
  }

  /** Splitting a join on its separator gives back the parts, when no part
      holds the separator. */
  lemma {:induction false} SplitJoin(parts: seq<string>, c: char)
    requires parts != []
    requires forall k :: 0 <= k < |parts| ==> c !in parts[k]
    ensures Split(Join(parts, [c]), c) == parts
  {
    if |parts| == 1 {
      SplitNoSeparator(parts[0], c);
    } else {
      SplitJoin(parts[1..], c);
      SplitAfterPiece(parts[0], c, Join(parts[1..], [c]));
      assert [parts[0]] + parts[1..] == parts;
    }
  }

  function DigitChar(d: nat): char
    requires d < 10
  {
    "0123456789"[d]
  }

  /** `str(n)` for a non-negative integer. */
  function NatToString(n: nat): string
  {
    if n < 10 then [DigitChar(n)] else NatToString(n / 10) + [DigitChar(n % 10)]
  }

  predicate IsDigit(c: char) { '0' <= c <= '9' }

  /** The value of a string of decimal digits. */
  function DigitsValue(s: string): nat
    requires forall i :: 0 <= i < |s| ==> IsDigit(s[i])
  {
    if s == [] then 0
    else
      assert IsDigit(s[|s| - 1]);
      10 * DigitsValue(s[..|s| - 1]) + (s[|s| - 1] as int - '0' as int)
  }

  function Pow10(n: nat): (r: nat)
    ensures r >= 1
  {
    if n == 0 then 1 else 10 * Pow10(n - 1)
  }

  lemma {:induction false} DigitsValueBound(s: string)
    requires forall i :: 0 <= i < |s| ==> IsDigit(s[i])
    ensures DigitsValue(s) < Pow10(|s|)
  {
    if s != [] {
      DigitsValueBound(s[..|s| - 1]);
    }
  }

  lemma {:induction false} Pow10Monotone(m: nat, n: nat)
    requires m <= n
    ensures Pow10(m) <= Pow10(n)
  {
    if m < n {
      Pow10Monotone(m, n - 1);
    }
  }
}
