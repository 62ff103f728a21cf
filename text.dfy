/**
 * The string operations the Python code uses, with Python's meaning:
 * `str.lower()` (ASCII letters only), `in` on strings, `str.split()`,
 * `str.split(c)`, `sep.join(...)`, `str.strip()`, `str(int)`, the `:,`
 * and `:.Nf` format specifications, and `<` on strings (code-point order,
 * as `sorted` uses it).
 */
module Text {

  // ---------------------------------------------------------------------
  // Characters
  // ---------------------------------------------------------------------

  /** The characters `str.isspace()` accepts, so those `str.split()` and `str.strip()` remove. */
  predicate IsSpace(c: char)
  {
    c == ' ' || ('\U{9}' <= c <= '\U{D}') || ('\U{1C}' <= c <= '\U{1F}')
    || c == '\U{85}' || c == '\U{A0}' || c == '\U{1680}'
    || ('\U{2000}' <= c <= '\U{200A}') || c == '\U{2028}' || c == '\U{2029}'
    || c == '\U{202F}' || c == '\U{205F}' || c == '\U{3000}'
  }

  predicate IsUpper(c: char) { 'A' <= c <= 'Z' }
  predicate IsLowerLetter(c: char) { 'a' <= c <= 'z' }
  predicate IsDigit(c: char) { '0' <= c <= '9' }

  /** The ASCII part of the regular-expression class `\w`. */
  predicate IsWordChar(c: char)
  {
    IsUpper(c) || IsLowerLetter(c) || IsDigit(c) || c == '_'
  }

  function LowerChar(c: char): char
  {
    if IsUpper(c) then (c as int - 'A' as int + 'a' as int) as char else c
  }

  /** `s.lower()` on the ASCII letters. */
  function Lower(s: string): (r: string)
    ensures |r| == |s|
    ensures forall i :: 0 <= i < |s| ==> r[i] == LowerChar(s[i])
  {
    seq(|s|, i requires 0 <= i < |s| => LowerChar(s[i]))
  }

  lemma LowerAppend(a: string, b: string)
    ensures Lower(a + b) == Lower(a) + Lower(b)
  {
    assert forall i :: 0 <= i < |a + b| ==> Lower(a + b)[i] == (Lower(a) + Lower(b))[i];
  }

  // ---------------------------------------------------------------------
  // Substrings: Python's `pattern in text`
  // ---------------------------------------------------------------------

  /** `pat in text`: `pat` occurs at some position of `text` (the empty pattern everywhere). */
  predicate Contains(text: string, pat: string)
    decreases |text|
  {
    pat <= text || (|text| > 0 && Contains(text[1..], pat))
  }

  /** An occurrence at any position makes `Contains` true. */
  lemma {:induction false} ContainsAt(text: string, pat: string, i: nat)
    requires i <= |text| && pat <= text[i..]
    ensures Contains(text, pat)
    decreases i
  {
    if i > 0 {
      assert text[1..][i - 1..] == text[i..];
      ContainsAt(text[1..], pat, i - 1);
    }
  }

  /** `Contains` is true only because of an occurrence at some position. */
  lemma {:induction false} ContainsPosition(text: string, pat: string) returns (i: nat)
    requires Contains(text, pat)
    ensures i <= |text| && pat <= text[i..]
    decreases |text|
  {
    if pat <= text {
      i := 0;
    } else {
      var j := ContainsPosition(text[1..], pat);
      assert text[1..][j..] == text[j + 1..];
      i := j + 1;
    }
  }

  lemma ContainsInLeft(a: string, b: string, pat: string)
    requires Contains(a, pat)
    ensures Contains(a + b, pat)
  {
    var i := ContainsPosition(a, pat);
    assert pat <= (a + b)[i..] by {
      assert (a + b)[i..] == a[i..] + b;
    }
    ContainsAt(a + b, pat, i);
  }

  lemma ContainsInRight(a: string, b: string, pat: string)
    requires Contains(b, pat)
    ensures Contains(a + b, pat)
  {
    var i := ContainsPosition(b, pat);
    assert (a + b)[|a| + i..] == b[i..];
    ContainsAt(a + b, pat, |a| + i);
  }

  /** A substring of a substring is a substring. */
  lemma ContainsTransitive(a: string, b: string, c: string)
    requires Contains(a, b) && Contains(b, c)
    ensures Contains(a, c)
  {
    var i := ContainsPosition(a, b);
    var j := ContainsPosition(b, c);
    assert a[i + j..][..|c|] == b[j..][..|c|];
    ContainsAt(a, c, i + j);
  }

  // ---------------------------------------------------------------------
  // str.split() on white space
  // ---------------------------------------------------------------------

  function SpanNonSpace(s: string): (n: nat)
    ensures n <= |s|
    ensures s != [] && !IsSpace(s[0]) ==> n >= 1
    ensures forall i :: 0 <= i < n ==> !IsSpace(s[i])
    ensures n < |s| ==> IsSpace(s[n])
    decreases |s|
  {
    if s == [] || IsSpace(s[0]) then 0 else 1 + SpanNonSpace(s[1..])
  }

  /** `s.split()`: the maximal runs of non-white-space characters, in order. */
  function Words(s: string): seq<string>
    decreases |s|
  {
    if s == [] then []
    else if IsSpace(s[0]) then Words(s[1..])
    else
      var n := SpanNonSpace(s);
      [s[..n]] + Words(s[n..])
  }

  predicate NoSpace(w: string)
  {
    forall i :: 0 <= i < |w| ==> !IsSpace(w[i])
  }

  /** Each word of `s` is a non-empty piece of `s` without white space. */
  lemma {:induction false} WordsOccur(s: string)
    ensures forall w :: w in Words(s) ==> w != [] && NoSpace(w) && Contains(s, w)
    decreases |s|
  {
    if s == [] {
    } else if IsSpace(s[0]) {
      WordsOccur(s[1..]);
      forall w | w in Words(s) ensures Contains(s, w) {
        assert s == [s[0]] + s[1..];
        ContainsInRight([s[0]], s[1..], w);
      }
    } else {
      var n := SpanNonSpace(s);
      WordsOccur(s[n..]);
      forall w | w in Words(s) ensures w != [] && NoSpace(w) && Contains(s, w) {
        if w == s[..n] {
          ContainsAt(s, w, 0);
        } else {
          assert w in Words(s[n..]);
          assert s == s[..n] + s[n..];
          ContainsInRight(s[..n], s[n..], w);
        }
      }
    }
  }

  // ---------------------------------------------------------------------
  // sep.join(parts) and s.split(c)
  // ---------------------------------------------------------------------

  /** `sep.join(parts)`. */
  function Join(sep: string, parts: seq<string>): string
  {
    if |parts| == 0 then ""
    else if |parts| == 1 then parts[0]
    else parts[0] + sep + Join(sep, parts[1..])
  }

  /** Joining one more part at the end appends the separator and the part. */
  lemma {:induction false} JoinSnoc(sep: string, parts: seq<string>, p: string)
    requires parts != []
    ensures Join(sep, parts + [p]) == Join(sep, parts) + sep + p
    decreases |parts|
  {
    if |parts| == 1 {
      assert parts + [p] == [parts[0], p];
      assert (parts + [p])[1..] == [p];
    } else {
      assert (parts + [p])[1..] == parts[1..] + [p];
      JoinSnoc(sep, parts[1..], p);
    }
  }

  /** `s.split(c)` for a one-character separator: never empty, pieces free of `c`. */
  function SplitOn(s: string, c: char): (parts: seq<string>)
    ensures |parts| >= 1
    decreases |s|
  {
    if s == [] then [""]
    else
      var rest := SplitOn(s[1..], c);
      if s[0] == c then [""] + rest else [[s[0]] + rest[0]] + rest[1..]
  }

  /** Splitting on `c` and joining with `c` gives back the original string. */
  lemma {:induction false} JoinSplitOn(s: string, c: char)
    ensures Join([c], SplitOn(s, c)) == s
    decreases |s|
  {
    if s != [] {
      var rest := SplitOn(s[1..], c);
      JoinSplitOn(s[1..], c);
      if s[0] == c {
        assert SplitOn(s, c) == [""] + rest;
        assert (([""] + rest)[1..]) == rest;
      } else {
        var parts := [[s[0]] + rest[0]] + rest[1..];
        assert SplitOn(s, c) == parts;
        if |rest| == 1 {
          assert parts == [[s[0]] + rest[0]];
        } else {
          assert parts[1..] == rest[1..];
          assert Join([c], rest) == rest[0] + [c] + Join([c], rest[1..]);
          assert Join([c], parts) == [s[0]] + rest[0] + [c] + Join([c], rest[1..]);
        }
      }
    }
  }

  // ---------------------------------------------------------------------
  // str.strip()
  // ---------------------------------------------------------------------

  function LStrip(s: string): string
    decreases |s|
  {
    if s != [] && IsSpace(s[0]) then LStrip(s[1..]) else s
  }

  function RStrip(s: string): string
    decreases |s|
  {
    if s != [] && IsSpace(s[|s| - 1]) then RStrip(s[..|s| - 1]) else s
  }

  /** `s.strip()`: white space removed at both ends. */
  function Strip(s: string): string
  {
    RStrip(LStrip(s))
  }

  lemma {:induction false} LStripShape(s: string)
    ensures |LStrip(s)| <= |s|
    ensures LStrip(s) == s[|s| - |LStrip(s)|..]
    ensures LStrip(s) != [] ==> !IsSpace(LStrip(s)[0])
    ensures LStrip(s) == [] ==> forall i :: 0 <= i < |s| ==> IsSpace(s[i])
    decreases |s|
  {
    if s != [] && IsSpace(s[0]) {
      LStripShape(s[1..]);
      assert s[1..][|s| - 1 - |LStrip(s[1..])|..] == s[|s| - |LStrip(s)|..];
    }
  }

  lemma {:induction false} RStripShape(s: string)
    ensures |RStrip(s)| <= |s|
    ensures RStrip(s) == s[..|RStrip(s)|]
    ensures RStrip(s) != [] ==> !IsSpace(RStrip(s)[|RStrip(s)| - 1])
    ensures RStrip(s) == [] ==> forall i :: 0 <= i < |s| ==> IsSpace(s[i])
    decreases |s|
  {
    if s != [] && IsSpace(s[|s| - 1]) {
      RStripShape(s[..|s| - 1]);
      assert s[..|s| - 1][..|RStrip(s[..|s| - 1])|] == s[..|RStrip(s)|];
    }
  }

  /** A stripped string is a piece of the original that neither starts nor ends with white space. */
  lemma StripShape(s: string)
    ensures Contains(s, Strip(s))
    ensures Strip(s) != [] ==> !IsSpace(Strip(s)[0]) && !IsSpace(Strip(s)[|Strip(s)| - 1])
    ensures Strip(s) == [] <==> forall i :: 0 <= i < |s| ==> IsSpace(s[i])
  {
    var l := LStrip(s);
    LStripShape(s);
    RStripShape(l);
    var k := |s| - |l|;
    assert Strip(s) <= s[k..];
    ContainsAt(s, Strip(s), k);
    if Strip(s) == [] {
      assert l == [];
    }
    if Strip(s) != [] {
      assert Strip(s)[0] == l[0];
    }
  }

  /** A non-empty string with no white space at either end is its own strip. */
  lemma {:induction false} StripIdentity(s: string)
    requires s != [] && !IsSpace(s[0]) && !IsSpace(s[|s| - 1])
    ensures Strip(s) == s
  {
  }

  // ---------------------------------------------------------------------
  // Rendering numbers: str(n), f"{n:,}", f"{x:.Nf}"
  // ---------------------------------------------------------------------

  function Digit(d: nat): char
    requires d < 10
  {
    ('0' as int + d) as char
  }

  /** `str(n)` for a natural number: decimal digits, no leading zeros. */
  function NatToString(n: nat): (r: string)
    ensures |r| >= 1
    ensures forall i :: 0 <= i < |r| ==> IsDigit(r[i])
    decreases n
  {
    if n < 10 then [Digit(n)] else NatToString(n / 10) + [Digit(n % 10)]
  }

  /** `str(i)` for any integer. */
  function IntToString(i: int): (r: string)
    ensures |r| >= 1
  {
    if i < 0 then "-" + NatToString(-i) else NatToString(i)
  }

  function PadLeftZeros(s: string, width: nat): (r: string)
    ensures |r| >= width && |r| >= |s|
    decreases width - |s|
  {
    if |s| >= width then s else PadLeftZeros("0" + s, width)
  }

  function GroupedNat(n: nat): string
    decreases n
  {
    if n < 1000 then NatToString(n)
    else GroupedNat(n / 1000) + "," + PadLeftZeros(NatToString(n % 1000), 3)
  }

  /** `f"{i:,}"`: decimal digits with a comma between groups of three. */
  function Grouped(i: int): string
  {
    if i < 0 then "-" + GroupedNat(-i) else GroupedNat(i)
  }

  function Pow10(n: nat): (r: nat)
    ensures r >= 1
  {
    if n == 0 then 1 else 10 * Pow10(n - 1)
  }

  /** The nearest integer to `x`, halves going to the even neighbour (Python's rounding). */
  function RoundHalfEven(x: real): (r: int)
    ensures x - 0.5 <= r as real <= x + 0.5
    ensures x >= 0.0 ==> r >= 0
  {
    var f := x.Floor;
    var d := x - f as real;
    if d > 0.5 then f + 1
    else if d < 0.5 then f
    else if f % 2 == 0 then f
    else f + 1
  }

  /** `f"{x:.Nf}"`: `x` rounded to `places` decimals, written with exactly that many. */
  function FixedPoint(x: real, places: nat): string
  {
    var magnitude := if x < 0.0 then -x else x;
    var body := ScaledDigits(RoundHalfEven(magnitude * Pow10(places) as real), places);
    if x < 0.0 then "-" + body else body
  }

  /** The digits of `m / 10^places`, with `places` digits after the point. */
  function ScaledDigits(m: int, places: nat): string
  {
    var n: nat := if m < 0 then 0 else m;
    NatToString(Quotient(n, Pow10(places)))
      + (if places == 0 then "" else "." + PadLeftZeros(NatToString(Remainder(n, Pow10(places))), places))
  }

  function Quotient(n: nat, d: nat): nat
    requires d >= 1
  {
    n / d
  }

  function Remainder(n: nat, d: nat): nat
    requires d >= 1
  {
    n % d
  }

  // ---------------------------------------------------------------------
  // Code-point order on strings and `sorted(list_of_strings)`
  // ---------------------------------------------------------------------

  /** `a <= b` on Python strings. */
  predicate StrLe(a: string, b: string)
    decreases |a|
  {
    a == [] || (b != [] && (a[0] < b[0] || (a[0] == b[0] && StrLe(a[1..], b[1..]))))
  }

  lemma {:induction false} StrLeReflexive(a: string)
    ensures StrLe(a, a)
    decreases |a|
  {
    if a != [] { StrLeReflexive(a[1..]); }
  }

  lemma {:induction false} StrLeTotal(a: string, b: string)
    ensures StrLe(a, b) || StrLe(b, a)
    decreases |a|
  {
    if a != [] && b != [] && a[0] == b[0] { StrLeTotal(a[1..], b[1..]); }
  }

  lemma {:induction false} StrLeAntisymmetric(a: string, b: string)
    requires StrLe(a, b) && StrLe(b, a)
    ensures a == b
    decreases |a|
  {
    if a != [] {
      StrLeAntisymmetric(a[1..], b[1..]);
      assert a == [a[0]] + a[1..] && b == [b[0]] + b[1..];
    }
  }

  lemma {:induction false} StrLeTransitive(a: string, b: string, c: string)
    requires StrLe(a, b) && StrLe(b, c)
    ensures StrLe(a, c)
    decreases |a|
  {
    if a != [] && a[0] == b[0] && b[0] == c[0] {
      StrLeTransitive(a[1..], b[1..], c[1..]);
    }
  }

  predicate StrSorted(s: seq<string>)
  {
    forall i, j :: 0 <= i < j < |s| ==> StrLe(s[i], s[j])
  }

  function InsertString(x: string, s: seq<string>): seq<string>
  {
    if s == [] then [x]
    else if StrLe(x, s[0]) then [x] + s
    else [s[0]] + InsertString(x, s[1..])
  }

  /** `sorted(s)` for a list of strings. */
  function SortStrings(s: seq<string>): seq<string>
  {
    if s == [] then [] else InsertString(s[0], SortStrings(s[1..]))
  }

  lemma {:induction false} InsertStringMultiset(x: string, s: seq<string>)
    ensures multiset(InsertString(x, s)) == multiset(s) + multiset{x}
  {
    if s != [] && !StrLe(x, s[0]) {
      assert s == [s[0]] + s[1..];
      InsertStringMultiset(x, s[1..]);
    }
  }

  lemma {:induction false} InsertStringSorted(x: string, s: seq<string>)
    requires StrSorted(s)
    ensures StrSorted(InsertString(x, s))
  {
    if s == [] {
    } else if StrLe(x, s[0]) {
      forall i, j | 0 <= i < j < |[x] + s| ensures StrLe(([x] + s)[i], ([x] + s)[j]) {
        if i == 0 && j > 1 { StrLeTransitive(x, s[0], s[j - 1]); }
      }
    } else {
      InsertStringSorted(x, s[1..]);
      InsertStringMultiset(x, s[1..]);
      var r := InsertString(x, s[1..]);
      StrLeTotal(x, s[0]);
      forall i, j | 0 <= i < j < |[s[0]] + r| ensures StrLe(([s[0]] + r)[i], ([s[0]] + r)[j]) {
        if i == 0 {
          assert r[j - 1] in multiset(s[1..]) + multiset{x};
          if r[j - 1] != x {
            assert r[j - 1] in s[1..];
          }
        }
      }
    }
  }

  /** `sorted` returns an ordered permutation of its input. */
  lemma {:induction false} SortStringsFacts(s: seq<string>)
    ensures multiset(SortStrings(s)) == multiset(s)
    ensures StrSorted(SortStrings(s))
  {
    if s != [] {
      SortStringsFacts(s[1..]);
      InsertStringMultiset(s[0], SortStrings(s[1..]));
      InsertStringSorted(s[0], SortStrings(s[1..]));
      assert s == [s[0]] + s[1..];
    }
  }

  lemma SortedFirstIsLeast(s: seq<string>)
    requires StrSorted(s) && s != []
    ensures forall x :: x in s ==> StrLe(s[0], x)
  {
    StrLeReflexive(s[0]);
  }

  lemma TailMultiset(a: seq<string>, b: seq<string>)
    requires a != [] && b != [] && a[0] == b[0] && multiset(a) == multiset(b)
    ensures multiset(a[1..]) == multiset(b[1..])
  {
    assert a == [a[0]] + a[1..];
    assert b == [b[0]] + b[1..];
    assert multiset(a) == multiset{a[0]} + multiset(a[1..]);
    assert multiset(b) == multiset{a[0]} + multiset(b[1..]);
    assert multiset(a[1..]) == multiset(a) - multiset{a[0]};
    assert multiset(b[1..]) == multiset(b) - multiset{a[0]};
  }

  /** Two ordered lists with the same elements are the same list. */
  lemma {:induction false} SortedUnique(a: seq<string>, b: seq<string>)
    requires StrSorted(a) && StrSorted(b) && multiset(a) == multiset(b)
    ensures a == b
    decreases |a|
  {
    if a == [] {
      assert |multiset(b)| == 0;
    } else {
      assert a[0] in multiset(b);
      assert b != [];
      assert b[0] in multiset(a);
      SortedFirstIsLeast(a);
      SortedFirstIsLeast(b);
      StrLeAntisymmetric(a[0], b[0]);
      TailMultiset(a, b);
      SortedUnique(a[1..], b[1..]);
      assert a == [a[0]] + a[1..] && b == [b[0]] + b[1..];
    }
  }

  /** The result of `sorted` depends only on which strings (with repetitions) it is given. */
  lemma SortStringsCanonical(a: seq<string>, b: seq<string>)
    requires multiset(a) == multiset(b)
    ensures SortStrings(a) == SortStrings(b)
  {
    SortStringsFacts(a);
    SortStringsFacts(b);
    SortedUnique(SortStrings(a), SortStrings(b));
  }
}
