/** The string operations the recommender relies on: `str.lower`, `str.split()`,
    `str.join`, `str.splitlines`, `str(int)`, `int(str)` and `sorted` on strings. */
module Text {
  import opened Common

  /** Python's `str.isspace` for one character (the separators `str.split()` drops). */
  predicate IsSpace(c: char)
  {
    c == ' ' || ('\t' <= c <= '\r') || ('\U{1C}' <= c <= '\U{1F}') || c == '\U{85}' || c == '\U{A0}'
    || c == '\U{1680}' || ('\U{2000}' <= c <= '\U{200A}') || c == '\U{2028}' || c == '\U{2029}'
    || c == '\U{202F}' || c == '\U{205F}' || c == '\U{3000}'
  }

  /** A line boundary of Python's `str.splitlines`. */
  predicate IsLineBreak(c: char)
  {
    ('\n' <= c <= '\r') || ('\U{1C}' <= c <= '\U{1E}') || c == '\U{85}' || c == '\U{2028}' || c == '\U{2029}'
  }

  predicate NoSpace(s: string)
  {
    forall i :: 0 <= i < |s| ==> !IsSpace(s[i])
  }

  predicate NoLineBreak(s: string)
  {
    forall i :: 0 <= i < |s| ==> !IsLineBreak(s[i])
  }

  function LowerChar(c: char): char
  {
    if 'A' <= c <= 'Z' then (c as int - 'A' as int + 'a' as int) as char else c
  }

  /** `s.lower()` for the ASCII letters. */
  function Lower(s: string): (r: string)
    ensures |r| == |s|
    ensures forall i :: 0 <= i < |s| ==> r[i] == LowerChar(s[i])
  {
    seq(|s|, i requires 0 <= i < |s| => LowerChar(s[i]))
  }

  /** `sep.join(parts)`. */
  function Join(sep: string, parts: seq<string>): string
  {
    if parts == [] then ""
    else if |parts| == 1 then parts[0]
    else parts[0] + sep + Join(sep, parts[1..])
  }

  // ---------------------------------------------------------------------------
  // str.split() with no argument: maximal runs of non-space characters

  function TrimLeft(s: string): (r: string)
    ensures r == [] || !IsSpace(r[0])
    ensures |r| <= |s| && r == s[|s| - |r|..]
  {
    if s != [] && IsSpace(s[0]) then TrimLeft(s[1..]) else s
  }

  /** The leading run of non-space characters. */
  function Word(s: string): (w: string)
    ensures w <= s && NoSpace(w)
    ensures |w| < |s| ==> IsSpace(s[|w|])
  {
    if s == [] || IsSpace(s[0]) then [] else [s[0]] + Word(s[1..])
  }

  /** Tokens a `Split` can produce: non-empty and free of separators. */
  predicate IsTokens(toks: seq<string>)
  {
    forall i :: 0 <= i < |toks| ==> toks[i] != [] && NoSpace(toks[i])
  }

  /** A token in front of tokens keeps them tokens. */
  lemma {:induction false} ConsTokens(w: string, rest: seq<string>)
    requires w != [] && NoSpace(w) && IsTokens(rest)
    ensures IsTokens([w] + rest)
  {
    forall i | 0 < i <= |rest| ensures ([w] + rest)[i] == rest[i - 1] {
    }
  }

  function Split(s: string): (toks: seq<string>)
    ensures IsTokens(toks)
    decreases |s|
  {
    var t := TrimLeft(s);
    if t == [] then []
    else
      var w := Word(t);
      var rest := Split(t[|w|..]);
      ConsTokens(w, rest);
      [w] + rest
  }

  lemma {:induction false} WordOfJoin(w: string, rest: string)
    requires NoSpace(w)
    requires rest == [] || IsSpace(rest[0])
    ensures Word(w + rest) == w
  {
    if w != [] {
      assert (w + rest)[1..] == w[1..] + rest;
      WordOfJoin(w[1..], rest);
    } else if rest != [] {
      assert (w + rest)[0] == rest[0];
    }
  }

  /** Splitting what `" ".join` produced gives the tokens back. */
  lemma {:induction false} SplitJoin(toks: seq<string>)
    requires IsTokens(toks)
    ensures Split(Join(" ", toks)) == toks
  {
    if toks == [] {
    } else if |toks| == 1 {
      var s := toks[0];
      assert TrimLeft(s) == s;
      WordOfJoin(s, []);
      assert s + [] == s;
      assert s[|s|..] == [];
    } else {
      var w := toks[0];
      var restJoin := Join(" ", toks[1..]);
      var s := w + " " + restJoin;
      assert s == w + (" " + restJoin);
      assert TrimLeft(s) == s by { assert s[0] == w[0]; }
      WordOfJoin(w, " " + restJoin);
      assert s[|w|..] == " " + restJoin;
      JoinStartsWithToken(toks[1..]);
      assert TrimLeft(" " + restJoin) == TrimLeft(restJoin) by {
        assert (" " + restJoin)[1..] == restJoin;
      }
      SplitJoin(toks[1..]);
    }
  }

  lemma {:induction false} JoinStartsWithToken(toks: seq<string>)
    requires IsTokens(toks) && toks != []
    ensures Join(" ", toks) != [] && Join(" ", toks)[0] == toks[0][0]
    ensures TrimLeft(Join(" ", toks)) == Join(" ", toks)
  {
  }

  // ---------------------------------------------------------------------------
  // str.splitlines()

  /** Index of the first line boundary in `s`, or `|s|`. */
  function LineEnd(s: string): (k: nat)
    ensures k <= |s|
    ensures forall i :: 0 <= i < k ==> !IsLineBreak(s[i])
    ensures k < |s| ==> IsLineBreak(s[k])
  {
    if s == [] || IsLineBreak(s[0]) then 0 else 1 + LineEnd(s[1..])
  }

  function SplitLines(s: string): seq<string>
    decreases |s|
  {
    if s == [] then []
    else
      var k := LineEnd(s);
      if k == |s| then [s]
      else
        var skip := if s[k] == '\r' && k + 1 < |s| && s[k + 1] == '\n' then 2 else 1;
        [s[..k]] + SplitLines(s[k + skip..])
  }

  /** A file written one line at a time, each followed by a newline. */
  function Lines(ls: seq<string>): string
  {
    if ls == [] then "" else ls[0] + "\n" + Lines(ls[1..])
  }

  lemma {:induction false} LineEndOf(l: string, rest: string)
    requires NoLineBreak(l)
    ensures LineEnd(l + "\n" + rest) == |l|
  {
    if l != [] {
      assert (l + "\n" + rest)[1..] == l[1..] + "\n" + rest;
      LineEndOf(l[1..], rest);
    }
  }

  /** Reading back a file written by `Lines` with `splitlines()` gives the lines back. */
  lemma {:induction false} SplitLinesOfLines(ls: seq<string>)
    requires forall i :: 0 <= i < |ls| ==> NoLineBreak(ls[i])
    ensures SplitLines(Lines(ls)) == ls
  {
    if ls != [] {
      var l := ls[0];
      var s := Lines(ls);
      assert s == l + "\n" + Lines(ls[1..]);
      LineEndOf(l, Lines(ls[1..]));
      assert s[|l|] == '\n';
      assert s[..|l|] == l;
      assert s[|l| + 1..] == Lines(ls[1..]);
      SplitLinesOfLines(ls[1..]);
    }
  }

  // ---------------------------------------------------------------------------
  // str(n) and int(s)

  predicate IsDigit(c: char)
  {
    '0' <= c <= '9'
  }

  predicate AllDigits(s: string)
  {
    forall i :: 0 <= i < |s| ==> IsDigit(s[i])
  }

  function DigitChar(d: nat): (c: char)
    requires d < 10
    ensures IsDigit(c) && c as int - '0' as int == d
  {
    ('0' as int + d) as char
  }

  /** Decimal digits of a natural number, without leading zeros. */
  function NatToString(n: nat): (s: string)
    ensures s != [] && AllDigits(s)
  {
    if n < 10 then [DigitChar(n)] else NatToString(n / 10) + [DigitChar(n % 10)]
  }

  /** `str(n)` for a Python int. */
  function IntToString(n: int): (s: string)
    ensures s != [] && (n < 0 ==> s[0] == '-') && (n >= 0 ==> AllDigits(s))
  {
    if n < 0 then "-" + NatToString(-n) else NatToString(n)
  }

  function DigitsValue(s: string): nat
    requires AllDigits(s)
  {
    if s == [] then 0 else DigitsValue(s[..|s| - 1]) * 10 + (s[|s| - 1] as int - '0' as int)
  }

  /** `int(s)` on an optional sign followed by decimal digits; anything else raises (None). */
  function ParseInt(s: string): (r: Option<int>)
    ensures r.Some? ==> s != []
    ensures s == [] ==> r.None?
  {
    if s != [] && (s[0] == '-' || s[0] == '+') then
      var d := s[1..];
      if d != [] && AllDigits(d) then Some(if s[0] == '-' then -(DigitsValue(d) as int) else DigitsValue(d))
      else None
    else if s != [] && AllDigits(s) then Some(DigitsValue(s))
    else None
  }

  lemma {:induction false} DigitsOfNat(n: nat)
    ensures DigitsValue(NatToString(n)) == n
  {
    if n >= 10 {
      var p := NatToString(n / 10);
      var s := p + [DigitChar(n % 10)];
      assert s[..|s| - 1] == p;
      DigitsOfNat(n / 10);
    }
  }

  /** `int(str(n)) == n`. */
  lemma {:induction false} ParseShowInt(n: int)
    ensures ParseInt(IntToString(n)) == Some(n)
  {
    if n < 0 {
      DigitsOfNat(-n);
      ParseNegative(NatToString(-n));
    } else {
      DigitsOfNat(n);
      ParseDigits(NatToString(n));
    }
  }

  /** A minus sign followed by digits parses to the negated digits' value. */
  lemma {:induction false} ParseNegative(d: string)
    requires d != [] && AllDigits(d)
    ensures ParseInt("-" + d) == Some(-(DigitsValue(d) as int))
  {
    assert ("-" + d)[1..] == d;
  }

  /** Digits alone parse to their value. */
  lemma {:induction false} ParseDigits(d: string)
    requires d != [] && AllDigits(d)
    ensures ParseInt(d) == Some(DigitsValue(d))
  {
    assert IsDigit(d[0]);
  }

  // ---------------------------------------------------------------------------
  // sorted() on strings: lexicographic order of code points

  predicate StrLe(a: string, b: string)
  {
    a == [] || (b != [] && (a[0] < b[0] || (a[0] == b[0] && StrLe(a[1..], b[1..]))))
  }

  lemma {:induction false} StrLeTotal(a: string, b: string)
    ensures StrLe(a, b) || StrLe(b, a)
  {
    if a != [] && b != [] && a[0] == b[0] {
      StrLeTotal(a[1..], b[1..]);
    }
  }

  lemma {:induction false} StrLeRefl(a: string)
    ensures StrLe(a, a)
  {
    if a != [] {
      StrLeRefl(a[1..]);
    }
  }

  lemma {:induction false} StrLeTrans(a: string, b: string, c: string)
    requires StrLe(a, b) && StrLe(b, c)
    ensures StrLe(a, c)
  {
    if a != [] && b != [] && c != [] && a[0] == b[0] && b[0] == c[0] {
      StrLeTrans(a[1..], b[1..], c[1..]);
    }
  }

  predicate Sorted(s: seq<string>)
  {
    forall i, j :: 0 <= i < j < |s| ==> StrLe(s[i], s[j])
  }

  function Insert(x: string, s: seq<string>): seq<string>
  {
    if s == [] || StrLe(x, s[0]) then [x] + s else [s[0]] + Insert(x, s[1..])
  }

  /** Inserting adds exactly one occurrence of `x`. */
  lemma {:induction false} InsertPermutes(x: string, s: seq<string>)
    ensures multiset(Insert(x, s)) == multiset(s) + multiset{x}
  {
    if s != [] && !StrLe(x, s[0]) {
      InsertPermutes(x, s[1..]);
      assert s == [s[0]] + s[1..];
    }
  }

  /** `sorted(s)` on a list of strings. */
  function SortStrings(s: seq<string>): seq<string>
  {
    if s == [] then [] else Insert(s[0], SortStrings(s[1..]))
  }

  /** `sorted` keeps every element with its multiplicity. */
  lemma {:induction false} SortStringsPermutes(s: seq<string>)
    ensures multiset(SortStrings(s)) == multiset(s)
  {
    if s != [] {
      SortStringsPermutes(s[1..]);
      InsertPermutes(s[0], SortStrings(s[1..]));
      assert s == [s[0]] + s[1..];
    }
  }

  lemma {:induction false} InsertSorted(x: string, s: seq<string>)
    requires Sorted(s)
    ensures Sorted(Insert(x, s))
  {
    if s != [] && !StrLe(x, s[0]) {
      StrLeTotal(x, s[0]);
      InsertSorted(x, s[1..]);
      forall k | 0 <= k < |s[1..]| ensures StrLe(s[0], s[1..][k]) {
        assert s[1..][k] == s[k + 1];
      }
      InsertAbove(x, s[1..], s[0]);
      ConsSorted(s[0], Insert(x, s[1..]));
    } else if s != [] {
      forall k | 0 <= k < |s| ensures StrLe(x, s[k]) {
        if k > 0 {
          StrLeTrans(x, s[0], s[k]);
        }
      }
      ConsSorted(x, s);
    }
  }

  /** Inserting an element no smaller than a bound into elements no smaller than it keeps them so. */
  lemma {:induction false} InsertAbove(x: string, s: seq<string>, lo: string)
    requires StrLe(lo, x) && forall k :: 0 <= k < |s| ==> StrLe(lo, s[k])
    ensures forall k :: 0 <= k < |Insert(x, s)| ==> StrLe(lo, Insert(x, s)[k])
  {
    if s != [] && !StrLe(x, s[0]) {
      forall k | 0 <= k < |s[1..]| ensures StrLe(lo, s[1..][k]) {
        assert s[1..][k] == s[k + 1];
      }
      InsertAbove(x, s[1..], lo);
    }
  }

  /** A sorted list below a head no larger than any of its elements stays sorted. */
  lemma {:induction false} ConsSorted(h: string, t: seq<string>)
    requires Sorted(t) && forall k :: 0 <= k < |t| ==> StrLe(h, t[k])
    ensures Sorted([h] + t)
  {
    var out := [h] + t;
    forall i, j | 0 <= i < j < |out| ensures StrLe(out[i], out[j]) {
      assert out[j] == t[j - 1];
      if i > 0 {
        assert out[i] == t[i - 1];
      }
    }
  }

  /** The output of `sorted` is in order. */
  lemma {:induction false} SortStringsSorted(s: seq<string>)
    ensures Sorted(SortStrings(s))
  {
    if s != [] {
      SortStringsSorted(s[1..]);
      InsertSorted(s[0], SortStrings(s[1..]));
    }
  }

  /** Sorting what is already in order changes nothing. */
  lemma {:induction false} SortStringsOfSorted(s: seq<string>)
    requires Sorted(s)
    ensures SortStrings(s) == s
  {
    if s != [] {
      SortStringsOfSorted(s[1..]);
      assert s == [s[0]] + s[1..];
    }
  }

  /** `sorted(sorted(s)) == sorted(s)`. */
  lemma {:induction false} SortStringsIdempotent(s: seq<string>)
    ensures SortStrings(SortStrings(s)) == SortStrings(s)
  {
    SortStringsSorted(s);
    SortStringsOfSorted(SortStrings(s));
  }
}
