/** Character classes, decimal numerals and small string utilities shared by the
    formula scanner and the text serialisers. Strings are sequences of `char`;
    character classes are ASCII only. */
module Strings {

  const Newline: char := '\n'

  predicate IsDigit(c: char) { '0' <= c <= '9' }
  predicate IsUpper(c: char) { 'A' <= c <= 'Z' }
  predicate IsLower(c: char) { 'a' <= c <= 'z' }

  predicate AllDigits(s: string) {
    forall i | 0 <= i < |s| :: IsDigit(s[i])
  }

  function DigitValue(c: char): (d: nat)
    requires IsDigit(c)
    ensures d < 10
  {
    c as int - '0' as int
  }

  function DigitChar(d: nat): (c: char)
    requires d < 10
    ensures IsDigit(c) && DigitValue(c) == d
  {
    ('0' as int + d) as char
  }

  /** The number denoted by a run of decimal digits, most significant first. */
  function DigitsValue(s: string): nat
    requires AllDigits(s)
    decreases |s|
  {
    if s == [] then 0 else DigitsValue(s[..|s| - 1]) * 10 + DigitValue(s[|s| - 1])
  }

  /** The decimal numeral of `n`, as Python's `str` prints a non-negative int:
      it reads back as `n`. */
  function NatToString(n: nat): (r: string)
    ensures |r| > 0 && AllDigits(r) && DigitsValue(r) == n
    decreases n
  {
    if n < 10 then [DigitChar(n)]
    else
      var prefix := NatToString(n / 10);
      var r := prefix + [DigitChar(n % 10)];
      assert r[..|r| - 1] == prefix;
      r
  }

  /** Python's `str` of an int: a minus sign before the numeral of a negative. */
  function IntToString(i: int): (r: string)
    ensures |r| > 0 && Newline !in r
    ensures i >= 0 ==> r == NatToString(i)
    ensures i < 0 ==> r == "-" + NatToString(-i)
  {
    if i < 0 then "-" + NatToString(-i) else NatToString(i)
  }

  /** The length of the longest prefix of `s` made of digits. */
  function LeadingDigits(s: string): (k: nat)
    ensures k <= |s| && AllDigits(s[..k])
    ensures k < |s| ==> !IsDigit(s[k])
    decreases |s|
  {
    if s == [] || !IsDigit(s[0]) then 0
    else
      var k := 1 + LeadingDigits(s[1..]);
      assert s[..k] == [s[0]] + s[1..][..k - 1];
      k
  }

  /** Appending text to `a` does not change its run of leading digits unless
      that run reaches the end of `a` and the appended text continues it. */
  lemma {:induction false} LeadingDigitsOfAppend(a: string, b: string)
    requires LeadingDigits(a) < |a| || b == [] || !IsDigit(b[0])
    ensures LeadingDigits(a + b) == LeadingDigits(a)
    decreases |a|
  {
    if a == [] {
      assert a + b == b;
    } else if IsDigit(a[0]) {
      assert (a + b)[1..] == a[1..] + b;
      LeadingDigitsOfAppend(a[1..], b);
    }
  }

  /** A numeral followed by a non-digit is read back whole. */
  lemma LeadingDigitsOfNumeral(n: nat, rest: string)
    requires rest == [] || !IsDigit(rest[0])
    ensures LeadingDigits(NatToString(n) + rest) == |NatToString(n)|
    ensures (NatToString(n) + rest)[..|NatToString(n)|] == NatToString(n)
  {
    var d := NatToString(n);
    AllDigitsRun(d);
    LeadingDigitsOfAppend(d, rest);
  }

  /** A run of digits that ends at the end of `s` or before a non-digit is the
      longest one. */
  lemma LeadingDigitsUnique(s: string)
    ensures forall k: nat | k <= |s| && AllDigits(s[..k]) && (k == |s| || !IsDigit(s[k])) :: k == LeadingDigits(s)
  {
    var n := LeadingDigits(s);
    forall k: nat | k <= |s| && AllDigits(s[..k]) && (k == |s| || !IsDigit(s[k]))
      ensures k == n
    {
      if k < n {
        DigitOfRun(s, n, k);
        assert false;
      } else if n < k {
        DigitOfRun(s, k, n);
        assert false;
      }
    }
  }

  lemma DigitOfRun(s: string, n: nat, k: nat)
    requires k < n <= |s| && AllDigits(s[..n])
    ensures IsDigit(s[k])
  {
    assert s[..n][k] == s[k];
  }

  lemma {:induction false} AllDigitsRun(d: string)
    requires AllDigits(d)
    ensures LeadingDigits(d) == |d|
    decreases |d|
  {
    if d != [] {
      AllDigitsRun(d[1..]);
    }
  }

  /** Slicing a concatenation inside its first part. */
  lemma DropAppend<T>(a: seq<T>, b: seq<T>, k: nat)
    requires k <= |a|
    ensures (a + b)[k..] == a[k..] + b
  {
  }

  lemma TakeAppend<T>(a: seq<T>, b: seq<T>, k: nat)
    requires k <= |a|
    ensures (a + b)[..k] == a[..k]
  {
  }

  lemma DropPastAppend<T>(a: seq<T>, b: seq<T>, k: nat)
    requires k <= |b|
    ensures (a + b)[|a| + k..] == b[k..]
  {
  }

  lemma SliceAppend<T>(a: seq<T>, b: seq<T>, i: nat, j: nat)
    requires i <= j <= |a|
    ensures (a + b)[i..j] == a[i..j]
  {
  }

  /** A concatenation split back at the seam. */
  lemma SplitAppend<T>(a: seq<T>, b: seq<T>)
    ensures (a + b)[..|a|] == a && (a + b)[|a|..] == b
  {
  }

  lemma AppendAssoc<T>(a: seq<T>, b: seq<T>, c: seq<T>)
    ensures a + b + c == a + (b + c)
  {
  }

  /** Dropping the last element of a concatenation with a non-empty tail. */
  lemma InitOfAppend<T>(a: seq<T>, b: seq<T>)
    requires b != []
    ensures (a + b)[..|a + b| - 1] == a + b[..|b| - 1]
    ensures (a + b)[|a + b| - 1] == b[|b| - 1]
  {
  }

  /** A prefix one element longer. */
  lemma TakeStep<T>(a: seq<T>, k: nat)
    requires k < |a|
    ensures a[..k + 1][..k] == a[..k] && a[..k + 1][k] == a[k]
  {
  }

  lemma AppendAssoc4<T>(a: seq<T>, b: seq<T>, c: seq<T>, d: seq<T>)
    ensures a + b + c + d == a + (b + (c + d))
  {
  }

  lemma PrefixSplit<T>(p: seq<T>, s: seq<T>)
    requires p <= s
    ensures p + s[|p|..] == s
  {
  }

  lemma ConsSplit<T>(s: seq<T>)
    requires s != []
    ensures [s[0]] + s[1..] == s
  {
  }

  lemma ConsDrop<T>(x: T, t: seq<T>)
    ensures ([x] + t)[0] == x && ([x] + t)[1..] == t
  {
  }

  /** A window of a suffix is a window of the whole. */
  lemma WindowOfTail<T>(s: seq<T>, i: nat, n: nat)
    requires s != [] && i + n <= |s| - 1
    ensures s[1..][i..i + n] == s[i + 1..i + 1 + n]
  {
  }

  lemma TakeAll<T>(a: seq<T>)
    ensures a[..|a|] == a
  {
  }

  lemma AppendEmpty<T>(a: seq<T>)
    ensures [] + a == a && a + [] == a
  {
  }

  /** The number of occurrences of `c` in `s`. */
  function CountChar(s: string, c: char): nat
    decreases |s|
  {
    if s == [] then 0 else (if s[0] == c then 1 else 0) + CountChar(s[1..], c)
  }

  lemma {:induction false} CountCharAppend(a: string, b: string, c: char)
    ensures CountChar(a + b, c) == CountChar(a, c) + CountChar(b, c)
    decreases |a|
  {
    if a == [] {
      assert a + b == b;
    } else {
      assert (a + b)[1..] == a[1..] + b;
      CountCharAppend(a[1..], b, c);
    }
  }

  lemma {:induction false} CountCharAbsent(s: string, c: char)
    requires c !in s
    ensures CountChar(s, c) == 0
    decreases |s|
  {
    if s != [] {
      assert c !in s[1..];
      CountCharAbsent(s[1..], c);
    }
  }

  /** Python's `sep.join(parts)`. */
  function Join(sep: string, parts: seq<string>): (r: string)
    ensures parts == [] ==> r == ""
    ensures |parts| == 1 ==> r == parts[0]
    decreases |parts|
  {
    if parts == [] then ""
    else if |parts| == 1 then parts[0]
    else parts[0] + sep + Join(sep, parts[1..])
  }

  /** How many times `c` occurs across all `parts`. */
  function CountIn(parts: seq<string>, c: char): nat
    decreases |parts|
  {
    if parts == [] then 0 else CountChar(parts[0], c) + CountIn(parts[1..], c)
  }

  /** Joining with a one-character separator adds exactly one occurrence of it
      between consecutive parts, to those the parts already hold. */
  lemma {:induction false} JoinCount(c: char, parts: seq<string>)
    requires parts != []
    ensures CountChar(Join([c], parts), c) == CountIn(parts, c) + |parts| - 1
    decreases |parts|
  {
    if |parts| == 1 {
      assert parts[1..] == [];
    } else {
      JoinCount(c, parts[1..]);
      CountCharAppend(parts[0], [c], c);
      CountCharAppend(parts[0] + [c], Join([c], parts[1..]), c);
      assert Join([c], parts) == parts[0] + [c] + Join([c], parts[1..]);
      assert CountChar([c], c) == 1 by {
        assert [c][1..] == [];
      }
    }
  }

  /** Joining two non-empty lists of parts is joining each and putting one
      separator between them. */
  lemma {:induction false} JoinAppend(sep: string, a: seq<string>, b: seq<string>)
    requires a != [] && b != []
    ensures Join(sep, a + b) == Join(sep, a) + sep + Join(sep, b)
    decreases |a|
  {
    if |a| == 1 {
      assert (a + b)[1..] == b;
    } else {
      assert (a + b)[1..] == a[1..] + b;
      JoinAppend(sep, a[1..], b);
      AppendAssoc4(a[0], sep, Join(sep, a[1..]), sep + Join(sep, b));
      AppendAssoc(a[0] + sep + Join(sep, a[1..]), sep, Join(sep, b));
    }
  }
}
