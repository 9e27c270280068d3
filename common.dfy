/** Option and Result, the shapes every module below uses for "absent" and
    "failed" values in place of JavaScript's null and thrown errors. */
module Common {

  datatype Option<+T> = None | Some(value: T)

  datatype Result<+T, +E> = Ok(value: T) | Err(error: E)
}

/** Order-preserving subsequences and the filter that produces them
    (JavaScript's `Array.prototype.filter`). */
module Seqs {

  /** `a` is obtained from `b` by deleting elements, keeping the order. */
  predicate Subsequence<T(==)>(a: seq<T>, b: seq<T>)
    decreases |b|
  {
    if b == [] then a == []
    else Subsequence(a, b[1..]) || (a != [] && a[0] == b[0] && Subsequence(a[1..], b[1..]))
  }

  lemma {:induction false} SubsequenceRefl<T>(a: seq<T>)
    ensures Subsequence(a, a)
    decreases |a|
  {
    if a != [] {
      SubsequenceRefl(a[1..]);
    }
  }

  lemma {:induction false} SubsequenceLength<T>(a: seq<T>, b: seq<T>)
    requires Subsequence(a, b)
    ensures |a| <= |b|
    decreases |b|
  {
    if b != [] {
      if Subsequence(a, b[1..]) {
        SubsequenceLength(a, b[1..]);
      } else {
        SubsequenceLength(a[1..], b[1..]);
      }
    }
  }

  /** Every element of a subsequence is an element of the whole. */
  lemma {:induction false} SubsequenceMembers<T>(a: seq<T>, b: seq<T>, x: T)
    requires Subsequence(a, b) && x in a
    ensures x in b
    decreases |b|
  {
    if b != [] {
      if Subsequence(a, b[1..]) {
        SubsequenceMembers(a, b[1..], x);
      } else if x != a[0] {
        SubsequenceMembers(a[1..], b[1..], x);
      }
    }
  }

  /** The elements of `xs` that satisfy `p`, in their original order. */
  function Filter<T>(xs: seq<T>, p: T -> bool): (r: seq<T>)
    ensures |r| <= |xs|
    ensures forall k :: 0 <= k < |r| ==> p(r[k])
    ensures forall k :: 0 <= k < |r| ==> r[k] in xs
    ensures forall k :: 0 <= k < |xs| && p(xs[k]) ==> xs[k] in r
    decreases |xs|
  {
    if xs == [] then []
    else if p(xs[0]) then [xs[0]] + Filter(xs[1..], p)
    else Filter(xs[1..], p)
  }

  lemma {:induction false} FilterIsSubsequence<T>(xs: seq<T>, p: T -> bool)
    ensures Subsequence(Filter(xs, p), xs)
    decreases |xs|
  {
    if xs != [] {
      FilterIsSubsequence(xs[1..], p);
      if p(xs[0]) {
        assert ([xs[0]] + Filter(xs[1..], p))[1..] == Filter(xs[1..], p);
      }
    }
  }

  /** Filtering distributes over concatenation. */
  lemma {:induction false} FilterConcat<T>(a: seq<T>, b: seq<T>, p: T -> bool)
    ensures Filter(a + b, p) == Filter(a, p) + Filter(b, p)
    decreases |a|
  {
    if a != [] {
      FilterConcat(a[1..], b, p);
      assert (a + b)[0] == a[0] && (a + b)[1..] == a[1..] + b;
    } else {
      assert a + b == b;
    }
  }

  /** Appending one element to the whole keeps a subsequence a subsequence, with
      or without appending it to the part as well. */
  lemma {:induction false} SubsequenceSnoc<T>(a: seq<T>, b: seq<T>, x: T)
    requires Subsequence(a, b)
    ensures Subsequence(a, b + [x])
    ensures Subsequence(a + [x], b + [x])
    decreases |b|
  {
    if b == [] {
      assert a == [];
      assert [x][1..] == [];
      assert a + [x] == [x];
    } else {
      assert (b + [x])[1..] == b[1..] + [x];
      if Subsequence(a, b[1..]) {
        SubsequenceSnoc(a, b[1..], x);
      } else {
        SubsequenceSnoc(a[1..], b[1..], x);
        assert (a + [x])[1..] == a[1..] + [x];
      }
    }
  }

  /** A filter that every element passes returns its input. */
  lemma {:induction false} FilterKeepsAll<T>(xs: seq<T>, p: T -> bool)
    requires forall k :: 0 <= k < |xs| ==> p(xs[k])
    ensures Filter(xs, p) == xs
    decreases |xs|
  {
    if xs != [] {
      FilterKeepsAll(xs[1..], p);
      assert [xs[0]] + xs[1..] == xs;
    }
  }

  /** Filtering with predicates that agree on every element gives the same result. */
  lemma {:induction false} FilterCongruent<T>(xs: seq<T>, p: T -> bool, q: T -> bool)
    requires forall k :: 0 <= k < |xs| ==> p(xs[k]) == q(xs[k])
    ensures Filter(xs, p) == Filter(xs, q)
    decreases |xs|
  {
    if xs != [] {
      FilterCongruent(xs[1..], p, q);
    }
  }

  /** A filter whose predicate is weaker keeps at least the same elements. */
  lemma {:induction false} FilterMonotone<T>(xs: seq<T>, p: T -> bool, q: T -> bool)
    requires forall k :: 0 <= k < |xs| ==> p(xs[k]) ==> q(xs[k])
    ensures Subsequence(Filter(xs, p), Filter(xs, q))
    decreases |xs|
  {
    if xs != [] {
      FilterMonotone(xs[1..], p, q);
      var fp, fq := Filter(xs[1..], p), Filter(xs[1..], q);
      if p(xs[0]) {
        assert ([xs[0]] + fp)[1..] == fp && ([xs[0]] + fq)[1..] == fq;
      } else if q(xs[0]) {
        assert ([xs[0]] + fq)[1..] == fq;
      }
    }
  }
}

/** String operations with the JavaScript semantics the pages rely on.
    Letter case is ASCII only; `Trim` removes the ASCII white space and
    line terminators, the no-break space and the byte-order mark. */
module Text {

  import opened Common

  predicate StartsWith(s: string, p: string)
  {
    |p| <= |s| && s[..|p|] == p
  }

  /** `p` occurs in `s` starting at offset `i`. */
  predicate OccursAt(s: string, p: string, i: int)
  {
    0 <= i && i + |p| <= |s| && s[i..i + |p|] == p
  }

  /** JavaScript's `s.includes(p)`. */
  predicate Contains(s: string, p: string)
    decreases |s|
  {
    StartsWith(s, p) || (|s| > 0 && Contains(s[1..], p))
  }

  /** `p` found at offset `i` of `s` means `s` contains `p`. */
  lemma {:induction false} ContainsAt(s: string, p: string, i: nat)
    requires OccursAt(s, p, i)
    ensures Contains(s, p)
    decreases i
  {
    if i > 0 {
      assert s[1..][i - 1..i - 1 + |p|] == s[i..i + |p|];
      ContainsAt(s[1..], p, i - 1);
    }
  }

  /** `Contains` holds exactly when there is an offset where `p` occurs. */
  lemma {:induction false} ContainsOffset(s: string, p: string)
    requires Contains(s, p)
    ensures exists i :: OccursAt(s, p, i)
    decreases |s|
  {
    if !StartsWith(s, p) {
      ContainsOffset(s[1..], p);
      var j :| OccursAt(s[1..], p, j);
      assert s[j + 1..j + 1 + |p|] == s[1..][j..j + |p|];
      assert OccursAt(s, p, j + 1);
    } else {
      assert OccursAt(s, p, 0);
    }
  }

  lemma ContainsInfix(a: string, b: string, c: string)
    ensures Contains(a + b + c, b)
  {
    assert (a + b + c)[|a|..|a| + |b|] == b;
    assert OccursAt(a + b + c, b, |a|);
    ContainsAt(a + b + c, b, |a|);
  }

  /** Containment is transitive. */
  lemma ContainsTransitive(s: string, t: string, u: string)
    requires Contains(s, t) && Contains(t, u)
    ensures Contains(s, u)
  {
    ContainsOffset(s, t);
    ContainsOffset(t, u);
    var i :| OccursAt(s, t, i);
    var j :| OccursAt(t, u, j);
    assert s[i + j..i + j + |u|] == u by {
      forall k | 0 <= k < |u|
        ensures s[i + j..i + j + |u|][k] == u[k]
      {
        assert u[k] == t[j + k] == s[i + (j + k)];
      }
    }
    assert OccursAt(s, u, i + j);
    ContainsAt(s, u, i + j);
  }

  /** The first two characters of `p` never stand next to each other in `s`. */
  predicate NoPair(s: string, p: string)
    requires |p| >= 2
  {
    forall i :: 0 <= i < |s| - 1 ==> !(s[i] == p[0] && s[i + 1] == p[1])
  }

  /** The pair is absent from a concatenation when it is absent from both parts
      and does not straddle the seam. */
  lemma NoPairConcat(a: string, b: string, p: string)
    requires |p| >= 2 && NoPair(a, p) && NoPair(b, p)
    requires a != [] && b != [] ==> !(a[|a| - 1] == p[0] && b[0] == p[1])
    ensures NoPair(a + b, p)
  {
    var s := a + b;
    forall i | 0 <= i < |s| - 1
      ensures !(s[i] == p[0] && s[i + 1] == p[1])
    {
      if i + 1 < |a| {
        assert s[i] == a[i] && s[i + 1] == a[i + 1];
      } else if i >= |a| {
        assert s[i] == b[i - |a|] && s[i + 1] == b[i + 1 - |a|];
      }
    }
  }

  /** A pattern whose first two characters never stand next to each other in `s`
      does not occur in `s`. */
  lemma {:induction false} PairAbsent(s: string, p: string)
    requires |p| >= 2 && NoPair(s, p)
    ensures !Contains(s, p)
    decreases |s|
  {
    if |s| >= |p| {
      assert s[..|p|][0] == s[0] && s[..|p|][1] == s[1];
    }
    if |s| > 0 {
      PairAbsent(s[1..], p);
    }
  }

  // ---------------------------------------------------------------- letter case

  function LowerChar(c: char): char
  {
    if 'A' <= c <= 'Z' then (c as int + 32) as char else c
  }

  function UpperChar(c: char): char
  {
    if 'a' <= c <= 'z' then (c as int - 32) as char else c
  }

  /** `toLowerCase()`, restricted to ASCII letters. */
  function Lower(s: string): (r: string)
    ensures |r| == |s|
    ensures forall i :: 0 <= i < |s| ==> r[i] == LowerChar(s[i])
    decreases |s|
  {
    if s == [] then [] else [LowerChar(s[0])] + Lower(s[1..])
  }

  lemma LowerIdempotent(s: string)
    ensures Lower(Lower(s)) == Lower(s)
  {
  }

  /** Lower-casing commutes with taking a slice. */
  lemma {:induction false} LowerSlice(s: string, i: nat, j: nat)
    requires i <= j <= |s|
    ensures Lower(s)[i..j] == Lower(s[i..j])
  {
    forall k | 0 <= k < j - i
      ensures Lower(s)[i..j][k] == Lower(s[i..j])[k]
    {
      assert s[i..j][k] == s[i + k];
    }
  }

  /** Lower-casing preserves containment. */
  lemma LowerKeepsContains(s: string, p: string)
    requires Contains(s, p)
    ensures Contains(Lower(s), Lower(p))
  {
    ContainsOffset(s, p);
    var i :| OccursAt(s, p, i);
    LowerSlice(s, i, i + |p|);
    assert OccursAt(Lower(s), Lower(p), i);
    ContainsAt(Lower(s), Lower(p), i);
  }

  // ---------------------------------------------------------------- white space

  /** The characters `String.prototype.trim` removes that this model knows of. */
  predicate IsSpace(c: char)
  {
    c == ' ' || c == '\t' || c == '\n' || c == '\r' || c == '\U{000B}' || c == '\U{000C}'
    || c == '\U{00A0}' || c == '\U{FEFF}'
  }

  function TrimStart(s: string): (r: string)
    ensures |r| <= |s| && r == s[|s| - |r|..]
    ensures r != [] ==> !IsSpace(r[0])
    ensures forall i :: 0 <= i < |s| - |r| ==> IsSpace(s[i])
    decreases |s|
  {
    if s != [] && IsSpace(s[0]) then TrimStart(s[1..]) else s
  }

  function TrimEnd(s: string): (r: string)
    ensures |r| <= |s| && r == s[..|r|]
    ensures r != [] ==> !IsSpace(r[|r| - 1])
    ensures forall i :: |r| <= i < |s| ==> IsSpace(s[i])
    decreases |s|
  {
    if s != [] && IsSpace(s[|s| - 1]) then TrimEnd(s[..|s| - 1]) else s
  }

  /** `trim()`: the longest infix of `s` that neither starts nor ends with white
      space; empty exactly when `s` is all white space. */
  function Trim(s: string): (r: string)
    ensures exists i :: OccursAt(s, r, i)
    ensures r != [] ==> !IsSpace(r[0]) && !IsSpace(r[|r| - 1])
    ensures r == [] <==> forall i :: 0 <= i < |s| ==> IsSpace(s[i])
  {
    var t := TrimStart(s);
    var r := TrimEnd(t);
    assert r == s[|s| - |t|..|s| - |t| + |r|];
    assert OccursAt(s, r, |s| - |t|);
    r
  }

  // ---------------------------------------------------------------- numbers

  predicate IsDigit(c: char)
  {
    '0' <= c <= '9'
  }

  function DigitChar(d: nat): (c: char)
    requires d < 10
    ensures IsDigit(c) && DigitValue(c) == d
  {
    ('0' as int + d) as char
  }

  function DigitValue(c: char): nat
    requires IsDigit(c)
  {
    c as int - '0' as int
  }

  /** The value of a string of decimal digits. */
  function DigitsValue(s: string): nat
    requires forall i :: 0 <= i < |s| ==> IsDigit(s[i])
    decreases |s|
  {
    if s == [] then 0 else DigitsValue(s[..|s| - 1]) * 10 + DigitValue(s[|s| - 1])
  }

  /** Decimal rendering of a natural number, as JavaScript's `String(n)`. */
  function NatToString(n: nat): (r: string)
    ensures r != [] && forall i :: 0 <= i < |r| ==> IsDigit(r[i])
    ensures r[0] == '0' ==> r == "0"
    decreases n
  {
    if n < 10 then [DigitChar(n)] else NatToString(n / 10) + [DigitChar(n % 10)]
  }

  /** Reading back a rendered number gives the number. */
  lemma {:induction false} NatToStringValue(n: nat)
    ensures DigitsValue(NatToString(n)) == n
    decreases n
  {
    if n >= 10 {
      NatToStringValue(n / 10);
      var s := NatToString(n);
      assert s[..|s| - 1] == NatToString(n / 10);
    }
  }

  function IntToString(n: int): (r: string)
    ensures r != []
  {
    if n < 0 then "-" + NatToString(-n) else NatToString(n)
  }

  /** The longest prefix of `s` made of digits. */
  function DigitPrefix(s: string): (r: string)
    ensures |r| <= |s| && r == s[..|r|]
    ensures forall i :: 0 <= i < |r| ==> IsDigit(r[i])
    ensures |r| < |s| ==> !IsDigit(s[|r|])
    decreases |s|
  {
    if s != [] && IsDigit(s[0]) then [s[0]] + DigitPrefix(s[1..]) else []
  }

  /** JavaScript's `parseInt(s, 10)`: leading white space is skipped, one sign is
      read, then the longest run of digits; no digits means NaN, here `None`. */
  function ParseInt(s: string): Option<int>
  {
    ParseSigned(TrimStart(s))
  }

  /** `parseInt` after the leading white space. */
  function ParseSigned(t: string): Option<int>
  {
    if t != [] && t[0] == '-' then
      var v := ParseDigits(t[1..]);
      if v.Some? then Some(-v.value) else None
    else if t != [] && t[0] == '+' then ParseDigits(t[1..])
    else ParseDigits(t)
  }

  /** The value of the leading digits of `t`, if there are any. */
  function ParseDigits(t: string): Option<int>
  {
    var digits := DigitPrefix(t);
    if digits == [] then None else Some(DigitsValue(digits))
  }

  lemma {:induction false} DigitPrefixOfDigits(d: string)
    requires forall i :: 0 <= i < |d| ==> IsDigit(d[i])
    ensures DigitPrefix(d) == d
    decreases |d|
  {
    if d != [] {
      DigitPrefixOfDigits(d[1..]);
      assert [d[0]] + d[1..] == d;
    }
  }

  /** A string that does not start with white space is its own `TrimStart`. */
  lemma TrimStartNoSpace(s: string)
    requires s != [] && !IsSpace(s[0])
    ensures TrimStart(s) == s
  {
  }

  lemma ParseDigitString(d: string)
    requires d != [] && forall i :: 0 <= i < |d| ==> IsDigit(d[i])
    ensures ParseInt(d) == Some(DigitsValue(d))
  {
    DigitPrefixOfDigits(d);
    assert IsDigit(d[0]);
    TrimStartNoSpace(d);
    assert ParseSigned(d) == ParseDigits(d);
  }

  lemma ParseNegativeDigitString(m: string, d: string)
    requires d != [] && forall i :: 0 <= i < |d| ==> IsDigit(d[i])
    requires m == "-" + d
    ensures ParseInt(m) == Some(-(DigitsValue(d) as int))
  {
    DigitPrefixOfDigits(d);
    assert m[0] == '-' && m[1..] == d;
    TrimStartNoSpace(m);
    assert ParseDigits(m[1..]) == Some(DigitsValue(d));
  }

  lemma ParsePlusDigitString(m: string, d: string)
    requires d != [] && forall i :: 0 <= i < |d| ==> IsDigit(d[i])
    requires m == "+" + d
    ensures ParseInt(m) == Some(DigitsValue(d))
  {
    DigitPrefixOfDigits(d);
    assert m[0] == '+' && m[1..] == d;
    TrimStartNoSpace(m);
    assert ParseDigits(m[1..]) == Some(DigitsValue(d));
  }

  /** `parseInt` reads back what `String(n)` writes, for every integer. */
  lemma ParseIntRoundTrip(n: int)
    ensures ParseInt(IntToString(n)) == Some(n)
  {
    var m: nat := if n < 0 then -n else n;
    NatToStringValue(m);
    if n < 0 {
      ParseNegativeDigitString(IntToString(n), NatToString(m));
    } else {
      ParseDigitString(NatToString(m));
    }
  }

  // ---------------------------------------------------------------- joining, file names

  /** `xs.join(sep)`. */
  function Join(xs: seq<string>, sep: string): string
    decreases |xs|
  {
    if xs == [] then ""
    else if |xs| == 1 then xs[0]
    else xs[0] + sep + Join(xs[1..], sep)
  }

  /** Every joined element occurs in the joined text. */
  lemma {:induction false} JoinContainsEach(xs: seq<string>, sep: string, k: nat)
    requires k < |xs|
    ensures Contains(Join(xs, sep), xs[k])
    decreases |xs|
  {
    if |xs| == 1 {
      ContainsInfix("", xs[0], "");
      assert "" + xs[0] + "" == xs[0];
    } else if k == 0 {
      ContainsInfix("", xs[0], sep + Join(xs[1..], sep));
      assert "" + xs[0] + (sep + Join(xs[1..], sep)) == Join(xs, sep);
    } else {
      JoinContainsEach(xs[1..], sep, k - 1);
      ContainsInfix(xs[0] + sep, Join(xs[1..], sep), "");
      assert xs[0] + sep + Join(xs[1..], sep) + "" == Join(xs, sep);
      ContainsTransitive(Join(xs, sep), Join(xs[1..], sep), xs[k]);
    }
  }

  /** `name.split(".").pop()`: the text after the last '.', or the whole name
      when it has no '.'. */
  function Extension(name: string): (r: string)
    ensures |r| <= |name| && r == name[|name| - |r|..]
    ensures '.' !in r
    ensures |r| < |name| ==> name[|name| - |r| - 1] == '.'
    decreases |name|
  {
    if name == [] then []
    else if name[|name| - 1] == '.' then []
    else
      var init := name[..|name| - 1];
      var e := Extension(init);
      assert name == init + [name[|name| - 1]];
      assert name[|name| - |e| - 1..] == init[|init| - |e|..] + [name[|name| - 1]];
      e + [name[|name| - 1]]
  }
}
