/** Strings: order and sorting, joining and splitting, decimal numbers. */
module Strings {

  import opened Common

  // ---------------------------------------------------------------- order

  predicate LexLe(a: string, b: string)
  {
    if a == [] then true
    else if b == [] then false
    else if a[0] == b[0] then LexLe(a[1..], b[1..])
    else a[0] < b[0]
  }

  lemma {:induction false} LexTotal(a: string, b: string)
    ensures LexLe(a, b) || LexLe(b, a)
  {
    if a != [] && b != [] && a[0] == b[0] {
      LexTotal(a[1..], b[1..]);
    }
  }

  lemma {:induction false} LexAntisymmetric(a: string, b: string)
    requires LexLe(a, b) && LexLe(b, a)
    ensures a == b
  {
    if a != [] && b != [] {
      LexAntisymmetric(a[1..], b[1..]);
      assert a == [a[0]] + a[1..] && b == [b[0]] + b[1..];
    }
  }

  lemma {:induction false} LexTransitive(a: string, b: string, c: string)
    requires LexLe(a, b) && LexLe(b, c)
    ensures LexLe(a, c)
  {
    if a != [] && a[0] == b[0] == c[0] {
      LexTransitive(a[1..], b[1..], c[1..]);
    }
  }

  /** The first difference decides, the smaller character first; a beginning comes before what it begins. */
  ghost predicate Precedes(a: string, b: string)
  {
    a <= b || exists i :: 0 <= i < |a| && i < |b| && a[..i] == b[..i] && a[i] < b[i]
  }

  lemma {:induction false} LexLeIff(a: string, b: string)
    ensures LexLe(a, b) <==> Precedes(a, b)
  {
    if a != [] && b != [] {
      if a[0] == b[0] {
        LexLeIff(a[1..], b[1..]);
        PrecedesTail(a, b);
      } else {
        FirstDiffers(a, b);
      }
    }
  }

  lemma FirstDiffers(a: string, b: string)
    requires a != [] && b != [] && a[0] != b[0]
    ensures Precedes(a, b) <==> a[0] < b[0]
  {
    assert a[..0] == b[..0];
    forall i | 0 < i <= |a| && i <= |b|
      ensures a[..i] != b[..i]
    {
      assert a[..i][0] != b[..i][0];
    }
  }

  lemma PrecedesTail(a: string, b: string)
    requires a != [] && b != [] && a[0] == b[0]
    ensures Precedes(a, b) <==> Precedes(a[1..], b[1..])
  {
    assert a == [a[0]] + a[1..] && b == [b[0]] + b[1..];
    if i :| 0 <= i < |a| && i < |b| && a[..i] == b[..i] && a[i] < b[i] {
      assert i > 0;
      assert a[1..][..i - 1] == a[..i][1..] && b[1..][..i - 1] == b[..i][1..];
      assert a[1..][i - 1] < b[1..][i - 1];
    }
    if i :| 0 <= i < |a[1..]| && i < |b[1..]| && a[1..][..i] == b[1..][..i] && a[1..][i] < b[1..][i] {
      assert a[..i + 1] == [a[0]] + a[1..][..i] && b[..i + 1] == [b[0]] + b[1..][..i];
      assert a[i + 1] < b[i + 1];
    }
  }

  // ---------------------------------------------------------------- sorting

  function Insert(x: string, xs: seq<string>): seq<string>
  {
    if xs == [] then [x]
    else if LexLe(x, xs[0]) then [x] + xs
    else [xs[0]] + Insert(x, xs[1..])
  }

  function Sort(xs: seq<string>): seq<string>
  {
    if xs == [] then [] else Insert(xs[0], Sort(xs[1..]))
  }

  ghost predicate Sorted(xs: seq<string>)
  {
    forall i, j | 0 <= i < j < |xs| :: LexLe(xs[i], xs[j])
  }

  lemma {:induction false} InsertPermutes(x: string, xs: seq<string>)
    ensures multiset(Insert(x, xs)) == multiset(xs) + multiset{x}
  {
    if xs != [] && !LexLe(x, xs[0]) {
      InsertPermutes(x, xs[1..]);
      assert xs == [xs[0]] + xs[1..];
    }
  }

  lemma InsertMembers(x: string, xs: seq<string>)
    ensures forall y | y in Insert(x, xs) :: y == x || y in xs
  {
    InsertPermutes(x, xs);
    forall y | y in Insert(x, xs)
      ensures y == x || y in xs
    {
      assert y in multiset(Insert(x, xs));
    }
  }

  lemma PrependSorted(x: string, xs: seq<string>)
    requires Sorted(xs) && forall y | y in xs :: LexLe(x, y)
    ensures Sorted([x] + xs)
  {
  }

  lemma {:induction false} InsertSorted(x: string, xs: seq<string>)
    requires Sorted(xs)
    ensures Sorted(Insert(x, xs))
  {
    if xs == [] {
    } else if LexLe(x, xs[0]) {
      forall y | y in xs
        ensures LexLe(x, y)
      {
        var j :| 0 <= j < |xs| && xs[j] == y;
        if j > 0 {
          LexTransitive(x, xs[0], y);
        }
      }
      PrependSorted(x, xs);
    } else {
      InsertSorted(x, xs[1..]);
      LexTotal(x, xs[0]);
      InsertMembers(x, xs[1..]);
      PrependSorted(xs[0], Insert(x, xs[1..]));
    }
  }

  lemma {:induction false} SortCorrect(xs: seq<string>)
    ensures Sorted(Sort(xs)) && multiset(Sort(xs)) == multiset(xs)
  {
    if xs != [] {
      SortCorrect(xs[1..]);
      InsertPermutes(xs[0], Sort(xs[1..]));
      InsertSorted(xs[0], Sort(xs[1..]));
      assert xs == [xs[0]] + xs[1..];
    }
  }

  /** There is only one sorted arrangement of a multiset of strings. */
  lemma {:induction false} SortedUnique(a: seq<string>, b: seq<string>)
    requires Sorted(a) && Sorted(b) && multiset(a) == multiset(b)
    ensures a == b
  {
    assert |a| == |multiset(a)| == |multiset(b)| == |b|;
    if a != [] {
      assert a[0] in multiset(b) && b[0] in multiset(a);
      FirstIsLeast(a, b[0]);
      FirstIsLeast(b, a[0]);
      LexAntisymmetric(a[0], b[0]);
      TailCount(a);
      TailCount(b);
      SortedUnique(a[1..], b[1..]);
    }
  }

  lemma TailCount(xs: seq<string>)
    requires xs != []
    ensures xs == [xs[0]] + xs[1..] && multiset(xs[1..]) == multiset(xs) - multiset{xs[0]}
  {
    assert xs == [xs[0]] + xs[1..];
  }

  lemma FirstIsLeast(xs: seq<string>, x: string)
    requires Sorted(xs) && x in multiset(xs)
    ensures xs != [] && LexLe(xs[0], x)
  {
    assert x in xs;
    LexTotal(x, x);
  }

  lemma SortMembers(xs: seq<string>)
    ensures |Sort(xs)| == |xs| && forall x | x in Sort(xs) :: x in xs
  {
    SortCorrect(xs);
    assert |Sort(xs)| == |multiset(Sort(xs))| == |multiset(xs)| == |xs|;
    forall x | x in Sort(xs)
      ensures x in xs
    {
      assert x in multiset(Sort(xs));
    }
  }

  lemma SortCanonical(a: seq<string>, b: seq<string>)
    ensures Sort(a) == Sort(b) <==> multiset(a) == multiset(b)
  {
    SortCorrect(a);
    SortCorrect(b);
    if multiset(a) == multiset(b) {
      SortedUnique(Sort(a), Sort(b));
    }
  }

  // ---------------------------------------------------------------- joining and splitting

  function Join(parts: seq<string>, separator: char): string
  {
    if parts == [] then []
    else if |parts| == 1 then parts[0]
    else parts[0] + [separator] + Join(parts[1..], separator)
  }

  /** Up to the first separator. */
  function Head(s: string, separator: char): string
  {
    if s == [] || s[0] == separator then [] else [s[0]] + Head(s[1..], separator)
  }

  lemma {:induction false} HeadLength(s: string, separator: char)
    ensures |Head(s, separator)| <= |s| && Head(s, separator) == s[..|Head(s, separator)|]
    ensures |Head(s, separator)| < |s| ==> s[|Head(s, separator)|] == separator
  {
    if s != [] && s[0] != separator {
      HeadLength(s[1..], separator);
      assert s == [s[0]] + s[1..];
    }
  }

  function Split(s: string, separator: char): seq<string>
    decreases |s|
  {
    var first := Head(s, separator);
    HeadLength(s, separator);
    if |first| == |s| then [s] else [first] + Split(s[|first| + 1..], separator)
  }

  lemma {:induction false} HeadOf(first: string, rest: string, separator: char)
    requires separator !in first
    requires rest == [] || rest[0] == separator
    ensures Head(first + rest, separator) == first
  {
    if first == [] {
      assert first + rest == rest;
    } else {
      HeadOf(first[1..], rest, separator);
      assert (first + rest)[1..] == first[1..] + rest;
      assert first == [first[0]] + first[1..];
    }
  }

  lemma {:induction false} SplitJoin(parts: seq<string>, separator: char)
    requires parts != [] && forall p | p in parts :: separator !in p
    ensures Split(Join(parts, separator), separator) == parts
  {
    var s := Join(parts, separator);
    assert parts[0] in parts;
    if |parts| == 1 {
      assert parts[0] + [] == parts[0];
      HeadOf(parts[0], [], separator);
    } else {
      var tail := Join(parts[1..], separator);
      assert s == parts[0] + ([separator] + tail);
      HeadOf(parts[0], [separator] + tail, separator);
      assert s[|parts[0]| + 1..] == tail;
      SplitJoin(parts[1..], separator);
      assert parts == [parts[0]] + parts[1..];
    }
  }

  // ---------------------------------------------------------------- decimal numbers

  const DIGITS := "0123456789"

  predicate IsDigit(c: char)
  {
    '0' <= c <= '9'
  }

  function Decimal(n: nat): (s: string)
    ensures s != [] && forall c | c in s :: IsDigit(c)
  {
    if n < 10 then [DIGITS[n]] else Decimal(n / 10) + [DIGITS[n % 10]]
  }

  function DigitValue(c: char): nat
    requires IsDigit(c)
  {
    (c as int) - ('0' as int)
  }

  predicate AllDigits(s: string)
  {
    s != [] && forall c | c in s :: IsDigit(c)
  }

  function Value(s: string): nat
    requires forall c | c in s :: IsDigit(c)
  {
    if s == [] then 0 else 10 * Value(s[..|s| - 1]) + DigitValue(s[|s| - 1])
  }

  /** Digits with an optional plus sign, at most 255. */
  function ParseU8(s: string): Option<nat>
  {
    var digits := if s != [] && s[0] == '+' then s[1..] else s;
    if AllDigits(digits) && Value(digits) <= 255 then Some(Value(digits)) else None
  }

  lemma {:induction false} DecimalValue(n: nat)
    ensures Value(Decimal(n)) == n
  {
    if n >= 10 {
      DecimalValue(n / 10);
      assert Decimal(n)[..|Decimal(n)| - 1] == Decimal(n / 10);
    }
  }

  /** One plus sign in front makes no difference, anything else in front does. */
  lemma ParseSigned(n: nat, c: char)
    requires !IsDigit(c)
    ensures ParseU8([c] + Decimal(n)) == if c == '+' && n <= 255 then Some(n) else None
  {
    DecimalValue(n);
    assert ([c] + Decimal(n))[1..] == Decimal(n);
    assert ([c] + Decimal(n))[0] == c;
  }

  lemma ParseDecimal(n: nat)
    ensures ParseU8(Decimal(n)) == if n <= 255 then Some(n) else None
  {
    DecimalValue(n);
    assert Decimal(n)[0] in Decimal(n);
  }
}
