/** Python's `sorted` applied to a set, `str.join`, and `str` of an integer.
  * The SDK sorts every set it sends (recipients, tags, members, status and
  * code filters) so that requests are deterministic. */
module Ordering {

  /** `le` is a total order: total (hence reflexive), antisymmetric and
    * transitive. */
  ghost predicate IsTotalOrder<T(!new)>(le: (T, T) -> bool)
  {
    && (forall x, y :: le(x, y) || le(y, x))
    && (forall x, y :: le(x, y) && le(y, x) ==> x == y)
    && (forall x, y, z :: le(x, y) && le(y, z) ==> le(x, z))
  }

  predicate IsLeast<T>(m: T, s: set<T>, le: (T, T) -> bool)
  {
    forall y :: y in s ==> le(m, y)
  }

  ghost predicate SortedBy<T>(r: seq<T>, le: (T, T) -> bool)
  {
    forall i, j :: 0 <= i < j < |r| ==> le(r[i], r[j])
  }

  ghost predicate Distinct<T>(r: seq<T>)
  {
    forall i, j :: 0 <= i < j < |r| ==> r[i] != r[j]
  }

  lemma {:induction false} LeastExists<T(!new)>(s: set<T>, le: (T, T) -> bool)
    requires IsTotalOrder(le)
    requires s != {}
    ensures exists m :: m in s && IsLeast(m, s, le)
  {
    var x :| x in s;
    if s - {x} == {} {
      assert s == {x};
      assert IsLeast(x, s, le);
    } else {
      LeastExists(s - {x}, le);
      var m :| m in s - {x} && IsLeast(m, s - {x}, le);
      if le(x, m) {
        assert IsLeast(x, s, le);
      } else {
        assert IsLeast(m, s, le);
      }
    }
  }

  /** `sorted(s)`: the least element first, then the rest sorted. Its
    * properties are stated by `SortedSetIsSorted`, so that a mention of a
    * sorted set costs the verifier nothing until they are needed. */
  function SortedSet<T(!new)>(s: set<T>, le: (T, T) -> bool): seq<T>
    requires IsTotalOrder(le)
    decreases |s|
  {
    if s == {} then []
    else
      LeastExists(s, le);
      var m :| m in s && IsLeast(m, s, le);
      [m] + SortedSet(s - {m}, le)
  }

  /** `sorted(s)` holds the elements of `s`, each once, in ascending order. */
  lemma {:induction false} SortedSetIsSorted<T(!new)>(s: set<T>, le: (T, T) -> bool)
    requires IsTotalOrder(le)
    ensures |SortedSet(s, le)| == |s|
    ensures forall x :: x in SortedSet(s, le) <==> x in s
    ensures SortedBy(SortedSet(s, le), le)
    ensures Distinct(SortedSet(s, le))
    decreases |s|
  {
    if s != {} {
      var r := SortedSet(s, le);
      var m := r[0];
      assert m in s && IsLeast(m, s, le) && r[1..] == SortedSet(s - {m}, le);
      SortedSetIsSorted(s - {m}, le);
      assert r == [m] + r[1..];
      forall i, j | 0 <= i < j < |r| ensures le(r[i], r[j]) {
        if i > 0 {
          assert r[i] == r[1..][i - 1] && r[j] == r[1..][j - 1];
        } else {
          assert r[j] == r[1..][j - 1];
        }
      }
      forall i, j | 0 <= i < j < |r| ensures r[i] != r[j] {
        assert r[j] == r[1..][j - 1];
        if i > 0 {
          assert r[i] == r[1..][i - 1];
        }
      }
    }
  }

  /** Python's ordering of `str` values: code point by code point, a proper
    * prefix first. */
  predicate StringLe(a: string, b: string)
    decreases |a|
  {
    if |a| == 0 then true
    else if |b| == 0 then false
    else if a[0] != b[0] then a[0] < b[0]
    else StringLe(a[1..], b[1..])
  }

  lemma {:induction false} StringLeTotal(a: string, b: string)
    ensures StringLe(a, b) || StringLe(b, a)
    decreases |a|
  {
    if |a| > 0 && |b| > 0 && a[0] == b[0] {
      StringLeTotal(a[1..], b[1..]);
    }
  }

  lemma {:induction false} StringLeAntisymmetric(a: string, b: string)
    requires StringLe(a, b) && StringLe(b, a)
    ensures a == b
    decreases |a|
  {
    if |a| > 0 && |b| > 0 {
      StringLeAntisymmetric(a[1..], b[1..]);
      assert a == [a[0]] + a[1..] && b == [b[0]] + b[1..];
    }
  }

  lemma {:induction false} StringLeTransitive(a: string, b: string, c: string)
    requires StringLe(a, b) && StringLe(b, c)
    ensures StringLe(a, c)
    decreases |a|
  {
    if |a| > 0 && |b| > 0 && |c| > 0 && a[0] == b[0] && b[0] == c[0] {
      StringLeTransitive(a[1..], b[1..], c[1..]);
    }
  }

  lemma StringLeIsTotalOrder()
    ensures IsTotalOrder(StringLe)
  {
    forall x, y ensures StringLe(x, y) || StringLe(y, x) {
      StringLeTotal(x, y);
    }
    forall x, y | StringLe(x, y) && StringLe(y, x) ensures x == y {
      StringLeAntisymmetric(x, y);
    }
    forall x, y, z | StringLe(x, y) && StringLe(y, z) ensures StringLe(x, z) {
      StringLeTransitive(x, y, z);
    }
  }

  /** `sorted` on a set of strings. */
  function SortedStrings(s: set<string>): seq<string>
  {
    StringLeIsTotalOrder();
    SortedSet(s, StringLe)
  }

  lemma SortedStringsIsSorted(s: set<string>)
    ensures |SortedStrings(s)| == |s| && (forall x :: x in SortedStrings(s) <==> x in s)
    ensures SortedBy(SortedStrings(s), StringLe) && Distinct(SortedStrings(s))
  {
    StringLeIsTotalOrder();
    SortedSetIsSorted(s, StringLe);
  }

  predicate IntLe(a: int, b: int)
  {
    a <= b
  }

  /** `sorted` on a set of integers (delivery status codes). */
  function SortedInts(s: set<int>): seq<int>
  {
    SortedSet(s, IntLe)
  }

  /** `sorted` on a set of integers is strictly increasing. */
  lemma SortedIntsIncreasing(s: set<int>)
    ensures |SortedInts(s)| == |s| && (forall x :: x in SortedInts(s) <==> x in s)
    ensures forall i, j :: 0 <= i < j < |SortedInts(s)| ==> SortedInts(s)[i] < SortedInts(s)[j]
  {
    SortedSetIsSorted(s, IntLe);
  }

  /** `sep.join(xs)`. */
  function Join(sep: string, xs: seq<string>): string
  {
    if |xs| == 0 then ""
    else if |xs| == 1 then xs[0]
    else xs[0] + sep + Join(sep, xs[1..])
  }

  function DigitChar(d: int): char
    requires 0 <= d < 10
  {
    ('0' as int + d) as char
  }

  function NaturalString(n: nat): (r: string)
    ensures |r| > 0 && forall i :: 0 <= i < |r| ==> '0' <= r[i] <= '9'
  {
    if n < 10 then [DigitChar(n)] else NaturalString(n / 10) + [DigitChar(n % 10)]
  }

  /** `str(n)` (also `'%d' % n`) for an integer: its decimal digits, with a
    * leading minus sign when negative. */
  function DecimalString(n: int): (r: string)
    ensures |r| > 0
    ensures n >= 0 ==> forall i :: 0 <= i < |r| ==> '0' <= r[i] <= '9'
    ensures n < 0 ==> r[0] == '-'
  {
    if n < 0 then "-" + NaturalString(-n) else NaturalString(n)
  }

  /** `s.split(sep)` for a one-character separator: the runs between the
    * separators, an empty run included; never an empty list. */
  function Split(s: string, sep: char): (r: seq<string>)
    ensures |r| > 0
  {
    if |s| == 0 then [""]
    else
      var rest := Split(s[1..], sep);
      if s[0] == sep then [""] + rest else [[s[0]] + rest[0]] + rest[1..]
  }

  /** A leading run without separators ends up at the head of the first piece. */
  lemma {:induction false} SplitPrefix(x: string, t: string, sep: char)
    requires sep !in x
    ensures Split(x + t, sep) == [x + Split(t, sep)[0]] + Split(t, sep)[1..]
  {
    if |x| > 0 {
      var pieces := Split(t, sep);
      SplitPrefix(x[1..], t, sep);
      assert x[0] in x;
      assert (x + t)[0] == x[0] && (x + t)[1..] == x[1..] + t;
      var rest := Split(x[1..] + t, sep);
      assert rest[0] == x[1..] + pieces[0] && rest[1..] == pieces[1..];
      assert [x[0]] + (x[1..] + pieces[0]) == x + pieces[0];
    } else {
      var pieces := Split(t, sep);
      assert x + t == t && x + pieces[0] == pieces[0];
      assert pieces == [pieces[0]] + pieces[1..];
    }
  }

  /** Splitting a joined list gives the list back, provided no element holds
    * the separator: the comma-joined filters of a request can be read back. */
  lemma {:induction false} SplitJoin(xs: seq<string>, sep: char)
    requires |xs| > 0
    requires forall i :: 0 <= i < |xs| ==> sep !in xs[i]
    ensures Split(Join([sep], xs), sep) == xs
  {
    if |xs| == 1 {
      SplitPrefix(xs[0], "", sep);
      assert xs[0] + "" == xs[0];
    } else {
      var rest := Join([sep], xs[1..]);
      SplitJoin(xs[1..], sep);
      assert Join([sep], xs) == xs[0] + ([sep] + rest);
      SplitPrefix(xs[0], [sep] + rest, sep);
      assert ([sep] + rest)[1..] == rest;
      assert Split([sep] + rest, sep) == [""] + Split(rest, sep);
      assert xs[0] + "" == xs[0];
      assert xs == [xs[0]] + xs[1..];
    }
  }

  lemma {:induction false} NaturalStringInjective(a: nat, b: nat)
    requires NaturalString(a) == NaturalString(b)
    ensures a == b
    decreases a
  {
    var r := NaturalString(a);
    if a >= 10 && b >= 10 {
      var ra, rb := NaturalString(a / 10), NaturalString(b / 10);
      assert r == ra + [DigitChar(a % 10)] && r == rb + [DigitChar(b % 10)];
      assert |ra| == |rb|;
      assert r[|r| - 1] == DigitChar(a % 10) == DigitChar(b % 10);
      assert ra == r[..|r| - 1] == rb;
      NaturalStringInjective(a / 10, b / 10);
    } else if a < 10 && b < 10 {
      assert r[0] == DigitChar(a) && r[0] == DigitChar(b);
    }
  }

  /** Different integers have different decimal strings, so a number written
    * into a request can be read back. */
  lemma DecimalStringInjective(a: int, b: int)
    requires DecimalString(a) == DecimalString(b)
    ensures a == b
  {
    var r := DecimalString(a);
    if a < 0 && b < 0 {
      assert NaturalString(-a) == r[1..] == NaturalString(-b);
      NaturalStringInjective(-a, -b);
    } else if a >= 0 && b >= 0 {
      NaturalStringInjective(a, b);
    }
  }
}
