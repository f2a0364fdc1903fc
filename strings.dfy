/**
 * The Python string built-ins the kiwi core relies on, stated on `seq<char>`:
 * `sep.join(parts)` and its inverse `s.split(sep)`, `format(n)` for integers,
 * `os.path.basename`, and the code-point order that `sorted()` uses on strings.
 */
module Strings {

  // ---------------------------------------------------------------------------
  // str.join and str.split with a one-character separator
  // ---------------------------------------------------------------------------

  /** `[sep].join(parts)`: the parts with one separator between neighbours. */
  function Join(parts: seq<string>, sep: char): (r: string)
    ensures |parts| == 0 ==> r == ""
    ensures |parts| == 1 ==> r == parts[0]
  {
    if |parts| == 0 then ""
    else if |parts| == 1 then parts[0]
    else parts[0] + [sep] + Join(parts[1..], sep)
  }

  /** `s.split(sep)`: the maximal pieces between separators; never empty. */
  function Split(s: string, sep: char): (r: seq<string>)
    ensures |r| >= 1
    ensures sep !in s ==> r == [s]
    decreases |s|
  {
    if |s| == 0 then [""]
    else
      var rest := Split(s[1..], sep);
      if s[0] == sep then [""] + rest
      else
        assert [s[0]] + s[1..] == s;
        [[s[0]] + rest[0]] + rest[1..]
  }

  /** Splitting a piece followed by a separator peels that piece off. */
  lemma {:induction false} SplitAfterPiece(a: string, sep: char, b: string)
    requires sep !in a
    ensures Split(a + [sep] + b, sep) == [a] + Split(b, sep)
    decreases |a|
  {
    if |a| == 0 {
      assert a + [sep] + b == [sep] + b;
      assert ([sep] + b)[1..] == b;
    } else {
      var s := a + [sep] + b;
      assert s[0] == a[0];
      assert s[1..] == a[1..] + [sep] + b;
      SplitAfterPiece(a[1..], sep, b);
      assert [a[0]] + a[1..] == a;
    }
  }

  /** Python's `s.split(sep)` undoes `sep.join(parts)` whenever no part holds the separator. */
  lemma {:induction false} SplitJoin(parts: seq<string>, sep: char)
    requires |parts| >= 1
    requires forall i :: 0 <= i < |parts| ==> sep !in parts[i]
    ensures Split(Join(parts, sep), sep) == parts
    decreases |parts|
  {
    if |parts| > 1 {
      SplitJoin(parts[1..], sep);
      SplitAfterPiece(parts[0], sep, Join(parts[1..], sep));
      assert [parts[0]] + parts[1..] == parts;
    }
  }

  // ---------------------------------------------------------------------------
  // format(n) for integers
  // ---------------------------------------------------------------------------

  predicate IsDigit(c: char) { '0' <= c <= '9' }

  function DigitChar(d: nat): (c: char)
    requires d < 10
    ensures IsDigit(c)
  {
    ('0' as int + d) as char
  }

  function DigitValue(c: char): (d: nat)
    requires IsDigit(c)
    ensures d < 10 && DigitChar(d) == c
  {
    (c as int - '0' as int) as nat
  }

  /** `format(n)` for a natural number: its decimal digits, most significant first. */
  function NatToString(n: nat): (r: string)
    ensures |r| >= 1
    ensures forall i :: 0 <= i < |r| ==> IsDigit(r[i])
    decreases n
  {
    if n < 10 then [DigitChar(n)]
    else NatToString(n / 10) + [DigitChar(n % 10)]
  }

  /** `int(s)` for a string of decimal digits: the partner of NatToString. */
  function ParseNat(s: string): nat
    requires forall i :: 0 <= i < |s| ==> IsDigit(s[i])
    decreases |s|
  {
    if |s| == 0 then 0
    else ParseNat(s[..|s| - 1]) * 10 + DigitValue(s[|s| - 1])
  }

  /** Reading back the decimal form of `n` gives `n`. */
  lemma {:induction false} ParseNatToString(n: nat)
    ensures ParseNat(NatToString(n)) == n
    decreases n
  {
    var r := NatToString(n);
    if n >= 10 {
      ParseNatToString(n / 10);
      assert r[..|r| - 1] == NatToString(n / 10);
    }
  }

  /** Different numbers have different decimal forms. */
  lemma NatToStringInjective(m: nat, n: nat)
    requires NatToString(m) == NatToString(n)
    ensures m == n
  {
    ParseNatToString(m);
    ParseNatToString(n);
  }

  /** `format(i)` for any integer: a minus sign before the digits of a negative number. */
  function IntToString(i: int): (r: string)
    ensures |r| >= 1
    ensures r[0] == '-' <==> i < 0
  {
    if i < 0 then "-" + NatToString(-i) else NatToString(i)
  }

  // ---------------------------------------------------------------------------
  // os.path.basename
  // ---------------------------------------------------------------------------

  /**
   * `os.path.basename(p)`: the text after the last '/' of `p` (all of `p`
   * when it has none): the longest suffix of `p` without a '/'.
   */
  function Basename(p: string): (r: string)
    ensures '/' !in r
    ensures |r| <= |p|
    decreases |p|
  {
    if |p| == 0 || p[|p| - 1] == '/' then ""
    else Basename(p[..|p| - 1]) + [p[|p| - 1]]
  }

  /** The basename is a suffix of the path, preceded by a '/' unless it is the whole path. */
  lemma {:induction false} BasenameSuffix(p: string)
    ensures p[|p| - |Basename(p)|..] == Basename(p)
    ensures |Basename(p)| < |p| ==> p[|p| - |Basename(p)| - 1] == '/'
    decreases |p|
  {
    if |p| > 0 && p[|p| - 1] != '/' {
      var init := p[..|p| - 1];
      BasenameSuffix(init);
      var b := Basename(init);
      assert init[|init| - |b|..] + [p[|p| - 1]] == p[|p| - |b| - 1..];
      if |b| + 1 < |p| {
        assert p[|p| - |b| - 2] == init[|init| - |b| - 1];
      }
    }
  }

  /** A directory, a '/' and a name without '/' have that name as basename. */
  lemma {:induction false} BasenameOfJoin(dir: string, name: string)
    requires '/' !in name
    ensures Basename(dir + "/" + name) == name
    decreases |name|
  {
    var p := dir + "/" + name;
    if |name| > 0 {
      var init := name[..|name| - 1];
      assert p[..|p| - 1] == dir + "/" + init;
      assert p[|p| - 1] == name[|name| - 1];
      BasenameOfJoin(dir, init);
      assert init + [name[|name| - 1]] == name;
    }
  }

  // ---------------------------------------------------------------------------
  // Code-point order of str, as used by sorted()
  // ---------------------------------------------------------------------------

  /** Python's `a < b` on str: lexicographic by code point, a proper prefix first. */
  predicate Less(a: string, b: string)
    decreases |a|
  {
    if |a| == 0 then |b| > 0
    else |b| > 0 && (a[0] < b[0] || (a[0] == b[0] && Less(a[1..], b[1..])))
  }

  lemma {:induction false} LessIrreflexive(a: string)
    ensures !Less(a, a)
    decreases |a|
  {
    if |a| > 0 { LessIrreflexive(a[1..]); }
  }

  lemma {:induction false} LessTransitive(a: string, b: string, c: string)
    requires Less(a, b) && Less(b, c)
    ensures Less(a, c)
    decreases |a|
  {
    if |a| > 0 && a[0] == b[0] == c[0] {
      LessTransitive(a[1..], b[1..], c[1..]);
    }
  }

  /** Any two different strings are ordered one way or the other. */
  lemma {:induction false} LessTotal(a: string, b: string)
    ensures a == b || Less(a, b) || Less(b, a)
    decreases |a|
  {
    if |a| > 0 && |b| > 0 && a[0] == b[0] {
      LessTotal(a[1..], b[1..]);
      if a[1..] == b[1..] {
        assert a == [a[0]] + a[1..] && b == [b[0]] + b[1..];
      }
    }
  }

  lemma LessAsymmetric(a: string, b: string)
    requires Less(a, b)
    ensures !Less(b, a)
  {
    if Less(b, a) {
      LessTransitive(a, b, a);
      LessIrreflexive(a);
    }
  }

  // ---------------------------------------------------------------------------
  // sorted() over a set of distinct strings
  // ---------------------------------------------------------------------------

  ghost predicate StrictlyAscending(s: seq<string>)
  {
    forall i, j :: 0 <= i < j < |s| ==> Less(s[i], s[j])
  }

  /** `k` is the smallest element of `s`. */
  ghost predicate IsLeast(k: string, s: set<string>)
  {
    k in s && forall j :: j in s && j != k ==> Less(k, j)
  }

  /** Every finite non-empty set of strings has a smallest element. */
  lemma {:induction false} LeastExists(s: set<string>)
    requires s != {}
    ensures exists k :: IsLeast(k, s)
    decreases |s|
  {
    var x :| x in s;
    var rest := s - {x};
    if rest == {} {
      assert s == {x};
      assert IsLeast(x, s);
    } else {
      LeastExists(rest);
      var m :| IsLeast(m, rest);
      LessTotal(x, m);
      if Less(x, m) {
        forall j | j in s && j != x
          ensures Less(x, j)
        {
          if j != m { LessTransitive(x, m, j); }
        }
        assert IsLeast(x, s);
      } else {
        assert IsLeast(m, s);
      }
    }
  }

  /** The smallest element is unique. */
  lemma LeastUnique(k1: string, k2: string, s: set<string>)
    requires IsLeast(k1, s) && IsLeast(k2, s)
    ensures k1 == k2
  {
    if k1 != k2 { LessAsymmetric(k1, k2); }
  }

  /** `sorted(s)`: the smallest element first, then the rest sorted the same way. */
  ghost function Sorted(s: set<string>): (r: seq<string>)
    ensures |r| == |s|
    decreases |s|
  {
    if s == {} then []
    else
      LeastExists(s);
      var k :| IsLeast(k, s);
      [k] + Sorted(s - {k})
  }

  /** `sorted(s)` lists the elements of `s`, each once, in strictly ascending order. */
  lemma {:induction false} SortedSpec(s: set<string>)
    ensures forall k :: k in Sorted(s) <==> k in s
    ensures StrictlyAscending(Sorted(s))
    decreases |s|
  {
    if s != {} {
      var r := Sorted(s);
      assert IsLeast(r[0], s) && r == [r[0]] + Sorted(s - {r[0]});
      var rest := s - {r[0]};
      SortedSpec(rest);
      forall j | 0 < j < |r|
        ensures Less(r[0], r[j])
      {
        assert r[j] in Sorted(rest);
      }
    }
  }

  /** Sorting a non-empty set starts with its smallest element. */
  lemma SortedFirst(s: set<string>, k: string)
    requires IsLeast(k, s)
    ensures Sorted(s) == [k] + Sorted(s - {k})
  {
    var r := Sorted(s);
    assert IsLeast(r[0], s) && r == [r[0]] + Sorted(s - {r[0]});
    LeastUnique(k, r[0], s);
  }

  /** The selection loop of `sorted()`: repeatedly takes out the smallest remaining string. */
  method Least(s: set<string>) returns (k: string)
    requires s != {}
    ensures IsLeast(k, s)
  {
    k :| k in s;
    var rest := s - {k};
    while rest != {}
      invariant rest <= s && k in s && k !in rest
      invariant forall j :: j in s - rest && j != k ==> Less(k, j)
      decreases rest
    {
      var j :| j in rest;
      LessTotal(j, k);
      if Less(j, k) {
        forall x | x in s - rest && x != j
          ensures Less(j, x)
        {
          if x != k { LessTransitive(j, k, x); }
        }
        k := j;
      }
      rest := rest - {j};
    }
  }
}
