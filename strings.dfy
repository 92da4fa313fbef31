/** Strings as the registry sees them: the ordering `std::map<std::string, ...>`
    iterates in, the ascending enumeration of a set of names, and joining
    names with a separator. */
module Strings {

  /** `a` sorts no later than `b` in std::string's character-by-character
      lexicographic order (a proper prefix sorts first). */
  predicate LessEq(a: string, b: string)
    decreases |a|
  {
    |a| == 0 || (|b| > 0 && (a[0] < b[0] || (a[0] == b[0] && LessEq(a[1..], b[1..]))))
  }

  /** Strictly before: the order in which two distinct map keys are visited. */
  predicate Before(a: string, b: string) {
    LessEq(a, b) && a != b
  }

  lemma LessEqReflexive(a: string)
    ensures LessEq(a, a)
    decreases |a|
  {
    if |a| > 0 { LessEqReflexive(a[1..]); }
  }

  lemma LessEqTotal(a: string, b: string)
    ensures LessEq(a, b) || LessEq(b, a)
    decreases |a|
  {
    if |a| > 0 && |b| > 0 && a[0] == b[0] { LessEqTotal(a[1..], b[1..]); }
  }

  lemma LessEqAntisymmetric(a: string, b: string)
    requires LessEq(a, b) && LessEq(b, a)
    ensures a == b
    decreases |a|
  {
    if |a| > 0 {
      LessEqAntisymmetric(a[1..], b[1..]);
      assert a == [a[0]] + a[1..] && b == [b[0]] + b[1..];
    }
  }

  lemma LessEqTransitive(a: string, b: string, c: string)
    requires LessEq(a, b) && LessEq(b, c)
    ensures LessEq(a, c)
    decreases |a|
  {
    if |a| > 0 && a[0] == b[0] && b[0] == c[0] { LessEqTransitive(a[1..], b[1..], c[1..]); }
  }

  /** `m` is the smallest name of `s`. */
  predicate IsLeast(m: string, s: set<string>) {
    m in s && forall x :: x in s ==> LessEq(m, x)
  }

  lemma {:induction false} LeastExists(s: set<string>)
    requires s != {}
    ensures exists m :: IsLeast(m, s)
    decreases s
  {
    var y :| y in s;
    LessEqReflexive(y);
    if s != {y} {
      LeastExists(s - {y});
      var m :| IsLeast(m, s - {y});
      LessEqTotal(m, y);
      if LessEq(m, y) {
        assert IsLeast(m, s);
      } else {
        forall x | x in s ensures LessEq(y, x) {
          if x != y { LessEqTransitive(y, m, x); }
        }
        assert IsLeast(y, s);
      }
    } else {
      assert IsLeast(y, s);
    }
  }

  lemma LeastUnique(m: string, n: string, s: set<string>)
    requires IsLeast(m, s) && IsLeast(n, s)
    ensures m == n
  {
    LessEqAntisymmetric(m, n);
  }

  ghost function Least(s: set<string>): (m: string)
    requires s != {}
    ensures IsLeast(m, s)
  {
    LeastExists(s);
    var m :| IsLeast(m, s); m
  }

  /** The names of `s` in the order a std::map visits its keys: the least
      one, then the enumeration of the others. */
  ghost function SortedKeys(s: set<string>): (r: seq<string>)
    ensures |r| == |s|
    decreases s
  {
    if s == {} then []
    else
      var m := Least(s);
      [m] + SortedKeys(s - {m})
  }

  /** The enumeration holds exactly the names of `s`, each strictly before
      the next: ascending and without repetition. */
  lemma {:induction false} SortedKeysAscending(s: set<string>)
    ensures forall x :: x in s <==> x in SortedKeys(s)
    ensures forall i, j :: 0 <= i < j < |SortedKeys(s)| ==> Before(SortedKeys(s)[i], SortedKeys(s)[j])
    decreases s
  {
    if s != {} {
      var m := Least(s);
      var rest := SortedKeys(s - {m});
      SortedKeysAscending(s - {m});
      assert SortedKeys(s) == [m] + rest;
      forall i, j | 0 <= i < j < |SortedKeys(s)| ensures Before(SortedKeys(s)[i], SortedKeys(s)[j]) {
        if i == 0 {
          assert SortedKeys(s)[j] == rest[j - 1];
          assert rest[j - 1] in s - {m};
        }
      }
    }
  }

  /** A non-empty enumeration starts with the least name and ends with the
      greatest. */
  lemma {:induction false} SortedKeysEnds(s: set<string>)
    requires s != {}
    ensures IsLeast(SortedKeys(s)[0], s)
    ensures forall x :: x in s ==> LessEq(x, SortedKeys(s)[|s| - 1])
    decreases s
  {
    var m := Least(s);
    var rest := SortedKeys(s - {m});
    assert SortedKeys(s) == [m] + rest;
    if s - {m} == {} {
      assert s == {m};
      LessEqReflexive(m);
    } else {
      SortedKeysEnds(s - {m});
      var last := rest[|s - {m}| - 1];
      assert SortedKeys(s)[|s| - 1] == last;
      assert last in s - {m} by { SortedKeysAscending(s - {m}); }
      forall x | x in s ensures LessEq(x, SortedKeys(s)[|s| - 1]) {
        if x != m {
          assert x in s - {m};
        }
      }
    }
  }

  /** The enumeration starts with the least name and goes on with the rest. */
  lemma SortedKeysStep(s: set<string>, m: string)
    requires IsLeast(m, s)
    ensures SortedKeys(s) == [m] + SortedKeys(s - {m})
  {
    LeastUnique(m, Least(s), s);
  }

  /** One step of visiting the names in order: when `visited` followed by the
      enumeration of `remaining` is the whole enumeration, so is `visited`
      extended by the least remaining name, followed by the rest. */
  lemma EnumerationStep(names: set<string>, remaining: set<string>, visited: seq<string>, name: string)
    requires SortedKeys(names) == visited + SortedKeys(remaining)
    requires IsLeast(name, remaining)
    ensures SortedKeys(names) == (visited + [name]) + SortedKeys(remaining - {name})
  {
    SortedKeysStep(remaining, name);
    var rest := SortedKeys(remaining - {name});
    assert visited + ([name] + rest) == (visited + [name]) + rest;
  }

  /** `xs` written one after another with `sep` between neighbours, the way
      a stream is filled when a separator is written before every element
      but the first. */
  function JoinWith(xs: seq<string>, sep: string): string
  {
    if |xs| == 0 then ""
    else if |xs| == 1 then xs[0]
    else JoinWith(xs[..|xs| - 1], sep) + sep + xs[|xs| - 1]
  }

  /** Joining unfolds from the front as well as from the back. */
  lemma {:induction false} JoinWithCons(xs: seq<string>, sep: string)
    requires |xs| >= 2
    ensures JoinWith(xs, sep) == xs[0] + sep + JoinWith(xs[1..], sep)
    decreases |xs|
  {
    var n := |xs|;
    if n == 2 {
      assert xs[..1] == [xs[0]];
      assert xs[1..] == [xs[1]];
    } else {
      JoinWithCons(xs[..n - 1], sep);
      assert xs[..n - 1][1..] == xs[1..][..n - 2];
      assert xs[..n - 1][0] == xs[0];
      assert xs[1..][n - 2] == xs[n - 1];
    }
  }

  /** A joined list begins with its first element and ends with its last: no
      separator leads or trails. */
  lemma {:induction false} JoinWithEnds(xs: seq<string>, sep: string)
    requires |xs| >= 1
    ensures |JoinWith(xs, sep)| >= |xs[0]| && JoinWith(xs, sep)[..|xs[0]|] == xs[0]
    ensures |JoinWith(xs, sep)| >= |xs[|xs| - 1]|
    ensures JoinWith(xs, sep)[|JoinWith(xs, sep)| - |xs[|xs| - 1]|..] == xs[|xs| - 1]
  {
    if |xs| >= 2 {
      JoinWithCons(xs, sep);
      var rest := sep + JoinWith(xs[1..], sep);
      assert (xs[0] + rest)[..|xs[0]|] == xs[0];
    }
  }

  /** The joined length: every element once, and one separator per gap. */
  function TotalLength(xs: seq<string>): nat {
    if |xs| == 0 then 0 else TotalLength(xs[..|xs| - 1]) + |xs[|xs| - 1]|
  }

  lemma {:induction false} JoinWithLength(xs: seq<string>, sep: string)
    requires |xs| >= 1
    ensures |JoinWith(xs, sep)| == TotalLength(xs) + (|xs| - 1) * |sep|
    decreases |xs|
  {
    if |xs| >= 2 {
      JoinWithLength(xs[..|xs| - 1], sep);
      assert xs[..|xs| - 1][..|xs| - 2] == xs[..|xs| - 2];
    } else {
      assert xs[..0] == [];
    }
  }

  /** Appending one element adds a separator and the element (just the
      element when it is the first). */
  lemma JoinWithSnoc(xs: seq<string>, x: string, sep: string)
    ensures JoinWith(xs + [x], sep) == if xs == [] then x else JoinWith(xs, sep) + sep + x
  {
    assert (xs + [x])[..|xs|] == xs;
  }
}
