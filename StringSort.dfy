/**
 * Java's natural ordering of strings (`String.compareTo`) and
 * `Collections.sort` applied to the key set of a map: the keys in strictly
 * increasing order. Characters are compared by code point.
 */
module StringSort {

  /** `a.compareTo(b) <= 0`: a prefix comes first, otherwise the first differing character decides. */
  predicate LexLe(a: string, b: string)
  {
    a == [] || (b != [] && (a[0] < b[0] || (a[0] == b[0] && LexLe(a[1..], b[1..]))))
  }

  lemma {:induction false} LexLeTotal(a: string, b: string)
    ensures LexLe(a, b) || LexLe(b, a)
  {
    if a != [] && b != [] && a[0] == b[0] {
      LexLeTotal(a[1..], b[1..]);
    }
  }

  lemma {:induction false} LexLeAntisymmetric(a: string, b: string)
    requires LexLe(a, b) && LexLe(b, a)
    ensures a == b
  {
    if a != [] {
      LexLeAntisymmetric(a[1..], b[1..]);
      assert a == [a[0]] + a[1..] && b == [b[0]] + b[1..];
    }
  }

  lemma {:induction false} LexLeTransitive(a: string, b: string, c: string)
    requires LexLe(a, b) && LexLe(b, c)
    ensures LexLe(a, c)
  {
    if a != [] && a[0] == b[0] && b[0] == c[0] {
      LexLeTransitive(a[1..], b[1..], c[1..]);
    }
  }

  /** Keys in strictly increasing order. */
  predicate StrictlySorted(r: seq<string>)
  {
    forall i, j :: 0 <= i < j < |r| ==> LexLe(r[i], r[j]) && r[i] != r[j]
  }

  /** The least key of a non-empty set. */
  ghost function MinString(s: set<string>): (m: string)
    requires s != {}
    ensures m in s
    ensures forall y :: y in s ==> LexLe(m, y)
    decreases |s|
  {
    var x :| x in s;
    LexLeTotal(x, x);
    if s == {x} then
      StillLeast(x, x, {});
      assert s == {} + {x};
      x
    else
      var rest := MinString(s - {x});
      LexLeTotal(x, rest);
      assert s == (s - {x}) + {x};
      if LexLe(x, rest) then
        LeastAbove(x, rest, s - {x});
        StillLeast(x, x, s - {x});
        x
      else
        StillLeast(rest, x, s - {x});
        rest
  }

  lemma StillLeast(m: string, x: string, t: set<string>)
    requires LexLe(m, x)
    requires forall y :: y in t ==> LexLe(m, y)
    ensures forall y :: y in t + {x} ==> LexLe(m, y)
  {
  }

  lemma LeastAbove(x: string, m: string, s: set<string>)
    requires LexLe(x, m)
    requires forall y :: y in s ==> LexLe(m, y)
    ensures forall y :: y in s ==> LexLe(x, y)
  {
    forall y | y in s ensures LexLe(x, y) {
      LexLeTransitive(x, m, y);
    }
  }

  /** `new ArrayList<>(map.keySet())` followed by `Collections.sort`. */
  ghost function SortedKeys(s: set<string>): (r: seq<string>)
    ensures |r| == |s|
    ensures forall x :: x in r <==> x in s
    ensures StrictlySorted(r)
    decreases |s|
  {
    if s == {} then []
    else
      var m := MinString(s);
      var rest := SortedKeys(s - {m});
      ConsSorted(m, rest, s);
      [m] + rest
  }

  /** Putting the least key in front of a sorted listing of the others keeps it sorted and complete. */
  lemma ConsSorted(m: string, rest: seq<string>, s: set<string>)
    requires m in s && forall y :: y in s ==> LexLe(m, y)
    requires |rest| == |s - {m}| && StrictlySorted(rest)
    requires forall x :: x in rest <==> x in s - {m}
    ensures |[m] + rest| == |s| && StrictlySorted([m] + rest)
    ensures forall x :: x in [m] + rest <==> x in s
  {
    assert s == (s - {m}) + {m};
    forall j | 0 <= j < |rest|
      ensures LexLe(m, rest[j]) && m != rest[j]
    {
      assert rest[j] in rest;
    }
    HeadSorted(m, rest);
  }

  /** A head below every element of a sorted tail gives a sorted sequence. */
  lemma HeadSorted(m: string, rest: seq<string>)
    requires StrictlySorted(rest)
    requires forall j :: 0 <= j < |rest| ==> LexLe(m, rest[j]) && m != rest[j]
    ensures StrictlySorted([m] + rest)
  {
    var r := [m] + rest;
    forall i, j | 0 <= i < j < |r|
      ensures LexLe(r[i], r[j]) && r[i] != r[j]
    {
      assert r[j] == rest[j - 1];
      if i > 0 {
        assert r[i] == rest[i - 1];
      }
    }
  }

  /** A set has exactly one strictly sorted listing, so the sort is determined by the keys alone. */
  lemma {:induction false} SortedUnique(r: seq<string>, s: set<string>)
    requires StrictlySorted(r)
    requires forall x :: x in r <==> x in s
    ensures r == SortedKeys(s)
    decreases |r|
  {
    if r == [] {
      assert s == {};
    } else {
      assert r[0] in r;
      var m := MinString(s);
      SortedHeadIsLeast(r, s);
      SortedTailListsRest(r, s);
      SortedUnique(r[1..], s - {m});
      SortedKeysCons(s, r[1..]);
      assert r == [r[0]] + r[1..];
    }
  }

  lemma SortedKeysCons(s: set<string>, tail: seq<string>)
    requires s != {} && tail == SortedKeys(s - {MinString(s)})
    ensures SortedKeys(s) == [MinString(s)] + tail
  {
  }

  /** The head of a strictly sorted listing of `s` is its least element. */
  lemma SortedHeadIsLeast(r: seq<string>, s: set<string>)
    requires r != [] && StrictlySorted(r)
    requires forall x :: x in r <==> x in s
    ensures r[0] in s && r[0] == MinString(s)
  {
    assert r[0] in r;
    var m := MinString(s);
    assert m in r;
    var k :| 0 <= k < |r| && r[k] == m;
    if k != 0 {
      assert r[0] in r;
      assert LexLe(r[0], r[k]) && r[0] != r[k];
      LexLeAntisymmetric(r[0], m);
    }
  }

  /** Its tail is a strictly sorted listing of the other elements. */
  lemma SortedTailListsRest(r: seq<string>, s: set<string>)
    requires r != [] && StrictlySorted(r) && r[0] in s
    requires forall x :: x in r <==> x in s
    ensures StrictlySorted(r[1..])
    ensures forall x :: x in r[1..] <==> x in s - {r[0]}
  {
    forall x
      ensures x in r[1..] <==> x in s - {r[0]}
    {
      if x in r[1..] {
        var j :| 1 <= j < |r| && r[j] == x;
        assert r[0] != r[j];
      }
      if x in s - {r[0]} {
        assert x in r;
        var j :| 0 <= j < |r| && r[j] == x;
        assert j != 0;
        assert r[1..][j - 1] == x;
      }
    }
    forall i, j | 0 <= i < j < |r| - 1
      ensures LexLe(r[1..][i], r[1..][j]) && r[1..][i] != r[1..][j]
    {
      assert r[1..][i] == r[i + 1] && r[1..][j] == r[j + 1];
    }
  }

  /**
   * `Collections.sort` on the key list, by repeatedly taking the least
   * remaining key; by SortedUnique any correct sort gives this result.
   */
  method SortKeys(keys: set<string>) returns (r: seq<string>)
    ensures r == SortedKeys(keys)
  {
    r := [];
    var rest := keys;
    while rest != {}
      invariant rest <= keys
      invariant forall x :: x in r <==> x in keys && x !in rest
      invariant StrictlySorted(r)
      invariant forall i, y :: 0 <= i < |r| && y in rest ==> LexLe(r[i], y) && r[i] != y
      decreases |rest|
    {
      ghost var least := MinString(rest);
      var m :| m in rest && forall y :: y in rest ==> LexLe(m, y);
      r := r + [m];
      rest := rest - {m};
    }
    SortedUnique(r, keys);
  }
}
