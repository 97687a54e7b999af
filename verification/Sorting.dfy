/** Strings in lexicographic order, as `sort.Strings` orders them. */
module Sorting {

  predicate Leq(a: string, b: string) {
    a == "" || (b != "" && (a[0] < b[0] || (a[0] == b[0] && Leq(a[1..], b[1..]))))
  }

  /** `a` comes first where they first differ, or `b` only goes on. */
  ghost predicate Precedes(a: string, b: string) {
    a <= b || exists i :: 0 <= i < |a| && i < |b| && a[..i] == b[..i] && a[i] < b[i]
  }

  lemma DiffersLater(a: string, b: string, i: nat)
    requires a != "" && b != "" && a[0] == b[0] && i < |a[1..]| && i < |b[1..]| && a[1..][..i] == b[1..][..i] && a[1..][i] < b[1..][i]
    ensures a[..i + 1] == b[..i + 1] && a[i + 1] < b[i + 1]
  {
    assert a[..i + 1] == [a[0]] + a[1..][..i] && b[..i + 1] == [b[0]] + b[1..][..i];
  }

  lemma DiffersSooner(a: string, b: string, i: nat)
    requires 0 < i < |a| && i < |b| && a[..i] == b[..i] && a[i] < b[i]
    ensures a[0] == b[0] && a[1..][..i - 1] == b[1..][..i - 1] && a[1..][i - 1] < b[1..][i - 1]
  {
    assert a[0] == a[..i][0] == b[..i][0] == b[0];
    assert a[1..][..i - 1] == a[..i][1..] && b[1..][..i - 1] == b[..i][1..];
  }

  /** The comparison is the order of the first difference. */
  lemma {:induction false} LeqIsLexicographic(a: string, b: string)
    ensures Leq(a, b) <==> a <= b || exists i :: 0 <= i < |a| && i < |b| && a[..i] == b[..i] && a[i] < b[i]
  {
    if a == "" || b == "" || a[0] != b[0] {
      if a != "" && b != "" && a[0] < b[0] {
        assert a[..0] == b[..0] && a[0] < b[0];
      }
    } else {
      LeqIsLexicographic(a[1..], b[1..]);
      assert a == [a[0]] + a[1..] && b == [b[0]] + b[1..];
      if i :| 0 <= i < |a| && i < |b| && a[..i] == b[..i] && a[i] < b[i] {
        DiffersSooner(a, b, i);
      }
      if i :| 0 <= i < |a[1..]| && i < |b[1..]| && a[1..][..i] == b[1..][..i] && a[1..][i] < b[1..][i] {
        DiffersLater(a, b, i);
      }
    }
  }

  lemma SortedMeans(s: seq<string>)
    ensures Sorted(s) <==> forall i, j :: 0 <= i < j < |s| ==> Precedes(s[i], s[j])
  {
    forall i, j | 0 <= i < j < |s| ensures Leq(s[i], s[j]) <==> Precedes(s[i], s[j]) {
      LeqIsLexicographic(s[i], s[j]);
    }
  }

  lemma {:induction false} LeqReflexive(a: string)
    ensures Leq(a, a)
  {
    if a != "" {
      LeqReflexive(a[1..]);
    }
  }

  lemma {:induction false} LeqTotal(a: string, b: string)
    ensures Leq(a, b) || Leq(b, a)
  {
    if a != "" && b != "" {
      LeqTotal(a[1..], b[1..]);
    }
  }

  lemma {:induction false} LeqAntisymmetric(a: string, b: string)
    requires Leq(a, b) && Leq(b, a)
    ensures a == b
  {
    if a != "" && b != "" {
      LeqAntisymmetric(a[1..], b[1..]);
      assert a == [a[0]] + a[1..] && b == [b[0]] + b[1..];
    }
  }

  lemma {:induction false} LeqTransitive(a: string, b: string, c: string)
    requires Leq(a, b) && Leq(b, c)
    ensures Leq(a, c)
  {
    if a != "" && a[0] == b[0] == c[0] {
      LeqTransitive(a[1..], b[1..], c[1..]);
    }
  }

  ghost predicate Sorted(s: seq<string>) {
    forall i, j :: 0 <= i < j < |s| ==> Leq(s[i], s[j])
  }

  ghost predicate Distinct(s: seq<string>) {
    forall i, j :: 0 <= i < j < |s| ==> s[i] != s[j]
  }

  ghost function Names(s: seq<string>): set<string> {
    set n | n in s
  }

  /** `s` lists every element of `names` exactly once. */
  ghost predicate Enumerates(s: seq<string>, names: set<string>) {
    Distinct(s) && Names(s) == names
  }

  function Insert(x: string, s: seq<string>): seq<string> {
    if s == [] then [x]
    else if Leq(x, s[0]) then [x] + s
    else [s[0]] + Insert(x, s[1..])
  }

  function Sort(s: seq<string>): seq<string> {
    if s == [] then [] else Insert(s[0], Sort(s[1..]))
  }

  lemma FromInsert(x: string, s: seq<string>, r: seq<string>, j: nat)
    requires multiset(r) == multiset(s) + multiset{x} && j < |r|
    ensures r[j] == x || exists k :: 0 <= k < |s| && s[k] == r[j]
  {
    assert r[j] in multiset(r);
    if r[j] != x {
      assert r[j] in multiset(s);
    }
  }

  lemma {:induction false} InsertKeepsOrder(x: string, s: seq<string>)
    requires Sorted(s)
    ensures Sorted(Insert(x, s))
    ensures multiset(Insert(x, s)) == multiset(s) + multiset{x}
  {
    if s == [] {
    } else if Leq(x, s[0]) {
      forall j | 0 <= j < |s| ensures Leq(x, s[j]) {
        if j > 0 { LeqTransitive(x, s[0], s[j]); }
      }
    } else {
      var r := Insert(x, s[1..]);
      InsertKeepsOrder(x, s[1..]);
      assert s == [s[0]] + s[1..];
      LeqTotal(x, s[0]);
      forall j | 0 <= j < |r| ensures Leq(s[0], r[j]) {
        FromInsert(x, s[1..], r, j);
      }
    }
  }

  lemma {:induction false} SortSorts(s: seq<string>)
    ensures Sorted(Sort(s))
    ensures multiset(Sort(s)) == multiset(s)
  {
    if s != [] {
      SortSorts(s[1..]);
      InsertKeepsOrder(s[0], Sort(s[1..]));
      assert s == [s[0]] + s[1..];
    }
  }

  lemma HeadsAgree(s: seq<string>, t: seq<string>)
    requires Sorted(s) && Sorted(t) && multiset(s) == multiset(t) && s != []
    ensures t != [] && s[0] == t[0]
  {
    assert s[0] in multiset(t);
    assert t[0] in multiset(s);
    LeqReflexive(s[0]);
    assert Leq(s[0], t[0]) && Leq(t[0], s[0]);
    LeqAntisymmetric(s[0], t[0]);
  }

  lemma {:induction false} SortedFormIsUnique(s: seq<string>, t: seq<string>)
    requires Sorted(s) && Sorted(t) && multiset(s) == multiset(t)
    ensures s == t
  {
    if s == [] {
      assert |t| == |multiset(t)| == 0;
    } else {
      HeadsAgree(s, t);
      assert s == [s[0]] + s[1..] && t == [t[0]] + t[1..];
      assert multiset(s[1..]) == multiset(s) - multiset{s[0]} == multiset(t) - multiset{t[0]} == multiset(t[1..]);
      SortedFormIsUnique(s[1..], t[1..]);
    }
  }

  lemma {:induction false} DistinctMultiset(s: seq<string>)
    requires Distinct(s)
    ensures multiset(s) == multiset(Names(s))
  {
    if s != [] {
      DistinctMultiset(s[1..]);
      assert s == [s[0]] + s[1..];
      assert Names(s) == {s[0]} + Names(s[1..]);
      assert s[0] !in Names(s[1..]);
    }
  }

  lemma EnumerationSize(s: seq<string>, names: set<string>)
    requires Enumerates(s, names)
    ensures |s| == |names|
  {
    DistinctMultiset(s);
    assert |multiset(s)| == |multiset(names)|;
  }

  lemma RepetitionCounts(t: seq<string>, i: nat, j: nat)
    requires i < j < |t| && t[i] == t[j]
    ensures multiset(t)[t[i]] >= 2
  {
    assert t == t[..i] + [t[i]] + t[i + 1..j] + [t[j]] + t[j + 1..];
  }

  lemma MultisetDecidesNames(s: seq<string>, t: seq<string>)
    requires Distinct(s) && multiset(s) == multiset(t)
    ensures Distinct(t) && Names(s) == Names(t)
  {
    DistinctMultiset(s);
    forall i, j | 0 <= i < j < |t| && t[i] == t[j] ensures false {
      RepetitionCounts(t, i, j);
    }
    forall n ensures n in s <==> n in t {
      assert n in s <==> n in multiset(s);
      assert n in t <==> n in multiset(t);
    }
  }

  /** Sorting is blind to the order its input came in. */
  lemma {:induction false} SortIgnoresOrder(s: seq<string>, t: seq<string>)
    requires Distinct(s) && Distinct(t) && Names(s) == Names(t)
    ensures Sort(s) == Sort(t)
    ensures Enumerates(Sort(s), Names(s)) && Sorted(Sort(s))
  {
    DistinctMultiset(s);
    DistinctMultiset(t);
    SortSorts(s);
    SortSorts(t);
    SortedFormIsUnique(Sort(s), Sort(t));
    MultisetDecidesNames(s, Sort(s));
  }
}
