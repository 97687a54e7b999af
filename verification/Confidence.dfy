/** The calculate_confidence tool: the mean of the classification confidence and
    every field's confidence. */
module Confidence {
  import opened Prelude
  import opened Domain
  import opened Sorting

  function Sum(order: seq<string>, fields: map<string, Field>): real
    requires forall n :: n in order ==> n in fields
  {
    if order == [] then 0.0
    else Sum(order[..|order| - 1], fields) + fields[order[|order| - 1]].confidence
  }

  /** The overall confidence when the fields are visited in the given order. */
  function Mean(classification: real, order: seq<string>, fields: map<string, Field>): real
    requires forall n :: n in order ==> n in fields
  {
    (classification + Sum(order, fields)) / (1 + |order|) as real
  }

  lemma {:induction false} SumSkips(order: seq<string>, i: nat, fields: map<string, Field>)
    requires forall n :: n in order ==> n in fields
    requires i < |order|
    ensures Sum(order, fields) == Sum(order[..i] + order[i + 1..], fields) + fields[order[i]].confidence
  {
    var k := |order| - 1;
    var short := order[..i] + order[i + 1..];
    if i == k {
      assert short == order[..k];
    } else {
      SumSkips(order[..k], i, fields);
      assert short[..|short| - 1] == order[..k][..i] + order[..k][i + 1..];
      assert short[|short| - 1] == order[k];
    }
  }

  lemma FirstIsNamed(t: seq<string>)
    ensures t != [] ==> t[0] in Names(t)
  {
  }

  lemma {:induction false} SumIgnoresOrder(s: seq<string>, t: seq<string>, fields: map<string, Field>)
    requires Distinct(s) && Distinct(t) && Names(s) == Names(t) <= fields.Keys
    ensures |s| == |t| && Sum(s, fields) == Sum(t, fields)
    decreases |s|
  {
    if s == [] {
      FirstIsNamed(t);
    } else {
      var k := |s| - 1;
      assert s[k] in Names(t);
      var i :| 0 <= i < |t| && t[i] == s[k];
      var short := t[..i] + t[i + 1..];
      SumSkips(t, i, fields);
      assert Names(short) == Names(t) - {s[k]} by {
        forall n | n in Names(t) - {s[k]} ensures n in Names(short) {
          var j :| 0 <= j < |t| && t[j] == n;
          assert short[if j < i then j else j - 1] == n;
        }
      }
      assert Names(s[..k]) == Names(s) - {s[k]};
      SumIgnoresOrder(s[..k], short, fields);
    }
  }

  /** The mean does not depend on the order Go's map iteration takes. */
  lemma {:induction false} MeanIgnoresOrder(classification: real, s: seq<string>, t: seq<string>, fields: map<string, Field>)
    requires Enumerates(s, fields.Keys) && Enumerates(t, fields.Keys)
    ensures Mean(classification, s, fields) == Mean(classification, t, fields)
  {
    SumIgnoresOrder(s, t, fields);
  }

  lemma {:induction false} SumBounds(order: seq<string>, fields: map<string, Field>, lo: real, hi: real)
    requires forall n :: n in order ==> n in fields && lo <= fields[n].confidence <= hi
    ensures |order| as real * lo <= Sum(order, fields) <= |order| as real * hi
  {
    if order != [] {
      var k := |order| - 1;
      SumBounds(order[..k], fields, lo, hi);
      assert order[k] in order;
      var n, c, sum := k as real, fields[order[k]].confidence, Sum(order[..k], fields);
      assert |order| as real == n + 1.0;
      assert (n + 1.0) * lo == n * lo + lo && (n + 1.0) * hi == n * hi + hi;
      assert Sum(order, fields) == sum + c;
    }
  }

  /** The mean lies between any bounds the scores share, so between their
      minimum and maximum. */
  lemma {:induction false} MeanStaysWithinScores(classification: real, order: seq<string>, fields: map<string, Field>, lo: real, hi: real)
    requires forall n :: n in order ==> n in fields && lo <= fields[n].confidence <= hi
    requires lo <= classification <= hi
    ensures lo <= Mean(classification, order, fields) <= hi
  {
    SumBounds(order, fields, lo, hi);
    var n := (1 + |order|) as real;
    var total := classification + Sum(order, fields);
    assert n == 1.0 + |order| as real;
    assert n * lo <= total <= n * hi;
    Divide(n, lo, total);
    Divide(n, total / n, n * hi);
    assert total / n * n == total;
    DivideAbove(n, total, hi);
  }

  lemma Divide(n: real, a: real, total: real)
    requires n > 0.0 && n * a <= total
    ensures a <= total / n
  {
    var q := total / n;
    assert q * n == total;
    if a > q {
      assert n * a - n * q == n * (a - q) > 0.0;
    }
  }

  lemma DivideAbove(n: real, total: real, b: real)
    requires n > 0.0 && total <= n * b
    ensures total / n <= b
  {
    var q := total / n;
    assert q * n == total;
    if q > b {
      assert n * q - n * b == n * (q - b) > 0.0;
    }
  }

  /** A document can only reach the threshold `t` on average if no single score
      is far below it: with `n` scores of at most 1, each is at least n*t - (n-1). */
  lemma {:induction false} ThresholdBoundsEveryScore(classification: real, order: seq<string>, fields: map<string, Field>, t: real, name: string)
    requires forall n :: n in order ==> n in fields && fields[n].confidence <= 1.0
    requires classification <= 1.0
    requires Mean(classification, order, fields) >= t
    ensures classification >= (1 + |order|) as real * t - |order| as real
    ensures name in order ==> fields[name].confidence >= (1 + |order|) as real * t - |order| as real
  {
    var n := (1 + |order|) as real;
    MultiplyOut(n, classification + Sum(order, fields), t);
    SumBoundsAbove(order, fields);
    if name in order {
      var i :| 0 <= i < |order| && order[i] == name;
      AllButOne(order, i, fields);
    }
  }

  lemma MultiplyOut(n: real, total: real, t: real)
    requires n > 0.0 && total / n >= t
    ensures total >= n * t
  {
    var q := total / n;
    assert q * n == total;
    assert n * q - n * t == n * (q - t) >= 0.0;
  }

  lemma AllButOne(order: seq<string>, i: nat, fields: map<string, Field>)
    requires forall n :: n in order ==> n in fields && fields[n].confidence <= 1.0
    requires i < |order|
    ensures Sum(order, fields) <= fields[order[i]].confidence + |order| as real - 1.0
  {
    var short := order[..i] + order[i + 1..];
    SumSkips(order, i, fields);
    assert forall n :: n in short ==> n in order;
    SumBoundsAbove(short, fields);
    assert |order| as real == |short| as real + 1.0;
  }

  lemma {:induction false} SumBoundsAbove(order: seq<string>, fields: map<string, Field>)
    requires forall n :: n in order ==> n in fields && fields[n].confidence <= 1.0
    ensures Sum(order, fields) <= |order| as real
  {
    if order != [] {
      var k := |order| - 1;
      SumBoundsAbove(order[..k], fields);
      assert order[k] in order;
      assert |order| as real == k as real + 1.0;
    }
  }

  /** The bound is met: one score carries the whole shortfall. */
  lemma {:induction false} ThresholdBoundIsTight(t: real)
    ensures var low := Field(Null, 3.0 * t - 2.0);
            var fields := map["a" := low, "b" := Field(Null, 1.0)];
            Mean(1.0, ["a", "b"], fields) == t
  {
    var fields := map["a" := Field(Null, 3.0 * t - 2.0), "b" := Field(Null, 1.0)];
    assert ["a", "b"][..1] == ["a"];
    assert ["a"][..0] == [];
    assert Sum(["a"], fields) == 3.0 * t - 2.0;
    assert Sum(["a", "b"], fields) == 3.0 * t - 1.0;
  }

  function Distance(a: real, b: real): real {
    if a < b then b - a else a - b
  }

  /** A provider's score outside [0, 1] is moved to the nearest point of it. */
  function Clamp01(f: real): (c: real)
    ensures 0.0 <= c <= 1.0
    ensures forall x :: 0.0 <= x <= 1.0 ==> Distance(c, f) <= Distance(x, f)
  {
    if f < 0.0 then 0.0 else if f > 1.0 then 1.0 else f
  }

  /** The accumulation loop, whatever order it visits the fields in. */
  method CalculateConfidence(classification: real, fields: map<string, Field>, ghost order: seq<string>) returns (overall: real)
    requires Enumerates(order, fields.Keys)
    ensures overall == Mean(classification, order, fields)
  {
    var confidenceSum := classification;
    var confidenceCount := 1;
    var rest := fields.Keys;
    ghost var visited: seq<string> := [];
    while rest != {}
      invariant rest <= fields.Keys
      invariant Visited(classification, visited, rest, fields, confidenceSum, confidenceCount)
      decreases |rest|
    {
      var name :| name in rest;
      VisitOne(classification, visited, rest, fields, confidenceSum, confidenceCount, name);
      confidenceSum := confidenceSum + fields[name].confidence;
      confidenceCount := confidenceCount + 1;
      rest := rest - {name};
      visited := visited + [name];
    }
    overall := confidenceSum / confidenceCount as real;
    SumIgnoresOrder(order, visited, fields);
  }

  /** The loop has visited exactly the fields outside `rest`, in the order `visited`. */
  ghost predicate Visited(classification: real, visited: seq<string>, rest: set<string>, fields: map<string, Field>, sum: real, count: int) {
    && (forall n :: n in visited ==> n in fields)
    && Distinct(visited) && Names(visited) == fields.Keys - rest
    && sum == classification + Sum(visited, fields)
    && count == 1 + |visited|
  }

  lemma VisitOne(classification: real, visited: seq<string>, rest: set<string>, fields: map<string, Field>, sum: real, count: int, name: string)
    requires rest <= fields.Keys && name in rest
    requires Visited(classification, visited, rest, fields, sum, count)
    ensures Visited(classification, visited + [name], rest - {name}, fields, sum + fields[name].confidence, count + 1)
  {
    assert name !in Names(visited);
    assert Names(visited + [name]) == Names(visited) + {name};
    assert (visited + [name])[..|visited|] == visited;
  }
}
