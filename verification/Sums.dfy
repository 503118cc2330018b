/** Sums of keyed amounts: running totals, tallies per key, and what positive amounts guarantee. */
module Sums {
  import opened CheckedMoney
  import opened Rows

  // Sums over lines.

  function Total<K>(lines: seq<(K, i64)>): int {
    if lines == [] then 0 else lines[0].1 + Total(lines[1..])
  }

  function Count<K(==)>(lines: seq<(K, i64)>, k: K): nat {
    if lines == [] then 0 else (if lines[0].0 == k then 1 else 0) + Count(lines[1..], k)
  }

  predicate Positive<K>(lines: seq<(K, i64)>) {
    forall i :: 0 <= i < |lines| ==> lines[i].1 >= 1
  }

  function KeysIn<K(==)>(lines: seq<(K, i64)>): set<K> {
    set line | line in lines :: line.0
  }

  lemma {:induction false} CountConcat<K>(a: seq<(K, i64)>, b: seq<(K, i64)>, k: K)
    ensures Count(a + b, k) == Count(a, k) + Count(b, k)
  {
    if a == [] {
      assert a + b == b;
    } else {
      assert (a + b)[1..] == a[1..] + b;
      CountConcat(a[1..], b, k);
    }
  }

  lemma {:induction false} TotalConcat<K>(a: seq<(K, i64)>, b: seq<(K, i64)>)
    ensures Total(a + b) == Total(a) + Total(b)
  {
    if a == [] {
      assert a + b == b;
    } else {
      assert (a + b)[1..] == a[1..] + b;
      TotalConcat(a[1..], b);
    }
  }

  /** Positive lines of a key: no fewer units than lines, and no more than any whole. */
  lemma {:induction false} PositiveSums<K>(lines: seq<(K, i64)>, k: K)
    requires Positive(lines)
    ensures Count(lines, k) <= SumFor(lines, k) <= Total(lines)
    ensures k !in KeysIn(lines) ==> SumFor(lines, k) == 0
    ensures k in KeysIn(lines) ==> Count(lines, k) >= 1
  {
    if lines != [] {
      assert forall i :: 0 <= i < |lines[1..]| ==> lines[1..][i] == lines[i + 1];
      PositiveSums(lines[1..], k);
      assert k in KeysIn(lines) <==> k == lines[0].0 || k in KeysIn(lines[1..]) by {
        assert lines == [lines[0]] + lines[1..];
      }
    }
  }

  lemma {:induction false} PrefixSums<K>(lines: seq<(K, i64)>, i: nat, k: K)
    requires i < |lines| && Positive(lines)
    ensures SumFor(lines[..i + 1], k) == SumFor(lines[..i], k) + (if lines[i].0 == k then lines[i].1 else 0)
    ensures Count(lines[..i + 1], k) == Count(lines[..i], k) + (if lines[i].0 == k then 1 else 0)
    ensures SumFor(lines[..i + 1], k) <= SumFor(lines, k)
    ensures Count(lines[..i], k) <= SumFor(lines[..i], k)
  {
    assert lines[..i + 1] == lines[..i] + [lines[i]] && lines == lines[..i + 1] + lines[i + 1..];
    SumForConcat(lines[..i], [lines[i]], k);
    CountConcat(lines[..i], [lines[i]], k);
    SumForConcat(lines[..i + 1], lines[i + 1..], k);
    PositiveSums(lines[i + 1..], k);
    PositiveSums(lines[..i], k);
  }

  lemma {:induction false} SumOfOther<K>(lines: seq<(K, i64)>, k: K)
    requires forall i :: 0 <= i < |lines| ==> lines[i].0 != k
    ensures SumFor(lines, k) == 0
  {
    if lines != [] {
      assert forall i :: 0 <= i < |lines[1..]| ==> lines[1..][i] == lines[i + 1];
      SumOfOther(lines[1..], k);
    }
  }

  function Left<K(==)>(remaining: map<K, i64>, k: K): i64 {
    if k in remaining then remaining[k] else 0
  }

  ghost function SumMap<K>(m: map<K, i64>): int
    decreases |m|
  {
    if m == map[] then 0
    else
      var k :| k in m;
      m[k] + SumMap(m - {k})
  }

  lemma {:induction false} SumMapRemove<K>(m: map<K, i64>, k: K)
    requires k in m
    ensures SumMap(m) == m[k] + SumMap(m - {k})
    decreases |m|
  {
    var first :| first in m && SumMap(m) == m[first] + SumMap(m - {first});
    if first != k {
      SumMapRemove(m - {first}, k);
      SumMapRemove(m - {k}, first);
      assert m - {first} - {k} == m - {k} - {first};
    }
  }

  lemma {:induction false} SumMapUpdate<K>(m: map<K, i64>, k: K, after: i64)
    ensures SumMap(m[k := after]) == SumMap(m) - Left(m, k) + after
  {
    SumMapRemove(m[k := after], k);
    assert m[k := after] - {k} == m - {k};
    if k in m {
      SumMapRemove(m, k);
    } else {
      assert m - {k} == m;
    }
  }

  lemma {:induction false} SumMapPositive<K>(m: map<K, i64>)
    requires forall k :: k in m ==> m[k] > 0
    ensures SumMap(m) >= 0
    decreases |m|
  {
    if m != map[] {
      var k :| k in m;
      SumMapRemove(m, k);
      SumMapPositive(m - {k});
    }
  }

  method SumValues<K(==)>(m: map<K, i64>) returns (r: Result<i64>)
    requires forall k :: k in m ==> m[k] > 0
    ensures r.Ok? <==> Fits(SumMap(m))
    ensures r.Ok? ==> r.value == SumMap(m)
  {
    var rest, sum: i64 := m, 0;
    while rest != map[]
      invariant rest.Keys <= m.Keys && forall k :: k in rest ==> rest[k] == m[k]
      invariant sum + SumMap(rest) == SumMap(m) && sum >= 0
      decreases |rest|
    {
      var k :| k in rest;
      SumMapRemove(rest, k);
      SumMapPositive(rest - {k});
      sum :- CheckedAdd(sum, rest[k]);
      rest := rest - {k};
    }
    r := Ok(sum);
  }

  /** A map of running totals says, key by key and overall, what a list of lines adds up to. */
  ghost predicate Tallies<K(!new)>(m: map<K, i64>, lines: seq<(K, i64)>) {
    m.Keys == KeysIn(lines) && (forall k :: Left(m, k) == SumFor(lines, k)) && SumMap(m) == Total(lines)
  }

  lemma {:induction false} TalliesNext<K(!new)>(m: map<K, i64>, lines: seq<(K, i64)>, line: (K, i64))
    requires Tallies(m, lines)
    ensures Left(m, line.0) + line.1 == SumFor(lines + [line], line.0)
    ensures Fits(Left(m, line.0) + line.1) ==> Tallies(m[line.0 := Left(m, line.0) + line.1], lines + [line])
  {
    forall k
      ensures SumFor(lines + [line], k) == SumFor(lines, k) + if line.0 == k then line.1 else 0
    {
      SumForConcat(lines, [line], k);
    }
    TotalConcat(lines, [line]);
    if Fits(Left(m, line.0) + line.1) {
      SumMapUpdate(m, line.0, Left(m, line.0) + line.1);
    }
  }

  /** Every running sum of the list fits its key's counter, for the first i lines. */
  ghost predicate RunsFit<K>(lines: seq<(K, i64)>, i: nat)
    requires i <= |lines|
  {
    forall j :: 0 <= j < i ==> Fits(SumFor(lines[..j + 1], lines[j].0))
  }

  lemma {:induction false} TallyNext<K(!new)>(lines: seq<(K, i64)>, i: nat, m: map<K, i64>)
    requires i < |lines| && Tallies(m, lines[..i]) && RunsFit(lines, i)
    ensures RunsFit(lines, i + 1) <==> Fits(Left(m, lines[i].0) + lines[i].1)
    ensures RunsFit(lines, i + 1) ==> Tallies(m[lines[i].0 := Left(m, lines[i].0) + lines[i].1], lines[..i + 1])
  {
    TalliesNext(m, lines[..i], lines[i]);
    assert lines[..i + 1] == lines[..i] + [lines[i]];
  }

  lemma {:induction false} RunsFitPrefix<K>(lines: seq<(K, i64)>, i: nat)
    requires i <= |lines|
    ensures RunsFit(lines, |lines|) ==> RunsFit(lines, i)
  {
  }

  lemma {:induction false} TallyStart<K(!new)>(lines: seq<(K, i64)>)
    ensures Tallies(map[], lines[..0]) && RunsFit(lines, 0)
  {
  }

  method Tally<K(==, !new)>(lines: seq<(K, i64)>) returns (r: Result<map<K, i64>>)
    ensures r.Ok? ==> Tallies(r.value, lines)
    ensures r.Ok? <==> RunsFit(lines, |lines|)
    ensures r.Err? ==> r.error == OVERFLOW
  {
    hide Tallies, RunsFit, Left;
    var m: map<K, i64> := map[];
    TallyStart(lines);
    for i := 0 to |lines|
      invariant Tallies(m, lines[..i]) && RunsFit(lines, i)
    {
      TallyNext(lines, i, m);
      var k := lines[i].0;
      var after := CheckedAdd(Left(m, k), lines[i].1);
      if after.Err? {
        RunsFitPrefix(lines, i + 1);
        return Err(after.error);
      }
      m := m[k := after.value];
    }
    assert lines[..|lines|] == lines;
    r := Ok(m);
  }

  /** Positive lines never outgrow their total. */
  lemma {:induction false} PositiveRunsFit<K>(lines: seq<(K, i64)>)
    requires Positive(lines) && Fits(Total(lines))
    ensures RunsFit(lines, |lines|)
  {
    forall j | 0 <= j < |lines|
      ensures Fits(SumFor(lines[..j + 1], lines[j].0))
    {
      PrefixSums(lines, j, lines[j].0);
      PositiveSums(lines, lines[j].0);
      PositiveSums(lines[..j + 1], lines[j].0);
    }
  }

  lemma {:induction false} TotalNext<K>(lines: seq<(K, i64)>, i: nat)
    requires i < |lines|
    ensures Total(lines[..i + 1]) == Total(lines[..i]) + lines[i].1
  {
    assert lines[..i + 1] == lines[..i] + [lines[i]];
    TotalConcat(lines[..i], [lines[i]]);
  }

  lemma {:induction false} PositiveTotal<K>(lines: seq<(K, i64)>)
    requires Positive(lines)
    ensures Total(lines) >= 0
  {
    if lines != [] {
      PositiveTotal(lines[1..]);
    }
  }

  lemma {:induction false} PositiveTotals<K>(lines: seq<(K, i64)>, i: nat)
    requires i <= |lines| && Positive(lines)
    ensures 0 <= Total(lines[..i]) <= Total(lines)
  {
    assert lines == lines[..i] + lines[i..];
    TotalConcat(lines[..i], lines[i..]);
    PositiveTotal(lines[..i]);
    PositiveTotal(lines[i..]);
  }

  lemma {:induction false} TallyFits<K(!new)>(lines: seq<(K, i64)>, i: nat, m: map<K, i64>)
    requires i < |lines| && Tallies(m, lines[..i]) && RunsFit(lines, i + 1)
    ensures Fits((Left(m, lines[i].0) as int) + lines[i].1)
  {
    TallyNext(lines, i, m);
  }

  /** A list whose running sums fit has a tally. */
  lemma {:induction false} TallyExists<K(!new)>(lines: seq<(K, i64)>, i: nat) returns (m: map<K, i64>)
    requires i <= |lines| && RunsFit(lines, |lines|)
    ensures Tallies(m, lines[..i])
    decreases i
  {
    hide RunsFit, Tallies;
    if i == 0 {
      m := map[];
      TallyStart(lines);
    } else {
      var front := TallyExists(lines, i - 1);
      RunsFitPrefix(lines, i - 1);
      RunsFitPrefix(lines, i);
      TallyNext(lines, i - 1, front);
      TallyFits(lines, i - 1, front);
      m := front[lines[i - 1].0 := Left(front, lines[i - 1].0) + lines[i - 1].1];
    }
  }

  /** Key by key sums add up to the whole. */
  lemma {:induction false} SumsToTotal<K(!new)>(lines: seq<(K, i64)>, m: map<K, i64>)
    requires Positive(lines) && m.Keys == KeysIn(lines) && forall k :: k in m ==> m[k] == SumFor(lines, k)
    ensures SumMap(m) == Total(lines)
  {
    forall j | 0 <= j < |lines|
      ensures Fits(SumFor(lines[..j + 1], lines[j].0))
    {
      PrefixSums(lines, j, lines[j].0);
      PositiveSums(lines[..j + 1], lines[j].0);
      assert m[lines[j].0] == SumFor(lines, lines[j].0);
    }
    var tally := TallyExists(lines, |lines|);
    assert lines[..|lines|] == lines;
    forall k | k in m
      ensures tally[k] == m[k]
    {
      assert Left(tally, k) == SumFor(lines, k);
    }
    assert tally == m;
  }
}
