/** pandas `series.value_counts().drop(owned, errors='ignore').head(n).to_dict()`
    over a column of product names, as an ordered list of (value, count) pairs. */
module ValueCounting {
  import opened Counting

  /** An ordered dict from value to count. */
  type Counts = seq<(string, nat)>

  function CountOf(p: (string, nat)): int {
    p.1
  }

  /** The dict's keys, in order. */
  function Keys(c: Counts): (k: seq<string>)
    ensures |k| == |c|
    ensures forall i :: 0 <= i < |c| ==> k[i] == c[i].0
  {
    seq(|c|, i requires 0 <= i < |c| => c[i].0)
  }

  /** Where a value first appears in the column; the tie-break of `value_counts`. */
  function Rank(s: seq<string>, x: string): (n: nat)
    ensures x in s ==> n == FirstIndex(s, x)
  {
    if x in s then FirstIndex(s, x) else |s|
  }

  /** `a` is listed before `b` in `value_counts(s)`: more frequent, or as
      frequent and seen first. */
  predicate RanksBefore(s: seq<string>, a: string, b: string) {
    Count(s, a) > Count(s, b) || (Count(s, a) == Count(s, b) && Rank(s, a) < Rank(s, b))
  }

  /** Each listed value with its count. */
  function Tally(values: seq<string>, s: seq<string>): (c: Counts)
    ensures |c| == |values|
    ensures forall i :: 0 <= i < |c| ==> c[i] == (values[i], Count(s, values[i]))
  {
    seq(|values|, i requires 0 <= i < |values| => (values[i], Count(s, values[i])))
  }

  /** `value_counts()`: the distinct values with their counts, most frequent first. */
  function ValueCounts(s: seq<string>): Counts {
    SortDesc(Tally(Distinct(s), s), CountOf)
  }

  /** `drop(owned, errors='ignore')`: the pairs whose key is not in `owned`, in order. */
  function Drop(c: Counts, owned: seq<string>): (r: Counts)
    ensures forall p :: p in r <==> p in c && p.0 !in owned
  {
    Filter(c, (p: (string, nat)) => p.0 !in owned)
  }

  /** `head(n)`. */
  function Take(c: Counts, n: nat): (r: Counts)
    ensures |r| == if |c| <= n then |c| else n
    ensures r == c[..|r|]
  {
    if |c| <= n then c else c[..n]
  }

  /** The `n` most frequent values of `s` that are not in `owned`. */
  function TopCounts(s: seq<string>, owned: seq<string>, n: nat): Counts {
    Take(Drop(ValueCounts(s), owned), n)
  }

  /** Every entry of `value_counts` is a value of the column with its count. */
  lemma ValueCountsEntries(s: seq<string>)
    ensures |ValueCounts(s)| == |Distinct(s)|
    ensures forall p :: p in ValueCounts(s) ==> p.0 in s && p.1 == Count(s, p.0)
  {
    var t := Tally(Distinct(s), s);
    SortDescElements(t, CountOf);
    forall p | p in ValueCounts(s) ensures p.0 in s && p.1 == Count(s, p.0) {
      var k :| 0 <= k < |t| && t[k] == p;
    }
  }

  /** Every value of the column has an entry in `value_counts`. */
  lemma ValueCountsCovers(s: seq<string>)
    ensures forall x :: x in s ==> x in Keys(ValueCounts(s))
  {
    var t := Tally(Distinct(s), s);
    SortDescElements(t, CountOf);
    var vc := ValueCounts(s);
    forall x | x in s ensures x in Keys(vc) {
      var k :| 0 <= k < |Distinct(s)| && Distinct(s)[k] == x;
      assert t[k] in vc;
      var m :| 0 <= m < |vc| && vc[m] == t[k];
      assert Keys(vc)[m] == x;
    }
  }

  /** `value_counts` is in descending count, ties in first-seen order. */
  lemma ValueCountsOrder(s: seq<string>)
    ensures forall i, j :: 0 <= i < j < |ValueCounts(s)| ==>
              RanksBefore(s, ValueCounts(s)[i].0, ValueCounts(s)[j].0)
  {
    var t := Tally(Distinct(s), s);
    var rank := (p: (string, nat)) => Rank(s, p.0);
    DistinctFirstSeen(s);
    forall i, j | 0 <= i < j < |t| ensures rank(t[i]) < rank(t[j]) {
      assert t[i].0 == Distinct(s)[i] && t[j].0 == Distinct(s)[j];
    }
    SortDescThenRank(t, CountOf, rank);
    ValueCountsEntries(s);
    var vc := ValueCounts(s);
    forall i, j | 0 <= i < j < |vc| ensures RanksBefore(s, vc[i].0, vc[j].0) {
      assert vc[i] in vc && vc[j] in vc;
    }
  }

  /** After `drop`, the entries are still in ranking order. */
  lemma DropOrder(s: seq<string>, owned: seq<string>)
    ensures var d := Drop(ValueCounts(s), owned);
      forall i, j :: 0 <= i < j < |d| ==> RanksBefore(s, d[i].0, d[j].0)
  {
    ValueCountsOrder(s);
    var rel := (a: (string, nat), b: (string, nat)) => RanksBefore(s, a.0, b.0);
    FilterPairwise(ValueCounts(s), (p: (string, nat)) => p.0 !in owned, rel);
  }

  /** The top-`n` list: at most `n` entries, none owned, true counts, in
      `value_counts` order. */
  lemma TopCountsEntries(s: seq<string>, owned: seq<string>, n: nat)
    ensures |TopCounts(s, owned, n)| <= n
    ensures forall p :: p in TopCounts(s, owned, n) ==> p.0 in s && p.0 !in owned && p.1 == Count(s, p.0)
    ensures var r := TopCounts(s, owned, n);
      forall i, j :: 0 <= i < j < |r| ==> RanksBefore(s, r[i].0, r[j].0)
  {
    ValueCountsEntries(s);
    DropOrder(s, owned);
    var d := Drop(ValueCounts(s), owned);
    var r := TopCounts(s, owned, n);
    forall p | p in r ensures p in d {
      var i :| 0 <= i < |r| && r[i] == p;
      assert d[i] == p;
    }
    forall i, j | 0 <= i < j < |r| ensures RanksBefore(s, r[i].0, r[j].0) {
      assert r[i] == d[i] && r[j] == d[j];
    }
  }

  /** An entry missing from `head(n)` lies at or beyond position `n`. */
  lemma TakeMissing(d: Counts, n: nat, k: nat)
    requires k < |d| && d[k].0 !in Keys(Take(d, n))
    ensures |Take(d, n)| == n <= k
  {
  }

  /** Nothing is left out of the top-`n` list that ranks before a listed entry:
      a value missing from it (and not owned) means the list is full and every
      listed entry ranks before that value. */
  lemma TopCountsMaximal(s: seq<string>, owned: seq<string>, n: nat, x: string)
    requires x in s && x !in owned && x !in Keys(TopCounts(s, owned, n))
    ensures |TopCounts(s, owned, n)| == n
    ensures forall p :: p in TopCounts(s, owned, n) ==> RanksBefore(s, p.0, x)
  {
    var vc := ValueCounts(s);
    ValueCountsCovers(s);
    ValueCountsEntries(s);
    DropOrder(s, owned);
    var d := Drop(vc, owned);
    var r := TopCounts(s, owned, n);
    var m :| 0 <= m < |vc| && vc[m].0 == x;
    assert vc[m] in d;
    var k :| 0 <= k < |d| && d[k] == vc[m];
    TakeMissing(d, n, k);
    forall p | p in r ensures RanksBefore(s, p.0, x) {
      var i :| 0 <= i < |r| && r[i] == p;
      assert d[i] == p;
    }
  }

  /** Ranking order is strict, so a ranked list never repeats a value. */
  lemma RankedKeysDistinct(s: seq<string>, r: Counts)
    requires forall i, j :: 0 <= i < j < |r| ==> RanksBefore(s, r[i].0, r[j].0)
    ensures NoDuplicates(Keys(r))
  {
  }
}
