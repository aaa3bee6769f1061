/** Ranking (tz.py:42-51, 100): sort the frequency table by count from high to
    low, keep its first twenty rows, number them from 1, and derive the y-axis
    tick interval and the word-cloud weights from that top table. */
module Ranking {
  import opened Frequency

  /** `df.head(20)`. */
  const TopCount: nat := 20

  /** Counts never increase along the sequence. */
  predicate Descending(s: seq<Row>) {
    forall i, j :: 0 <= i < j < |s| ==> s[i].count >= s[j].count
  }

  /** `df.sort_values(by='频次', ascending=False)`: a rearrangement of the rows
      whose counts go from high to low. The default pandas sort is not stable,
      so nothing is said about the order among equal counts. */
  predicate IsCountSort(t: seq<Row>, s: seq<Row>) {
    multiset(s) == multiset(t) && Descending(s)
  }

  /** Inserts `r` in front of the first row whose count is not larger. */
  function Insert(r: Row, s: seq<Row>): (o: seq<Row>)
    ensures multiset(o) == multiset(s) + multiset{r}
  {
    if s == [] then [r]
    else if r.count >= s[0].count then [r] + s
    else
      assert s == [s[0]] + s[1..];
      [s[0]] + Insert(r, s[1..])
  }

  /** Inserting into a descending table keeps it descending. */
  lemma {:induction false} InsertDescending(r: Row, s: seq<Row>)
    requires Descending(s)
    ensures Descending(Insert(r, s))
  {
    if s != [] && r.count < s[0].count {
      var rest := Insert(r, s[1..]);
      InsertDescending(r, s[1..]);
      forall k | 0 <= k < |rest| ensures rest[k].count <= s[0].count {
        assert rest[k] in multiset(s[1..]) + multiset{r};
        if rest[k] != r {
          assert rest[k] in s[1..];
          var j :| 0 <= j < |s[1..]| && s[1..][j] == rest[k];
          assert s[j + 1] == rest[k];
        }
      }
      assert Insert(r, s) == [s[0]] + rest;
    }
  }

  /** One sort satisfying `IsCountSort`: insertion sort, which keeps equal
      counts in table order. It is a witness that the pipeline can proceed;
      the properties of the ranked table are proved for every `IsCountSort`. */
  function SortByCount(t: seq<Row>): (s: seq<Row>)
    ensures IsCountSort(t, s)
  {
    if t == [] then []
    else
      assert t == [t[0]] + t[1..];
      InsertDescending(t[0], SortByCount(t[1..]));
      Insert(t[0], SortByCount(t[1..]))
  }

  /** One row of `df_top20` after the rank column `名次` is added. */
  datatype RankedEntry = RankedEntry(word: string, count: nat, rank: nat)

  /** The first `n` rows, or all of them when there are fewer. */
  function Head(s: seq<Row>, n: nat): (r: seq<Row>)
    ensures |r| == if |s| < n then |s| else n
    ensures r == s[..|r|]
  {
    s[..if |s| < n then |s| else n]
  }

  /** `df_top20['名次'] = df_top20.reset_index().index + 1`: the rank of a row
      is its 1-based position. */
  function WithRanks(top: seq<Row>): (r: seq<RankedEntry>)
    ensures |r| == |top|
    ensures forall i :: 0 <= i < |r| ==> r[i] == RankedEntry(top[i].word, top[i].count, i + 1)
  {
    seq(|top|, i requires 0 <= i < |top| => RankedEntry(top[i].word, top[i].count, i + 1))
  }

  /** `df_top20` built from the sorted table. */
  function RankTop(sorted: seq<Row>): seq<RankedEntry> {
    WithRanks(Head(sorted, TopCount))
  }

  /** The word and count columns of the ranked table, as frequency rows. */
  function Unrank(top: seq<RankedEntry>): (t: seq<Row>)
    ensures |t| == |top| && forall i :: 0 <= i < |t| ==> t[i] == Row(top[i].word, top[i].count)
  {
    seq(|top|, i requires 0 <= i < |top| => Row(top[i].word, top[i].count))
  }

  /** `df_top20['频次']`. */
  function Frequencies(top: seq<RankedEntry>): (f: seq<nat>)
    ensures |f| == |top| && forall i :: 0 <= i < |f| ==> f[i] == top[i].count
  {
    seq(|top|, i requires 0 <= i < |top| => top[i].count)
  }

  /** Some entry of the table carries the word `w`. */
  predicate Listed(top: seq<RankedEntry>, w: string) {
    exists k :: 0 <= k < |top| && top[k].word == w
  }

  /** What the ranked top table promises: at most twenty entries, ranks 1, 2,
      3, ... with no gap, counts that never increase with the rank, no word
      twice and no count below one. */
  predicate ValidRanked(top: seq<RankedEntry>) {
    && |top| <= TopCount
    && (forall i :: 0 <= i < |top| ==> top[i].rank == i + 1 && top[i].count >= 1)
    && NonIncreasing(Frequencies(top))
    && (forall i, j :: 0 <= i < j < |top| ==> top[i].word != top[j].word)
  }

  /** A value occurring twice in a sequence has two distinct positions. */
  lemma {:induction false} TwoPositions(s: seq<Row>, x: Row) returns (i: nat, j: nat)
    requires multiset(s)[x] >= 2
    ensures i < j < |s| && s[i] == x && s[j] == x
  {
    assert s == [s[0]] + s[1..];
    if s[0] == x {
      assert x in multiset(s[1..]);
      var k :| 0 <= k < |s[1..]| && s[1..][k] == x;
      i, j := 0, k + 1;
    } else {
      var a, b := TwoPositions(s[1..], x);
      i, j := a + 1, b + 1;
    }
  }

  /** Rows at two positions of a sequence are counted twice by its multiset. */
  lemma TwiceCounted(s: seq<Row>, i: nat, j: nat)
    requires i < j < |s| && s[i] == s[j]
    ensures multiset(s)[s[i]] >= 2
  {
    assert s == s[..j] + [s[j]] + s[j + 1..];
    assert s[i] == s[..j][i];
  }

  /** A rearrangement of a table with unique keys has unique keys. */
  lemma PermutationDistinct(t: seq<Row>, s: seq<Row>)
    requires DistinctWords(t) && multiset(s) == multiset(t)
    ensures DistinctWords(s)
  {
    forall i, j | 0 <= i < j < |s| ensures s[i].word != s[j].word {
      if s[i] == s[j] {
        TwiceCounted(s, i, j);
        var a, b := TwoPositions(t, s[i]);
      } else {
        assert s[i] in multiset(t) && s[j] in multiset(t);
        var a :| 0 <= a < |t| && t[a] == s[i];
        var b :| 0 <= b < |t| && t[b] == s[j];
      }
    }
  }

  /** The ranked top table (tz.py:42-48): whichever order pandas gives equal
      counts, it is valid, has min(20, n) entries, lists the first rows of the
      sorted table with their counts, and no word left out of it occurs more
      often than any word in it. */
  lemma TopFacts(t: seq<Row>, s: seq<Row>)
    requires DistinctWords(t)
    requires forall i :: 0 <= i < |t| ==> t[i].count >= 1
    requires IsCountSort(t, s)
    ensures ValidRanked(RankTop(s))
    ensures |RankTop(s)| == if |t| < TopCount then |t| else TopCount
    ensures forall i :: 0 <= i < |RankTop(s)| ==> Row(RankTop(s)[i].word, RankTop(s)[i].count) == s[i]
    ensures forall i :: 0 <= i < |RankTop(s)| ==> Row(RankTop(s)[i].word, RankTop(s)[i].count) in t
    ensures forall i, j :: 0 <= i < |t| && 0 <= j < |RankTop(s)| && !Listed(RankTop(s), t[i].word) ==>
      t[i].count <= RankTop(s)[j].count
  {
    var top := RankTop(s);
    assert |s| == |multiset(s)| == |t|;
    PermutationDistinct(t, s);
    forall i | 0 <= i < |s| ensures s[i] in t && s[i].count >= 1 {
      assert s[i] in multiset(t);
    }
    forall i, j | 0 <= i < |t| && 0 <= j < |top|
      ensures Listed(top, t[i].word) || t[i].count <= top[j].count
    {
      assert t[i] in multiset(s);
      var m :| 0 <= m < |s| && s[m] == t[i];
      if m < |top| {
        assert top[m].word == t[i].word;
      } else {
        assert s[j].count >= s[m].count;
      }
    }
  }

  /** `df_top20.set_index('词语')['频次'].to_dict()`: the word-cloud weights. */
  function WeightMap(top: seq<RankedEntry>): map<string, nat> {
    ToMap(Unrank(top))
  }

  /** The weight map holds exactly the table's words, each with its count. */
  lemma WeightMapSpec(top: seq<RankedEntry>)
    requires ValidRanked(top)
    ensures forall w :: w in WeightMap(top) <==> Listed(top, w)
    ensures forall i :: 0 <= i < |top| ==> WeightMap(top)[top[i].word] == top[i].count
  {
    var t := Unrank(top);
    forall i | 0 <= i < |top| ensures WeightMap(top)[top[i].word] == top[i].count {
      ToMapDistinct(t, i);
    }
    forall w ensures w in WeightMap(top) <==> Listed(top, w) {
      if Listed(top, w) {
        var k :| 0 <= k < |top| && top[k].word == w;
        assert t[k].word == w;
      }
    }
  }

  /** The count column of a table. */
  function Counts(s: seq<Row>): (c: seq<nat>)
    ensures |c| == |s| && forall i :: 0 <= i < |s| ==> c[i] == s[i].count
  {
    seq(|s|, i requires 0 <= i < |s| => s[i].count)
  }

  /** Removing position `k` removes one copy of `s[k]`. */
  lemma RemoveAt(s: seq<Row>, k: nat)
    requires k < |s|
    ensures multiset(s[..k] + s[k + 1..]) == multiset(s) - multiset{s[k]}
  {
    assert s == s[..k] + [s[k]] + s[k + 1..];
  }

  /** Removing position `k` removes one copy of `s[k].count` from the count column. */
  lemma CountsAt(s: seq<Row>, k: nat)
    requires k < |s|
    ensures multiset(Counts(s)) == multiset(Counts(s[..k] + s[k + 1..])) + multiset{s[k].count}
  {
    var c := Counts(s);
    assert Counts(s[..k] + s[k + 1..]) == c[..k] + c[k + 1..];
    assert c == c[..k] + [c[k]] + c[k + 1..];
  }

  /** A sequence is its head followed by its tail, also as a multiset. */
  lemma UnconsMultiset<T>(s: seq<T>)
    requires s != []
    ensures multiset(s[1..]) == multiset(s) - multiset{s[0]}
  {
    assert s == [s[0]] + s[1..];
  }

  /** Rearranging the rows rearranges the count column. */
  lemma {:induction false} PermutationCounts(s1: seq<Row>, s2: seq<Row>)
    requires multiset(s1) == multiset(s2)
    ensures multiset(Counts(s1)) == multiset(Counts(s2))
    decreases |s1|
  {
    if s1 == [] {
      assert |s2| == |multiset(s2)| == 0;
      assert Counts(s1) == [] == Counts(s2);
    } else {
      var x := s1[0];
      assert x in multiset(s2);
      var k :| 0 <= k < |s2| && s2[k] == x;
      var rest := s2[..k] + s2[k + 1..];
      RemoveAt(s2, k);
      UnconsMultiset(s1);
      assert multiset(s1[1..]) == multiset(rest);
      PermutationCounts(s1[1..], rest);
      CountsAt(s1, 0);
      assert s1[..0] + s1[1..] == s1[1..];
      CountsAt(s2, k);
      calc {
        multiset(Counts(s1));
        multiset(Counts(s1[1..])) + multiset{x.count};
        multiset(Counts(rest)) + multiset{x.count};
        multiset(Counts(s2));
      }
    }
  }

  predicate NonIncreasing(c: seq<nat>) {
    forall i, j :: 0 <= i < j < |c| ==> c[i] >= c[j]
  }

  /** The head of a non-increasing sequence is at least every value in it. */
  lemma HeadIsMax(c: seq<nat>, v: nat)
    requires NonIncreasing(c) && v in multiset(c)
    ensures c[0] >= v
  {
    var a :| 0 <= a < |c| && c[a] == v;
  }

  /** Two non-increasing sequences holding the same values are equal. */
  lemma {:induction false} SortedUnique(c1: seq<nat>, c2: seq<nat>)
    requires NonIncreasing(c1) && NonIncreasing(c2) && multiset(c1) == multiset(c2)
    ensures c1 == c2
  {
    if c1 == [] {
      assert |c2| == |multiset(c2)| == 0;
    } else {
      assert c1[0] in multiset(c1);
      assert c2 != [] by { assert |c2| == |multiset(c2)| == |multiset(c1)| == |c1|; }
      assert c2[0] in multiset(c2);
      HeadIsMax(c2, c1[0]);
      HeadIsMax(c1, c2[0]);
      UnconsMultiset(c1);
      UnconsMultiset(c2);
      assert c1[0] == c2[0];
      assert multiset(c1[1..]) == multiset(c2[1..]);
      assert NonIncreasing(c1[1..]);
      assert NonIncreasing(c2[1..]);
      SortedUnique(c1[1..], c2[1..]);
      assert |c1| == |c2|;
      assert forall i :: 0 <= i < |c1| ==> c1[i] == c2[i];
    }
  }

  /** Whichever order the sort leaves equal counts in, the count column of
      the sorted table, and so of the top table, is the same. */
  lemma CountColumnUnique(t: seq<Row>, s1: seq<Row>, s2: seq<Row>)
    requires IsCountSort(t, s1) && IsCountSort(t, s2)
    ensures Counts(s1) == Counts(s2)
    ensures Frequencies(RankTop(s1)) == Frequencies(RankTop(s2))
  {
    PermutationCounts(s1, s2);
    SortedUnique(Counts(s1), Counts(s2));
    assert |s1| == |multiset(s1)| == |s2|;
    assert forall i :: 0 <= i < |s1| ==> s1[i].count == Counts(s1)[i] == s2[i].count;
  }

  /** `max(df_top20['频次'])`; Python's `max` fails on an empty column. */
  function MaxOf(xs: seq<nat>): (m: nat)
    requires xs != []
    ensures m in xs && forall i :: 0 <= i < |xs| ==> xs[i] <= m
  {
    if |xs| == 1 then xs[0]
    else
      var m := MaxOf(xs[1..]);
      assert xs == [xs[0]] + xs[1..];
      if xs[0] >= m then xs[0] else m
  }

  /** `max(1, maxFreq // 10)` (tz.py:51). */
  function TickInterval(maxFreq: nat): (r: nat)
    ensures r >= 1
    ensures maxFreq < 20 ==> r == 1
    ensures maxFreq >= 10 ==> 10 * r <= maxFreq < 10 * (r + 1)
  {
    if maxFreq / 10 > 1 then maxFreq / 10 else 1
  }

  /** `(a + 1) * b == a * b + b`, the step between neighbouring multiples. */
  lemma MulSucc(a: int, b: int)
    ensures (a + 1) * b == a * b + b
  {
  }

  /** Python's `range(start, stop, step)` for a positive step. */
  function PyRange(start: int, stop: int, step: nat): (r: seq<int>)
    requires step > 0
    ensures forall k :: 0 <= k < |r| ==> r[k] == start + k * step && r[k] < stop
    ensures start + |r| * step >= stop
    decreases stop - start
  {
    if start >= stop then []
    else
      var rest := PyRange(start + step, stop, step);
      var r := [start] + rest;
      assert forall k :: 0 <= k < |r| ==> r[k] == start + k * step by {
        forall k | 1 <= k < |r| ensures r[k] == start + k * step {
          assert r[k] == rest[k - 1];
          MulSucc(k - 1, step);
        }
      }
      MulSucc(|rest|, step);
      r
  }

  /** `list(range(0, maxFreq + 1, interval))` (tz.py:78). */
  function TickValues(maxFreq: nat, interval: nat): seq<int>
    requires interval > 0
  {
    PyRange(0, maxFreq + 1, interval)
  }

  /** With the interval of tz.py:51, at most twenty ticks fit below the top. */
  lemma TickCountBound(maxFreq: nat, n: nat)
    requires n >= 1 && (n - 1) * TickInterval(maxFreq) <= maxFreq
    ensures n <= 20
  {
  }

  /** The y-axis ticks start at zero, step by the interval, stay within the
      largest count, stop only when the next tick would pass it, and number at
      most twenty. */
  lemma TicksSpec(maxFreq: nat)
    ensures TickValues(maxFreq, TickInterval(maxFreq)) != []
    ensures TickValues(maxFreq, TickInterval(maxFreq))[0] == 0
    ensures forall k :: 0 <= k < |TickValues(maxFreq, TickInterval(maxFreq))| ==>
      TickValues(maxFreq, TickInterval(maxFreq))[k] == k * TickInterval(maxFreq) <= maxFreq
    ensures maxFreq < |TickValues(maxFreq, TickInterval(maxFreq))| * TickInterval(maxFreq)
    ensures |TickValues(maxFreq, TickInterval(maxFreq))| <= 20
  {
    var iv := TickInterval(maxFreq);
    var ts := TickValues(maxFreq, iv);
    var n := |ts|;
    assert n >= 1;
    assert ts[n - 1] == (n - 1) * iv;
    TickCountBound(maxFreq, n);
  }
}
