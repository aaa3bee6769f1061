/** Frequency counting (tz.py:35, 38): `Counter(words)` and the two columns
    `list(word_counts.keys())` / `list(word_counts.values())` of the data
    frame built from it. A `Counter` is a dictionary, so its keys keep the
    order in which each word was first seen; the table below is that
    dictionary as its rows, in that order. */
module Frequency {

  /** One row of the frequency table: a word and its count. */
  datatype Row = Row(word: string, count: nat)

  /** The word column. */
  function Words(t: seq<Row>): (r: seq<string>)
    ensures |r| == |t| && forall i :: 0 <= i < |t| ==> r[i] == t[i].word
  {
    seq(|t|, i requires 0 <= i < |t| => t[i].word)
  }

  /** Keys are unique. */
  predicate DistinctWords(t: seq<Row>) {
    forall i, j :: 0 <= i < j < |t| ==> t[i].word != t[j].word
  }

  /** `counter[w] += 1`: the existing row of `w` is incremented, or a row
      `(w, 1)` is appended. */
  function Bump(t: seq<Row>, w: string): (r: seq<Row>)
    ensures |r| == if w in Words(t) then |t| else |t| + 1
  {
    if t == [] then [Row(w, 1)]
    else if t[0].word == w then [Row(w, t[0].count + 1)] + t[1..]
    else [t[0]] + Bump(t[1..], w)
  }

  /** `Counter(words)`, counting from the first word to the last. */
  function Tally(words: seq<string>): seq<Row> {
    if words == [] then [] else Bump(Tally(words[..|words| - 1]), words[|words| - 1])
  }

  /** `counter[w]`: the count of `w`, 0 when it is not a key. */
  function CountOf(t: seq<Row>, w: string): nat {
    if t == [] then 0 else if t[0].word == w then t[0].count else CountOf(t[1..], w)
  }

  /** The sum of the count column. */
  function Total(t: seq<Row>): nat {
    if t == [] then 0 else t[0].count + Total(t[1..])
  }

  /** `to_dict()` of the count column indexed by the word column: for a word
      that occurs twice the later row wins, as it does for a pandas index. */
  function ToMap(t: seq<Row>): (m: map<string, nat>)
    ensures m.Keys == set i | 0 <= i < |t| :: t[i].word
  {
    if t == [] then map[]
    else
      var init := t[..|t| - 1];
      var m := ToMap(init)[t[|t| - 1].word := t[|t| - 1].count];
      assert forall i :: 0 <= i < |init| ==> init[i] == t[i];
      m
  }

  lemma {:induction false} BumpWords(t: seq<Row>, w: string)
    ensures forall k :: k in Words(Bump(t, w)) <==> k in Words(t) || k == w
  {
    if t != [] && t[0].word != w {
      BumpWords(t[1..], w);
      assert Words(Bump(t, w)) == [t[0].word] + Words(Bump(t[1..], w));
      assert Words(t) == [t[0].word] + Words(t[1..]);
    } else if t != [] {
      assert forall i :: 0 <= i < |t| ==> Bump(t, w)[i].word == t[i].word;
      assert Words(Bump(t, w)) == Words(t) && Words(t)[0] == w;
    } else {
      assert Words(Bump(t, w)) == [w];
    }
  }

  /** A row whose word is new keeps the keys unique when put in front. */
  lemma ConsDistinct(x: Row, rest: seq<Row>)
    requires DistinctWords(rest) && x.word !in Words(rest)
    ensures DistinctWords([x] + rest)
  {
    var r := [x] + rest;
    forall j | 1 <= j < |r| ensures r[j].word != x.word {
      assert r[j].word == Words(rest)[j - 1];
    }
  }

  /** The head of a table with unique keys does not occur in its tail. */
  lemma UnconsDistinct(t: seq<Row>)
    requires t != [] && DistinctWords(t)
    ensures DistinctWords(t[1..]) && t[0].word !in Words(t[1..])
  {
  }

  lemma {:induction false} BumpDistinct(t: seq<Row>, w: string)
    requires DistinctWords(t)
    ensures DistinctWords(Bump(t, w))
  {
    if t != [] {
      UnconsDistinct(t);
      if t[0].word != w {
        BumpDistinct(t[1..], w);
        BumpWords(t[1..], w);
        ConsDistinct(t[0], Bump(t[1..], w));
      } else {
        assert Words([Row(w, t[0].count + 1)] + t[1..]) == Words(t);
        ConsDistinct(Row(w, t[0].count + 1), t[1..]);
      }
    }
  }

  lemma {:induction false} BumpCount(t: seq<Row>, w: string)
    ensures forall k :: CountOf(Bump(t, w), k) == CountOf(t, k) + (if k == w then 1 else 0)
    ensures Total(Bump(t, w)) == Total(t) + 1
  {
    if t != [] && t[0].word != w {
      BumpCount(t[1..], w);
      assert Bump(t, w)[1..] == Bump(t[1..], w);
    } else if t != [] {
      assert Bump(t, w)[1..] == t[1..];
    }
  }

  /** The counter's keys are unique and are exactly the words seen, and the
      count it stores for each word is the word's number of occurrences. */
  lemma {:induction false} TallyFacts(words: seq<string>)
    ensures DistinctWords(Tally(words))
    ensures forall k :: k in Words(Tally(words)) <==> k in words
    ensures forall k :: CountOf(Tally(words), k) == multiset(words)[k]
    ensures Total(Tally(words)) == |words|
  {
    if words != [] {
      var init := words[..|words| - 1];
      var last := words[|words| - 1];
      TallyFacts(init);
      BumpWords(Tally(init), last);
      BumpDistinct(Tally(init), last);
      BumpCount(Tally(init), last);
      assert words == init + [last];
    }
  }

  /** In a table with unique keys the lookup finds each row's own count. */
  lemma {:induction false} CountOfRow(t: seq<Row>, i: nat)
    requires DistinctWords(t) && i < |t|
    ensures CountOf(t, t[i].word) == t[i].count
  {
    if i > 0 {
      CountOfRow(t[1..], i - 1);
    }
  }

  /** The counting contract of the frequency table (tz.py:35, 38): one row per
      distinct token, each count the token's number of occurrences (so at
      least one), and the counts summing to the number of tokens. */
  lemma TallySpec(words: seq<string>)
    ensures DistinctWords(Tally(words))
    ensures forall w :: w in Words(Tally(words)) <==> w in words
    ensures forall i :: 0 <= i < |Tally(words)| ==>
      Tally(words)[i].count == multiset(words)[Tally(words)[i].word] >= 1
    ensures Total(Tally(words)) == |words|
  {
    TallyFacts(words);
    var t := Tally(words);
    forall i | 0 <= i < |t| ensures t[i].count == multiset(words)[t[i].word] >= 1 {
      CountOfRow(t, i);
      assert t[i].word in Words(t);
    }
  }

  /** `Counter(words)` read as a dictionary: its keys are the words seen and
      each value is that word's number of occurrences. */
  lemma CounterAsMap(words: seq<string>)
    ensures forall w :: w in ToMap(Tally(words)) <==> w in words
    ensures forall w :: w in ToMap(Tally(words)) ==> ToMap(Tally(words))[w] == multiset(words)[w]
  {
    TallySpec(words);
    var t := Tally(words);
    forall w | w in words ensures w in ToMap(t) {
      assert w in Words(t);
      var i :| 0 <= i < |t| && Words(t)[i] == w;
    }
    forall w | w in ToMap(t) ensures w in words && ToMap(t)[w] == multiset(words)[w] {
      var i :| 0 <= i < |t| && t[i].word == w;
      assert w in Words(t);
      ToMapDistinct(t, i);
    }
  }

  /** With unique keys the dictionary maps every row's word to its count. */
  lemma {:induction false} ToMapDistinct(t: seq<Row>, i: nat)
    requires DistinctWords(t) && i < |t|
    ensures ToMap(t)[t[i].word] == t[i].count
  {
    if i < |t| - 1 {
      var init := t[..|t| - 1];
      ToMapDistinct(init, i);
    }
  }

  /** A sequence without repeated words has as many rows as distinct words. */
  lemma {:induction false} DistinctCard(t: seq<Row>)
    requires DistinctWords(t)
    ensures |set i | 0 <= i < |t| :: t[i].word| == |t|
  {
    if t != [] {
      var init := t[..|t| - 1];
      DistinctCard(init);
      var a := set i | 0 <= i < |init| :: init[i].word;
      var b := set i | 0 <= i < |t| :: t[i].word;
      assert b == a + {t[|t| - 1].word};
      assert t[|t| - 1].word !in a;
    }
  }

  /** The table has one row per distinct token. */
  lemma TallySize(words: seq<string>)
    ensures |Tally(words)| == |set w | w in words|
  {
    TallySpec(words);
    var t := Tally(words);
    DistinctCard(t);
    var keys := set i | 0 <= i < |t| :: t[i].word;
    forall w ensures w in keys <==> w in words {
      if w in words {
        assert w in Words(t);
        var i :| 0 <= i < |t| && Words(t)[i] == w;
      }
      if w in keys {
        var i :| 0 <= i < |t| && t[i].word == w;
        assert w in Words(t);
      }
    }
    assert keys == set w | w in words;
  }
}
