/** Text normalisation of the page text (tz.py:30-31):
      1. delete every character that is neither a word character nor whitespace,
      2. replace every maximal run of whitespace by one ASCII space,
      3. strip whitespace from both ends.
    The word-character class `\w` is Unicode-table driven; it is kept abstract
    as the parameter `isWord`. Whitespace is the fixed class below. */
module Text {
  import opened Seqs

  /** The whitespace class shared by `\s` in a `str` pattern and `str.strip()`:
      the code points for which Python's `str.isspace` holds. */
  predicate IsSpace(c: char) {
    var n := c as int;
    (0x09 <= n <= 0x0D) || (0x1C <= n <= 0x20) || n == 0x85 || n == 0xA0 || n == 0x1680
    || (0x2000 <= n <= 0x200A) || n == 0x2028 || n == 0x2029 || n == 0x202F || n == 0x205F
    || n == 0x3000
  }

  predicate IsVisible(c: char) { !IsSpace(c) }

  /** The characters `[\w\s]` keeps. */
  function Retained(isWord: char -> bool): char -> bool {
    c => isWord(c) || IsSpace(c)
  }

  /** Word characters that are not whitespace. */
  function WordOnly(isWord: char -> bool): char -> bool {
    c => isWord(c) && !IsSpace(c)
  }

  /** The visible (non-whitespace) characters of `s`, in order. */
  function Visible(s: string): string {
    Filter(IsVisible, s)
  }

  /** Step 1, `re.sub(r'[^\w\s]', '', s)`. */
  function RemovePunctuation(isWord: char -> bool, s: string): (r: string)
    ensures forall i :: 0 <= i < |r| ==> isWord(r[i]) || IsSpace(r[i])
    ensures forall c :: multiset(r)[c] == if isWord(c) || IsSpace(c) then multiset(s)[c] else 0
  {
    FilterCount(Retained(isWord), s);
    Filter(Retained(isWord), s)
  }

  /** Drops the leading run of whitespace; what is left is a suffix of `s`. */
  function DropSpaces(s: string): (r: string)
    ensures |r| <= |s| && r == s[|s| - |r|..]
    ensures r == [] || !IsSpace(r[0])
    ensures forall i :: 0 <= i < |s| - |r| ==> IsSpace(s[i])
  {
    if s != [] && IsSpace(s[0]) then DropSpaces(s[1..]) else s
  }

  /** Drops the trailing run of whitespace; what is left is a prefix of `s`. */
  function DropTrailingSpaces(s: string): (r: string)
    ensures |r| <= |s| && r == s[..|r|]
    ensures r == [] || !IsSpace(r[|r| - 1])
    ensures forall i :: |r| <= i < |s| ==> IsSpace(s[i])
  {
    if s != [] && IsSpace(s[|s| - 1]) then DropTrailingSpaces(s[..|s| - 1]) else s
  }

  /** `s.strip()`. */
  function Strip(s: string): (r: string)
    ensures r == [] || (!IsSpace(r[0]) && !IsSpace(r[|r| - 1]))
  {
    DropTrailingSpaces(DropSpaces(s))
  }

  /** No two neighbouring characters are both whitespace. */
  predicate NoDoubleSpace(s: string) {
    forall i :: 0 <= i < |s| - 1 ==> !(IsSpace(s[i]) && IsSpace(s[i + 1]))
  }

  /** Step 2, `re.sub(r'\s+', ' ', s)`: the regular expression matches maximal
      runs of whitespace from left to right, and each match becomes one space. */
  function CollapseSpaces(s: string): (r: string)
    ensures |r| <= |s|
    ensures s != [] ==> r != [] && r[0] == (if IsSpace(s[0]) then ' ' else s[0])
    ensures NoDoubleSpace(r)
    ensures forall i :: 0 <= i < |r| ==> r[i] == ' ' || (!IsSpace(r[i]) && r[i] in s)
    decreases |s|
  {
    if s == [] then []
    else if IsSpace(s[0]) then [' '] + CollapseSpaces(DropSpaces(s[1..]))
    else [s[0]] + CollapseSpaces(s[1..])
  }

  /** A run of whitespace followed by the end or by a visible character is
      dropped as a whole. */
  lemma {:induction false} DropSpacesAppend(x: string, y: string)
    requires y == [] || !IsSpace(y[0])
    ensures DropSpaces(x + y) == DropSpaces(x) + y
  {
    if x == [] {
      assert x + y == y;
    } else {
      assert (x + y)[0] == x[0] && (x + y)[1..] == x[1..] + y;
      if IsSpace(x[0]) {
        DropSpacesAppend(x[1..], y);
      }
    }
  }

  /** A non-empty run of whitespace alone becomes one space. */
  lemma CollapseSpacesBlank(w: string)
    requires w != [] && forall i :: 0 <= i < |w| ==> IsSpace(w[i])
    ensures CollapseSpaces(w) == [' ']
  {
  }

  /** One unfolding of step 2. */
  lemma CollapseSpacesUnfold(z: string)
    requires z != []
    ensures IsSpace(z[0]) ==> CollapseSpaces(z) == [' '] + CollapseSpaces(DropSpaces(z[1..]))
    ensures !IsSpace(z[0]) ==> CollapseSpaces(z) == [z[0]] + CollapseSpaces(z[1..])
  {
  }

  /** The inductive step of `CollapseSpacesAppendVisible` for a leading whitespace
      run: it becomes one space in front of both sides. */
  lemma CollapseSpacesStepBlank(x: string, y: string)
    requires x != [] && IsSpace(x[0]) && (y == [] || !IsSpace(y[0]))
    requires CollapseSpaces(DropSpaces(x[1..]) + y) == CollapseSpaces(DropSpaces(x[1..])) + CollapseSpaces(y)
    ensures CollapseSpaces(x + y) == CollapseSpaces(x) + CollapseSpaces(y)
  {
    ConsAppend(x, y);
    CollapseSpacesUnfold(x + y);
    CollapseSpacesUnfold(x);
    DropSpacesAppend(x[1..], y);
    ConcatAssoc([' '], CollapseSpaces(DropSpaces(x[1..])), CollapseSpaces(y));
  }

  /** The inductive step of `CollapseSpacesAppendVisible` for a leading visible
      character: it is kept in front of both sides. */
  lemma CollapseSpacesStepVisible(x: string, y: string)
    requires x != [] && !IsSpace(x[0])
    requires CollapseSpaces(x[1..] + y) == CollapseSpaces(x[1..]) + CollapseSpaces(y)
    ensures CollapseSpaces(x + y) == CollapseSpaces(x) + CollapseSpaces(y)
  {
    ConsAppend(x, y);
    CollapseSpacesUnfold(x + y);
    CollapseSpacesUnfold(x);
    ConcatAssoc([x[0]], CollapseSpaces(x[1..]), CollapseSpaces(y));
  }

  /** Step 2 on a text cut where a visible character starts (or at its end)
      collapses as its two parts do. */
  lemma {:induction false} CollapseSpacesAppendVisible(x: string, y: string)
    requires y == [] || !IsSpace(y[0])
    ensures CollapseSpaces(x + y) == CollapseSpaces(x) + CollapseSpaces(y)
    decreases |x|
  {
    if x == [] {
      assert x + y == y;
    } else if IsSpace(x[0]) {
      CollapseSpacesAppendVisible(DropSpaces(x[1..]), y);
      CollapseSpacesStepBlank(x, y);
    } else {
      CollapseSpacesAppendVisible(x[1..], y);
      CollapseSpacesStepVisible(x, y);
    }
  }

  /** Step 2 works piece by piece: a text cut next to a visible character,
      on either side of it, collapses as its two parts do. Cutting at every
      border between a visible character and a whitespace run leaves single
      visible characters, which stay, and whole runs, which become one space
      each (`CollapseSpacesBlank`): so every maximal whitespace run becomes
      one space in its own place. */
  lemma CollapseSpacesAppend(x: string, y: string)
    requires y == [] || !IsSpace(y[0]) || (x != [] && !IsSpace(x[|x| - 1]))
    ensures CollapseSpaces(x + y) == CollapseSpaces(x) + CollapseSpaces(y)
  {
    if y == [] || !IsSpace(y[0]) {
      CollapseSpacesAppendVisible(x, y);
    } else {
      var xi := x[..|x| - 1];
      var c := x[|x| - 1];
      assert x == xi + [c];
      CollapseSpacesAfterVisible(xi, c, y);
    }
  }

  /** The case of `CollapseSpacesAppend` where the cut follows a visible character `c`. */
  lemma CollapseSpacesAfterVisible(xi: string, c: char, y: string)
    requires !IsSpace(c)
    ensures CollapseSpaces(xi + [c] + y) == CollapseSpaces(xi + [c]) + CollapseSpaces(y)
  {
    var cy := [c] + y;
    calc {
      CollapseSpaces(xi + [c] + y);
      { ConcatAssoc(xi, [c], y); }
      CollapseSpaces(xi + cy);
      { ConsAppend([c], y); CollapseSpacesAppendVisible(xi, cy); }
      CollapseSpaces(xi) + CollapseSpaces(cy);
      { ConsAppend([c], y); CollapseSpacesUnfold(cy); }
      CollapseSpaces(xi) + ([c] + CollapseSpaces(y));
      { ConcatAssoc(CollapseSpaces(xi), [c], CollapseSpaces(y)); }
      (CollapseSpaces(xi) + [c]) + CollapseSpaces(y);
      { CollapseSingle(c); CollapseSpacesAppendVisible(xi, [c]); }
      CollapseSpaces(xi + [c]) + CollapseSpaces(y);
    }
  }

  /** A visible character on its own is left alone by step 2. */
  lemma CollapseSingle(c: char)
    requires !IsSpace(c)
    ensures CollapseSpaces([c]) == [c]
  {
    assert [c][1..] == [];
  }

  /** The whole normalisation of tz.py:30-31. */
  function Normalise(isWord: char -> bool, s: string): string {
    Strip(CollapseSpaces(RemovePunctuation(isWord, s)))
  }

  /** A character normalised text may hold: the ASCII space or a visible
      word character. */
  predicate CleanChar(isWord: char -> bool, c: char) {
    c == ' ' || (isWord(c) && !IsSpace(c))
  }

  /** What the normalised text promises: only word characters and single
      ASCII spaces, no space next to a space, nothing blank at either end. */
  predicate IsNormalised(isWord: char -> bool, s: string) {
    && (forall i :: 0 <= i < |s| ==> CleanChar(isWord, s[i]))
    && NoDoubleSpace(s)
    && (s == [] || (!IsSpace(s[0]) && !IsSpace(s[|s| - 1])))
  }

  /** The characters step 2 leaves are single spaces and non-blank input characters. */
  lemma CollapsedClean(isWord: char -> bool, x: string)
    requires forall i :: 0 <= i < |x| ==> isWord(x[i]) || IsSpace(x[i])
    ensures forall i :: 0 <= i < |CollapseSpaces(x)| ==>
      CleanChar(isWord, CollapseSpaces(x)[i])
  {
    var y := CollapseSpaces(x);
    forall i | 0 <= i < |y| && y[i] != ' '
      ensures isWord(y[i]) && !IsSpace(y[i])
    {
      var k :| 0 <= k < |x| && x[k] == y[i];
    }
  }

  /** `s.strip()` is the slice of `s` between its leading and its trailing
      whitespace: everything cut off on either side is whitespace. */
  lemma StripSlice(s: string) returns (k: nat)
    ensures k + |Strip(s)| <= |s| && Strip(s) == s[k..k + |Strip(s)|]
    ensures forall i :: 0 <= i < k ==> IsSpace(s[i])
    ensures forall i :: k + |Strip(s)| <= i < |s| ==> IsSpace(s[i])
  {
    var d := DropSpaces(s);
    k := |s| - |d|;
    assert DropTrailingSpaces(d) == s[k..][..|Strip(s)|];
    forall i | k + |Strip(s)| <= i < |s| ensures IsSpace(s[i]) {
      assert s[i] == d[i - k];
    }
  }

  /** A slice of a text of word characters and single blanks without a
      double blank is again such a text. */
  lemma SliceClean(isWord: char -> bool, y: string, a: nat, b: nat)
    requires a <= b <= |y|
    requires forall i :: 0 <= i < |y| ==> CleanChar(isWord, y[i])
    requires NoDoubleSpace(y)
    ensures forall i :: 0 <= i < b - a ==> CleanChar(isWord, y[a..b][i])
    ensures NoDoubleSpace(y[a..b])
  {
    var r := y[a..b];
    forall i | 0 <= i < |r| - 1 ensures !(IsSpace(r[i]) && IsSpace(r[i + 1])) {
      assert r[i] == y[a + i] && r[i + 1] == y[a + i + 1];
    }
  }

  /** Stripping a text of word characters and single blanks without a
      double blank leaves a normalised text. */
  lemma StripNormalised(isWord: char -> bool, y: string)
    requires forall i :: 0 <= i < |y| ==> CleanChar(isWord, y[i])
    requires NoDoubleSpace(y)
    ensures IsNormalised(isWord, Strip(y))
  {
    var k := StripSlice(y);
    SliceClean(isWord, y, k, k + |Strip(y)|);
  }

  lemma NormaliseIsNormalised(isWord: char -> bool, s: string)
    ensures IsNormalised(isWord, Normalise(isWord, s))
  {
    var x := RemovePunctuation(isWord, s);
    CollapsedClean(isWord, x);
    StripNormalised(isWord, CollapseSpaces(x));
  }

  /** Dropping leading whitespace keeps every visible character. */
  lemma {:induction false} DropSpacesVisible(s: string)
    ensures Visible(DropSpaces(s)) == Visible(s)
  {
    if s != [] && IsSpace(s[0]) {
      DropSpacesVisible(s[1..]);
    }
  }

  lemma {:induction false} DropTrailingSpacesVisible(s: string)
    ensures Visible(DropTrailingSpaces(s)) == Visible(s)
  {
    if s != [] && IsSpace(s[|s| - 1]) {
      var init := s[..|s| - 1];
      DropTrailingSpacesVisible(init);
      assert s == init + [s[|s| - 1]];
      FilterAppend(IsVisible, init, [s[|s| - 1]]);
    }
  }

  lemma {:induction false} CollapseSpacesVisible(s: string)
    ensures Visible(CollapseSpaces(s)) == Visible(s)
    decreases |s|
  {
    if s != [] {
      if IsSpace(s[0]) {
        var rest := DropSpaces(s[1..]);
        CollapseSpacesVisible(rest);
        DropSpacesVisible(s[1..]);
        assert ([' '] + CollapseSpaces(rest))[1..] == CollapseSpaces(rest);
      } else {
        CollapseSpacesVisible(s[1..]);
        assert ([s[0]] + CollapseSpaces(s[1..]))[1..] == CollapseSpaces(s[1..]);
      }
    }
  }

  /** Normalisation neither loses, adds nor reorders a visible word character:
      the visible characters of the result are exactly the word characters of
      the input, in order. */
  lemma NormaliseKeepsWords(isWord: char -> bool, s: string)
    ensures Visible(Normalise(isWord, s)) == Filter(WordOnly(isWord), s)
  {
    var x := RemovePunctuation(isWord, s);
    var y := CollapseSpaces(x);
    calc {
      Visible(Normalise(isWord, s));
      { DropTrailingSpacesVisible(DropSpaces(y)); }
      Visible(DropSpaces(y));
      { DropSpacesVisible(y); }
      Visible(y);
      { CollapseSpacesVisible(x); }
      Visible(x);
      { FilterFilter(Retained(isWord), IsVisible, WordOnly(isWord), s); }
      Filter(WordOnly(isWord), s);
    }
  }

  /** A text without whitespace other than single spaces is left alone by step 2. */
  lemma {:induction false} CollapseSpacesFixed(s: string)
    requires forall i :: 0 <= i < |s| ==> IsSpace(s[i]) ==> s[i] == ' '
    requires NoDoubleSpace(s)
    ensures CollapseSpaces(s) == s
  {
    if s != [] {
      CollapseSpacesFixed(s[1..]);
      if IsSpace(s[0]) {
        assert DropSpaces(s[1..]) == s[1..];
      }
    }
  }

  /** Normalised text is a fixed point of normalisation. */
  lemma NormalisedFixed(isWord: char -> bool, s: string)
    requires IsNormalised(isWord, s)
    ensures Normalise(isWord, s) == s
  {
    FilterAllKept(Retained(isWord), s);
    CollapseSpacesFixed(s);
  }

  /** Normalising twice gives the same text as normalising once. */
  lemma NormaliseIdempotent(isWord: char -> bool, s: string)
    ensures Normalise(isWord, Normalise(isWord, s)) == Normalise(isWord, s)
  {
    NormaliseIsNormalised(isWord, s);
    NormalisedFixed(isWord, Normalise(isWord, s));
  }

  /** `not w.strip()`: the token holds nothing but whitespace. */
  lemma StripEmpty(w: string)
    ensures Strip(w) == [] <==> forall i :: 0 <= i < |w| ==> IsSpace(w[i])
  {
  }
}
