/** The request pipeline of tz.py:13-118 for one URL: the scheme gate, the
    fetch (an input here), normalisation, token filtering, counting, ranking,
    the tick interval, the chart and the word-cloud weights. What the page
    shows is the result. */
module App {
  import opened Seqs
  import opened Text
  import opened Tokens
  import opened Frequency
  import opened Ranking
  import opened Chart

  /** The sidebar warning of tz.py:17 and tz.py:116. */
  const InvalidUrlWarning: string := "请输入有效的URL"

  /** The prefix of the sidebar error of tz.py:118. */
  const ErrorPrefix: string := "发生错误: "

  predicate StartsWith(s: string, prefix: string) {
    |prefix| <= |s| && s[..|prefix|] == prefix
  }

  /** The gate of tz.py:16. */
  predicate IsWebUrl(url: string) {
    StartsWith(url, "http://") || StartsWith(url, "https://")
  }

  /** What `requests.get(url)` gives: the page's extracted text
      (`soup.get_text()` of the decoded response), or one of the two
      exceptions tz.py:115-118 catches. */
  datatype Response = Page(text: string) | MissingSchema | RequestFailed(cause: string)

  /** Exceptions the script does not catch: `max()` of an empty column
      (tz.py:51) and the unbound `fig` (tz.py:74). */
  datatype Crash = EmptyMax | FigureUnbound

  /** What one run leaves on the page. */
  datatype Screen =
    | SidebarWarning(message: string)
    | SidebarError(message: string)
    | Crashed(crash: Crash)
    | Shown(table: seq<RankedEntry>, chart: ChartSpec, cloud: map<string, nat>)

  /** The tokens counted for a page text (tz.py:30-34); `segment` stands for
      the segmenter. */
  function PageTokens(isWord: char -> bool, segment: string -> seq<string>, text: string): seq<string> {
    KeptTokens(segment(Normalise(isWord, text)))
  }

  /** tz.py:51-103 for the ranked table `top` and the radio selection `choice`. */
  function Present(top: seq<RankedEntry>, choice: string): (r: Screen)
    ensures r.Crashed? || r.Shown?
    ensures r == Crashed(EmptyMax) <==> top == []
  {
    if top == [] then Crashed(EmptyMax)
    else
      var maxFreq := MaxOf(Frequencies(top));
      var interval := TickInterval(maxFreq);
      match ParseKind(choice)
      case None => Crashed(FigureUnbound)
      case Some(k) => Shown(top, ChartSpecFor(k, top, TickValues(maxFreq, interval)), WeightMap(top))
  }

  /** tz.py:30-48: the ranked top table of a page text. The sort is
      `SortByCount`; every property of the table is proved for any sort
      satisfying `IsCountSort`, whatever its order among equal counts. */
  function TopTable(isWord: char -> bool, segment: string -> seq<string>, text: string): seq<RankedEntry> {
    RankTokens(PageTokens(isWord, segment, text))
  }

  /** tz.py:35-48 for the kept tokens `words`. */
  function RankTokens(words: seq<string>): seq<RankedEntry> {
    RankTop(SortByCount(Tally(words)))
  }

  /** One run of the script. `response` is the outcome of fetching `url`,
      `segment` the segmenter, `isWord` the `\w` class and `choice` the radio
      selection. */
  function Run(url: string, response: Response, segment: string -> seq<string>,
               isWord: char -> bool, choice: string): Screen
  {
    if !IsWebUrl(url) then SidebarWarning(InvalidUrlWarning)
    else
      match response
      case MissingSchema => SidebarWarning(InvalidUrlWarning)
      case RequestFailed(cause) => SidebarError(ErrorPrefix + cause)
      case Page(text) => Present(TopTable(isWord, segment, text), choice)
  }

  /** The URL gate (tz.py:16-18): a URL without an `http://` or `https://`
      prefix gets the warning whatever the network would have answered; with
      one, a fetched page is always processed. */
  lemma RunGate(url: string, response: Response, segment: string -> seq<string>,
                isWord: char -> bool, choice: string)
    ensures !IsWebUrl(url) ==> Run(url, response, segment, isWord, choice) == SidebarWarning(InvalidUrlWarning)
    ensures IsWebUrl(url) && response.Page? ==>
      Run(url, response, segment, isWord, choice).Crashed? || Run(url, response, segment, isWord, choice).Shown?
  {
  }

  /** The two handlers of tz.py:115-118 behind the gate: a missing schema
      gives the same warning as the gate, any other request failure the error
      prefix followed by its cause. The warning therefore appears exactly when
      the gate or the fetch rejects the URL. */
  lemma RunFetchErrors(url: string, response: Response, segment: string -> seq<string>,
                       isWord: char -> bool, choice: string)
    ensures IsWebUrl(url) && response.MissingSchema? ==>
      Run(url, response, segment, isWord, choice) == SidebarWarning(InvalidUrlWarning)
    ensures IsWebUrl(url) && response.RequestFailed? ==>
      Run(url, response, segment, isWord, choice) == SidebarError(ErrorPrefix + response.cause)
    ensures Run(url, response, segment, isWord, choice).SidebarWarning? <==>
      !IsWebUrl(url) || response.MissingSchema?
  {
  }

  /** The ranked table is empty exactly when no token was kept. */
  lemma RankTokensEmpty(words: seq<string>)
    ensures RankTokens(words) == [] <==> words == []
  {
    var table := Tally(words);
    TallySpec(words);
    var sorted := SortByCount(table);
    assert |sorted| == |multiset(sorted)| == |multiset(table)| == |table|;
    if words != [] {
      assert words[0] in Words(table);
    }
  }

  /** A page whose text leaves no token crashes at tz.py:51, and it is the only
      way a fetched page reaches that crash. */
  lemma RunEmptyCrashes(url: string, text: string, segment: string -> seq<string>,
                        isWord: char -> bool, choice: string)
    requires IsWebUrl(url)
    ensures Run(url, Page(text), segment, isWord, choice) == Crashed(EmptyMax) <==>
      PageTokens(isWord, segment, text) == []
  {
    RankTokensEmpty(PageTokens(isWord, segment, text));
  }

  /** A selector outside the seven options crashes at tz.py:74 once there is
      something to plot. */
  lemma RunUnknownKind(url: string, text: string, segment: string -> seq<string>,
                       isWord: char -> bool, choice: string)
    requires IsWebUrl(url) && PageTokens(isWord, segment, text) != []
    ensures Run(url, Page(text), segment, isWord, choice) == Crashed(FigureUnbound) <==>
      forall k :: Label(k) != choice
  {
    var top := TopTable(isWord, segment, text);
    RankTokensEmpty(PageTokens(isWord, segment, text));
    assert Run(url, Page(text), segment, isWord, choice) == Present(top, choice);
    PresentUnknown(top, choice);
  }

  /** A non-empty table with a selector outside the seven options crashes. */
  lemma PresentUnknown(top: seq<RankedEntry>, choice: string)
    requires top != []
    ensures Present(top, choice) == Crashed(FigureUnbound) <==> forall k :: Label(k) != choice
  {
    if forall k :: Label(k) != choice {
      assert ParseKind(choice).None?;
    } else {
      var k :| Label(k) == choice;
      ParseLabel(k);
    }
  }

  /** The ranked table of the kept tokens (tz.py:35-48) is a valid ranked
      table of min(20, distinct tokens) entries, each entry's count is the
      token's number of occurrences, and no token left out occurs more often
      than any listed one. */
  lemma RankTokensSpec(words: seq<string>)
    ensures var top := RankTokens(words);
      && ValidRanked(top)
      && |top| == (if |set w | w in words| < TopCount then |set w | w in words| else TopCount)
      && (forall i :: 0 <= i < |top| ==> top[i].count == multiset(words)[top[i].word])
      && (forall w, j :: w in words && 0 <= j < |top| && !Listed(top, w) ==>
            multiset(words)[w] <= top[j].count)
  {
    TallySpec(words);
    TallySize(words);
    TopFacts(Tally(words), SortByCount(Tally(words)));
    RankedCounts(words);
    RankedMaximal(words);
  }

  /** Each listed count is the number of occurrences of its token. */
  lemma RankedCounts(words: seq<string>)
    ensures forall i :: 0 <= i < |RankTokens(words)| ==>
      RankTokens(words)[i].count == multiset(words)[RankTokens(words)[i].word]
  {
    var table := Tally(words);
    var top := RankTokens(words);
    TallySpec(words);
    TopFacts(table, SortByCount(table));
    forall i | 0 <= i < |top| ensures top[i].count == multiset(words)[top[i].word] {
      assert Row(top[i].word, top[i].count) in table;
      var k :| 0 <= k < |table| && table[k] == Row(top[i].word, top[i].count);
    }
  }

  /** No token left out of the ranked table occurs more often than a listed one. */
  lemma RankedMaximal(words: seq<string>)
    ensures forall w, j :: w in words && 0 <= j < |RankTokens(words)| && !Listed(RankTokens(words), w) ==>
      multiset(words)[w] <= RankTokens(words)[j].count
  {
    var table := Tally(words);
    var top := RankTokens(words);
    TallySpec(words);
    TopFacts(table, SortByCount(table));
    forall w, j | w in words && 0 <= j < |top| && !Listed(top, w)
      ensures multiset(words)[w] <= top[j].count
    {
      assert w in Words(table);
      var i :| 0 <= i < |table| && Words(table)[i] == w;
    }
  }

  /** What a valid ranked table shows (tz.py:51-103): nothing when it is empty
      or the selector is unknown; otherwise the table itself, word-cloud
      weights that are exactly the table, and the selected kind's figure with
      the ticks of tz.py:51 and tz.py:78 computed from the top count. */
  lemma PresentSpec(top: seq<RankedEntry>, choice: string)
    requires ValidRanked(top)
    ensures Present(top, choice).Shown? <==> top != [] && ParseKind(choice).Some?
    ensures Present(top, choice).Shown? ==>
      var s := Present(top, choice);
      && s.table == top
      && (forall w :: w in s.cloud <==> Listed(top, w))
      && (forall i :: 0 <= i < |top| ==> s.cloud[top[i].word] == top[i].count)
      && s.chart == ChartSpecFor(ParseKind(choice).value, top, TickValues(top[0].count, TickInterval(top[0].count)))
  {
    WeightMapSpec(top);
    if top != [] {
      var f := Frequencies(top);
      var m := MaxOf(f);
      assert f[0] == top[0].count <= m;
      var i :| 0 <= i < |f| && f[i] == m;
      assert m == top[0].count;
    }
  }

  /** A shown page is the presentation of the page text's ranked table, and
      it is shown only for a web URL, a fetched page, at least one token and
      a known selector. */
  lemma RunShown(url: string, response: Response, segment: string -> seq<string>,
                 isWord: char -> bool, choice: string)
    ensures Run(url, response, segment, isWord, choice).Shown? <==>
      IsWebUrl(url) && response.Page? && PageTokens(isWord, segment, response.text) != []
      && ParseKind(choice).Some?
    ensures Run(url, response, segment, isWord, choice).Shown? ==>
      Run(url, response, segment, isWord, choice) == Present(TopTable(isWord, segment, response.text), choice)
  {
    if IsWebUrl(url) && response.Page? {
      var top := TopTable(isWord, segment, response.text);
      RankTokensSpec(PageTokens(isWord, segment, response.text));
      RankTokensEmpty(PageTokens(isWord, segment, response.text));
      PresentSpec(top, choice);
    }
  }

  /** The normalised page text the tokens are cut from keeps its promises and
      all of the page's word characters, and normalising it again changes
      nothing. */
  lemma PageTextNormalised(isWord: char -> bool, text: string)
    ensures IsNormalised(isWord, Normalise(isWord, text))
    ensures Visible(Normalise(isWord, text)) == Filter(WordOnly(isWord), text)
    ensures Normalise(isWord, Normalise(isWord, text)) == Normalise(isWord, text)
  {
    NormaliseIsNormalised(isWord, text);
    NormaliseKeepsWords(isWord, text);
    NormaliseIdempotent(isWord, text);
  }
}
