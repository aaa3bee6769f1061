# Word-frequency page analyser, modelled in Dafny

`tz.py` is a one-page Streamlit script. It takes a URL from the sidebar and
refuses anything that is not `http://` or `https://`. It then fetches the page
and extracts its text. It deletes punctuation, collapses whitespace and trims
the ends. It segments the text with jieba and keeps the tokens that are not
blank and are longer than one character. It counts them with a `Counter`,
sorts the counts from high to low and keeps the top twenty with 1-based ranks.
From the top count it derives a y-axis tick interval. One of seven chart kinds
is drawn, and every kind except radar gets a font, explicit y ticks and
rotated x labels. Last, a word cloud is drawn from the top twenty.

The model covers that pipeline, module by module:

- `seqs.dfy` (`Seqs`): order-preserving filtering. The regular-expression
  deletion and the token comprehension are both filters.
- `text.dfy` (`Text`): normalisation of the page text (tz.py:30-31).
- `tokens.dfy` (`Tokens`): the token filter (tz.py:34).
- `frequency.dfy` (`Frequency`): the `Counter` and its word and count
  columns (tz.py:35, 38).
- `ranking.dfy` (`Ranking`): sorting, the top twenty, ranks, word-cloud
  weights and y-axis ticks (tz.py:42-51, 78, 100).
- `chart.dfy` (`Chart`): chart-kind dispatch.
  - The figure is a class whose three update methods change it in place, as
    the script does at tz.py:74-82.
  - `PlotChart` runs the `if`/`elif` chain and the three radar-exempt updates.
  - `PlotChart` is proved equal to the declarative `ChartSpecFor`.
- `app.dfy` (`App`): one run of the script, from URL and fetch outcome to
  what the page shows (`Screen`).

The outside pieces are parameters. `response` is the fetch outcome, with the
extracted page text. `segment` is the segmenter. `isWord` is the regular
expression class `\w`.

Whitespace is concrete. It is the set of code points for which Python's
`str.isspace` holds. `\s` in a `str` pattern and `str.strip()` both use that
set.

Four behaviours of the script are easy to assume otherwise:

- **Empty table.** A page with no surviving token does not give empty
  charts. `max()` of an empty column at tz.py:51 raises `ValueError`, and the
  handlers at tz.py:115-118 catch only request exceptions, so the run
  crashes. The model has `Crashed(EmptyMax)`, and `RunEmptyCrashes` proves it
  is reached exactly when no token is kept.
- **Unknown chart kind.** A selector outside the seven options leaves `fig`
  unbound, and tz.py:74 raises `NameError`. This is `Crashed(FigureUnbound)`
  in `App` and `Plot.NameError` in `Chart`.
- **Tie order.** `sort_values` (tz.py:42) uses pandas' default sort, which
  is not stable. Equal counts are therefore not promised to keep the
  counter's order.
  - `IsCountSort` says only "a permutation with non-increasing counts".
  - Every property of the ranked table is proved for any such sort.
  - `CountColumnUnique` shows that the count column is the same for all of
    them.
  - `SortByCount` (an insertion sort) is one sort meeting `IsCountSort`. It is
    used where a concrete run needs one.
- **Number of ticks.** The interval `max(1, maxFreq // 10)` does not keep the
  y axis to about ten ticks: there can be up to twenty, for example for a
  top count of 19. `TicksSpec` proves the bound of twenty.

## Model

| member | source | states |
|---|---|---|
| App.Run | tz.py:16-118 | One run of the script: the URL gate, the fetch outcome, then the presentation of the page's ranked table. Its contract is stated by `App.RunGate`, `App.RunShown`, `App.RunEmptyCrashes` and `App.RunUnknownKind`. |
| App.IsWebUrl | tz.py:16 | The scheme test of the gate. Its contract is stated by `App.RunGate`. |
| App.RunGate | tz.py:16-18 | A URL without an `http://` or `https://` prefix always ends at the sidebar warning, whatever the fetch gives. With the prefix, a fetched page is always processed: the run crashes or shows the page. |
| App.RunFetchErrors | tz.py:115-118 | Behind the gate, a missing schema gives the gate's warning, and any other request failure shows the error prefix followed by its cause. The warning appears exactly when the prefix is missing or the fetch reports a missing schema. |
| App.RunShown | tz.py:16-100 | The page shows a table, a chart and a word cloud exactly when the URL is a web URL, the page was fetched, at least one token is kept and the selector is one of the seven kinds. What is shown is the presentation of the page's ranked table. |
| App.RunEmptyCrashes | tz.py:51 | For a fetched page behind a web URL, the run crashes on the empty `max()` exactly when no token survives the filter. |
| App.RunUnknownKind | tz.py:56-74 | For a fetched page with at least one kept token, the run crashes on the unbound figure exactly when the selector is none of the seven labels. |
| App.PresentUnknown | tz.py:56-74 | For a non-empty table, presenting crashes on the unbound figure exactly when no label matches the selector. |
| App.Present | tz.py:51-100 | Presenting a table either crashes or shows it. It crashes on the empty `max()` exactly when the table is empty. |
| App.PresentSpec | tz.py:51-100 | For a valid ranked table, the page is shown exactly when the table is non-empty and the kind is known. The table shown is the table itself. The word cloud weights hold exactly the listed words, each with its count. The chart is the selected kind's figure, with ticks computed from the top entry's count. |
| App.PageTokens | tz.py:30-34 | The tokens counted for a page: the segmenter's output on the normalised text, filtered. Its contract is stated by `App.PageTextNormalised` (the text handed to the segmenter) and `Tokens.KeptTokensSpec` (the filter). |
| App.TopTable | tz.py:30-48 | The ranked top table of a page text, the ranking of its kept tokens. Its contract is stated by `App.RankTokensSpec`, through `App.PageTokens`. |
| App.RankTokens | tz.py:35-48 | Counting, sorting, `head(20)` and ranks over the kept tokens. Its contract is stated by `App.RankTokensSpec` and `App.RankTokensEmpty`. |
| App.RankTokensEmpty | tz.py:35-45 | The ranked table is empty exactly when the kept token list is empty. |
| App.RankTokensSpec | tz.py:35-48 | The ranked table of the kept tokens is valid and has min(20, number of distinct tokens) entries. Every listed count is the token's number of occurrences. No token left out occurs more often than any listed token. |
| App.RankedCounts | tz.py:35-45 | Each count in the ranked table is the number of occurrences of its token in the kept list. |
| App.RankedMaximal | tz.py:42-45 | Every kept token that is not listed occurs at most as often as each listed token. |
| App.PageTextNormalised | tz.py:30-31 | The text the tokens are cut from is normalised. It keeps exactly the page's visible word characters, in order. Normalising it again changes nothing. |
| Text.Normalise | tz.py:30-31 | The three steps of tz.py:30-31 in order. Its contract is stated by `Text.NormaliseIsNormalised`, `Text.NormaliseKeepsWords`, `Text.NormalisedFixed` and `Text.NormaliseIdempotent`. |
| Text.RemovePunctuation | tz.py:30 | Every remaining character is a word character or whitespace. Each such character keeps its number of occurrences; every other character disappears. |
| Text.CollapseSpaces | tz.py:31 | The result is no longer than the input and has no two adjacent whitespace characters. Every character is either the single ASCII space or a non-whitespace character of the input. A non-empty input keeps its first character, or a space in its place if that character is whitespace. |
| Text.CollapseSpacesBlank | tz.py:31 | A non-empty run of whitespace on its own becomes exactly one ASCII space. |
| Text.CollapseSpacesAppend | tz.py:31 | Cutting a text next to a visible character, on either side of it, or at its end, and collapsing each part gives the collapse of the whole. Cutting at every border between a whitespace run and a visible character, with `Text.CollapseSpacesBlank`, shows that every maximal whitespace run becomes one space in its own place and every visible character stays where it was. |
| Text.CollapseSpacesAppendVisible | tz.py:31 | The case of a cut just before a visible character, or at the end: the collapse of the whole is the collapse of the parts. |
| Text.CollapseSpacesAfterVisible | tz.py:31 | The case of a cut just after a visible character: the collapse of the whole is the collapse of the parts. |
| Text.CollapseSingle | tz.py:31 | A single visible character is left as it is. |
| Text.DropSpacesAppend | tz.py:31 | Dropping the leading whitespace of a text followed by a visible character, or by nothing, drops only the first part's whitespace. |
| Text.CollapseSpacesFixed | tz.py:31 | A text whose only whitespace is single ASCII spaces is left unchanged by the collapse. |
| Text.Strip | tz.py:31 | The stripped text neither starts nor ends with whitespace. |
| Text.StripSlice | tz.py:31 | The stripped text is a contiguous slice of the input, and everything cut off on either side is whitespace. |
| Text.StripEmpty | tz.py:34 | `w.strip()` is empty exactly when every character of `w` is whitespace. |
| Text.NormaliseIsNormalised | tz.py:30-31 | The normalised text holds only word characters and single ASCII spaces. It has no two adjacent spaces and no whitespace at either end. |
| Text.NormaliseKeepsWords | tz.py:30-31 | The visible characters of the normalised text are exactly the input's non-whitespace word characters, in input order. |
| Text.NormalisedFixed | tz.py:30-31 | Normalising a text that is already normalised returns it unchanged. |
| Text.NormaliseIdempotent | tz.py:30-31 | Normalising twice gives the same text as normalising once. |
| Tokens.KeepToken | tz.py:34 | The comprehension's condition `word.strip() and len(word) > 1`. `Text.StripEmpty` states what the first half means, and `Tokens.KeptTokensSpec` states what passing it guarantees. |
| Tokens.KeptTokens | tz.py:34 | The comprehension over the segmenter output. Its contract is stated by `Tokens.KeptTokensSpec`, `Tokens.KeptTokensAppend` and `Tokens.KeptTokensAll`. |
| Tokens.KeptTokensSpec | tz.py:34 | Every kept token is longer than one character and has a non-whitespace character. Each token passing the condition is kept as often as the segmenter produced it; every other token is dropped. |
| Tokens.KeptTokensAppend | tz.py:34 | The kept tokens of a concatenation are the kept tokens of each part, in order. Filtering keeps the segmenter's order. |
| Tokens.KeptTokensAll | tz.py:34 | A segmenter output whose every token passes is kept unchanged. |
| Frequency.Tally | tz.py:35 | `Counter(words)`, counting from the first word to the last. Its contract is stated by `Frequency.TallySpec`, `Frequency.TallySize` and `Frequency.CounterAsMap`. |
| Frequency.TallySpec | tz.py:35 | The counter has unique keys, and they are exactly the kept tokens. Each count is the token's number of occurrences, so at least one. The counts sum to the number of tokens. |
| Frequency.Bump | tz.py:35 | Counting one more word: the table grows by one row exactly when the word is new. `Frequency.TallySpec` states what the counts then are. |
| Frequency.ToMap | tz.py:100 | A table read as a dictionary, later rows winning. Its keys are exactly the table's words; `Ranking.WeightMapSpec` states the values. |
| Frequency.TallySize | tz.py:38 | The table has one row per distinct token. |
| Frequency.CounterAsMap | tz.py:35 | Read as a dictionary, the counter maps exactly the kept tokens, each to its number of occurrences. |
| Ranking.IsCountSort | tz.py:42 | What `sort_values(by='频次', ascending=False)` promises: a permutation of the table whose counts do not increase, in any order among equal counts. `Ranking.TopFacts` and `Ranking.CountColumnUnique` are proved for every such sort, and `Ranking.SortByCount` shows one exists. |
| Ranking.SortByCount | tz.py:42 | The insertion sort's result is a permutation of the table with non-increasing counts, so it is one sort `sort_values` may produce. |
| Ranking.PermutationDistinct | tz.py:42 | Rearranging a table with unique words gives a table with unique words. |
| Ranking.Head | tz.py:45 | `head(20)`: the first min(n, 20) rows of the sorted table, in order. |
| Ranking.WithRanks | tz.py:48 | The rank column: the entry at position i has rank i + 1 and keeps its row's word and count. |
| Ranking.RankTop | tz.py:45-48 | The top table built from the sorted table. Its contract is stated by `Ranking.TopFacts`. |
| Ranking.TopFacts | tz.py:42-48 | For any count-descending permutation of a counter table: the ranked top table is valid (ranks 1, 2, 3 … without gaps, non-increasing counts, unique words, counts at least 1, at most 20 entries). It has min(20, n) entries, and entry i is row i of the sorted table. Every entry is a row of the counter table. No unlisted word has a higher count than a listed one. |
| Ranking.CountColumnUnique | tz.py:42-45 | Two count-descending permutations of the same table have the same count column, and so do their top tables. The unspecified tie order never changes the counts shown. |
| Ranking.WeightMap | tz.py:100 | `df_top20.set_index('词语')['频次'].to_dict()`. Its contract is stated by `Ranking.WeightMapSpec`. |
| Ranking.WeightMapSpec | tz.py:100 | The word-cloud weights hold exactly the words of the top table, each mapped to its count. |
| Ranking.MaxOf | tz.py:51 | `max()` of a non-empty column is an element of it and at least every element. |
| Ranking.TickInterval | tz.py:51 | The interval is at least 1. It is 1 for a top count below 20. From a top count of 10 upward it is `maxFreq // 10`: ten times it is at most the top count, and ten times one more is above it. |
| Ranking.PyRange | tz.py:78 | `range(start, stop, step)` for a positive step: element k is `start + k*step` and is below `stop`. The next step would reach `stop`. |
| Ranking.TickCountBound | tz.py:51 | With that interval, no more than twenty multiples of it, counting from 0, fit below the top count. |
| Ranking.TickValues | tz.py:78 | `list(range(0, maxFreq + 1, interval))`. Its contract is stated by `Ranking.PyRange` and, for the interval of tz.py:51, by `Ranking.TicksSpec`. |
| Ranking.TicksSpec | tz.py:78 | The tick list is non-empty and starts at 0. Tick k is k times the interval, and every tick is at most the top count. One more tick would pass the top count. There are at most twenty ticks. |
| Chart.Label | tz.py:54 | The seven option texts of the radio. `Chart.ParseLabel` and `Chart.ParseKind` state that they select the seven branches one to one. |
| Chart.TraceOf | tz.py:56-70 | The trace each branch's plotly express call describes. Its contract is stated by `Chart.ChartSpecFor`. |
| Chart.ParseKind | tz.py:56-70 | The selected branch's label equals the selector. No branch is taken only when no label equals it. |
| Chart.ParseLabel | tz.py:54 | Each radio option selects its own kind. |
| Chart.ChartSpecFor | tz.py:56-82 | Every kind's figure holds the table, the title prefix and its label. Bar, line, scatter and area map word to x and count to y, with the bar, line, scatter and area mark respectively. Pie and donut map word to names and count to values, and only donut has hole 0.3. Radar has r = count, theta = word and a closed line. Every kind but radar has font SimHei 12, the given tick values and tick angle 45; radar has none of the three. |
| Chart.KindsDistinct | tz.py:56-70 | Two different kinds never give the same figure. |
| Chart.Figure.constructor | tz.py:56-70 | A plotly express call gives a figure with its trace, title and data and no layout settings. |
| Chart.Figure.UpdateLayout | tz.py:74 | Sets the font; nothing else in the figure changes. |
| Chart.Figure.UpdateYAxes | tz.py:78 | Sets the y tick values; nothing else in the figure changes. |
| Chart.Figure.UpdateXAxes | tz.py:82 | Sets the x tick angle; nothing else in the figure changes. |
| Chart.PlotChart | tz.py:56-82 | The in-place figure code raises the unbound-figure error exactly when the selector matches no branch. Otherwise it yields a new figure equal to `ChartSpecFor` of the selected kind, with the ticks `range(0, max + 1, interval)`. |

## Left out

- Streamlit widgets and display are not modelled: the text input, the radio
  widget, `plotly_chart`, `subheader`, `table` and `image` (tz.py:13, 54,
  85-92, 102-103). The radio's value is the parameter `choice`, and what is
  displayed is the abstract `Screen`. The choice of `use_container_width` at
  tz.py:85-88 is not modelled either.
- `requests.get`, encoding detection and BeautifulSoup's `get_text`
  (tz.py:21-27) are network I/O and a foreign parser. Their combined outcome
  is the input `Response`: the extracted text, a missing-schema error, or
  another request failure with its message.
- jieba's segmentation (tz.py:34) is a foreign statistical segmenter. It is
  the parameter `segment`, an arbitrary function from text to tokens.
- Unicode `\w` (tz.py:30) depends on Unicode tables. It is the parameter
  `isWord`.
- Plotly rendering, WordCloud layout, canvas size, font file and bitmap
  (tz.py:95-103) are foreign rendering code. The model keeps only the
  declarative figure and the weight map.
- The commented-out matplotlib block (tz.py:104-113) is dead code.
- The stderr warning pandas may print when the rank column is added to a
  slice (tz.py:48) is not modelled. It does not change the values.
- Exceptions other than the two crashes above are not modelled, for example
  one raised inside the segmenter.
- Ranking.SortByCount: fixes one order among equal counts (table order). No
  property of the model depends on that order.
- Ranking.MaxOf: requires a non-empty column, because Python's `max` raises
  on an empty one. `App.Present` models that raise as `Crashed(EmptyMax)`.
- Chart.PlotChart: requires a non-empty table and a positive interval. The
  script only reaches the chart code after tz.py:51 has succeeded, and that
  guarantees both.
- Ranking.WeightMap: the weights are an unordered map, so the insertion
  order of the Python `dict` (the ranked table's row order) is dropped.
  `generate_from_frequencies` sorts the items by weight with a stable sort,
  so that order decides where words of equal weight are placed. It affects
  only the layout, which is not modelled.
