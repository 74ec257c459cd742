# PromQL completion-item provider

A Dafny model of the completion-item provider the Prometheus query field hands to
the Monaco editor (`getMonacoCompletionItemProvider` in `setupPromQL.ts`), with
proofs of what it promises. When Monaco asks for completions, `provideCompletionItems`
takes the text model and the cursor and goes through these steps:

- it picks the replacement range: the word under the cursor on the cursor line, or an
  empty range at the cursor when there is no word;
- it hands a copy of the cursor to `getOffsetAt`, then passes the whole text and that
  offset to the intent resolver;
- with no intent it answers with an empty list, and the completion generator is not
  asked. With an intent it maps each generated candidate to a Monaco suggestion. The
  suggestion has kind Text and the shared range. It keeps the candidate's label and insert
  text. It has the `editor.action.triggerSuggest` command exactly when the candidate sets
  `triggerOnInsert`. Its sort key is the zero-padded decimal index;
- the sort keys keep Monaco's alphabetical sort from reordering the list. Each key is
  padded to the digit count of the list's length.

The model has two modules:

- `SortKeys` (SortKeys.dfy) covers the string side of the sort keys. It models
  `toString` on non-negative integers (`DigitsOf`), `padStart` with a one-character
  fill (`PadStart`), reading a digit string back as a number (`ParseDecimal`) and
  lexicographic string order (`LexLess`). `LexLess` compares characters by code point,
  which agrees with JavaScript's `<` on the digit strings it is used for. It proves that a key of a list of N items
  is exactly as wide as N's digit count. It proves that the key reads back as its index,
  and that key order equals index order in both directions.
- `SetupPromQL` (SetupPromQL.dfy) is the adapter. The collaborators are parameters: the
  text model's `getWordAtPosition` and `getOffsetAt` (as fields of `TextModel`), the
  intent resolver and the completion generator with its data provider. The generator's
  promise is the candidate list it resolves to. `getOffsetAt` returns the offset together
  with the position as it leaves the call. That lets the model say that Monaco's
  "adjustment" of the copy cannot reach the result.

Monaco's `label` field is named `displayLabel` in the model, because `label` is a
reserved word in Dafny.

The width of the sort keys follows the code: it is the digit count of the list's length
N (`items.length.toString().length`). It is not the digit count of the last index N-1,
and it is not ceil(log10 N). `SortKeyExamples` pins down the code's
behaviour: one item gets "0", ten items get "00" to "09".

## Model

| member | source | states |
|---|---|---|
| SortKeys.DigitsOf | public/app/plugins/datasource/prometheus/components/monaco-query-field/setupPromQL.ts:40 | `n.toString()` is a nonempty string of decimal digits with no leading zero unless n is 0 |
| SortKeys.PadStart | public/app/plugins/datasource/prometheus/components/monaco-query-field/setupPromQL.ts:45 | `padStart` returns a string of length max(width, \|s\|) that ends with s and has only fill characters before it; it never truncates |
| SortKeys.ParseDigitsOf | public/app/plugins/datasource/prometheus/components/monaco-query-field/setupPromQL.ts:45 | reading `n.toString()` back as a decimal number gives n |
| SortKeys.DigitsOfLengthBounds | public/app/plugins/datasource/prometheus/components/monaco-query-field/setupPromQL.ts:40 | the length of `n.toString()` is n's digit count: n < 10^len and, for n > 0, 10^(len-1) <= n |
| SortKeys.DigitsOfMonotone | public/app/plugins/datasource/prometheus/components/monaco-query-field/setupPromQL.ts:40-45 | a smaller index never has more digits than the list length, so padding never meets a longer index |
| SortKeys.ParseLeadingZeros | public/app/plugins/datasource/prometheus/components/monaco-query-field/setupPromQL.ts:45 | zeros added on the left of a digit string keep it a digit string with the same value |
| SortKeys.PadStartZerosValue | public/app/plugins/datasource/prometheus/components/monaco-query-field/setupPromQL.ts:45 | padding a digit string with '0' keeps its value |
| SortKeys.LexLessIffValueLess | public/app/plugins/datasource/prometheus/components/monaco-query-field/setupPromQL.ts:37-39 | for digit strings of equal length, string order (`LexLess`) holds exactly when the denoted numbers compare with `<` |
| SortKeys.LexLess | public/app/plugins/datasource/prometheus/components/monaco-query-field/setupPromQL.ts:37-39 | the order Monaco sorts sort keys by: lexicographic, irreflexive, with a proper prefix sorting before every longer string |
| SortKeys.SortKey | public/app/plugins/datasource/prometheus/components/monaco-query-field/setupPromQL.ts:40-45 | the key of an index ends with the index's own digits, has only zeros before them, and is as long as the longer of the index's and the list length's digit strings |
| SortKeys.SortKeyWidth | public/app/plugins/datasource/prometheus/components/monaco-query-field/setupPromQL.ts:40-45 | for index < N, the key has exactly as many characters as N has digits |
| SortKeys.SortKeyValue | public/app/plugins/datasource/prometheus/components/monaco-query-field/setupPromQL.ts:45 | every key is a digit string that reads back as its index |
| SortKeys.SortKeyOrder | public/app/plugins/datasource/prometheus/components/monaco-query-field/setupPromQL.ts:37-45 | for indices i, j < N, key(i) < key(j) as strings exactly when i < j |
| SortKeys.SortKeyInjective | public/app/plugins/datasource/prometheus/components/monaco-query-field/setupPromQL.ts:45 | distinct indices of one list get distinct keys |
| SetupPromQL.CompletionRange | public/app/plugins/datasource/prometheus/components/monaco-query-field/setupPromQL.ts:17-26 | the range lies on the cursor line; with a word it spans the word's columns, with none it is empty at the cursor column |
| SetupPromQL.CursorOffset | public/app/plugins/datasource/prometheus/components/monaco-query-field/setupPromQL.ts:29-33 | the offset handed to the intent resolver is `getOffsetAt` of the cursor's copy, which equals the offset of the cursor itself |
| SetupPromQL.Candidates | public/app/plugins/datasource/prometheus/components/monaco-query-field/setupPromQL.ts:35 | with no intent the candidate list is empty; with an intent it is the generator's answer for that intent and the data provider |
| SetupPromQL.ToCompletionItem | public/app/plugins/datasource/prometheus/components/monaco-query-field/setupPromQL.ts:42-52 | one suggestion keeps its candidate's label and insert text, has kind Text and the given range, has the triggerSuggest command exactly when `triggerOnInsert` is set, and has a digit key that reads back as its index and, for an index of the list, is as wide as the length's digit count |
| SetupPromQL.ProvideCompletionItems | public/app/plugins/datasource/prometheus/components/monaco-query-field/setupPromQL.ts:13-56 | the intent is resolved from the whole text at the cursor's offset; the result has one suggestion per candidate for that intent (none without one), with that candidate's label and insert text and the range chosen from the cursor and the word under it |
| SetupPromQL.ClonePosition | public/app/plugins/datasource/prometheus/components/monaco-query-field/setupPromQL.ts:29-32 | the copy handed to `getOffsetAt` has the cursor's line and column |
| SetupPromQL.ToSuggestions | public/app/plugins/datasource/prometheus/components/monaco-query-field/setupPromQL.ts:41-53 | one suggestion per candidate, in order, with its label and insert text unchanged, kind Text, the shared range, and the triggerSuggest command (empty title) exactly when `triggerOnInsert` is set |
| SetupPromQL.ToSuggestionsSortTexts | public/app/plugins/datasource/prometheus/components/monaco-query-field/setupPromQL.ts:37-45 | the keys of a mapped list all have the digit count of its length, read back as their indices and order as the indices do |
| SetupPromQL.NullIntentShortCircuit | public/app/plugins/datasource/prometheus/components/monaco-query-field/setupPromQL.ts:34-35 | with a null intent the suggestions are empty, and the result is the same for any generator, so the generator's answer is never used |
| SetupPromQL.SuggestionsFollowCandidates | public/app/plugins/datasource/prometheus/components/monaco-query-field/setupPromQL.ts:35-54 | with an intent the result maps exactly the generator's candidates for that intent and data provider, one for one and in order |
| SetupPromQL.SuggestionRange | public/app/plugins/datasource/prometheus/components/monaco-query-field/setupPromQL.ts:17-26 | every suggestion of a result carries the range chosen from the cursor and the word under it |
| SetupPromQL.OffsetAdjustmentDoesNotLeak | public/app/plugins/datasource/prometheus/components/monaco-query-field/setupPromQL.ts:27-34 | the result depends only on the text, the word at the cursor and the offset of the cursor, not on how `getOffsetAt` adjusts the copy it is given |
| SetupPromQL.SortTextsKeepOrder | public/app/plugins/datasource/prometheus/components/monaco-query-field/setupPromQL.ts:36-46 | the keys of a full result are equally wide, read back as their indices and order as the indices do |
| SetupPromQL.SortingBySortTextIsIdentity | public/app/plugins/datasource/prometheus/components/monaco-query-field/setupPromQL.ts:37-39 | any permutation that puts a result in sort-key order is the identity, so sorting by key gives back the generator's order |
| SetupPromQL.TriggerCharacters | public/app/plugins/datasource/prometheus/components/monaco-query-field/setupPromQL.ts:59 | the provider triggers on exactly '{', ',', '[', '(' and '=', each listed once |
| SetupPromQL.SortKeyExamples | public/app/plugins/datasource/prometheus/components/monaco-query-field/setupPromQL.ts:40-45 | one item gets "0"; ten items get "00" to "09"; eleven get "00" to "10" |
| SetupPromQL.LabelNameExample | public/app/plugins/datasource/prometheus/components/monaco-query-field/setupPromQL.ts:34-54 | for a label-name intent answered with "job" then "instance", the suggestions keep that order with keys "0" and "1", no command, and the empty range at the cursor |

## Left out

- `setupPromQL` (lines 64-75): the language registration, the asynchronous grammar
  loading, `setMonarchTokensProvider`, `setLanguageConfiguration` and
  `registerCompletionItemProvider`. These are side effects on the Monaco host with nothing
  to compute. The note about never unregistering is a lifecycle question.
- The intent resolver (`./intent`), the completion generator and `DataProvider`
  (`./completions`) are not part of this model. They are function parameters.
- Monaco's `getWordAtPosition`, `getOffsetAt` (and its adjustment of its argument),
  `Range.lift` and `Range.fromPositions` appear only through their inputs and results.
- CompletionRange: `Range.lift` swaps the ends of a reversed range. A word reported by
  `getWordAtPosition` has startColumn <= endColumn, so this normalisation is not modelled
  and the word's columns are kept as given.
- Promises: the generator's answer is modelled as the list it resolves to. Rejection,
  asynchrony and stale responses are not modelled.
- Monaco's `CompletionItemKind` is reduced to a handful of constructors, since the
  adapter only ever uses `Text`. The other fields Monaco allows on a suggestion are not
  modelled.
