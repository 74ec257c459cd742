/** The completion-item provider that the PromQL query field registers with the
    Monaco editor. Given the text model and the cursor it picks the range to
    replace, asks the intent resolver what is being typed, asks the completion
    generator for candidates, and turns them into Monaco suggestions whose sort
    keys keep the generator's order.

    The collaborators are parameters: the text model's `getWordAtPosition` and
    `getOffsetAt`, the intent resolver `getIntent` and the generator
    `getCompletions` with its data provider. The generator's promise is modelled
    by the candidate list it resolves to.
 */
module SetupPromQL {
  import opened SortKeys

  datatype Option<T> = None | Some(value: T)

  /** A Monaco position: 1-based line and column. */
  datatype Position = Position(lineNumber: int, column: int)

  /** What `getWordAtPosition` reports: the word and its columns on the cursor line. */
  datatype WordAtPosition = WordAtPosition(word: string, startColumn: int, endColumn: int)

  datatype Range = Range(startLineNumber: int, startColumn: int, endLineNumber: int, endColumn: int)

  /** A selection of Monaco's completion item kinds; the adapter only ever uses Text. */
  datatype CompletionItemKind = Method | Function | Field | Variable | Keyword | Text | Snippet

  datatype Command = Command(id: string, title: string)

  /** One candidate from the completion generator. */
  datatype Candidate = Candidate(displayLabel: string, insertText: string, triggerOnInsert: bool)

  datatype CompletionItem = CompletionItem(
    kind: CompletionItemKind,
    displayLabel: string,
    insertText: string,
    sortText: string,
    range: Range,
    command: Option<Command>)

  datatype CompletionList = CompletionList(suggestions: seq<CompletionItem>)

  /** The text model as the adapter sees it. `getOffsetAt` gives the offset of a
      position together with the position as it leaves the call, since Monaco may
      "adjust" the object it is handed. */
  datatype TextModel = TextModel(
    value: string,
    getWordAtPosition: Position -> Option<WordAtPosition>,
    getOffsetAt: Position -> (nat, Position))

  /** Monaco's command that reopens the suggestion widget. */
  const TriggerSuggest: Command := Command("editor.action.triggerSuggest", "")


  // ---------------------------------------------------------------------------
  // The adapter
  // ---------------------------------------------------------------------------

  /** The range an accepted suggestion replaces: the word at the cursor, on the
      cursor line (`Range.lift`), or the empty range at the cursor
      (`Range.fromPositions`). */
  function CompletionRange(position: Position, word: Option<WordAtPosition>): (r: Range)
    ensures r.startLineNumber == position.lineNumber && r.endLineNumber == position.lineNumber
    ensures word.Some? ==> r.startColumn == word.value.startColumn && r.endColumn == word.value.endColumn
    ensures word.None? ==> r.startColumn == position.column && r.endColumn == position.column
  {
    match word
    case Some(w) => Range(position.lineNumber, w.startColumn, position.lineNumber, w.endColumn)
    case None => Range(position.lineNumber, position.column, position.lineNumber, position.column)
  }

  /** The copy of the cursor handed to `getOffsetAt`. */
  function ClonePosition(position: Position): (c: Position)
    ensures c.lineNumber == position.lineNumber && c.column == position.column
  {
    Position(position.lineNumber, position.column)
  }

  /** The suggestion for one candidate at `index` of a list of `count`, all sharing
      `range`: the candidate's label and insert text unchanged, kind Text, the
      re-trigger command exactly when the candidate asks for it, and a sort key
      that reads back as `index` and, for an index of the list, is as wide as the
      count's digit string. */
  function ToCompletionItem(item: Candidate, index: nat, count: nat, range: Range): (r: CompletionItem)
    ensures r.displayLabel == item.displayLabel && r.insertText == item.insertText
    ensures r.kind == Text && r.range == range
    ensures r.command.Some? <==> item.triggerOnInsert
    ensures r.command.Some? ==> r.command.value.id == "editor.action.triggerSuggest" && r.command.value.title == ""
    ensures AllDigits(r.sortText) && ParseDecimal(r.sortText) == index
    ensures index < count ==> |r.sortText| == |DigitsOf(count)|
  {
    var r := CompletionItem(
      Text,
      item.displayLabel,
      item.insertText,
      SortKey(index, count),
      range,
      if item.triggerOnInsert then Some(TriggerSuggest) else None);
    SortKeyValue(index, count);
    if index < count then SortKeyWidth(index, count); r else r
  }

  /** `items.map(...)`: one suggestion per candidate, in the generator's order.
      Suggestion i carries candidate i's label and insert text unchanged, kind Text
      and the shared range, and the re-trigger command exactly when candidate i
      asks for it. */
  function ToSuggestions(items: seq<Candidate>, range: Range): (r: seq<CompletionItem>)
    ensures |r| == |items|
    ensures forall i :: 0 <= i < |r| ==>
      r[i].displayLabel == items[i].displayLabel && r[i].insertText == items[i].insertText &&
      r[i].kind == Text && r[i].range == range
    ensures forall i :: 0 <= i < |r| ==>
      (r[i].command.Some? <==> items[i].triggerOnInsert) &&
      (r[i].command.Some? ==> r[i].command.value.id == "editor.action.triggerSuggest" && r[i].command.value.title == "")
  {
    seq(|items|, i requires 0 <= i < |items| => ToCompletionItem(items[i], i, |items|, range))
  }

  /** The sort keys of a mapped list: all as wide as the digit count of the list's
      length, each reading back as its index, and ordered as the indices are. */
  lemma ToSuggestionsSortTexts(items: seq<Candidate>, range: Range)
    ensures var r := ToSuggestions(items, range);
      |r| == |items| &&
      (forall i :: 0 <= i < |r| ==>
        |r[i].sortText| == |DigitsOf(|items|)| && AllDigits(r[i].sortText) && ParseDecimal(r[i].sortText) == i) &&
      (forall i, j :: 0 <= i < |r| && 0 <= j < |r| ==> (LexLess(r[i].sortText, r[j].sortText) <==> i < j))
  {
    var r := ToSuggestions(items, range);
    assert forall i :: 0 <= i < |r| ==> r[i].sortText == SortKey(i, |items|);
    SortKeysOfList(|items|);
  }

  lemma SortKeysOfList(count: nat)
    ensures forall i :: 0 <= i < count ==>
      |SortKey(i, count)| == |DigitsOf(count)| && AllDigits(SortKey(i, count)) && ParseDecimal(SortKey(i, count)) == i
    ensures forall i, j :: 0 <= i < count && 0 <= j < count ==> (LexLess(SortKey(i, count), SortKey(j, count)) <==> i < j)
  {
    forall i | 0 <= i < count
      ensures |SortKey(i, count)| == |DigitsOf(count)| && AllDigits(SortKey(i, count)) && ParseDecimal(SortKey(i, count)) == i
    {
      SortKeyWidth(i, count);
      SortKeyValue(i, count);
    }
    forall i, j | 0 <= i < count && 0 <= j < count
      ensures LexLess(SortKey(i, count), SortKey(j, count)) <==> i < j
    {
      SortKeyOrder(i, j, count);
    }
  }

  /** The candidates the adapter maps: the generator's answer for the intent and
      the data provider, or none (`Promise.resolve([])`) when there is no intent. */
  function Candidates<I, D>(intent: Option<I>, getCompletions: (I, D) -> seq<Candidate>, dataProvider: D): (r: seq<Candidate>)
    ensures intent.None? ==> r == []
    ensures intent.Some? ==> r == getCompletions(intent.value, dataProvider)
  {
    match intent
    case Some(i) => getCompletions(i, dataProvider)
    case None => []
  }

  /** The offset the intent resolver is given: that of a copy of the cursor, which
      is the offset of the cursor itself. */
  function CursorOffset(model: TextModel, position: Position): (offset: nat)
    ensures offset == model.getOffsetAt(position).0
  {
    assert ClonePosition(position) == position;
    model.getOffsetAt(ClonePosition(position)).0
  }

  /** `provideCompletionItems`: the intent is read from the whole text at the
      cursor's offset; the list has one suggestion per candidate the generator gives
      for that intent (none without an intent), each with its candidate's label and
      insert text and the range chosen from the cursor and the word under it. */
  function ProvideCompletionItems<I, D>(
    model: TextModel,
    position: Position,
    getIntent: (string, nat) -> Option<I>,
    getCompletions: (I, D) -> seq<Candidate>,
    dataProvider: D): (r: CompletionList)
    ensures var items := Candidates(getIntent(model.value, model.getOffsetAt(position).0), getCompletions, dataProvider);
      |r.suggestions| == |items| &&
      forall i :: 0 <= i < |items| ==>
        r.suggestions[i].displayLabel == items[i].displayLabel &&
        r.suggestions[i].insertText == items[i].insertText &&
        r.suggestions[i].range == CompletionRange(position, model.getWordAtPosition(position))
  {
    var range := CompletionRange(position, model.getWordAtPosition(position));
    var offset := CursorOffset(model, position);
    var intent := getIntent(model.value, offset);
    var items := Candidates(intent, getCompletions, dataProvider);
    CompletionList(ToSuggestions(items, range))
  }

  // ---------------------------------------------------------------------------
  // Properties of the adapter
  // ---------------------------------------------------------------------------

  /** Without an intent the list is empty, and it is the same whatever the
      generator would have answered: the generator is not consulted. */
  lemma NullIntentShortCircuit<I, D>(
    model: TextModel, position: Position, getIntent: (string, nat) -> Option<I>,
    getCompletions: (I, D) -> seq<Candidate>, otherCompletions: (I, D) -> seq<Candidate>, dataProvider: D)
    requires getIntent(model.value, CursorOffset(model, position)).None?
    ensures ProvideCompletionItems(model, position, getIntent, getCompletions, dataProvider).suggestions == []
    ensures ProvideCompletionItems(model, position, getIntent, getCompletions, dataProvider)
         == ProvideCompletionItems(model, position, getIntent, otherCompletions, dataProvider)
  {
  }

  /** With an intent, the list has one suggestion per generated candidate, in
      order, each carrying its candidate's label and insert text, kind Text, the
      shared replacement range, and the re-trigger command exactly when the
      candidate asks for it. */
  lemma SuggestionsFollowCandidates<I, D>(
    model: TextModel, position: Position, getIntent: (string, nat) -> Option<I>,
    getCompletions: (I, D) -> seq<Candidate>, dataProvider: D)
    requires getIntent(model.value, CursorOffset(model, position)).Some?
    ensures var items := getCompletions(getIntent(model.value, CursorOffset(model, position)).value, dataProvider);
      var r := ProvideCompletionItems(model, position, getIntent, getCompletions, dataProvider).suggestions;
      var range := CompletionRange(position, model.getWordAtPosition(position));
      |r| == |items| &&
      (forall i :: 0 <= i < |r| ==>
        r[i].displayLabel == items[i].displayLabel && r[i].insertText == items[i].insertText &&
        r[i].kind == Text && r[i].range == range &&
        (r[i].command == if items[i].triggerOnInsert then Some(TriggerSuggest) else None))
  {
  }

  /** Every suggestion replaces the same range: the word under the cursor on the
      cursor line, or the empty range at the cursor when there is no word. */
  lemma SuggestionRange<I, D>(
    model: TextModel, position: Position, getIntent: (string, nat) -> Option<I>,
    getCompletions: (I, D) -> seq<Candidate>, dataProvider: D, i: nat)
    requires i < |ProvideCompletionItems(model, position, getIntent, getCompletions, dataProvider).suggestions|
    ensures var r := ProvideCompletionItems(model, position, getIntent, getCompletions, dataProvider).suggestions[i].range;
      var word := model.getWordAtPosition(position);
      r.startLineNumber == position.lineNumber && r.endLineNumber == position.lineNumber &&
      (word.Some? ==> r.startColumn == word.value.startColumn && r.endColumn == word.value.endColumn) &&
      (word.None? ==> r.startColumn == position.column && r.endColumn == position.column)
  {
  }

  /** The intent resolver reads the whole text at the offset of the cursor, and
      whatever `getOffsetAt` does to the copy it is handed has no effect on the
      result: two text models that agree on text, words and offsets, but "adjust"
      positions differently, give the same list. */
  lemma OffsetAdjustmentDoesNotLeak<I, D>(
    model: TextModel, other: TextModel, position: Position, getIntent: (string, nat) -> Option<I>,
    getCompletions: (I, D) -> seq<Candidate>, dataProvider: D)
    requires other.value == model.value
    requires other.getWordAtPosition(position) == model.getWordAtPosition(position)
    requires other.getOffsetAt(position).0 == model.getOffsetAt(position).0
    ensures ProvideCompletionItems(model, position, getIntent, getCompletions, dataProvider)
         == ProvideCompletionItems(other, position, getIntent, getCompletions, dataProvider)
  {
    assert ClonePosition(position) == position;
  }

  /** The sort keys of one list all have the width of the digit count of the
      list's length, read back as their indices, and order as the indices do. */
  lemma SortTextsKeepOrder<I, D>(
    model: TextModel, position: Position, getIntent: (string, nat) -> Option<I>,
    getCompletions: (I, D) -> seq<Candidate>, dataProvider: D)
    ensures var r := ProvideCompletionItems(model, position, getIntent, getCompletions, dataProvider).suggestions;
      (forall i :: 0 <= i < |r| ==>
        |r[i].sortText| == |DigitsOf(|r|)| && AllDigits(r[i].sortText) && ParseDecimal(r[i].sortText) == i) &&
      (forall i, j :: 0 <= i < |r| && 0 <= j < |r| ==> (LexLess(r[i].sortText, r[j].sortText) <==> i < j))
  {
    var intent := getIntent(model.value, CursorOffset(model, position));
    ToSuggestionsSortTexts(Candidates(intent, getCompletions, dataProvider),
      CompletionRange(position, model.getWordAtPosition(position)));
  }

  // ---------------------------------------------------------------------------
  // Sorting by sort key reproduces the generator's order
  // ---------------------------------------------------------------------------

  /** `p` lists every index below |p| exactly once. */
  predicate IsPermutation(p: seq<nat>) {
    (forall k :: 0 <= k < |p| ==> p[k] < |p|) &&
    (forall k, l :: 0 <= k < l < |p| ==> p[k] != p[l])
  }

  /** Reordering the suggestions by `p` leaves them in non-decreasing sort-key order. */
  predicate SortedBySortText(items: seq<CompletionItem>, p: seq<nat>)
    requires |p| == |items| && IsPermutation(p)
  {
    forall k, l :: 0 <= k < l < |p| ==> !LexLess(items[p[l]].sortText, items[p[k]].sortText)
  }

  lemma {:induction false} IncreasingUpperBound(p: seq<nat>, k: nat)
    requires forall m :: 0 <= m < |p| ==> p[m] < |p|
    requires forall m, n :: 0 <= m < n < |p| ==> p[m] < p[n]
    requires k < |p|
    ensures p[k] <= k
    decreases |p| - k
  {
    if k < |p| - 1 {
      IncreasingUpperBound(p, k + 1);
    }
  }

  lemma {:induction false} IncreasingLowerBound(p: seq<nat>, k: nat)
    requires forall m, n :: 0 <= m < n < |p| ==> p[m] < p[n]
    requires k < |p|
    ensures p[k] >= k
  {
    if k > 0 {
      IncreasingLowerBound(p, k - 1);
    }
  }

  /** Whatever sort the editor runs on the sort keys, the one order it can settle
      on is the generator's: a permutation that sorts the suggestions by sort key
      is the identity, so the sorted list is the list as returned. */
  lemma SortingBySortTextIsIdentity<I, D>(
    model: TextModel, position: Position, getIntent: (string, nat) -> Option<I>,
    getCompletions: (I, D) -> seq<Candidate>, dataProvider: D, p: seq<nat>)
    requires var r := ProvideCompletionItems(model, position, getIntent, getCompletions, dataProvider).suggestions;
      |p| == |r| && IsPermutation(p) && SortedBySortText(r, p)
    ensures forall k :: 0 <= k < |p| ==> p[k] == k
    ensures var r := ProvideCompletionItems(model, position, getIntent, getCompletions, dataProvider).suggestions;
      seq(|p|, k requires 0 <= k < |p| => r[p[k]]) == r
  {
    var r := ProvideCompletionItems(model, position, getIntent, getCompletions, dataProvider).suggestions;
    SortTextsKeepOrder(model, position, getIntent, getCompletions, dataProvider);
    forall k, l | 0 <= k < l < |p| ensures p[k] < p[l] {
      assert !LexLess(r[p[l]].sortText, r[p[k]].sortText);
      assert LexLess(r[p[l]].sortText, r[p[k]].sortText) <==> p[l] < p[k];
    }
    forall k | 0 <= k < |p| ensures p[k] == k {
      IncreasingUpperBound(p, k);
      IncreasingLowerBound(p, k);
    }
  }

  // ---------------------------------------------------------------------------
  // The provider object and worked examples
  // ---------------------------------------------------------------------------

  /** The characters whose typing makes Monaco ask for completions: exactly '{',
      ',', '[', '(' and '=', each listed once. */
  function TriggerCharacters(): (r: seq<char>)
    ensures (set c | c in r) == {'{', ',', '[', '(', '='}
    ensures |r| == 5
    ensures forall k, l :: 0 <= k < l < |r| ==> r[k] != r[l]
  {
    ['{', ',', '[', '(', '=']
  }

  /** The width is the digit count of the list's length, not of its last index:
      one item gets "0", ten items get "00" to "09", eleven get "00" to "10". */
  lemma SortKeyExamples()
    ensures SortKey(0, 1) == "0"
    ensures SortKey(0, 10) == "00" && SortKey(9, 10) == "09"
    ensures SortKey(0, 11) == "00" && SortKey(10, 11) == "10"
    ensures SortKey(0, 2) == "0" && SortKey(1, 2) == "1"
  {
    assert DigitsOf(0) == "0" && DigitsOf(1) == "1" && DigitsOf(2) == "2";
    assert DigitsOf(9) == "9" && DigitsOf(10) == "10" && DigitsOf(11) == "11";
    assert SortKey(0, 1) == "0";
    assert SortKey(0, 2) == "0" && SortKey(1, 2) == "1";
    assert SortKey(0, 10) == "00" && SortKey(9, 10) == "09";
    assert SortKey(0, 11) == "00";
  }

  /** The query `sum(rate(http_requests_total[5m])) by (` with the cursor after the
      final `(`: the resolver reports a label-name intent and the generator answers
      "job" then "instance"; the suggestions keep that order with keys "0" and "1". */
  lemma LabelNameExample<I, D>(
    model: TextModel, position: Position, getIntent: (string, nat) -> Option<I>,
    getCompletions: (I, D) -> seq<Candidate>, dataProvider: D, labelName: I)
    requires model.value == "sum(rate(http_requests_total[5m])) by ("
    requires model.getWordAtPosition(position).None?
    requires getIntent(model.value, CursorOffset(model, position)) == Some(labelName)
    requires getCompletions(labelName, dataProvider) ==
      [Candidate("job", "job", false), Candidate("instance", "instance", false)]
    ensures var r := ProvideCompletionItems(model, position, getIntent, getCompletions, dataProvider).suggestions;
      |r| == 2 &&
      r[0].displayLabel == "job" && r[0].sortText == "0" && r[0].command.None? &&
      r[1].displayLabel == "instance" && r[1].sortText == "1" && r[1].command.None? &&
      r[0].range == r[1].range == Range(position.lineNumber, position.column, position.lineNumber, position.column)
  {
    SortKeyExamples();
  }
}
