/**
 * The history list (src/components/HistorySidebar.jsx): nothing for a
 * missing or empty history, otherwise one entry per item, in order, keyed by
 * position, headed by the item's model and summarised by its prompt.
 */
module HistorySidebar {
  import opened Wrappers
  import ResultDisplay

  /** A saved item: the target model and its stored result. */
  datatype HistoryItem = HistoryItem(model: string, result: ResultDisplay.StoredResult)

  /**
   * One rendered entry: its React key, heading and summary line, and the
   * item its click handler passes to `onSelect`.
   */
  datatype Entry = Entry(key: nat, heading: string, summary: string, selects: HistoryItem)

  /** The summary line: the result when it is a string, its `prompt` otherwise. */
  function Summary(result: ResultDisplay.StoredResult): (s: string)
    ensures s == ResultDisplay.PromptText(result)
  {
    if result.Legacy? then result.text else result.prompt
  }

  /** `history.map((item, index) => ...)` for one item. */
  function EntryFor(index: nat, item: HistoryItem): Entry {
    Entry(index, item.model, Summary(item.result), item)
  }

  /**
   * The sidebar's contents: `None` when `history` is missing or empty (the
   * component renders nothing), otherwise the entries.
   */
  function Entries(history: Option<seq<HistoryItem>>): (r: Option<seq<Entry>>)
    ensures r.None? <==> history.None? || |history.value| == 0
    ensures r.Some? ==> |r.value| == |history.value|
    ensures r.Some? ==> forall i :: 0 <= i < |r.value| ==>
      && r.value[i].key == i
      && r.value[i].heading == history.value[i].model
      && r.value[i].summary == ResultDisplay.PromptText(history.value[i].result)
      && r.value[i].selects == history.value[i]
  {
    if history.None? || |history.value| == 0 then None
    else
      var h := history.value;
      Some(seq(|h|, i requires 0 <= i < |h| => EntryFor(i, h[i])))
  }

  /** Entry keys are distinct, and clicking an entry selects the item at its key. */
  lemma EntryKeysIdentifyItems(history: seq<HistoryItem>, i: nat, j: nat)
    requires |history| > 0
    requires i < |history| && j < |history|
    ensures var es := Entries(Some(history)).value;
      (es[i].key == es[j].key <==> i == j) && es[i].selects == history[es[i].key]
  {
  }
}
