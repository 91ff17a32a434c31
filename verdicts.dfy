/**
 * The classifier's parsed reply and the normalisation of its debugging-id list
 * (chat_analyzer.py lines 102-113 and 119).
 */
module Verdicts {
  import opened Wrappers

  /** A key of the parsed JSON object: missing, present as `null`, or present with a value.
      `analysis.get(key, default)` yields the default only for a missing key. */
  datatype Field<+T> = Absent | Null | Value(v: T)

  /** One item of "debugging_message_ids": a string, an object (with or without an "id"
      key), or any other JSON value. */
  datatype IdItem = Str(s: string) | Obj(id: Option<string>) | Other

  /** One entry of "chunk_summary", copied to the summary log unchanged. */
  datatype LogEntry = LogEntry(id: string, summary: string)

  /** The keys of the parsed reply that the analysis reads. The reply's "is_debugging" key is
      never read, so it is not part of the model. */
  datatype Verdict = Verdict(
    debuggingSummary: Field<string>,
    debuggingIds: Field<seq<IdItem>>,
    chunkSummary: Field<seq<LogEntry>>)

  const FallbackSummary: string := "A debugging session occurred."

  /** The content of the summary marker (line 119): the fallback text only when the key is
      missing; `None` stands for a JSON null. */
  function MarkerText(v: Verdict): (t: Option<string>)
    ensures v.debuggingSummary.Absent? ==> t == Some(FallbackSummary)
    ensures v.debuggingSummary.Null? ==> t == None
    ensures v.debuggingSummary.Value? ==> t == Some(v.debuggingSummary.v)
  {
    match v.debuggingSummary
    case Absent => Some(FallbackSummary)
    case Null => None
    case Value(s) => Some(s)
  }

  /** The raw id list (line 105); a missing key and a JSON null both leave nothing to
      iterate over (`if raw_debugging_ids:` is false for null and for []). */
  function RawIds(v: Verdict): (items: seq<IdItem>)
    ensures v.debuggingIds.Value? ==> items == v.debuggingIds.v
    ensures v.debuggingIds.Absent? || v.debuggingIds.Null? ==> items == []
  {
    match v.debuggingIds
    case Value(items) => items
    case _ => []
  }

  /** The id an item contributes, if any (lines 109-112). */
  function ItemId(item: IdItem): Option<string> {
    match item
    case Str(s) => Some(s)
    case Obj(Some(s)) => Some(s)
    case _ => None
  }

  /** `processed_debugging_ids` after the loop at lines 108-112. */
  function IdList(items: seq<IdItem>): (ids: seq<string>)
    ensures |ids| <= |items|
  {
    if items == [] then []
    else
      var last := items[|items| - 1];
      IdList(items[..|items| - 1]) + (if ItemId(last).Some? then [ItemId(last).value] else [])
  }

  /** `set(processed_debugging_ids)` (line 113). */
  function NormalisedIds(items: seq<IdItem>): (ids: set<string>)
    ensures |ids| <= |items|
  {
    DistinctBound(IdList(items));
    set s | s in IdList(items)
  }

  /** A list has no more distinct elements than entries. */
  lemma {:induction false} DistinctBound(l: seq<string>)
    ensures |set s | s in l| <= |l|
  {
    if l != [] {
      var init := l[..|l| - 1];
      DistinctBound(init);
      assert (set s | s in l) == (set s | s in init) + {l[|l| - 1]} by {
        assert l == init + [l[|l| - 1]];
      }
    }
  }

  /** Lines 105-113 as the loop the source runs: build the id list, then make it a set. */
  method NormaliseIds(items: seq<IdItem>) returns (ids: set<string>)
    ensures ids == NormalisedIds(items)
  {
    var processed: seq<string> := [];
    var j := 0;
    while j < |items|
      invariant 0 <= j <= |items|
      invariant processed == IdList(items[..j])
    {
      var item := items[j];
      assert items[..j + 1][..j] == items[..j];
      match item {
        case Obj(Some(s)) => processed := processed + [s];
        case Str(s) => processed := processed + [s];
        case _ =>
      }
      j := j + 1;
    }
    assert items[..|items|] == items;
    ids := set s | s in processed;
  }

  /** The normalised ids are exactly the string items and the "id" values of objects that
      have one; every other item is dropped. */
  lemma {:induction false} NormalisedIdsMembership(items: seq<IdItem>, s: string)
    ensures s in NormalisedIds(items) <==> (Str(s) in items || Obj(Some(s)) in items)
  {
    if items != [] {
      var init, last := items[..|items| - 1], items[|items| - 1];
      assert items == init + [last];
      NormalisedIdsMembership(init, s);
      assert s in IdList(items) <==> s in IdList(init) || ItemId(last) == Some(s);
    }
  }
}
