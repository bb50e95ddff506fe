/**
 * services/openai_service.py: the structured analysis that comes back
 * from the language model is normalised against a fixed default shape,
 * and the chat reply is trimmed. The model call itself is a collaborator:
 * whether a client could be built, whether the call succeeded, the text it
 * returned and what `json.loads` made of that text are parameters.
 */
module Analysis {
  import opened Wrappers
  import opened PyText
  import opened Values
  import opened Seqs

  /** A field of the analysis: the summary is text, every other field a list of lines. */
  datatype Field = TextField(text: string) | ListField(items: seq<string>)

  /** One key of the analysis dict, in the order of `DEFAULT_ANALYSIS`. */
  datatype AnalysisEntry = AnalysisEntry(key: string, field: Field)

  type AnalysisResult = seq<AnalysisEntry>

  /** `DEFAULT_ANALYSIS`: an empty summary and seven empty lists. */
  const DefaultAnalysis: AnalysisResult := [
    AnalysisEntry("business_summary", TextField("")),
    AnalysisEntry("priority_processes", ListField([])),
    AnalysisEntry("ai_opportunities", ListField([])),
    AnalysisEntry("quick_wins", ListField([])),
    AnalysisEntry("long_term", ListField([])),
    AnalysisEntry("next_steps", ListField([])),
    AnalysisEntry("recommended_tools", ListField([])),
    AnalysisEntry("gpt_prompts", ListField([]))
  ]

  /** An analysis has the default shape: the same keys, in the same order, with the same kinds of field. */
  predicate DefaultShape(r: AnalysisResult) {
    |r| == |DefaultAnalysis| &&
    forall i :: 0 <= i < |r| ==>
      r[i].key == DefaultAnalysis[i].key && (r[i].field.TextField? <==> DefaultAnalysis[i].field.TextField?)
  }

  /** The Python object a field holds. */
  function FieldValue(f: Field): Value {
    match f
    case TextField(text) => VStr(text)
    case ListField(items) => VList(seq(|items|, i requires 0 <= i < |items| => VStr(items[i])))
  }

  /** `[str(item) for item in items if item is not None]`. */
  function StrItems(items: seq<Value>): (r: seq<string>)
    ensures |r| <= |items|
  {
    if items == [] then []
    else (if items[0].VNone? then [] else [PyStr(items[0])]) + StrItems(items[1..])
  }

  /** The items of a concatenation are those of each part. */
  lemma {:induction false} StrItemsAppend(a: seq<Value>, b: seq<Value>)
    ensures StrItems(a + b) == StrItems(a) + StrItems(b)
  {
    if a != [] {
      assert (a + b)[1..] == a[1..] + b;
      StrItemsAppend(a[1..], b);
    } else {
      assert a + b == b;
    }
  }

  /** A `None` item contributes nothing: taking it out of the list leaves the result as it was. */
  lemma StrItemsSkipsNone(items: seq<Value>, i: nat)
    requires i < |items| && items[i].VNone?
    ensures StrItems(items) == StrItems(items[..i] + items[i + 1..])
  {
    assert items == items[..i] + [items[i]] + items[i + 1..];
    StrItemsAppend(items[..i] + [items[i]], items[i + 1..]);
    StrItemsAppend(items[..i], [items[i]]);
    StrItemsAppend(items[..i], items[i + 1..]);
  }

  /** Without `None` items, every item is kept, rendered with `str()`, in order. */
  lemma {:induction false} StrItemsWithoutNone(items: seq<Value>)
    requires forall i :: 0 <= i < |items| ==> !items[i].VNone?
    ensures |StrItems(items)| == |items|
    ensures forall i :: 0 <= i < |items| ==> StrItems(items)[i] == PyStr(items[i])
  {
    if items != [] {
      StrItemsWithoutNone(items[1..]);
    }
  }

  /** `_ensure_list_of_strings`: a list keeps its non-`None` items, a non-empty string becomes a one-line list. */
  function EnsureListOfStrings(v: Value): (r: seq<string>)
    ensures v.VList? ==> |r| <= |v.items|
    ensures v.VStr? ==> r == (if v.s == "" then [] else [v.s])
    ensures !v.VList? && !v.VStr? ==> r == []
  {
    match v
    case VList(items) => StrItems(items)
    case VStr(s) => if s != "" then [s] else []
    case _ => []
  }

  /**
   * One step of `_merge_with_default`: the parsed value of the key, or the
   * default when the key is absent, coerced to the kind of the default.
   */
  function MergedField(entry: AnalysisEntry, parsed: Dict): (r: AnalysisEntry)
    ensures r.key == entry.key
    ensures r.field.TextField? <==> entry.field.TextField?
    ensures entry.field.TextField? && DictGet(parsed, entry.key) == Some(VNone) ==> r.field == TextField("")
    ensures entry.field.TextField? && DictGet(parsed, entry.key).Some? && !DictGet(parsed, entry.key).value.VNone? ==>
      r.field == TextField(PyStr(DictGet(parsed, entry.key).value))
    ensures entry.field.ListField? && DictGet(parsed, entry.key).Some? ==>
      r.field == ListField(EnsureListOfStrings(DictGet(parsed, entry.key).value))
    ensures DictGet(parsed, entry.key).None? ==> r == entry
  {
    var value := DictGet(parsed, entry.key).GetOr(FieldValue(entry.field));
    match entry.field
    case ListField(items) =>
      DefaultItemsKept(items);
      AnalysisEntry(entry.key, ListField(EnsureListOfStrings(value)))
    case TextField(_) => AnalysisEntry(entry.key, TextField(if value.VNone? then "" else PyStr(value)))
  }

  /** The default list of a field, read back as Python values, gives the same lines. */
  lemma DefaultItemsKept(items: seq<string>)
    ensures EnsureListOfStrings(FieldValue(ListField(items))) == items
  {
    var values := seq(|items|, k requires 0 <= k < |items| => VStr(items[k]));
    StrItemsWithoutNone(values);
  }

  /** `_merge_with_default`: walks the default keys in order and replaces each value in place. */
  method MergeWithDefault(parsed: Dict) returns (result: AnalysisResult)
    ensures DefaultShape(result)
    ensures forall i :: 0 <= i < |result| ==> result[i] == MergedField(DefaultAnalysis[i], parsed)
  {
    result := DefaultAnalysis;
    var i := 0;
    while i < |result|
      invariant 0 <= i <= |result| == |DefaultAnalysis|
      invariant forall j :: 0 <= j < i ==> result[j] == MergedField(DefaultAnalysis[j], parsed)
      invariant forall j :: i <= j < |result| ==> result[j] == DefaultAnalysis[j]
    {
      result := result[i := MergedField(result[i], parsed)];
      i := i + 1;
    }
  }

  /** A key the model left out keeps its default value. */
  lemma MissingKeyKeepsDefault(parsed: Dict, i: nat)
    requires i < |DefaultAnalysis|
    requires DictGet(parsed, DefaultAnalysis[i].key).None?
    ensures MergedField(DefaultAnalysis[i], parsed) == DefaultAnalysis[i]
  {
    if i > 0 {
      assert DefaultAnalysis[i].field == ListField([]);
      assert FieldValue(ListField([])) == VList([]);
    }
  }

  /** The dict an analysis is stored as. */
  function AsDict(r: AnalysisResult): (d: Dict)
    ensures |d| == |r|
    ensures forall i :: 0 <= i < |r| ==> d[i] == Pair(r[i].key, FieldValue(r[i].field))
  {
    seq(|r|, i requires 0 <= i < |r| => Pair(r[i].key, FieldValue(r[i].field)))
  }

  lemma DefaultKeysDistinct()
    ensures forall i, j :: 0 <= i < j < |DefaultAnalysis| ==> DefaultAnalysis[i].key != DefaultAnalysis[j].key
  {
  }

  /** Merging an analysis that already has the default shape gives it back unchanged. */
  lemma MergeOfMergedIsIdentity(r: AnalysisResult, i: nat)
    requires DefaultShape(r) && i < |r|
    ensures MergedField(DefaultAnalysis[i], AsDict(r)) == r[i]
  {
    DefaultKeysDistinct();
    var d := AsDict(r);
    assert FirstWith(d, PairKey, DefaultAnalysis[i].key) == i;
    match r[i].field
    case TextField(text) =>
    case ListField(items) =>
      DefaultItemsKept(items);
  }

  /**
   * `analyze_answers`: the default analysis when no client can be built,
   * the call fails, no text comes back or the text is not JSON; otherwise
   * the parsed object merged with the default. `None` stands for the
   * exception raised when the JSON is valid but not an object.
   */
  method AnalyzeAnswers(clientReady: bool, callSucceeded: bool, outputText: string, parsed: Option<Value>)
    returns (r: Option<AnalysisResult>)
    ensures (!clientReady || !callSucceeded || outputText == "" || parsed.None?) ==> r == Some(DefaultAnalysis)
    ensures clientReady && callSucceeded && outputText != "" && parsed.Some? ==>
      (r.Some? <==> parsed.value.VDict?)
    ensures r.Some? ==> DefaultShape(r.value)
    ensures r.Some? && parsed.Some? && parsed.value.VDict? && clientReady && callSucceeded && outputText != "" ==>
      forall i :: 0 <= i < |DefaultAnalysis| ==> r.value[i] == MergedField(DefaultAnalysis[i], parsed.value.entries)
  {
    if !clientReady || !callSucceeded || outputText == "" || parsed.None? {
      return Some(DefaultAnalysis);
    }
    if !parsed.value.VDict? {
      return None;
    }
    var merged := MergeWithDefault(parsed.value.entries);
    return Some(merged);
  }

  /**
   * `generate_chat_reply`: empty when no client can be built or the call
   * fails, otherwise the returned text without surrounding whitespace.
   */
  function GenerateChatReply(clientReady: bool, callSucceeded: bool, outputText: string): (r: string)
    ensures r == [] || (!IsSpace(r[0]) && !IsSpace(r[|r| - 1]))
    ensures r == [] <==> (!clientReady || !callSucceeded || forall k :: 0 <= k < |outputText| ==> IsSpace(outputText[k]))
  {
    if !clientReady || !callSucceeded then "" else Strip(outputText)
  }
}
