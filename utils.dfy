/**
 * The read-only helpers of bot/utils.py: catalog lookups, the rendering of a
 * stored answer, and the per-question projections handed to collaborators.
 * The helpers that change the session live in module Session.
 */
module Utils {
  import opened Wrappers
  import opened PyText
  import opened Questions
  import opened Markdown
  import opened Seqs

  /** One free-text value given for an option that asks for it. */
  datatype CustomEntry = CustomEntry(option: string, value: string)

  /**
   * A stored answer: a plain value, a list of values, or a multi-select
   * entry `{"selected": [keys], "custom": [{option, value}]}`.
   */
  datatype Answer =
    | Scalar(text: string)
    | Items(items: seq<string>)
    | Multi(selected: seq<string>, custom: seq<CustomEntry>)

  type Answers = map<string, Answer>

  /** `get_current_question`: the question under the cursor, when the cursor is inside the catalog. */
  function CurrentQuestion(questions: seq<Question>, index: int): (r: Option<Question>)
    ensures r.Some? <==> 0 <= index < |questions|
    ensures r.Some? ==> r.value == questions[index]
  {
    if 0 <= index < |questions| then Some(questions[index]) else None
  }

  function QuestionId(q: Question): string {
    q.id
  }

  function OptionKey(o: AnswerOption): string {
    o.key
  }

  /** The first catalog question with this id, if any. */
  function QuestionById(questions: seq<Question>, id: string): (r: Option<Question>)
    ensures r.None? <==> forall j :: 0 <= j < |questions| ==> questions[j].id != id
    ensures r.Some? ==> r.value.id == id && r.value in questions
  {
    var i := FirstWith(questions, QuestionId, id);
    if i < |questions| then Some(questions[i]) else None
  }

  /** `get_question_by_id`: scans the catalog and returns at the first match. */
  method GetQuestionById(questions: seq<Question>, id: string) returns (r: Option<Question>)
    ensures r == QuestionById(questions, id)
  {
    var i := 0;
    while i < |questions|
      invariant 0 <= i <= |questions|
      invariant forall j :: 0 <= j < i ==> questions[j].id != id
    {
      if questions[i].id == id {
        assert FirstWith(questions, QuestionId, id) == i;
        return Some(questions[i]);
      }
      i := i + 1;
    }
    return None;
  }

  /** With distinct ids, looking a catalog question up by its id finds that very question. */
  lemma LookupFindsCatalogQuestion(questions: seq<Question>, i: nat)
    requires DistinctIds(questions) && i < |questions|
    ensures QuestionById(questions, questions[i].id) == Some(questions[i])
  {
    var p := FirstWith(questions, QuestionId, questions[i].id);
    assert p <= i;
  }

  /** The first option of the question with this key, if any. */
  function OptionByKey(question: Question, key: string): (r: Option<AnswerOption>)
    ensures r.None? <==> forall j :: 0 <= j < |question.options| ==> question.options[j].key != key
    ensures r.Some? ==> r.value.key == key && r.value in question.options
  {
    var i := FirstWith(question.options, OptionKey, key);
    if i < |question.options| then Some(question.options[i]) else None
  }

  /** `find_option_by_key`: scans the options and returns at the first match. */
  method FindOptionByKey(question: Question, key: string) returns (r: Option<AnswerOption>)
    ensures r == OptionByKey(question, key)
  {
    if question.options == [] {
      return None;
    }
    var i := 0;
    while i < |question.options|
      invariant 0 <= i <= |question.options|
      invariant forall j :: 0 <= j < i ==> question.options[j].key != key
    {
      if question.options[i].key == key {
        assert FirstWith(question.options, OptionKey, key) == i;
        return Some(question.options[i]);
      }
      i := i + 1;
    }
    return None;
  }

  /** `get_selected_option_keys`: the `selected` list of a multi-select entry, else nothing. */
  function SelectedOptionKeys(answers: Answers, questionId: string): seq<string> {
    if questionId in answers && answers[questionId].Multi? then answers[questionId].selected else []
  }

  /** The label of the first skill option whose key is the stored one, or "". */
  function SkillLevelText(skillKey: string, options: seq<ButtonSpec>): (r: string)
    ensures (forall i :: 0 <= i < |options| ==> options[i].callbackData != skillKey) ==> r == ""
    ensures forall i ::
      (0 <= i < |options| && options[i].callbackData == skillKey &&
       forall j :: 0 <= j < i ==> options[j].callbackData != skillKey) ==> r == options[i].text
  {
    if options == [] then ""
    else if options[0].callbackData == skillKey then options[0].text
    else
      var r := SkillLevelText(skillKey, options[1..]);
      assert forall i :: 1 <= i < |options| ==> options[i] == options[1..][i - 1];
      r
  }

  /** `get_skill_level_text`: scans the skill options and returns at the first match. */
  method GetSkillLevelText(skillKey: string, options: seq<ButtonSpec>) returns (r: string)
    ensures r == SkillLevelText(skillKey, options)
  {
    var i := 0;
    while i < |options|
      invariant 0 <= i <= |options|
      invariant SkillLevelText(skillKey, options[i..]) == SkillLevelText(skillKey, options)
    {
      assert options[i..][1..] == options[i + 1..];
      if options[i].callbackData == skillKey {
        return options[i].text;
      }
      i := i + 1;
    }
    assert options[i..] == [];
    return "";
  }

  /** The text of the option with this key, as a list of zero or one lines. */
  function OptionTextLine(question: Question, key: string): seq<string> {
    match OptionByKey(question, key)
    case Some(option) => [option.text]
    case None => []
  }

  /** The option texts of the selected keys that the question knows, in selection order. */
  function SelectedTexts(question: Question, selected: seq<string>): (r: seq<string>)
    ensures |r| <= |selected|
    decreases |selected|
  {
    if selected == [] then []
    else SelectedTexts(question, selected[..|selected| - 1]) + OptionTextLine(question, selected[|selected| - 1])
  }

  /** When every selected key is an option of the question, each one yields its option's text, in order. */
  lemma {:induction false} SelectedTextsOfKnownKeys(question: Question, selected: seq<string>)
    requires forall i :: 0 <= i < |selected| ==> OptionByKey(question, selected[i]).Some?
    ensures |SelectedTexts(question, selected)| == |selected|
    ensures forall i :: 0 <= i < |selected| ==>
      SelectedTexts(question, selected)[i] == OptionByKey(question, selected[i]).value.text
    decreases |selected|
  {
    if selected != [] {
      var init := selected[..|selected| - 1];
      SelectedTextsOfKnownKeys(question, init);
      var r := SelectedTexts(question, selected);
      forall i | 0 <= i < |init| ensures r[i] == OptionByKey(question, selected[i]).value.text {
        assert selected[i] == init[i];
      }
    }
  }

  /** The selected texts of a concatenation are those of its parts, so unknown keys add nothing. */
  lemma {:induction false} SelectedTextsAppend(question: Question, a: seq<string>, b: seq<string>)
    ensures SelectedTexts(question, a + b) == SelectedTexts(question, a) + SelectedTexts(question, b)
    decreases |b|
  {
    if b == [] {
      assert a + b == a;
    } else {
      var init := b[..|b| - 1];
      var last := OptionTextLine(question, b[|b| - 1]);
      assert (a + b)[..|a + b| - 1] == a + init;
      assert SelectedTexts(question, a + b) == SelectedTexts(question, a + init) + last;
      SelectedTextsAppend(question, a, init);
      assert SelectedTexts(question, b) == SelectedTexts(question, init) + last;
    }
  }

  /** The `"label: value"` line of a custom entry, when its value is not empty. */
  function CustomLine(entry: CustomEntry): (r: seq<string>)
    ensures |r| <= 1
  {
    if entry.value != "" then [entry.option + ": " + entry.value] else []
  }

  /** The lines of the custom entries whose value is not empty, in order. */
  function CustomLines(custom: seq<CustomEntry>): (r: seq<string>)
    ensures |r| <= |custom|
    decreases |custom|
  {
    if custom == [] then []
    else CustomLines(custom[..|custom| - 1]) + CustomLine(custom[|custom| - 1])
  }

  /** When no custom value is empty, each entry yields its `"label: value"` line, in order. */
  lemma {:induction false} CustomLinesOfFilledEntries(custom: seq<CustomEntry>)
    requires forall i :: 0 <= i < |custom| ==> custom[i].value != ""
    ensures |CustomLines(custom)| == |custom|
    ensures forall i :: 0 <= i < |custom| ==> CustomLines(custom)[i] == custom[i].option + ": " + custom[i].value
    decreases |custom|
  {
    if custom != [] {
      var init := custom[..|custom| - 1];
      CustomLinesOfFilledEntries(init);
      var r := CustomLines(custom);
      forall i | 0 <= i < |init| ensures r[i] == custom[i].option + ": " + custom[i].value {
        assert custom[i] == init[i];
      }
    }
  }

  /** Lines of a multi-select entry: texts of the known selected keys, then the custom lines. */
  function AnswerParts(question: Question, selected: seq<string>, custom: seq<CustomEntry>): seq<string> {
    SelectedTexts(question, selected) + CustomLines(custom)
  }

  /** The human-readable rendering of the stored answer of a question. */
  function RenderedAnswer(question: Question, answers: Answers): (r: string)
    ensures question.id !in answers ==> r == ""
    ensures question.id in answers && answers[question.id].Scalar? ==> r == answers[question.id].text
    ensures question.id in answers && answers[question.id].Items? ==> r == Join(answers[question.id].items, "\n")
    ensures question.id in answers && answers[question.id].Multi? ==>
      r == Join(AnswerParts(question, answers[question.id].selected, answers[question.id].custom), "\n")
  {
    if question.id !in answers then ""
    else match answers[question.id]
      case Scalar(text) => text
      case Items(items) => Join(items, "\n")
      case Multi(selected, custom) => Join(AnswerParts(question, selected, custom), "\n")
  }

  /**
   * A rendered list answer holds one line per item: splitting it at the
   * newlines gives the items back when none of them holds a newline.
   */
  lemma RenderedItemsSplitBack(question: Question, answers: Answers)
    requires question.id in answers && answers[question.id].Items?
    requires |answers[question.id].items| >= 1
    requires forall k :: 0 <= k < |answers[question.id].items| ==> '\n' !in answers[question.id].items[k]
    ensures Split(RenderedAnswer(question, answers), '\n') == answers[question.id].items
  {
    SplitJoin(answers[question.id].items, '\n');
  }

  /**
   * A rendered multi-select answer holds one line per known selected key
   * and then one per filled custom entry, so splitting it at the newlines
   * gives those parts back when none of them holds a newline.
   */
  lemma RenderedMultiSplitBack(question: Question, answers: Answers)
    requires question.id in answers && answers[question.id].Multi?
    requires var parts := AnswerParts(question, answers[question.id].selected, answers[question.id].custom);
      |parts| >= 1 && forall k :: 0 <= k < |parts| ==> '\n' !in parts[k]
    ensures Split(RenderedAnswer(question, answers), '\n') ==
      SelectedTexts(question, answers[question.id].selected) + CustomLines(answers[question.id].custom)
  {
    SplitJoin(AnswerParts(question, answers[question.id].selected, answers[question.id].custom), '\n');
  }

  /** The first loop of `format_question_answer`: the texts of the selected keys the question knows. */
  method SelectedOptionTexts(question: Question, selected: seq<string>) returns (parts: seq<string>)
    ensures parts == SelectedTexts(question, selected)
  {
    parts := [];
    var i := 0;
    while i < |selected|
      invariant 0 <= i <= |selected|
      invariant parts == SelectedTexts(question, selected[..i])
    {
      assert selected[..i + 1][..i] == selected[..i];
      var option := FindOptionByKey(question, selected[i]);
      if option.Some? {
        parts := parts + [option.value.text];
      }
      i := i + 1;
    }
    assert selected[..i] == selected;
  }

  /** The second loop of `format_question_answer`: a line per custom entry with a value. */
  method FilledCustomLines(custom: seq<CustomEntry>) returns (lines: seq<string>)
    ensures lines == CustomLines(custom)
  {
    lines := [];
    var k := 0;
    while k < |custom|
      invariant 0 <= k <= |custom|
      invariant lines == CustomLines(custom[..k])
    {
      assert custom[..k + 1][..k] == custom[..k];
      if custom[k].value != "" {
        lines := lines + [custom[k].option + ": " + custom[k].value];
      }
      k := k + 1;
    }
    assert custom[..k] == custom;
  }

  /**
   * `format_question_answer`: "" without an entry; a multi-select entry
   * joins its selected texts and custom lines with newlines, a list joins
   * its items, and a plain value is itself.
   */
  method FormatQuestionAnswer(question: Question, answers: Answers) returns (r: string)
    ensures r == RenderedAnswer(question, answers)
  {
    if question.id !in answers {
      return "";
    }
    var answer := answers[question.id];
    if answer.Multi? {
      var texts := SelectedOptionTexts(question, answer.selected);
      var lines := FilledCustomLines(answer.custom);
      return Join(texts + lines, "\n");
    }
    if answer.Items? {
      return Join(answer.items, "\n");
    }
    return answer.text;
  }

  /** One `answers_by_id` item; a Python dict keeps its keys in insertion order. */
  datatype Entry = Entry(key: string, value: string)

  function EntryKey(e: Entry): string {
    e.key
  }

  /** Position of `key` in an insertion-ordered dict, or its length when absent. */
  function EntryPosition(d: seq<Entry>, key: string): nat {
    FirstWith(d, EntryKey, key)
  }

  /** Python's `d[key] = value`: replace in place when present, append otherwise. */
  function Put(d: seq<Entry>, key: string, value: string): (r: seq<Entry>)
    ensures EntryPosition(d, key) < |d| ==> r == d[EntryPosition(d, key) := Entry(key, value)]
    ensures EntryPosition(d, key) == |d| ==> r == d + [Entry(key, value)]
  {
    var i := EntryPosition(d, key);
    if i < |d| then d[i := Entry(key, value)] else d + [Entry(key, value)]
  }

  /** Python's `d.get(key, default)`. */
  function Lookup(d: seq<Entry>, key: string, default: string): string {
    var i := EntryPosition(d, key);
    if i < |d| then d[i].value else default
  }

  /** The rendered answer of every catalog question, keyed by id. */
  function AnswersById(questions: seq<Question>, answers: Answers): seq<Entry>
    decreases |questions|
  {
    if questions == [] then []
    else
      var last := questions[|questions| - 1];
      Put(AnswersById(questions[..|questions| - 1], answers), last.id, RenderedAnswer(last, answers))
  }

  /** `collect_all_answers`: one assignment per catalog question, in catalog order. */
  method CollectAllAnswers(questions: seq<Question>, answers: Answers) returns (d: seq<Entry>)
    ensures d == AnswersById(questions, answers)
  {
    d := [];
    var i := 0;
    while i < |questions|
      invariant 0 <= i <= |questions|
      invariant d == AnswersById(questions[..i], answers)
    {
      assert questions[..i + 1][..i] == questions[..i];
      var text := RenderedAnswer(questions[i], answers);
      assert AnswersById(questions[..i + 1], answers) == Put(d, questions[i].id, text);
      d := Put(d, questions[i].id, text);
      i := i + 1;
    }
    assert questions[..i] == questions;
  }

  /** With distinct ids, `collect_all_answers` has one entry per question, in catalog order. */
  lemma {:induction false} AnswersByIdInOrder(questions: seq<Question>, answers: Answers)
    requires DistinctIds(questions)
    ensures |AnswersById(questions, answers)| == |questions|
    ensures forall i :: 0 <= i < |questions| ==>
      AnswersById(questions, answers)[i] == Entry(questions[i].id, RenderedAnswer(questions[i], answers))
  {
    if questions != [] {
      var init := questions[..|questions| - 1];
      var last := questions[|questions| - 1];
      assert DistinctIds(init);
      AnswersByIdInOrder(init, answers);
      var d := AnswersById(init, answers);
      assert forall j :: 0 <= j < |d| ==> d[j].key == init[j].id != last.id;
      assert EntryPosition(d, last.id) == |d|;
    }
  }

  /** With distinct ids, looking a question's id up in `collect_all_answers` gives its rendered answer. */
  lemma LookupCollectedAnswer(questions: seq<Question>, answers: Answers, i: nat)
    requires DistinctIds(questions) && i < |questions|
    ensures Lookup(AnswersById(questions, answers), questions[i].id, "") == RenderedAnswer(questions[i], answers)
  {
    AnswersByIdInOrder(questions, answers);
    var d := AnswersById(questions, answers);
    forall j | 0 <= j < i ensures d[j].key != questions[i].id {
      assert d[j].key == questions[j].id;
    }
    assert d[i].key == questions[i].id;
    assert EntryPosition(d, questions[i].id) == i;
  }

  /** One item of `build_question_answer_pairs`. */
  datatype QAPair = QAPair(id: string, question: string, answer: string)

  /** The item of one question: its id, its plain text and its rendered answer. */
  function PairOf(question: Question, answers: Answers): QAPair {
    QAPair(question.id, StripMarkdown(question.text), RenderedAnswer(question, answers))
  }

  /** The item of one question, as a function of the question. */
  function PairFn(answers: Answers): Question -> QAPair {
    q => PairOf(q, answers)
  }

  /** The items `build_question_answer_pairs` returns: one per catalog question. */
  function QuestionAnswerPairs(questions: seq<Question>, answers: Answers): (r: seq<QAPair>)
    ensures |r| == |questions|
  {
    Map(PairFn(answers), questions)
  }

  /** `build_question_answer_pairs`: appends the item of every catalog question, in catalog order. */
  method BuildQuestionAnswerPairs(questions: seq<Question>, answers: Answers) returns (pairs: seq<QAPair>)
    ensures pairs == QuestionAnswerPairs(questions, answers)
  {
    pairs := [];
    var i := 0;
    while i < |questions|
      invariant 0 <= i <= |questions|
      invariant pairs == Map(PairFn(answers), questions[..i])
    {
      MapPrefix(PairFn(answers), questions, i);
      var text := FormatQuestionAnswer(questions[i], answers);
      pairs := pairs + [QAPair(questions[i].id, StripMarkdown(questions[i].text), text)];
      i := i + 1;
    }
    assert questions[..i] == questions;
  }

  /** The item at a catalog position is that question's id, plain text and rendered answer. */
  lemma QuestionAnswerPairsInOrder(questions: seq<Question>, answers: Answers, i: nat)
    requires i < |questions|
    ensures QuestionAnswerPairs(questions, answers)[i] ==
      QAPair(questions[i].id, StripMarkdown(questions[i].text), RenderedAnswer(questions[i], answers))
  {
    MapAt(PairFn(answers), questions, i);
  }
}
