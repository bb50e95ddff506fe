/**
 * The per-user session of bot/utils.py: the `user_data` dict that the
 * handlers read and update in place. `SessionValue` is its value at one
 * moment; `UserData` is the mutable object, and each of its methods is
 * proved to move the value as the matching function below says.
 *
 * A key that is absent and a key that holds its default are one state
 * here, except `answers`, whose presence decides whether
 * `ensure_user_data` resets the session.
 */
module Session {
  import opened Wrappers
  import opened Questions
  import opened Utils
  import opened Analysis

  /** One turn of the post-report chat. */
  datatype ChatEntry = ChatEntry(role: string, message: string)

  /** Where the current question card was sent, so it can be edited. */
  datatype MessageRef = MessageRef(chatId: int, messageId: int)

  /** What the bot remembers while it waits for a free-text variant of an option. */
  datatype OtherContext = OtherContext(questionId: string, optionText: string, section: string, multiSelect: bool)

  /** The input of the analysis call, kept for the later chat. */
  datatype AnalysisPayload = AnalysisPayload(
    skillLevel: string,
    skillLevelKey: Option<string>,
    answers: seq<QAPair>,
    answersById: seq<Entry>)

  datatype SessionValue = SessionValue(
    answers: Option<Answers>,
    questionIndex: int,
    awaitingText: Option<string>,
    awaitingOther: Option<OtherContext>,
    skillLevel: Option<string>,
    reportReady: bool,
    diagnosisComplete: bool,
    currentMessage: Option<MessageRef>,
    sheetsSaved: bool,
    chatHistory: seq<ChatEntry>,
    analysis: Option<AnalysisResult>,
    analysisPayload: Option<AnalysisPayload>,
    answersSnapshot: Option<SessionValue>)

  /** The empty dict a user starts with. */
  const Empty := SessionValue(None, 0, None, None, None, false, false, None, false, [], None, None, None)

  /** `reset_user_session`: everything cleared, then an empty answer dict and all flags false. */
  const Fresh := Empty.(answers := Some(map[]))

  /** The chat history limit the handlers pass to `append_chat_history`. */
  const HistoryLimit := 12

  /** `ensure_user_data`: a session without an answer dict is reset, any other is left alone. */
  function Ensured(v: SessionValue): (r: SessionValue)
    ensures r.answers.Some?
    ensures v.answers.Some? ==> r == v
    ensures v.answers.None? ==> r == Fresh
  {
    if v.answers.None? then Fresh else v
  }

  /** `user_data.setdefault("answers", {})`. */
  function AnswersOf(v: SessionValue): Answers {
    v.answers.GetOr(map[])
  }

  /** `get_answer`: the stored entry of a question, if any. */
  function GetAnswer(v: SessionValue, questionId: string): Option<Answer> {
    if questionId in AnswersOf(v) then Some(AnswersOf(v)[questionId]) else None
  }

  /** `advance_question`: the cursor moves one question forward. */
  function Advance(v: SessionValue): SessionValue {
    v.(questionIndex := v.questionIndex + 1)
  }

  /** `record_single_answer` (and `record_answer`): the question's entry becomes the text. */
  function WithSingleAnswer(v: SessionValue, questionId: string, text: string): (r: SessionValue)
    ensures GetAnswer(r, questionId) == Some(Scalar(text))
    ensures forall id :: id != questionId ==> GetAnswer(r, id) == GetAnswer(v, id)
    ensures r.(answers := v.answers) == v
  {
    v.(answers := Some(AnswersOf(v)[questionId := Scalar(text)]))
  }

  /** Position of the first occurrence of `key`, or `|s|`. */
  function FirstIndex(s: seq<string>, key: string): (i: nat)
    ensures i <= |s|
    ensures i < |s| ==> s[i] == key
    ensures forall j :: 0 <= j < i ==> s[j] != key
  {
    if s == [] then 0 else if s[0] == key then 0 else 1 + FirstIndex(s[1..], key)
  }

  /** Python's `list.remove`: drops the first occurrence only. */
  function RemoveFirst(s: seq<string>, key: string): (r: seq<string>)
    requires key in s
    ensures |r| == |s| - 1
    ensures multiset(r) == multiset(s) - multiset{key}
  {
    var i := FirstIndex(s, key);
    assert s == s[..i] + [key] + s[i + 1..];
    s[..i] + s[i + 1..]
  }

  /** The selection list after one press of an option: removed if selected, appended otherwise. */
  function ToggleKey(selected: seq<string>, key: string): (r: seq<string>)
    ensures key !in selected ==> r == selected + [key]
    ensures key in selected ==> multiset(r) == multiset(selected) - multiset{key}
  {
    if key in selected then RemoveFirst(selected, key) else selected + [key]
  }

  predicate NoDuplicates(s: seq<string>) {
    forall i, j :: 0 <= i < j < |s| ==> s[i] != s[j]
  }

  /** On a selection without duplicates, a press flips the key's membership and keeps every other key. */
  lemma ToggleFlipsMembership(selected: seq<string>, key: string)
    requires NoDuplicates(selected)
    ensures NoDuplicates(ToggleKey(selected, key))
    ensures key in ToggleKey(selected, key) <==> key !in selected
    ensures forall k :: k != key ==> (k in ToggleKey(selected, key) <==> k in selected)
  {
    if key in selected {
      RemovingKeepsOthers(selected, key);
    } else {
      var r := selected + [key];
      assert forall k :: k in r <==> k in selected || k == key;
    }
  }

  /** Removing the one occurrence of a key from a selection without duplicates drops exactly that key. */
  lemma RemovingKeepsOthers(selected: seq<string>, key: string)
    requires NoDuplicates(selected) && key in selected
    ensures NoDuplicates(RemoveFirst(selected, key))
    ensures key !in RemoveFirst(selected, key)
    ensures forall k :: k != key ==> (k in RemoveFirst(selected, key) <==> k in selected)
  {
    var i := FirstIndex(selected, key);
    var r := RemoveFirst(selected, key);
    assert r == selected[..i] + selected[i + 1..];
    assert forall a :: 0 <= a < |r| ==> r[a] == selected[if a < i then a else a + 1];
    forall k | k != key && k in selected ensures k in r {
      var j :| 0 <= j < |selected| && selected[j] == k;
      assert r[if j < i then j else j - 1] == k;
    }
  }

  /** Pressing a key that was not selected twice restores the selection. */
  lemma ToggleTwiceRestoresAbsentKey(selected: seq<string>, key: string)
    requires key !in selected
    ensures ToggleKey(ToggleKey(selected, key), key) == selected
  {
    var once := selected + [key];
    assert FirstIndex(once, key) == |selected|;
    assert once[..|selected|] == selected;
  }

  /** Pressing a selected key twice keeps the same keys, but moves it to the end. */
  lemma ToggleTwiceKeepsKeys(selected: seq<string>, key: string)
    requires NoDuplicates(selected) && key in selected
    ensures multiset(ToggleKey(ToggleKey(selected, key), key)) == multiset(selected)
    ensures ToggleKey(ToggleKey(selected, key), key)[|selected| - 1] == key
  {
    ToggleFlipsMembership(selected, key);
  }

  /** So two presses do not always give back the same list: the order can change. */
  lemma ToggleTwiceCanReorder()
    ensures ToggleKey(ToggleKey(["a", "b"], "a"), "a") == ["b", "a"]
  {
    assert FirstIndex(["a", "b"], "a") == 0;
    assert ToggleKey(["a", "b"], "a") == ["b"];
  }

  /**
   * `toggle_multi_option`: the question's entry (a new empty one when
   * absent) has the option key flipped in its selection. `None` stands
   * for the exception raised when the stored entry is not a dict.
   */
  function WithToggledOption(v: SessionValue, questionId: string, key: string): (r: Option<SessionValue>)
    ensures r.Some? <==> (questionId !in AnswersOf(v) || AnswersOf(v)[questionId].Multi?)
    ensures r.Some? ==> r.value.(answers := v.answers) == v
    ensures r.Some? ==>
      GetAnswer(r.value, questionId) ==
      Some(Multi(ToggleKey(SelectedOptionKeys(AnswersOf(v), questionId), key), StoredCustom(AnswersOf(v), questionId)))
    ensures r.Some? ==> forall id :: id != questionId ==> GetAnswer(r.value, id) == GetAnswer(v, id)
  {
    var answers := AnswersOf(v);
    var entry := if questionId in answers then answers[questionId] else Multi([], []);
    if !entry.Multi? then None
    else Some(v.(answers := Some(answers[questionId := Multi(ToggleKey(entry.selected, key), entry.custom)])))
  }

  /**
   * A toggle that succeeds flips the key in the question's selection and
   * keeps every other selected key; a selection without duplicates keeps
   * none.
   */
  lemma ToggledOptionFlipsKey(v: SessionValue, questionId: string, key: string)
    requires NoDuplicates(SelectedOptionKeys(AnswersOf(v), questionId))
    requires WithToggledOption(v, questionId, key).Some?
    ensures var before := SelectedOptionKeys(AnswersOf(v), questionId);
      var after := SelectedOptionKeys(AnswersOf(WithToggledOption(v, questionId, key).value), questionId);
      NoDuplicates(after) &&
      (key in after <==> key !in before) &&
      (forall k :: k != key ==> (k in after <==> k in before))
  {
    var answers := AnswersOf(v);
    var e := if questionId in answers then answers[questionId] else Multi([], []);
    assert SelectedOptionKeys(answers, questionId) == e.selected;
    assert SelectedOptionKeys(AnswersOf(WithToggledOption(v, questionId, key).value), questionId) == ToggleKey(e.selected, key);
    ToggleFlipsMembership(e.selected, key);
  }

  /** The free-text variants stored for a multi-select question, or none. */
  function StoredCustom(answers: Answers, questionId: string): seq<CustomEntry> {
    if questionId in answers && answers[questionId].Multi? then answers[questionId].custom else []
  }

  /**
   * `append_custom_answer`: the free-text variant is appended to the
   * entry's custom list (a new empty entry when absent). `None` stands for
   * the exception raised when the stored entry is not a dict.
   */
  function WithCustomAnswer(v: SessionValue, questionId: string, optionText: string, value: string): (r: Option<SessionValue>)
    ensures r.Some? <==> (questionId !in AnswersOf(v) || AnswersOf(v)[questionId].Multi?)
    ensures r.Some? ==> r.value.(answers := v.answers) == v
    ensures r.Some? ==>
      GetAnswer(r.value, questionId) ==
      Some(Multi(SelectedOptionKeys(AnswersOf(v), questionId),
                 StoredCustom(AnswersOf(v), questionId) + [CustomEntry(optionText, value)]))
    ensures r.Some? && questionId !in AnswersOf(v) ==>
      GetAnswer(r.value, questionId) == Some(Multi([], [CustomEntry(optionText, value)]))
    ensures r.Some? ==> forall id :: id != questionId ==> GetAnswer(r.value, id) == GetAnswer(v, id)
  {
    var answers := AnswersOf(v);
    var entry := if questionId in answers then answers[questionId] else Multi([], []);
    if !entry.Multi? then None
    else
      assert [] + [CustomEntry(optionText, value)] == [CustomEntry(optionText, value)];
      Some(v.(answers := Some(answers[questionId := Multi(entry.selected, entry.custom + [CustomEntry(optionText, value)])])))
  }

  /** An appended variant with a value shows as the last line of the rendered answer. */
  lemma CustomAnswerIsRenderedLast(v: SessionValue, question: Question, optionText: string, value: string)
    requires value != ""
    requires WithCustomAnswer(v, question.id, optionText, value).Some?
    ensures var r := WithCustomAnswer(v, question.id, optionText, value).value;
      GetAnswer(r, question.id).Some? && GetAnswer(r, question.id).value.Multi? &&
      var e := GetAnswer(r, question.id).value;
      var parts := AnswerParts(question, e.selected, e.custom);
      parts != [] && parts[|parts| - 1] == optionText + ": " + value
  {
    var r := WithCustomAnswer(v, question.id, optionText, value).value;
    var e := GetAnswer(r, question.id).value;
    var before := e.custom[..|e.custom| - 1];
    assert e.custom == before + [CustomEntry(optionText, value)];
    CustomLinesAppend(before, CustomEntry(optionText, value));
  }

  /** The custom lines of a list with one more filled entry end with that entry's line. */
  lemma CustomLinesAppend(custom: seq<CustomEntry>, last: CustomEntry)
    requires last.value != ""
    ensures CustomLines(custom + [last]) == CustomLines(custom) + [last.option + ": " + last.value]
  {
    assert (custom + [last])[..|custom|] == custom;
  }

  /** What a single answer records is exactly what `format_question_answer` renders. */
  lemma RecordedAnswerIsRendered(v: SessionValue, question: Question, text: string)
    ensures RenderedAnswer(question, AnswersOf(WithSingleAnswer(v, question.id, text))) == text
  {
  }

  /** `set_current_question_message`. */
  function WithCurrentMessage(v: SessionValue, chatId: int, messageId: int): SessionValue {
    v.(currentMessage := Some(MessageRef(chatId, messageId)))
  }

  /**
   * `append_chat_history`: the entry is appended, then the oldest entries
   * are deleted until at most `limit` remain (all of them when `limit` is
   * negative, as `del history[0 : len - limit]` does).
   */
  function AppendHistory(history: seq<ChatEntry>, entry: ChatEntry, limit: int): (r: seq<ChatEntry>)
    ensures limit >= 0 ==> |r| <= limit || r == history + [entry]
    ensures limit >= 0 ==> |r| == if |history| + 1 <= limit then |history| + 1 else limit
    ensures limit < 0 ==> r == []
    ensures forall k :: 0 <= k < |r| ==> r[k] == (history + [entry])[|history| + 1 - |r| + k]
  {
    var h := history + [entry];
    if |h| > limit then (if limit < 0 then [] else h[|h| - limit..]) else h
  }

  /** With a positive limit the new entry is always the last one kept. */
  lemma HistoryEndsWithNewEntry(history: seq<ChatEntry>, entry: ChatEntry, limit: int)
    requires limit > 0
    ensures var r := AppendHistory(history, entry, limit); r != [] && r[|r| - 1] == entry
  {
    var r := AppendHistory(history, entry, limit);
    assert r[|r| - 1] == (history + [entry])[|history|];
  }

  /** A history that never exceeded the limit stays within it. */
  lemma HistoryStaysBounded(history: seq<ChatEntry>, entry: ChatEntry, limit: int)
    requires 0 <= limit && |history| <= limit
    ensures |AppendHistory(history, entry, limit)| <= limit
  {
  }

  /** The user's `user_data` dict, updated in place by the handlers. */
  class UserData {
    var answers: Option<Answers>
    var questionIndex: int
    var awaitingText: Option<string>
    var awaitingOther: Option<OtherContext>
    var skillLevel: Option<string>
    var reportReady: bool
    var diagnosisComplete: bool
    var currentMessage: Option<MessageRef>
    var sheetsSaved: bool
    var chatHistory: seq<ChatEntry>
    var analysis: Option<AnalysisResult>
    var analysisPayload: Option<AnalysisPayload>
    var answersSnapshot: Option<SessionValue>

    /** The dict's current contents. */
    function Value(): SessionValue
      reads this
    {
      SessionValue(answers, questionIndex, awaitingText, awaitingOther, skillLevel, reportReady,
        diagnosisComplete, currentMessage, sheetsSaved, chatHistory, analysis, analysisPayload, answersSnapshot)
    }

    /** Overwrites every key with `v`. */
    method Assign(v: SessionValue)
      modifies this
      ensures Value() == v
    {
      answers := v.answers;
      questionIndex := v.questionIndex;
      awaitingText := v.awaitingText;
      awaitingOther := v.awaitingOther;
      skillLevel := v.skillLevel;
      reportReady := v.reportReady;
      diagnosisComplete := v.diagnosisComplete;
      currentMessage := v.currentMessage;
      sheetsSaved := v.sheetsSaved;
      chatHistory := v.chatHistory;
      analysis := v.analysis;
      analysisPayload := v.analysisPayload;
      answersSnapshot := v.answersSnapshot;
    }

    /** A new user's dict is empty. */
    constructor()
      ensures Value() == Empty
    {
      answers, questionIndex, awaitingText, awaitingOther := None, 0, None, None;
      skillLevel, reportReady, diagnosisComplete := None, false, false;
      currentMessage, sheetsSaved, chatHistory := None, false, [];
      analysis, analysisPayload, answersSnapshot := None, None, None;
    }

    /** `reset_user_session`: clears the dict and sets the starting keys. */
    method Reset()
      modifies this
      ensures Value() == Fresh
    {
      Assign(Empty);
      answers := Some(map[]);
      questionIndex := 0;
      reportReady := false;
      diagnosisComplete := false;
      currentMessage := None;
      sheetsSaved := false;
      chatHistory := [];
    }

    /** `ensure_user_data`. */
    method EnsureUserData()
      modifies this
      ensures Value() == Ensured(old(Value()))
    {
      if answers.None? {
        Reset();
      }
    }

    /** `get_current_question`. */
    function CurrentQuestion(questions: seq<Question>): (r: Option<Question>)
      reads this
      ensures r.Some? <==> 0 <= questionIndex < |questions|
      ensures r.Some? ==> r.value == questions[questionIndex]
    {
      Utils.CurrentQuestion(questions, questionIndex)
    }

    /** `advance_question`: moves the cursor and returns the question now under it, if any. */
    method AdvanceQuestion(questions: seq<Question>) returns (q: Option<Question>)
      modifies this
      ensures Value() == Advance(old(Value()))
      ensures q.Some? <==> 0 <= old(questionIndex) + 1 < |questions|
      ensures q.Some? ==> q.value == questions[old(questionIndex) + 1]
    {
      questionIndex := questionIndex + 1;
      q := CurrentQuestion(questions);
    }

    /** `record_single_answer`. */
    method RecordSingleAnswer(questionId: string, text: string)
      modifies this
      ensures Value() == WithSingleAnswer(old(Value()), questionId, text)
    {
      var current := AnswersOf(Value());
      answers := Some(current[questionId := Scalar(text)]);
    }

    /** `toggle_multi_option`: returns the updated entry, or `None` when the call raises. */
    method ToggleMultiOption(question: Question, option: AnswerOption) returns (entry: Option<Answer>)
      modifies this
      ensures var r := WithToggledOption(old(Value()), question.id, option.key);
        if r.Some? then Value() == r.value && entry == GetAnswer(r.value, question.id)
        else Value() == old(Value()).(answers := Some(AnswersOf(old(Value())))) && entry.None?
    {
      var current := AnswersOf(Value());
      answers := Some(current);
      var e := if question.id in current then current[question.id] else Multi([], []);
      if !e.Multi? {
        return None;
      }
      var updated := Multi(ToggleKey(e.selected, option.key), e.custom);
      answers := Some(current[question.id := updated]);
      entry := Some(updated);
    }

    /** `append_custom_answer`: returns false when the call raises. */
    method AppendCustomAnswer(questionId: string, optionText: string, value: string) returns (ok: bool)
      modifies this
      ensures var r := WithCustomAnswer(old(Value()), questionId, optionText, value);
        ok == r.Some? &&
        if r.Some? then Value() == r.value
        else Value() == old(Value()).(answers := Some(AnswersOf(old(Value()))))
    {
      var current := AnswersOf(Value());
      answers := Some(current);
      var e := if questionId in current then current[questionId] else Multi([], []);
      if !e.Multi? {
        return false;
      }
      answers := Some(current[questionId := Multi(e.selected, e.custom + [CustomEntry(optionText, value)])]);
      ok := true;
    }

    /** `set_current_question_message`. */
    method SetCurrentQuestionMessage(chatId: int, messageId: int)
      modifies this
      ensures Value() == WithCurrentMessage(old(Value()), chatId, messageId)
    {
      currentMessage := Some(MessageRef(chatId, messageId));
    }

    /** `append_chat_history`: appends, then deletes the oldest entries above the limit. */
    method AppendChatHistory(role: string, message: string, limit: int)
      modifies this
      ensures Value() == old(Value()).(chatHistory := AppendHistory(old(chatHistory), ChatEntry(role, message), limit))
    {
      chatHistory := chatHistory + [ChatEntry(role, message)];
      if |chatHistory| > limit {
        var drop := |chatHistory| - limit;
        chatHistory := if drop >= |chatHistory| then [] else chatHistory[drop..];
      }
    }
  }
}
