/**
 * What the handlers of bot/handlers.py promise, stated over their step
 * functions: callback parsing and its failure paths, the precedence of the
 * awaiting markers, the cursor moving by one, the card text, and the
 * one-way gates of the report and the chat.
 */
module HandlerProperties {
  import opened Wrappers
  import opened PyText
  import opened Seqs
  import opened Questions
  import opened Utils
  import opened Session
  import opened Keyboards
  import opened Sheets
  import opened Handlers

  /** A question of the catalog whose id can be carried in callback data. */
  predicate Encodable(questions: seq<Question>, i: nat) {
    DistinctIds(questions) && i < |questions| && '|' !in questions[i].id
  }

  /** The data of a button of catalog question `i` parses back to that question and the key. */
  lemma ButtonResolves(questions: seq<Question>, i: nat, key: string)
    requires Encodable(questions, i) && '|' !in key
    ensures Split(OptionCallback(questions[i].id, key), '|') == ["q", questions[i].id, key]
    ensures QuestionById(questions, questions[i].id) == Some(questions[i])
  {
    OptionCallbackRoundTrip(questions[i].id, key);
    LookupFindsCatalogQuestion(questions, i);
  }

  // ---------------------------------------------------------------- sending

  /**
   * After a question is sent no free-text variant is pending, and text is
   * awaited exactly for a question without options that expects it; the
   * answers and the cursor are as they were and the card is the current
   * message.
   */
  lemma SentQuestionLeavesAtMostOneMarker(v: SessionValue, chatId: int, question: Question, m: Messages, sentId: int)
    ensures var r := SendQuestionStep(v, chatId, question, m, sentId).session;
      r.awaitingOther.None? &&
      r.awaitingText == (if question.options == [] && question.expectsText then Some(question.id) else None) &&
      r.answers == Ensured(v).answers && r.questionIndex == Ensured(v).questionIndex &&
      r.currentMessage == Some(MessageRef(chatId, sentId))
  {
  }

  /**
   * `send_next_question` moves the cursor by exactly one unless it shows
   * the current question, never touches the answers, and completes the
   * questionnaire exactly when the cursor leaves the catalog.
   */
  lemma SendNextMovesCursorByOne(v: SessionValue, chatId: int, isNew: bool, questions: seq<Question>, m: Messages, o: Outcomes)
    ensures var r := SendNextStep(v, chatId, isNew, questions, m, o);
      var index := Ensured(v).questionIndex + (if isNew then 0 else 1);
      r.session.questionIndex == index &&
      r.session.answers == Ensured(v).answers &&
      r.session.chatHistory == Ensured(v).chatHistory &&
      r.session.sheetsSaved == Ensured(v).sheetsSaved && r.session.reportReady == Ensured(v).reportReady &&
      (r.next == Some(Report) <==> !(0 <= index < |questions|)) &&
      (!(0 <= index < |questions|) ==> r.session.diagnosisComplete) &&
      (0 <= index < |questions| ==>
        r.next == Some(StateForQuestion(questions[index])) &&
        r.session.diagnosisComplete == Ensured(v).diagnosisComplete && r.session.awaitingOther.None?)
  {
    var w := if isNew then Ensured(v) else Advance(Ensured(v));
    if 0 <= w.questionIndex < |questions| {
      SentQuestionLeavesAtMostOneMarker(w, chatId, questions[w.questionIndex], m, o.sentMessageId);
    }
  }

  // -------------------------------------------------------------- the card

  /**
   * For a multi-select entry the card lists exactly the lines of the
   * rendered answer, in the same order, each as a bullet.
   */
  lemma CardListsRenderedAnswer(question: Question, answers: Answers)
    requires question.id in answers && answers[question.id].Multi?
    ensures var parts := AnswerParts(question, answers[question.id].selected, answers[question.id].custom);
      var lines := CardLines(question, answers);
      RenderedAnswer(question, answers) == Join(parts, "\n") &&
      |lines| == |parts| && forall k :: 0 <= k < |parts| ==> lines[k] == "- " + parts[k]
  {
    var parts := AnswerParts(question, answers[question.id].selected, answers[question.id].custom);
    forall k | 0 <= k < |parts| ensures CardLines(question, answers)[k] == "- " + parts[k] {
      MapAt(Bullet, parts, k);
    }
  }

  /** Keys the question does not know add no text. */
  lemma {:induction false} UnknownKeysAddNoText(question: Question, selected: seq<string>)
    requires forall k :: 0 <= k < |selected| ==> OptionByKey(question, selected[k]).None?
    ensures SelectedTexts(question, selected) == []
    decreases |selected|
  {
    if selected != [] {
      var init := selected[..|selected| - 1];
      assert forall k :: 0 <= k < |init| ==> init[k] == selected[k];
      UnknownKeysAddNoText(question, init);
    }
  }

  /** Custom entries without a value add no line. */
  lemma {:induction false} EmptyValuesAddNoLine(custom: seq<CustomEntry>)
    requires forall k :: 0 <= k < |custom| ==> custom[k].value == ""
    ensures CustomLines(custom) == []
    decreases |custom|
  {
    if custom != [] {
      var init := custom[..|custom| - 1];
      assert forall k :: 0 <= k < |init| ==> init[k] == custom[k];
      EmptyValuesAddNoLine(init);
    }
  }

  /**
   * The card is the bare question text when the entry holds only stale
   * keys and empty custom values, and whenever the entry is not a
   * multi-select one.
   */
  lemma StaleSelectionsLeaveBareCard(question: Question, answers: Answers)
    requires question.id in answers && answers[question.id].Multi? ==>
      (forall k :: 0 <= k < |answers[question.id].selected| ==> OptionByKey(question, answers[question.id].selected[k]).None?) &&
      (forall k :: 0 <= k < |answers[question.id].custom| ==> answers[question.id].custom[k].value == "")
    ensures CardText(question, answers) == question.text
  {
    if question.id in answers && answers[question.id].Multi? {
      UnknownKeysAddNoText(question, answers[question.id].selected);
      EmptyValuesAddNoLine(answers[question.id].custom);
      assert AnswerParts(question, answers[question.id].selected, answers[question.id].custom) == [];
    }
  }

  // ------------------------------------------------------------- callbacks

  /** Data that does not split into three parts, or names no catalog question, changes nothing. */
  lemma MalformedCallbackChangesNothing(v: SessionValue, data: string, pressed: MessageRef, questions: seq<Question>, m: Messages, o: Outcomes)
    requires |Split(data, '|')| != 3 || QuestionById(questions, Split(data, '|')[1]).None?
    ensures QuestionCallbackStep(v, data, pressed, questions, m, o) == Step(v, Some(Diagnosis), [])
  {
  }

  /** A key the question does not have changes nothing and stays in the question's state. */
  lemma UnknownOptionChangesNothing(
    v: SessionValue, questions: seq<Question>, i: nat, key: string, pressed: MessageRef, m: Messages, o: Outcomes)
    requires Encodable(questions, i) && '|' !in key && key != DoneKey
    requires OptionByKey(questions[i], key).None?
    ensures QuestionCallbackStep(v, OptionCallback(questions[i].id, key), pressed, questions, m, o) ==
      Step(v, Some(StateForQuestion(questions[i])), [])
  {
    ButtonResolves(questions, i, key);
  }

  /**
   * An option that asks for free text only remembers what to wait for:
   * answers, cursor and every other key stay as they were.
   */
  lemma FreeTextOptionAwaitsVariant(
    v: SessionValue, questions: seq<Question>, i: nat, key: string, pressed: MessageRef, m: Messages, o: Outcomes)
    requires Encodable(questions, i) && '|' !in key && key != DoneKey
    requires OptionByKey(questions[i], key).Some? && OptionByKey(questions[i], key).value.requiresFreeText
    ensures var q := questions[i];
      var option := OptionByKey(q, key).value;
      var r := QuestionCallbackStep(v, OptionCallback(q.id, key), pressed, questions, m, o);
      r.session == v.(awaitingOther := Some(OtherContext(q.id, option.text, q.section, q.multiSelect))) &&
      r.session.answers == v.answers && r.session.questionIndex == v.questionIndex &&
      r.next == Some(StateForQuestion(q)) && r.effects == [Reply(CustomPrompt(m), None)]
  {
    ButtonResolves(questions, i, key);
  }

  /**
   * The two awaiting markers are not exclusive: after a question that
   * awaits text is sent, pressing a free-text option on an older card
   * (any catalog question's button is still live) records the variant
   * marker and keeps the text marker, so both are set.
   */
  lemma StalePressSetsBothMarkers(
    v: SessionValue, chatId: int, textQuestion: Question, sentId: int,
    questions: seq<Question>, i: nat, key: string, pressed: MessageRef, m: Messages, o: Outcomes)
    requires textQuestion.options == [] && textQuestion.expectsText
    requires Encodable(questions, i) && '|' !in key && key != DoneKey
    requires OptionByKey(questions[i], key).Some? && OptionByKey(questions[i], key).value.requiresFreeText
    ensures var sent := SendQuestionStep(v, chatId, textQuestion, m, sentId).session;
      var r := QuestionCallbackStep(sent, OptionCallback(questions[i].id, key), pressed, questions, m, o).session;
      r.awaitingText == Some(textQuestion.id) && r.awaitingOther.Some?
  {
    var sent := SendQuestionStep(v, chatId, textQuestion, m, sentId).session;
    SentQuestionLeavesAtMostOneMarker(v, chatId, textQuestion, m, sentId);
    FreeTextOptionAwaitsVariant(sent, questions, i, key, pressed, m, o);
  }

  /** "done" is checked before any option lookup and moves the cursor by one, keeping the answers. */
  lemma DoneMovesCursor(v: SessionValue, questions: seq<Question>, i: nat, pressed: MessageRef, m: Messages, o: Outcomes)
    requires Encodable(questions, i)
    ensures var r := QuestionCallbackStep(v, OptionCallback(questions[i].id, DoneKey), pressed, questions, m, o);
      r == SendNextStep(v, pressed.chatId, false, questions, m, o) &&
      r.session.questionIndex == Ensured(v).questionIndex + 1 && r.session.answers == Ensured(v).answers
  {
    ButtonResolves(questions, i, DoneKey);
    SendNextMovesCursor(v, pressed.chatId, false, questions, m, o);
  }

  /** The cursor and answer facts of `SendNextMovesCursorByOne` that the press lemmas need. */
  lemma SendNextMovesCursor(v: SessionValue, chatId: int, isNew: bool, questions: seq<Question>, m: Messages, o: Outcomes)
    ensures var r := SendNextStep(v, chatId, isNew, questions, m, o);
      r.session.questionIndex == Ensured(v).questionIndex + (if isNew then 0 else 1) &&
      r.session.answers == Ensured(v).answers
  {
    SendNextMovesCursorByOne(v, chatId, isNew, questions, m, o);
  }

  /**
   * The multi-select branch flips the key in the selection (a selection
   * without duplicates keeps none), keeps every other answer and the
   * cursor, and makes the pressed card current. A stored answer that is
   * not a multi-select entry makes it raise.
   */
  lemma MultiToggleFlipsKey(v: SessionValue, question: Question, option: AnswerOption, pressed: MessageRef, m: Messages)
    requires NoDuplicates(SelectedOptionKeys(AnswersOf(v), question.id))
    ensures var r := MultiToggleStep(v, question, option, pressed, m);
      var before := AnswersOf(v);
      var key := option.key;
      if question.id in before && !before[question.id].Multi? then r == Step(Ensured(v), None, [])
      else
        var after := SelectedOptionKeys(AnswersOf(r.session), question.id);
        r.next == Some(StateForQuestion(question)) &&
        r.session.questionIndex == Ensured(v).questionIndex &&
        NoDuplicates(after) &&
        (key in after <==> key !in SelectedOptionKeys(before, question.id)) &&
        (forall k :: k != key ==> (k in after <==> k in SelectedOptionKeys(before, question.id))) &&
        (forall id :: id != question.id ==> GetAnswer(r.session, id) == GetAnswer(v, id)) &&
        r.session.currentMessage == Some(pressed)
  {
    var w := Ensured(v);
    assert AnswersOf(w) == AnswersOf(v);
    var t := WithToggledOption(w, question.id, option.key);
    MultiToggleSession(v, question, option, pressed, m);
    if t.Some? {
      var r := MultiToggleStep(v, question, option, pressed, m);
      assert r.session == t.value.(currentMessage := Some(pressed));
      assert AnswersOf(r.session) == AnswersOf(t.value);
      ToggledOptionFlipsKey(w, question.id, option.key);
    }
  }

  /** The session and next state of the multi-select branch, apart from its edit. */
  lemma MultiToggleSession(v: SessionValue, question: Question, option: AnswerOption, pressed: MessageRef, m: Messages)
    ensures var r := MultiToggleStep(v, question, option, pressed, m);
      var t := WithToggledOption(Ensured(v), question.id, option.key);
      if t.None? then r == Step(Ensured(v), None, [])
      else r.session == WithCurrentMessage(t.value, pressed.chatId, pressed.messageId) && r.next == Some(StateForQuestion(question))
  {
  }

  /** A press on a multi-select option goes to the toggle: it never moves the cursor. */
  lemma MultiPressOnlyToggles(
    v: SessionValue, questions: seq<Question>, i: nat, key: string, pressed: MessageRef, m: Messages, o: Outcomes)
    requires Encodable(questions, i) && '|' !in key && key != DoneKey && questions[i].multiSelect
    requires OptionByKey(questions[i], key).Some? && !OptionByKey(questions[i], key).value.requiresFreeText
    ensures var q := questions[i];
      var r := QuestionCallbackStep(v, OptionCallback(q.id, key), pressed, questions, m, o);
      r == MultiToggleStep(v, q, OptionByKey(q, key).value, pressed, m) &&
      r.session.questionIndex == Ensured(v).questionIndex
  {
    ButtonResolves(questions, i, key);
  }

  /** A press on a single-select option records its text and moves the cursor by one. */
  lemma SinglePressRecordsAndAdvances(
    v: SessionValue, questions: seq<Question>, i: nat, key: string, pressed: MessageRef, m: Messages, o: Outcomes)
    requires Encodable(questions, i) && '|' !in key && key != DoneKey && !questions[i].multiSelect
    requires OptionByKey(questions[i], key).Some? && !OptionByKey(questions[i], key).value.requiresFreeText
    ensures var q := questions[i];
      var r := QuestionCallbackStep(v, OptionCallback(q.id, key), pressed, questions, m, o);
      GetAnswer(r.session, q.id) == Some(Scalar(OptionByKey(q, key).value.text)) &&
      (forall id :: id != q.id ==> GetAnswer(r.session, id) == GetAnswer(v, id)) &&
      r.session.questionIndex == v.questionIndex + 1
  {
    ButtonResolves(questions, i, key);
    var q := questions[i];
    var recorded := WithSingleAnswer(v, q.id, OptionByKey(q, key).value.text);
    SendNextMovesCursor(recorded, pressed.chatId, false, questions, m, o);
  }

  // ------------------------------------------------------------------ text

  /** A pending free-text variant is served first, whatever else is awaited. */
  lemma OtherMarkerTakesPrecedence(v: SessionValue, chatId: int, rawText: string, questions: seq<Question>, m: Messages, o: Outcomes)
    requires Ensured(v).awaitingOther.Some?
    ensures TextResponseStep(v, chatId, rawText, questions, m, o) == OtherTextStep(Ensured(v), chatId, Strip(rawText), questions, m, o)
  {
  }

  /**
   * The variant of a multi-select question is appended as the last custom
   * entry (of a new entry when the question has none yet), the selection
   * is kept, the marker cleared and the cursor left where it was. A stored
   * answer that is not a multi-select entry makes the handler raise, and
   * the session stays as it was.
   */
  lemma OtherTextForMultiAppendsCustom(v: SessionValue, chatId: int, rawText: string, questions: seq<Question>, m: Messages, o: Outcomes)
    requires Ensured(v).awaitingOther.Some?
    requires var context := Ensured(v).awaitingOther.value;
      QuestionById(questions, context.questionId).Some? && QuestionById(questions, context.questionId).value.multiSelect
    ensures var context := Ensured(v).awaitingOther.value;
      var r := TextResponseStep(v, chatId, rawText, questions, m, o);
      var before := GetAnswer(v, context.questionId);
      if before.None? || before.value.Multi? then
        r.session.awaitingOther.None? && r.session.questionIndex == v.questionIndex &&
        GetAnswer(r.session, context.questionId) ==
          Some(Multi(SelectedOptionKeys(AnswersOf(v), context.questionId),
                     StoredCustom(AnswersOf(v), context.questionId) + [CustomEntry(context.optionText, Strip(rawText))])) &&
        r.next == Some(StateForQuestion(QuestionById(questions, context.questionId).value))
      else
        r.next.None? && r.session == v
  {
  }

  /** The variant of a single-select question is recorded as its answer, and the cursor moves by one. */
  lemma OtherTextForSingleRecordsAndAdvances(v: SessionValue, chatId: int, rawText: string, questions: seq<Question>, m: Messages, o: Outcomes)
    requires Ensured(v).awaitingOther.Some?
    requires var context := Ensured(v).awaitingOther.value;
      QuestionById(questions, context.questionId).Some? && !QuestionById(questions, context.questionId).value.multiSelect
    ensures var context := Ensured(v).awaitingOther.value;
      var r := TextResponseStep(v, chatId, rawText, questions, m, o);
      GetAnswer(r.session, context.questionId) == Some(Scalar(Strip(rawText))) &&
      r.session.questionIndex == Ensured(v).questionIndex + 1 && r.session.awaitingOther.None?
  {
    var w := Ensured(v);
    var context := w.awaitingOther.value;
    var recorded := WithSingleAnswer(w, context.questionId, Strip(rawText)).(awaitingOther := None);
    SendNextMovesCursorByOne(recorded, chatId, false, questions, m, o);
  }

  /** A text answer to the awaited question is recorded, and the cursor moves by one. */
  lemma AwaitedTextRecordsAndAdvances(v: SessionValue, chatId: int, rawText: string, questions: seq<Question>, m: Messages, o: Outcomes)
    requires Ensured(v).awaitingOther.None? && AwaitsKnownText(Ensured(v), questions)
    ensures var id := Ensured(v).awaitingText.value;
      var r := TextResponseStep(v, chatId, rawText, questions, m, o);
      GetAnswer(r.session, id) == Some(Scalar(Strip(rawText))) &&
      (forall other :: other != id ==> GetAnswer(r.session, other) == GetAnswer(v, other)) &&
      r.session.questionIndex == Ensured(v).questionIndex + 1
  {
    var w := Ensured(v);
    var question := QuestionById(questions, w.awaitingText.value).value;
    var recorded := WithSingleAnswer(w, question.id, Strip(rawText)).(awaitingText := None);
    SendNextMovesCursor(recorded, chatId, false, questions, m, o);
  }

  /** Without a marker, text goes to the chat once the report is ready, and is otherwise only answered with a reminder. */
  lemma TextWithoutMarker(v: SessionValue, chatId: int, rawText: string, questions: seq<Question>, m: Messages, o: Outcomes)
    requires Ensured(v).awaitingOther.None? && !AwaitsKnownText(Ensured(v), questions)
    ensures var r := TextResponseStep(v, chatId, rawText, questions, m, o);
      if Ensured(v).reportReady then r == ChatMessageStep(v, rawText, questions, m, o)
      else r == Step(Ensured(v), Some(Diagnosis), [Reply(m.preChatReminder, None)])
  {
  }

  // ----------------------------------------------------------------- gates

  /** A report request before the diagnosis is complete changes nothing but a reset of a missing session. */
  lemma ReportNeedsCompleteDiagnosis(v: SessionValue, user: Option<TelegramUser>, chatId: int, questions: seq<Question>, m: Messages, o: Outcomes)
    requires !Ensured(v).diagnosisComplete
    ensures ReportRequestStep(v, user, chatId, questions, m, o) == Step(Ensured(v), Some(Report), [Reply(m.preChatReminder, None)])
  {
  }

  /** Every effect of a delivery, and that none of them stores the answers. */
  lemma DeliveryNeverStores(saved: SessionValue, metadata: Metadata, chatId: int, questions: seq<Question>, m: Messages, o: Outcomes)
    ensures var d := DeliverStep(saved, metadata, chatId, questions, m, o);
      (forall k :: 0 <= k < |d.effects| ==> !d.effects[k].Store?) &&
      d.session.sheetsSaved == saved.sheetsSaved &&
      (d.session.reportReady <==> saved.reportReady || (o.analysis.Some? && o.rendered && o.delivered)) &&
      (d.session.reportReady && !saved.reportReady ==> SendDocument(chatId, m.reportDeliveryMessage) in d.effects)
  {
    DeliveryEffects(saved, metadata, chatId, questions, m, o);
    DeliveryFlags(saved, metadata, chatId, questions, m, o);
  }

  /** The requests of a delivery: analysis, then rendering, then sending, then the follow-up, cut at the first that raises. */
  lemma DeliveryEffects(saved: SessionValue, metadata: Metadata, chatId: int, questions: seq<Question>, m: Messages, o: Outcomes)
    ensures var d := DeliverStep(saved, metadata, chatId, questions, m, o);
      var payload := AnalysisPayloadOf(saved, questions, m.skillLevelOptions);
      d.effects == if o.analysis.None? then [Analyze(payload)]
        else if !o.rendered then [Analyze(payload), RenderReport(metadata, saved, o.analysis.value)]
        else if !o.delivered then [Analyze(payload), RenderReport(metadata, saved, o.analysis.value), SendDocument(chatId, m.reportDeliveryMessage)]
        else [Analyze(payload), RenderReport(metadata, saved, o.analysis.value), SendDocument(chatId, m.reportDeliveryMessage), ScheduleFollowUp(chatId)]
  {
  }

  /** A delivery keeps the saved flag and makes the report ready exactly when every step returned. */
  lemma DeliveryFlags(saved: SessionValue, metadata: Metadata, chatId: int, questions: seq<Question>, m: Messages, o: Outcomes)
    ensures var d := DeliverStep(saved, metadata, chatId, questions, m, o);
      d.session.sheetsSaved == saved.sheetsSaved &&
      (d.session.reportReady <==> saved.reportReady || (o.analysis.Some? && o.rendered && o.delivered))
  {
  }

  /**
   * The answers are stored at most by the first successful request: the
   * saved flag is set exactly when storing returned (or had happened
   * before), and a saved session is never stored again.
   */
  lemma AnswersAreStoredOnce(v: SessionValue, user: Option<TelegramUser>, chatId: int, questions: seq<Question>, m: Messages, o: Outcomes)
    requires Ensured(v).diagnosisComplete
    ensures var w := Ensured(v);
      var r := ReportRequestStep(v, user, chatId, questions, m, o);
      (r.session.sheetsSaved <==> w.sheetsSaved || o.stored) &&
      (w.sheetsSaved ==> forall k :: 0 <= k < |r.effects| ==> !r.effects[k].Store?) &&
      (!w.sheetsSaved ==> r.effects != [] && r.effects[0] == Store(UserMetadata(user), w))
  {
    var w := Ensured(v);
    if w.sheetsSaved || o.stored {
      DeliveryNeverStores(w.(sheetsSaved := true), UserMetadata(user), chatId, questions, m, o);
    }
  }

  /** Two requests in a row store the answers at most once. */
  lemma SecondRequestDoesNotStore(
    v: SessionValue, user: Option<TelegramUser>, chatId: int, questions: seq<Question>, m: Messages, first: Outcomes, second: Outcomes)
    requires Ensured(v).diagnosisComplete && first.stored
    ensures var r1 := ReportRequestStep(v, user, chatId, questions, m, first);
      var r2 := ReportRequestStep(r1.session, user, chatId, questions, m, second);
      forall k :: 0 <= k < |r2.effects| ==> !r2.effects[k].Store?
  {
    var r1 := ReportRequestStep(v, user, chatId, questions, m, first);
    AnswersAreStoredOnce(v, user, chatId, questions, m, first);
    assert r1.session.diagnosisComplete;
    AnswersAreStoredOnce(r1.session, user, chatId, questions, m, second);
  }

  /** The report becomes ready only in a request that stored (or had stored), analysed, rendered and sent it. */
  lemma ReportReadyOnlyAfterDelivery(v: SessionValue, user: Option<TelegramUser>, chatId: int, questions: seq<Question>, m: Messages, o: Outcomes)
    ensures var w := Ensured(v);
      var r := ReportRequestStep(v, user, chatId, questions, m, o);
      (r.session.reportReady <==>
        w.reportReady || (w.diagnosisComplete && (w.sheetsSaved || o.stored) && o.analysis.Some? && o.rendered && o.delivered)) &&
      (r.session.reportReady && !w.reportReady ==> SendDocument(chatId, m.reportDeliveryMessage) in r.effects)
  {
    var w := Ensured(v);
    if w.diagnosisComplete && (w.sheetsSaved || o.stored) {
      DeliveryNeverStores(w.(sheetsSaved := true), UserMetadata(user), chatId, questions, m, o);
    }
  }

  // ------------------------------------------------------------------ chat

  /** A chat message before the report is ready is answered with a reminder and leads back to the report. */
  lemma ChatNeedsReport(v: SessionValue, rawText: string, questions: seq<Question>, m: Messages, o: Outcomes)
    requires !Ensured(v).reportReady
    ensures ChatMessageStep(v, rawText, questions, m, o) == Step(Ensured(v), Some(Report), [Reply(m.preChatReminder, None)])
  {
  }

  /** A blank chat message leaves the history, and the whole session, untouched. */
  lemma BlankChatKeepsHistory(v: SessionValue, rawText: string, questions: seq<Question>, m: Messages, o: Outcomes)
    requires Ensured(v).reportReady && forall k :: 0 <= k < |rawText| ==> IsSpace(rawText[k])
    ensures ChatMessageStep(v, rawText, questions, m, o) == Step(Ensured(v), Some(Chat), [Reply(m.chatFallbackMessage, None)])
  {
  }

  /**
   * A chat exchange keeps a bounded history within the limit and ends it
   * with the reply, or with the user's message when the reply is empty.
   */
  lemma ChatHistoryStaysBounded(v: SessionValue, rawText: string, questions: seq<Question>, m: Messages, o: Outcomes)
    requires Ensured(v).reportReady && Strip(rawText) != ""
    requires |Ensured(v).chatHistory| <= HistoryLimit
    ensures var h := ChatMessageStep(v, rawText, questions, m, o).session.chatHistory;
      |h| <= HistoryLimit && h != [] &&
      h[|h| - 1] == (if o.chatReply != "" then ChatEntry("assistant", o.chatReply) else ChatEntry("user", Strip(rawText)))
  {
    var w := Ensured(v);
    var asked := AppendHistory(w.chatHistory, ChatEntry("user", Strip(rawText)), HistoryLimit);
    HistoryStaysBounded(w.chatHistory, ChatEntry("user", Strip(rawText)), HistoryLimit);
    HistoryEndsWithNewEntry(w.chatHistory, ChatEntry("user", Strip(rawText)), HistoryLimit);
    if o.chatReply != "" {
      HistoryStaysBounded(asked, ChatEntry("assistant", o.chatReply), HistoryLimit);
      HistoryEndsWithNewEntry(asked, ChatEntry("assistant", o.chatReply), HistoryLimit);
    }
  }

  // -------------------------------------------------------------- metadata

  /**
   * For names without surrounding whitespace the full name is the present
   * names joined by one space.
   */
  lemma FullNameJoinsPresentNames(first: string, last: string)
    requires first == [] || (!IsSpace(first[0]) && !IsSpace(first[|first| - 1]))
    requires last == [] || (!IsSpace(last[0]) && !IsSpace(last[|last| - 1]))
    ensures FullName(first, last) ==
      if first == "" then last else if last == "" then first else first + " " + last
  {
    if first != "" && last != "" {
      var joined := first + " " + last;
      assert Join([first, last], " ") == joined;
      assert joined[0] == first[0] && joined[|joined| - 1] == last[|last| - 1];
      StripKeepsTrimmed(joined);
    } else if first != "" {
      assert Join([first], " ") == first;
      StripKeepsTrimmed(first);
    } else if last != "" {
      assert Join([last], " ") == last;
      StripKeepsTrimmed(last);
    }
  }
}
