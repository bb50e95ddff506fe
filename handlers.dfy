/**
 * The conversation handlers of bot/handlers.py. Each handler reads and
 * updates the user's `user_data` and answers with the next conversation
 * state. Telegram sends and edits, and the calls into the Sheets, OpenAI
 * and PDF services, become `Effect` requests; what those calls give back
 * (the id of a sent message, whether storing or delivery raised, the
 * analysis, the chat reply) is the `Outcomes` parameter.
 *
 * Every handler is stated twice: a function from the old session to a
 * `Step` (the new session, the next state and the effects), and a method
 * that changes a `UserData` in place as the source does and is proved to
 * agree with that function. The properties of the handlers are lemmas
 * about the functions.
 */
module Handlers {
  import opened Wrappers
  import opened PyText
  import opened Seqs
  import opened Questions
  import opened Utils
  import opened Analysis
  import opened Session
  import opened Keyboards
  import opened Sheets

  /** bot/states.py: the states of the conversation. */
  datatype ConvState = Welcome | SkillLevel | Video | Diagnosis | Readiness | Report | Chat

  /** What the chat model is given (`_build_chat_payload`). */
  datatype ChatPayload = ChatPayload(
    analysis: AnalysisResult,
    answers: seq<QAPair>,
    answersById: seq<Entry>,
    skillLevel: string,
    history: seq<ChatEntry>,
    userMessage: string)

  /** A request a handler makes of Telegram or of a service. */
  datatype Effect =
    | Reply(text: string, keyboard: Option<Keyboard>)
    | Send(chatId: int, text: string, keyboard: Option<Keyboard>)
    | Edit(chatId: int, messageId: int, text: string, markup: Keyboard)
    | Store(metadata: Metadata, snapshot: SessionValue)
    | Analyze(input: AnalysisPayload)
    | RenderReport(metadata: Metadata, snapshot: SessionValue, analysis: AnalysisResult)
    | SendDocument(chatId: int, caption: string)
    | ScheduleFollowUp(chatId: int)
    | AskChatReply(request: ChatPayload)

  /**
   * What the collaborators give back: the id of the message a send
   * created, whether storing the answers, rendering the PDF and sending it
   * returned normally, the analysis (`None` when the call raised) and the
   * chat reply.
   */
  datatype Outcomes = Outcomes(
    sentMessageId: int,
    stored: bool,
    analysis: Option<AnalysisResult>,
    rendered: bool,
    delivered: bool,
    chatReply: string)

  /**
   * The result of a handler: the new session, the next state (`None` when
   * the handler raised, which leaves the conversation where it was) and
   * the effects requested, in order.
   */
  datatype Step = Step(session: SessionValue, next: Option<ConvState>, effects: seq<Effect>)

  /** The Telegram user fields `_build_user_metadata` reads. */
  datatype TelegramUser = TelegramUser(id: int, firstName: Option<string>, lastName: Option<string>, username: Option<string>)

  /** The reply used when the configured custom-option prompt is empty. */
  const DefaultCustomPrompt := "Пожалуйста, напиши свой вариант."

  /** The heading put between a question and its chosen answers. */
  const ChosenHeading := "\n\n*Выбрано:*\n"

  /** `_state_for_question`: business questions belong to the diagnosis state, the others to readiness. */
  function StateForQuestion(question: Question): (s: ConvState)
    ensures s == Diagnosis <==> question.section == "business"
    ensures s == Diagnosis || s == Readiness
  {
    if question.section == "business" then Diagnosis else Readiness
  }

  /** `set(get_selected_option_keys(...))`. */
  function SelectedKeySet(answers: Answers, questionId: string): set<string> {
    set k | k in SelectedOptionKeys(answers, questionId)
  }

  /** A line of the question card: `"- " + line`. */
  function Bullet(line: string): string {
    "- " + line
  }

  /** The lines the card lists under the question: every rendered line of a multi-select entry, bulleted. */
  function CardLines(question: Question, answers: Answers): seq<string> {
    if question.id in answers && answers[question.id].Multi? then
      Map(Bullet, AnswerParts(question, answers[question.id].selected, answers[question.id].custom))
    else []
  }

  /** The text of the question card. */
  function CardText(question: Question, answers: Answers): string {
    var lines := CardLines(question, answers);
    if lines == [] then question.text else question.text + ChosenHeading + Join(lines, "\n")
  }

  /** The loops of `_format_question_text` over the selected keys. */
  method SelectedCardLines(question: Question, selected: seq<string>) returns (lines: seq<string>)
    ensures lines == Map(Bullet, SelectedTexts(question, selected))
  {
    lines := [];
    ghost var texts: seq<string> := [];
    var i := 0;
    while i < |selected|
      invariant 0 <= i <= |selected|
      invariant texts == SelectedTexts(question, selected[..i])
      invariant lines == Map(Bullet, texts)
    {
      assert selected[..i + 1][..i] == selected[..i];
      var option := FindOptionByKey(question, selected[i]);
      ghost var line := OptionTextLine(question, selected[i]);
      MapAppend(Bullet, texts, line);
      if option.Some? {
        MapOne(Bullet, option.value.text);
        lines := lines + [Bullet(option.value.text)];
      }
      texts := texts + line;
      i := i + 1;
    }
    assert selected[..i] == selected;
  }

  /** The loop of `_format_question_text` over the custom entries. */
  method CustomCardLines(custom: seq<CustomEntry>) returns (lines: seq<string>)
    ensures lines == Map(Bullet, CustomLines(custom))
  {
    lines := [];
    var k := 0;
    while k < |custom|
      invariant 0 <= k <= |custom|
      invariant lines == Map(Bullet, CustomLines(custom[..k]))
    {
      assert custom[..k + 1][..k] == custom[..k];
      MapAppend(Bullet, CustomLines(custom[..k]), CustomLine(custom[k]));
      if custom[k].value != "" {
        MapOne(Bullet, custom[k].option + ": " + custom[k].value);
        lines := lines + [Bullet(custom[k].option + ": " + custom[k].value)];
      }
      k := k + 1;
    }
    assert custom[..k] == custom;
  }

  /**
   * `_format_question_text`: the question text, followed by the chosen
   * options and filled custom values of a multi-select entry when there
   * is at least one.
   */
  method FormatQuestionText(question: Question, answers: Answers) returns (text: string)
    ensures text == CardText(question, answers)
  {
    text := question.text;
    if question.id in answers && answers[question.id].Multi? {
      var entry := answers[question.id];
      var chosen := SelectedCardLines(question, entry.selected);
      var custom := CustomCardLines(entry.custom);
      MapAppend(Bullet, SelectedTexts(question, entry.selected), CustomLines(entry.custom));
      var lines := chosen + custom;
      if lines != [] {
        text := text + ChosenHeading + Join(lines, "\n");
      }
    }
  }

  /** The card of a question and the keyboard of its options, as the edit of a refresh sends them. */
  function CardEdit(chatId: int, messageId: int, question: Question, answers: Answers, m: Messages): Effect {
    Edit(chatId, messageId, CardText(question, answers),
      QuestionKeyboard(question, SelectedKeySet(answers, question.id), m.multiSelectDoneButton))
  }

  /**
   * `_send_question`: both awaiting markers are cleared, a question without
   * options that expects text is awaited, the card is sent (with the option
   * keyboard when there are options) and remembered as the current message.
   */
  function SendQuestionStep(v: SessionValue, chatId: int, question: Question, m: Messages, sentId: int): Step {
    var cleared := Ensured(v).(awaitingText := None, awaitingOther := None);
    var keyboard := if question.options != [] then
      Some(QuestionKeyboard(question, SelectedKeySet(AnswersOf(cleared), question.id), m.multiSelectDoneButton))
      else None;
    var w := if question.options == [] && question.expectsText then cleared.(awaitingText := Some(question.id)) else cleared;
    Step(WithCurrentMessage(w, chatId, sentId), Some(StateForQuestion(question)),
      [Send(chatId, CardText(question, AnswersOf(w)), keyboard)])
  }

  /** `handle_questionnaire_complete`: the diagnosis is marked complete and the report button offered. */
  function QuestionnaireCompleteStep(v: SessionValue, chatId: int, m: Messages): Step {
    var keyboard := if m.reportButton.text != "" then Some(SingleButtonKeyboard(m.reportButton)) else None;
    Step(v.(diagnosisComplete := true), Some(Report), [Send(chatId, m.preReportMessage, keyboard)])
  }

  /**
   * `send_next_question`: the question under the cursor (`isNew`) or the
   * one after it is sent; past the end of the catalog the questionnaire is
   * complete.
   */
  function SendNextStep(v: SessionValue, chatId: int, isNew: bool, questions: seq<Question>, m: Messages, o: Outcomes): Step {
    var w := if isNew then Ensured(v) else Advance(Ensured(v));
    match CurrentQuestion(questions, w.questionIndex)
    case None => QuestionnaireCompleteStep(w, chatId, m)
    case Some(question) => SendQuestionStep(w, chatId, question, m, o.sentMessageId)
  }

  /** `start_command`: the session starts over and the welcome is shown when the update carries a message. */
  function StartCommandStep(v: SessionValue, hasMessage: bool, m: Messages): Step {
    Step(Fresh, Some(Welcome), if hasMessage then [Reply(m.welcomeText, Some(StartKeyboard(m)))] else [])
  }

  /** `handle_start_button`: the skill levels are offered. */
  function StartButtonStep(v: SessionValue, m: Messages): Step {
    Step(Ensured(v), Some(SkillLevel), [Reply(m.skillLevelPrompt, Some(Keyboard(SkillRows(m.skillLevelOptions))))])
  }

  /**
   * `handle_skill_selection`: the choice is stored; the first two levels
   * are shown the video, any other the way straight to the diagnosis.
   * With fewer than two configured levels the lookup raises.
   */
  function SkillSelectionStep(v: SessionValue, choice: string, m: Messages): Step {
    var w := v.(skillLevel := Some(choice));
    var options := m.skillLevelOptions;
    if |options| < 2 then Step(w, None, [])
    else if choice == options[0].callbackData || choice == options[1].callbackData then
      Step(w, Some(Video), [Reply(m.videoMessage, Some(SingleButtonKeyboard(m.videoReadyButton)))])
    else
      Step(w, Some(Video), [Reply(m.expertSkipMessage, Some(SingleButtonKeyboard(m.diagnosisButton)))])
  }

  /** `handle_video_confirmation` and `start_diagnosis_flow`: the intro, then the question under the cursor. */
  function VideoConfirmationStep(v: SessionValue, chatId: int, questions: seq<Question>, m: Messages, o: Outcomes): Step {
    var s := SendNextStep(v, chatId, true, questions, m, o);
    Step(s.session, s.next, [Send(chatId, m.diagnosisIntro, None)] + s.effects)
  }

  /** The prompt for a free-text variant. */
  function CustomPrompt(m: Messages): string {
    if m.customOptionPrompt != "" then m.customOptionPrompt else DefaultCustomPrompt
  }

  /**
   * The multi-select branch of `handle_question_callback`: the option is
   * toggled, the pressed message is edited to the new card and becomes the
   * current message. Toggling a stored answer that is not a multi-select
   * entry raises.
   */
  function MultiToggleStep(v: SessionValue, question: Question, option: AnswerOption, pressed: MessageRef, m: Messages): Step {
    var w := Ensured(v);
    match WithToggledOption(w, question.id, option.key)
    case None => Step(w, None, [])
    case Some(t) =>
      Step(WithCurrentMessage(t, pressed.chatId, pressed.messageId), Some(StateForQuestion(question)),
        [CardEdit(pressed.chatId, pressed.messageId, question, AnswersOf(t), m)])
  }

  /**
   * `handle_question_callback` for the data `q|<id>|<payload>` of a press
   * on the message `pressed`.
   */
  function QuestionCallbackStep(
    v: SessionValue, data: string, pressed: MessageRef, questions: seq<Question>, m: Messages, o: Outcomes): Step
  {
    var parts := Split(data, '|');
    if |parts| != 3 then Step(v, Some(Diagnosis), [])
    else match QuestionById(questions, parts[1])
      case None => Step(v, Some(Diagnosis), [])
      case Some(question) =>
        if parts[2] == DoneKey then SendNextStep(v, pressed.chatId, false, questions, m, o)
        else match OptionByKey(question, parts[2])
          case None => Step(v, Some(StateForQuestion(question)), [])
          case Some(option) =>
            if option.requiresFreeText then
              var context := OtherContext(question.id, option.text, question.section, question.multiSelect);
              Step(v.(awaitingOther := Some(context)), Some(StateForQuestion(question)), [Reply(CustomPrompt(m), None)])
            else if question.multiSelect then MultiToggleStep(v, question, option, pressed, m)
            else SendNextStep(WithSingleAnswer(v, question.id, option.text), pressed.chatId, false, questions, m, o)
  }

  /** `_refresh_question_message`: the current card is edited in place when its message is known. */
  function RefreshEffects(v: SessionValue, question: Question, m: Messages): seq<Effect> {
    match v.currentMessage
    case None => []
    case Some(ref) => [CardEdit(ref.chatId, ref.messageId, question, AnswersOf(v), m)]
  }

  /** `_build_analysis_payload`. */
  function AnalysisPayloadOf(v: SessionValue, questions: seq<Question>, skillOptions: seq<ButtonSpec>): AnalysisPayload {
    AnalysisPayload(SkillLevelText(v.skillLevel.GetOr(""), skillOptions), v.skillLevel,
      QuestionAnswerPairs(questions, AnswersOf(v)), AnswersById(questions, AnswersOf(v)))
  }

  /**
   * `_build_chat_payload`: the answers kept with the analysis when there
   * are any, recomputed from the session otherwise.
   */
  function ChatPayloadOf(v: SessionValue, userMessage: string, questions: seq<Question>, skillOptions: seq<ButtonSpec>): ChatPayload {
    var stored := v.analysisPayload;
    ChatPayload(
      v.analysis.GetOr([]),
      if stored.Some? && stored.value.answers != [] then stored.value.answers else QuestionAnswerPairs(questions, AnswersOf(v)),
      if stored.Some? && stored.value.answersById != [] then stored.value.answersById else AnswersById(questions, AnswersOf(v)),
      SkillLevelText(v.skillLevel.GetOr(""), skillOptions),
      v.chatHistory,
      userMessage)
  }

  /**
   * `handle_chat_message`: before the report the user is reminded; an empty
   * message gets the fallback; otherwise the message and a non-empty reply
   * are added to the bounded history.
   */
  function ChatMessageStep(v: SessionValue, rawText: string, questions: seq<Question>, m: Messages, o: Outcomes): Step {
    var w := Ensured(v);
    var message := Strip(rawText);
    if !w.reportReady then Step(w, Some(Report), [Reply(m.preChatReminder, None)])
    else if message == "" then Step(w, Some(Chat), [Reply(m.chatFallbackMessage, None)])
    else
      var asked := w.(chatHistory := AppendHistory(w.chatHistory, ChatEntry("user", message), HistoryLimit));
      var request := AskChatReply(ChatPayloadOf(asked, message, questions, m.skillLevelOptions));
      if o.chatReply != "" then
        Step(asked.(chatHistory := AppendHistory(asked.chatHistory, ChatEntry("assistant", o.chatReply), HistoryLimit)),
          Some(Chat), [request, Reply(o.chatReply, None)])
      else Step(asked, Some(Chat), [request, Reply(m.chatFallbackMessage, None)])
  }

  /**
   * The branch of `handle_text_response` for a pending free-text variant:
   * an unknown question drops the marker; a multi-select question gets the
   * text as a custom value and its card refreshed; any other question
   * records the text and moves on.
   */
  function OtherTextStep(w: SessionValue, chatId: int, text: string, questions: seq<Question>, m: Messages, o: Outcomes): Step
    requires w.awaitingOther.Some?
  {
    var context := w.awaitingOther.value;
    match QuestionById(questions, context.questionId)
    case None => Step(w.(awaitingOther := None), Some(Diagnosis), [Reply(m.preChatReminder, None)])
    case Some(question) =>
      if question.multiSelect then
        match WithCustomAnswer(w, context.questionId, context.optionText, text)
        case None => Step(w, None, [])
        case Some(c) =>
          var d := c.(awaitingOther := None);
          Step(d, Some(StateForQuestion(question)), RefreshEffects(d, question, m))
      else
        SendNextStep(WithSingleAnswer(w, context.questionId, text).(awaitingOther := None), chatId, false, questions, m, o)
  }

  /** Whether the session awaits a text answer to a catalog question. */
  predicate AwaitsKnownText(w: SessionValue, questions: seq<Question>) {
    w.awaitingText.Some? && w.awaitingText.value != "" && QuestionById(questions, w.awaitingText.value).Some?
  }

  /**
   * `handle_text_response`: a pending free-text variant comes first, then a
   * question that awaits text, then the chat once the report is ready;
   * otherwise the user is reminded.
   */
  function TextResponseStep(v: SessionValue, chatId: int, rawText: string, questions: seq<Question>, m: Messages, o: Outcomes): Step {
    var w := Ensured(v);
    var text := Strip(rawText);
    if w.awaitingOther.Some? then OtherTextStep(w, chatId, text, questions, m, o)
    else if AwaitsKnownText(w, questions) then
      var question := QuestionById(questions, w.awaitingText.value).value;
      SendNextStep(WithSingleAnswer(w, question.id, text).(awaitingText := None), chatId, false, questions, m, o)
    else if w.reportReady then ChatMessageStep(w, rawText, questions, m, o)
    else Step(w, Some(Diagnosis), [Reply(m.preChatReminder, None)])
  }

  /** `" ".join(part for part in [first, last] if part).strip()`. */
  function FullName(first: string, last: string): string {
    var parts := (if first != "" then [first] else []) + (if last != "" then [last] else []);
    Strip(Join(parts, " "))
  }

  /** `_build_user_metadata`: nothing without a user; no timestamp, so storing takes the clock's. */
  function UserMetadata(user: Option<TelegramUser>): (r: Metadata)
    ensures r.timestamp.None?
    ensures r.userId.Some? <==> user.Some?
    ensures user.Some? ==> r.userId == Some(user.value.id) && r.username == Some(user.value.username.GetOr(""))
    ensures user.Some? ==> r.fullName == Some(FullName(user.value.firstName.GetOr(""), user.value.lastName.GetOr("")))
    ensures user.Some? ==>
      r.fullName.Some? &&
      (r.fullName.value == [] || (!IsSpace(r.fullName.value[0]) && !IsSpace(r.fullName.value[|r.fullName.value| - 1])))
    ensures user.None? ==> r.username.None? && r.fullName.None?
  {
    match user
    case None => Metadata(None, None, None, None)
    case Some(u) =>
      Metadata(None, Some(u.id), Some(u.username.GetOr("")), Some(FullName(u.firstName.GetOr(""), u.lastName.GetOr(""))))
  }

  /**
   * The part of `handle_report_request` after the answers are stored: the
   * snapshot is analysed, rendered and sent; the report is marked ready
   * and the analysis kept only after the document was sent.
   */
  function DeliverStep(saved: SessionValue, metadata: Metadata, chatId: int, questions: seq<Question>, m: Messages, o: Outcomes): Step {
    var payload := AnalysisPayloadOf(saved, questions, m.skillLevelOptions);
    match o.analysis
    case None => Step(saved, None, [Analyze(payload)])
    case Some(analysis) =>
      var render := [Analyze(payload), RenderReport(metadata, saved, analysis)];
      if !o.rendered then Step(saved, None, render)
      else
        var sent := render + [SendDocument(chatId, m.reportDeliveryMessage)];
        if !o.delivered then Step(saved, None, sent)
        else
          Step(saved.(reportReady := true, analysis := Some(analysis), analysisPayload := Some(payload), answersSnapshot := Some(saved)),
            Some(Report), sent + [ScheduleFollowUp(chatId)])
  }

  /**
   * `handle_report_request`: once the diagnosis is complete, the answers
   * are stored the first time only, then the report is delivered. A
   * collaborator that raises stops the handler.
   */
  function ReportRequestStep(
    v: SessionValue, user: Option<TelegramUser>, chatId: int, questions: seq<Question>, m: Messages, o: Outcomes): Step
  {
    var w := Ensured(v);
    if !w.diagnosisComplete then Step(w, Some(Report), [Reply(m.preChatReminder, None)])
    else
      var metadata := UserMetadata(user);
      var store := if w.sheetsSaved then [] else [Store(metadata, w)];
      if !w.sheetsSaved && !o.stored then Step(w, None, store)
      else
        var d := DeliverStep(w.(sheetsSaved := true), metadata, chatId, questions, m, o);
        Step(d.session, d.next, store + d.effects)
  }

  /** `_send_question`, changing the session in place. */
  method SendQuestion(u: UserData, chatId: int, question: Question, m: Messages, sentId: int)
    returns (next: ConvState, effects: seq<Effect>)
    modifies u
    ensures Step(u.Value(), Some(next), effects) == SendQuestionStep(old(u.Value()), chatId, question, m, sentId)
  {
    u.EnsureUserData();
    u.awaitingText := None;
    u.awaitingOther := None;
    var keyboard: Option<Keyboard> := None;
    if question.options != [] {
      var k := QuestionOptionsKeyboard(question, SelectedKeySet(AnswersOf(u.Value()), question.id), m.multiSelectDoneButton);
      keyboard := Some(k);
    } else if question.expectsText {
      u.awaitingText := Some(question.id);
    }
    var text := FormatQuestionText(question, AnswersOf(u.Value()));
    effects := [Send(chatId, text, keyboard)];
    u.SetCurrentQuestionMessage(chatId, sentId);
    next := StateForQuestion(question);
  }

  /** `handle_questionnaire_complete`, changing the session in place. */
  method HandleQuestionnaireComplete(u: UserData, chatId: int, m: Messages) returns (next: ConvState, effects: seq<Effect>)
    modifies u
    ensures Step(u.Value(), Some(next), effects) == QuestionnaireCompleteStep(old(u.Value()), chatId, m)
  {
    u.diagnosisComplete := true;
    var keyboard := if m.reportButton.text != "" then Some(SingleButtonKeyboard(m.reportButton)) else None;
    effects := [Send(chatId, m.preReportMessage, keyboard)];
    next := Report;
  }

  /** `send_next_question`, changing the session in place. */
  method SendNextQuestion(u: UserData, chatId: int, isNew: bool, questions: seq<Question>, m: Messages, o: Outcomes)
    returns (next: ConvState, effects: seq<Effect>)
    modifies u
    ensures Step(u.Value(), Some(next), effects) == SendNextStep(old(u.Value()), chatId, isNew, questions, m, o)
  {
    u.EnsureUserData();
    var question: Option<Question>;
    if isNew {
      question := u.CurrentQuestion(questions);
    } else {
      question := u.AdvanceQuestion(questions);
    }
    if question.None? {
      next, effects := HandleQuestionnaireComplete(u, chatId, m);
    } else {
      next, effects := SendQuestion(u, chatId, question.value, m, o.sentMessageId);
    }
  }

  /** `start_command`, changing the session in place. */
  method StartCommand(u: UserData, hasMessage: bool, m: Messages) returns (next: ConvState, effects: seq<Effect>)
    modifies u
    ensures Step(u.Value(), Some(next), effects) == StartCommandStep(old(u.Value()), hasMessage, m)
  {
    u.EnsureUserData();
    u.Reset();
    effects := [];
    if hasMessage {
      effects := [Reply(m.welcomeText, Some(StartKeyboard(m)))];
    }
    next := Welcome;
  }

  /** `handle_start_button`, changing the session in place. */
  method HandleStartButton(u: UserData, m: Messages) returns (next: ConvState, effects: seq<Effect>)
    modifies u
    ensures Step(u.Value(), Some(next), effects) == StartButtonStep(old(u.Value()), m)
  {
    u.EnsureUserData();
    var keyboard := SkillLevelKeyboard(m.skillLevelOptions);
    effects := [Reply(m.skillLevelPrompt, Some(keyboard))];
    next := SkillLevel;
  }

  /** `handle_skill_selection`, changing the session in place. */
  method HandleSkillSelection(u: UserData, choice: string, m: Messages) returns (next: Option<ConvState>, effects: seq<Effect>)
    modifies u
    ensures Step(u.Value(), next, effects) == SkillSelectionStep(old(u.Value()), choice, m)
  {
    u.skillLevel := Some(choice);
    var options := m.skillLevelOptions;
    if |options| < 2 {
      return None, [];
    }
    if choice in {options[0].callbackData, options[1].callbackData} {
      return Some(Video), [Reply(m.videoMessage, Some(SingleButtonKeyboard(m.videoReadyButton)))];
    }
    return Some(Video), [Reply(m.expertSkipMessage, Some(SingleButtonKeyboard(m.diagnosisButton)))];
  }

  /** `handle_video_confirmation`, changing the session in place. */
  method HandleVideoConfirmation(u: UserData, chatId: int, questions: seq<Question>, m: Messages, o: Outcomes)
    returns (next: ConvState, effects: seq<Effect>)
    modifies u
    ensures Step(u.Value(), Some(next), effects) == VideoConfirmationStep(old(u.Value()), chatId, questions, m, o)
  {
    var rest;
    next, rest := SendNextQuestion(u, chatId, true, questions, m, o);
    effects := [Send(chatId, m.diagnosisIntro, None)] + rest;
  }

  /** The multi-select branch of `handle_question_callback`, changing the session in place. */
  method ToggleAndEdit(u: UserData, question: Question, option: AnswerOption, pressed: MessageRef, m: Messages)
    returns (next: Option<ConvState>, effects: seq<Effect>)
    modifies u
    ensures Step(u.Value(), next, effects) == MultiToggleStep(old(u.Value()), question, option, pressed, m)
  {
    u.EnsureUserData();
    var entry := u.ToggleMultiOption(question, option);
    if entry.None? {
      return None, [];
    }
    var answers := AnswersOf(u.Value());
    var keyboard := QuestionOptionsKeyboard(question, SelectedKeySet(answers, question.id), m.multiSelectDoneButton);
    var text := FormatQuestionText(question, answers);
    effects := [Edit(pressed.chatId, pressed.messageId, text, keyboard)];
    u.SetCurrentQuestionMessage(pressed.chatId, pressed.messageId);
    next := Some(StateForQuestion(question));
  }

  /** `handle_question_callback`, changing the session in place. */
  method HandleQuestionCallback(u: UserData, data: string, pressed: MessageRef, questions: seq<Question>, m: Messages, o: Outcomes)
    returns (next: Option<ConvState>, effects: seq<Effect>)
    modifies u
    ensures Step(u.Value(), next, effects) == QuestionCallbackStep(old(u.Value()), data, pressed, questions, m, o)
  {
    var parts := Split(data, '|');
    if |parts| != 3 {
      return Some(Diagnosis), [];
    }
    var question := GetQuestionById(questions, parts[1]);
    if question.None? {
      return Some(Diagnosis), [];
    }
    var q := question.value;
    if parts[2] == DoneKey {
      var s;
      s, effects := SendNextQuestion(u, pressed.chatId, false, questions, m, o);
      return Some(s), effects;
    }
    var option := FindOptionByKey(q, parts[2]);
    if option.None? {
      return Some(StateForQuestion(q)), [];
    }
    if option.value.requiresFreeText {
      u.awaitingOther := Some(OtherContext(q.id, option.value.text, q.section, q.multiSelect));
      return Some(StateForQuestion(q)), [Reply(CustomPrompt(m), None)];
    }
    if q.multiSelect {
      next, effects := ToggleAndEdit(u, q, option.value, pressed, m);
      return;
    }
    u.RecordSingleAnswer(q.id, option.value.text);
    var s;
    s, effects := SendNextQuestion(u, pressed.chatId, false, questions, m, o);
    next := Some(s);
  }

  /** `_refresh_question_message`: the edit leaves the session as it was. */
  method RefreshQuestionMessage(u: UserData, question: Question, m: Messages) returns (effects: seq<Effect>)
    modifies u
    ensures u.Value() == old(u.Value())
    ensures effects == RefreshEffects(old(u.Value()), question, m)
  {
    if u.currentMessage.None? {
      return [];
    }
    var ref := u.currentMessage.value;
    var answers := AnswersOf(u.Value());
    var keyboard := QuestionOptionsKeyboard(question, SelectedKeySet(answers, question.id), m.multiSelectDoneButton);
    var text := FormatQuestionText(question, answers);
    effects := [Edit(ref.chatId, ref.messageId, text, keyboard)];
    u.SetCurrentQuestionMessage(ref.chatId, ref.messageId);
  }

  /** `_build_analysis_payload` over a snapshot of the session. */
  method BuildAnalysisPayload(snapshot: SessionValue, questions: seq<Question>, skillOptions: seq<ButtonSpec>)
    returns (p: AnalysisPayload)
    ensures p == AnalysisPayloadOf(snapshot, questions, skillOptions)
  {
    var skill := GetSkillLevelText(snapshot.skillLevel.GetOr(""), skillOptions);
    var pairs := BuildQuestionAnswerPairs(questions, AnswersOf(snapshot));
    var byId := CollectAllAnswers(questions, AnswersOf(snapshot));
    p := AnalysisPayload(skill, snapshot.skillLevel, pairs, byId);
  }

  /** `_build_chat_payload`: recomputes the answers only when none were kept with the analysis. */
  method BuildChatPayload(u: UserData, userMessage: string, questions: seq<Question>, skillOptions: seq<ButtonSpec>)
    returns (p: ChatPayload)
    ensures p == ChatPayloadOf(u.Value(), userMessage, questions, skillOptions)
  {
    var stored := u.analysisPayload;
    var answers: seq<QAPair>;
    if stored.Some? && stored.value.answers != [] {
      answers := stored.value.answers;
    } else {
      answers := BuildQuestionAnswerPairs(questions, AnswersOf(u.Value()));
    }
    var byId: seq<Entry>;
    if stored.Some? && stored.value.answersById != [] {
      byId := stored.value.answersById;
    } else {
      byId := CollectAllAnswers(questions, AnswersOf(u.Value()));
    }
    var skill := GetSkillLevelText(u.skillLevel.GetOr(""), skillOptions);
    p := ChatPayload(u.analysis.GetOr([]), answers, byId, skill, u.chatHistory, userMessage);
  }

  /** `handle_chat_message`, changing the session in place. */
  method HandleChatMessage(u: UserData, rawText: string, questions: seq<Question>, m: Messages, o: Outcomes)
    returns (next: Option<ConvState>, effects: seq<Effect>)
    modifies u
    ensures Step(u.Value(), next, effects) == ChatMessageStep(old(u.Value()), rawText, questions, m, o)
  {
    u.EnsureUserData();
    if !u.reportReady {
      return Some(Report), [Reply(m.preChatReminder, None)];
    }
    var message := Strip(rawText);
    if message == "" {
      return Some(Chat), [Reply(m.chatFallbackMessage, None)];
    }
    u.AppendChatHistory("user", message, HistoryLimit);
    var payload := BuildChatPayload(u, message, questions, m.skillLevelOptions);
    var reply := o.chatReply;
    if reply != "" {
      u.AppendChatHistory("assistant", reply, HistoryLimit);
      effects := [AskChatReply(payload), Reply(reply, None)];
    } else {
      effects := [AskChatReply(payload), Reply(m.chatFallbackMessage, None)];
    }
    next := Some(Chat);
  }

  /** The free-text branch of `handle_text_response`, changing the session in place. */
  method AnswerOtherText(u: UserData, chatId: int, text: string, questions: seq<Question>, m: Messages, o: Outcomes)
    returns (next: Option<ConvState>, effects: seq<Effect>)
    requires u.answers.Some? && u.awaitingOther.Some?
    modifies u
    ensures old(u.Value()).awaitingOther.Some?
    ensures Step(u.Value(), next, effects) == OtherTextStep(old(u.Value()), chatId, text, questions, m, o)
  {
    var context := u.awaitingOther.value;
    var question := GetQuestionById(questions, context.questionId);
    if question.None? {
      u.awaitingOther := None;
      return Some(Diagnosis), [Reply(m.preChatReminder, None)];
    }
    if question.value.multiSelect {
      var ok := u.AppendCustomAnswer(context.questionId, context.optionText, text);
      if !ok {
        return None, [];
      }
      u.awaitingOther := None;
      effects := RefreshQuestionMessage(u, question.value, m);
      return Some(StateForQuestion(question.value)), effects;
    }
    u.RecordSingleAnswer(context.questionId, text);
    u.awaitingOther := None;
    var s;
    s, effects := SendNextQuestion(u, chatId, false, questions, m, o);
    next := Some(s);
  }

  /** `handle_text_response`, changing the session in place. */
  method HandleTextResponse(u: UserData, chatId: int, rawText: string, questions: seq<Question>, m: Messages, o: Outcomes)
    returns (next: Option<ConvState>, effects: seq<Effect>)
    modifies u
    ensures Step(u.Value(), next, effects) == TextResponseStep(old(u.Value()), chatId, rawText, questions, m, o)
  {
    u.EnsureUserData();
    var text := Strip(rawText);
    if u.awaitingOther.Some? {
      next, effects := AnswerOtherText(u, chatId, text, questions, m, o);
      return;
    }
    var awaited := u.awaitingText;
    if awaited.Some? && awaited.value != "" {
      var question := GetQuestionById(questions, awaited.value);
      if question.Some? {
        u.RecordSingleAnswer(question.value.id, text);
        u.awaitingText := None;
        var s;
        s, effects := SendNextQuestion(u, chatId, false, questions, m, o);
        return Some(s), effects;
      }
    }
    if u.reportReady {
      next, effects := HandleChatMessage(u, rawText, questions, m, o);
      return;
    }
    return Some(Diagnosis), [Reply(m.preChatReminder, None)];
  }

  /** The delivery part of `handle_report_request`, changing the session in place. */
  method DeliverReport(u: UserData, metadata: Metadata, chatId: int, questions: seq<Question>, m: Messages, o: Outcomes)
    returns (next: Option<ConvState>, effects: seq<Effect>)
    modifies u
    ensures Step(u.Value(), next, effects) == DeliverStep(old(u.Value()), metadata, chatId, questions, m, o)
  {
    var snapshot := u.Value();
    var payload := BuildAnalysisPayload(snapshot, questions, m.skillLevelOptions);
    effects := [Analyze(payload)];
    if o.analysis.None? {
      return None, effects;
    }
    var analysis := o.analysis.value;
    effects := effects + [RenderReport(metadata, snapshot, analysis)];
    if !o.rendered {
      return None, effects;
    }
    effects := effects + [SendDocument(chatId, m.reportDeliveryMessage)];
    if !o.delivered {
      return None, effects;
    }
    u.reportReady := true;
    u.analysis := Some(analysis);
    u.analysisPayload := Some(payload);
    u.answersSnapshot := Some(snapshot);
    effects := effects + [ScheduleFollowUp(chatId)];
    next := Some(Report);
  }

  /** `handle_report_request`, changing the session in place. */
  method HandleReportRequest(u: UserData, user: Option<TelegramUser>, chatId: int, questions: seq<Question>, m: Messages, o: Outcomes)
    returns (next: Option<ConvState>, effects: seq<Effect>)
    modifies u
    ensures Step(u.Value(), next, effects) == ReportRequestStep(old(u.Value()), user, chatId, questions, m, o)
  {
    u.EnsureUserData();
    if !u.diagnosisComplete {
      return Some(Report), [Reply(m.preChatReminder, None)];
    }
    var metadata := UserMetadata(user);
    var store: seq<Effect> := [];
    if !u.sheetsSaved {
      store := [Store(metadata, u.Value())];
      if !o.stored {
        return None, store;
      }
      u.sheetsSaved := true;
    }
    var delivered;
    next, delivered := DeliverReport(u, metadata, chatId, questions, m, o);
    effects := store + delivered;
  }
}
