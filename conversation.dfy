/**
 * The conversation routing of `build_application` in bot/handlers.py:
 * which handler an update reaches in each state. `/start` is accepted in
 * every state (entry point, fallback and re-entry); every other update
 * reaches a handler only when the current state lists one that matches it,
 * and is dropped otherwise. A handler that raises leaves the state as it
 * was.
 */
module Conversation {
  import opened Wrappers
  import opened PyText
  import opened Questions
  import opened Utils
  import opened Session
  import opened Keyboards
  import opened Handlers

  /** An update: the `/start` command, a button press, or a text message that is not a command. */
  datatype Event =
    | Start(hasMessage: bool)
    | Press(data: string, pressed: MessageRef, user: Option<TelegramUser>)
    | Text(chatId: int, text: string)

  /** Where the conversation is after an update (`None` before it started), the session, and the effects. */
  datatype Turn = Turn(state: Option<ConvState>, session: SessionValue, effects: seq<Effect>)

  /** The button data of the video state: `^(video_ready|start_diagnosis)$`. */
  predicate IsVideoData(data: string) {
    data == "video_ready" || data == "start_diagnosis"
  }

  /** The state a handler's step leaves the conversation in. */
  function After(state: Option<ConvState>, s: Step): (t: Turn)
    ensures s.next.Some? ==> t.state == s.next
    ensures s.next.None? ==> t.state == state
    ensures t.session == s.session && t.effects == s.effects
  {
    Turn(if s.next.Some? then s.next else state, s.session, s.effects)
  }

  /** The update was not routed to any handler. */
  function Dropped(state: Option<ConvState>, v: SessionValue): Turn {
    Turn(state, v, [])
  }

  /** The handlers of a button press, as `build_application` registers them. */
  function PressTurn(
    state: Option<ConvState>, v: SessionValue, data: string, pressed: MessageRef, user: Option<TelegramUser>,
    questions: seq<Question>, m: Messages, o: Outcomes): Turn
  {
    match state
    case Some(Welcome) =>
      if data == "start_intro" then After(state, StartButtonStep(v, m)) else Dropped(state, v)
    case Some(SkillLevel) =>
      if |data| >= 12 && data[..12] == "skill_level_" then After(state, SkillSelectionStep(v, data, m)) else Dropped(state, v)
    case Some(Video) =>
      if IsVideoData(data) then After(state, VideoConfirmationStep(v, pressed.chatId, questions, m, o)) else Dropped(state, v)
    case Some(Diagnosis) =>
      if |data| >= 2 && data[..2] == "q|" then After(state, QuestionCallbackStep(v, data, pressed, questions, m, o)) else Dropped(state, v)
    case Some(Readiness) =>
      if |data| >= 2 && data[..2] == "q|" then After(state, QuestionCallbackStep(v, data, pressed, questions, m, o)) else Dropped(state, v)
    case Some(Report) =>
      if data == "generate_report" then After(state, ReportRequestStep(v, user, pressed.chatId, questions, m, o)) else Dropped(state, v)
    case _ => Dropped(state, v)
  }

  /**
   * The routing as written: text reaches `handle_text_response` in the
   * diagnosis and readiness states and `handle_chat_message` in the chat
   * state, and is dropped everywhere else, the report state included.
   */
  function Dispatch(state: Option<ConvState>, v: SessionValue, event: Event, questions: seq<Question>, m: Messages, o: Outcomes): (t: Turn)
    ensures event.Start? ==> t.state == Some(Welcome) && t.session == Fresh
    ensures event.Text? && state != Some(Diagnosis) && state != Some(Readiness) && state != Some(Chat) ==>
      t == Turn(state, v, [])
    ensures event.Press? && (state.None? || state == Some(Chat)) ==> t == Turn(state, v, [])
  {
    match event
    case Start(hasMessage) => After(state, StartCommandStep(v, hasMessage, m))
    case Press(data, pressed, user) => PressTurn(state, v, data, pressed, user, questions, m, o)
    case Text(chatId, text) =>
      if state == Some(Diagnosis) || state == Some(Readiness) then After(state, TextResponseStep(v, chatId, text, questions, m, o))
      else if state == Some(Chat) then After(state, ChatMessageStep(v, text, questions, m, o))
      else Dropped(state, v)
  }

  /**
   * The routing with text also handled in the report state, which is how
   * the report-ready chat is reached.
   */
  function IntendedDispatch(state: Option<ConvState>, v: SessionValue, event: Event, questions: seq<Question>, m: Messages, o: Outcomes): (t: Turn)
    ensures !(event.Text? && state == Some(Report)) ==> t == Dispatch(state, v, event, questions, m, o)
    ensures event.Text? && state == Some(Report) && !Ensured(v).reportReady ==>
      t.state == Some(Report) && t.session == Ensured(v)
  {
    match event
    case Text(chatId, text) =>
      if state == Some(Report) then After(state, ChatMessageStep(v, text, questions, m, o))
      else Dispatch(state, v, event, questions, m, o)
    case _ => Dispatch(state, v, event, questions, m, o)
  }

  /** `/start` resets the session and welcomes the user from any state. */
  lemma StartResetsFromAnywhere(state: Option<ConvState>, v: SessionValue, hasMessage: bool, questions: seq<Question>, m: Messages, o: Outcomes)
    ensures var t := IntendedDispatch(state, v, Start(hasMessage), questions, m, o);
      t.state == Some(Welcome) && t.session == Fresh
  {
  }

  /**
   * What the routing as written keeps true from the first update on: the
   * chat state is never entered, and a ready report means the
   * conversation sits in the report state.
   */
  predicate ChatUnreached(state: Option<ConvState>, v: SessionValue) {
    state != Some(Chat) && (v.reportReady ==> state == Some(Report))
  }

  /** Before the first update nothing is set. */
  lemma ChatUnreachedInitially()
    ensures ChatUnreached(None, Empty)
  {
  }

  /** A question step never makes the report ready and never goes to the chat. */
  lemma SendNextKeepsReportFlag(v: SessionValue, chatId: int, isNew: bool, questions: seq<Question>, m: Messages, o: Outcomes)
    ensures var s := SendNextStep(v, chatId, isNew, questions, m, o);
      s.session.reportReady == Ensured(v).reportReady && s.next.Some? && s.next != Some(Chat)
  {
  }

  /** A button press, as written, never enters the chat and makes the report ready only in the report state. */
  lemma PressKeepsChatUnreached(
    state: Option<ConvState>, v: SessionValue, data: string, pressed: MessageRef, user: Option<TelegramUser>,
    questions: seq<Question>, m: Messages, o: Outcomes)
    requires ChatUnreached(state, v)
    ensures var t := PressTurn(state, v, data, pressed, user, questions, m, o); ChatUnreached(t.state, t.session)
  {
    match state
    case Some(Video) =>
      SendNextKeepsReportFlag(v, pressed.chatId, true, questions, m, o);
    case Some(Diagnosis) =>
      PressInQuestionState(state, v, data, pressed, questions, m, o);
    case Some(Readiness) =>
      PressInQuestionState(state, v, data, pressed, questions, m, o);
    case Some(Report) =>
      ReportRequestStaysInReport(v, user, pressed.chatId, questions, m, o);
    case _ =>
  }

  /** Asking for the report leaves the conversation in the report state, whether or not it raises. */
  lemma ReportRequestStaysInReport(v: SessionValue, user: Option<TelegramUser>, chatId: int, questions: seq<Question>, m: Messages, o: Outcomes)
    ensures ReportRequestStep(v, user, chatId, questions, m, o).next in {None, Some(Report)}
  {
  }

  /** An option press in a question state never enters the chat nor makes the report ready. */
  lemma PressInQuestionState(
    state: Option<ConvState>, v: SessionValue, data: string, pressed: MessageRef, questions: seq<Question>, m: Messages, o: Outcomes)
    requires !v.reportReady
    ensures var s := QuestionCallbackStep(v, data, pressed, questions, m, o);
      !s.session.reportReady && s.next != Some(Chat)
  {
    var parts := Split(data, '|');
    if |parts| == 3 && QuestionById(questions, parts[1]).Some? {
      var question := QuestionById(questions, parts[1]).value;
      if parts[2] == DoneKey {
        SendNextKeepsReportFlag(v, pressed.chatId, false, questions, m, o);
      } else if OptionByKey(question, parts[2]).Some? {
        var option := OptionByKey(question, parts[2]).value;
        if !option.requiresFreeText && !question.multiSelect {
          SendNextKeepsReportFlag(WithSingleAnswer(v, question.id, option.text), pressed.chatId, false, questions, m, o);
        }
      }
    }
  }

  /** Text in a question state without a ready report never enters the chat nor makes the report ready. */
  lemma TextInQuestionState(v: SessionValue, chatId: int, text: string, questions: seq<Question>, m: Messages, o: Outcomes)
    requires !v.reportReady
    ensures var s := TextResponseStep(v, chatId, text, questions, m, o);
      !s.session.reportReady && s.next != Some(Chat)
  {
    var w := Ensured(v);
    var stripped := Strip(text);
    if w.awaitingOther.Some? {
      var context := w.awaitingOther.value;
      if QuestionById(questions, context.questionId).Some? && !QuestionById(questions, context.questionId).value.multiSelect {
        SendNextKeepsReportFlag(WithSingleAnswer(w, context.questionId, stripped).(awaitingOther := None), chatId, false, questions, m, o);
      }
    } else if AwaitsKnownText(w, questions) {
      var question := QuestionById(questions, w.awaitingText.value).value;
      SendNextKeepsReportFlag(WithSingleAnswer(w, question.id, stripped).(awaitingText := None), chatId, false, questions, m, o);
    }
  }

  /**
   * As written, no sequence of updates reaches the chat: every update
   * keeps `ChatUnreached`, whatever the collaborators return.
   */
  lemma ChatIsUnreachableAsWritten(state: Option<ConvState>, v: SessionValue, event: Event, questions: seq<Question>, m: Messages, o: Outcomes)
    requires ChatUnreached(state, v)
    ensures var t := Dispatch(state, v, event, questions, m, o); ChatUnreached(t.state, t.session)
  {
    match event
    case Start(_) =>
    case Press(data, pressed, user) =>
      PressKeepsChatUnreached(state, v, data, pressed, user, questions, m, o);
    case Text(chatId, text) =>
      if state == Some(Diagnosis) || state == Some(Readiness) {
        TextInQuestionState(v, chatId, text, questions, m, o);
      }
  }

  /** As written, a question after the report is silently dropped. */
  lemma ReportTextIsDropped(v: SessionValue, chatId: int, text: string, questions: seq<Question>, m: Messages, o: Outcomes)
    ensures Dispatch(Some(Report), v, Text(chatId, text), questions, m, o) == Turn(Some(Report), v, [])
  {
  }

  /**
   * With text routed in the report state, a question asked after the
   * report is answered and the conversation moves to the chat, the
   * exchange recorded in the bounded history.
   */
  lemma ReportTextReachesChat(v: SessionValue, chatId: int, text: string, questions: seq<Question>, m: Messages, o: Outcomes)
    requires Ensured(v).reportReady && Strip(text) != ""
    requires |Ensured(v).chatHistory| <= HistoryLimit
    ensures var t := IntendedDispatch(Some(Report), v, Text(chatId, text), questions, m, o);
      t.state == Some(Chat) && |t.session.chatHistory| <= HistoryLimit && t.session.chatHistory != [] &&
      |t.effects| == 2 && t.effects[0].AskChatReply? && t.effects[0].request.userMessage == Strip(text)
  {
    var w := Ensured(v);
    var asked := AppendHistory(w.chatHistory, ChatEntry("user", Strip(text)), HistoryLimit);
    HistoryStaysBounded(w.chatHistory, ChatEntry("user", Strip(text)), HistoryLimit);
    if o.chatReply != "" {
      HistoryStaysBounded(asked, ChatEntry("assistant", o.chatReply), HistoryLimit);
    }
  }

  /**
   * `ConversationHandler` as the bot would need it: the update is routed
   * by `IntendedDispatch` and handled by the handler methods, which change
   * the user's session in place.
   */
  method ProcessUpdate(
    u: UserData, state: Option<ConvState>, event: Event, questions: seq<Question>, m: Messages, o: Outcomes)
    returns (newState: Option<ConvState>, effects: seq<Effect>)
    modifies u
    ensures Turn(newState, u.Value(), effects) == IntendedDispatch(state, old(u.Value()), event, questions, m, o)
  {
    var next: Option<ConvState> := None;
    effects := [];
    match event {
      case Start(hasMessage) =>
        var s;
        s, effects := Handlers.StartCommand(u, hasMessage, m);
        next := Some(s);
      case Press(data, pressed, user) =>
        next, effects := RoutePress(u, state, data, pressed, user, questions, m, o);
      case Text(chatId, text) =>
        if state == Some(Diagnosis) || state == Some(Readiness) {
          next, effects := HandleTextResponse(u, chatId, text, questions, m, o);
        } else if state == Some(Chat) || state == Some(Report) {
          next, effects := HandleChatMessage(u, text, questions, m, o);
        }
    }
    newState := if next.Some? then next else state;
  }

  /** The button-press handlers of `ProcessUpdate`. */
  method RoutePress(
    u: UserData, state: Option<ConvState>, data: string, pressed: MessageRef, user: Option<TelegramUser>,
    questions: seq<Question>, m: Messages, o: Outcomes)
    returns (next: Option<ConvState>, effects: seq<Effect>)
    modifies u
    ensures After(state, Step(u.Value(), next, effects)) == PressTurn(state, old(u.Value()), data, pressed, user, questions, m, o)
  {
    next, effects := None, [];
    var s: ConvState;
    if state == Some(Welcome) && data == "start_intro" {
      s, effects := HandleStartButton(u, m);
      next := Some(s);
    } else if state == Some(SkillLevel) && |data| >= 12 && data[..12] == "skill_level_" {
      next, effects := HandleSkillSelection(u, data, m);
    } else if state == Some(Video) && IsVideoData(data) {
      s, effects := HandleVideoConfirmation(u, pressed.chatId, questions, m, o);
      next := Some(s);
    } else if (state == Some(Diagnosis) || state == Some(Readiness)) && |data| >= 2 && data[..2] == "q|" {
      next, effects := HandleQuestionCallback(u, data, pressed, questions, m, o);
    } else if state == Some(Report) && data == "generate_report" {
      next, effects := HandleReportRequest(u, user, pressed.chatId, questions, m, o);
    }
  }
}
