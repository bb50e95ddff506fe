# Diagnostic bot questionnaire engine, in Dafny

This project models the core of a Telegram bot that takes a user through a
diagnostic questionnaire, stores the answers, and delivers an AI-generated
report. After the report, the user can chat about the results. The model covers:

- **The session store** (`bot/utils.py`). Each user's `user_data` dict is
  the class `Session.UserData`. Its methods reset the session, move the
  question cursor, record single answers, toggle multi-select options,
  append free-text variants and keep a bounded chat history. Each method is
  proved equal to a function on the immutable `Session.SessionValue`.
  The read-only helpers are in `Utils` and `Markdown`. They look up
  questions and options, render stored answers, and strip markdown.
- **The handlers** (`bot/handlers.py`). Each handler is a function from the
  old session to a `Handlers.Step`. A step holds the new session, the next
  conversation state (`None` when the handler raises) and the requests made
  of Telegram and the services (`Handlers.Effect`). A method that updates
  `UserData` in place, as the handler does, is proved to agree with that
  function. `HandlerProperties` proves the behaviour the bot relies on.
  That covers callback parsing, awaiting markers, the cursor, the card text,
  the report gates and the chat gates.
- **The routing** of `build_application` (`Conversation`). It decides which
  handler an update reaches in each state. See "Findings".
- **Keyboards and callback data** (`bot/keyboards.py`). Option buttons are
  encoded as `q|<id>|<key>`, and the handler splits that back into its parts.
- **The collaborator payloads**:
  - `services/sheets_service.py`: the stored payload and row, the Apps Script
    response decision, and the choice between the two stores;
  - `services/openai_service.py`: normalising the analysis object and the
    fallbacks to the default analysis.
- **The webhook entry point** (`api/webhook.py`). It covers the secret-header
  check, the status routing (RFC 9110 sections 15.3.1, 15.5.1, 15.5.4 and
  15.6.1), and the Lambda and HTTP request shapes.

Some inputs are not modelled and become parameters:

- The question catalog (`bot/questions.py`) is `seq<Question>`.
- The message constants (`bot/messages.py`) are a `Messages` record.
- What the collaborators return is `Handlers.Outcomes` or `Webhook.Runtime`.
  That covers the id of a sent message, whether a store, render or send
  raised, the analysis, the chat reply, JSON and base64 decoding, and the
  clock.

## Model

| member | source | states |
|---|---|---|
| Session.Ensured | bot/utils.py:34-37 | the result always has answers; a session that has answers is returned untouched and one without them becomes exactly the reset session, so ensuring twice equals ensuring once |
| Session.UserData.constructor | bot/utils.py:34-37 | a new `user_data` holds no key at all (the state `ensure_user_data` resets) |
| Session.UserData.Reset | bot/utils.py:23-31 | afterwards the session is exactly: no answers, cursor 0, the three flags false, empty history; awaiting markers, skill level, current message and stored analysis are gone |
| Session.UserData.EnsureUserData | bot/utils.py:34-37 | the session becomes `Ensured` of the old one |
| Utils.CurrentQuestion | bot/utils.py:44-49 | a question is returned exactly when 0 <= index < len, and then it is `questions[index]` |
| Session.UserData.CurrentQuestion | bot/utils.py:44-49 | reads only; a question exactly when the stored cursor is in range, and then the one under it |
| Session.UserData.AdvanceQuestion | bot/utils.py:52-58 | the cursor grows by exactly one with no guard and nothing else changes; the question at the new index is returned exactly when it is in range |
| Session.WithSingleAnswer | bot/utils.py:97-99 | the question's answer becomes the scalar; every other answer and every other session field is unchanged |
| Session.UserData.RecordSingleAnswer | bot/utils.py:97-99 | the session becomes `WithSingleAnswer` of the old one |
| Session.FirstIndex | bot/utils.py:76-77 | the position of the first occurrence of the key, or the length when it is absent |
| Session.RemoveFirst | bot/utils.py:77 | `list.remove`: one element shorter, and the multiset loses exactly one copy of the key |
| Session.ToggleKey | bot/utils.py:76-80 | an absent key is appended at the end; a present key loses one occurrence |
| Session.ToggleFlipsMembership | bot/utils.py:76-80 | on a duplicate-free selection, toggling keeps it duplicate-free, flips the key's membership and keeps every other key's |
| Session.RemovingKeepsOthers | bot/utils.py:77 | removing a present key from a duplicate-free selection leaves it out and keeps every other key |
| Session.ToggleTwiceRestoresAbsentKey | bot/utils.py:76-80 | toggling a key that was not selected twice restores the selection exactly, order included |
| Session.ToggleTwiceKeepsKeys | bot/utils.py:76-80 | toggling a selected key twice restores the same keys, but the key moves to the end |
| Session.ToggleTwiceCanReorder | bot/utils.py:76-80 | the selection `[a, b]` toggled twice on `a` becomes `[b, a]` |
| Session.WithToggledOption | bot/utils.py:70-82 | succeeds exactly when the question has no answer or a multi-select one; then the selection becomes the old selection with the key toggled, the custom entries are kept, and every other answer and session field is unchanged |
| Session.ToggledOptionFlipsKey | bot/utils.py:70-82 | after toggling, the stored selection is duplicate-free, holds the key exactly when it did not, and keeps every other key |
| Session.UserData.ToggleMultiOption | bot/utils.py:70-82 | the session becomes the toggled session and the entry is returned; a scalar answer leaves everything but the answers map unchanged |
| Session.WithCustomAnswer | bot/utils.py:90-94 | succeeds exactly when the question's answer is absent or multi-select; the entry then keeps its selection and gains `{option, value}` after its old custom entries (a fresh entry is `{selected: [], custom: [that one]}`); every other answer and field is unchanged |
| Session.CustomAnswerIsRenderedLast | bot/utils.py:90-94 | after appending a non-empty variant, the rendered answer's last line is `option: value` |
| Session.CustomLinesAppend | bot/utils.py:90-94 | appending one filled custom entry appends exactly one rendered line |
| Session.UserData.AppendCustomAnswer | bot/utils.py:90-94 | the session becomes `WithCustomAnswer` of the old one, and the method reports whether it applied |
| Session.RecordedAnswerIsRendered | bot/utils.py:97-99 | a recorded scalar renders as itself |
| Session.UserData.SetCurrentQuestionMessage | bot/utils.py:102-103 | only the current-message reference changes |
| Session.AppendHistory | bot/utils.py:196-200 | the result is the old history plus the new entry, cut to its last `limit` entries (evicting the oldest first); its length is min(len + 1, limit) |
| Session.HistoryEndsWithNewEntry | bot/utils.py:196-200 | with a positive limit, the last entry is the new one |
| Session.HistoryStaysBounded | bot/utils.py:196-200 | a history within the limit stays within it |
| Session.UserData.AppendChatHistory | bot/utils.py:196-200 | only the chat history changes, to `AppendHistory` of the old one |
| Utils.QuestionById | bot/utils.py:116-120 | `None` exactly when no question has the id; otherwise a catalog question with that id |
| Seqs.FirstWith | bot/utils.py:116-120 | the first position whose key matches, or the length when none does: every earlier element has another key (the search of `get_question_by_id`, `_find_option` and dict lookup) |
| Utils.GetQuestionById | bot/utils.py:116-120 | the loop returns `QuestionById` |
| Utils.LookupFindsCatalogQuestion | bot/utils.py:116-120 | with distinct ids, looking up a catalog question's id finds that question |
| Utils.OptionByKey | bot/utils.py:164-170 | `None` exactly when no option has the key (an option-less question included); otherwise an option of the question with that key |
| Utils.FindOptionByKey | bot/utils.py:164-170 | the loop returns `OptionByKey` |
| Utils.SkillLevelText | bot/utils.py:123-128 | the text of the first skill option whose key matches, and "" when none does |
| Utils.GetSkillLevelText | bot/utils.py:123-128 | the loop returns `SkillLevelText` |
| Utils.SelectedTexts | bot/utils.py:138-142 | at most one text per selected key |
| Utils.SelectedTextsOfKnownKeys | bot/utils.py:138-142 | when every key names an option, the i-th text is that option's text, in selection order |
| Utils.SelectedTextsAppend | bot/utils.py:138-142 | rendering distributes over concatenation of selections |
| Utils.CustomLine | bot/utils.py:143-148 | at most one line per custom entry |
| Utils.CustomLines | bot/utils.py:143-148 | at most one line per custom entry, in order |
| Utils.CustomLinesOfFilledEntries | bot/utils.py:143-148 | when every value is non-empty, line i is `option: value` of entry i |
| Utils.RenderedAnswer | bot/utils.py:131-154 | a missing answer renders as ""; a scalar as itself; a list as its items joined by newlines; a multi-select entry as the texts of its known selected keys, then the `option: value` lines of its filled custom entries, joined by newlines |
| Utils.RenderedItemsSplitBack | bot/utils.py:151-152 | a non-empty list whose items hold no newline renders as one line per item: splitting at the newlines gives the items back |
| Utils.RenderedMultiSplitBack | bot/utils.py:137-149 | a multi-select answer renders as one line per known selected key and then one per filled custom entry: splitting at the newlines gives those lines back |
| Utils.SelectedOptionTexts | bot/utils.py:138-142 | the loop returns `SelectedTexts` |
| Utils.FilledCustomLines | bot/utils.py:143-148 | the loop returns `CustomLines` |
| Utils.FormatQuestionAnswer | bot/utils.py:131-154 | the method returns `RenderedAnswer` |
| Utils.Put | bot/utils.py:160 | dict assignment: an existing key keeps its position and takes the new value; a new key is appended |
| Utils.CollectAllAnswers | bot/utils.py:157-161 | the loop returns `AnswersById` |
| Utils.AnswersByIdInOrder | bot/utils.py:157-161 | with distinct ids, one entry per catalog question, in catalog order, holding its rendered answer |
| Utils.LookupCollectedAnswer | bot/utils.py:157-161 | looking up a catalog id in the collected answers gives its rendered answer |
| Utils.QuestionAnswerPairs | bot/utils.py:173-183 | exactly one pair per catalog question |
| Utils.BuildQuestionAnswerPairs | bot/utils.py:173-183 | the loop returns `QuestionAnswerPairs` |
| Utils.QuestionAnswerPairsInOrder | bot/utils.py:173-183 | pair i is {id, strip_markdown(text), rendered answer} of question i |
| Markdown.StripQuoteMarkers | bot/utils.py:187 | removing the line-start `>` markers and the whitespace after them never grows the text nor adds a character, and text without `>` is unchanged |
| Markdown.StripMarkdown | bot/utils.py:186-193 | the result has no `*`, backquote or `_`, no whitespace at either end, no two adjacent whitespace characters, and no whitespace other than a plain space |
| Markdown.RemoveChar | bot/utils.py:188-191 | the character no longer occurs, and the text does not grow |
| Markdown.RemoveCharMembership | bot/utils.py:188-191 | a character survives exactly when it is not the removed one and occurred before |
| Markdown.DoubleStarPassIsSubsumed | bot/utils.py:188-189 | removing "**" and then "*" equals removing "*" alone |
| Markdown.CollapseSpaces | bot/utils.py:192 | no two adjacent whitespace characters, and all whitespace is a plain space |
| Markdown.CollapseSpacesMembership | bot/utils.py:192 | non-whitespace characters are neither added nor lost |
| Markdown.MarkdownPassesInOrder | bot/utils.py:186-193 | the passes run in the source's order |
| Markdown.PassesShape | bot/utils.py:187-192 | before the final `strip`, the passes leave no `*`, backquote or `_`, no two adjacent whitespace characters, and only plain spaces |
| Markdown.StripKeepsShape | bot/utils.py:193 | the final `strip` keeps those properties |
| Markdown.SliceKeepsShape | bot/utils.py:193 | any slice keeps those properties |
| Markdown.StripMarkdownNotIdempotent | bot/utils.py:186-193 | `>>a` gives `>a`, which gives `a` |
| Markdown.CleanTextUnchanged | bot/utils.py:186-193 | text without markdown characters or whitespace passes every step unchanged |
| PyText.Strip | bot/utils.py:193 | `str.strip`: the result has no outer whitespace, is the input minus leading and trailing whitespace, and is empty exactly when the input is all whitespace |
| PyText.StripKeepsTrimmed | bot/handlers.py:392 | stripping text with no outer whitespace changes nothing |
| PyText.Split | bot/handlers.py:285 | `str.split(sep)` gives at least one part |
| PyText.JoinSplit | bot/handlers.py:285 | joining the parts of a split with the separator gives back the text |
| PyText.SplitWithoutSeparator | bot/handlers.py:285 | text without the separator splits into itself |
| PyText.SplitAtFirstSeparator | bot/handlers.py:285 | the split of `a + sep + b` is `a` followed by the split of `b` |
| PyText.SplitJoin | bot/utils.py:149 | `sep.join(parts).split(sep) == parts` for a non-empty list of parts that hold no separator |
| PyText.AsciiCase | api/webhook.py:131 | same length; no letter of the other case is left; each character is kept or is its ASCII counterpart (32 code points apart) |
| PyText.AsciiCaseIdempotent | api/webhook.py:203 | mapping the case twice equals mapping it once |
| Keyboards.DisplayOptionText | bot/keyboards.py:67-70 | the button text is the option's text whatever the selection |
| Keyboards.QuestionOptionsKeyboard | bot/keyboards.py:36-64 | the loop returns `QuestionKeyboard` |
| Keyboards.QuestionKeyboardRows | bot/keyboards.py:36-64 | one single-button row per option, in option order, carrying `q|id|key`, plus exactly one trailing `q|id|done` row when multi-select |
| Keyboards.KeyboardIgnoresSelection | bot/keyboards.py:40 | the keyboard does not depend on the selected keys |
| Keyboards.OptionCallbackRoundTrip | bot/keyboards.py:49 | for an id and key without `|`, splitting the callback gives exactly `["q", id, key]` |
| Keyboards.SingleButtonKeyboard | bot/keyboards.py:31-33 | exactly one row with one button carrying the given data and text |
| Keyboards.SkillRows | bot/keyboards.py:18-24 | at most one row per skill option, each a single callback button with non-empty text |
| Keyboards.SkillLevelKeyboard | bot/keyboards.py:18-24 | the loop returns `SkillRows` |
| Keyboards.SkillButtonsComeFromOptions | bot/keyboards.py:18-24 | every button is the button of some skill option |
| Keyboards.SkillRowsKeepAllNamedOptions | bot/keyboards.py:18-24 | when every option has text, row i is option i's button, in order |
| Keyboards.SkillRowsAppend | bot/keyboards.py:18-24 | the rows of two option lists are the rows of the first followed by the rows of the second |
| Keyboards.SkillRowsSkipUnnamed | bot/keyboards.py:20-21 | an option with empty text contributes no row: removing it leaves the rows unchanged |
| Keyboards.ConsultationKeyboard | bot/keyboards.py:73-78 | `None` exactly when the URL is blank; otherwise one URL button with the stripped URL |
| Sheets.MetaOf | services/sheets_service.py:42-66 | the metadata's timestamp when present and non-empty, otherwise the clock's; the user id as given; username and full name as given, or "" when absent; the skill level is the chosen option's text |
| Sheets.PayloadOf | services/sheets_service.py:41-72 | one detailed answer per catalog question |
| Sheets.BuildPayload | services/sheets_service.py:41-72 | the loop returns `PayloadOf` |
| Sheets.DetailsInOrder | services/sheets_service.py:49-58 | item i is {id, markdown text, plain text, answer or ""} of question i |
| Sheets.DetailCarriesRenderedAnswer | services/sheets_service.py:46-58 | with distinct ids, item i's answer is question i's rendered answer |
| Sheets.MetaColumns | services/sheets_service.py:127-133 | exactly five columns in this order: timestamp, `str(user_id)` or "" when absent, username, full name, skill level |
| Sheets.RowOf | services/sheets_service.py:123-138 | the row has 5 + catalog-size columns |
| Sheets.BuildRow | services/sheets_service.py:123-138 | the loop returns `RowOf` |
| Sheets.RowColumnIsRenderedAnswer | services/sheets_service.py:135-136 | column 5 + i holds question i's rendered answer |
| Sheets.PostToGasOutcome | services/sheets_service.py:75-98 | a URL error or a status other than 200 gives False; an empty 200 body gives True; a 200 body that is not JSON gives True; a JSON dict gives False exactly when it holds a falsy `ok`; the call raises exactly for a 200 body that is not UTF-8 or parses to a non-dict |
| Sheets.StoreAnswers | services/sheets_service.py:25-38 | posts when an endpoint is configured, and appends the row only when the post did not succeed and both credentials and sheet id are set |
| Values.DictGet | services/openai_service.py:160 | `d.get(key)`: `None` exactly when no pair has the key; otherwise the value of a pair with that key |
| Values.Truthy | services/sheets_service.py:95 | `bool(v)` is false exactly for `None`, `False`, `0` and the empty text, list and dict |
| Values.PyStr | services/openai_service.py:164 | `str(v)`: a string is itself, `None` and the booleans show their names, a list shows `[...]` and a dict `{...}` |
| Values.QuoteFor | services/openai_service.py:170 | `repr` quotes with `"` exactly when the text holds `'` and no `"`, otherwise with `'` |
| Values.StrRepr | services/openai_service.py:170 | `repr(s)`: opens and closes with the chosen quote, and no control character is left unescaped |
| Values.EscapeRoundTrip | services/openai_service.py:170 | the escaped body reads back as the original text |
| Values.StrReprRoundTrip | services/openai_service.py:170 | the text between the quotes of `repr(s)` reads back as `s` |
| Values.PlainStrRepr | services/openai_service.py:170 | text without quotes, backslashes or control characters shows as itself between single quotes |
| Values.ReprSwitchesQuotes | services/openai_service.py:170 | `repr("it's")` is `"it's"` between double quotes |
| Values.ReprEscapesNewline | services/openai_service.py:170 | a newline in the text is written as `\n` |
| Values.ListShowsItemRepr | services/openai_service.py:164 | `str` of a list holding "it's" shows that item between double quotes |
| Analysis.StrItems | services/openai_service.py:169-170 | at most one string per item |
| Analysis.StrItemsAppend | services/openai_service.py:170 | the strings of two item lists are the strings of the first followed by those of the second |
| Analysis.StrItemsSkipsNone | services/openai_service.py:170 | a `None` item contributes nothing: removing it leaves the result unchanged |
| Analysis.StrItemsWithoutNone | services/openai_service.py:169-170 | without `None` items, item i becomes `str(item i)`, in order; with `StrItemsAppend` and `StrItemsSkipsNone`: `None` items are dropped and every other item is kept, in order |
| Analysis.EnsureListOfStrings | services/openai_service.py:168-173 | a non-empty string gives `[value]`, an empty one `[]`, any non-list non-string `[]` |
| Analysis.MergedField | services/openai_service.py:159-164 | a key missing from the parsed object keeps its default entry; a present key gives a text field `""` for `None` and `str(value)` otherwise, and a list field `_ensure_list_of_strings(value)` |
| Analysis.DefaultItemsKept | services/openai_service.py:168-170 | a list of strings passes `_ensure_list_of_strings` unchanged |
| Analysis.MergeWithDefault | services/openai_service.py:157-165 | the result has exactly the default keys and shapes, each field merged from the parsed value |
| Analysis.MissingKeyKeepsDefault | services/openai_service.py:160 | a key missing from the parsed object keeps its default |
| Analysis.AsDict | services/openai_service.py:157-165 | the analysis as a dict, key by key in order |
| Analysis.DefaultKeysDistinct | services/openai_service.py:158 | the default analysis has distinct keys |
| Analysis.MergeOfMergedIsIdentity | services/openai_service.py:157-165 | merging an already merged analysis changes nothing |
| Analysis.AnalyzeAnswers | services/openai_service.py:71-105 | a configuration error, a failed call, empty output or undecodable JSON give the default analysis; otherwise the merge of the parsed dict; every result has the default shape |
| Analysis.GenerateChatReply | services/openai_service.py:108-131 | the reply has no outer whitespace, and is empty exactly on a configuration error, a failed call or all-whitespace output |
| Handlers.StateForQuestion | bot/handlers.py:273-278 | DIAGNOSIS exactly when the section is "business", otherwise READINESS |
| Handlers.SelectedCardLines | bot/handlers.py:226-229 | the loop returns one `- text` line per selected key that names an option |
| Handlers.CustomCardLines | bot/handlers.py:231-236 | the loop returns one `- option: value` line per filled custom entry |
| Handlers.FormatQuestionText | bot/handlers.py:220-241 | the card text: the question text, followed by the heading and the lines only when there is a line |
| Handlers.SendQuestion | bot/handlers.py:195-217 | the session, next state and effects of `_send_question` (`SendQuestionStep`) |
| Handlers.HandleQuestionnaireComplete | bot/handlers.py:469-481 | marks the diagnosis complete, sends the pre-report message (with the report button only when its text is non-empty) and returns REPORT |
| Handlers.SendNextQuestion | bot/handlers.py:180-192 | the step of `send_next_question` (`SendNextStep`) |
| Handlers.StartCommand | bot/handlers.py:111-123 | the session is reset and WELCOME is returned, replying only when there is a message |
| Handlers.HandleStartButton | bot/handlers.py:126-137 | the skill prompt with the skill keyboard, returning SKILL_LEVEL |
| Handlers.HandleSkillSelection | bot/handlers.py:140-161 | stores the choice; the first two skill keys get the video message, any other the expert message; both return VIDEO |
| Handlers.HandleVideoConfirmation | bot/handlers.py:164-177 | sends the intro, then the current question (`VideoConfirmationStep`) |
| Handlers.ToggleAndEdit | bot/handlers.py:318-332 | the toggle, the card edit and the message reference of a multi-select press (`MultiToggleStep`) |
| Handlers.HandleQuestionCallback | bot/handlers.py:281-341 | the step of `handle_question_callback` (`QuestionCallbackStep`) |
| Handlers.RefreshQuestionMessage | bot/handlers.py:244-270 | the session is unchanged; an edit of the current card is requested only when a message is recorded |
| Handlers.BuildAnalysisPayload | bot/handlers.py:411-417 | the payload's fields are the skill text, the skill key, the question/answer pairs and the collected answers |
| Handlers.BuildChatPayload | bot/handlers.py:449-461 | the stored answers when non-empty, otherwise recomputed; the history and the message are passed on |
| Handlers.HandleChatMessage | bot/handlers.py:530-552 | the step of `handle_chat_message` (`ChatMessageStep`) |
| Handlers.AnswerOtherText | bot/handlers.py:347-366 | the step of answering an awaited free-text variant (`OtherTextStep`) |
| Handlers.HandleTextResponse | bot/handlers.py:342-385 | the step of `handle_text_response` (`TextResponseStep`) |
| Handlers.DeliverReport | bot/handlers.py:503-527 | analysis, PDF, delivery, then the report flags (`DeliverStep`) |
| Handlers.HandleReportRequest | bot/handlers.py:484-527 | the step of `handle_report_request` (`ReportRequestStep`) |
| Handlers.UserMetadata | bot/handlers.py:388-398 | no user gives no metadata; a user gives its id, its username or "", and the full name `FullName(first or "", last or "")`, which has no outer whitespace |
| HandlerProperties.ButtonResolves | bot/keyboards.py:49 | an option button of a catalog question splits into three parts whose id finds that question |
| HandlerProperties.SentQuestionLeavesAtMostOneMarker | bot/handlers.py:196-206 | after a question is sent, the variant marker is gone and the text marker is set exactly for a question with no options that expects text; answers and cursor are kept and the sent message is recorded |
| HandlerProperties.StalePressSetsBothMarkers | bot/handlers.py:304-314 | after a text question is sent, pressing a still-visible free-text option of any question sets the variant marker while the text marker stays set |
| HandlerProperties.SendNextMovesCursorByOne | bot/handlers.py:180-192 | the cursor moves by 0 (new) or 1; answers, history and flags are kept; REPORT exactly when the catalog is exhausted, with the diagnosis then complete |
| HandlerProperties.CardListsRenderedAnswer | bot/handlers.py:220-241 | the card lists exactly the lines of the rendered answer, each prefixed with "- " |
| HandlerProperties.UnknownKeysAddNoText | bot/handlers.py:227-229 | keys that name no option render no text |
| HandlerProperties.EmptyValuesAddNoLine | bot/handlers.py:235-236 | empty custom values render no line |
| HandlerProperties.StaleSelectionsLeaveBareCard | bot/handlers.py:238-241 | with only stale keys and empty values, the card is the bare question text |
| HandlerProperties.MalformedCallbackChangesNothing | bot/handlers.py:285-294 | data that does not split into three parts, or names an unknown question, returns DIAGNOSIS with the session unchanged and no effect |
| HandlerProperties.UnknownOptionChangesNothing | bot/handlers.py:299-302 | an unknown option key returns the question's state with the session unchanged |
| HandlerProperties.FreeTextOptionAwaitsVariant | bot/handlers.py:304-314 | a free-text option sets the variant marker to {id, option text, section, multi-select}, prompts, and changes neither answers nor cursor |
| HandlerProperties.DoneMovesCursor | bot/handlers.py:296-297 | "done" is handled before option lookup and moves the cursor by one |
| HandlerProperties.SendNextMovesCursor | bot/handlers.py:180-192 | the cursor moves by 0 or 1 and answers are kept |
| HandlerProperties.MultiToggleFlipsKey | bot/handlers.py:316-332 | a multi-select press flips exactly the pressed key, keeps the selection duplicate-free and returns the section state |
| HandlerProperties.MultiToggleSession | bot/handlers.py:316-332 | the session after a press is the toggled session with the pressed message recorded |
| HandlerProperties.MultiPressOnlyToggles | bot/handlers.py:316-332 | a multi-select press toggles and edits, and leaves the cursor where it was |
| HandlerProperties.SinglePressRecordsAndAdvances | bot/handlers.py:334-336 | a single-select press records the option text as a scalar, keeps other answers and moves the cursor by one |
| HandlerProperties.OtherMarkerTakesPrecedence | bot/handlers.py:346-366 | with a variant marker, the text is handled as the variant whatever else is awaited |
| HandlerProperties.OtherTextForMultiAppendsCustom | bot/handlers.py:344-360 | with a pending free-text option of a multi-select question whose answer is absent or multi-select, the stripped text is appended as `{option, value}` after the old custom entries with the selection kept, the marker cleared, the cursor kept and the question's state returned; with a scalar answer stored, the handler raises and the session is unchanged |
| HandlerProperties.OtherTextForSingleRecordsAndAdvances | bot/handlers.py:362-364 | for a single-select question the text is recorded as a scalar, the marker cleared and the cursor moved by one |
| HandlerProperties.AwaitedTextRecordsAndAdvances | bot/handlers.py:368-373 | an awaited text answer is recorded, the marker cleared and the cursor moved by one |
| HandlerProperties.TextWithoutMarker | bot/handlers.py:375-378 | with no marker, the text goes to the chat when the report is ready, otherwise DIAGNOSIS with a reminder and no answer changed |
| HandlerProperties.ReportNeedsCompleteDiagnosis | bot/handlers.py:489-491 | without a complete diagnosis, a report request returns REPORT with a reminder and nothing changed |
| HandlerProperties.DeliveryNeverStores | bot/handlers.py:500-527 | delivery requests no store, keeps the saved flag, and makes the report ready exactly when analysis, rendering and sending all succeed |
| HandlerProperties.DeliveryEffects | bot/handlers.py:500-525 | delivery requests the analysis, the PDF, the sending and the follow-up in that order, stopping after the first step that raises |
| HandlerProperties.DeliveryFlags | bot/handlers.py:519-522 | delivery keeps the saved flag and makes the report ready exactly when every step returned |
| HandlerProperties.AnswersAreStoredOnce | bot/handlers.py:495-498 | the answers are stored only when not saved yet, and the saved flag is set exactly after a store that returns |
| HandlerProperties.SecondRequestDoesNotStore | bot/handlers.py:495-498 | a second request after a successful store stores nothing |
| HandlerProperties.ReportReadyOnlyAfterDelivery | bot/handlers.py:519 | the report becomes ready exactly when it was, or when the diagnosis is complete, the answers saved, and the analysis, PDF and sending succeed |
| HandlerProperties.ChatNeedsReport | bot/handlers.py:533-535 | without a ready report, a chat message returns REPORT with a reminder |
| HandlerProperties.BlankChatKeepsHistory | bot/handlers.py:537-540 | a blank message returns CHAT with the fallback and the history untouched |
| HandlerProperties.ChatHistoryStaysBounded | bot/handlers.py:542-550 | after a chat turn, the history is within 12 entries and ends with the reply, or with the question when the reply is empty |
| HandlerProperties.FullNameJoinsPresentNames | bot/handlers.py:392-393 | the full name is the present names joined by one space |
| Conversation.StartResetsFromAnywhere | bot/handlers.py:72-95 | `/start` resets the session and returns WELCOME from every state |
| Conversation.ChatUnreachedInitially | bot/handlers.py:71-96 | before any update, no report is ready and the chat state is not entered |
| Conversation.SendNextKeepsReportFlag | bot/handlers.py:180-192 | sending the next question keeps the report flag and never returns CHAT |
| Conversation.PressKeepsChatUnreached | bot/handlers.py:73-89 | no button press enters CHAT, and a ready report keeps the conversation in REPORT |
| Conversation.ReportRequestStaysInReport | bot/handlers.py:484-527 | a report request returns REPORT or raises |
| Conversation.PressInQuestionState | bot/handlers.py:281-341 | an option press never makes the report ready nor returns CHAT |
| Conversation.TextInQuestionState | bot/handlers.py:342-378 | text without a ready report never makes it ready nor returns CHAT |
| Conversation.ChatIsUnreachableAsWritten | bot/handlers.py:71-96 | the routing as written keeps CHAT unreached for every update |
| Conversation.ReportTextIsDropped | bot/handlers.py:87-89 | as written, text in REPORT changes nothing and gets no answer |
| Conversation.ReportTextReachesChat | bot/handlers.py:530-552 | with text routed in REPORT, a question after the report is answered, and CHAT is entered with a bounded history |
| Conversation.Dispatch | bot/handlers.py:71-108 | the routing as written: `/start` welcomes with a fresh session from any state; text outside DIAGNOSIS, READINESS and CHAT, and any press with no conversation or in CHAT, change nothing and send nothing |
| Conversation.IntendedDispatch | bot/handlers.py:71-108 | the same routing except for text in REPORT, which goes to the chat handler: before the report is ready it stays in REPORT with the session defaults filled in |
| Conversation.ProcessUpdate | bot/handlers.py:71-108 | handling an update with the handler methods yields exactly `IntendedDispatch` |
| Conversation.RoutePress | bot/handlers.py:73-89 | the button routing of each state, carried out by the handler methods |
| Webhook.FirstSecretHeader | api/webhook.py:202-204 | the first header, in iteration order, whose lower-cased name is the secret header |
| Webhook.SecretAccepted | api/webhook.py:198-205 | accepted whenever no secret is configured; otherwise rejected when no header matches, and accepted only when a matching header holds the secret |
| Webhook.ValidateSecret | api/webhook.py:198-205 | the early-return loop returns `SecretAccepted` |
| Webhook.FirstSecretHeaderDecides | api/webhook.py:202-204 | the first matching header decides, and later duplicates are ignored |
| Webhook.FirstSecretHeaderAfter | api/webhook.py:202-204 | the first matching header sits right after the non-matching prefix |
| Webhook.HeaderCaseIsIrrelevant | api/webhook.py:203 | header names equal up to ASCII case give the same verdict |
| Webhook.SameFirstSecretHeader | api/webhook.py:203 | header names equal up to ASCII case give the same first match |
| Webhook.ProcessPayload | api/webhook.py:169-195 | 403 exactly when the secret is refused; with an accepted secret, 400 exactly when the body is not JSON; once parsed, a processed update answers 200 "ok", a Telegram error 500 `telegram error: <e>`, any other error 500 `error: <e>`, newline, the traceback, then `Token present: True/False`; headers that are not a dict with a secret configured, or a body that is not text, raise; 200 only when the update was processed |
| Webhook.ForbiddenBeforeParsing | api/webhook.py:170-171 | a refused secret answers 403 before the body is looked at |
| Webhook.EventMethod | api/webhook.py:131 | a truthy `httpMethod` decides; otherwise a truthy `method`; otherwise "POST"; the chosen text is upper-cased (a non-string verb raises) |
| Webhook.HandleLambdaEvent | api/webhook.py:127-148 | an event that is not a dict, or a method that is not text, raises; a GET answers 200 "ok"; a missing or empty body answers 400 "missing body"; a base64 body that does not decode answers 400 "invalid base64 body"; otherwise the (decoded) body and `headers or {}` go to `_process_payload` |
| Webhook.MissingBodyIgnoresRuntime | api/webhook.py:135-137 | a POST without a body answers 400 whatever the secret, parser and application do |
| Webhook.NormalizeEvent | api/webhook.py:51-64 | a dict is kept; `None` or an unparseable string gives `{}`; a parsed string gives what it parsed to |
| Webhook.HandleHttpRequest | api/webhook.py:151-166 | a verb that upper-cases to GET answers 200 "ok"; with no verb (taken as POST) or any other verb, an empty body answers 400 "missing body" and a non-empty one is processed as the payload with the request's headers |
| Webhook.MissingVerbIsPost | api/webhook.py:152 | a request without a verb is handled as a POST |
| Webhook.GetInAnyCaseIsOk | api/webhook.py:152-157 | GET spelled in any letter case answers 200 "ok" |
| Webhook.Handler | api/webhook.py:109-124 | every answer is 200, 400, 403 or 500; for both request kinds, a returned response passes through unchanged and anything raised becomes a 500 whose body is `error: <exception>` then a newline and the traceback |
| Webhook.OkMeansAcceptedAndProcessed | api/webhook.py:127-148 | a 200 to a non-GET event means the secret was accepted, the body present and the update processed |

## Left out

- Telegram plumbing: `query.answer()`, parse modes and web-page previews
  are not modelled. Sends, edits and replies are `Effect` values, and the
  id of a sent message is a parameter.
- Asynchrony and concurrency are not modelled. That covers the executor
  wrappers (bot/handlers.py:402-466), `concurrent_updates(True)`, the
  30-second follow-up timer (a `ScheduleFollowUp` effect stands for it)
  and `asyncio.run` with the application lifecycle (api/webhook.py:73-106).
- The PDF is a `RenderReport` effect, and whether rendering it raised is
  a parameter. services/pdf_service.py is not part of this model.
- Network clients are not modelled: the OpenAI requests, the Apps Script
  POST, the Sheets API client and scripts/set_webhook.py. Their results
  are parameters.
- config.py and the logging are not modelled; the configured values are
  parameters.
- `json.loads`, `json.dumps` and base64 decoding are parameters. The JSON
  value type has no floats.
- `record_answer` (bot/utils.py:61-63) has the same body as
  `record_single_answer`, so `Session.UserData.RecordSingleAnswer` models
  both.
- `get_answer`, `get_selected_option_keys`, `get_current_question_message`
  and `get_chat_history` are reads of a typed field here. A session value
  of the wrong Python type cannot occur in the model.
- Utils.RenderedAnswer: the `"✍️ Другое"` label for a custom entry without
  an `option` key is not modelled, because every entry the bot writes has
  that key.
- Utils.RenderedAnswer: the `str(answer)` case for a non-string scalar is
  not modelled, because the bot stores only strings and multi-select
  entries.
- Session.UserData.ToggleMultiOption: toggling on a question whose stored
  answer is a scalar raises in the source. The model reports it instead
  (`None`), and the handler then raises.
- Handlers.HandleSkillSelection: with fewer than two configured skill
  options, the source's indexing raises. The model returns "raised" in
  that case.
- Handlers.RefreshQuestionMessage: the `try`/`except` around the edit
  swallows a failed edit. In the model the edit is always requested, and
  the session is the same in both cases.
- Handlers.ToggleAndEdit: the edit of a multi-select card is taken to
  succeed.
- Conversation.Dispatch: the exact-match callback patterns `^...$` are
  compared for equality. Python's `$` would also accept one trailing
  newline.
- PyText.AsciiCase: case mapping is ASCII-only. Python's `str.lower`
  would also map, for example, KELVIN SIGN to `k` in a header name, and
  `str.upper` would map `ß` to `SS`.
- Webhook.Handler: the text and traceback of a raised exception are the
  `fatalError` and `fatalTrace` parameters; which exception is raised is
  not modelled, only that one was.
- Values.PyStr: integers are unbounded and there are no floats.
- Values.StrRepr: escapes exactly as `repr` does within Latin-1 (quotes,
  backslash, tab, newline, carriage return, `\xhh`). Characters above
  Latin-1 that Python counts as unprintable (written `\uXXXX` or
  `\UXXXXXXXX` by `repr`) are shown unescaped, because the Unicode
  printability table is not part of this model.
- The two awaiting markers: the model keeps no invariant that at most
  one of the text marker and the variant marker is set, because the code
  does not keep one. `_send_question` (bot/handlers.py:196-206) clears both
  and sets at most one, which suggests the rule
  (`HandlerProperties.SentQuestionLeavesAtMostOneMarker`). A press on a
  free-text option (bot/handlers.py:304-314), however, sets the variant
  marker without clearing the text marker. A button of an earlier card is
  still live, so after a text question has been sent both can be set
  (`HandlerProperties.StalePressSetsBothMarkers`). `handle_text_response`
  reads the variant marker first, so the variant wins.

## Findings

| source | as written | input that shows it | evidently intended | confidence | as-written member | corrected member |
|---|---|---|---|---|---|---|
| bot/handlers.py:87-92 | the REPORT state routes only the `generate_report` button, so text sent after the report is dropped; CHAT is entered by no handler reachable from the start, and `handle_chat_message` never runs | `/start`, complete the questionnaire, press "generate report" (delivery succeeds), then send the text "what next?" in REPORT: no reply, state and session unchanged | text in REPORT goes to `handle_chat_message`, which answers and moves to CHAT (the report-ready branch of `handle_text_response` and the CHAT state exist for this) | high, from reading the routing, for one conversation per user (the model has one session per conversation; python-telegram-bot keys conversations by chat and user but `user_data` by user alone, so a user with two chats could carry `report_ready` into a fresh conversation, which this proof does not cover); not executed | Conversation.Dispatch (Conversation.ChatIsUnreachableAsWritten, Conversation.ReportTextIsDropped) | Conversation.IntendedDispatch (Conversation.ReportTextReachesChat, Conversation.ProcessUpdate) |
