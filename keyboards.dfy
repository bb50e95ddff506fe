/**
 * bot/keyboards.py: the inline keyboards the bot attaches to its
 * messages. Each keyboard builder that loops over a list is a method with
 * that loop, proved equal to the function that describes its result.
 */
module Keyboards {
  import opened Wrappers
  import opened PyText
  import opened Questions

  /** An inline button either sends callback data back to the bot or opens a link. */
  datatype Button = CallbackButton(text: string, callbackData: string) | UrlButton(text: string, url: string)

  datatype Keyboard = Keyboard(rows: seq<seq<Button>>)

  /** The callback data of an option button: `q|<question id>|<option key>`. */
  function OptionCallback(questionId: string, key: string): string {
    "q|" + questionId + "|" + key
  }

  /** The key the multi-select "done" button carries in place of an option key. */
  const DoneKey := "done"

  /** `_display_option_text`: the option's text, whether or not it is selected. */
  function DisplayOptionText(option: AnswerOption, selected: set<string>): (r: string)
    ensures r == option.text
  {
    if option.key in selected then option.text else option.text
  }

  /** The one-button row of an option. */
  function OptionRow(question: Question, option: AnswerOption, selected: set<string>): seq<Button> {
    [CallbackButton(DisplayOptionText(option, selected), OptionCallback(question.id, option.key))]
  }

  /** The keyboard `question_options_keyboard` builds: one row per option, then "done" for multi-select. */
  function QuestionKeyboard(question: Question, selected: set<string>, doneButton: ButtonSpec): Keyboard {
    var options := question.options;
    Keyboard(
      seq(|options|, i requires 0 <= i < |options| => OptionRow(question, options[i], selected)) +
      (if question.multiSelect then [[CallbackButton(doneButton.text, OptionCallback(question.id, DoneKey))]] else []))
  }

  /** `question_options_keyboard`: appends the rows one option at a time. */
  method QuestionOptionsKeyboard(question: Question, selected: set<string>, doneButton: ButtonSpec)
    returns (k: Keyboard)
    ensures k == QuestionKeyboard(question, selected, doneButton)
  {
    var rows: seq<seq<Button>> := [];
    var i := 0;
    while i < |question.options|
      invariant 0 <= i <= |question.options|
      invariant |rows| == i
      invariant forall j :: 0 <= j < i ==> rows[j] == OptionRow(question, question.options[j], selected)
    {
      rows := rows + [OptionRow(question, question.options[i], selected)];
      i := i + 1;
    }
    if question.multiSelect {
      rows := rows + [[CallbackButton(doneButton.text, OptionCallback(question.id, DoneKey))]];
    }
    k := Keyboard(rows);
  }

  /** One row per option, in catalog order, plus the "done" row exactly for multi-select questions. */
  lemma QuestionKeyboardRows(question: Question, selected: set<string>, doneButton: ButtonSpec)
    ensures var k := QuestionKeyboard(question, selected, doneButton);
      |k.rows| == |question.options| + (if question.multiSelect then 1 else 0) &&
      (forall i :: 0 <= i < |question.options| ==>
        k.rows[i] == [CallbackButton(question.options[i].text, OptionCallback(question.id, question.options[i].key))]) &&
      (question.multiSelect ==>
        k.rows[|k.rows| - 1] == [CallbackButton(doneButton.text, OptionCallback(question.id, DoneKey))])
  {
  }

  /** The selection does not show on the keyboard: every selection gives the same buttons. */
  lemma KeyboardIgnoresSelection(question: Question, a: set<string>, b: set<string>, doneButton: ButtonSpec)
    ensures QuestionKeyboard(question, a, doneButton) == QuestionKeyboard(question, b, doneButton)
  {
    var options := question.options;
    assert seq(|options|, i requires 0 <= i < |options| => OptionRow(question, options[i], a))
        == seq(|options|, i requires 0 <= i < |options| => OptionRow(question, options[i], b));
  }

  /** An option button's data splits back into `q`, the question id and the option key. */
  lemma OptionCallbackRoundTrip(questionId: string, key: string)
    requires '|' !in questionId && '|' !in key
    ensures Split(OptionCallback(questionId, key), '|') == ["q", questionId, key]
  {
    assert OptionCallback(questionId, key) == "q" + ['|'] + (questionId + ['|'] + key);
    SplitAtFirstSeparator("q", questionId + ['|'] + key, '|');
    SplitAtFirstSeparator(questionId, key, '|');
    SplitWithoutSeparator(key, '|');
  }

  /** `single_button_keyboard`: one row holding one button. */
  function SingleButtonKeyboard(spec: ButtonSpec): (k: Keyboard)
    ensures |k.rows| == 1 && |k.rows[0]| == 1
    ensures k.rows[0][0].CallbackButton? && k.rows[0][0].callbackData == spec.callbackData
    ensures k.rows[0][0].text == spec.text
  {
    Keyboard([[CallbackButton(spec.text, spec.callbackData)]])
  }

  /** `start_keyboard`. */
  function StartKeyboard(m: Messages): Keyboard {
    SingleButtonKeyboard(m.startButton)
  }

  /** The rows `skill_level_keyboard` builds: one per option with a non-empty text. */
  function SkillRows(options: seq<ButtonSpec>): (rows: seq<seq<Button>>)
    ensures |rows| <= |options|
    ensures forall i :: 0 <= i < |rows| ==>
      |rows[i]| == 1 && rows[i][0].CallbackButton? && rows[i][0].text != ""
  {
    if options == [] then []
    else
      var rest := SkillRows(options[1..]);
      if options[0].text == "" then rest
      else [[CallbackButton(options[0].text, options[0].callbackData)]] + rest
  }

  /** `skill_level_keyboard`: skips options without a text. */
  method SkillLevelKeyboard(options: seq<ButtonSpec>) returns (k: Keyboard)
    ensures k == Keyboard(SkillRows(options))
  {
    var rows: seq<seq<Button>> := [];
    var i := 0;
    while i < |options|
      invariant 0 <= i <= |options|
      invariant rows + SkillRows(options[i..]) == SkillRows(options)
    {
      assert options[i..][1..] == options[i + 1..];
      if options[i].text != "" {
        rows := rows + [[CallbackButton(options[i].text, options[i].callbackData)]];
      }
      i := i + 1;
    }
    assert options[i..] == [];
    k := Keyboard(rows);
  }

  /** The button of one option of the constants. */
  function SkillButton(option: ButtonSpec): Button {
    CallbackButton(option.text, option.callbackData)
  }

  /** Every skill button is the button of an option of the constants. */
  lemma {:induction false} SkillButtonsComeFromOptions(options: seq<ButtonSpec>)
    ensures forall i :: 0 <= i < |SkillRows(options)| ==>
      exists j :: 0 <= j < |options| && SkillRows(options)[i][0] == SkillButton(options[j])
  {
    if options != [] {
      SkillButtonsComeFromOptions(options[1..]);
      var rows := SkillRows(options);
      var rest := SkillRows(options[1..]);
      forall i | 0 <= i < |rows| ensures exists j :: 0 <= j < |options| && rows[i][0] == SkillButton(options[j]) {
        if options[0].text != "" && i == 0 {
          assert rows[0][0] == SkillButton(options[0]);
        } else {
          var r := if options[0].text == "" then i else i - 1;
          assert rows[i] == rest[r];
          var j :| 0 <= j < |options[1..]| && rest[r][0] == SkillButton(options[1..][j]);
          assert options[1..][j] == options[j + 1];
          assert rows[i][0] == SkillButton(options[j + 1]);
        }
      }
    } else {
      assert SkillRows(options) == [];
    }
  }

  /** When every option has a text, there is one row per option, in order. */
  lemma {:induction false} SkillRowsKeepAllNamedOptions(options: seq<ButtonSpec>)
    requires forall i :: 0 <= i < |options| ==> options[i].text != ""
    ensures |SkillRows(options)| == |options|
    ensures forall i :: 0 <= i < |options| ==>
      SkillRows(options)[i] == [CallbackButton(options[i].text, options[i].callbackData)]
  {
    if options != [] {
      SkillRowsKeepAllNamedOptions(options[1..]);
    }
  }

  /** The rows of a concatenation are those of each part. */
  lemma {:induction false} SkillRowsAppend(a: seq<ButtonSpec>, b: seq<ButtonSpec>)
    ensures SkillRows(a + b) == SkillRows(a) + SkillRows(b)
  {
    if a == [] {
      assert a + b == b;
    } else {
      assert (a + b)[1..] == a[1..] + b;
      SkillRowsAppend(a[1..], b);
    }
  }

  /**
   * An option without a text adds no row: taking it out leaves the rows as
   * they were, so the named options keep their rows, in order, whatever
   * unnamed options lie between them.
   */
  lemma SkillRowsSkipUnnamed(options: seq<ButtonSpec>, i: nat)
    requires i < |options| && options[i].text == ""
    ensures SkillRows(options) == SkillRows(options[..i] + options[i + 1..])
  {
    assert options == options[..i] + [options[i]] + options[i + 1..];
    SkillRowsAppend(options[..i] + [options[i]], options[i + 1..]);
    SkillRowsAppend(options[..i], [options[i]]);
    SkillRowsAppend(options[..i], options[i + 1..]);
  }

  /**
   * `consultation_keyboard`: a single link button when the configured URL
   * is not blank after trimming, nothing otherwise.
   */
  function ConsultationKeyboard(consultationUrl: string, buttonText: string): (r: Option<Keyboard>)
    ensures r.None? <==> forall k :: 0 <= k < |consultationUrl| ==> IsSpace(consultationUrl[k])
    ensures r.Some? ==> r.value.rows == [[UrlButton(buttonText, Strip(consultationUrl))]]
  {
    var url := Strip(consultationUrl);
    if url == "" then None else Some(Keyboard([[UrlButton(buttonText, url)]]))
  }
}
