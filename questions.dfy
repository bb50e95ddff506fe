/**
 * The question catalog and the message constants of the bot. Their
 * definitions (bot/questions.py, bot/messages.py) are not part of this
 * model, so every operation takes them as parameters of these shapes.
 */
module Questions {

  /** One selectable answer of a question. */
  datatype AnswerOption = AnswerOption(key: string, text: string, requiresFreeText: bool)

  /** One catalog question; `section` decides which conversation state shows it. */
  datatype Question = Question(
    id: string,
    text: string,
    section: string,
    options: seq<AnswerOption>,
    multiSelect: bool,
    expectsText: bool)

  predicate DistinctIds(questions: seq<Question>) {
    forall i, j :: 0 <= i < j < |questions| ==> questions[i].id != questions[j].id
  }

  /** A `(callback_data, text)` pair of the message constants. */
  datatype ButtonSpec = ButtonSpec(callbackData: string, text: string)

  /** The constants of bot/messages.py that the modelled code reads. */
  datatype Messages = Messages(
    welcomeText: string,
    startButton: ButtonSpec,
    skillLevelPrompt: string,
    skillLevelOptions: seq<ButtonSpec>,
    videoMessage: string,
    videoReadyButton: ButtonSpec,
    expertSkipMessage: string,
    diagnosisButton: ButtonSpec,
    diagnosisIntro: string,
    customOptionPrompt: string,
    preChatReminder: string,
    preReportMessage: string,
    reportButton: ButtonSpec,
    reportDeliveryMessage: string,
    chatFallbackMessage: string,
    multiSelectDoneButton: ButtonSpec)
}
