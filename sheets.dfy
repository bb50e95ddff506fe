/**
 * services/sheets_service.py: the answers of a finished questionnaire are
 * stored through a Google Apps Script endpoint when one is configured,
 * falling back to appending one row to a Google Sheet. The clock, the
 * HTTP exchange and the Sheets client are collaborators: their outcomes
 * are parameters, and the writes are returned as a list of actions.
 */
module Sheets {
  import opened Wrappers
  import opened PyText
  import opened Values
  import opened Questions
  import opened Markdown
  import opened Utils
  import opened Session
  import opened Seqs

  /** The metadata dict the report handler passes in; a missing key is `None`. */
  datatype Metadata = Metadata(timestamp: Option<string>, userId: Option<int>, username: Option<string>, fullName: Option<string>)

  /** The `meta` part of the payload; `userId` is `None` where the source stores `""`. */
  datatype Meta = Meta(timestamp: string, userId: Option<int>, username: string, fullName: string, skillLevel: string)

  /** One item of the payload's `answers` list. */
  datatype DetailedAnswer = DetailedAnswer(id: string, questionMarkdown: string, questionPlain: string, answer: string)

  datatype Payload = Payload(meta: Meta, answersById: seq<Entry>, answers: seq<DetailedAnswer>)

  /** The configuration values `store_answers` reads. */
  datatype StoreSettings = StoreSettings(gasEndpoint: string, credentialsJson: string, sheetId: string)

  /**
   * What the Apps Script endpoint did: the request failed with a URL
   * error, or it answered with a status and a body; `decoded` is what
   * decoding and parsing the body gave.
   */
  datatype GasResponse = UrlError | Response(status: int, body: string, decoded: BodyParse)

  datatype BodyParse = NotUtf8 | NotJson | Json(value: Value)

  /** `True`, `False`, or an exception that escapes `_post_to_gas`. */
  datatype PostOutcome = Posted(ok: bool) | PostRaised

  /** A write `store_answers` performs. */
  datatype StoreAction = PostToGas(payload: Payload) | AppendRow(row: seq<string>)

  /** The writes performed, and whether an exception escaped. */
  datatype StoreOutcome = StoreOutcome(actions: seq<StoreAction>, raised: bool)

  /** The item of one question in the payload's `answers` list. */
  function DetailOf(question: Question, answersById: seq<Entry>): DetailedAnswer {
    DetailedAnswer(question.id, question.text, StripMarkdown(question.text), Lookup(answersById, question.id, ""))
  }

  /** The item of one question, as a function of the question. */
  function DetailFn(answersById: seq<Entry>): Question -> DetailedAnswer {
    q => DetailOf(q, answersById)
  }

  /** The `meta` part: the given timestamp unless it is missing or empty, then the clock's. */
  function MetaOf(metadata: Metadata, v: SessionValue, skillOptions: seq<ButtonSpec>, now: string): (m: Meta)
    ensures metadata.timestamp.Some? && metadata.timestamp.value != "" ==> m.timestamp == metadata.timestamp.value
    ensures metadata.timestamp.None? || metadata.timestamp.value == "" ==> m.timestamp == now
    ensures m.userId == metadata.userId && m.skillLevel == SkillLevelText(v.skillLevel.GetOr(""), skillOptions)
    ensures metadata.username.None? ==> m.username == ""
    ensures metadata.username.Some? ==> m.username == metadata.username.value
    ensures metadata.fullName.None? ==> m.fullName == ""
    ensures metadata.fullName.Some? ==> m.fullName == metadata.fullName.value
  {
    var stamp := if metadata.timestamp.Some? && metadata.timestamp.value != "" then metadata.timestamp.value else now;
    Meta(stamp, metadata.userId, metadata.username.GetOr(""), metadata.fullName.GetOr(""),
      SkillLevelText(v.skillLevel.GetOr(""), skillOptions))
  }

  /** The payload `_build_payload` returns. */
  function PayloadOf(metadata: Metadata, v: SessionValue, questions: seq<Question>, skillOptions: seq<ButtonSpec>, now: string): (p: Payload)
    ensures |p.answers| == |questions|
  {
    var byId := AnswersById(questions, AnswersOf(v));
    Payload(MetaOf(metadata, v, skillOptions, now), byId, Map(DetailFn(byId), questions))
  }

  /** `_build_payload`: the meta part, the answers keyed by id, and one detailed item per question. */
  method BuildPayload(metadata: Metadata, v: SessionValue, questions: seq<Question>, skillOptions: seq<ButtonSpec>, now: string)
    returns (p: Payload)
    ensures p == PayloadOf(metadata, v, questions, skillOptions, now)
  {
    var timestamp := if metadata.timestamp.Some? then metadata.timestamp.value else "";
    if timestamp == "" {
      timestamp := now;
    }
    var byId := CollectAllAnswers(questions, AnswersOf(v));
    var detailed: seq<DetailedAnswer> := [];
    var i := 0;
    while i < |questions|
      invariant 0 <= i <= |questions|
      invariant detailed == Map(DetailFn(byId), questions[..i])
    {
      MapPrefix(DetailFn(byId), questions, i);
      var item := DetailedAnswer(questions[i].id, questions[i].text, StripMarkdown(questions[i].text), Lookup(byId, questions[i].id, ""));
      detailed := detailed + [item];
      i := i + 1;
    }
    assert questions[..i] == questions;
    var skill := GetSkillLevelText(v.skillLevel.GetOr(""), skillOptions);
    var meta := Meta(timestamp, metadata.userId, metadata.username.GetOr(""), metadata.fullName.GetOr(""), skill);
    p := Payload(meta, byId, detailed);
  }

  /** The detailed item at a catalog position describes that question. */
  lemma DetailsInOrder(questions: seq<Question>, answersById: seq<Entry>, i: nat)
    requires i < |questions|
    ensures Map(DetailFn(answersById), questions)[i] ==
      DetailedAnswer(questions[i].id, questions[i].text, StripMarkdown(questions[i].text), Lookup(answersById, questions[i].id, ""))
  {
    MapAt(DetailFn(answersById), questions, i);
  }

  /** With distinct ids, each detailed item of the payload carries its question's rendered answer. */
  lemma DetailCarriesRenderedAnswer(metadata: Metadata, v: SessionValue, questions: seq<Question>, skillOptions: seq<ButtonSpec>, now: string, i: nat)
    requires DistinctIds(questions) && i < |questions|
    ensures PayloadOf(metadata, v, questions, skillOptions, now).answers[i].answer == RenderedAnswer(questions[i], AnswersOf(v))
  {
    DetailsInOrder(questions, AnswersById(questions, AnswersOf(v)), i);
    LookupCollectedAnswer(questions, AnswersOf(v), i);
  }

  /**
   * The five leading columns of a sheet row: the timestamp, the user id as
   * text ("" when there is none), the username, the full name and the
   * skill level, in that order.
   */
  function MetaColumns(meta: Meta): (r: seq<string>)
    ensures |r| == 5
    ensures r[0] == meta.timestamp
    ensures meta.userId.Some? ==> r[1] == IntToDecimal(meta.userId.value)
    ensures meta.userId.None? ==> r[1] == ""
    ensures r[2] == meta.username && r[3] == meta.fullName && r[4] == meta.skillLevel
  {
    [meta.timestamp, if meta.userId.Some? then IntToDecimal(meta.userId.value) else "", meta.username, meta.fullName, meta.skillLevel]
  }

  /** The answer column of one question. */
  function ColumnFn(answersById: seq<Entry>): Question -> string {
    (q: Question) => Lookup(answersById, q.id, "")
  }

  /** The row `_build_row` returns. */
  function RowOf(payload: Payload, questions: seq<Question>): (row: seq<string>)
    ensures |row| == 5 + |questions|
  {
    MetaColumns(payload.meta) + Map(ColumnFn(payload.answersById), questions)
  }

  /** `_build_row`: the meta columns, then the answer of every catalog question in catalog order. */
  method BuildRow(payload: Payload, questions: seq<Question>) returns (row: seq<string>)
    ensures row == RowOf(payload, questions)
  {
    var columns: seq<string> := [];
    var i := 0;
    while i < |questions|
      invariant 0 <= i <= |questions|
      invariant columns == Map(ColumnFn(payload.answersById), questions[..i])
    {
      MapPrefix(ColumnFn(payload.answersById), questions, i);
      columns := columns + [Lookup(payload.answersById, questions[i].id, "")];
      i := i + 1;
    }
    assert questions[..i] == questions;
    row := MetaColumns(payload.meta) + columns;
  }

  /** With distinct ids, the sheet column of a question holds its rendered answer. */
  lemma RowColumnIsRenderedAnswer(metadata: Metadata, v: SessionValue, questions: seq<Question>, skillOptions: seq<ButtonSpec>, now: string, i: nat)
    requires DistinctIds(questions) && i < |questions|
    ensures RowOf(PayloadOf(metadata, v, questions, skillOptions, now), questions)[5 + i] == RenderedAnswer(questions[i], AnswersOf(v))
  {
    var byId := AnswersById(questions, AnswersOf(v));
    MapAt(ColumnFn(byId), questions, i);
    LookupCollectedAnswer(questions, AnswersOf(v), i);
  }

  /**
   * `_post_to_gas`: success on status 200 with an empty body, a body that
   * is not JSON, or a JSON object whose `ok` is truthy or absent. A body
   * that is not UTF-8, or JSON that is not an object, raises.
   */
  function PostToGasOutcome(response: GasResponse): (r: PostOutcome)
    ensures response.UrlError? ==> r == Posted(false)
    ensures response.Response? && response.status != 200 ==> r == Posted(false)
    ensures response.Response? && response.status == 200 && response.body == "" ==> r == Posted(true)
    ensures response.Response? && response.status == 200 && response.body != "" && response.decoded.NotJson? ==>
      r == Posted(true)
    ensures response.Response? && response.status == 200 && response.body != "" &&
            response.decoded.Json? && response.decoded.value.VDict? ==>
      r != PostRaised &&
      (r == Posted(false) <==>
        (DictGet(response.decoded.value.entries, "ok").Some? && !Truthy(DictGet(response.decoded.value.entries, "ok").value)))
    ensures r == PostRaised <==>
      response.Response? && response.status == 200 && response.body != "" &&
      (response.decoded.NotUtf8? || (response.decoded.Json? && !response.decoded.value.VDict?))
  {
    match response
    case UrlError => Posted(false)
    case Response(status, body, decoded) =>
      if status != 200 then Posted(false)
      else if body == "" then Posted(true)
      else match decoded
        case NotUtf8 => PostRaised
        case NotJson => Posted(true)
        case Json(value) =>
          if !value.VDict? then PostRaised
          else
            var ok := DictGet(value.entries, "ok");
            Posted(ok.None? || Truthy(ok.value))
  }

  /**
   * `store_answers`: posts to the endpoint when one is configured and stops
   * there on success; otherwise appends a row when credentials and a sheet
   * id are configured and the client can be built. A failed append is
   * logged and swallowed.
   */
  method StoreAnswers(
    metadata: Metadata, v: SessionValue, questions: seq<Question>, skillOptions: seq<ButtonSpec>, now: string,
    settings: StoreSettings, gas: GasResponse, sheetsClientReady: bool)
    returns (out: StoreOutcome)
    ensures out.raised <==> settings.gasEndpoint != "" && PostToGasOutcome(gas) == PostRaised
    ensures var payload := PayloadOf(metadata, v, questions, skillOptions, now);
      var posted := if settings.gasEndpoint != "" then [PostToGas(payload)] else [];
      var fallback := (settings.gasEndpoint == "" || PostToGasOutcome(gas) == Posted(false)) &&
        settings.credentialsJson != "" && settings.sheetId != "" && sheetsClientReady;
      out.actions == posted + (if fallback then [AppendRow(RowOf(payload, questions))] else [])
  {
    var payload := BuildPayload(metadata, v, questions, skillOptions, now);
    var actions: seq<StoreAction> := [];
    if settings.gasEndpoint != "" {
      actions := [PostToGas(payload)];
      var posted := PostToGasOutcome(gas);
      if posted == PostRaised {
        return StoreOutcome(actions, true);
      }
      if posted.ok {
        return StoreOutcome(actions, false);
      }
    }
    if settings.credentialsJson != "" && settings.sheetId != "" && sheetsClientReady {
      var row := BuildRow(payload, questions);
      actions := actions + [AppendRow(row)];
    }
    return StoreOutcome(actions, false);
  }
}
