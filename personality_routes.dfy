/**
 * The three personality routes: `GET /profiles`, `POST /transform` and
 * `POST /intercept`, each a function from the request body (and what the
 * collaborators answer) to the reply, together with the collaborator calls
 * the handler made. `getMessages` and `transformResponse` are parameters:
 * each maps the arguments of a call to its awaited outcome.
 */
module PersonalityRoutes {
  import opened Js
  import opened PersonalityEngine

  /** A reply: the HTTP status and the fields of the JSON body. */
  datatype Reply = Reply(status: nat, body: map<string, Value>)

  /** The arguments of a `getMessages` call; the sort is always newest first. */
  datatype HistoryQuery = HistoryQuery(conversationId: Value, limit: nat)

  /**
   * The arguments of a `transformResponse` call. The routes pass the context
   * line as a fourth argument, which transformResponse does not declare, so
   * it is not recorded.
   */
  datatype TransformCall = TransformCall(originalResponse: Value, personalityId: Value, conversationHistory: string)

  /** What a handler did: its reply and the collaborator calls it made, in order. */
  datatype Outcome = Outcome(reply: Reply, queries: seq<HistoryQuery>, calls: seq<TransformCall>)

  const ProfilesFailedMessage: string := "Failed to fetch personality profiles"
  const MissingFieldsMessage: string := "Missing required fields: originalResponse and personalityId"
  const TransformFailedMessage: string := "Failed to transform response"

  // ---------------------------------------------------------------------
  // GET /profiles
  // ---------------------------------------------------------------------

  /** A listing entry as the JSON object `{id, name, description}`. */
  function SummaryValue(s: Summary): Value
  {
    Obj(map["id" := Str(s.id), "name" := Str(s.name), "description" := Str(s.description)])
  }

  function SummaryValues(l: seq<Summary>): (r: seq<Value>)
    ensures |r| == |l| && forall i | 0 <= i < |l| :: r[i] == SummaryValue(l[i])
  {
    if l == [] then [] else [SummaryValue(l[0])] + SummaryValues(l[1..])
  }

  /** `{personalities: getPersonalities()}`, or 500 when the listing throws. */
  function Profiles(store: ProfileStore): (r: Reply)
    requires store.Valid()
    ensures r.status == 200 <==> GetPersonalities(store).Some?
    ensures r.status == 200 ==> r.body == map["personalities" := Arr(SummaryValues(GetPersonalities(store).value))]
    ensures r.status != 200 ==> r.status == 500 && r.body == map["error" := Str(ProfilesFailedMessage)]
  {
    match GetPersonalities(store)
    case Some(l) => Reply(200, map["personalities" := Arr(SummaryValues(l))])
    case None => Reply(500, map["error" := Str(ProfilesFailedMessage)])
  }

  // ---------------------------------------------------------------------
  // Conversation history
  // ---------------------------------------------------------------------

  /** `msg.isCreatedByUser ? 'Student' : 'AI Assistant'` */
  function Speaker(msg: Value): string
    requires Prop(msg, "isCreatedByUser").Some?
  {
    if Truthy(Prop(msg, "isCreatedByUser").value) then RoleA else RoleB
  }

  /** One history line, `Speaker: text`; None when the message is `undefined` or `null` (reading it throws). */
  function HistoryLine(msg: Value): (r: Option<string>)
    ensures r.None? <==> msg.Undefined? || msg.Null?
  {
    match Prop(msg, "text")
    case None => None
    case Some(t) => Some(Speaker(msg) + ": " + ToStr(t))
  }

  /** `msgs.map(line)`: None when any message cannot be read. */
  function HistoryLines(msgs: seq<Value>): (r: Option<seq<string>>)
    ensures r.Some? <==> forall i | 0 <= i < |msgs| :: HistoryLine(msgs[i]).Some?
    ensures r.Some? ==> |r.value| == |msgs| && forall i | 0 <= i < |msgs| :: r.value[i] == HistoryLine(msgs[i]).value
  {
    if msgs == [] then Some([])
    else
      match (HistoryLine(msgs[0]), HistoryLines(msgs[1..]))
      case (Some(l), Some(rest)) => Some([l] + rest)
      case _ => None
  }

  /** The line separator: a backslash followed by the letter n, not a line break. */
  const LineSeparator: string := "\\n"

  /**
   * The history text from the messages `getMessages` returned (newest
   * first): reversed into chronological order, one line per message, lines
   * joined by LineSeparator. None when formatting throws.
   */
  function FormatHistory(msgs: seq<Value>): Option<string>
  {
    match HistoryLines(Reverse(msgs))
    case None => None
    case Some(lines) => Some(Join(lines, LineSeparator))
  }

  /** The awaited `getMessages` result, formatted; any failure leaves None (the caller keeps its history). */
  function FetchHistory(fetch: HistoryQuery -> Result<seq<Value>>, q: HistoryQuery): Option<string>
  {
    match fetch(q)
    case Err(_) => None
    case Ok(msgs) => FormatHistory(msgs)
  }

  /**
   * The history is chronological: line `i` is the message `i` places from
   * the oldest one returned, and the lines are joined by LineSeparator.
   */
  lemma FormatHistoryOrder(msgs: seq<Value>)
    requires forall i | 0 <= i < |msgs| :: !(msgs[i].Undefined? || msgs[i].Null?)
    ensures FormatHistory(msgs).Some?
    ensures exists lines: seq<string> ::
      |lines| == |msgs|
      && (forall i | 0 <= i < |msgs| :: lines[i] == HistoryLine(msgs[|msgs| - 1 - i]).value)
      && FormatHistory(msgs).value == Join(lines, LineSeparator)
  {
    var rev := Reverse(msgs);
    forall i | 0 <= i < |rev| ensures HistoryLine(rev[i]).Some? {
      assert rev[i] == msgs[|msgs| - 1 - i];
    }
    var lines := HistoryLines(rev).value;
    assert forall i | 0 <= i < |msgs| :: lines[i] == HistoryLine(msgs[|msgs| - 1 - i]).value;
  }

  /**
   * With single-line message texts the history is a single line: the
   * separator is the two characters `\` and `n`, never a line break.
   */
  lemma HistoryIsOneLine(msgs: seq<Value>)
    requires forall i | 0 <= i < |msgs| :: msgs[i].Obj? && '\n' !in ToStr(Field(msgs[i].fields, "text"))
    ensures FormatHistory(msgs).Some?
    ensures '\n' !in FormatHistory(msgs).value
  {
    var rev := Reverse(msgs);
    forall i | 0 <= i < |rev| ensures HistoryLine(rev[i]).Some? {
      assert rev[i] == msgs[|msgs| - 1 - i];
    }
    var lines := HistoryLines(rev).value;
    forall i | 0 <= i < |lines| ensures '\n' !in lines[i] {
      var m := rev[i];
      assert m == msgs[|msgs| - 1 - i];
      SpeakerOneLine(m);
    }
    JoinChars(lines, LineSeparator, '\n');
  }

  lemma SpeakerOneLine(m: Value)
    requires m.Obj? && '\n' !in ToStr(Field(m.fields, "text"))
    ensures '\n' !in HistoryLine(m).value
  {
    assert '\n' !in RoleA && '\n' !in RoleB && '\n' !in ": ";
  }

  // ---------------------------------------------------------------------
  // POST /transform
  // ---------------------------------------------------------------------

  /**
   * The /transform handler. 400 when `originalResponse` or `personalityId`
   * is falsy; otherwise the history of the last five messages when a
   * conversation is given (empty when fetching or formatting fails), then
   * one transformResponse call; its result is echoed with the inputs, and a
   * rejection becomes a 500.
   */
  function Transform(body: map<string, Value>, fetch: HistoryQuery -> Result<seq<Value>>,
                     transform: TransformCall -> Result<Value>): (o: Outcome)
    ensures o.reply.status == 400
        <==> !Truthy(Field(body, "originalResponse")) || !Truthy(Field(body, "personalityId"))
    ensures o.reply.status == 400 ==> o.queries == [] && o.calls == []
    ensures o.reply.status == 400 ==> o.reply.body == map["error" := Str(MissingFieldsMessage)]
    ensures o.reply.status != 400 ==>
      |o.calls| == 1
      && o.calls[0].originalResponse == Field(body, "originalResponse")
      && o.calls[0].personalityId == Field(body, "personalityId")
    ensures o.queries != [] <==> o.reply.status != 400 && Truthy(Field(body, "conversationId"))
    ensures o.queries != [] ==> o.queries == [HistoryQuery(Field(body, "conversationId"), 5)]
    ensures o.reply.status == 200 <==> o.calls != [] && transform(o.calls[0]).Ok?
    ensures o.reply.status == 500 <==> o.calls != [] && transform(o.calls[0]).Err?
  {
    var originalResponse, personalityId, conversationId :=
      Field(body, "originalResponse"), Field(body, "personalityId"), Field(body, "conversationId");
    if !Truthy(originalResponse) || !Truthy(personalityId) then
      Outcome(Reply(400, map["error" := Str(MissingFieldsMessage)]), [], [])
    else
      var queries := if Truthy(conversationId) then [HistoryQuery(conversationId, 5)] else [];
      var history := if queries == [] then "" else
        match FetchHistory(fetch, queries[0])
        case None => ""
        case Some(h) => h;
      var call := TransformCall(originalResponse, personalityId, history);
      match transform(call)
      case Ok(transformed) =>
        Outcome(Reply(200, map["originalResponse" := originalResponse, "transformedResponse" := transformed,
                               "personalityId" := personalityId, "success" := Bool(true)]), queries, [call])
      case Err(message) =>
        Outcome(Reply(500, map["error" := Str(TransformFailedMessage), "details" := Str(message)]), queries, [call])
  }

  /**
   * The history /transform passes on: the formatted messages when a
   * conversation is given and fetching and formatting succeed, else empty.
   */
  lemma TransformHistory(body: map<string, Value>, fetch: HistoryQuery -> Result<seq<Value>>, transform: TransformCall -> Result<Value>)
    requires Truthy(Field(body, "originalResponse")) && Truthy(Field(body, "personalityId"))
    ensures var h := Transform(body, fetch, transform).calls[0].conversationHistory;
      && (!Truthy(Field(body, "conversationId")) ==> h == "")
      && (Truthy(Field(body, "conversationId")) ==>
            h == match FetchHistory(fetch, HistoryQuery(Field(body, "conversationId"), 5))
                 case None => ""
                 case Some(f) => f)
  {
  }

  /** A successful /transform echoes both inputs and reports success next to the transformed text. */
  lemma TransformEchoes(body: map<string, Value>, fetch: HistoryQuery -> Result<seq<Value>>, transform: TransformCall -> Result<Value>)
    requires Transform(body, fetch, transform).reply.status == 200
    ensures var o := Transform(body, fetch, transform);
      o.reply.body == map["originalResponse" := Field(body, "originalResponse"),
                          "transformedResponse" := transform(o.calls[0]).value,
                          "personalityId" := Field(body, "personalityId"),
                          "success" := Bool(true)]
  {
  }

  // ---------------------------------------------------------------------
  // POST /intercept
  // ---------------------------------------------------------------------

  /** `personalityId = 'neutral'`: the destructuring default applies to `undefined` only. */
  function InterceptPersonality(body: map<string, Value>): (r: Value)
    ensures Field(body, "personalityId").Undefined? ==> r == Str("neutral")
    ensures !Field(body, "personalityId").Undefined? ==> r == Field(body, "personalityId")
  {
    if Field(body, "personalityId").Undefined? then Str("neutral") else Field(body, "personalityId")
  }

  /** No rewrite is asked for: a falsy personality, or "neutral". */
  predicate IsNeutral(personalityId: Value)
  {
    !Truthy(personalityId) || personalityId == Str("neutral")
  }

  /**
   * The history /intercept builds: the previous four messages when a
   * conversation is given and they can be fetched and formatted, then the
   * current user message as a `Student:` line.
   */
  function InterceptHistory(body: map<string, Value>, fetch: HistoryQuery -> Result<seq<Value>>): string
  {
    var userMessage, conversationId := Field(body, "userMessage"), Field(body, "conversationId");
    var current := if Truthy(userMessage) then RoleA + ": " + ToStr(userMessage) else "";
    if !Truthy(conversationId) then current
    else
      match FetchHistory(fetch, HistoryQuery(conversationId, 4))
      case None => current
      case Some(previous) => previous + (if current != "" then LineSeparator + current else "")
  }

  /**
   * The /intercept handler. A neutral personality passes the response
   * through untransformed; otherwise the response is rewritten and
   * reported as transformed; a rejection still answers 200, with the
   * original response and the error message.
   */
  function Intercept(body: map<string, Value>, fetch: HistoryQuery -> Result<seq<Value>>,
                     transform: TransformCall -> Result<Value>): (o: Outcome)
    ensures o.reply.status == 200
    ensures IsNeutral(InterceptPersonality(body)) ==>
      o == Outcome(Reply(200, map["response" := Field(body, "response"), "transformed" := Bool(false)]), [], [])
    ensures !IsNeutral(InterceptPersonality(body)) ==>
      o.calls == [TransformCall(Field(body, "response"), InterceptPersonality(body), InterceptHistory(body, fetch))]
    ensures o.queries != [] <==> !IsNeutral(InterceptPersonality(body)) && Truthy(Field(body, "conversationId"))
    ensures o.queries != [] ==> o.queries == [HistoryQuery(Field(body, "conversationId"), 4)]
    ensures "transformed" in o.reply.body && "response" in o.reply.body
    ensures o.reply.body["transformed"] == Bool(o.calls != [] && transform(o.calls[0]).Ok?)
    ensures o.calls != [] && transform(o.calls[0]).Ok? ==>
      o.reply.body == map["response" := transform(o.calls[0]).value, "original" := Field(body, "response"),
                          "transformed" := Bool(true), "personalityId" := InterceptPersonality(body)]
    ensures o.calls != [] && transform(o.calls[0]).Err? ==>
      o.reply.body == map["response" := Field(body, "response"), "transformed" := Bool(false),
                          "error" := Str(transform(o.calls[0]).error)]
  {
    var response, personalityId := Field(body, "response"), InterceptPersonality(body);
    if IsNeutral(personalityId) then
      Outcome(Reply(200, map["response" := response, "transformed" := Bool(false)]), [], [])
    else
      var conversationId := Field(body, "conversationId");
      var queries := if Truthy(conversationId) then [HistoryQuery(conversationId, 4)] else [];
      var call := TransformCall(response, personalityId, InterceptHistory(body, fetch));
      match transform(call)
      case Ok(transformed) =>
        Outcome(Reply(200, map["response" := transformed, "original" := response, "transformed" := Bool(true),
                               "personalityId" := personalityId]), queries, [call])
      case Err(message) =>
        Outcome(Reply(200, map["response" := response, "transformed" := Bool(false), "error" := Str(message)]), queries, [call])
  }

  /** Without a conversation the history is just the `Student:` line, or empty. */
  lemma InterceptHistoryWithoutConversation(body: map<string, Value>, fetch: HistoryQuery -> Result<seq<Value>>)
    requires !Truthy(Field(body, "conversationId"))
    ensures Truthy(Field(body, "userMessage")) ==>
      InterceptHistory(body, fetch) == "Student: " + ToStr(Field(body, "userMessage"))
    ensures !Truthy(Field(body, "userMessage")) ==> InterceptHistory(body, fetch) == ""
  {
  }

  /**
   * With a conversation whose previous messages can be read, the history is
   * those messages in chronological order, then the separator and the
   * current `Student:` line when there is a user message.
   */
  lemma InterceptHistoryWithConversation(body: map<string, Value>, fetch: HistoryQuery -> Result<seq<Value>>, previous: string)
    requires Truthy(Field(body, "conversationId"))
    requires FetchHistory(fetch, HistoryQuery(Field(body, "conversationId"), 4)) == Some(previous)
    ensures Truthy(Field(body, "userMessage")) ==>
      InterceptHistory(body, fetch) == previous + "\\n" + "Student: " + ToStr(Field(body, "userMessage"))
    ensures !Truthy(Field(body, "userMessage")) ==> InterceptHistory(body, fetch) == previous
  {
    if Truthy(Field(body, "userMessage")) {
      var current := "Student: " + ToStr(Field(body, "userMessage"));
      assert current != "" by { assert |current| >= 9; }
      assert previous + (LineSeparator + current) == previous + "\\n" + current;
    }
  }

  // ---------------------------------------------------------------------
  // The routes with the engine as collaborator
  // ---------------------------------------------------------------------

  /** transformResponse as the routes await it: it always resolves. */
  function EngineTransform(text: PromptText, store: ProfileStore, complete: ChatRequest -> Result<seq<Value>>): TransformCall -> Result<Value>
  {
    (c: TransformCall) => Ok(TransformResponse(text, store, complete, c.originalResponse, c.personalityId, c.conversationHistory).response)
  }

  /**
   * Backed by the engine, /intercept reports every non-neutral request as
   * transformed, also when the engine fell back to the original text (an
   * unknown personality, a failed completion).
   */
  lemma InterceptAlwaysTransformed(text: PromptText, store: ProfileStore, complete: ChatRequest -> Result<seq<Value>>,
                                   body: map<string, Value>, fetch: HistoryQuery -> Result<seq<Value>>)
    requires !IsNeutral(InterceptPersonality(body))
    ensures var o := Intercept(body, fetch, EngineTransform(text, store, complete));
      o.reply.body["transformed"] == Bool(true)
      && o.reply.body["response"]
         == TransformResponse(text, store, complete, Field(body, "response"), InterceptPersonality(body), InterceptHistory(body, fetch)).response
  {
  }

  /** Backed by the engine, /transform never answers 500, and an unknown personality echoes the original text as the transformed one. */
  lemma TransformNeverFails(text: PromptText, store: ProfileStore, complete: ChatRequest -> Result<seq<Value>>,
                            body: map<string, Value>, fetch: HistoryQuery -> Result<seq<Value>>)
    ensures Transform(body, fetch, EngineTransform(text, store, complete)).reply.status != 500
    ensures var o := Transform(body, fetch, EngineTransform(text, store, complete));
      o.reply.status == 200 && Lookup(store, ToStr(Field(body, "personalityId"))).None? ==>
        o.reply.body["transformedResponse"] == Field(body, "originalResponse")
  {
  }
}
