/**
 * createPayload: the request the client sends for a chat submission — the
 * server URL to post to and the payload object, assembled from spreads of
 * the user message and the endpoint options and a list of explicit fields.
 * The endpoint URL table, the assistants-endpoint test and the conversation
 * schema parser are parameters.
 */
module CreatePayload {
  import opened Js

  /** The collaborators createPayload reads but does not define. */
  datatype Environment = Environment(
    endpointUrls: string -> Value,           // EndpointURLs[key]
    isAssistantsEndpoint: Value -> bool,
    parseConversation: Value -> Result<map<string, Value>>) // tConvoUpdateSchema.parse: an object, or a throw on invalid input

  datatype Request = Request(server: string, payload: map<string, Value>)

  /** The error thrown when `endpointOption` is `undefined` or `null` and cannot be destructured. */
  const DestructureError: string := "TypeError"

  /** The fields the payload literal lists after the spreads; they override any spread field of the same name. */
  const ExplicitKeys: set<string> := {
    "endpoint", "isTemporary", "isRegenerate", "editedContent", "conversationId",
    "isContinued", "ephemeralAgent", "personality"
  }

  /** The server: the agents URL plus the endpoint, or for an assistants endpoint its own URL, `/modify` when editing. */
  function Server(env: Environment, endpoint: Value, endpointType: Value, isEdited: Value): (s: string)
    ensures !env.isAssistantsEndpoint(endpoint) ==> s == ToStr(env.endpointUrls("agents")) + "/" + ToStr(endpoint)
    ensures env.isAssistantsEndpoint(endpoint) ==>
      s == ToStr(env.endpointUrls(ToStr(Coalesce(endpointType, endpoint)))) + (if Truthy(isEdited) then "/modify" else "")
  {
    if env.isAssistantsEndpoint(endpoint) then
      ToStr(env.endpointUrls(ToStr(Coalesce(endpointType, endpoint)))) + (if Truthy(isEdited) then "/modify" else "")
    else
      ToStr(env.endpointUrls("agents")) + "/" + ToStr(endpoint)
  }

  /** The explicitly listed payload fields. */
  function ExplicitFields(env: Environment, submission: map<string, Value>, endpoint: Value, conversationId: Value): (m: map<string, Value>)
    ensures m.Keys == ExplicitKeys
  {
    map[
      "endpoint" := endpoint,
      "isTemporary" := Field(submission, "isTemporary"),
      "isRegenerate" := Field(submission, "isRegenerate"),
      "editedContent" := Field(submission, "editedContent"),
      "conversationId" := conversationId,
      "isContinued" := Bool(Truthy(Field(submission, "isEdited")) && Truthy(Field(submission, "isContinued"))),
      "ephemeralAgent" := if env.isAssistantsEndpoint(endpoint) then Undefined else Field(submission, "ephemeralAgent"),
      "personality" := Field(submission, "personality")]
  }

  /**
   * createPayload(submission). It throws when the conversation does not
   * parse, and when `endpointOption` is `undefined` or `null`.
   */
  function Create(env: Environment, submission: map<string, Value>): (r: Result<Request>)
    ensures r.Err? <==> env.parseConversation(Field(submission, "conversation")).Err?
                        || Field(submission, "endpointOption").Undefined? || Field(submission, "endpointOption").Null?
  {
    match env.parseConversation(Field(submission, "conversation"))
    case Err(e) => Err(e)
    case Ok(parsed) =>
      var endpointOption := Field(submission, "endpointOption");
      match (Prop(endpointOption, "endpoint"), Prop(endpointOption, "endpointType"))
      case (Some(endpoint), Some(endpointType)) =>
        var conversationId := Field(parsed, "conversationId");
        Ok(Request(
          Server(env, endpoint, endpointType, Field(submission, "isEdited")),
          Spread(Field(submission, "userMessage")) + Spread(endpointOption)
            + ExplicitFields(env, submission, endpoint, conversationId)))
      case _ => Err(DestructureError)
  }

  /**
   * Which spread or explicit field ends up in the payload: an explicit
   * field always; otherwise the endpoint option's field over the user
   * message's; nothing else.
   */
  lemma PayloadFields(env: Environment, submission: map<string, Value>, key: string)
    requires Create(env, submission).Ok?
    ensures var payload := Create(env, submission).value.payload;
      var userMessage, endpointOption := Spread(Field(submission, "userMessage")), Spread(Field(submission, "endpointOption"));
      && (key in payload <==> key in ExplicitKeys || key in endpointOption || key in userMessage)
      && (key !in ExplicitKeys && key in endpointOption ==> payload[key] == endpointOption[key])
      && (key !in ExplicitKeys && key !in endpointOption && key in userMessage ==> payload[key] == userMessage[key])
  {
  }

  /**
   * The explicit fields: `isContinued` is true exactly when both the edit
   * and the continue flags are truthy, `ephemeralAgent` is dropped for
   * assistants endpoints and passed through otherwise, and `personality`
   * is passed through unchanged; `conversationId` is the one the
   * conversation schema parsed.
   */
  lemma ExplicitFieldsWin(env: Environment, submission: map<string, Value>)
    requires Create(env, submission).Ok?
    ensures var payload := Create(env, submission).value.payload;
      var endpoint := Prop(Field(submission, "endpointOption"), "endpoint").value;
      && payload["isContinued"] == Bool(Truthy(Field(submission, "isEdited")) && Truthy(Field(submission, "isContinued")))
      && payload["ephemeralAgent"] == (if env.isAssistantsEndpoint(endpoint) then Undefined else Field(submission, "ephemeralAgent"))
      && payload["personality"] == Field(submission, "personality")
      && payload["endpoint"] == endpoint
      && payload["isTemporary"] == Field(submission, "isTemporary")
      && payload["isRegenerate"] == Field(submission, "isRegenerate")
      && payload["editedContent"] == Field(submission, "editedContent")
      && payload["conversationId"] == Field(env.parseConversation(Field(submission, "conversation")).value, "conversationId")
  {
    var endpointOption := Field(submission, "endpointOption");
    var endpoint := Prop(endpointOption, "endpoint").value;
    var parsed := env.parseConversation(Field(submission, "conversation")).value;
    var conversationId := Field(parsed, "conversationId");
    var explicit := ExplicitFields(env, submission, endpoint, conversationId);
    var spread := Spread(Field(submission, "userMessage")) + Spread(endpointOption);
    assert Create(env, submission).value.payload == spread + explicit;
    ExplicitOverrides(spread, explicit);
    ExplicitFieldValues(env, submission, endpoint, conversationId);
  }

  /** The values of the explicitly listed fields. */
  lemma ExplicitFieldValues(env: Environment, submission: map<string, Value>, endpoint: Value, conversationId: Value)
    ensures var m := ExplicitFields(env, submission, endpoint, conversationId);
      && m["isContinued"] == Bool(Truthy(Field(submission, "isEdited")) && Truthy(Field(submission, "isContinued")))
      && m["ephemeralAgent"] == (if env.isAssistantsEndpoint(endpoint) then Undefined else Field(submission, "ephemeralAgent"))
      && m["personality"] == Field(submission, "personality")
      && m["endpoint"] == endpoint
      && m["isTemporary"] == Field(submission, "isTemporary")
      && m["isRegenerate"] == Field(submission, "isRegenerate")
      && m["editedContent"] == Field(submission, "editedContent")
      && m["conversationId"] == conversationId
  {
  }

  /** Fields listed after a spread replace the spread's fields of the same name. */
  lemma ExplicitOverrides(spread: map<string, Value>, explicit: map<string, Value>)
    ensures forall k | k in explicit :: (spread + explicit)[k] == explicit[k]
  {
  }

  /** The server is chosen by the endpoint the options name, and only an assistants edit posts to `/modify`. */
  lemma ServerChoice(env: Environment, submission: map<string, Value>)
    requires Create(env, submission).Ok?
    ensures var options := Field(submission, "endpointOption");
      var endpoint := Prop(options, "endpoint").value;
      var server := Create(env, submission).value.server;
      && (!env.isAssistantsEndpoint(endpoint) ==> server == ToStr(env.endpointUrls("agents")) + "/" + ToStr(endpoint))
      && (env.isAssistantsEndpoint(endpoint) && !Truthy(Field(submission, "isEdited")) ==>
            server == ToStr(env.endpointUrls(ToStr(Coalesce(Prop(options, "endpointType").value, endpoint)))))
      && (env.isAssistantsEndpoint(endpoint) && Truthy(Field(submission, "isEdited")) ==>
            server == ToStr(env.endpointUrls(ToStr(Coalesce(Prop(options, "endpointType").value, endpoint)))) + "/modify")
  {
    var options := Field(submission, "endpointOption");
    var endpoint := Prop(options, "endpoint").value;
    var url := ToStr(env.endpointUrls(ToStr(Coalesce(Prop(options, "endpointType").value, endpoint))));
    assert url + "" == url;
  }
}
