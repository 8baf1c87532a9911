/**
 * AgentController with the personality engine as its rewrite: line 255
 * awaits `transformResponse(responseText, userPersonality)`, which never
 * rejects and is called without a conversation history.
 */
module ControllerEngine {
  import opened Js
  import opened PersonalityEngine
  import opened AgentRequest

  /** transformResponse as the controller awaits it. */
  function EngineRewrite(text: PromptText, store: ProfileStore, complete: ChatRequest -> Result<seq<Value>>): (Value, Value) -> Result<Value>
  {
    (responseText: Value, personality: Value) => Ok(TransformResponse(text, store, complete, responseText, personality, "").response)
  }

  /**
   * A personality the profile file does not define leaves the response as
   * it was: the engine hands back the original text, and the write-back
   * skips a text equal to the original.
   */
  lemma UnknownPersonalityLeavesResponse(text: PromptText, store: ProfileStore, complete: ChatRequest -> Result<seq<Value>>,
                                         req: Request, final: map<string, Value>)
    requires Lookup(store, ToStr(GetUserPersonality(req.body, req.headers))).None?
    ensures Personalise(req, final, EngineRewrite(text, store, complete)) == Rewritten(final, final)
  {
    var personality := GetUserPersonality(req.body, req.headers);
    var responseText := ResponseText(final);
    if RewriteDue(req, final) {
      var t := TransformResponse(text, store, complete, responseText, personality, "");
      assert t.response == responseText;
      assert EngineRewrite(text, store, complete)(responseText, personality) == Ok(responseText);
    }
  }

  /**
   * A completion whose first choice trims to a non-empty text other than
   * the response's own is written back, trimmed, in every field that held
   * the text.
   */
  lemma CompletionWrittenBack(text: PromptText, store: ProfileStore, complete: ChatRequest -> Result<seq<Value>>,
                              req: Request, final: map<string, Value>)
    requires RewriteDue(req, final)
    requires var t := TransformResponse(text, store, complete, ResponseText(final), GetUserPersonality(req.body, req.headers), "");
      t.request.Some? && FirstChoiceText(complete(t.request.value)).Some?
    ensures var t := TransformResponse(text, store, complete, ResponseText(final), GetUserPersonality(req.body, req.headers), "");
      var rewritten := Str(FirstChoiceText(complete(t.request.value)).value);
      && Personalise(req, final, EngineRewrite(text, store, complete)) == WriteBack(final, ResponseText(final), rewritten)
      && (rewritten != ResponseText(final) && Truthy(rewritten) ==>
            Personalise(req, final, EngineRewrite(text, store, complete)).final != final)
  {
    var personality := GetUserPersonality(req.body, req.headers);
    var responseText := ResponseText(final);
    var t := TransformResponse(text, store, complete, responseText, personality, "");
    var rewritten := Str(FirstChoiceText(complete(t.request.value)).value);
    assert EngineRewrite(text, store, complete)(responseText, personality) == Ok(rewritten);
    if rewritten != responseText && Truthy(rewritten) {
      WriteBackChanges(final, responseText, rewritten);
    }
  }

  /** A truthy new text is written into the field the response text was read from. */
  lemma WriteBackChanges(final: map<string, Value>, responseText: Value, t: Value)
    requires responseText == ResponseText(final) && Truthy(responseText)
    requires Truthy(t) && t != responseText
    ensures WriteBack(final, responseText, t).final != final
  {
    var w := WriteBack(final, responseText, t);
    if Truthy(Field(final, "text")) {
      assert Field(w.final, "text") == t != Field(final, "text");
    } else {
      var content := Field(final, "content");
      assert Truthy(FirstText(content));
      WriteBackFields(final, responseText, t);
      var c := SetFirstText(content, t);
      assert w.final == final["content" := c];
      assert FirstText(c) == t;
      assert Field(w.final, "content") == c;
    }
  }
}
