/**
 * The bookkeeping of one agent chat request (AgentController), as functions
 * on the request's state: the closure variables the controller keeps, the
 * abort flags, the cleanup-handler list, the client, the request-data map
 * entry, and the trace of what the controller did that others can see.
 * The Session class in AgentSession runs the same steps in place; its
 * methods are proved to end in the states these functions compute.
 *
 * External outcomes (does initializeClient resolve, what does the client
 * answer, did the connection close before the abort check, ...) are inputs.
 */
module AgentRequest {
  import opened Js

  // ---------------------------------------------------------------------
  // getUserPersonality
  // ---------------------------------------------------------------------

  /** `req.body.personality || req.headers['x-personality'] || 'neutral'` */
  function GetUserPersonality(body: map<string, Value>, headers: map<string, Value>): (r: Value)
    ensures Truthy(r)
    ensures Truthy(Field(body, "personality")) ==> r == Field(body, "personality")
    ensures !Truthy(Field(body, "personality")) && Truthy(Field(headers, "x-personality")) ==> r == Field(headers, "x-personality")
    ensures !Truthy(Field(body, "personality")) && !Truthy(Field(headers, "x-personality")) ==> r == Str("neutral")
  {
    Or(Or(Field(body, "personality"), Field(headers, "x-personality")), Str("neutral"))
  }

  // ---------------------------------------------------------------------
  // Conversation title
  // ---------------------------------------------------------------------

  /**
   * `conversation && !conversation.title ? null : conversation?.title || 'New Chat'`
   * for a conversation object: the 'New Chat' default is never chosen.
   */
  function NormalizeTitle(conversation: map<string, Value>): (r: Value)
    ensures !Truthy(Field(conversation, "title")) ==> r == Null
    ensures Truthy(Field(conversation, "title")) ==> r == Field(conversation, "title")
  {
    var title := Field(conversation, "title");
    if Truthy(Obj(conversation)) && !Truthy(title) then Null else Or(title, Str("New Chat"))
  }

  // ---------------------------------------------------------------------
  // getReqData
  // ---------------------------------------------------------------------

  /** The controller's variables that getReqData may set. */
  datatype RequestVars = RequestVars(
    sender: Value,
    abortKey: Value,
    userMessage: Value,
    userMessageId: Value,
    userMessagePromise: Value,
    responseMessageId: Value,
    promptTokens: Value,
    conversationId: Value)

  /** The variables after some assignments, and whether the last one threw. */
  datatype Assigned = Assigned(vars: RequestVars, threw: bool)

  /** The keys getReqData recognises. */
  const RecognisedKeys: set<string> := {
    "userMessage", "userMessagePromise", "responseMessageId", "promptTokens", "sender", "abortKey", "conversationId"
  }

  /**
   * One iteration of getReqData's loop. A `userMessage` key sets both the
   * message and its id; reading the id of `undefined`/`null` throws after
   * the message is stored. `conversationId` is taken only while the current
   * one is falsy. Any other key changes nothing.
   */
  function AssignKey(v: RequestVars, key: string, value: Value): (r: Assigned)
    ensures key !in RecognisedKeys ==> r == Assigned(v, false)
    ensures r.threw <==> key == "userMessage" && (value.Undefined? || value.Null?)
    ensures key == "userMessage" ==> r.vars.userMessage == value && r.vars.(userMessage := v.userMessage, userMessageId := v.userMessageId) == v
    ensures key == "userMessage" && !r.threw ==> r.vars.userMessageId == Prop(value, "messageId").value
    ensures key == "conversationId" ==> r.vars == (if Truthy(v.conversationId) then v else v.(conversationId := value))
    ensures key == "userMessagePromise" ==> r == Assigned(v.(userMessagePromise := value), false)
    ensures key == "responseMessageId" ==> r == Assigned(v.(responseMessageId := value), false)
    ensures key == "promptTokens" ==> r == Assigned(v.(promptTokens := value), false)
    ensures key == "sender" ==> r == Assigned(v.(sender := value), false)
    ensures key == "abortKey" ==> r == Assigned(v.(abortKey := value), false)
  {
    if key == "userMessage" then
      match Prop(value, "messageId")
      case None => Assigned(v.(userMessage := value), true)
      case Some(id) => Assigned(v.(userMessage := value, userMessageId := id), false)
    else if key == "userMessagePromise" then Assigned(v.(userMessagePromise := value), false)
    else if key == "responseMessageId" then Assigned(v.(responseMessageId := value), false)
    else if key == "promptTokens" then Assigned(v.(promptTokens := value), false)
    else if key == "sender" then Assigned(v.(sender := value), false)
    else if key == "abortKey" then Assigned(v.(abortKey := value), false)
    else if !Truthy(v.conversationId) && key == "conversationId" then Assigned(v.(conversationId := value), false)
    else Assigned(v, false)
  }

  /** getReqData(data): the keys in enumeration order, stopping at the first throw. */
  function ApplyReqData(v: RequestVars, data: seq<(string, Value)>): (r: Assigned)
    decreases |data|
  {
    if data == [] then Assigned(v, false)
    else
      var a := AssignKey(v, data[0].0, data[0].1);
      if a.threw then a else ApplyReqData(a.vars, data[1..])
  }

  /** Unknown keys are ignored: data naming none of the recognised keys changes nothing. */
  lemma {:induction false} UnknownKeysIgnored(v: RequestVars, data: seq<(string, Value)>)
    requires forall i | 0 <= i < |data| :: data[i].0 !in RecognisedKeys
    ensures ApplyReqData(v, data) == Assigned(v, false)
    decreases |data|
  {
    if data != [] {
      UnknownKeysIgnored(v, data[1..]);
    }
  }

  /** Once the conversation id is truthy, no later report replaces it: the first one wins. */
  lemma {:induction false} FirstConversationIdWins(v: RequestVars, data: seq<(string, Value)>)
    requires Truthy(v.conversationId)
    ensures ApplyReqData(v, data).vars.conversationId == v.conversationId
    decreases |data|
  {
    if data != [] {
      var a := AssignKey(v, data[0].0, data[0].1);
      assert a.vars.conversationId == v.conversationId;
      if !a.threw {
        FirstConversationIdWins(a.vars, data[1..]);
      }
    }
  }

  /** A truthy conversation id reported while none is known is kept for the rest of the request's data. */
  lemma ConversationIdTaken(v: RequestVars, id: Value, rest: seq<(string, Value)>)
    requires !Truthy(v.conversationId) && Truthy(id)
    ensures ApplyReqData(v, [("conversationId", id)] + rest).vars.conversationId == id
  {
    var data := [("conversationId", id)] + rest;
    assert data[0] == ("conversationId", id) && data[1..] == rest;
    FirstConversationIdWins(v.(conversationId := id), rest);
  }

  // ---------------------------------------------------------------------
  // The request's state and what others see of it
  // ---------------------------------------------------------------------

  /** An entry of the cleanup-handler list: a function (that may throw) or anything else. */
  datatype Handler = Callable(name: string, throws: bool) | NotCallable(value: Value)

  /** The handler the controller registers: it removes the `close` listener; its own errors are caught. */
  const RemoveCloseListener: Handler := Callable("removeCloseListener", false)

  /** What the client reports about itself once initialised. */
  datatype ClientInfo = ClientInfo(
    savedMessageIds: Option<set<Value>>, // client.savedMessageIds, when truthy
    skipSaveUserMessage: bool,
    attachments: Value)                  // client.options?.attachments

  /** Effects visible outside the controller, in the order they happen. */
  datatype Event =
    | AbortRequest                                       // abortController.abort()
    | CleanupCall                                        // performCleanup starts
    | RanHandler(name: string)
    | CleanupAbortController(abortKey: Value)
    | DisposeClient
    | TransformCall(text: Value, personality: Value)     // transformResponse(text, personality)
    | SendFinal(conversation: map<string, Value>, title: Value, requestMessage: Value, responseMessage: map<string, Value>)
    | EndResponse                                        // res.end()
    | SaveResponse(message: map<string, Value>)
    | SaveUserMessage(userMessage: Value)
    | AddTitle(text: Value, response: map<string, Value>)
    | HandleAbortError(conversationId: Value, sender: Value, messageId: Value, parentMessageId: Value, userMessageId: Value)

  /**
   * The controller's state: its variables, the cleanup-handler list (None
   * once cleared to `null`), the client (None for `null`), the endpoint
   * options, whether `req` is in the request-data map, the abort
   * controller's flags, and the trace.
   */
  datatype SessionState = SessionState(
    vars: RequestVars,
    handlers: Option<seq<Handler>>,
    client: Option<ClientInfo>,
    endpointOption: Value,
    inDataMap: bool,
    hasController: bool,
    aborted: bool,
    requestCompleted: bool,
    trace: seq<Event>)

  function Emit(s: SessionState, e: Event): SessionState
  {
    s.(trace := s.trace + [e])
  }

  // ---------------------------------------------------------------------
  // closeHandler
  // ---------------------------------------------------------------------

  /** closeHandler: abort, unless there is no controller or the request is already aborted or completed. */
  function Close(s: SessionState): (r: SessionState)
    ensures r.aborted == (s.aborted || (s.hasController && !s.requestCompleted))
    ensures r.(aborted := s.aborted, trace := s.trace) == s
    ensures r.trace == s.trace + (if r.aborted != s.aborted then [AbortRequest] else [])
  {
    if !s.hasController || s.aborted || s.requestCompleted then s
    else Emit(s.(aborted := true), AbortRequest)
  }

  /** A second close has no effect: at most one abort per request. */
  lemma CloseIdempotent(s: SessionState)
    ensures Close(Close(s)) == Close(s)
  {
  }

  // ---------------------------------------------------------------------
  // performCleanup
  // ---------------------------------------------------------------------

  /** The handler loop: every function is called once, in list order; a throw is caught and the loop goes on. */
  function HandlerRuns(handlers: seq<Handler>): (r: seq<Event>)
    ensures forall e | e in r :: e.RanHandler?
  {
    if handlers == [] then []
    else (if handlers[0].Callable? then [RanHandler(handlers[0].name)] else []) + HandlerRuns(handlers[1..])
  }

  /** The loop over a split list runs the first part, then the second. */
  lemma {:induction false} HandlerRunsAppend(a: seq<Handler>, b: seq<Handler>)
    ensures HandlerRuns(a + b) == HandlerRuns(a) + HandlerRuns(b)
  {
    if a != [] {
      HandlerRunsAppend(a[1..], b);
      assert (a + b)[1..] == a[1..] + b;
    } else {
      assert a + b == b;
    }
  }

  /** A handler that throws is still one call, and the handlers after it still run. */
  lemma ThrowingHandlerDoesNotStop(before: seq<Handler>, name: string, after: seq<Handler>)
    ensures HandlerRuns(before + [Callable(name, true)] + after)
         == HandlerRuns(before) + [RanHandler(name)] + HandlerRuns(after)
  {
    HandlerRunsAppend(before + [Callable(name, true)], after);
    HandlerRunsAppend(before, [Callable(name, true)]);
  }

  datatype CleanupResult = CleanupResult(state: SessionState, threw: bool)

  /** The events of one cleanup: its start, the handler calls, then the abort-controller release and the client disposal when due. */
  function CleanupEvents(s: SessionState): (es: seq<Event>)
    ensures |es| > 0 && es[0] == CleanupCall
    ensures forall e | e in es :: e.CleanupCall? || e.RanHandler? || e.CleanupAbortController? || e.DisposeClient?
  {
    [CleanupCall]
      + (if s.handlers.Some? then HandlerRuns(s.handlers.value) else [])
      + (if Truthy(s.vars.abortKey) then [CleanupAbortController(s.vars.abortKey)] else [])
      + (if s.client.Some? then [DisposeClient] else [])
  }

  /**
   * performCleanup: run the handlers, release the abort controller when
   * there is an abort key, dispose of the client when there is one, then
   * clear the references and leave the request-data map. Clearing
   * `endpointOption.agent` throws when `endpointOption` is `undefined` or
   * `null`, so such a call stops half way.
   */
  function Cleanup(s: SessionState): (r: CleanupResult)
    ensures r.state.trace == s.trace + CleanupEvents(s)
  {
    var cleared := s.(trace := s.trace + CleanupEvents(s), client := None, vars := s.vars.(userMessage := Null));
    if s.endpointOption.Undefined? || s.endpointOption.Null? then CleanupResult(cleared, true)
    else CleanupResult(cleared.(endpointOption := Null, handlers := None, inDataMap := false,
                                vars := cleared.vars.(userMessagePromise := Null)), false)
  }

  /**
   * One cleanup starts once, releases the abort controller exactly when
   * there is an abort key and disposes of the client exactly when there is
   * one.
   */
  lemma CleanupEventCounts(s: SessionState)
    ensures var es := CleanupEvents(s);
      && multiset(es)[CleanupCall] == 1
      && multiset(es)[CleanupAbortController(s.vars.abortKey)] == (if Truthy(s.vars.abortKey) then 1 else 0)
      && multiset(es)[DisposeClient] == (if s.client.Some? then 1 else 0)
  {
    var ran := if s.handlers.Some? then HandlerRuns(s.handlers.value) else [];
    assert CleanupCall !in ran && CleanupAbortController(s.vars.abortKey) !in ran && DisposeClient !in ran;
    assert multiset(ran)[CleanupCall] == 0;
    assert multiset(ran)[CleanupAbortController(s.vars.abortKey)] == 0;
    assert multiset(ran)[DisposeClient] == 0;
    var a := if Truthy(s.vars.abortKey) then [CleanupAbortController(s.vars.abortKey)] else [];
    var c := if s.client.Some? then [DisposeClient] else [];
    assert CleanupEvents(s) == [CleanupCall] + ran + a + c;
    assert multiset(CleanupEvents(s)) == multiset([CleanupCall]) + multiset(ran) + multiset(a) + multiset(c);
  }

  /**
   * A cleanup throws exactly when there are no endpoint options; it always
   * drops the client and the user message, and when it does not throw it
   * also drops the handler list and the options and leaves the map.
   */
  lemma CleanupTeardown(s: SessionState)
    ensures var r := Cleanup(s);
      && (r.threw <==> s.endpointOption.Undefined? || s.endpointOption.Null?)
      && r.state.client.None? && r.state.vars.userMessage == Null
      && (r.threw ==> r.state.handlers == s.handlers && r.state.inDataMap == s.inDataMap)
      && (!r.threw ==> r.state.handlers.None? && !r.state.inDataMap && r.state.endpointOption == Null
                       && r.state.vars.userMessagePromise == Null)
      && r.state.(trace := s.trace, client := s.client, handlers := s.handlers, endpointOption := s.endpointOption,
                  inDataMap := s.inDataMap, vars := s.vars) == s
  {
  }

  /**
   * Cleaning up twice is not safe: the second call finds no endpoint
   * options and throws, after running no handler and releasing the abort
   * controller a second time when there is an abort key.
   */
  lemma SecondCleanupThrows(s: SessionState)
    requires !Cleanup(s).threw
    ensures var once := Cleanup(s).state;
      && Cleanup(once).threw
      && Cleanup(once).state.trace
         == once.trace + [CleanupCall] + (if Truthy(s.vars.abortKey) then [CleanupAbortController(s.vars.abortKey)] else [])
  {
  }

  // ---------------------------------------------------------------------
  // Attachments
  // ---------------------------------------------------------------------

  /** `new Set(files.map(f => f.file_id))`; None when `files` is not an array or holds `undefined`/`null`. */
  function RequestedIds(files: Value): (r: Option<set<Value>>)
    ensures r.Some? <==> files.Arr? && forall i | 0 <= i < |files.items| :: !(files.items[i].Undefined? || files.items[i].Null?)
    ensures r.Some? ==> forall x :: x in r.value <==> exists i | 0 <= i < |files.items| :: x == Prop(files.items[i], "file_id").value
  {
    if files.Arr? && forall i | 0 <= i < |files.items| :: !(files.items[i].Undefined? || files.items[i].Null?) then
      Some(set i | 0 <= i < |files.items| :: Prop(files.items[i], "file_id").value)
    else None
  }

  /** What `for (x of v)` iterates over: an array's items or a string's characters; None when it throws. */
  function Iterated(v: Value): (r: Option<seq<Value>>)
    ensures v.Arr? ==> r == Some(v.items)
    ensures r.None? <==> !(v.Arr? || v.Str?)
  {
    match v
    case Arr(items) => Some(items)
    case Str(s) => Some(seq(|s|, i requires 0 <= i < |s| => Str([s[i]])))
    case _ => None
  }

  /** `{ ...attachment }` */
  function Copy(v: Value): Value
  {
    Obj(Spread(v))
  }

  /**
   * The attachment loop: a copy of each attachment whose `file_id` was
   * requested, in attachment order; None when an attachment is `undefined`
   * or `null`.
   */
  function Kept(ids: set<Value>, attachments: seq<Value>): (r: Option<seq<Value>>)
    ensures r.Some? <==> forall i | 0 <= i < |attachments| :: !(attachments[i].Undefined? || attachments[i].Null?)
    ensures r.Some? ==> |r.value| <= |attachments|
    decreases |attachments|
  {
    if attachments == [] then Some([])
    else
      var last := attachments[|attachments| - 1];
      match Kept(ids, attachments[..|attachments| - 1])
      case None => None
      case Some(k) =>
        match Prop(last, "file_id")
        case None => None
        case Some(id) => Some(if id in ids then k + [Copy(last)] else k)
  }

  /** Kept holds exactly the copies of the requested attachments, in their order. */
  lemma {:induction false} KeptMembers(ids: set<Value>, attachments: seq<Value>)
    requires Kept(ids, attachments).Some?
    ensures forall x :: x in Kept(ids, attachments).value <==>
      exists i | 0 <= i < |attachments| :: Prop(attachments[i], "file_id").value in ids && x == Copy(attachments[i])
    decreases |attachments|
  {
    if attachments != [] {
      var init := attachments[..|attachments| - 1];
      KeptMembers(ids, init);
      forall i | 0 <= i < |init| ensures init[i] == attachments[i] {}
    }
  }

  /**
   * Filtering a list in two parts filters each part: the kept copies of the
   * first part come first, in their order, then those of the second; and
   * the filter throws when either part does.
   */
  lemma {:induction false} KeptAppend(ids: set<Value>, a: seq<Value>, b: seq<Value>)
    ensures Kept(ids, a + b) == match (Kept(ids, a), Kept(ids, b))
      case (Some(x), Some(y)) => Some(x + y)
      case _ => None
    decreases |b|
  {
    if b == [] {
      assert a + b == a;
      assert Kept(ids, b) == Some([]);
      if Kept(ids, a).Some? {
        assert Kept(ids, a).value + [] == Kept(ids, a).value;
      }
    } else {
      var init := b[..|b| - 1];
      var last := b[|b| - 1];
      assert (a + b)[..|a + b| - 1] == a + init;
      assert (a + b)[|a + b| - 1] == last;
      KeptAppend(ids, a, init);
      assert Kept(ids, b) == match Kept(ids, init)
        case None => None
        case Some(k) => (match Prop(last, "file_id")
          case None => None
          case Some(id) => Some(if id in ids then k + [Copy(last)] else k));
      assert Kept(ids, a + b) == match Kept(ids, a + init)
        case None => None
        case Some(k) => (match Prop(last, "file_id")
          case None => None
          case Some(id) => Some(if id in ids then k + [Copy(last)] else k));
      if Kept(ids, a).Some? && Kept(ids, init).Some? && Prop(last, "file_id").Some? {
        var x, y := Kept(ids, a).value, Kept(ids, init).value;
        assert x + (y + [Copy(last)]) == (x + y) + [Copy(last)];
      }
    }
  }

  /** A single attachment is kept, as a copy, exactly when its `file_id` was requested. */
  lemma KeptOne(ids: set<Value>, x: Value)
    requires !(x.Undefined? || x.Null?)
    ensures Kept(ids, [x]) == Some(if Prop(x, "file_id").value in ids then [Copy(x)] else [])
  {
    assert [x][..0] == [];
    assert Kept(ids, [x]) == Some(if Prop(x, "file_id").value in ids then [] + [Copy(x)] else []);
    assert [] + [Copy(x)] == [Copy(x)];
  }

  /**
   * Lines 220-229: when the request lists files and the client has
   * attachments, the user message gets `files` (the kept copies) and loses
   * `image_urls`. None when this throws: no user message, files that are
   * not an array, attachments that cannot be iterated, an `undefined` or
   * `null` entry, or a primitive user message that would receive a file.
   */
  function AttachFiles(body: map<string, Value>, client: ClientInfo, userMessage: Value): (r: Option<Value>)
    ensures !(Truthy(Field(body, "files")) && Truthy(client.attachments)) ==> r == Some(userMessage)
    ensures r.Some? && r.value != userMessage ==> userMessage.Obj? && r.value.Obj? && "files" in r.value.fields && "image_urls" !in r.value.fields
    ensures Truthy(Field(body, "files")) && Truthy(client.attachments) && userMessage.Obj? && r.Some? ==>
      && RequestedIds(Field(body, "files")).Some? && Iterated(client.attachments).Some?
      && Kept(RequestedIds(Field(body, "files")).value, Iterated(client.attachments).value).Some?
      && r.value == Obj(userMessage.fields["files" := Arr(Kept(RequestedIds(Field(body, "files")).value,
                                                                 Iterated(client.attachments).value).value)] - {"image_urls"})
  {
    if !(Truthy(Field(body, "files")) && Truthy(client.attachments)) then Some(userMessage)
    else if userMessage.Undefined? || userMessage.Null? then None
    else
      match (RequestedIds(Field(body, "files")), Iterated(client.attachments))
      case (Some(ids), Some(attachments)) =>
        (match Kept(ids, attachments)
         case None => None
         case Some(kept) =>
           if userMessage.Obj? then Some(Obj(userMessage.fields["files" := Arr(kept)] - {"image_urls"}))
           else if kept == [] then Some(userMessage)
           else None)
      case _ => None
  }

  // ---------------------------------------------------------------------
  // The personality rewrite of the final response
  // ---------------------------------------------------------------------

  /** `v[0]` */
  function Index0(v: Value): Value
  {
    match v
    case Arr(items) => if |items| > 0 then items[0] else Undefined
    case Obj(fields) => Field(fields, "0")
    case Str(s) => if |s| > 0 then Str([s[0]]) else Undefined
    case _ => Undefined
  }

  /** `content && content[0] && content[0].text` */
  function FirstText(content: Value): (r: Value)
    ensures Truthy(r) ==> Index0(content).Obj? && r == Field(Index0(content).fields, "text")
  {
    if !Truthy(content) then content
    else if !Truthy(Index0(content)) then Index0(content)
    else Prop(Index0(content), "text").value
  }

  /** The text to rewrite: `text`, or else the first content part's text. */
  function ResponseText(response: map<string, Value>): (r: Value)
    ensures Truthy(Field(response, "text")) ==> r == Field(response, "text")
    ensures !Truthy(Field(response, "text")) ==> r == FirstText(Field(response, "content"))
  {
    Or(Field(response, "text"), FirstText(Field(response, "content")))
  }

  /** `content[0].text = t`, for content whose first part is an object. */
  function SetFirstText(content: Value, t: Value): (r: Value)
    requires Index0(content).Obj?
    ensures Index0(r) == Obj(Index0(content).fields["text" := t])
  {
    match content
    case Arr(items) => Arr(items[0 := Obj(items[0].fields["text" := t])])
    case Obj(fields) => Obj(fields["0" := Obj(fields["0"].fields["text" := t])])
  }

  /**
   * The copy that is sent (`finalResponse`) and the response itself after
   * the write-back. They share the content parts, so a rewrite of the first
   * part's text shows in both.
   */
  datatype Rewritten = Rewritten(final: map<string, Value>, response: map<string, Value>)

  /** Lines 259-266: write a new, different, truthy text back into the fields that held text. */
  function WriteBack(response: map<string, Value>, text: Value, t: Value): (w: Rewritten)
  {
    if !Truthy(t) || t == text then Rewritten(response, response)
    else
      var final := if Truthy(Field(response, "text")) then response["text" := t] else response;
      var content := Field(response, "content");
      if Truthy(FirstText(content)) then
        Rewritten(final["content" := SetFirstText(content, t)], response["content" := SetFirstText(content, t)])
      else Rewritten(final, response)
  }

  /**
   * The write-back only touches fields that already held text, only with a
   * truthy text that differs from the original, and leaves every other
   * field alone; the response keeps its own `text` but shares the rewritten
   * content part with the copy.
   */
  lemma WriteBackFields(response: map<string, Value>, text: Value, t: Value)
    ensures var w := WriteBack(response, text, t);
      && w.final.Keys == response.Keys && w.response.Keys == response.Keys
      && (forall k | k in response && k != "text" && k != "content" :: w.final[k] == response[k] && w.response[k] == response[k])
      && (w.final != response ==> Truthy(t) && t != text)
      && (Field(w.final, "text") != Field(response, "text") ==> Truthy(Field(response, "text")) && Field(w.final, "text") == t)
      && (Field(w.final, "content") != Field(response, "content") ==>
            Truthy(FirstText(Field(response, "content"))) && FirstText(Field(w.final, "content")) == t)
      && Field(w.response, "text") == Field(response, "text")
      && Field(w.response, "content") == Field(w.final, "content")
  {
    var w := WriteBack(response, text, t);
    var content := Field(response, "content");
    if Truthy(t) && t != text && Truthy(FirstText(content)) {
      var c := SetFirstText(content, t);
      assert Index0(c) == Obj(Index0(content).fields["text" := t]);
      assert Field(Index0(c).fields, "text") == t;
    }
  }

  /** The rewritten text comes back in both places that held the original. */
  lemma WriteBackBoth(response: map<string, Value>, t: Value)
    requires Truthy(Field(response, "text")) && Truthy(FirstText(Field(response, "content")))
    requires Truthy(t) && t != ResponseText(response)
    ensures var w := WriteBack(response, ResponseText(response), t);
      Field(w.final, "text") == t && FirstText(Field(w.final, "content")) == t
  {
    WriteBackFields(response, ResponseText(response), t);
  }

  // ---------------------------------------------------------------------
  // The database result
  // ---------------------------------------------------------------------

  /**
   * Lines 214-217: `{ conversation: convoData = {} }` from the resolved
   * database result, copied, with its title normalised. None when the result
   * is `undefined` or `null` and the destructuring throws.
   */
  function ConversationOf(database: Value): (r: Option<map<string, Value>>)
    ensures r.None? <==> database.Undefined? || database.Null?
    ensures r.Some? ==> "title" in r.value && (r.value["title"] == Null || Truthy(r.value["title"]))
  {
    match Prop(database, "conversation")
    case None => None
    case Some(convo) =>
      var conversation := Spread(if convo.Undefined? then Obj(map[]) else convo);
      Some(conversation["title" := NormalizeTitle(conversation)])
  }

  // ---------------------------------------------------------------------
  // One request, from the client's initialisation to the last cleanup
  // ---------------------------------------------------------------------

  /** The request as the controller reads it. */
  datatype Request = Request(body: map<string, Value>, headers: map<string, Value>, userId: Value)

  /**
   * What the collaborators do, taken as given: whether initializeClient
   * resolves and with which client, whether the abort controller exists and
   * was already completed, the data the client reports through getReqData
   * while generating, the generated response (or the failure), the database
   * result, whether `close` fires before the abort check, the personality
   * rewrite, whether each save succeeds, whether a title generator is
   * configured, and the no-parent constant.
   */
  datatype Outcomes = Outcomes(
    init: Result<ClientInfo>,
    hasController: bool,
    requestCompleted: bool,
    reported: seq<(string, Value)>,
    sent: Result<map<string, Value>>,
    database: Result<Value>,
    closedBeforeCheck: bool,
    transform: (Value, Value) -> Result<Value>,
    saveResponseOk: bool,
    saveUserOk: bool,
    titleEnabled: bool,
    noParent: Value)

  /**
   * Where the request's own steps stop: the state the cleanup is started
   * from, and whether it is started inside the `try` (line 324), where a
   * throw would be caught, or from a promise's `finally`.
   */
  datatype Ending = Ending(pending: SessionState, inTry: bool)

  /**
   * How a request ends: the state the last cleanup started from, the state
   * after it, and whether that cleanup threw.
   */
  datatype Run = Run(pending: SessionState, final: SessionState, threw: bool)

  /** The last event of a trace, if any. */
  function Last(t: seq<Event>): (r: Option<Event>)
    ensures r.Some? <==> |t| > 0
    ensures |t| > 0 ==> r.value == t[|t| - 1]
  {
    if |t| == 0 then None else Some(t[|t| - 1])
  }

  /** A destructuring default: `undefined` becomes `d`. */
  function Default(v: Value, d: Value): (r: Value)
    ensures v.Undefined? ==> r == d
    ensures !v.Undefined? ==> r == v
  {
    if v.Undefined? then d else v
  }

  /** The controller's state before the client is initialised. */
  function Start(req: Request): (s: SessionState)
    ensures s.trace == [] && s.handlers == Some([]) && s.client.None? && !s.inDataMap && !s.aborted
    ensures s.endpointOption == Field(req.body, "endpointOption")
    ensures s.vars.conversationId == Field(req.body, "conversationId")
  {
    SessionState(
      RequestVars(Undefined, Undefined, Undefined, Undefined, Undefined, Undefined, Undefined, Field(req.body, "conversationId")),
      Some([]), None, Field(req.body, "endpointOption"), false, false, false, false, [])
  }

  /** The endpoint options can be read: line 206 and line 113 do not throw. */
  predicate HasOptions(s: SessionState)
  {
    !(s.endpointOption.Undefined? || s.endpointOption.Null?)
  }

  /**
   * The request's steps from `s` to `e` start no cleanup and keep the
   * endpoint options, and a cleanup started inside the `try` has options
   * to clear.
   */
  predicate Leads(s: SessionState, e: Ending)
  {
    && multiset(e.pending.trace)[CleanupCall] == multiset(s.trace)[CleanupCall]
    && e.pending.endpointOption == s.endpointOption
    && (e.inTry ==> HasOptions(s))
  }

  /** An event other than the cleanup's start leaves the number of cleanups as it was. */
  lemma EmitKeepsCleanups(s: SessionState, e: Event)
    requires !e.CleanupCall?
    ensures multiset(Emit(s, e).trace)[CleanupCall] == multiset(s.trace)[CleanupCall]
    ensures Emit(s, e).endpointOption == s.endpointOption
  {
  }

  /** Steps that start no cleanup and keep the endpoint options can be put in front. */
  lemma LeadsFrom(s: SessionState, t: SessionState, e: Ending)
    requires multiset(t.trace)[CleanupCall] == multiset(s.trace)[CleanupCall] && t.endpointOption == s.endpointOption
    ensures HasOptions(t) ==> Leads(t, e) ==> Leads(s, e)
    ensures HasOptions(s) == HasOptions(t)
  {
  }

  /** From `s` to `e` the request only saves the user message, asks for a title or reports an error. */
  predicate Settles(s: SessionState, e: Ending)
  {
    && s.trace <= e.pending.trace
    && forall ev | ev in e.pending.trace[|s.trace|..] :: ev.SaveUserMessage? || ev.AddTitle? || ev.HandleAbortError?
  }

  lemma SettlesAfterSave(s: SessionState, e: Ending)
    requires Settles(Emit(s, SaveUserMessage(s.vars.userMessage)), e)
    ensures Settles(s, e)
  {
    var t := Emit(s, SaveUserMessage(s.vars.userMessage)).trace;
    assert e.pending.trace[|s.trace|..] == [SaveUserMessage(s.vars.userMessage)] + e.pending.trace[|t|..];
  }

  /**
   * The gates of lines 232-298 on a trace: the final event is sent at most
   * once and the response ended at most once, neither of them when the
   * request was aborted at the check of line 232; the
   * response is saved only when `saveDue`, and only after the response was
   * ended; a rewrite is asked for only with the request's personality,
   * never 'neutral', and a non-empty text.
   */
  predicate Gated(req: Request, saveDue: bool, t: seq<Event>)
  {
    && multiset(t)[EndResponse] <= 1
    && (forall i, j | 0 <= i < j < |t| :: !(t[i].SendFinal? && t[j].SendFinal?))
    && (EndResponse in t ==> AbortRequest !in t)
    && (forall ev | ev in t && ev.SendFinal? :: AbortRequest !in t)
    && (forall ev | ev in t && ev.SaveResponse? :: saveDue)
    && (forall j | 0 <= j < |t| && t[j].SaveResponse? :: EndResponse in t[..j])
    && (forall ev | ev in t && ev.TransformCall? ::
          ev.personality == GetUserPersonality(req.body, req.headers) && ev.personality != Str("neutral") && Truthy(ev.text))
  }

  /** The ids the catch block reports the error under. */
  function ReportedError(s: SessionState, body: map<string, Value>): (e: Event)
    ensures e.HandleAbortError? && e.conversationId == s.vars.conversationId && e.messageId == s.vars.responseMessageId
  {
    var v := s.vars;
    var parent := Coalesce(Default(Field(body, "overrideParentMessageId"), Null), Coalesce(v.userMessageId, Default(Field(body, "parentMessageId"), Null)));
    HandleAbortError(v.conversationId, v.sender, v.responseMessageId, parent, v.userMessageId)
  }

  /**
   * The catch block (lines 327-342): report the error with the ids known
   * so far; the cleanup follows once the report settles.
   */
  function Fail(s: SessionState, body: map<string, Value>): (e: Ending)
    ensures Leads(s, e) && !e.inTry && Settles(s, e)
    ensures e.pending.trace == s.trace + [ReportedError(s, body)]
  {
    Ending(Emit(s, ReportedError(s, body)), false)
  }

  /**
   * Lines 308-326: with a title to generate, ask for it and clean up once
   * it settles; otherwise clean up at once, inside the `try`.
   */
  function Finish(s: SessionState, body: map<string, Value>, titleDue: bool, response: map<string, Value>): (e: Ending)
    ensures HasOptions(s) ==> Leads(s, e)
    ensures titleDue ==> e == Ending(Emit(s, AddTitle(Field(body, "text"), response)), false)
    ensures !titleDue ==> e == Ending(s, true)
    ensures Settles(s, e)
  {
    if titleDue then Ending(Emit(s, AddTitle(Field(body, "text"), response)), false) else Ending(s, true)
  }

  /** A title is generated for a new conversation whose parent is the no-parent id, when a generator is configured. */
  predicate TitleDue(body: map<string, Value>, o: Outcomes)
  {
    o.titleEnabled && Default(Field(body, "parentMessageId"), Null) == o.noParent && !Truthy(Field(body, "conversationId"))
  }

  /** Lines 299-326: save the user message unless the client skips it, then schedule the cleanup. */
  function AfterCheck(s: SessionState, body: map<string, Value>, client: ClientInfo, response: map<string, Value>, o: Outcomes): (e: Ending)
    ensures HasOptions(s) ==> Leads(s, e)
    ensures Settles(s, e)
  {
    if client.skipSaveUserMessage then Finish(s, body, TitleDue(body, o), response)
    else
      var saved := Emit(s, SaveUserMessage(s.vars.userMessage));
      var e := if o.saveUserOk then Finish(saved, body, TitleDue(body, o), response) else Fail(saved, body);
      SettlesAfterSave(s, e);
      EmitKeepsCleanups(s, SaveUserMessage(s.vars.userMessage));
      LeadsFrom(s, saved, e);
      e
  }
  /**
   * The user message is saved unless the client skips it. The cleanup is
   * then scheduled after the title request when a title is due, at once
   * otherwise, and after the error report when the save fails.
   */
  lemma AfterCheckSchedule(s: SessionState, body: map<string, Value>, client: ClientInfo, response: map<string, Value>, o: Outcomes)
    ensures var e := AfterCheck(s, body, client, response, o);
      && (!client.skipSaveUserMessage ==> s.trace + [SaveUserMessage(s.vars.userMessage)] <= e.pending.trace)
      && ((client.skipSaveUserMessage || o.saveUserOk) && TitleDue(body, o) ==>
            !e.inTry && Last(e.pending.trace) == Some(AddTitle(Field(body, "text"), response)))
      && ((client.skipSaveUserMessage || o.saveUserOk) && !TitleDue(body, o) ==> e.inTry)
      && (!(client.skipSaveUserMessage || o.saveUserOk) ==> !e.inTry && Last(e.pending.trace).Some? && Last(e.pending.trace).value.HandleAbortError?)
  {
    var saved := Emit(s, SaveUserMessage(s.vars.userMessage));
    if !client.skipSaveUserMessage {
      var e := AfterCheck(s, body, client, response, o);
      assert e == if o.saveUserOk then Finish(saved, body, TitleDue(body, o), response) else Fail(saved, body);
    }
  }


  /** The rewrite is attempted for a personality other than 'neutral' and a non-empty text. */
  predicate RewriteDue(req: Request, final: map<string, Value>)
  {
    GetUserPersonality(req.body, req.headers) != Str("neutral") && Truthy(ResponseText(final))
  }

  /**
   * Lines 237-279: the text is rewritten only for a personality other than
   * 'neutral' and a non-empty text; a failed rewrite is swallowed and the
   * response is sent as it was.
   */
  function Personalise(req: Request, final: map<string, Value>, transform: (Value, Value) -> Result<Value>): (w: Rewritten)
    ensures !RewriteDue(req, final) ==> w == Rewritten(final, final)
    ensures RewriteDue(req, final) && transform(ResponseText(final), GetUserPersonality(req.body, req.headers)).Err? ==>
      w == Rewritten(final, final)
  {
    var personality := GetUserPersonality(req.body, req.headers);
    var text := ResponseText(final);
    if RewriteDue(req, final) then
      match transform(text, personality)
      case Ok(t) => WriteBack(final, text, t)
      case Err(_) => Rewritten(final, final)
    else Rewritten(final, final)
  }

  /** The response is saved only when the client keeps a set of saved ids that lacks this message's id. */
  predicate SaveDue(client: ClientInfo, messageId: Value)
  {
    client.savedMessageIds.Some? && messageId !in client.savedMessageIds.value
  }

  /** The rewrite call, when due. */
  function RewriteCall(req: Request, response: map<string, Value>): seq<Event>
  {
    if RewriteDue(req, response) then [TransformCall(ResponseText(response), GetUserPersonality(req.body, req.headers))] else []
  }

  /** The response save, when due: the sent response with the user's id. */
  function ResponseSave(req: Request, w: Rewritten, saveDue: bool): seq<Event>
  {
    if saveDue then [SaveResponse(w.final["user" := req.userId])] else []
  }

  /** Lines 234-298: a live request's events, in order: the rewrite call when due, the final event, the end, the save when due. */
  function DeliveryEvents(req: Request, response: map<string, Value>, w: Rewritten, saveDue: bool,
                          conversation: map<string, Value>, userMessage: Value): seq<Event>
  {
    RewriteCall(req, response)
      + [SendFinal(conversation, Field(conversation, "title"), userMessage, w.final), EndResponse]
      + ResponseSave(req, w, saveDue)
  }

  /**
   * Lines 232-298, when the request was not aborted: rewrite, send the
   * final event, end the response, save it when due (a failed save throws),
   * then go on as an aborted request would.
   */
  function Deliver(s: SessionState, req: Request, client: ClientInfo, response: map<string, Value>, messageId: Value,
                   conversation: map<string, Value>, o: Outcomes): (e: Ending)
    ensures HasOptions(s) ==> Leads(s, e)
    ensures Settles(s.(trace := s.trace + DeliveryEvents(req, response, Personalise(req, response, o.transform),
                                                         SaveDue(client, messageId), conversation, s.vars.userMessage)), e)
  {
    var w := Personalise(req, response, o.transform);
    var events := DeliveryEvents(req, response, w, SaveDue(client, messageId), conversation, s.vars.userMessage);
    var sent := s.(trace := s.trace + events);
    assert CleanupCall !in RewriteCall(req, response) && CleanupCall !in ResponseSave(req, w, SaveDue(client, messageId));
    assert multiset(events)[CleanupCall] == 0;
    var e := if SaveDue(client, messageId) && !o.saveResponseOk then Fail(sent, req.body)
             else AfterCheck(sent, req.body, client, w.response, o);
    LeadsFrom(s, sent, e);
    e
  }

  /** The request at the abort check of line 232: its state, the tagged response and the conversation. */
  datatype Checkpoint = Checkpoint(state: SessionState, response: map<string, Value>, conversation: map<string, Value>)

  /**
   * Lines 204-231, once the client has answered: tag the response with the
   * endpoint, read the conversation and attach the files; a close that
   * fires before the check aborts the request. None when one of these
   * steps throws.
   */
  function BeforeCheck(s: SessionState, req: Request, client: ClientInfo, generated: map<string, Value>, o: Outcomes): (c: Option<Checkpoint>)
    ensures c.None? <==> !HasOptions(s) || o.database.Err? || ConversationOf(o.database.value).None?
                         || AttachFiles(req.body, client, s.vars.userMessage).None?
    ensures c.Some? ==>
      && c.value.state.endpointOption == s.endpointOption
      && c.value.state.aborted == (s.aborted || (o.closedBeforeCheck && s.hasController && !s.requestCompleted))
      && c.value.state.trace == s.trace + (if c.value.state.aborted != s.aborted then [AbortRequest] else [])
      && c.value.state.hasController == s.hasController
      && c.value.state.vars == s.vars.(userMessage := AttachFiles(req.body, client, s.vars.userMessage).value)
      && c.value.response == generated["endpoint" := Prop(s.endpointOption, "endpoint").value] - {"databasePromise"}
  {
    match Prop(s.endpointOption, "endpoint")
    case None => None
    case Some(endpoint) =>
      var conversation := if o.database.Ok? then ConversationOf(o.database.value) else None;
      var userMessage := AttachFiles(req.body, client, s.vars.userMessage);
      if conversation.None? || userMessage.None? then None
      else
        var checked := s.(vars := s.vars.(userMessage := userMessage.value));
        var closed := if o.closedBeforeCheck then Close(checked) else checked;
        Some(Checkpoint(closed, generated["endpoint" := endpoint] - {"databasePromise"}, conversation.value))
  }

  /**
   * Line 232: a live request is delivered; an aborted one only saves the
   * user message and schedules the cleanup. Reading the abort signal throws
   * when there is no abort controller.
   */
  function AtCheck(c: Checkpoint, req: Request, client: ClientInfo, messageId: Value, o: Outcomes): (e: Ending)
    ensures HasOptions(c.state) ==> Leads(c.state, e)
  {
    if !c.state.hasController then Fail(c.state, req.body)
    else if c.state.aborted then AfterCheck(c.state, req.body, client, c.response, o)
    else Deliver(c.state, req, client, c.response, messageId, c.conversation, o)
  }

  /**
   * Lines 204-342 once the client has answered: up to the abort check,
   * then delivery when the request is live, or only the user message's
   * save and the title when it was aborted. Reading the abort signal
   * throws when there is no abort controller.
   */
  function Generated(s: SessionState, req: Request, client: ClientInfo, generated: map<string, Value>, o: Outcomes): (e: Ending)
    ensures Leads(s, e)
  {
    match BeforeCheck(s, req, client, generated, o)
    case None => Fail(s, req.body)
    case Some(c) =>
      var e := AtCheck(c, req, client, Field(generated, "messageId"), o);
      EmitKeepsCleanups(s.(aborted := true, vars := c.state.vars), AbortRequest);
      assert multiset(c.state.trace)[CleanupCall] == multiset(s.trace)[CleanupCall];
      LeadsFrom(s, c.state, e);
      e
  }

  /**
   * AgentController's steps from line 125 on: initialise the client,
   * register it in the request-data map and the close listener's removal
   * as a cleanup handler, let the client generate (reporting its data
   * through getReqData), and go on with the response; any throw goes to
   * the catch block.
   */
  function Steps(req: Request, o: Outcomes): (e: Ending)
    ensures Leads(Start(req), e)
  {
    var s := Start(req);
    match o.init
    case Err(_) => Fail(s, req.body)
    case Ok(client) =>
      var registered := s.(client := Some(client), inDataMap := true, hasController := o.hasController,
                           requestCompleted := o.requestCompleted, handlers := Some([RemoveCloseListener]));
      var a := ApplyReqData(registered.vars, o.reported);
      var reported := registered.(vars := a.vars);
      if a.threw || o.sent.Err? then Fail(reported, req.body) else Generated(reported, req, client, o.sent.value, o)
  }

  /**
   * The whole request: its steps, then the cleanup. A cleanup started
   * inside the `try` that threw would be caught, reported, and followed by
   * the catch block's own cleanup.
   */
  function RunSpec(req: Request, o: Outcomes): (r: Run)
  {
    var e := Steps(req, o);
    var c := Cleanup(e.pending);
    if e.inTry && c.threw then
      var f := Fail(c.state, req.body);
      var c2 := Cleanup(f.pending);
      Run(f.pending, c2.state, c2.threw)
    else Run(e.pending, c.state, c.threw)
  }

  /**
   * On every path, whatever the collaborators do, the cleanup runs exactly
   * once, as the last thing the request does, and it throws exactly when
   * the request carried no endpoint options.
   */
  lemma CleanupRunsOnce(req: Request, o: Outcomes)
    ensures var r := RunSpec(req, o);
      && multiset(r.final.trace)[CleanupCall] == 1
      && r.final.trace == r.pending.trace + CleanupEvents(r.pending)
      && Cleanup(r.pending) == CleanupResult(r.final, r.threw)
      && (r.threw <==> Field(req.body, "endpointOption").Undefined? || Field(req.body, "endpointOption").Null?)
      && r.final.client.None?
      && (!r.threw ==> r.final.handlers.None? && !r.final.inDataMap)
  {
    var e := Steps(req, o);
    CleanupTeardown(e.pending);
    assert !(e.inTry && Cleanup(e.pending).threw);
    CleanupEventCounts(e.pending);
    assert multiset(e.pending.trace)[CleanupCall] == 0;
  }

  // ---------------------------------------------------------------------
  // The delivery gates
  // ---------------------------------------------------------------------

  /** Events that open no gate: saves of the user message, titles, error reports and the cleanup's own. */
  predicate Inert(t: seq<Event>)
  {
    forall ev | ev in t :: !(ev.EndResponse? || ev.AbortRequest? || ev.SendFinal? || ev.SaveResponse? || ev.TransformCall?)
  }

  lemma GatedAppend(req: Request, saveDue: bool, a: seq<Event>, b: seq<Event>)
    requires Gated(req, saveDue, a) && Inert(b)
    ensures Gated(req, saveDue, a + b)
  {
    assert EndResponse !in b && AbortRequest !in b;
    assert multiset(b)[EndResponse] == 0;
    assert multiset(a + b) == multiset(a) + multiset(b);
    forall ev | ev in a + b ensures ev in a || ev in b {}
    forall k | 0 <= k < |a| ensures (a + b)[k] == a[k] && (a + b)[..k] == a[..k] {}
    forall k | |a| <= k < |a + b| ensures !(a + b)[k].SendFinal? && !(a + b)[k].SaveResponse? {
      assert (a + b)[k] == b[k - |a|];
      assert (a + b)[k] in b;
    }
  }

  /** Saving the user message, asking for a title or reporting an error opens no gate. */
  lemma SettledGated(req: Request, saveDue: bool, s: SessionState, e: Ending)
    requires Settles(s, e) && Gated(req, saveDue, s.trace)
    ensures Gated(req, saveDue, e.pending.trace)
  {
    var tail := e.pending.trace[|s.trace|..];
    assert e.pending.trace == s.trace + tail;
    GatedAppend(req, saveDue, s.trace, tail);
  }

  /** A live request's own delivery events pass the gates. */
  lemma DeliveryEventsGated(req: Request, response: map<string, Value>, w: Rewritten, saveDue: bool,
                            conversation: map<string, Value>, userMessage: Value)
    ensures Gated(req, saveDue, DeliveryEvents(req, response, w, saveDue, conversation, userMessage))
  {
    var called, done := RewriteCall(req, response), ResponseSave(req, w, saveDue);
    DeliveryShapeGated(req, saveDue, called, SendFinal(conversation, Field(conversation, "title"), userMessage, w.final), done);
  }

  /**
   * Rewrite calls with the request's personality, then one final event and
   * the end, then saves that are due: such a trace passes the gates.
   */
  lemma DeliveryShapeGated(req: Request, saveDue: bool, called: seq<Event>, sent: Event, done: seq<Event>)
    requires sent.SendFinal?
    requires forall ev | ev in called :: ev.TransformCall? && ev.personality == GetUserPersonality(req.body, req.headers)
                                          && ev.personality != Str("neutral") && Truthy(ev.text)
    requires forall ev | ev in done :: ev.SaveResponse? && saveDue
    ensures Gated(req, saveDue, called + [sent, EndResponse] + done)
  {
    var middle := [sent, EndResponse];
    var t := called + middle + done;
    assert EndResponse !in called && EndResponse !in done;
    assert multiset(called)[EndResponse] == 0 && multiset(done)[EndResponse] == 0 && multiset(middle)[EndResponse] == 1;
    assert multiset(t) == multiset(called) + multiset(middle) + multiset(done);
    assert AbortRequest !in called && AbortRequest !in middle && AbortRequest !in done;
    forall ev | ev in t ensures ev in called || ev in middle || ev in done {}
    SentThenSaved(called, sent, done);
  }

  /** Sending once between the rewrite calls and the saves, then ending, orders every save after the end. */
  lemma SentThenSaved(called: seq<Event>, sent: Event, done: seq<Event>)
    requires sent.SendFinal?
    requires forall ev | ev in called :: !ev.SendFinal? && !ev.SaveResponse?
    requires forall ev | ev in done :: !ev.SendFinal?
    ensures var t := called + [sent, EndResponse] + done;
      && (forall i, j | 0 <= i < j < |t| :: !(t[i].SendFinal? && t[j].SendFinal?))
      && (forall j | 0 <= j < |t| && t[j].SaveResponse? :: EndResponse in t[..j])
  {
    var t := called + [sent, EndResponse] + done;
    var c := |called|;
    forall k | 0 <= k < c ensures t[k] == called[k] && !t[k].SendFinal? && !t[k].SaveResponse? {
      assert called[k] in called;
    }
    assert t[c] == sent && t[c + 1] == EndResponse;
    forall k | c + 2 <= k < |t| ensures t[k] == done[k - c - 2] && !t[k].SendFinal? && t[..k][c + 1] == EndResponse {
      assert done[k - c - 2] in done;
    }
  }

  /** A live request's delivery passes the gates. */
  lemma DeliverGated(s: SessionState, req: Request, client: ClientInfo, response: map<string, Value>, messageId: Value,
                     conversation: map<string, Value>, o: Outcomes)
    requires s.trace == []
    ensures Gated(req, SaveDue(client, messageId), Deliver(s, req, client, response, messageId, conversation, o).pending.trace)
  {
    var w := Personalise(req, response, o.transform);
    var due := SaveDue(client, messageId);
    DeliveryEventsGated(req, response, w, due, conversation, s.vars.userMessage);
    SentGated(req, due, s, DeliveryEvents(req, response, w, due, conversation, s.vars.userMessage),
              Deliver(s, req, client, response, messageId, conversation, o));
  }

  /** Gated events emitted from a clean trace stay gated once the request settles. */
  lemma SentGated(req: Request, saveDue: bool, s: SessionState, events: seq<Event>, e: Ending)
    requires s.trace == [] && Gated(req, saveDue, events) && Settles(s.(trace := s.trace + events), e)
    ensures Gated(req, saveDue, e.pending.trace)
  {
    assert s.trace + events == events;
    SettledGated(req, saveDue, s.(trace := s.trace + events), e);
  }

  /** An abort alone opens no gate. */
  lemma AbortGated(req: Request, saveDue: bool, t: seq<Event>)
    requires t == [] || t == [AbortRequest]
    ensures Gated(req, saveDue, t)
  {
    assert multiset(t)[EndResponse] == 0;
  }

  /** Whatever happens at the abort check, the request passes the gates. */
  lemma AtCheckGated(c: Checkpoint, req: Request, client: ClientInfo, messageId: Value, o: Outcomes)
    requires c.state.trace == [] || (c.state.aborted && c.state.trace == [AbortRequest])
    ensures Gated(req, SaveDue(client, messageId), AtCheck(c, req, client, messageId, o).pending.trace)
  {
    var due := SaveDue(client, messageId);
    AbortGated(req, due, c.state.trace);
    if !c.state.hasController {
      SettledGated(req, due, c.state, Fail(c.state, req.body));
    } else if c.state.aborted {
      SettledGated(req, due, c.state, AfterCheck(c.state, req.body, client, c.response, o));
    } else {
      DeliverGated(c.state, req, client, c.response, messageId, c.conversation, o);
    }
  }

  /** The messageId a save is due for: the one the client's response carries. */
  predicate SaveDueFor(o: Outcomes)
  {
    o.init.Ok? && o.sent.Ok? && SaveDue(o.init.value, Field(o.sent.value, "messageId"))
  }

  /** Once the client has answered, the request passes the gates, whatever happens at the abort check. */
  lemma GeneratedGated(s: SessionState, req: Request, client: ClientInfo, generated: map<string, Value>, o: Outcomes)
    requires s.trace == [] && !s.aborted
    ensures Gated(req, SaveDue(client, Field(generated, "messageId")), Generated(s, req, client, generated, o).pending.trace)
  {
    var due := SaveDue(client, Field(generated, "messageId"));
    match BeforeCheck(s, req, client, generated, o)
    case None =>
      assert Gated(req, due, []);
      SettledGated(req, due, s, Fail(s, req.body));
    case Some(c) =>
      AtCheckGated(c, req, client, Field(generated, "messageId"), o);
  }

  /**
   * Lines 232-298 on every path, whatever the collaborators do: the final
   * event is sent and the response ended at most once, and neither when the
   * request was aborted at the check of line 232; the response is saved only after the response was ended and only
   * when the client's saved ids lack its message id; a rewrite is asked for only
   * with the request's personality, never 'neutral', and a non-empty text.
   */
  lemma DeliveryGates(req: Request, o: Outcomes)
    ensures Gated(req, SaveDueFor(o), RunSpec(req, o).final.trace)
  {
    var e := Steps(req, o);
    CleanupTeardown(e.pending);
    assert !(e.inTry && Cleanup(e.pending).threw);
    StepsGated(req, o);
    GatedAppend(req, SaveDueFor(o), e.pending.trace, CleanupEvents(e.pending));
  }

  /** The request's own steps pass the gates. */
  lemma StepsGated(req: Request, o: Outcomes)
    ensures Gated(req, SaveDueFor(o), Steps(req, o).pending.trace)
  {
    var s := Start(req);
    assert Gated(req, SaveDueFor(o), []);
    match o.init
    case Err(_) =>
      SettledGated(req, SaveDueFor(o), s, Fail(s, req.body));
    case Ok(client) =>
      var registered := s.(client := Some(client), inDataMap := true, hasController := o.hasController,
                           requestCompleted := o.requestCompleted, handlers := Some([RemoveCloseListener]));
      var a := ApplyReqData(registered.vars, o.reported);
      var reported := registered.(vars := a.vars);
      if a.threw || o.sent.Err? {
        SettledGated(req, SaveDueFor(o), reported, Fail(reported, req.body));
      } else {
        GeneratedGated(reported, req, client, o.sent.value, o);
      }
  }


  // ---------------------------------------------------------------------
  // Paths through the request
  // ---------------------------------------------------------------------

  /** An aborted request still saves the user message (unless the client skips it), and sends nothing. */
  lemma AbortedRequestSavesUserMessage(c: Checkpoint, req: Request, client: ClientInfo, messageId: Value, o: Outcomes)
    requires c.state.hasController && c.state.aborted && !client.skipSaveUserMessage
    ensures var e := AtCheck(c, req, client, messageId, o);
      && SaveUserMessage(c.state.vars.userMessage) in e.pending.trace
      && (forall ev | ev in e.pending.trace[|c.state.trace|..] :: ev.SaveUserMessage? || ev.AddTitle? || ev.HandleAbortError?)
  {
    var e := AtCheck(c, req, client, messageId, o);
    var t := c.state.trace + [SaveUserMessage(c.state.vars.userMessage)];
    assert t <= e.pending.trace;
    assert e.pending.trace[|c.state.trace|] == t[|c.state.trace|];
  }

  /**
   * A failed rewrite is swallowed: the final event carries the response as
   * it was, and the response itself is passed on unchanged.
   */
  lemma FailedRewriteStillSends(s: SessionState, req: Request, client: ClientInfo, response: map<string, Value>, messageId: Value,
                                conversation: map<string, Value>, o: Outcomes)
    requires RewriteDue(req, response)
    requires o.transform(ResponseText(response), GetUserPersonality(req.body, req.headers)).Err?
    ensures s.trace + [TransformCall(ResponseText(response), GetUserPersonality(req.body, req.headers)),
                       SendFinal(conversation, Field(conversation, "title"), s.vars.userMessage, response),
                       EndResponse]
         <= Deliver(s, req, client, response, messageId, conversation, o).pending.trace
  {
    var w := Personalise(req, response, o.transform);
    var events := DeliveryEvents(req, response, w, SaveDue(client, messageId), conversation, s.vars.userMessage);
    FailedRewriteEvents(s.trace, req, response, w, SaveDue(client, messageId), conversation, s.vars.userMessage);
    assert s.trace + events <= Deliver(s, req, client, response, messageId, conversation, o).pending.trace;
  }

  lemma FailedRewriteEvents(before: seq<Event>, req: Request, response: map<string, Value>, w: Rewritten, saveDue: bool,
                            conversation: map<string, Value>, userMessage: Value)
    requires RewriteDue(req, response) && w == Rewritten(response, response)
    ensures before + [TransformCall(ResponseText(response), GetUserPersonality(req.body, req.headers)),
                      SendFinal(conversation, Field(conversation, "title"), userMessage, response),
                      EndResponse]
         <= before + DeliveryEvents(req, response, w, saveDue, conversation, userMessage)
  {
    var sent := [TransformCall(ResponseText(response), GetUserPersonality(req.body, req.headers)),
                 SendFinal(conversation, Field(conversation, "title"), userMessage, response),
                 EndResponse];
    assert DeliveryEvents(req, response, w, saveDue, conversation, userMessage) == sent + ResponseSave(req, w, saveDue);
    assert before + (sent + ResponseSave(req, w, saveDue)) == (before + sent) + ResponseSave(req, w, saveDue);
  }

  /**
   * A successful rewrite of a response that carries its text in both
   * places: the final event carries the new text in both; the title is
   * asked for with the response object, which kept its own `text` but
   * shares the rewritten first content part, so it sees the new text there.
   */
  lemma TitleSeesRewrittenContent(s: SessionState, req: Request, client: ClientInfo, response: map<string, Value>, messageId: Value,
                                  conversation: map<string, Value>, o: Outcomes, t: Value)
    requires RewriteDue(req, response)
    requires o.transform(ResponseText(response), GetUserPersonality(req.body, req.headers)) == Ok(t)
    requires Truthy(t) && t != ResponseText(response)
    requires Truthy(Field(response, "text")) && Truthy(FirstText(Field(response, "content")))
    requires !SaveDue(client, messageId) && client.skipSaveUserMessage && TitleDue(req.body, o)
    ensures var e := Deliver(s, req, client, response, messageId, conversation, o);
      var w := Personalise(req, response, o.transform);
      && !e.inTry
      && Last(e.pending.trace) == Some(AddTitle(Field(req.body, "text"), w.response))
      && Field(w.final, "text") == t && FirstText(Field(w.final, "content")) == t
      && Field(w.response, "text") == Field(response, "text") && FirstText(Field(w.response, "content")) == t
  {
    var w := Personalise(req, response, o.transform);
    assert w == WriteBack(response, ResponseText(response), t);
    WriteBackBoth(response, t);
    WriteBackFields(response, ResponseText(response), t);
  }

  /**
   * When the client cannot be initialised, the request reports the error
   * under the conversation id it was sent with and no other id, and the
   * cleanup runs no handler, releases no abort controller and disposes of
   * no client.
   */
  lemma FailedInitialisation(req: Request, o: Outcomes)
    requires o.init.Err?
    ensures RunSpec(req, o).final.trace == [
      HandleAbortError(Field(req.body, "conversationId"), Undefined, Undefined,
        Coalesce(Default(Field(req.body, "overrideParentMessageId"), Null), Default(Field(req.body, "parentMessageId"), Null)),
        Undefined),
      CleanupCall]
  {
    var s := Start(req);
    var e := Fail(s, req.body);
    assert Steps(req, o) == e;
    assert CleanupEvents(e.pending) == [CleanupCall];
  }
}
