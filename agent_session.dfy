/**
 * AgentController's closure state as an object: the variables getReqData
 * assigns, the cleanup-handler list, the client, the endpoint options, the
 * request-data map entry, the abort controller's flags and the trace of
 * what the controller did. Each method performs one of the controller's
 * routines in place and is proved to end in the state the corresponding
 * function of AgentRequest computes, so the properties proved there hold
 * of these methods.
 */
module AgentSession {
  import opened Js
  import opened AgentRequest

  /**
   * Lines 221-228: push a copy of every attachment whose `file_id` was
   * requested, in attachment order. Reading the `file_id` of an `undefined`
   * or `null` attachment throws, which is None here.
   */
  method CollectFiles(ids: set<Value>, attachments: seq<Value>) returns (files: Option<seq<Value>>)
    ensures files == Kept(ids, attachments)
  {
    var pushed := [];
    for i := 0 to |attachments|
      invariant Kept(ids, attachments[..i]) == Some(pushed)
    {
      var attachment := attachments[i];
      if attachment.Undefined? || attachment.Null? {
        return None;
      }
      assert attachments[..i + 1][..i] == attachments[..i];
      if Prop(attachment, "file_id").value in ids {
        pushed := pushed + [Copy(attachment)];
      }
    }
    assert attachments[..|attachments|] == attachments;
    files := Some(pushed);
  }

  class Session {
    var vars: RequestVars
    var handlers: Option<seq<Handler>>
    var client: Option<ClientInfo>
    var endpointOption: Value
    var inDataMap: bool
    var hasController: bool
    var aborted: bool
    var requestCompleted: bool
    var trace: seq<Event>

    /** The session's fields as a value. */
    function State(): SessionState
      reads this
    {
      SessionState(vars, handlers, client, endpointOption, inDataMap, hasController, aborted, requestCompleted, trace)
    }

    /** Lines 31-57: the variables before the client is initialised. */
    constructor (req: Request)
      ensures State() == Start(req)
    {
      vars := RequestVars(Undefined, Undefined, Undefined, Undefined, Undefined, Undefined, Undefined, Field(req.body, "conversationId"));
      handlers := Some([]);
      client := None;
      endpointOption := Field(req.body, "endpointOption");
      inDataMap := false;
      hasController := false;
      aborted := false;
      requestCompleted := false;
      trace := [];
    }

    /**
     * getReqData (lines 59-78): assign each recognised key in order; reading
     * the id of an `undefined` or `null` user message throws after the
     * message itself is stored.
     */
    method GetReqData(data: seq<(string, Value)>) returns (threw: bool)
      modifies this`vars
      ensures ApplyReqData(old(vars), data) == Assigned(vars, threw)
    {
      var i := 0;
      while i < |data|
        invariant 0 <= i <= |data|
        invariant ApplyReqData(old(vars), data) == ApplyReqData(vars, data[i..])
      {
        var (key, value) := data[i];
        assert data[i..][0] == data[i] && data[i..][1..] == data[i + 1..];
        if key == "userMessage" {
          vars := vars.(userMessage := value);
          if value.Undefined? || value.Null? {
            return true;
          }
          vars := vars.(userMessageId := Prop(value, "messageId").value);
        } else if key == "userMessagePromise" {
          vars := vars.(userMessagePromise := value);
        } else if key == "responseMessageId" {
          vars := vars.(responseMessageId := value);
        } else if key == "promptTokens" {
          vars := vars.(promptTokens := value);
        } else if key == "sender" {
          vars := vars.(sender := value);
        } else if key == "abortKey" {
          vars := vars.(abortKey := value);
        } else if !Truthy(vars.conversationId) && key == "conversationId" {
          vars := vars.(conversationId := value);
        }
        i := i + 1;
      }
      threw := false;
    }

    /** closeHandler (lines 161-173). */
    method Close()
      modifies this`aborted, this`trace
      ensures State() == AgentRequest.Close(old(State()))
    {
      if !hasController || aborted || requestCompleted {
        return;
      }
      aborted := true;
      trace := trace + [AbortRequest];
    }

    /**
     * performCleanup (lines 81-123): call every function in the handler
     * list, catching what it throws, release the abort controller, dispose
     * of the client, then clear the references; clearing
     * `endpointOption.agent` throws when there are no endpoint options.
     */
    method PerformCleanup() returns (threw: bool)
      modifies this
      ensures Cleanup(old(State())) == CleanupResult(State(), threw)
    {
      Release();
      client := None;
      vars := vars.(userMessage := Null);
      if endpointOption.Undefined? || endpointOption.Null? {
        return true;
      }
      endpointOption := Null;
      handlers := None;
      vars := vars.(userMessagePromise := Null);
      inDataMap := false;
      threw := false;
    }

    /** Lines 82-106: the cleanup's calls, before the references are cleared. */
    method Release()
      modifies this`trace
      ensures trace == old(trace) + CleanupEvents(old(State()))
    {
      ghost var s := State();
      trace := trace + [CleanupCall];
      if handlers.Some? {
        RunHandlers(handlers.value);
      }
      if Truthy(vars.abortKey) {
        trace := trace + [CleanupAbortController(vars.abortKey)];
      }
      if client.Some? {
        trace := trace + [DisposeClient];
      }
    }

    /** Lines 84-95: call each function in the list, in order; what a call throws is caught and the loop goes on. */
    method RunHandlers(list: seq<Handler>)
      modifies this`trace
      ensures trace == old(trace) + HandlerRuns(list)
    {
      for i := 0 to |list|
        invariant trace == old(trace) + HandlerRuns(list[..i])
      {
        if list[i].Callable? {
          trace := trace + [RanHandler(list[i].name)];
        }
        HandlerRunsSnoc(list, i);
      }
      assert list[..|list|] == list;
    }

    /** The catch block's report (lines 328-334). */
    method Report(body: map<string, Value>)
      modifies this`trace
      ensures Ending(State(), false) == AgentRequest.Fail(old(State()), body)
    {
      trace := trace + [ReportedError(State(), body)];
    }

    /** Lines 308-326, up to the cleanup: ask for a title when due; the cleanup runs inside the `try` otherwise. */
    method Finish(body: map<string, Value>, titleDue: bool, response: map<string, Value>) returns (inTry: bool)
      modifies this`trace
      ensures Ending(State(), inTry) == AgentRequest.Finish(old(State()), body, titleDue, response)
    {
      if titleDue {
        trace := trace + [AddTitle(Field(body, "text"), response)];
        return false;
      }
      return true;
    }

    /** Lines 299-326: save the user message unless skipped; a failed save goes to the catch block. */
    method AfterCheck(body: map<string, Value>, info: ClientInfo, response: map<string, Value>, o: Outcomes) returns (inTry: bool)
      modifies this`trace
      ensures Ending(State(), inTry) == AgentRequest.AfterCheck(old(State()), body, info, response, o)
    {
      ghost var s := State();
      AfterCheckSteps(s, body, info, response, o);
      if info.skipSaveUserMessage {
        inTry := Finish(body, TitleDue(body, o), response);
        return;
      }
      SaveUserMessage();
      if !o.saveUserOk {
        Report(body);
        return false;
      }
      inTry := Finish(body, TitleDue(body, o), response);
    }

    /** Lines 301-305: save the user message. */
    method SaveUserMessage()
      modifies this`trace
      ensures State() == Emit(old(State()), AgentRequest.SaveUserMessage(old(vars).userMessage))
    {
      trace := trace + [AgentRequest.SaveUserMessage(vars.userMessage)];
    }

    /**
     * Lines 232-298 for a live request: rewrite the response text when due,
     * send the final event, end the response, save the response when due
     * (a failed save goes to the catch block), then as for an aborted request.
     */
    method Deliver(req: Request, info: ClientInfo, response: map<string, Value>, messageId: Value,
                   conversation: map<string, Value>, o: Outcomes) returns (inTry: bool)
      modifies this`trace
      ensures Ending(State(), inTry) == AgentRequest.Deliver(old(State()), req, info, response, messageId, conversation, o)
    {
      ghost var s := State();
      var w := Send(req, info, response, messageId, conversation, o.transform);
      DeliverAfterSend(s, req, info, response, messageId, conversation, o, w, State());
      if SaveDue(info, messageId) && !o.saveResponseOk {
        Report(req.body);
        return false;
      }
      inTry := AfterCheck(req.body, info, w.response, o);
    }

    /**
     * Lines 234-297: rewrite the response when due, send the final event,
     * end the response, and save it when due.
     */
    method Send(req: Request, info: ClientInfo, response: map<string, Value>, messageId: Value,
                conversation: map<string, Value>, transform: (Value, Value) -> Result<Value>) returns (w: Rewritten)
      modifies this`trace
      ensures w == Personalise(req, response, transform)
      ensures trace == old(trace) + DeliveryEvents(req, response, w, SaveDue(info, messageId), conversation, vars.userMessage)
    {
      w := Rewrite(req, response, transform);
      trace := trace + [SendFinal(conversation, Field(conversation, "title"), vars.userMessage, w.final), EndResponse];
      if SaveDue(info, messageId) {
        trace := trace + [SaveResponse(w.final["user" := req.userId])];
      }
    }

    /**
     * Lines 237-279: for a personality other than 'neutral' and a non-empty
     * text, ask for the rewrite and write it back; a failed rewrite is
     * swallowed.
     */
    method Rewrite(req: Request, response: map<string, Value>, transform: (Value, Value) -> Result<Value>) returns (w: Rewritten)
      modifies this`trace
      ensures w == Personalise(req, response, transform)
      ensures trace == old(trace) + RewriteCall(req, response)
    {
      w := Rewritten(response, response);
      var personality := GetUserPersonality(req.body, req.headers);
      var text := ResponseText(response);
      if personality != Str("neutral") && Truthy(text) {
        trace := trace + [TransformCall(text, personality)];
        var transformed := transform(text, personality);
        if transformed.Ok? {
          w := WriteBack(response, text, transformed.value);
        }
      }
    }

    /**
     * Lines 204-342 once the client has answered: tag the response, read
     * the conversation, attach the files, let a pending close abort the
     * request, then deliver it or only save the user message.
     */
    method Generated(req: Request, info: ClientInfo, generated: map<string, Value>, o: Outcomes) returns (inTry: bool)
      modifies this
      ensures Ending(State(), inTry) == AgentRequest.Generated(old(State()), req, info, generated, o)
    {
      ghost var s := State();
      var checked := Check(req, info, generated, o);
      if checked.None? {
        Report(req.body);
        return false;
      }
      var (response, conversation) := checked.value;
      if !hasController {
        Report(req.body);
        return false;
      }
      if aborted {
        inTry := AfterCheck(req.body, info, response, o);
      } else {
        inTry := Deliver(req, info, response, Field(generated, "messageId"), conversation, o);
      }
    }

    /**
     * Lines 204-231: tag the response with the endpoint, read the
     * conversation and attach the files (None when one of these throws), and
     * let a close that fires before the abort check abort the request.
     */
    method Check(req: Request, info: ClientInfo, generated: map<string, Value>, o: Outcomes)
      returns (checked: Option<(map<string, Value>, map<string, Value>)>)
      modifies this`vars, this`aborted, this`trace
      ensures var c := BeforeCheck(old(State()), req, info, generated, o);
        && (checked.None? <==> c.None?)
        && (checked.None? ==> State() == old(State()))
        && (checked.Some? ==> c.value == Checkpoint(State(), checked.value.0, checked.value.1))
    {
      var endpoint := Prop(endpointOption, "endpoint");
      if endpoint.None? {
        return None;
      }
      var conversation := if o.database.Ok? then ConversationOf(o.database.value) else None;
      var userMessage := AttachFiles(req.body, info, vars.userMessage);
      if conversation.None? || userMessage.None? {
        return None;
      }
      var response := generated["endpoint" := endpoint.value] - {"databasePromise"};
      vars := vars.(userMessage := userMessage.value);
      if o.closedBeforeCheck {
        Close();
      }
      checked := Some((response, conversation.value));
    }

    /**
     * AgentController from line 125 on, up to the cleanup: initialise the
     * client, register it and the close listener's removal, let the client
     * generate while it reports its data, and go on with the response.
     */
    method Steps(req: Request, o: Outcomes) returns (inTry: bool)
      modifies this
      requires State() == Start(req)
      ensures Ending(State(), inTry) == AgentRequest.Steps(req, o)
    {
      if o.init.Err? {
        Report(req.body);
        return false;
      }
      client := Some(o.init.value);
      inDataMap := true;
      hasController := o.hasController;
      requestCompleted := o.requestCompleted;
      handlers := Some([RemoveCloseListener]);
      var threw := GetReqData(o.reported);
      ghost var reported := State();
      StepsAfterReport(req, o, reported, threw);
      if threw || o.sent.Err? {
        Report(req.body);
        return false;
      }
      inTry := Generated(req, o.init.value, o.sent.value, o);
    }

    /**
     * The whole request: its steps, then the cleanup, and when a cleanup
     * started inside the `try` throws, the catch block's report and its
     * own cleanup.
     */
    method Serve(req: Request, o: Outcomes) returns (threw: bool)
      modifies this
      requires State() == Start(req)
      ensures State() == RunSpec(req, o).final && threw == RunSpec(req, o).threw
    {
      var inTry := Steps(req, o);
      threw := PerformCleanup();
      if inTry && threw {
        // A cleanup started inside the `try` has endpoint options to clear, so it cannot throw here.
        assert false;
      }
    }
  }

  /** The state once the client is registered and has reported its data, and where AgentRequest.Steps goes from there. */
  lemma StepsAfterReport(req: Request, o: Outcomes, reported: SessionState, threw: bool)
    requires o.init.Ok?
    requires var registered := Start(req).(client := Some(o.init.value), inDataMap := true, hasController := o.hasController,
                                           requestCompleted := o.requestCompleted, handlers := Some([RemoveCloseListener]));
      ApplyReqData(registered.vars, o.reported) == Assigned(reported.vars, threw)
      && reported == registered.(vars := reported.vars)
    ensures threw || o.sent.Err? ==> AgentRequest.Steps(req, o) == Fail(reported, req.body)
    ensures !threw && o.sent.Ok? ==> AgentRequest.Steps(req, o) == AgentRequest.Generated(reported, req, o.init.value, o.sent.value, o)
  {
  }

  /** Where AgentRequest.Deliver goes once the final event is sent. */
  lemma DeliverAfterSend(s: SessionState, req: Request, info: ClientInfo, response: map<string, Value>, messageId: Value,
                         conversation: map<string, Value>, o: Outcomes, w: Rewritten, sent: SessionState)
    requires w == Personalise(req, response, o.transform)
    requires sent == s.(trace := s.trace + DeliveryEvents(req, response, w, SaveDue(info, messageId), conversation, s.vars.userMessage))
    ensures SaveDue(info, messageId) && !o.saveResponseOk ==>
      AgentRequest.Deliver(s, req, info, response, messageId, conversation, o) == Fail(sent, req.body)
    ensures !(SaveDue(info, messageId) && !o.saveResponseOk) ==>
      AgentRequest.Deliver(s, req, info, response, messageId, conversation, o) == AgentRequest.AfterCheck(sent, req.body, info, w.response, o)
  {
  }

  /** Where AgentRequest.AfterCheck goes once the user message is saved, or skipped. */
  lemma AfterCheckSteps(s: SessionState, body: map<string, Value>, info: ClientInfo, response: map<string, Value>, o: Outcomes)
    ensures var saved := Emit(s, SaveUserMessage(s.vars.userMessage));
      && (info.skipSaveUserMessage ==> AgentRequest.AfterCheck(s, body, info, response, o) == AgentRequest.Finish(s, body, TitleDue(body, o), response))
      && (!info.skipSaveUserMessage && !o.saveUserOk ==> AgentRequest.AfterCheck(s, body, info, response, o) == Fail(saved, body))
      && (!info.skipSaveUserMessage && o.saveUserOk ==>
            AgentRequest.AfterCheck(s, body, info, response, o) == AgentRequest.Finish(saved, body, TitleDue(body, o), response))
  {
  }

  /** Appending one handler to the list appends its call, if it is a function. */
  lemma HandlerRunsSnoc(list: seq<Handler>, i: nat)
    requires i < |list|
    ensures HandlerRuns(list[..i + 1]) == HandlerRuns(list[..i]) + (if list[i].Callable? then [RanHandler(list[i].name)] else [])
  {
    assert list[..i + 1] == list[..i] + [list[i]];
    HandlerRunsAppend(list[..i], [list[i]]);
    assert [list[i]][1..] == [];
  }
}
