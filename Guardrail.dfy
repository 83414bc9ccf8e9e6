/** `LayerGuardrail` as the source has it: an object whose hooks update its
    fields in place, the request dictionary the pre-call hook annotates, and
    the process-wide `_PROCESSED_RESPONSES` set.  Each hook is proved to do
    what the matching function of GuardrailSpec describes; every call to the
    remote service is appended to the ghost log `calls`. */
module Guardrail {
  import opened Wrappers
  import opened PyText
  import opened PyValue
  import OrderedDict
  import opened UserIdentity
  import opened SessionIdParse
  import opened GuardrailSpec

  /** The request dictionary `data` handed to the pre-call hook. */
  class RequestData {
    var fields: map<string, Value>

    constructor (fields: map<string, Value>)
      ensures this.fields == fields
    {
      this.fields := fields;
    }
  }

  /** `_PROCESSED_RESPONSES`, shared by every guardrail of the process, with
      the process's string hash (Python's `hash` is fixed for a process). */
  class ResponseRegistry {
    var processed: set<string>
    const hash: string -> int

    constructor (hash: string -> int)
      ensures processed == {} && this.hash == hash
    {
      processed := {};
      this.hash := hash;
    }
  }

  /** Appending to the call log in two steps is appending once. */
  lemma LogAppend(log: seq<RemoteCall>, first: seq<RemoteCall>, second: seq<RemoteCall>)
    ensures log + first + second == log + (first + second)
  {
  }

  class LayerGuardrail {
    const guardrailName: Option<string>
    var userSessions: OrderedDict.Dict<string, string>
    var processedRequests: set<string>
    var blockedSessions: Option<set<string>>
    var layerInitialized: bool
    ghost var calls: seq<RemoteCall>

    ghost predicate Valid()
      reads this
    {
      OrderedDict.Valid(userSessions)
    }

    function State(): GuardState
      reads this
    {
      GuardState(userSessions, processedRequests, blockedSessions, layerInitialized)
    }

    constructor (guardrailName: Option<string>)
      ensures Valid() && State() == InitialState() && calls == []
      ensures this.guardrailName == guardrailName
    {
      this.guardrailName := guardrailName;
      userSessions := OrderedDict.Empty();
      processedRequests := {};
      blockedSessions := None;
      layerInitialized := false;
      calls := [];
    }

    /** `_initialize_layer_sdk`, reduced to its outcome. */
    method InitializeLayerSdk(initOk: bool) returns (ok: bool)
      modifies this`layerInitialized, this`calls
      ensures ok == initOk
      ensures layerInitialized == (old(layerInitialized) || initOk)
      ensures calls == old(calls) + [InitSdk(initOk)]
    {
      calls := calls + [InitSdk(initOk)];
      if initOk {
        layerInitialized := true;
        ok := true;
      } else {
        ok := false;
      }
    }

    /** `_ensure_layer_sdk_initialized`. */
    method EnsureLayerSdkInitialized(probe: Result<string, string>, initOk: bool) returns (ready: bool)
      modifies this`layerInitialized, this`calls
      ensures var s := EnsureInitialized(old(layerInitialized), probe, initOk);
        ready == s.ready && layerInitialized == s.initialized && calls == old(calls) + s.calls
    {
      if layerInitialized {
        return true;
      }
      calls := calls + [CreateSession(ProbeAttributes, probe)];
      match probe {
        case Ok(_) =>
          layerInitialized := true;
          ready := true;
        case Err(msg) =>
          if Contains(msg, "201") && Contains(msg, "session_id") {
            layerInitialized := true;
            ready := true;
          } else {
            ready := InitializeLayerSdk(initOk);
          }
      }
    }

    /** Lines 164-186 of the pre-call hook: reuse, or drop a blocked binding
        and create and bind a session.  `Err` is the exception the create
        call leaves the hook with. */
    method BindSession(userId: string, modelName: Value, created: Result<string, string>)
      returns (session: Result<string, string>)
      requires Valid()
      modifies this`userSessions, this`calls
      ensures Valid()
      ensures var r := ResolveSession(old(userSessions), blockedSessions, userId, modelName, created);
        userSessions == r.sessions && session == r.session && calls == old(calls) + r.calls
    {
      if userId in userSessions.entries {
        var existing := userSessions.entries[userId];
        if blockedSessions.Some? && existing in blockedSessions.value {
          userSessions := OrderedDict.Delete(userSessions, userId);
        }
      }
      if userId in userSessions.entries {
        session := Ok(userSessions.entries[userId]);
      } else {
        calls := calls + [CreateSession(SessionAttributes(userId, modelName), created)];
        session := CreateSessionWithWorkaround(created);
        if session.Ok? {
          userSessions := OrderedDict.Set(userSessions, userId, session.value);
        }
      }
    }

    /** Lines 203-254 of the pre-call hook: the firewall lookup and the block
        transition.  `Some` is the exception that leaves the hook. */
    method CheckFirewall(userId: string, sessionId: string, lookup: Result<Verdict, string>, noticeAppended: bool)
      returns (raised: Option<string>)
      requires Valid()
      modifies this`userSessions, this`blockedSessions, this`calls
      ensures Valid()
      ensures var d := ApplyVerdict(old(userSessions), old(blockedSessions), userId, sessionId, lookup, noticeAppended);
        && userSessions == d.sessions && blockedSessions == d.blocked && raised == d.raised
        && calls == old(calls) + d.calls
    {
      calls := calls + [FirewallLookup(sessionId, lookup)];
      raised := None;
      match lookup {
        case Err(msg) =>
          if IsBlockMessage(msg) {
            raised := Some(msg);
          }
        case Ok(verdict) =>
          if IsBlockDecision(lookup) {
            if blockedSessions.None? {
              blockedSessions := Some({});
            }
            blockedSessions := Some(blockedSessions.value + {sessionId});
            if userId in userSessions.entries {
              userSessions := OrderedDict.Delete(userSessions, userId);
            }
            calls := calls + [AppendAction(sessionId, CompletionOutput, NoticeAttributes(userId),
                                           NoticePayload(verdict.violatedPolicies), noticeAppended)];
            var names := PolicyNames(verdict.violatedPolicies);
            if names.Some? {
              raised := Some(BlockMessage(names.value));
            }
            // otherwise building the message raised, and the handler swallowed it
          }
      }
    }

    /** `async_pre_call_hook`; `dataId` is `id(data)` and `messagesHash` is
        `hash(str(data.get('messages', '')))`. */
    method AsyncPreCallHook(data: RequestData, dataId: int, messagesHash: int, remote: PreCallRemote)
      returns (outcome: PreCallOutcome)
      requires Valid()
      modifies this, data
      ensures Valid()
      ensures var step := PreCall(old(State()), old(data.fields), RequestFingerprint(dataId, messagesHash), remote);
        && State() == step.state && data.fields == step.data && outcome == step.outcome
        && calls == old(calls) + step.calls
    {
      var requestId := RequestFingerprint(dataId, messagesHash);
      if requestId in processedRequests {
        return Proceed;
      }
      processedRequests := processedRequests + {requestId};
      var ready := EnsureLayerSdkInitialized(remote.probe, remote.initOk);
      if !ready {
        return Proceed;
      }
      ghost var init := EnsureInitialized(old(layerInitialized), remote.probe, remote.initOk);
      ghost var rest := NewRequest(State(), data.fields, requestId, remote);
      outcome := HandleNewRequest(data, requestId, remote);
      LogAppend(old(calls), init.calls, rest.calls);
    }

    /** Lines 160-261 of the pre-call hook, for a new request once the SDK is
        ready: bind a session, then screen the prompt. */
    method HandleNewRequest(data: RequestData, requestId: string, remote: PreCallRemote)
      returns (outcome: PreCallOutcome)
      requires Valid()
      modifies this`userSessions, this`calls, this`blockedSessions, data
      ensures Valid()
      ensures var step := NewRequest(old(State()), old(data.fields), requestId, remote);
        && State() == step.state && data.fields == step.data && outcome == step.outcome
        && calls == old(calls) + step.calls
    {
      ghost var st, fields := State(), data.fields;
      var userId := ExtractUserId(data.fields);
      var modelName := ModelName(data.fields);
      ghost var res := Resolve(st, fields, remote);
      assert ResolveSession(userSessions, blockedSessions, userId, modelName, remote.created) == res;
      var session := BindSession(userId, modelName, remote.created);
      if session.Err? {
        // the exception reaches the hook's outer handler
        return if IsBlockMessage(session.error) then Raise(session.error) else Proceed;
      }
      ghost var screened := Screen(State(), fields, requestId, userId, session.value, remote);
      outcome := ScreenPrompt(data, userId, session.value, requestId, remote);
      LogAppend(old(calls), res.calls, screened.calls);
    }

    /** Lines 188-261 of the pre-call hook, once a session is bound: append the
        prompt, ask the firewall, and annotate the request when it proceeds. */
    method ScreenPrompt(data: RequestData, userId: string, sessionId: string, requestId: string,
                        remote: PreCallRemote)
      returns (outcome: PreCallOutcome)
      requires Valid()
      modifies this`userSessions, this`blockedSessions, this`calls, data
      ensures Valid()
      ensures var step := Screen(old(State()), old(data.fields), requestId, userId, sessionId, remote);
        && State() == step.state && data.fields == step.data && outcome == step.outcome
        && calls == old(calls) + step.calls
    {
      calls := calls + [PromptAction(sessionId, data.fields, remote.promptAppended)];
      var raised := CheckFirewall(userId, sessionId, remote.lookup, remote.noticeAppended);
      if raised.Some? {
        return Raise(raised.value);
      }
      data.fields := data.fields["_layer_session_id" := PyStr(sessionId)];
      data.fields := data.fields["_layer_user_id" := PyStr(userId)];
      data.fields := data.fields["_layer_request_id" := PyStr(requestId)];
      outcome := Proceed;
    }

    /** `async_post_call_success_hook`; `requestData` is `kwargs.get('data', {})`. */
    method AsyncPostCallSuccessHook(registry: ResponseRegistry, response: Response,
                                    requestData: map<string, Value>, appended: bool)
      returns (r: Response)
      modifies registry, this`calls
      ensures r == response
      ensures var step := PostCallSuccess(old(registry.processed), layerInitialized, response, requestData,
                                          registry.hash, appended);
        registry.processed == step.processed && calls == old(calls) + step.calls
    {
      var responseId := ResponseId(response);
      if responseId in registry.processed {
        return response;
      }
      registry.processed := registry.processed + {responseId};
      if !layerInitialized {
        return response;
      }
      var sessionId := Get(requestData, "_layer_session_id", PyNone);
      if Truthy(sessionId) {
        var content := ResponseContent(response);
        var contentKey := ContentKey(registry.hash, content, responseId);
        if contentKey in registry.processed {
          return response;
        }
        registry.processed := registry.processed + {contentKey};
        calls := calls + [AppendAction(Text(sessionId), CompletionOutput, map["model.id" := ModelName(requestData)],
                                       ResponsePayload(content), appended)];
      }
      return response;
    }

    /** `async_post_call_failure_hook`: logs against the newest binding, then
        re-raises the original exception, which it returns here. */
    method AsyncPostCallFailureHook(exc: PyException, appended: bool) returns (raised: PyException)
      requires Valid()
      modifies this`calls
      ensures raised == exc
      ensures calls == old(calls) + PostCallFailure(State(), exc, appended)
    {
      if layerInitialized && userSessions.entries != map[] {
        OrderedDict.EmptyIff(userSessions);
        var sessionId := OrderedDict.LastValue(userSessions);
        calls := calls + [AppendAction(sessionId, CompletionOutput, FailureAttributes(exc),
                                       PyDict(map["error" := PyStr(exc.message)]), appended)];
      } else {
        OrderedDict.EmptyIff(userSessions);
      }
      raised := exc;
    }
  }
}
