/** The guardrail's state machine as pure functions: what each hook of
    `LayerGuardrail` does to the guardrail's state, to the request dictionary,
    and which calls it makes to the remote session/firewall service, given the
    answers that service gives.  The class in Guardrail.dfy is proved to
    follow these functions; the lemmas here state what the hooks promise. */
module GuardrailSpec {
  import opened Wrappers
  import opened PyText
  import opened PyValue
  import OrderedDict
  import opened UserIdentity
  import opened SessionIdParse

  /** What `layer.firewall_session_lookup` answers: the decision and the
      `violated_policies` list of its context (an absent list is empty). */
  datatype Verdict = Verdict(decision: string, violatedPolicies: seq<Value>)

  /** The answers the remote service gives during one pre-call hook; each is
      consulted only if the hook gets as far as that call. */
  datatype PreCallRemote = PreCallRemote(
    probe: Result<string, string>,     // create_session({"test": "init_check"}) in the init check
    initOk: bool,                      // whether the full SDK initialisation succeeds
    created: Result<string, string>,   // create_session for the user's new session
    promptAppended: bool,              // whether the prompt append_action succeeds
    lookup: Result<Verdict, string>,   // firewall_session_lookup
    noticeAppended: bool)              // whether the termination-notice append_action succeeds

  datatype ActionKind = CompletionPrompt | CompletionOutput

  /** One call made to the remote service, with the answer it gave. */
  datatype RemoteCall =
    | CreateSession(attributes: map<string, Value>, created: Result<string, string>)
    | InitSdk(ok: bool)
    | AppendAction(sessionId: string, kind: ActionKind, attributes: map<string, Value>, payload: Value, ok: bool)
    | FirewallLookup(sessionId: string, verdict: Result<Verdict, string>)

  /** An exception: its class name and `str()` of it. */
  datatype PyException = PyException(typeName: string, message: string)

  /** The pre-call hook either returns the request dictionary or raises. */
  datatype PreCallOutcome = Proceed | Raise(message: string)

  /** The instance state of `LayerGuardrail`.  `blockedSessions` is `None`
      until the first block creates the set. */
  datatype GuardState = GuardState(
    userSessions: OrderedDict.Dict<string, string>,
    processedRequests: set<string>,
    blockedSessions: Option<set<string>>,
    initialized: bool)

  ghost predicate ValidState(st: GuardState) {
    OrderedDict.Valid(st.userSessions)
  }

  function InitialState(): (st: GuardState)
    ensures ValidState(st)
  {
    GuardState(OrderedDict.Empty(), {}, None, false)
  }

  /** The text every policy-violation exception carries, in lower case. */
  const BlockedText: string := "blocked by firewall"

  /** `"blocked by firewall" in str(e).lower()`. */
  predicate IsBlockMessage(msg: string) {
    Contains(Lower(msg), BlockedText)
  }

  /** `hasattr(self, 'blocked_sessions') and sid in self.blocked_sessions`. */
  predicate IsBlocked(blocked: Option<set<string>>, sid: string) {
    blocked.Some? && sid in blocked.value
  }

  /** `f"{id(data)}_{hash(str(data.get('messages', '')))}"`; the object id and
      the hash are supplied by the caller. */
  function RequestFingerprint(dataId: int, messagesHash: int): string {
    IntToString(dataId) + "_" + IntToString(messagesHash)
  }

  /** Two requests get the same fingerprint only when their object ids and
      message hashes agree: the `_` separator cannot occur in a number. */
  lemma RequestFingerprintInjective(a: int, b: int, c: int, d: int)
    requires RequestFingerprint(a, b) == RequestFingerprint(c, d)
    ensures a == c && b == d
  {
    var x, y, z, w := IntToString(a), IntToString(b), IntToString(c), IntToString(d);
    var s := RequestFingerprint(a, b);
    assert s == x + "_" + y == z + "_" + w;
    assert s[|x|] == '_' && s[|z|] == '_';
    assert forall t :: 0 <= t < |x| ==> s[t] == x[t] && x[t] != '_';
    assert forall t :: 0 <= t < |z| ==> s[t] == z[t] && z[t] != '_';
    assert |x| == |z|;
    assert x == s[..|x|] == z;
    assert y == s[|x| + 1..] == w;
    IntToStringInjective(a, c);
    IntToStringInjective(b, d);
  }

  // ---------------------------------------------------------------------
  // _ensure_layer_sdk_initialized

  datatype InitStep = InitStep(ready: bool, initialized: bool, calls: seq<RemoteCall>)

  const ProbeAttributes: map<string, Value> := map["test" := PyStr("init_check")]

  /** Ready at once when already initialised; otherwise a probe session is
      created, and a success, or a failure whose message mentions `201` and
      `session_id`, counts as initialised; any other failure runs the full
      initialisation, whose outcome decides. */
  function EnsureInitialized(initialized: bool, probe: Result<string, string>, initOk: bool): (s: InitStep)
    ensures s.ready == s.initialized
    ensures initialized ==> s.initialized && s.calls == []
  {
    if initialized then InitStep(true, true, [])
    else
      var probeCall := CreateSession(ProbeAttributes, probe);
      match probe
      case Ok(_) => InitStep(true, true, [probeCall])
      case Err(msg) =>
        if Contains(msg, "201") && Contains(msg, "session_id") then InitStep(true, true, [probeCall])
        else InitStep(initOk, initOk, [probeCall, InitSdk(initOk)])
  }

  /** The flag only moves from false to true, the result is the new flag, and
      once it is set no further remote call is made. */
  lemma EnsureInitializedSpec(initialized: bool, probe: Result<string, string>, initOk: bool)
    ensures var s := EnsureInitialized(initialized, probe, initOk);
      && s.ready == s.initialized
      && (initialized ==> s.initialized && s.calls == [])
      && (!initialized ==> |s.calls| >= 1 && s.calls[0] == CreateSession(ProbeAttributes, probe))
      && (s.initialized <==>
            (initialized || probe.Ok? || initOk
             || (Contains(probe.error, "201") && Contains(probe.error, "session_id"))))
  {
  }

  // ---------------------------------------------------------------------
  // Session binding (layer_guardrail.py lines 164-186)

  function SessionAttributes(user: string, model: Value): map<string, Value> {
    map["user.id" := PyStr(user), "model.name" := model, "source" := PyStr("litellm-guardrail")]
  }

  datatype Resolution = Resolution(
    sessions: OrderedDict.Dict<string, string>,
    session: Result<string, string>,
    calls: seq<RemoteCall>)

  /** Reuse the user's binding unless its session is blocked; a blocked binding
      is deleted; without a usable binding a session is created (with the 201
      workaround) and bound to the user. */
  function ResolveSession(sessions: OrderedDict.Dict<string, string>, blocked: Option<set<string>>,
                          user: string, model: Value, created: Result<string, string>): (r: Resolution)
    requires OrderedDict.Valid(sessions)
    ensures OrderedDict.Valid(r.sessions)
  {
    if user in sessions.entries && !IsBlocked(blocked, sessions.entries[user]) then
      Resolution(sessions, Ok(sessions.entries[user]), [])
    else
      var kept := if user in sessions.entries then OrderedDict.Delete(sessions, user) else sessions;
      var call := CreateSession(SessionAttributes(user, model), created);
      match CreateSessionWithWorkaround(created)
      case Ok(sid) => Resolution(OrderedDict.Set(kept, user, sid), Ok(sid), [call])
      case Err(msg) => Resolution(kept, Err(msg), [call])
  }

  /** Binding reuse and recreation: a usable binding is reused with no remote
      call; otherwise exactly one create call is made, the stale binding is
      gone, and a created session is bound to the user as the newest entry. */
  lemma ResolveSessionSpec(sessions: OrderedDict.Dict<string, string>, blocked: Option<set<string>>,
                           user: string, model: Value, created: Result<string, string>)
    requires OrderedDict.Valid(sessions)
    ensures var r := ResolveSession(sessions, blocked, user, model, created);
      && (user in sessions.entries && !IsBlocked(blocked, sessions.entries[user]) ==>
            r.session == Ok(sessions.entries[user]) && r.sessions == sessions && r.calls == [])
      && (!(user in sessions.entries && !IsBlocked(blocked, sessions.entries[user])) ==>
            && r.calls == [CreateSession(SessionAttributes(user, model), created)]
            && r.session == CreateSessionWithWorkaround(created)
            && (r.session.Ok? ==> r.sessions.entries == sessions.entries[user := r.session.value]
                                  && |r.sessions.keys| > 0 && OrderedDict.LastValue(r.sessions) == r.session.value)
            && (r.session.Err? ==> r.sessions.entries == sessions.entries - {user}))
  {
    if !(user in sessions.entries && !IsBlocked(blocked, sessions.entries[user])) {
      ResolveCreates(sessions, blocked, user, model, created);
      ResolveBindsCreated(sessions, blocked, user, model, created);
    }
  }

  /** Without a usable binding, the stale binding is gone, and a created
      session is bound to the user as the newest entry. */
  lemma ResolveBindsCreated(sessions: OrderedDict.Dict<string, string>, blocked: Option<set<string>>,
                            user: string, model: Value, created: Result<string, string>)
    requires OrderedDict.Valid(sessions)
    requires user !in sessions.entries || IsBlocked(blocked, sessions.entries[user])
    ensures var r := ResolveSession(sessions, blocked, user, model, created);
      && (r.session.Ok? ==> r.sessions.entries == sessions.entries[user := r.session.value]
                            && |r.sessions.keys| > 0 && OrderedDict.LastValue(r.sessions) == r.session.value)
      && (r.session.Err? ==> r.sessions.entries == sessions.entries - {user})
  {
    var r := ResolveSession(sessions, blocked, user, model, created);
    var kept := if user in sessions.entries then OrderedDict.Delete(sessions, user) else sessions;
    assert kept.entries == sessions.entries - {user};
    var outcome := CreateSessionWithWorkaround(created);
    if outcome.Ok? {
      assert r.sessions == OrderedDict.Set(kept, user, outcome.value) && r.session == outcome;
      assert kept.entries[user := outcome.value] == sessions.entries[user := outcome.value];
      OrderedDict.SetNewIsLast(kept, user, outcome.value);
    } else {
      assert r.sessions == kept && r.session == outcome;
    }
  }

  // ---------------------------------------------------------------------
  // Firewall decision (lines 203-254)

  /** `[p.get('name', 'Unknown') for p in policies]` joined by `', '`: `None`
      when an entry is not a dictionary or a name is not a string, where the
      comprehension or the join raises. */
  function PolicyNames(policies: seq<Value>): (r: Option<seq<string>>)
    ensures r.Some? ==> |r.value| == |policies|
    ensures r.Some? ==> forall i :: 0 <= i < |policies| ==>
      policies[i].PyDict? && Get(policies[i].entries, "name", PyStr("Unknown")) == PyStr(r.value[i])
    ensures r.None? ==>
      exists i :: 0 <= i < |policies| && !(policies[i].PyDict? && Get(policies[i].entries, "name", PyStr("Unknown")).PyStr?)
  {
    if |policies| == 0 then Some([])
    else
      var head := policies[0];
      if head.PyDict? && Get(head.entries, "name", PyStr("Unknown")).PyStr? then
        match PolicyNames(policies[1..])
        case Some(rest) => Some([Get(head.entries, "name", PyStr("Unknown")).s] + rest)
        case None => None
      else None
  }

  const BlockPrefix: string := "Request " + BlockedText + ". Session terminated. Violated policies: "

  function BlockMessage(names: seq<string>): string {
    BlockPrefix + Join(names, ", ")
  }

  /** The block exception passes the handlers' `"blocked by firewall"` test
      and names every violated policy. */
  lemma BlockMessageSpec(names: seq<string>)
    ensures IsBlockMessage(BlockMessage(names))
    ensures forall i :: 0 <= i < |names| ==> Contains(BlockMessage(names), names[i])
  {
    BlockMessagePasses(names);
    forall i | 0 <= i < |names| ensures Contains(BlockMessage(names), names[i]) {
      BlockMessageNames(names, i);
    }
  }

  /** The block exception's lower case contains `blocked by firewall`. */
  lemma BlockMessagePasses(names: seq<string>)
    ensures IsBlockMessage(BlockMessage(names))
  {
    var tail := Join(names, ", ");
    var lead := "Request ";
    var rest := ". Session terminated. Violated policies: ";
    assert BlockPrefix == lead + BlockedText + rest;
    LowerAppend(lead + BlockedText + rest, tail);
    LowerAppend(lead + BlockedText, rest);
    LowerAppend(lead, BlockedText);
    LowerOfLowerAscii(BlockedText);
    assert Lower(BlockMessage(names)) == Lower(lead) + BlockedText + (Lower(rest) + Lower(tail));
    ContainsInfix(Lower(lead), BlockedText, Lower(rest) + Lower(tail));
  }

  /** The block exception names the `i`-th violated policy. */
  lemma BlockMessageNames(names: seq<string>, i: nat)
    requires i < |names|
    ensures Contains(BlockMessage(names), names[i])
  {
    var tail := Join(names, ", ");
    JoinContainsParts(names, ", ", i);
    ContainsIffOccurs(tail, names[i]);
    var p :| OccursAt(tail, names[i], p);
    var m := BlockMessage(names);
    assert m[|BlockPrefix| + p..|BlockPrefix| + p + |names[i]|] == tail[p..p + |names[i]|];
    assert OccursAt(m, names[i], |BlockPrefix| + p);
    ContainsIffOccurs(m, names[i]);
  }

  function NoticeAttributes(user: string): map<string, Value> {
    map["status" := PyStr("session_blocked"), "block_reason" := PyStr("firewall_policy_violation"),
        "user.id" := PyStr(user)]
  }

  function NoticePayload(policies: seq<Value>): Value {
    PyDict(map["action" := PyStr("session_terminated_due_to_policy_violation"),
                "violated_policies" := PyList(policies)])
  }

  datatype Decision = Decision(
    sessions: OrderedDict.Dict<string, string>,
    blocked: Option<set<string>>,
    raised: Option<string>,
    calls: seq<RemoteCall>)

  /** Look the session up; a `block` decision (in any case) quarantines the
      session, unbinds the user, appends a termination notice and raises the
      block exception; a lookup failure is ignored unless its own message is a
      block message. */
  function ApplyVerdict(sessions: OrderedDict.Dict<string, string>, blocked: Option<set<string>>,
                        user: string, sid: string, lookup: Result<Verdict, string>, noticeAppended: bool): (d: Decision)
    requires OrderedDict.Valid(sessions)
    ensures OrderedDict.Valid(d.sessions)
  {
    var lookupCall := FirewallLookup(sid, lookup);
    match lookup
    case Err(msg) => Decision(sessions, blocked, if IsBlockMessage(msg) then Some(msg) else None, [lookupCall])
    case Ok(v) =>
      if IsBlockDecision(lookup) then
        var blocked' := Some(blocked.GetOr({}) + {sid});
        var sessions' := if user in sessions.entries then OrderedDict.Delete(sessions, user) else sessions;
        var notice := AppendAction(sid, CompletionOutput, NoticeAttributes(user), NoticePayload(v.violatedPolicies), noticeAppended);
        var raised := match PolicyNames(v.violatedPolicies)
                      case Some(names) => Some(BlockMessage(names))
                      case None => None;
        Decision(sessions', blocked', raised, [lookupCall, notice])
      else Decision(sessions, blocked, None, [lookupCall])
  }

  /** `data['_layer_session_id']`, `['_layer_user_id']`, `['_layer_request_id']`. */
  function Annotate(data: map<string, Value>, sid: string, user: string, fp: string): map<string, Value> {
    data["_layer_session_id" := PyStr(sid)]["_layer_user_id" := PyStr(user)]["_layer_request_id" := PyStr(fp)]
  }

  // ---------------------------------------------------------------------
  // async_pre_call_hook

  datatype PreCallStep = PreCallStep(
    state: GuardState,
    data: map<string, Value>,
    outcome: PreCallOutcome,
    calls: seq<RemoteCall>)

  /** `data.get("model", "unknown")`. */
  function ModelName(data: map<string, Value>): Value {
    Get(data, "model", PyStr("unknown"))
  }

  function PromptAction(sid: string, data: map<string, Value>, appended: bool): RemoteCall {
    AppendAction(sid, CompletionPrompt, map["model.id" := ModelName(data)],
                 PyDict(map["messages" := Get(data, "messages", PyList([]))]), appended)
  }

  /** The session binding step of a pre-call for `data` in state `st`. */
  function Resolve(st: GuardState, data: map<string, Value>, remote: PreCallRemote): (r: Resolution)
    requires ValidState(st)
    ensures OrderedDict.Valid(r.sessions)
  {
    ResolveSession(st.userSessions, st.blockedSessions, ExtractUserId(data), ModelName(data), remote.created)
  }

  /** A pre-call once a session `sid` is bound to `user`: the prompt is
      appended, the firewall decides, and a request that proceeds is
      annotated. */
  function Screen(st: GuardState, data: map<string, Value>, fp: string, user: string, sid: string,
                  remote: PreCallRemote): (step: PreCallStep)
    requires ValidState(st)
    ensures ValidState(step.state)
  {
    var dec := ApplyVerdict(st.userSessions, st.blockedSessions, user, sid, remote.lookup, remote.noticeAppended);
    var st' := st.(userSessions := dec.sessions, blockedSessions := dec.blocked);
    var calls := [PromptAction(sid, data, remote.promptAppended)] + dec.calls;
    match dec.raised
    case Some(msg) => PreCallStep(st', data, Raise(msg), calls)
    case None => PreCallStep(st', Annotate(data, sid, user, fp), Proceed, calls)
  }

  /** A pre-call of a new request once the SDK is ready: bind a session; an
      exception of the create call reaches the outer handler, which re-raises
      it only when it is a block message. */
  function NewRequest(st: GuardState, data: map<string, Value>, fp: string, remote: PreCallRemote): (step: PreCallStep)
    requires ValidState(st)
    ensures ValidState(step.state)
  {
    var res := Resolve(st, data, remote);
    var st' := st.(userSessions := res.sessions);
    match res.session
    case Err(msg) => PreCallStep(st', data, if IsBlockMessage(msg) then Raise(msg) else Proceed, res.calls)
    case Ok(sid) =>
      var s := Screen(st', data, fp, ExtractUserId(data), sid, remote);
      s.(calls := res.calls + s.calls)
  }

  /** One pre-call: dedup by fingerprint, init check, session binding, prompt
      append, firewall decision, annotation of the request. */
  function PreCall(st: GuardState, data: map<string, Value>, fp: string, remote: PreCallRemote): (step: PreCallStep)
    requires ValidState(st)
    ensures ValidState(step.state)
  {
    if fp in st.processedRequests then PreCallStep(st, data, Proceed, [])
    else
      var init := EnsureInitialized(st.initialized, remote.probe, remote.initOk);
      var st1 := st.(processedRequests := st.processedRequests + {fp}, initialized := init.initialized);
      if !init.ready then PreCallStep(st1, data, Proceed, init.calls)
      else
        var s := NewRequest(st1, data, fp, remote);
        s.(calls := init.calls + s.calls)
  }

  /** The decision is "block" in Python's `decision.lower() == "block"` sense. */
  predicate IsBlockDecision(lookup: Result<Verdict, string>) {
    lookup.Ok? && Lower(lookup.value.decision) == "block"
  }

  /** A new request on a guardrail whose SDK is (or becomes) ready: the init
      attempt, then the session binding and screening of NewRequest. */
  lemma PreCallNew(st: GuardState, data: map<string, Value>, fp: string, remote: PreCallRemote)
    requires ValidState(st) && fp !in st.processedRequests
    requires EnsureInitialized(st.initialized, remote.probe, remote.initOk).ready
    ensures var init := EnsureInitialized(st.initialized, remote.probe, remote.initOk);
      var nr := NewRequest(st.(processedRequests := st.processedRequests + {fp}, initialized := true), data, fp, remote);
      PreCall(st, data, fp, remote) == nr.(calls := init.calls + nr.calls)
  {
    EnsureInitializedSpec(st.initialized, remote.probe, remote.initOk);
  }

  /** The firewall step asks the firewall first and creates no session. */
  lemma VerdictCalls(sessions: OrderedDict.Dict<string, string>, blocked: Option<set<string>>,
                     user: string, sid: string, lookup: Result<Verdict, string>, appended: bool)
    requires OrderedDict.Valid(sessions)
    ensures var d := ApplyVerdict(sessions, blocked, user, sid, lookup, appended);
      && |d.calls| >= 1 && d.calls[0] == FirewallLookup(sid, lookup)
      && (forall c :: c in d.calls ==> !c.CreateSession?)
  {
  }

  /** Once a session is bound, the prompt append comes first and the firewall
      lookup second; no session is created; a request that proceeds is
      annotated. */
  lemma ScreenShape(st: GuardState, data: map<string, Value>, fp: string, user: string, sid: string,
                    remote: PreCallRemote)
    requires ValidState(st)
    ensures var s := Screen(st, data, fp, user, sid, remote);
      && |s.calls| >= 2
      && s.calls[0] == PromptAction(sid, data, remote.promptAppended)
      && s.calls[1] == FirewallLookup(sid, remote.lookup)
      && (forall c :: c in s.calls ==> !c.CreateSession?)
      && (s.outcome.Proceed? ==> s.data == Annotate(data, sid, user, fp))
  {
    VerdictCalls(st.userSessions, st.blockedSessions, user, sid, remote.lookup, remote.noticeAppended);
  }

  /** Once a session is bound, a "block" decision quarantines it and unbinds
      the user; the request is left alone when the block exception is built,
      and annotated when building it fails. */
  lemma ScreenBlock(st: GuardState, data: map<string, Value>, fp: string, user: string, sid: string,
                    remote: PreCallRemote)
    requires ValidState(st) && IsBlockDecision(remote.lookup)
    ensures var s := Screen(st, data, fp, user, sid, remote);
      var names := PolicyNames(remote.lookup.value.violatedPolicies);
      && IsBlocked(s.state.blockedSessions, sid)
      && user !in s.state.userSessions.entries
      && (names.Some? ==> s.outcome == Raise(BlockMessage(names.value)) && s.data == data)
      && (names.None? ==> s.outcome == Proceed && s.data == Annotate(data, sid, user, fp))
  {
  }

  /** Once a session is bound, any other decision, and a lookup failure that
      is not itself a block message, change no state and let the annotated
      request through. */
  lemma ScreenAllow(st: GuardState, data: map<string, Value>, fp: string, user: string, sid: string,
                    remote: PreCallRemote)
    requires ValidState(st) && !IsBlockDecision(remote.lookup)
    requires remote.lookup.Err? ==> !IsBlockMessage(remote.lookup.error)
    ensures var s := Screen(st, data, fp, user, sid, remote);
      s.outcome == Proceed && s.data == Annotate(data, sid, user, fp) && s.state == st
  {
  }

  /** Screening never takes a session out of the blocked set. */
  lemma ScreenKeepsBlocked(st: GuardState, data: map<string, Value>, fp: string, user: string, sid: string,
                           remote: PreCallRemote)
    requires ValidState(st)
    ensures var b := Screen(st, data, fp, user, sid, remote).state.blockedSessions;
      st.blockedSessions.Some? ==> b.Some? && st.blockedSessions.value <= b.value
  {
  }

  /** Without a usable binding, a new request starts with a create call; a
      failed create leaves the user unbound, a created session is the one
      the firewall is asked about. */
  lemma NewRequestCreates(st: GuardState, data: map<string, Value>, fp: string, remote: PreCallRemote)
    requires ValidState(st)
    requires var user := ExtractUserId(data);
      user !in st.userSessions.entries || IsBlocked(st.blockedSessions, st.userSessions.entries[user])
    ensures var user := ExtractUserId(data);
      var step := NewRequest(st, data, fp, remote);
      var created := CreateSessionWithWorkaround(remote.created);
      && |step.calls| >= 1
      && step.calls[0] == CreateSession(SessionAttributes(user, ModelName(data)), remote.created)
      && (created.Err? ==> user !in step.state.userSessions.entries)
      && (created.Ok? ==> |step.calls| >= 3 && step.calls[2] == FirewallLookup(created.value, remote.lookup))
  {
    var user := ExtractUserId(data);
    ResolveCreates(st.userSessions, st.blockedSessions, user, ModelName(data), remote.created);
    var res := Resolve(st, data, remote);
    var st' := st.(userSessions := res.sessions);
    var nr := NewRequest(st, data, fp, remote);
    if res.session.Ok? {
      var s := Screen(st', data, fp, user, res.session.value, remote);
      assert nr.calls == res.calls + s.calls;
      ScreenShape(st', data, fp, user, res.session.value, remote);
    } else {
      assert nr.state == st' && nr.calls == res.calls;
    }
  }

  /** Without a usable binding, the binding step is one create call whose
      outcome is the session, and a failed create leaves the user unbound. */
  lemma ResolveCreates(sessions: OrderedDict.Dict<string, string>, blocked: Option<set<string>>,
                       user: string, model: Value, created: Result<string, string>)
    requires OrderedDict.Valid(sessions)
    requires user !in sessions.entries || IsBlocked(blocked, sessions.entries[user])
    ensures var r := ResolveSession(sessions, blocked, user, model, created);
      && r.calls == [CreateSession(SessionAttributes(user, model), created)]
      && r.session == CreateSessionWithWorkaround(created)
      && (r.session.Err? ==> user !in r.sessions.entries)
  {
  }

  /** The pre-call of a new request on a ready guardrail whose session
      binding succeeded, spelled out step by step. */
  lemma PreCallTracked(st: GuardState, data: map<string, Value>, fp: string, remote: PreCallRemote)
    requires ValidState(st) && fp !in st.processedRequests
    requires EnsureInitialized(st.initialized, remote.probe, remote.initOk).ready
    requires Resolve(st, data, remote).session.Ok?
    ensures var init := EnsureInitialized(st.initialized, remote.probe, remote.initOk);
      var res := Resolve(st, data, remote);
      var sid := res.session.value;
      var dec := ApplyVerdict(res.sessions, st.blockedSessions, ExtractUserId(data), sid, remote.lookup, remote.noticeAppended);
      var step := PreCall(st, data, fp, remote);
      && step.state == GuardState(dec.sessions, st.processedRequests + {fp}, dec.blocked, true)
      && step.calls == init.calls + (res.calls + ([PromptAction(sid, data, remote.promptAppended)] + dec.calls))
      && step.outcome == (if dec.raised.Some? then Raise(dec.raised.value) else Proceed)
      && step.data == (if dec.raised.Some? then data else Annotate(data, sid, ExtractUserId(data), fp))
  {
    PreCallNew(st, data, fp, remote);
    var st1 := st.(processedRequests := st.processedRequests + {fp}, initialized := true);
    assert Resolve(st1, data, remote) == Resolve(st, data, remote);
  }

  /** Request dedup: a fingerprint seen before returns the request untouched,
      changes no state and calls nothing. */
  lemma PreCallDuplicateIsNoOp(st: GuardState, data: map<string, Value>, fp: string, remote: PreCallRemote)
    requires ValidState(st) && fp in st.processedRequests
    ensures PreCall(st, data, fp, remote) == PreCallStep(st, data, Proceed, [])
  {
  }

  /** A new fingerprint is recorded whatever happens next, even when the SDK
      turns out to be unavailable or the request is blocked; none is removed. */
  lemma PreCallRecordsFingerprint(st: GuardState, data: map<string, Value>, fp: string, remote: PreCallRemote)
    requires ValidState(st)
    ensures PreCall(st, data, fp, remote).state.processedRequests == st.processedRequests + {fp}
  {
  }

  /** Without the SDK the request passes through untouched, with only the
      fingerprint and the init attempt recorded. */
  lemma PreCallWithoutSdkPassesThrough(st: GuardState, data: map<string, Value>, fp: string, remote: PreCallRemote)
    requires ValidState(st) && fp !in st.processedRequests
    requires !EnsureInitialized(st.initialized, remote.probe, remote.initOk).ready
    ensures var step := PreCall(st, data, fp, remote);
      && step.outcome == Proceed && step.data == data
      && step.state == st.(processedRequests := st.processedRequests + {fp})
      && step.calls == EnsureInitialized(st.initialized, remote.probe, remote.initOk).calls
  {
  }

  /** Quarantine is permanent: the blocked set, once created, only grows. */
  lemma PreCallBlockedOnlyGrows(st: GuardState, data: map<string, Value>, fp: string, remote: PreCallRemote)
    requires ValidState(st)
    ensures var b := PreCall(st, data, fp, remote).state.blockedSessions;
      st.blockedSessions.Some? ==> b.Some? && st.blockedSessions.value <= b.value
  {
    if fp !in st.processedRequests && EnsureInitialized(st.initialized, remote.probe, remote.initOk).ready {
      PreCallNew(st, data, fp, remote);
      var st1 := st.(processedRequests := st.processedRequests + {fp}, initialized := true);
      var res := Resolve(st1, data, remote);
      if res.session.Ok? {
        ScreenKeepsBlocked(st1.(userSessions := res.sessions), data, fp, ExtractUserId(data), res.session.value, remote);
      }
    }
  }

  /** Fail-open once a session is bound: only a block message is raised, and
      a request that proceeds changed is annotated with the checked session. */
  lemma ScreenFailsOpen(st: GuardState, data: map<string, Value>, fp: string, user: string, sid: string,
                        remote: PreCallRemote)
    requires ValidState(st)
    ensures var s := Screen(st, data, fp, user, sid, remote);
      && (s.outcome.Raise? ==> IsBlockMessage(s.outcome.message) && s.data == data)
      && (s.outcome.Proceed? && s.data != data ==>
            s.data == Annotate(data, sid, user, fp) && FirewallLookup(sid, remote.lookup) in s.calls)
  {
    ScreenShape(st, data, fp, user, sid, remote);
    var dec := ApplyVerdict(st.userSessions, st.blockedSessions, user, sid, remote.lookup, remote.noticeAppended);
    if dec.raised.Some? && remote.lookup.Ok? {
      BlockMessageSpec(PolicyNames(remote.lookup.value.violatedPolicies).value);
    }
  }

  /** Fail-open: the only exception that leaves the hook is one whose text
      contains "blocked by firewall"; it leaves the request untouched.  When
      the hook proceeds, the request is either untouched or annotated with the
      session it was checked against, the user and the fingerprint. */
  lemma PreCallFailsOpen(st: GuardState, data: map<string, Value>, fp: string, remote: PreCallRemote)
    requires ValidState(st)
    ensures var step := PreCall(st, data, fp, remote);
      && (step.outcome.Raise? ==> IsBlockMessage(step.outcome.message) && step.data == data)
      && (step.outcome.Proceed? && step.data != data ==>
            exists sid :: step.data == Annotate(data, sid, ExtractUserId(data), fp)
                          && FirewallLookup(sid, remote.lookup) in step.calls)
  {
    if fp !in st.processedRequests && EnsureInitialized(st.initialized, remote.probe, remote.initOk).ready {
      PreCallNew(st, data, fp, remote);
      var st1 := st.(processedRequests := st.processedRequests + {fp}, initialized := true);
      var res := Resolve(st1, data, remote);
      if res.session.Ok? {
        ScreenFailsOpen(st1.(userSessions := res.sessions), data, fp, ExtractUserId(data), res.session.value, remote);
      }
    }
  }

  /** The append answers matter only to the log, once a session is bound. */
  lemma ScreenIgnoresAppends(st: GuardState, data: map<string, Value>, fp: string, user: string, sid: string,
                             remote: PreCallRemote, promptOk: bool, noticeOk: bool)
    requires ValidState(st)
    ensures var a := Screen(st, data, fp, user, sid, remote);
      var b := Screen(st, data, fp, user, sid, remote.(promptAppended := promptOk, noticeAppended := noticeOk));
      a.state == b.state && a.data == b.data && a.outcome == b.outcome && |a.calls| == |b.calls|
  {
  }

  /** What the answers to the two append calls are does not matter: a failed
      prompt or notice append changes neither the state, nor the request, nor
      the outcome. */
  lemma PreCallIgnoresAppendFailures(st: GuardState, data: map<string, Value>, fp: string,
                                     remote: PreCallRemote, promptOk: bool, noticeOk: bool)
    requires ValidState(st)
    ensures var a := PreCall(st, data, fp, remote);
      var b := PreCall(st, data, fp, remote.(promptAppended := promptOk, noticeAppended := noticeOk));
      a.state == b.state && a.data == b.data && a.outcome == b.outcome && |a.calls| == |b.calls|
  {
    var remote' := remote.(promptAppended := promptOk, noticeAppended := noticeOk);
    if fp !in st.processedRequests && EnsureInitialized(st.initialized, remote.probe, remote.initOk).ready {
      PreCallNew(st, data, fp, remote);
      PreCallNew(st, data, fp, remote');
      var st1 := st.(processedRequests := st.processedRequests + {fp}, initialized := true);
      var res := Resolve(st1, data, remote);
      assert res == Resolve(st1, data, remote');
      if res.session.Ok? {
        ScreenIgnoresAppends(st1.(userSessions := res.sessions), data, fp, ExtractUserId(data), res.session.value,
                             remote, promptOk, noticeOk);
      }
    }
  }

  /** Binding reuse: an initialised guardrail reuses the user's unblocked
      session without a create call; the prompt is appended to it, it is the
      session the firewall is asked about, and the request is annotated with
      it when the hook proceeds. */
  lemma PreCallReusesBinding(st: GuardState, data: map<string, Value>, fp: string, remote: PreCallRemote)
    requires ValidState(st) && fp !in st.processedRequests && st.initialized
    requires ExtractUserId(data) in st.userSessions.entries
    requires !IsBlocked(st.blockedSessions, st.userSessions.entries[ExtractUserId(data)])
    ensures var user := ExtractUserId(data);
      var sid := st.userSessions.entries[user];
      var step := PreCall(st, data, fp, remote);
      && |step.calls| >= 2
      && step.calls[0] == PromptAction(sid, data, remote.promptAppended)
      && step.calls[1] == FirewallLookup(sid, remote.lookup)
      && (forall c :: c in step.calls ==> !c.CreateSession?)
      && (step.outcome.Proceed? ==> step.data == Annotate(data, sid, user, fp))
  {
    var user := ExtractUserId(data);
    var sid := st.userSessions.entries[user];
    var st1 := st.(processedRequests := st.processedRequests + {fp});
    assert Resolve(st1, data, remote) == Resolution(st.userSessions, Ok(sid), []);
    ScreenShape(st1, data, fp, user, sid, remote);
    var s := Screen(st1, data, fp, user, sid, remote);
    assert PreCall(st, data, fp, remote) == s.(calls := [] + ([] + s.calls));
  }

  /** Recreation: a user bound to a blocked session loses that binding and
      gets the session the create call yields, bound as the newest entry. */
  lemma PreCallReplacesBlockedBinding(st: GuardState, data: map<string, Value>, fp: string, remote: PreCallRemote)
    requires ValidState(st) && fp !in st.processedRequests && st.initialized
    requires ExtractUserId(data) in st.userSessions.entries
    requires IsBlocked(st.blockedSessions, st.userSessions.entries[ExtractUserId(data)])
    ensures var user := ExtractUserId(data);
      var step := PreCall(st, data, fp, remote);
      var created := CreateSessionWithWorkaround(remote.created);
      && |step.calls| >= 1
      && step.calls[0] == CreateSession(SessionAttributes(user, ModelName(data)), remote.created)
      && (created.Err? ==> user !in step.state.userSessions.entries)
      && (created.Ok? ==> |step.calls| >= 3 && step.calls[2] == FirewallLookup(created.value, remote.lookup))
  {
    var st1 := st.(processedRequests := st.processedRequests + {fp});
    NewRequestCreates(st1, data, fp, remote);
    var nr := NewRequest(st1, data, fp, remote);
    assert PreCall(st, data, fp, remote) == nr.(calls := [] + nr.calls);
  }

  /** Block transition: on a "block" decision the session joins the blocked
      set and the user's binding is removed.  With well-formed policy entries
      the hook raises an exception that mentions "blocked by firewall" and
      every violated policy; with a malformed entry (not a dictionary, or a
      name that is not a string) building the message raises instead, the
      firewall handler swallows that, and the request proceeds annotated with
      the now-blocked session. */
  lemma PreCallBlockTransition(st: GuardState, data: map<string, Value>, fp: string, remote: PreCallRemote)
    requires ValidState(st) && fp !in st.processedRequests
    requires EnsureInitialized(st.initialized, remote.probe, remote.initOk).ready
    requires Resolve(st, data, remote).session.Ok?
    requires IsBlockDecision(remote.lookup)
    ensures var sid := Resolve(st, data, remote).session.value;
      var user := ExtractUserId(data);
      var step := PreCall(st, data, fp, remote);
      var names := PolicyNames(remote.lookup.value.violatedPolicies);
      && IsBlocked(step.state.blockedSessions, sid)
      && user !in step.state.userSessions.entries
      && (names.Some? ==>
            && step.outcome == Raise(BlockMessage(names.value)) && step.data == data
            && IsBlockMessage(step.outcome.message)
            && forall i :: 0 <= i < |names.value| ==> Contains(step.outcome.message, names.value[i]))
      && (names.None? ==> step.outcome == Proceed && step.data == Annotate(data, sid, user, fp))
  {
    PreCallNew(st, data, fp, remote);
    var st1 := st.(processedRequests := st.processedRequests + {fp}, initialized := true);
    var res := Resolve(st1, data, remote);
    assert res == Resolve(st, data, remote);
    ScreenBlock(st1.(userSessions := res.sessions), data, fp, ExtractUserId(data), res.session.value, remote);
    var names := PolicyNames(remote.lookup.value.violatedPolicies);
    if names.Some? {
      BlockMessageSpec(names.value);
    }
  }

  /** Any decision other than "block", and a lookup failure that is not itself
      a block message, keep the binding and the blocked set and let the
      annotated request through. */
  lemma PreCallAllowKeepsBinding(st: GuardState, data: map<string, Value>, fp: string, remote: PreCallRemote)
    requires ValidState(st) && fp !in st.processedRequests
    requires EnsureInitialized(st.initialized, remote.probe, remote.initOk).ready
    requires Resolve(st, data, remote).session.Ok?
    requires !IsBlockDecision(remote.lookup)
    requires remote.lookup.Err? ==> !IsBlockMessage(remote.lookup.error)
    ensures var sid := Resolve(st, data, remote).session.value;
      var user := ExtractUserId(data);
      var step := PreCall(st, data, fp, remote);
      && step.outcome == Proceed && step.data == Annotate(data, sid, user, fp)
      && step.state.userSessions == Resolve(st, data, remote).sessions
      && user in step.state.userSessions.entries && step.state.userSessions.entries[user] == sid
      && step.state.blockedSessions == st.blockedSessions
  {
    ResolveSessionSpec(st.userSessions, st.blockedSessions, ExtractUserId(data), ModelName(data), remote.created);
    PreCallNew(st, data, fp, remote);
    var st1 := st.(processedRequests := st.processedRequests + {fp}, initialized := true);
    var res := Resolve(st1, data, remote);
    assert res == Resolve(st, data, remote);
    ScreenAllow(st1.(userSessions := res.sessions), data, fp, ExtractUserId(data), res.session.value, remote);
  }

  /** After an allowed request, the guardrail is initialised and the user is
      bound to the session the request was checked against. */
  lemma AllowLeavesBinding(st: GuardState, data: map<string, Value>, fp: string, remote: PreCallRemote)
    requires ValidState(st) && fp !in st.processedRequests
    requires EnsureInitialized(st.initialized, remote.probe, remote.initOk).ready
    requires Resolve(st, data, remote).session.Ok?
    requires !IsBlockDecision(remote.lookup)
    requires remote.lookup.Err? ==> !IsBlockMessage(remote.lookup.error)
    ensures var after := PreCall(st, data, fp, remote).state;
      && after.initialized && fp in after.processedRequests
      && after.processedRequests == st.processedRequests + {fp}
      && after.blockedSessions == st.blockedSessions
      && ExtractUserId(data) in after.userSessions.entries
      && after.userSessions.entries[ExtractUserId(data)] == Resolve(st, data, remote).session.value
  {
    PreCallAllowKeepsBinding(st, data, fp, remote);
    PreCallTracked(st, data, fp, remote);
  }

  /** After a blocked request, the guardrail is initialised, the session is
      quarantined and the user has no binding. */
  lemma BlockLeavesNoBinding(st: GuardState, data: map<string, Value>, fp: string, remote: PreCallRemote)
    requires ValidState(st) && fp !in st.processedRequests
    requires EnsureInitialized(st.initialized, remote.probe, remote.initOk).ready
    requires Resolve(st, data, remote).session.Ok?
    requires IsBlockDecision(remote.lookup)
    ensures var after := PreCall(st, data, fp, remote).state;
      && after.initialized && after.processedRequests == st.processedRequests + {fp}
      && IsBlocked(after.blockedSessions, Resolve(st, data, remote).session.value)
      && ExtractUserId(data) !in after.userSessions.entries
  {
    PreCallBlockTransition(st, data, fp, remote);
    PreCallTracked(st, data, fp, remote);
  }

  /** Same user, no block in between: the second request is checked against
      the session the first one was, without a create call, provided the
      first request's session was not already quarantined. */
  lemma SameUserKeepsSession(st: GuardState, data1: map<string, Value>, fp1: string, remote1: PreCallRemote,
                             data2: map<string, Value>, fp2: string, remote2: PreCallRemote)
    requires ValidState(st) && fp1 !in st.processedRequests && fp2 !in st.processedRequests && fp1 != fp2
    requires EnsureInitialized(st.initialized, remote1.probe, remote1.initOk).ready
    requires ExtractUserId(data1) == ExtractUserId(data2)
    requires Resolve(st, data1, remote1).session.Ok?
    requires !IsBlocked(st.blockedSessions, Resolve(st, data1, remote1).session.value)
    requires !IsBlockDecision(remote1.lookup)
    requires remote1.lookup.Err? ==> !IsBlockMessage(remote1.lookup.error)
    ensures var sid := Resolve(st, data1, remote1).session.value;
      var step2 := PreCall(PreCall(st, data1, fp1, remote1).state, data2, fp2, remote2);
      && (forall c :: c in step2.calls ==> !c.CreateSession?)
      && |step2.calls| >= 2 && step2.calls[1] == FirewallLookup(sid, remote2.lookup)
  {
    var st1 := PreCall(st, data1, fp1, remote1).state;
    AllowLeavesBinding(st, data1, fp1, remote1);
    PreCallReusesBinding(st1, data2, fp2, remote2);
  }

  /** A quarantined session is never handed out again from the binding: after
      a block, the user's next request starts with a create call, and is
      checked against whatever session that call yields. */
  lemma BlockedSessionNotReused(st: GuardState, data1: map<string, Value>, fp1: string, remote1: PreCallRemote,
                                data2: map<string, Value>, fp2: string, remote2: PreCallRemote)
    requires ValidState(st) && fp1 !in st.processedRequests && fp2 !in st.processedRequests && fp1 != fp2
    requires EnsureInitialized(st.initialized, remote1.probe, remote1.initOk).ready
    requires ExtractUserId(data1) == ExtractUserId(data2)
    requires Resolve(st, data1, remote1).session.Ok?
    requires IsBlockDecision(remote1.lookup)
    ensures var step2 := PreCall(PreCall(st, data1, fp1, remote1).state, data2, fp2, remote2);
      var created := CreateSessionWithWorkaround(remote2.created);
      && |step2.calls| >= 1
      && step2.calls[0] == CreateSession(SessionAttributes(ExtractUserId(data2), ModelName(data2)), remote2.created)
      && (created.Ok? ==> |step2.calls| >= 3 && step2.calls[2] == FirewallLookup(created.value, remote2.lookup))
  {
    var st1 := PreCall(st, data1, fp1, remote1).state;
    BlockLeavesNoBinding(st, data1, fp1, remote1);
    FreshUserCreates(st1, data2, fp2, remote2);
  }

  /** An initialised guardrail with no binding for the user starts the
      request with a create call, and checks the session it yields. */
  lemma FreshUserCreates(st: GuardState, data: map<string, Value>, fp: string, remote: PreCallRemote)
    requires ValidState(st) && fp !in st.processedRequests && st.initialized
    requires ExtractUserId(data) !in st.userSessions.entries
    ensures var step := PreCall(st, data, fp, remote);
      var created := CreateSessionWithWorkaround(remote.created);
      && |step.calls| >= 1
      && step.calls[0] == CreateSession(SessionAttributes(ExtractUserId(data), ModelName(data)), remote.created)
      && (created.Ok? ==> |step.calls| >= 3 && step.calls[2] == FirewallLookup(created.value, remote.lookup))
  {
    var st1 := st.(processedRequests := st.processedRequests + {fp});
    NewRequestCreates(st1, data, fp, remote);
    var nr := NewRequest(st1, data, fp, remote);
    assert PreCall(st, data, fp, remote) == nr.(calls := [] + nr.calls);
  }

  // ---------------------------------------------------------------------
  // async_post_call_success_hook

  /** The response object: its `id` attribute (absent or `None` as `None`),
      `id(response)`, and the message content of each choice. */
  datatype Response = Response(id: Option<string>, objectId: int, choices: seq<Option<string>>)

  /** `getattr(response, 'id', None) or f"resp_{id(response)}"`. */
  function ResponseId(r: Response): (rid: string)
    ensures r.id.Some? && r.id.value != "" ==> rid == r.id.value
    ensures !(r.id.Some? && r.id.value != "") ==> StartsWith(rid, "resp_")
  {
    if r.id.Some? && r.id.value != "" then r.id.value else "resp_" + IntToString(r.objectId)
  }

  /** `response.choices[0].message.content or ""`, `""` without choices. */
  function ResponseContent(r: Response): string {
    if |r.choices| > 0 then r.choices[0].GetOr("") else ""
  }

  /** `f"content_{hash(content + str(response_id))}"` with the process's string hash. */
  function ContentKey(hash: string -> int, content: string, rid: string): (key: string)
    ensures StartsWith(key, "content_")
  {
    "content_" + IntToString(hash(content + rid))
  }

  function ResponsePayload(content: string): Value {
    PyDict(map["messages" := PyList([PyDict(map["role" := PyStr("assistant"), "content" := PyStr(content)])])])
  }

  datatype SuccessStep = SuccessStep(processed: set<string>, calls: seq<RemoteCall>)

  /** One post-call success: the response id, then (for a tracked request) the
      content key, are each checked against and added to the process-wide set
      before at most one response append. */
  function PostCallSuccess(processed: set<string>, initialized: bool, response: Response,
                           requestData: map<string, Value>, hash: string -> int, appended: bool): (step: SuccessStep)
    ensures processed <= step.processed && ResponseId(response) in step.processed
    ensures |step.calls| <= 1
  {
    var rid := ResponseId(response);
    if rid in processed then SuccessStep(processed, [])
    else
      var seen := processed + {rid};
      if !initialized then SuccessStep(seen, [])
      else
        var session := Get(requestData, "_layer_session_id", PyNone);
        if !Truthy(session) then SuccessStep(seen, [])
        else
          var content := ResponseContent(response);
          var key := ContentKey(hash, content, rid);
          if key in seen then SuccessStep(seen, [])
          else
            SuccessStep(seen + {key},
                        [AppendAction(Text(session), CompletionOutput, map["model.id" := ModelName(requestData)],
                                      ResponsePayload(content), appended)])
  }

  /** Response dedup: entries are only added, the response id always ends up
      recorded, an id seen before causes no call at all, and at most one
      response append happens, only for a tracked request whose content key
      was new. */
  lemma PostCallSuccessSpec(processed: set<string>, initialized: bool, response: Response,
                            requestData: map<string, Value>, hash: string -> int, appended: bool)
    ensures var step := PostCallSuccess(processed, initialized, response, requestData, hash, appended);
      var rid := ResponseId(response);
      var key := ContentKey(hash, ResponseContent(response), rid);
      && processed <= step.processed && rid in step.processed
      && step.processed == processed + {rid} + (if |step.calls| == 1 then {key} else {})
      && (rid in processed ==> step == SuccessStep(processed, []))
      && |step.calls| <= 1
      && (|step.calls| == 1 <==>
            rid !in processed && initialized && Truthy(Get(requestData, "_layer_session_id", PyNone))
            && key !in processed + {rid})
      && (|step.calls| == 1 ==>
            key in step.processed
            && step.calls[0] == AppendAction(Text(requestData["_layer_session_id"]), CompletionOutput,
                                             map["model.id" := ModelName(requestData)],
                                             ResponsePayload(ResponseContent(response)), appended))
  {
  }

  /** Redelivery: once a response has passed through the hook, passing it
      again, through this or any other guardrail instance sharing the
      process-wide set, whatever that instance's state and request, makes no
      call and changes nothing. */
  lemma PostCallSuccessOnce(processed: set<string>, initialized: bool, response: Response,
                            requestData: map<string, Value>, hash: string -> int, appended: bool,
                            initialized2: bool, requestData2: map<string, Value>, appended2: bool)
    ensures var first := PostCallSuccess(processed, initialized, response, requestData, hash, appended);
      PostCallSuccess(first.processed, initialized2, response, requestData2, hash, appended2)
        == SuccessStep(first.processed, [])
  {
    PostCallSuccessSpec(processed, initialized, response, requestData, hash, appended);
  }

  // ---------------------------------------------------------------------
  // async_post_call_failure_hook

  function FailureAttributes(exc: PyException): map<string, Value> {
    var isBlock := IsBlockMessage(exc.message);
    map["status" := PyStr(if isBlock then "blocked" else "failed"),
        "block_reason" := PyStr(if isBlock then "firewall_policy" else "error"),
        "error_type" := PyStr(exc.typeName)]
  }

  /** The calls a post-call failure makes before it re-raises: one append
      against the session of the most recently inserted binding, when the
      guardrail is initialised and has bindings. */
  function PostCallFailure(st: GuardState, exc: PyException, appended: bool): (calls: seq<RemoteCall>)
    requires ValidState(st)
    ensures |calls| <= 1
    ensures |calls| == 1 ==> st.initialized && st.userSessions.entries != map[]
  {
    if st.initialized && |st.userSessions.keys| > 0 then
      [AppendAction(OrderedDict.LastValue(st.userSessions), CompletionOutput, FailureAttributes(exc),
                    PyDict(map["error" := PyStr(exc.message)]), appended)]
    else []
  }

  /** The failure notice goes to the newest binding's session, classified
      "blocked" exactly for a block message, and is skipped when the guardrail
      is not initialised or holds no binding. */
  lemma PostCallFailureSpec(st: GuardState, exc: PyException, appended: bool)
    requires ValidState(st)
    ensures var calls := PostCallFailure(st, exc, appended);
      && (|calls| == 1 <==> st.initialized && st.userSessions.entries != map[])
      && (|calls| == 0 <==> !(st.initialized && st.userSessions.entries != map[]))
      && (|calls| == 1 ==>
            calls[0].AppendAction? && calls[0].kind == CompletionOutput
            && calls[0].sessionId in st.userSessions.entries.Values
            && |st.userSessions.keys| > 0
            && calls[0].sessionId == st.userSessions.entries[st.userSessions.keys[|st.userSessions.keys| - 1]]
            && (calls[0].attributes["status"] == PyStr("blocked") <==> IsBlockMessage(exc.message)))
  {
    OrderedDict.EmptyIff(st.userSessions);
  }

  /** "Most recent" means most recently inserted, not most recently used: a
      pre-call that reuses a binding leaves the order alone, so a later
      failure is still logged against the newest binding's session, which may
      belong to another user; a pre-call that binds a new session makes that
      session the one a later failure is logged against. */
  lemma FailureTargetsNewestBinding(st: GuardState, data: map<string, Value>, fp: string, remote: PreCallRemote,
                                    exc: PyException, appended: bool)
    requires ValidState(st) && fp !in st.processedRequests && st.initialized
    requires Resolve(st, data, remote).session.Ok?
    requires !IsBlockDecision(remote.lookup)
    requires remote.lookup.Err? ==> !IsBlockMessage(remote.lookup.error)
    ensures var user := ExtractUserId(data);
      var after := PreCall(st, data, fp, remote).state;
      var calls := PostCallFailure(after, exc, appended);
      && |calls| == 1
      && (user in st.userSessions.entries && !IsBlocked(st.blockedSessions, st.userSessions.entries[user]) ==>
            calls == PostCallFailure(st, exc, appended))
      && (!(user in st.userSessions.entries && !IsBlocked(st.blockedSessions, st.userSessions.entries[user])) ==>
            calls[0].sessionId == Resolve(st, data, remote).session.value)
  {
    PreCallAllowKeepsBinding(st, data, fp, remote);
    ResolveSessionSpec(st.userSessions, st.blockedSessions, ExtractUserId(data), ModelName(data), remote.created);
    OrderedDict.EmptyIff(PreCall(st, data, fp, remote).state.userSessions);
  }

  /** On a "block" decision the bindings lose exactly the user's entry, and
      the other bindings keep their order: unless the user's key was the
      newest, the newest binding is the same session as before. */
  lemma ScreenBlockUnbinds(st: GuardState, data: map<string, Value>, fp: string, user: string, sid: string,
                           remote: PreCallRemote)
    requires ValidState(st) && IsBlockDecision(remote.lookup)
    ensures var after := Screen(st, data, fp, user, sid, remote).state.userSessions;
      var keys := st.userSessions.keys;
      && after == OrderedDict.Delete(st.userSessions, user)
      && after.entries == st.userSessions.entries - {user}
      && (|keys| > 0 && keys[|keys| - 1] != user ==>
            |after.keys| > 0 && OrderedDict.LastValue(after) == OrderedDict.LastValue(st.userSessions))
  {
    VerdictBlockUnbinds(st.userSessions, st.blockedSessions, user, sid, remote.lookup, remote.noticeAppended);
  }

  /** The firewall step of a "block" decision drops exactly the user's
      binding and keeps the others in order. */
  lemma VerdictBlockUnbinds(sessions: OrderedDict.Dict<string, string>, blocked: Option<set<string>>,
                            user: string, sid: string, lookup: Result<Verdict, string>, appended: bool)
    requires OrderedDict.Valid(sessions) && IsBlockDecision(lookup)
    ensures var after := ApplyVerdict(sessions, blocked, user, sid, lookup, appended).sessions;
      && after == OrderedDict.Delete(sessions, user)
      && after.entries == sessions.entries - {user}
      && (|sessions.keys| > 0 && sessions.keys[|sessions.keys| - 1] != user ==>
            |after.keys| > 0 && OrderedDict.LastValue(after) == OrderedDict.LastValue(sessions))
  {
    if user in sessions.entries && |sessions.keys| > 0 && sessions.keys[|sessions.keys| - 1] != user {
      OrderedDict.DeleteKeepsLast(sessions, user);
    }
  }

  /** A blocked pre-call leaves the guardrail initialised with the old
      bindings minus the user's; when the user reused a binding that was not
      the newest, the newest binding is unchanged. */
  lemma PreCallBlockUnbinds(st: GuardState, data: map<string, Value>, fp: string, remote: PreCallRemote)
    requires ValidState(st) && fp !in st.processedRequests
    requires EnsureInitialized(st.initialized, remote.probe, remote.initOk).ready
    requires Resolve(st, data, remote).session.Ok?
    requires IsBlockDecision(remote.lookup)
    ensures var user := ExtractUserId(data);
      var after := PreCall(st, data, fp, remote).state;
      var keys := st.userSessions.keys;
      && after.initialized
      && after.userSessions == OrderedDict.Delete(st.userSessions, user)
      && after.userSessions.entries == st.userSessions.entries - {user}
      && (user !in st.userSessions.entries ==> after.userSessions == st.userSessions)
      && (|keys| > 0 && keys[|keys| - 1] != user ==>
            |after.userSessions.keys| > 0 && OrderedDict.LastValue(after.userSessions) == OrderedDict.LastValue(st.userSessions))
  {
    PreCallNew(st, data, fp, remote);
    var st1 := st.(processedRequests := st.processedRequests + {fp}, initialized := true);
    assert Resolve(st1, data, remote) == Resolve(st, data, remote);
    NewRequestBlockUnbinds(st1, data, fp, remote);
    var user := ExtractUserId(data);
    var keys := st.userSessions.keys;
    if |keys| > 0 && keys[|keys| - 1] != user {
      OrderedDict.DeleteKeepsLast(st.userSessions, user);
    }
  }

  /** The binding step touches no other user's binding, and a usable binding
      is kept as it is. */
  lemma ResolveKeepsOthers(sessions: OrderedDict.Dict<string, string>, blocked: Option<set<string>>,
                           user: string, model: Value, created: Result<string, string>)
    requires OrderedDict.Valid(sessions)
    ensures var r := ResolveSession(sessions, blocked, user, model, created);
      && r.sessions.entries - {user} == sessions.entries - {user}
      && (user in sessions.entries && !IsBlocked(blocked, sessions.entries[user]) ==> r.sessions == sessions)
      && OrderedDict.Delete(r.sessions, user) == OrderedDict.Delete(sessions, user)
  {
    if !(user in sessions.entries && !IsBlocked(blocked, sessions.entries[user])) {
      var kept := if user in sessions.entries then OrderedDict.Delete(sessions, user) else sessions;
      var created' := CreateSessionWithWorkaround(created);
      if created'.Ok? {
        OrderedDict.SetThenDelete(kept, user, created'.value);
      }
    }
  }

  /** A blocked new request leaves the bindings minus the user's. */
  lemma NewRequestBlockUnbinds(st: GuardState, data: map<string, Value>, fp: string, remote: PreCallRemote)
    requires ValidState(st) && Resolve(st, data, remote).session.Ok?
    requires IsBlockDecision(remote.lookup)
    ensures var after := NewRequest(st, data, fp, remote).state;
      && after.initialized == st.initialized
      && after.userSessions.entries == st.userSessions.entries - {ExtractUserId(data)}
      && after.userSessions == OrderedDict.Delete(st.userSessions, ExtractUserId(data))
  {
    var user := ExtractUserId(data);
    var res := Resolve(st, data, remote);
    ResolveKeepsOthers(st.userSessions, st.blockedSessions, user, ModelName(data), remote.created);
    var st2 := st.(userSessions := res.sessions);
    ScreenBlockUnbinds(st2, data, fp, user, res.session.value, remote);
    assert NewRequest(st, data, fp, remote).state == Screen(st2, data, fp, user, res.session.value, remote).state;
  }

  /** A blocked new request that reused a binding other than the newest
      leaves the newest binding as it was. */
  lemma NewRequestBlockKeepsNewest(st: GuardState, data: map<string, Value>, fp: string, remote: PreCallRemote)
    requires ValidState(st) && IsBlockDecision(remote.lookup)
    requires var user := ExtractUserId(data);
      user in st.userSessions.entries && !IsBlocked(st.blockedSessions, st.userSessions.entries[user])
    requires |st.userSessions.keys| > 0 && st.userSessions.keys[|st.userSessions.keys| - 1] != ExtractUserId(data)
    ensures var after := NewRequest(st, data, fp, remote).state.userSessions;
      |after.keys| > 0 && OrderedDict.LastValue(after) == OrderedDict.LastValue(st.userSessions)
  {
    var user := ExtractUserId(data);
    var sid := st.userSessions.entries[user];
    assert Resolve(st, data, remote) == Resolution(st.userSessions, Ok(sid), []);
    ScreenBlockUnbinds(st, data, fp, user, sid, remote);
    assert NewRequest(st, data, fp, remote).state == Screen(st, data, fp, user, sid, remote).state;
  }

  /** On an initialised guardrail where `user` is unbound, the failure notice
      goes to another user's binding, and is made exactly when some user is
      bound. */
  lemma FailureSkipsUnboundUser(st: GuardState, user: string, exc: PyException, appended: bool)
    requires ValidState(st) && st.initialized && user !in st.userSessions.entries
    ensures var calls := PostCallFailure(st, exc, appended);
      && (|calls| == 1 <==> st.userSessions.entries != map[])
      && (|calls| == 1 ==>
            exists u :: u in st.userSessions.entries && u != user && calls[0].sessionId == st.userSessions.entries[u])
  {
    OrderedDict.EmptyIff(st.userSessions);
    if |st.userSessions.keys| > 0 {
      var last := st.userSessions.keys[|st.userSessions.keys| - 1];
      assert last in st.userSessions.entries && last != user;
    }
  }

  /** A blocked request that reaches the failure hook is not logged against
      the blocked user: the block removed that user's binding, so the notice
      goes to the newest binding of some other user, or nowhere when no other
      user is bound.  When the user had reused a binding that was not the
      newest, the notice goes where it would have gone before the request. */
  lemma BlockedFailureLogsElsewhere(st: GuardState, data: map<string, Value>, fp: string, remote: PreCallRemote,
                                    exc: PyException, appended: bool)
    requires ValidState(st) && fp !in st.processedRequests
    requires EnsureInitialized(st.initialized, remote.probe, remote.initOk).ready
    requires Resolve(st, data, remote).session.Ok?
    requires IsBlockDecision(remote.lookup)
    ensures var user := ExtractUserId(data);
      var after := PreCall(st, data, fp, remote).state;
      var calls := PostCallFailure(after, exc, appended);
      var keys := st.userSessions.keys;
      && (|calls| == 1 <==> st.userSessions.entries - {user} != map[])
      && (|calls| == 1 ==>
            exists u :: u in after.userSessions.entries && u != user && calls[0].sessionId == after.userSessions.entries[u])
      && (|keys| > 0 && keys[|keys| - 1] != user ==>
            |calls| == 1 && calls[0].sessionId == OrderedDict.LastValue(st.userSessions))
      && (user !in st.userSessions.entries ==> calls == PostCallFailure(st.(initialized := true), exc, appended))
  {
    var after := PreCall(st, data, fp, remote).state;
    PreCallBlockUnbinds(st, data, fp, remote);
    FailureSkipsUnboundUser(after, ExtractUserId(data), exc, appended);
  }
}
