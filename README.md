# LayerGuardrail, modelled in Dafny

This project models `LayerGuardrail`, a LiteLLM custom guardrail. The guardrail
binds each end user to a session of the Layer service. It appends the user's
prompts and the model's responses to that session. It asks the Layer firewall
about the session before each request, and it blocks the request and
quarantines the session when the firewall says `block`.

Modules, one per file:

- `Wrappers`: `Option` and `Result`.
- `PyText`: the Python string operations the guardrail relies on. These are
  `in` on strings, `str.lower()`, `', '.join(...)` and `str()` of an integer.
- `PyValue`: the Python values found in a request dictionary, with their
  truthiness, `or`, `str()` and `dict.get`.
- `OrderedDict`: Python's insertion-ordered `dict`. `user_sessions` needs it,
  because the failure hook picks the last value.
- `UserIdentity`: `_extract_user_id`.
- `SessionIdParse`: `_create_session_with_workaround`. This includes the
  regular expression `"session_id":\s*"([^"]+)"` as a left-to-right scanner,
  proved equal to a declarative reference definition.
- `GuardrailSpec`: the hooks as pure transition functions over the
  guardrail's state, plus the lemmas that state what the hooks promise. A
  pre-call is layered as `PreCall` (dedup and init check), then `NewRequest`
  (session binding), then `Screen` (prompt append, firewall, annotation).
- `Guardrail`: the `LayerGuardrail` class itself. Its fields are
  `user_sessions`, `processed_requests`, `blocked_sessions` and
  `layer_initialized`. Its hook methods update those fields in place, and
  each method is proved to follow its function in `GuardrailSpec`. The
  request dictionary the pre-call hook annotates is the class
  `RequestData`. The process-wide `_PROCESSED_RESPONSES` set is the class
  `ResponseRegistry`.

The Layer service is not called. Each of its answers is an input:

- the probe session of the init check;
- whether full initialisation succeeds;
- the result of `create_session`;
- whether each `append_action` succeeds;
- the firewall lookup.

Every call the guardrail makes is appended, with the answer it got, to a
ghost log `calls`. The contracts state which calls are made, in which order,
and against which session.

Behaviour of the code that is easy to misread:

- The init check treats a probe failure that mentions `201` and
  `session_id` as "initialised". It does not parse an id out of that
  failure. Only session creation for a user parses the id.
- The success hook records the response id before it checks
  `layer_initialized` and the request's session. So a response first seen
  while the guardrail is uninitialised, or for an untracked request, is
  never tracked later.
- On a block, the user's binding is deleted whatever session it points to.
  Within one pre-call it always points to the session just checked.
- Building the block message can fail. A policy entry may not be a
  dictionary, or its `name` may not be a string. Then `p.get` or `join`
  raises inside the firewall `try`. The handler swallows that exception,
  because its text lacks "blocked by firewall". The session stays
  quarantined and the user unbound, yet the request proceeds, annotated with
  the blocked session (`GuardrailSpec.PreCallBlockTransition`).
- "Most recent session" in the failure hook is the value of the most
  recently inserted key of `user_sessions`. Reusing a binding does not move
  it (`GuardrailSpec.FailureTargetsNewestBinding`).
- A block removes the blocked user's binding before the failure hook runs.
  If the proxy then reports the block to the failure hook, the hook
  classifies it as "blocked" but logs it against the newest binding of some
  other user, or logs nothing when no other user is bound. It never logs
  against the blocked session through the user's binding
  (`GuardrailSpec.BlockedFailureLogsElsewhere`).
- A blocked request leaves `user_sessions` as it was with the user's key
  deleted, order included. For a user who had no binding, the session the
  request created is appended and then deleted again, so the dict ends
  exactly as it was (`GuardrailSpec.PreCallBlockUnbinds`).

## Model

| member | source | states |
|---|---|---|
| UserIdentity.ExtractUserIdPriority | litellm-protectai-layersdk/layer_guardrail.py:113-140 | The user id is the text of the first truthy value among the four header spellings and the body's `user` field; with none truthy, it is `default_user_id` |
| UserIdentity.Headers | litellm-protectai-layersdk/layer_guardrail.py:116-119 | Headers are read exactly when `metadata` is a dict holding a dict under `headers` |
| UserIdentity.HeadersNeedDicts | litellm-protectai-layersdk/layer_guardrail.py:116-136 | Without dict-typed metadata headers, only the body's `user` field (or the default) names the user |
| UserIdentity.ExtractUserId | litellm-protectai-layersdk/layer_guardrail.py:110-140 | `_extract_user_id`: the user id is never empty. Which value wins is stated by `ExtractUserIdPriority` |
| UserIdentity.UserIdDependsOnMetadataAndUser | litellm-protectai-layersdk/layer_guardrail.py:110-140 | Requests that agree on `metadata` and `user` map to the same user, so keys the hook adds do not change ownership |
| SessionIdParse.MatchAtSound | litellm-protectai-layersdk/layer_guardrail.py:103 | An id the anchored scanner returns is a match of the pattern at that position |
| SessionIdParse.MatchAtComplete | litellm-protectai-layersdk/layer_guardrail.py:103 | Every match of the pattern at a position is what the anchored scanner returns there |
| SessionIdParse.MatchAtIff | litellm-protectai-layersdk/layer_guardrail.py:103 | The anchored scanner and the reference definition of a match agree at every position |
| SessionIdParse.SkipSpaceAt | litellm-protectai-layersdk/layer_guardrail.py:103 | `\s*` ends at the first non-whitespace character |
| SessionIdParse.SkipNonQuoteAt | litellm-protectai-layersdk/layer_guardrail.py:103 | `[^"]+` ends at the first quote |
| SessionIdParse.SearchFromSpec | litellm-protectai-layersdk/layer_guardrail.py:103-104 | `re.search` finds the match at the leftmost matching position, and finds nothing exactly when no position matches |
| SessionIdParse.MatchMentionsSessionId | litellm-protectai-layersdk/layer_guardrail.py:101-103 | Any text the pattern matches contains `session_id`, so that part of the guard never rejects a parsable message |
| SessionIdParse.FindSessionId | litellm-protectai-layersdk/layer_guardrail.py:103-105 | `re.search(...).group(1)`: a found id is the match at the leftmost position where the pattern matches, and nothing is found only when it matches nowhere |
| SessionIdParse.CreateSessionWithWorkaround | litellm-protectai-layersdk/layer_guardrail.py:95-108 | `_create_session_with_workaround`: a success passes through, and any error it gives is the original error re-raised. `CreateSessionWithWorkaroundSpec` states when a failure is recovered |
| SessionIdParse.CreateSessionWithWorkaroundSpec | litellm-protectai-layersdk/layer_guardrail.py:95-108 | A success passes through. A failure becomes a success exactly when its message contains `201` and a pattern match, and then the id is the non-empty, quote-free leftmost match. Any other failure is re-raised unchanged |
| SessionIdParse.QuirkMessageMatches | litellm-protectai-layersdk/layer_guardrail.py:103 | The pattern matches `"abc-123"` at position 5 of a concrete 201 message |
| SessionIdParse.QuirkMessageMentions | litellm-protectai-layersdk/layer_guardrail.py:101 | That message passes the `201` and `session_id` guard |
| SessionIdParse.QuirkMessageFound | litellm-protectai-layersdk/layer_guardrail.py:103-105 | `re.search` over that message yields `abc-123` |
| SessionIdParse.WorkaroundRecoversEmbeddedId | litellm-protectai-layersdk/layer_guardrail.py:95-108 | A create failure whose message embeds `"session_id": "abc-123"` yields the session `abc-123` rather than an exception |
| PyText.ContainsIffOccurs | litellm-protectai-layersdk/layer_guardrail.py:251 | Python's substring `in` holds exactly when the needle occurs at some position |
| PyText.ContainsInfix | litellm-protectai-layersdk/layer_guardrail.py:251 | A needle placed between two texts is found by `in` |
| PyText.ContainsAfter | litellm-protectai-layersdk/layer_guardrail.py:246 | Text put in front of a string keeps every substring it had |
| PyText.JoinContainsParts | litellm-protectai-layersdk/layer_guardrail.py:246 | Every part of `sep.join(parts)` is a substring of the result |
| PyText.LowerAppend | litellm-protectai-layersdk/layer_guardrail.py:251 | `lower()` of a concatenation is the concatenation of the `lower()`s |
| PyText.LowerOfLowerAscii | litellm-protectai-layersdk/layer_guardrail.py:251 | Lower-case ASCII text is its own `lower()` |
| PyText.NatToStringInjective | litellm-protectai-layersdk/layer_guardrail.py:145 | Different naturals have different decimal texts |
| PyText.IntToStringInjective | litellm-protectai-layersdk/layer_guardrail.py:145 | Different integers have different `str()` texts |
| OrderedDict.Set | litellm-protectai-layersdk/layer_guardrail.py:185 | `d[k] = v` maps `k` to `v`, keeps the other entries, and keeps keys distinct and in step with the map |
| OrderedDict.Delete | litellm-protectai-layersdk/layer_guardrail.py:169 | `del d[k]` removes exactly `k` and keeps the dict well-formed. Deleting an absent key changes nothing, and deleting any key but the newest keeps the newest key last |
| OrderedDict.RemoveFrom | litellm-protectai-layersdk/layer_guardrail.py:169 | Taking a key out of the insertion order removes exactly that key, keeps the order distinct, changes nothing when the key is absent, and keeps the last key last unless it is the one removed |
| OrderedDict.DeleteKeepsLast | litellm-protectai-layersdk/layer_guardrail.py:220 | Deleting any key but the newest leaves the last of `values()` unchanged |
| OrderedDict.RemoveAppended | litellm-protectai-layersdk/layer_guardrail.py:185 | Taking a newly appended key out of the insertion order gives the old order back |
| OrderedDict.SetThenDelete | litellm-protectai-layersdk/layer_guardrail.py:185 | Inserting a new key and then deleting it gives the old dict back, order included |
| OrderedDict.EmptyIff | litellm-protectai-layersdk/layer_guardrail.py:337 | A dict is falsy exactly when it has no entries |
| OrderedDict.SetNewIsLast | litellm-protectai-layersdk/layer_guardrail.py:339 | A newly inserted key's value is the last of `d.values()` |
| OrderedDict.DeleteThenSetIsLast | litellm-protectai-layersdk/layer_guardrail.py:169 | Deleting a key and inserting it again moves its value to the end |
| GuardrailSpec.InitialState | litellm-protectai-layersdk/layer_guardrail.py:23-28 | A fresh guardrail has no bindings, no fingerprints, no blocked set and is not initialised |
| GuardrailSpec.RequestFingerprintInjective | litellm-protectai-layersdk/layer_guardrail.py:145 | Two requests share a fingerprint only if their object ids and message hashes agree |
| GuardrailSpec.EnsureInitialized | litellm-protectai-layersdk/layer_guardrail.py:32-52 | `_ensure_layer_sdk_initialized`: the result is the new flag, and an initialised guardrail makes no call. `EnsureInitializedSpec` states when the flag ends set |
| GuardrailSpec.EnsureInitializedSpec | litellm-protectai-layersdk/layer_guardrail.py:32-52 | The result is the new flag, and the flag only moves from false to true. It ends true exactly when it was set, the probe succeeded, the probe failure mentions `201` and `session_id`, or full initialisation succeeded. Once set, no call is made |
| GuardrailSpec.ResolveSession | litellm-protectai-layersdk/layer_guardrail.py:164-186 | The session binding step keeps the bindings a well-formed ordered dict. What it binds and calls is stated by `ResolveSessionSpec`, `ResolveCreates` and `ResolveKeepsOthers` |
| GuardrailSpec.ResolveSessionSpec | litellm-protectai-layersdk/layer_guardrail.py:164-186 | A usable binding is reused with no call. Otherwise exactly one create call is made and the stale binding is dropped. A created session is bound to the user as the newest entry, and a failed create leaves the user unbound |
| GuardrailSpec.ResolveBindsCreated | litellm-protectai-layersdk/layer_guardrail.py:165-186 | Without a usable binding, the stale binding is dropped, a created session is bound to the user as the newest entry, and a failed create leaves the other bindings as they were |
| GuardrailSpec.ResolveCreates | litellm-protectai-layersdk/layer_guardrail.py:177-186 | Without a usable binding, the binding step is one create call whose workaround result is the session, and a failure leaves the user unbound |
| GuardrailSpec.PolicyNames | litellm-protectai-layersdk/layer_guardrail.py:245 | The names list has one entry per policy, each that policy's `name` (default `Unknown`). There is none exactly when some entry is not a dict or has a non-string name |
| GuardrailSpec.BlockMessageSpec | litellm-protectai-layersdk/layer_guardrail.py:246 | The block exception's text passes the `"blocked by firewall"` test and contains every violated policy's name |
| GuardrailSpec.ApplyVerdict | litellm-protectai-layersdk/layer_guardrail.py:203-254 | The firewall step keeps the bindings a well-formed ordered dict. Its calls, quarantine, unbinding and raise are stated by `VerdictCalls`, `VerdictBlockUnbinds` and the `Screen` lemmas |
| GuardrailSpec.VerdictCalls | litellm-protectai-layersdk/layer_guardrail.py:205-242 | The firewall step starts with the lookup of the session and never creates a session |
| GuardrailSpec.ScreenShape | litellm-protectai-layersdk/layer_guardrail.py:188-261 | Once a session is bound, the prompt append to it comes first and its firewall lookup second. No session is created, and a request that proceeds is annotated with session, user and fingerprint |
| GuardrailSpec.ScreenBlock | litellm-protectai-layersdk/layer_guardrail.py:210-246 | A `block` decision (any case) puts the session in the blocked set and unbinds the user. With well-formed policies it raises the block message and leaves the request alone; otherwise it proceeds annotated |
| GuardrailSpec.ScreenAllow | litellm-protectai-layersdk/layer_guardrail.py:247-261 | Any other decision, and a lookup failure that is not a block message, change no state and let the annotated request through |
| GuardrailSpec.ScreenKeepsBlocked | litellm-protectai-layersdk/layer_guardrail.py:213-218 | Screening never removes a session from the blocked set |
| GuardrailSpec.ScreenFailsOpen | litellm-protectai-layersdk/layer_guardrail.py:205-261 | Once a session is bound, only a block message is raised, and the request is then untouched. A changed request carries the checked session, and the firewall was asked about that session |
| GuardrailSpec.ScreenIgnoresAppends | litellm-protectai-layersdk/layer_guardrail.py:188-242 | The answers of the prompt and notice appends change neither state, request, outcome nor the number of calls |
| GuardrailSpec.NewRequestCreates | litellm-protectai-layersdk/layer_guardrail.py:164-206 | Without a usable binding, a new request starts with a create call. A failed create leaves the user unbound; a created session is the one the firewall is asked about, third |
| GuardrailSpec.PreCall | litellm-protectai-layersdk/layer_guardrail.py:142-269 | `async_pre_call_hook` keeps the guardrail state well-formed. Its behaviour is stated by the `PreCall` lemmas below |
| GuardrailSpec.PreCallDuplicateIsNoOp | litellm-protectai-layersdk/layer_guardrail.py:145-149 | A fingerprint seen before returns the request untouched, with no state change and no call |
| GuardrailSpec.PreCallRecordsFingerprint | litellm-protectai-layersdk/layer_guardrail.py:147-151 | After any pre-call the fingerprint set is the old set plus this fingerprint |
| GuardrailSpec.PreCallWithoutSdkPassesThrough | litellm-protectai-layersdk/layer_guardrail.py:154-156 | Without the SDK, the request passes through untouched; only the fingerprint and the init attempt are recorded |
| GuardrailSpec.PreCallBlockedOnlyGrows | litellm-protectai-layersdk/layer_guardrail.py:213-218 | Once the blocked set exists, a pre-call only adds to it |
| GuardrailSpec.PreCallFailsOpen | litellm-protectai-layersdk/layer_guardrail.py:250-269 | The only exception that leaves the hook is a block message, and the request is then untouched. A changed request carries a session the firewall was asked about, the user and the fingerprint |
| GuardrailSpec.PreCallIgnoresAppendFailures | litellm-protectai-layersdk/layer_guardrail.py:188-242 | A failed prompt or notice append changes neither state, request nor outcome |
| GuardrailSpec.PreCallReusesBinding | litellm-protectai-layersdk/layer_guardrail.py:165-176 | An unblocked binding is reused without a create call. The prompt goes to it, the firewall is asked about it, and a proceeding request is annotated with it |
| GuardrailSpec.PreCallReplacesBlockedBinding | litellm-protectai-layersdk/layer_guardrail.py:165-186 | A binding to a blocked session is dropped and the request starts with a create call. A failed create leaves the user unbound; a created session is the one checked |
| GuardrailSpec.PreCallBlockTransition | litellm-protectai-layersdk/layer_guardrail.py:210-252 | On `block`, the session is quarantined and the user unbound. With well-formed policies the hook raises a block message naming every policy and leaves the request alone; otherwise it proceeds annotated |
| GuardrailSpec.PreCallAllowKeepsBinding | litellm-protectai-layersdk/layer_guardrail.py:247-261 | Any other decision, and a non-block lookup failure, keep the binding and the blocked set and let the annotated request through |
| GuardrailSpec.AllowLeavesBinding | litellm-protectai-layersdk/layer_guardrail.py:151-261 | After an allowed request the guardrail is initialised, the fingerprint recorded, the blocked set unchanged and the user bound to the checked session |
| GuardrailSpec.BlockLeavesNoBinding | litellm-protectai-layersdk/layer_guardrail.py:151-248 | After a blocked request the guardrail is initialised, the session quarantined and the user unbound |
| GuardrailSpec.SameUserKeepsSession | litellm-protectai-layersdk/layer_guardrail.py:165-176 | With no block in between, the same user's next request is checked against the same session, with no create call |
| GuardrailSpec.BlockedSessionNotReused | litellm-protectai-layersdk/layer_guardrail.py:165-220 | After a block, the user's next request starts with a create call and is checked against the session that call yields |
| GuardrailSpec.FreshUserCreates | litellm-protectai-layersdk/layer_guardrail.py:174-186 | An initialised guardrail with no binding for the user starts with a create call and checks the session it yields |
| GuardrailSpec.ResponseId | litellm-protectai-layersdk/layer_guardrail.py:277 | The response id is the `id` attribute when truthy, else a `resp_` key |
| GuardrailSpec.ContentKey | litellm-protectai-layersdk/layer_guardrail.py:304-305 | The content key starts with `content_`, so it never collides with a `resp_` key |
| GuardrailSpec.PostCallSuccess | litellm-protectai-layersdk/layer_guardrail.py:272-333 | `async_post_call_success_hook`: the shared set only grows, always gains the response id, and at most one append is made. `PostCallSuccessSpec` states the exact new set and when the append happens |
| GuardrailSpec.PostCallSuccessSpec | litellm-protectai-layersdk/layer_guardrail.py:277-333 | The shared set becomes exactly the old set plus the response id, plus the content key when an append is made. A seen id causes no call. At most one append happens, exactly for a new id on an initialised guardrail with a truthy session and a new content key |
| GuardrailSpec.PostCallSuccessOnce | litellm-protectai-layersdk/layer_guardrail.py:279-281 | Passing the same response again, through any instance sharing the set, makes no call and changes nothing |
| GuardrailSpec.PostCallFailure | litellm-protectai-layersdk/layer_guardrail.py:335-366 | `async_post_call_failure_hook` makes at most one append, and only on an initialised guardrail with bindings. `PostCallFailureSpec` states its target and classification |
| GuardrailSpec.PostCallFailureSpec | litellm-protectai-layersdk/layer_guardrail.py:337-366 | One append is made exactly when the guardrail is initialised and has bindings. It targets the session of the most recently inserted key and is classified `blocked` exactly for a block message |
| GuardrailSpec.VerdictBlockUnbinds | litellm-protectai-layersdk/layer_guardrail.py:219-220 | A "block" decision leaves the bindings as `del` of the user's key leaves them: exactly that binding goes, the others keep their order, and the newest is kept unless it was the user's |
| GuardrailSpec.ScreenBlockUnbinds | litellm-protectai-layersdk/layer_guardrail.py:210-221 | Once a session is bound, a "block" decision leaves the bindings as they were with the user's key deleted, with the newest kept unless it was the user's |
| GuardrailSpec.ResolveKeepsOthers | litellm-protectai-layersdk/layer_guardrail.py:164-185 | Binding a session for a user changes no other user's binding, and a binding that is not blocked is kept unchanged. With the user's key deleted, the bindings after the step equal those before, order included |
| GuardrailSpec.NewRequestBlockUnbinds | litellm-protectai-layersdk/layer_guardrail.py:164-221 | A new request that binds a session and is then blocked leaves the old bindings with the user's key deleted, order included, and does not change whether the guardrail is initialised |
| GuardrailSpec.NewRequestBlockKeepsNewest | litellm-protectai-layersdk/layer_guardrail.py:164-221 | A blocked request that reused a binding other than the newest leaves the newest binding's session unchanged |
| GuardrailSpec.PreCallBlockUnbinds | litellm-protectai-layersdk/layer_guardrail.py:151-221 | A blocked pre-call leaves the guardrail initialised and the bindings equal to the old ones with the user's key deleted, order included. For a user who was unbound, they are exactly the old bindings. The newest binding is kept unless it was the user's |
| GuardrailSpec.FailureSkipsUnboundUser | litellm-protectai-layersdk/layer_guardrail.py:337-339 | On an initialised guardrail where a user is unbound, the failure notice is made exactly when some user is bound, and it goes to another user's session |
| GuardrailSpec.BlockedFailureLogsElsewhere | litellm-protectai-layersdk/layer_guardrail.py:337-356 | After a blocked pre-call, the failure hook logs exactly when another user is bound, always against another user's binding. Unless the user's key was the newest, it logs against the same session as before the request. For a user who was unbound, it makes the same call as before the request |
| GuardrailSpec.FailureTargetsNewestBinding | litellm-protectai-layersdk/layer_guardrail.py:339 | After an allowed pre-call, a failure is logged against the newest inserted binding: unchanged by a reuse, the new session after a creation |
| Guardrail.ResponseRegistry.constructor | litellm-protectai-layersdk/layer_guardrail.py:17 | The process-wide set starts empty |
| Guardrail.LayerGuardrail.constructor | litellm-protectai-layersdk/layer_guardrail.py:23-28 | A new guardrail is in the initial state and has made no call |
| Guardrail.LayerGuardrail.InitializeLayerSdk | litellm-protectai-layersdk/layer_guardrail.py:54-93 | Returns whether initialisation succeeded, sets the flag on success and logs one init call |
| Guardrail.LayerGuardrail.EnsureLayerSdkInitialized | litellm-protectai-layersdk/layer_guardrail.py:32-52 | Result, new flag and calls are those of `EnsureInitialized` on the old flag |
| Guardrail.LayerGuardrail.BindSession | litellm-protectai-layersdk/layer_guardrail.py:164-186 | New bindings, session and calls are those of `ResolveSession` on the old bindings |
| Guardrail.LayerGuardrail.CheckFirewall | litellm-protectai-layersdk/layer_guardrail.py:203-254 | New bindings, blocked set, raised message and calls are those of `ApplyVerdict` on the old state |
| Guardrail.LayerGuardrail.ScreenPrompt | litellm-protectai-layersdk/layer_guardrail.py:188-261 | New state, request, outcome and calls are those of `Screen` on the old state and request |
| Guardrail.LayerGuardrail.HandleNewRequest | litellm-protectai-layersdk/layer_guardrail.py:158-269 | New state, request, outcome and calls are those of `NewRequest` on the old state and request |
| Guardrail.LayerGuardrail.AsyncPreCallHook | litellm-protectai-layersdk/layer_guardrail.py:142-269 | New state, request, outcome and calls are those of `PreCall` on the old state, request and fingerprint, so every `PreCall` lemma holds of the hook |
| Guardrail.LayerGuardrail.AsyncPostCallSuccessHook | litellm-protectai-layersdk/layer_guardrail.py:272-333 | Returns the response unchanged; the shared set and calls are those of `PostCallSuccess` |
| Guardrail.LayerGuardrail.AsyncPostCallFailureHook | litellm-protectai-layersdk/layer_guardrail.py:335-366 | Re-raises the original exception, with the calls of `PostCallFailure` and no state change |

## Left out

- `_initialize_layer_sdk` is reduced to its outcome. The environment reads, the OIDC credential set-up and the `layer.init` arguments (lines 56-85) are not modelled; success or failure is an input.
- The remote service's calls are inputs. Nothing is sent, and time stamps (`datetime.now`) are not modelled.
- `print` logging is left out. It changes no state.
- Hooks are `async`, but the model runs each hook to completion. Interleavings of two hooks across an `await` are not modelled.
- `id(data)`, `id(response)`, `hash(str(messages))` and the process's `hash` of strings are inputs. Their concrete values are not modelled.
- `str()` of a dict or list value is a placeholder text. Such a value can only reach the user id or a post-call session id through malformed requests.
- A response id that is not a string, and non-string message content, are not modelled.
- A firewall decision that is not a string is not modelled, nor is a `violated_policies` context entry that is not a list.
- Exceptions are reduced to their class name and their `str()` text.
- `PyText.Lower` covers ASCII letters and the Kelvin sign, the only non-ASCII character whose Python `lower()` is an ASCII letter. Other characters are left as they are. This is enough for deciding `"block"` and `"blocked by firewall"`.
- `user_api_key_dict`, `cache`, `call_type` and the success hook's `_layer_user_id` read are not modelled; the code only prints or ignores them.
- `start.py` and `test_api_key.py` are not part of this model: they launch the proxy and test credentials.
