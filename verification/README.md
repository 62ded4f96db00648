# DIDService session negotiator, modelled in Dafny

This project models `DIDService`, the client-side session negotiator for a D-ID Agents avatar
stream. The service reports a `ConnectionState` (DISCONNECTED, CONNECTING, CONNECTED, FAILED)
to an observer callback. It drives a fixed connect sequence over HTTPS and WebRTC:

1. report CONNECTING;
2. create a peer connection and register its three hooks;
3. POST create-chat;
4. store the chat and stream ids;
5. apply the offer and build the answer;
6. POST the answer.

Any failure, including a throwing peer-connection constructor, reports FAILED and disconnects.
`connect()` is `async`: it is suspended at each `await`, and in between the page may call
`sendMessage` or `disconnect`, the peer's hooks may fire, or another `connect()` may start.
Two guards decide whether ICE candidates are forwarded and
whether chat messages may be sent. Every request is a POST with `Authorization: Basic <apiKey>`
and a JSON body.

Files:

- `types.dfy` (module `Types`): the `ConnectionState` enum and the credentials.
- `did_api.dfy` (module `DidApi`): the signaling protocol. It covers the headers, the four
  endpoint URLs and the four JSON bodies, and it reads the key and the chat id back out of a
  header and a URL.
- `did_session.dfy` (module `DidSession`): the negotiator as a state machine over values.
  - A `Service` holds the fields the instance owns and one ordered log of observable effects.
    An effect is a state reported to the observer or a request issued.
  - `Notifications` and `Requests` are the two views of that log.
  - Each operation and hook is a function `Service -> Service`.
  - `connect()` is cut at its awaits into four functions: `ConnectStart` runs up to the
    create-chat POST, and `AfterCreate`, `AfterNegotiation` and `AfterAnswer` resume it. A
    suspended call is recorded in `pending` under the peer it created, with what it awaits
    and the chat id it holds; a resumption of a call not suspended there does nothing.
  - `ConnectUninterrupted` is the composition of the four, a connect with nothing in between.
  - `Run` applies any sequence of calls, resumptions and callbacks, so other events may
    fall between the steps of a connect.
  - The lemmas state the properties below, for single calls and for whole runs.
- `did_client.dfy` (module `DidClient`): the class `DIDService`, which has the source's fields.
  - Every method is proved to change the object exactly as the matching `DidSession` function
    changes a value (`State() == DidSession.F(old(State()), ...)`).
  - Each method's `modifies` clause names only the fields that method writes.
  - `ConnectThenSendScenario` is a client that uses only these contracts.

Every network and WebRTC result is an outcome that the caller supplies:

- peer-connection constructor: returned or threw;
- create-chat: ok with `(id, streamId)`, or failed;
- negotiation: the answer, or failed;
- answer POST: accepted or rejected;
- ICE POST: delivered or not;
- message POST: a payload, or failed.

A peer connection is identified by its creation number. `closed` records which peers
`close()` was called on.

Behaviour of the code that the model follows:

- `connect()` does not tear down a previous peer; line 36 overwrites the field. The replaced peer
  is not closed by that connect (`ConnectLeavesPreviousPeerOpen`).
- When the peer-connection constructor throws, the catch block's `disconnect()` closes the
  previous peer, which is still in the field (`PeerConstructionFailure`).
- A suspended connect resumes against whatever peer is in the field then, and writes the ids of
  its create response even after a `disconnect()` (`DisconnectWhileAwaitingCreate`).
- `chatId` and `streamId` are never cleared, by `disconnect()` or by a failed connect. As a result,
  `sendMessage` is refused only until some create-chat has returned a non-empty id, not until a
  connect has fully succeeded (`StaleChatAfterFailedConnect`).
- Calling `disconnect()` twice reports DISCONNECTED twice (`DisconnectTwice`).
- A failed connect reports FAILED and then DISCONNECTED.
- The guards test JavaScript truthiness, so an empty chat id counts as no chat (`Truthy`).

## Model

| member | source | states |
|---|---|---|
| `DidApi.AuthHeaders` | services/didService.ts:24-29 | the headers carry a JSON content type and a Basic authorization from which exactly the API key is read back |
| `DidApi.AuthHeadersInjective` | services/didService.ts:24-29 | two header sets are equal exactly when they were built from the same key |
| `DidApi.SessionUrlRoundTrip` | services/didService.ts:126 | the chat id is read back from the message URL; the ice and answer URLs extend it with `/ice` and `/answer` |
| `DidApi.ChatUrlRoundTrip` | services/didService.ts:69 | the agent id is read back from the create-chat URL, and that URL names no chat |
| `DidApi.CreateChatRequest` | services/didService.ts:69-75 | a POST with the instance's credentials to the agent's chat collection (the agent id reads back, no chat id does) with a body carrying the given stream id |
| `DidApi.AnswerRequest` | services/didService.ts:93-97 | a POST with the instance's credentials whose URL reads back as `{chatId}/answer` under the agent's chats, with the SDP answer as body |
| `DidApi.IceRequest` | services/didService.ts:113-117 | a POST with the instance's credentials whose URL reads back as `{chatId}/ice` under the agent's chats, with the candidate tagged `candidate` as body |
| `DidApi.MessageRequest` | services/didService.ts:126-133 | a POST with the instance's credentials whose URL reads back as exactly the chat id under the agent's chats, with chatMode `Text` and the text as body |
| `DidSession.Init` | services/didService.ts:4-22 | a new service has no peer, no usable chat id, no stream id, nothing reported and nothing requested |
| `DidSession.Abort` | services/didService.ts:103-107 | the catch block appends FAILED then DISCONNECTED, closes and drops the current peer, clears the sink, and keeps the ids, the peer count and the suspended calls; the invariant is kept |
| `DidSession.ConnectStart` | services/didService.ts:31-75 | CONNECTING is reported first; a constructed peer becomes current under the next number, the create-chat POST carries the stored stream id and the call awaits its response, and the previous peer stays open; a throwing constructor issues no request, reports FAILED then DISCONNECTED and closes the previous peer; the invariant is kept |
| `DidSession.AfterCreate` | services/didService.ts:77-88 | only a call awaiting create-chat resumes; a failure closes the current peer and reports FAILED then DISCONNECTED with the ids kept; an ok response stores both ids, then awaits negotiation holding the chat id, or aborts when the peer field is null; nothing is requested |
| `DidSession.AfterNegotiation` | services/didService.ts:88-97 | only a call awaiting negotiation resumes; on success it POSTs the answer to the chat id it holds and awaits the answer response; on failure or a null peer field it aborts; ids are never changed |
| `DidSession.AfterAnswer` | services/didService.ts:99-107 | only a call awaiting the answer resumes; accepted ends the call and changes nothing else; rejected aborts |
| `DidSession.ConnectUninterrupted` | services/didService.ts:31-108 | for a connect with nothing in between: one new peer is numbered; the first new effect is the CONNECTING report; ids come from the create response or stay as they were; success keeps the new peer; failure closes it, drops it and clears the sink; the invariant is kept |
| `DidSession.ConnectIsRun` | services/didService.ts:31-108 | a connect with nothing in between is the run of its four events, so every lemma about runs covers it |
| `DidSession.ConnectObservations` | services/didService.ts:31-107 | connect reports CONNECTING alone on success and CONNECTING, FAILED, DISCONNECTED otherwise; it requests create-chat with the stored stream id, then the answer exactly when create and negotiation succeeded |
| `DidSession.CreateFailureCleansUp` | services/didService.ts:77-106 | a failed create-chat sends no answer, keeps both ids, closes and drops the new peer, clears the sink, and reports FAILED then DISCONNECTED last |
| `DidSession.ConnectLeavesPreviousPeerOpen` | services/didService.ts:36-41 | the peer a connect replaces is neither closed nor current afterwards |
| `DidSession.PeerConstructionFailure` | services/didService.ts:36-41 | when the constructor throws, no request is issued, CONNECTING, FAILED, DISCONNECTED are reported, no peer is numbered or current, the previous peer is closed, no call is left suspended and the ids are kept |
| `DidSession.MessageDuringConnect` | services/didService.ts:81-97 | a message sent while connect awaits negotiation goes to the chat just created, between the create-chat and the answer POSTs; the connect still succeeds and reports only CONNECTING |
| `DidSession.DisconnectWhileAwaitingCreate` | services/didService.ts:77-88 | a disconnect while connect awaits create-chat does not stop it: the response's ids are stored, the null peer field makes it abort, and it reports FAILED then a second DISCONNECTED |
| `DidSession.StepIds` | services/didService.ts:84-85 | only an ok create-chat response to a suspended connect changes the chat and stream ids, and it sets them to the ids it carries |
| `DidSession.IdsFromLastCreate` | services/didService.ts:82-85 | after any run, the chat and stream ids are those of the latest successful create-chat, or the initial ones if there was none |
| `DidSession.CreateCarriesLastStreamId` | services/didService.ts:69-75 | each create-chat body carries the stream id of the latest earlier successful create, so the stream id persists across connects |
| `DidSession.Disconnect` | services/didService.ts:142-151 | the current peer is closed and dropped, the sink is cleared, exactly one DISCONNECTED is appended, and the ids are kept |
| `DidSession.DisconnectTwice` | services/didService.ts:142-151 | a second disconnect changes nothing but one more DISCONNECTED report; no request; ids untouched |
| `DidSession.RunEndingInDisconnect` | services/didService.ts:142-151 | any run that ends in disconnect has no peer, no video source, and DISCONNECTED as its last report |
| `DidSession.OnTrack` | services/didService.ts:44-50 | the first stream of the event becomes the sink's source; an event with no stream changes nothing; nothing is reported |
| `DidSession.SendIceCandidate` | services/didService.ts:110-121 | with no usable chat id, nothing changes; otherwise exactly the ICE POST for the current chat is appended |
| `DidSession.OnIceCandidate` | services/didService.ts:52-56 | only the log may change, and only by growing |
| `DidSession.IceForwarding` | services/didService.ts:52-56 | exactly one POST to `/agents/{agentId}/chat/{chatId}/ice` with type `candidate` when the candidate is present and the chat id is set, none otherwise; the delivery outcome makes no difference; nothing is reported |
| `DidSession.OnConnectionStateChange` | services/didService.ts:58-65 | only the log may change, by nothing, one CONNECTED or one FAILED |
| `DidSession.StateHookReports` | services/didService.ts:58-65 | CONNECTED for 'connected' and FAILED for 'failed' while a peer is current, nothing otherwise, never a request |
| `DidSession.StateHookSilentAfterDisconnect` | services/didService.ts:58-65 | after disconnect, the state hook reports nothing whatever the transport state |
| `DidSession.HandshakeThenTransport` | services/didService.ts:58-65 | a full handshake then 'connected' reports exactly CONNECTING, CONNECTED; a later 'failed' adds FAILED |
| `DidSession.SendMessage` | services/didService.ts:123-140 | NoActiveChat exactly when no chat id is usable; ok only with a usable chat id and a delivered response, and then with its payload; only the log may change |
| `DidSession.SendMessageRequests` | services/didService.ts:123-139 | with no chat id, nothing changes; otherwise exactly one POST to `/agents/{agentId}/chat/{chatId}` with body chatMode `Text` and the text; it fails unless the response is ok |
| `DidSession.NoChatUntilCreated` | services/didService.ts:110-124 | until a create-chat returns a non-empty id, no chat id is usable and no ICE or message request is ever issued |
| `DidSession.SendBeforeCreateFails` | services/didService.ts:123-124 | from a new service, before any create returns a non-empty id, sendMessage fails with NoActiveChat and changes nothing |
| `DidSession.StaleChatAfterFailedConnect` | services/didService.ts:84-85 | after a connect that failed past create-chat, followed by a disconnect, sendMessage still POSTs to the old chat |
| `DidSession.EveryRequestAuthorized` | services/didService.ts:24-29 | every request of every run carries `Basic <apiKey>` and a JSON content type |
| `DidClient.DIDService.constructor` | services/didService.ts:12-22 | the object starts in the state `Init` describes, with the given credentials and video source |
| `DidClient.DIDService.Connect` | services/didService.ts:31-75 | the new state is `DidSession.ConnectStart` of the old state and the constructor outcome |
| `DidClient.DIDService.AfterCreate` | services/didService.ts:77-88 | for a call awaiting create-chat, the new state is `DidSession.AfterCreate` of the old state |
| `DidClient.DIDService.AfterNegotiation` | services/didService.ts:88-97 | for a call awaiting negotiation with the chat id it holds, the new state is `DidSession.AfterNegotiation` of the old state |
| `DidClient.DIDService.AfterAnswer` | services/didService.ts:99-107 | for a call awaiting the answer, the new state is `DidSession.AfterAnswer` of the old state |
| `DidClient.DIDService.OnTrack` | services/didService.ts:44-50 | the new state is `DidSession.OnTrack` of the old state; only `srcObject` may change |
| `DidClient.DIDService.OnIceCandidate` | services/didService.ts:52-56 | the new state is `DidSession.OnIceCandidate` of the old state; only the log may change |
| `DidClient.DIDService.OnConnectionStateChange` | services/didService.ts:58-65 | the new state is `DidSession.OnConnectionStateChange` of the old state; only the log may change |
| `DidClient.DIDService.SendIceCandidate` | services/didService.ts:110-121 | the new state is `DidSession.SendIceCandidate` of the old state; only the log may change |
| `DidClient.DIDService.SendMessage` | services/didService.ts:123-140 | the new state and the result are those of `DidSession.SendMessage`; only the log may change |
| `DidClient.DIDService.Disconnect` | services/didService.ts:142-151 | no precondition; the new state is `DidSession.Disconnect` of the old state; it writes only the peer, the closed set, the sink and the log |

## Left out

- Promise scheduling: which suspended call resumes next is chosen by the event sequence, not
  derived from a model of the event loop.
- `connect()` is suspended at six awaits but cut at three. The `json()` read is merged with the
  create-chat response, and `setRemoteDescription`, `createAnswer` and `setLocalDescription` are
  merged into one negotiation step. Nothing can run between the merged awaits. `AfterCreate`
  checks the peer field before `setRemoteDescription`, as line 88 does. `AfterNegotiation` then
  checks it once, after the `setLocalDescription` await has settled, where lines 89-90 read it
  before each of `createAnswer` and `setLocalDescription`.
- `DidClient.DIDService.AfterCreate`, `AfterNegotiation` and `AfterAnswer` require the matching
  suspended call, because the runtime resumes only calls it suspended. The functions of the same
  names also cover any other resumption, as a no-op.
- The contents of the SDP offer and answer and of the ICE candidates: they are opaque strings.
  `setRemoteDescription`, `createAnswer` and `setLocalDescription` become one caller-supplied
  negotiation outcome.
- Real `fetch`, HTTP status texts, JSON encoding and decoding, and the `error` objects thrown.
  A create response is assumed to carry `id` and `streamId` strings; a response without them is
  not modelled.
- `video.play()` and its rejection, which is only logged; the console logging.
- The ICE servers passed to the peer connection (two fixed STUN URLs) are configuration that
  the model does not carry.
- The hooks stay callable after disconnect. The platform fires nothing on a closed peer, but the
  source does not guard `ontrack`, so the model does not guard it either.
- The React screens, the canvas animation, the configuration dialog and the text-suggestion
  service are not part of this model.
