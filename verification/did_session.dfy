/** The session negotiator of the avatar client as a state machine over values.

    A `Service` value holds what a DIDService instance owns: the current peer connection
    (a handle numbered in creation order), the chat and stream ids the remote service
    assigned, the video sink's source, and one log of everything observable from outside,
    in order: each state reported to the observer and each HTTP request issued.
    Every network and WebRTC result is an outcome the caller supplies. */
module DidSession {
  import opened Types
  import opened DidApi

  /** RTCPeerConnection.connectionState as the platform reports it. */
  datatype PeerConnectionState =
    | PeerNew | PeerConnecting | PeerConnected | PeerDisconnected | PeerFailed | PeerClosed

  /** The create-chat call: an ok response carrying `id` and `streamId` (its SDP offer is
      opaque), or a non-ok status or a failed fetch or JSON decode. */
  datatype CreateOutcome = Created(id: string, streamId: string) | CreateFailed

  /** setRemoteDescription, createAnswer and setLocalDescription together: the local answer
      produced, or a rejection by any of the three. */
  datatype NegotiationOutcome = Negotiated(answer: string) | NegotiationFailed

  /** The answer call: an ok response, or a non-ok status or a failed fetch. */
  datatype AnswerOutcome = AnswerAccepted | AnswerRejected

  /** The message call: an ok response with its decoded payload, or any failure. */
  datatype SendOutcome = Delivered(payload: string) | Undelivered

  datatype SendError = NoActiveChat | SendFailed

  datatype Result<T> = Ok(value: T) | Err(error: SendError)

  /** One thing an observer of the service can see: a state report or an issued request. */
  datatype Effect = Notify(state: ConnectionState) | Issue(request: Request)

  /** A peer connection, identified by the order in which the service created it. */
  type PeerId = nat

  /** The await at which a connect() call is suspended: the create-chat response and its
      JSON (line 69-81 of the service), the three description steps with the chat id the
      response returned (lines 88-90), or the answer response (line 93). */
  datatype Continuation =
    | AwaitingCreate
    | AwaitingNegotiation(chatId: string)
    | AwaitingAnswer

  datatype Service = Service(
    config: Config,
    peer: Option<PeerId>,
    chatId: Option<string>,
    streamId: Option<string>,
    srcObject: Option<string>,
    peersCreated: nat,
    closed: set<PeerId>,
    pending: map<PeerId, Continuation>,
    log: seq<Effect>)

  /** Peer handles (of the current peer, of closed peers and of suspended connect() calls)
      are ones the service created, the current one is open, and every request
      issued so far carries the instance's credentials. */
  predicate Valid(s: Service) {
    (s.peer.Some? ==> s.peer.value < s.peersCreated && s.peer.value !in s.closed) &&
    (forall p | p in s.closed :: p < s.peersCreated) &&
    (forall p | p in s.pending :: p < s.peersCreated) &&
    (forall i | 0 <= i < |s.log| && s.log[i].Issue? :: Authorized(s.config, s.log[i].request))
  }

  /** JavaScript truthiness of an optional string: null and "" are both false. */
  predicate Truthy(v: Option<string>) {
    v.Some? && v.value != ""
  }

  /** The states reported to the observer, in order. */
  function Notifications(log: seq<Effect>): (ns: seq<ConnectionState>)
    ensures |ns| <= |log|
  {
    if log == [] then []
    else (if log[0].Notify? then [log[0].state] else []) + Notifications(log[1..])
  }

  /** The requests issued, in order. */
  function Requests(log: seq<Effect>): (rs: seq<Request>)
    ensures |rs| <= |log|
  {
    if log == [] then []
    else (if log[0].Issue? then [log[0].request] else []) + Requests(log[1..])
  }

  lemma {:induction false} NotificationsAppend(a: seq<Effect>, b: seq<Effect>)
    ensures Notifications(a + b) == Notifications(a) + Notifications(b)
  {
    if a == [] {
      assert a + b == b;
    } else {
      var head := if a[0].Notify? then [a[0].state] else [];
      assert (a + b)[0] == a[0] && (a + b)[1..] == a[1..] + b;
      NotificationsAppend(a[1..], b);
      calc {
        Notifications(a + b);
        head + Notifications(a[1..] + b);
        head + (Notifications(a[1..]) + Notifications(b));
        (head + Notifications(a[1..])) + Notifications(b);
        Notifications(a) + Notifications(b);
      }
    }
  }

  lemma {:induction false} RequestsAppend(a: seq<Effect>, b: seq<Effect>)
    ensures Requests(a + b) == Requests(a) + Requests(b)
  {
    if a == [] {
      assert a + b == b;
    } else {
      var head := if a[0].Issue? then [a[0].request] else [];
      assert (a + b)[0] == a[0] && (a + b)[1..] == a[1..] + b;
      RequestsAppend(a[1..], b);
      calc {
        Requests(a + b);
        head + Requests(a[1..] + b);
        head + (Requests(a[1..]) + Requests(b));
        (head + Requests(a[1..])) + Requests(b);
        Requests(a) + Requests(b);
      }
    }
  }

  /** A freshly constructed service: no peer, no chat, no stream, nothing observed yet. */
  function Init(cfg: Config, srcObject: Option<string>): (s: Service)
    ensures Valid(s) && s.config == cfg
    ensures s.peer == None && !Truthy(s.chatId) && s.streamId == None
    ensures Notifications(s.log) == [] && Requests(s.log) == []
  {
    Service(cfg, None, None, None, srcObject, 0, {}, map[], [])
  }

  /** disconnect(): close and drop the peer, clear the video sink, report DISCONNECTED.
      The chat and stream ids are kept. */
  function Disconnect(s: Service): (t: Service)
    ensures Valid(s) ==> Valid(t)
    ensures t.peer == None && t.srcObject == None
    ensures t.closed == if s.peer.Some? then s.closed + {s.peer.value} else s.closed
    ensures t.log == s.log + [Notify(Disconnected)]
    ensures t.config == s.config && t.chatId == s.chatId && t.streamId == s.streamId
    ensures t.peersCreated == s.peersCreated && t.pending == s.pending
  {
    var closed := if s.peer.Some? then s.closed + {s.peer.value} else s.closed;
    s.(peer := None, closed := closed, srcObject := None, log := s.log + [Notify(Disconnected)])
  }

  /** The catch block of connect(): report FAILED, then disconnect whatever peer is current. */
  function Abort(s: Service): (t: Service)
    ensures Valid(s) ==> Valid(t)
    ensures t.log == s.log + [Notify(Failed)] + [Notify(Disconnected)]
    ensures t.peer == None && t.srcObject == None
    ensures t.closed == if s.peer.Some? then s.closed + {s.peer.value} else s.closed
    ensures t.config == s.config && t.chatId == s.chatId && t.streamId == s.streamId
    ensures t.peersCreated == s.peersCreated && t.pending == s.pending
  {
    Disconnect(s.(log := s.log + [Notify(Failed)]))
  }

  /** Whether every step of the connect sequence went through. */
  predicate Succeeds(create: CreateOutcome, negotiation: NegotiationOutcome, answer: AnswerOutcome) {
    create.Created? && negotiation.Negotiated? && answer == AnswerAccepted
  }

  /** connect() up to its first await: report CONNECTING, construct a new peer (the previous
      one is overwritten, not closed), register its hooks and POST create-chat with the stored
      stream id; the call is then suspended awaiting the response. When the peer constructor
      throws, the catch block reports FAILED and disconnects the peer still in the field. */
  function ConnectStart(s: Service, peerCreated: bool): (t: Service)
    ensures Valid(s) ==> Valid(t)
    ensures t.config == s.config && t.chatId == s.chatId && t.streamId == s.streamId
    ensures |s.log| < |t.log| && t.log[..|s.log|] == s.log && t.log[|s.log|] == Notify(Connecting)
    ensures peerCreated ==>
      t.peer == Some(s.peersCreated) && t.peersCreated == s.peersCreated + 1 &&
      t.closed == s.closed && t.srcObject == s.srcObject &&
      t.pending == s.pending[s.peersCreated := AwaitingCreate] &&
      t.log == s.log + [Notify(Connecting)] + [Issue(CreateChatRequest(s.config, s.streamId))]
    ensures !peerCreated ==>
      t.peer == None && t.peersCreated == s.peersCreated && t.srcObject == None &&
      t.closed == (if s.peer.Some? then s.closed + {s.peer.value} else s.closed) &&
      t.pending == s.pending &&
      t.log == s.log + [Notify(Connecting)] + [Notify(Failed)] + [Notify(Disconnected)]
  {
    var notified := s.(log := s.log + [Notify(Connecting)]);
    if !peerCreated then Abort(notified)
    else
      var p := s.peersCreated;
      notified.(peer := Some(p), peersCreated := p + 1, pending := s.pending[p := AwaitingCreate],
                log := notified.log + [Issue(CreateChatRequest(s.config, s.streamId))])
  }

  /** The connect() call that created peer `attempt` resumes with the create-chat response:
      a failure goes to the catch block; otherwise the returned ids are stored and
      setRemoteDescription is called on the peer now in the field, which throws (to the
      catch block) when that field is null. A call not suspended there does nothing. */
  function AfterCreate(s: Service, attempt: PeerId, create: CreateOutcome): (t: Service)
    ensures Valid(s) ==> Valid(t)
    ensures t.config == s.config && s.log <= t.log && t.peersCreated == s.peersCreated
    ensures !(attempt in s.pending && s.pending[attempt] == AwaitingCreate) ==> t == s
    ensures attempt in s.pending && s.pending[attempt] == AwaitingCreate ==>
      t.chatId == (if create.Created? then Some(create.id) else s.chatId) &&
      t.streamId == (if create.Created? then Some(create.streamId) else s.streamId)
    ensures attempt in s.pending && s.pending[attempt] == AwaitingCreate && create.Created? && s.peer.Some? ==>
      t.peer == s.peer && t.closed == s.closed && t.srcObject == s.srcObject && t.log == s.log &&
      t.pending == s.pending[attempt := AwaitingNegotiation(create.id)]
    ensures attempt in s.pending && s.pending[attempt] == AwaitingCreate && (create.CreateFailed? || s.peer.None?) ==>
      t.peer == None && t.srcObject == None && t.pending == s.pending - {attempt} &&
      t.closed == (if s.peer.Some? then s.closed + {s.peer.value} else s.closed) &&
      t.log == s.log + [Notify(Failed)] + [Notify(Disconnected)]
  {
    if attempt !in s.pending || s.pending[attempt] != AwaitingCreate then s
    else
      var resumed := s.(pending := s.pending - {attempt});
      match create
      case CreateFailed => Abort(resumed)
      case Created(id, sid) =>
        var stored := resumed.(chatId := Some(id), streamId := Some(sid));
        if s.peer.None? then Abort(stored)
        else stored.(pending := s.pending[attempt := AwaitingNegotiation(id)])
  }

  /** The suspended connect() resumes once the remote description, the answer and the local
      description have settled: a failure, or a null peer field when it resumes, goes to the
      catch block; otherwise it POSTs the answer to the chat id its create response returned
      and is suspended again. A call not suspended there does nothing. */
  function AfterNegotiation(s: Service, attempt: PeerId, negotiation: NegotiationOutcome): (t: Service)
    ensures Valid(s) ==> Valid(t)
    ensures t.config == s.config && s.log <= t.log && t.peersCreated == s.peersCreated
    ensures t.chatId == s.chatId && t.streamId == s.streamId
    ensures !(attempt in s.pending && s.pending[attempt].AwaitingNegotiation?) ==> t == s
    ensures attempt in s.pending && s.pending[attempt].AwaitingNegotiation? && negotiation.Negotiated? && s.peer.Some? ==>
      t.peer == s.peer && t.closed == s.closed && t.srcObject == s.srcObject &&
      t.pending == s.pending[attempt := AwaitingAnswer] &&
      t.log == s.log + [Issue(AnswerRequest(s.config, s.pending[attempt].chatId, negotiation.answer))]
    ensures attempt in s.pending && s.pending[attempt].AwaitingNegotiation? && (negotiation.NegotiationFailed? || s.peer.None?) ==>
      t.peer == None && t.srcObject == None && t.pending == s.pending - {attempt} &&
      t.closed == (if s.peer.Some? then s.closed + {s.peer.value} else s.closed) &&
      t.log == s.log + [Notify(Failed)] + [Notify(Disconnected)]
  {
    if attempt !in s.pending || !s.pending[attempt].AwaitingNegotiation? then s
    else
      var id := s.pending[attempt].chatId;
      var resumed := s.(pending := s.pending - {attempt});
      if negotiation.NegotiationFailed? || s.peer.None? then Abort(resumed)
      else resumed.(pending := s.pending[attempt := AwaitingAnswer],
                    log := s.log + [Issue(AnswerRequest(s.config, id, negotiation.answer))])
  }

  /** The suspended connect() resumes with the answer response and returns; a rejection goes
      to the catch block. A call not suspended there does nothing. */
  function AfterAnswer(s: Service, attempt: PeerId, answer: AnswerOutcome): (t: Service)
    ensures Valid(s) ==> Valid(t)
    ensures t.config == s.config && s.log <= t.log && t.peersCreated == s.peersCreated
    ensures t.chatId == s.chatId && t.streamId == s.streamId
    ensures !(attempt in s.pending && s.pending[attempt] == AwaitingAnswer) ==> t == s
    ensures attempt in s.pending && s.pending[attempt] == AwaitingAnswer && answer == AnswerAccepted ==>
      t == s.(pending := s.pending - {attempt})
    ensures attempt in s.pending && s.pending[attempt] == AwaitingAnswer && answer == AnswerRejected ==>
      t.peer == None && t.srcObject == None && t.pending == s.pending - {attempt} &&
      t.closed == (if s.peer.Some? then s.closed + {s.peer.value} else s.closed) &&
      t.log == s.log + [Notify(Failed)] + [Notify(Disconnected)]
  {
    if attempt !in s.pending || s.pending[attempt] != AwaitingAnswer then s
    else
      var resumed := s.(pending := s.pending - {attempt});
      if answer == AnswerAccepted then resumed else Abort(resumed)
  }

  /** One connect() call whose steps all run with nothing in between. */
  function ConnectUninterrupted(s: Service, create: CreateOutcome, negotiation: NegotiationOutcome, answer: AnswerOutcome): (t: Service)
    ensures Valid(s) ==> Valid(t)
    ensures t.config == s.config && t.peersCreated == s.peersCreated + 1
    ensures |s.log| < |t.log| && t.log[..|s.log|] == s.log && t.log[|s.log|] == Notify(Connecting)
    ensures t.chatId == if create.Created? then Some(create.id) else s.chatId
    ensures t.streamId == if create.Created? then Some(create.streamId) else s.streamId
    ensures Valid(s) ==> t.pending == s.pending
    ensures Succeeds(create, negotiation, answer) ==>
      t.peer == Some(s.peersCreated) && t.closed == s.closed && t.srcObject == s.srcObject
    ensures !Succeeds(create, negotiation, answer) ==>
      t.peer == None && t.closed == s.closed + {s.peersCreated} && t.srcObject == None
  {
    var p := s.peersCreated;
    var started := ConnectStart(s, true);
    assert p in started.pending && started.pending[p] == AwaitingCreate;
    var created := AfterCreate(started, p, create);
    var negotiated := AfterNegotiation(created, p, negotiation);
    AfterAnswer(negotiated, p, answer)
  }

  /** The ontrack hook: attach the event's first stream to the video sink, if it has one.
      A rejected play() is only logged to the console. */
  function OnTrack(s: Service, streams: seq<string>): (t: Service)
    ensures Valid(s) ==> Valid(t)
    ensures t.log == s.log
    ensures |streams| == 0 ==> t == s
    ensures |streams| > 0 ==> t == s.(srcObject := Some(streams[0]))
  {
    if |streams| == 0 then s else s.(srcObject := Some(streams[0]))
  }

  /** sendICECandidate(): POST the candidate when a chat id is set; a failed fetch is caught
      and only logged, so `delivered` changes nothing. */
  function SendIceCandidate(s: Service, candidate: string, delivered: bool): (t: Service)
    ensures Valid(s) ==> Valid(t)
    ensures !Truthy(s.chatId) ==> t == s
    ensures Truthy(s.chatId) ==> t == s.(log := s.log + [Issue(IceRequest(s.config, s.chatId.value, candidate))])
  {
    if !Truthy(s.chatId) then s
    else s.(log := s.log + [Issue(IceRequest(s.config, s.chatId.value, candidate))])
  }

  /** The onicecandidate hook: forward only a present candidate, and only when a chat id is set. */
  function OnIceCandidate(s: Service, candidate: Option<string>, delivered: bool): (t: Service)
    ensures Valid(s) ==> Valid(t)
    ensures t.(log := s.log) == s && s.log <= t.log
  {
    if candidate.Some? && Truthy(s.chatId) then SendIceCandidate(s, candidate.value, delivered) else s
  }

  /** The onconnectionstatechange hook, reading the state of the service's current peer:
      'connected' reports CONNECTED, 'failed' reports FAILED, anything else (or no current
      peer) reports nothing. */
  function OnConnectionStateChange(s: Service, transport: PeerConnectionState): (t: Service)
    ensures Valid(s) ==> Valid(t)
    ensures t.(log := s.log) == s
    ensures t.log == s.log || t.log == s.log + [Notify(Connected)] || t.log == s.log + [Notify(Failed)]
  {
    if s.peer.None? then s
    else if transport == PeerConnected then s.(log := s.log + [Notify(Connected)])
    else if transport == PeerFailed then s.(log := s.log + [Notify(Failed)])
    else s
  }

  /** sendMessage(): fail with no request when no chat id is set; otherwise POST the text
      and fail unless the response is ok. */
  function SendMessage(s: Service, text: string, outcome: SendOutcome): (r: (Service, Result<string>))
    ensures Valid(s) ==> Valid(r.0)
    ensures r.0.(log := s.log) == s && s.log <= r.0.log
    ensures r.1.Ok? ==> Truthy(s.chatId) && outcome == Delivered(r.1.value)
    ensures r.1 == Err(NoActiveChat) <==> !Truthy(s.chatId)
  {
    if !Truthy(s.chatId) then (s, Err(NoActiveChat))
    else
      var t := s.(log := s.log + [Issue(MessageRequest(s.config, s.chatId.value, text))]);
      match outcome
      case Delivered(payload) => (t, Ok(payload))
      case Undelivered => (t, Err(SendFailed))
  }

  /** A call into the service, a suspended connect() resuming, or a callback from a peer
      connection. A resumption names the connect() call by the peer that call created. */
  datatype Event =
    | ConnectCall(peerCreated: bool)
    | CreateResponse(attempt: PeerId, create: CreateOutcome)
    | NegotiationSettled(attempt: PeerId, negotiation: NegotiationOutcome)
    | AnswerResponse(attempt: PeerId, answer: AnswerOutcome)
    | DisconnectCall
    | TrackFired(streams: seq<string>)
    | IceFired(discovered: Option<string>, delivered: bool)
    | IceSendCall(candidate: string, delivered: bool)
    | StateChangeFired(transport: PeerConnectionState)
    | MessageCall(text: string, outcome: SendOutcome)

  function Step(s: Service, e: Event): (t: Service)
    ensures Valid(s) ==> Valid(t)
    ensures t.config == s.config && s.log <= t.log
  {
    match e
    case ConnectCall(ok) => ConnectStart(s, ok)
    case CreateResponse(p, c) => AfterCreate(s, p, c)
    case NegotiationSettled(p, n) => AfterNegotiation(s, p, n)
    case AnswerResponse(p, a) => AfterAnswer(s, p, a)
    case DisconnectCall => Disconnect(s)
    case TrackFired(streams) => OnTrack(s, streams)
    case IceFired(c, d) => OnIceCandidate(s, c, d)
    case IceSendCall(c, d) => SendIceCandidate(s, c, d)
    case StateChangeFired(p) => OnConnectionStateChange(s, p)
    case MessageCall(text, o) => SendMessage(s, text, o).0
  }

  /** The service after a sequence of calls and callbacks, one after the other. */
  function Run(s: Service, es: seq<Event>): (t: Service)
    ensures Valid(s) ==> Valid(t)
    ensures t.config == s.config && s.log <= t.log
    decreases |es|
  {
    if es == [] then s else Run(Step(s, es[0]), es[1..])
  }

  lemma {:induction false} RunSnoc(s: Service, es: seq<Event>, e: Event)
    ensures Run(s, es + [e]) == Step(Run(s, es), e)
    decreases |es|
  {
    if es == [] {
      assert es + [e] == [e];
    } else {
      assert (es + [e])[1..] == es[1..] + [e];
      RunSnoc(Step(s, es[0]), es[1..], e);
    }
  }

  /** Running a few events is stepping through them one by one. */
  lemma RunThree(s: Service, e1: Event, e2: Event, e3: Event)
    ensures Run(s, [e1, e2, e3]) == Step(Step(Step(s, e1), e2), e3)
  {
    var s1 := Step(s, e1);
    var s2 := Step(s1, e2);
    assert [e1, e2, e3][1..] == [e2, e3];
    assert [e2, e3][1..] == [e3];
    assert [e3][1..] == [];
    calc {
      Run(s, [e1, e2, e3]);
      Run(s1, [e2, e3]);
      Run(s2, [e3]);
      Run(Step(s2, e3), []);
    }
  }

  lemma RunFive(s: Service, e1: Event, e2: Event, e3: Event, e4: Event, e5: Event)
    ensures Run(s, [e1, e2, e3, e4, e5]) == Step(Step(Step(Step(Step(s, e1), e2), e3), e4), e5)
  {
    var s1 := Step(s, e1);
    var s2 := Step(s1, e2);
    var s3 := Step(s2, e3);
    var s4 := Step(s3, e4);
    assert [e1, e2, e3, e4, e5][1..] == [e2, e3, e4, e5];
    assert [e2, e3, e4, e5][1..] == [e3, e4, e5];
    assert [e3, e4, e5][1..] == [e4, e5];
    assert [e4, e5][1..] == [e5];
    assert [e5][1..] == [];
    calc {
      Run(s, [e1, e2, e3, e4, e5]);
      Run(s1, [e2, e3, e4, e5]);
      Run(s2, [e3, e4, e5]);
      Run(s3, [e4, e5]);
      Run(s4, [e5]);
      Run(Step(s4, e5), []);
    }
  }

  lemma MapUpdateTwice<K, V>(m: map<K, V>, k: K, v: V, w: V)
    ensures m[k := v][k := w] == m[k := w]
  {
  }

  lemma MapUpdateRemove<K, V>(m: map<K, V>, k: K, v: V)
    requires k !in m
    ensures m[k := v] - {k} == m
  {
  }

  /** Which function each kind of event runs. */
  lemma StepConnect(s: Service, peerCreated: bool)
    ensures Step(s, ConnectCall(peerCreated)) == ConnectStart(s, peerCreated)
  {
  }

  lemma StepCreate(s: Service, attempt: PeerId, create: CreateOutcome)
    ensures Step(s, CreateResponse(attempt, create)) == AfterCreate(s, attempt, create)
  {
  }

  lemma StepNegotiation(s: Service, attempt: PeerId, negotiation: NegotiationOutcome)
    ensures Step(s, NegotiationSettled(attempt, negotiation)) == AfterNegotiation(s, attempt, negotiation)
  {
  }

  lemma StepDisconnect(s: Service)
    ensures Step(s, DisconnectCall) == Disconnect(s)
  {
  }

  lemma StepMessage(s: Service, text: string, outcome: SendOutcome)
    ensures Step(s, MessageCall(text, outcome)) == SendMessage(s, text, outcome).0
  {
  }

  lemma StepAnswer(s: Service, attempt: PeerId, answer: AnswerOutcome)
    ensures Step(s, AnswerResponse(attempt, answer)) == AfterAnswer(s, attempt, answer)
  {
  }

  /** The events of one connect() call, by the peer it creates, with nothing in between. */
  function ConnectAlone(s: Service, create: CreateOutcome, negotiation: NegotiationOutcome, answer: AnswerOutcome): seq<Event> {
    var p := s.peersCreated;
    [ConnectCall(true), CreateResponse(p, create), NegotiationSettled(p, negotiation), AnswerResponse(p, answer)]
  }

  /** Running the four events of one uninterrupted connect() is `ConnectUninterrupted`. */
  lemma ConnectIsRun(s: Service, create: CreateOutcome, negotiation: NegotiationOutcome, answer: AnswerOutcome)
    ensures Run(s, ConnectAlone(s, create, negotiation, answer)) == ConnectUninterrupted(s, create, negotiation, answer)
  {
    var p := s.peersCreated;
    var es := ConnectAlone(s, create, negotiation, answer);
    var s1 := ConnectStart(s, true);
    var s2 := AfterCreate(s1, p, create);
    var s3 := AfterNegotiation(s2, p, negotiation);
    var s4 := AfterAnswer(s3, p, answer);
    assert es[1..][1..][1..][1..] == [];
    calc {
      Run(s, es);
      Run(s1, es[1..]);
      Run(s2, es[1..][1..]);
      Run(s3, es[1..][1..][1..]);
      Run(s4, es[1..][1..][1..][1..]);
      s4;
    }
  }

  /** Whether the event is an ok create-chat response that a suspended connect() awaits. */
  predicate ReceivesCreated(s: Service, e: Event) {
    e.CreateResponse? && e.create.Created? && e.attempt in s.pending && s.pending[e.attempt] == AwaitingCreate
  }

  /** Only an ok create-chat response that a suspended connect() awaits changes the chat
      and stream ids, and it sets them to the ids it carries. */
  lemma StepIds(s: Service, e: Event)
    ensures ReceivesCreated(s, e) ==>
      Step(s, e).chatId == Some(e.create.id) && Step(s, e).streamId == Some(e.create.streamId)
    ensures !ReceivesCreated(s, e) ==> Step(s, e).chatId == s.chatId && Step(s, e).streamId == s.streamId
  {
  }

  /** The `(id, streamId)` of the latest ok create-chat response that a suspended connect()
      received, among the events run from `s`. */
  function LastCreated(s: Service, es: seq<Event>): Option<(string, string)>
    decreases |es|
  {
    if es == [] then None
    else
      var init, e := es[..|es| - 1], es[|es| - 1];
      if ReceivesCreated(Run(s, init), e) then Some((e.create.id, e.create.streamId))
      else LastCreated(s, init)
  }

  /** The chat and stream ids are those of the latest ok create-chat response; nothing else
      (disconnect, a failed step, a hook, a message) ever changes or clears them. */
  lemma {:induction false} IdsFromLastCreate(s: Service, es: seq<Event>)
    ensures LastCreated(s, es).None? ==> Run(s, es).chatId == s.chatId && Run(s, es).streamId == s.streamId
    ensures LastCreated(s, es).Some? ==>
      Run(s, es).chatId == Some(LastCreated(s, es).value.0) && Run(s, es).streamId == Some(LastCreated(s, es).value.1)
    decreases |es|
  {
    if es != [] {
      var init, e := es[..|es| - 1], es[|es| - 1];
      assert es == init + [e];
      RunSnoc(s, init, e);
      StepIds(Run(s, init), e);
      IdsFromLastCreate(s, init);
    }
  }

  /** Each create-chat body carries the stream id of the latest earlier ok create-chat
      response (or the initial one), so the stream id persists across reconnects. */
  lemma CreateCarriesLastStreamId(s: Service, es: seq<Event>)
    ensures var before := Run(s, es);
            var after := Run(s, es + [ConnectCall(true)]);
            |Requests(before.log)| < |Requests(after.log)| &&
            Requests(after.log)[|Requests(before.log)|] ==
              CreateChatRequest(s.config, if LastCreated(s, es).Some? then Some(LastCreated(s, es).value.1) else s.streamId)
  {
    var before := Run(s, es);
    RunSnoc(s, es, ConnectCall(true));
    var l1 := before.log + [Notify(Connecting)];
    ViewsSnoc(before.log, Notify(Connecting));
    ViewsSnoc(l1, Issue(CreateChatRequest(s.config, before.streamId)));
    IdsFromLastCreate(s, es);
  }

  /** Appending one effect extends exactly one of the two views. */
  lemma ViewsSnoc(log: seq<Effect>, e: Effect)
    ensures Notifications(log + [e]) == Notifications(log) + (if e.Notify? then [e.state] else [])
    ensures Requests(log + [e]) == Requests(log) + (if e.Issue? then [e.request] else [])
  {
    NotificationsAppend(log, [e]);
    RequestsAppend(log, [e]);
    assert [e][1..] == [];
  }

  /** The exact log an uninterrupted connect() appends. */
  lemma ConnectLog(s: Service, create: CreateOutcome, negotiation: NegotiationOutcome, answer: AnswerOutcome)
    requires Valid(s)
    ensures var t := ConnectUninterrupted(s, create, negotiation, answer);
            var started := s.log + [Notify(Connecting)] + [Issue(CreateChatRequest(s.config, s.streamId))];
            (create.CreateFailed? || negotiation.NegotiationFailed? ==>
               t.log == started + [Notify(Failed)] + [Notify(Disconnected)]) &&
            (create.Created? && negotiation.Negotiated? ==>
               var answered := started + [Issue(AnswerRequest(s.config, create.id, negotiation.answer))];
               t.log == if answer == AnswerAccepted then answered
                        else answered + [Notify(Failed)] + [Notify(Disconnected)])
  {
    var p := s.peersCreated;
    var s1 := ConnectStart(s, true);
    assert p !in s.pending;
    assert s1.peer == Some(p) && s1.pending[p] == AwaitingCreate;
    var s2 := AfterCreate(s1, p, create);
    var s3 := AfterNegotiation(s2, p, negotiation);
    var s4 := AfterAnswer(s3, p, answer);
    assert s4 == ConnectUninterrupted(s, create, negotiation, answer);
    if create.CreateFailed? {
      assert p !in s2.pending;
      assert s3 == s2 && s4 == s3;
    } else if negotiation.NegotiationFailed? {
      assert s2.pending[p] == AwaitingNegotiation(create.id) && s2.log == s1.log;
      assert p !in s3.pending;
      assert s4 == s3;
    } else {
      assert s2.pending[p] == AwaitingNegotiation(create.id) && s2.log == s1.log && s2.peer.Some?;
      assert s3.pending[p] == AwaitingAnswer;
    }
  }

  /** The two views of a log that a connect() extended: CONNECTING and the create-chat
      request, possibly the answer request, possibly FAILED and DISCONNECTED. */
  lemma ConnectLogViews(prefix: seq<Effect>, create: Request, answer: Option<Request>, failed: bool)
    ensures var started := prefix + [Notify(Connecting)] + [Issue(create)];
            var answered := if answer.Some? then started + [Issue(answer.value)] else started;
            var full := if failed then answered + [Notify(Failed)] + [Notify(Disconnected)] else answered;
            Notifications(full) == Notifications(prefix) + (if failed then [Connecting, Failed, Disconnected] else [Connecting]) &&
            Requests(full) == Requests(prefix) + [create] + (if answer.Some? then [answer.value] else [])
  {
    var l1 := prefix + [Notify(Connecting)];
    ViewsSnoc(prefix, Notify(Connecting));
    var started := l1 + [Issue(create)];
    ViewsSnoc(l1, Issue(create));
    var answered := started;
    if answer.Some? {
      answered := started + [Issue(answer.value)];
      ViewsSnoc(started, Issue(answer.value));
    }
    if failed {
      ViewsSnoc(answered, Notify(Failed));
      ViewsSnoc(answered + [Notify(Failed)], Notify(Disconnected));
    }
  }

  /** What an uninterrupted connect() reports and requests. It reports CONNECTING, and
      nothing more when every step succeeds, else CONNECTING, FAILED, DISCONNECTED. It
      requests create-chat with the stored stream id, then the answer exactly when create and
      negotiation both went through, and nothing else. */
  lemma ConnectObservations(s: Service, create: CreateOutcome, negotiation: NegotiationOutcome, answer: AnswerOutcome)
    requires Valid(s)
    ensures Notifications(ConnectUninterrupted(s, create, negotiation, answer).log) == Notifications(s.log) +
      (if Succeeds(create, negotiation, answer) then [Connecting] else [Connecting, Failed, Disconnected])
    ensures Requests(ConnectUninterrupted(s, create, negotiation, answer).log) == Requests(s.log) +
      [CreateChatRequest(s.config, s.streamId)] +
      (if create.Created? && negotiation.Negotiated?
       then [AnswerRequest(s.config, create.id, negotiation.answer)] else [])
  {
    ConnectLog(s, create, negotiation, answer);
    var answered := if create.Created? && negotiation.Negotiated?
                    then Some(AnswerRequest(s.config, create.id, negotiation.answer)) else None;
    ConnectLogViews(s.log, CreateChatRequest(s.config, s.streamId), answered, !Succeeds(create, negotiation, answer));
  }

  /** A rejected create-chat: no answer is sent, the ids are untouched, the new peer is closed
      and dropped, and the last two reports are FAILED then DISCONNECTED. */
  lemma CreateFailureCleansUp(s: Service, negotiation: NegotiationOutcome, answer: AnswerOutcome)
    requires Valid(s)
    ensures var t := ConnectUninterrupted(s, CreateFailed, negotiation, answer);
            Requests(t.log) == Requests(s.log) + [CreateChatRequest(s.config, s.streamId)] &&
            t.chatId == s.chatId && t.streamId == s.streamId &&
            t.peer == None && s.peersCreated in t.closed && t.srcObject == None &&
            Notifications(t.log) == Notifications(s.log) + [Connecting, Failed, Disconnected]
  {
    ConnectObservations(s, CreateFailed, negotiation, answer);
  }

  /** A connect() whose peer is constructed never closes the peer it replaces, whatever its
      later steps do: that peer is neither closed nor current afterwards. */
  lemma ConnectLeavesPreviousPeerOpen(s: Service, create: CreateOutcome, negotiation: NegotiationOutcome, answer: AnswerOutcome)
    requires Valid(s) && s.peer.Some?
    ensures var t := ConnectStart(s, true);
            s.peer.value !in t.closed && t.peer != s.peer
    ensures var t := ConnectUninterrupted(s, create, negotiation, answer);
            s.peer.value !in t.closed && t.peer != s.peer
  {
  }

  /** When the peer constructor throws, connect() issues no request, reports CONNECTING,
      FAILED, DISCONNECTED, and its disconnect closes the previous peer, still in the field:
      the one connect path that closes it. */
  lemma PeerConstructionFailure(s: Service)
    ensures var t := ConnectStart(s, false);
            Requests(t.log) == Requests(s.log) &&
            Notifications(t.log) == Notifications(s.log) + [Connecting, Failed, Disconnected] &&
            t.peer == None && t.peersCreated == s.peersCreated && (s.peer.Some? ==> s.peer.value in t.closed) &&
            t.pending == s.pending && t.chatId == s.chatId && t.streamId == s.streamId
  {
    var l1 := s.log + [Notify(Connecting)];
    var l2 := l1 + [Notify(Failed)];
    ViewsSnoc(s.log, Notify(Connecting));
    ViewsSnoc(l1, Notify(Failed));
    ViewsSnoc(l2, Notify(Disconnected));
  }

  /** The events of a connect() with a message sent while it awaits its negotiation. */
  function MessageDuringConnectEvents(p: PeerId, id: string, sid: string, sdp: string, text: string, outcome: SendOutcome): seq<Event> {
    [ConnectCall(true), CreateResponse(p, Created(id, sid)), MessageCall(text, outcome),
     NegotiationSettled(p, Negotiated(sdp)), AnswerResponse(p, AnswerAccepted)]
  }

  /** Running those events composes the steps of the suspended connect() around the message. */
  lemma MessageDuringConnectIsRun(s: Service, id: string, sid: string, sdp: string, text: string, outcome: SendOutcome)
    ensures var p := s.peersCreated;
            Run(s, MessageDuringConnectEvents(p, id, sid, sdp, text, outcome)) ==
            AfterAnswer(AfterNegotiation(SendMessage(AfterCreate(ConnectStart(s, true), p, Created(id, sid)), text, outcome).0,
                                         p, Negotiated(sdp)), p, AnswerAccepted)
  {
    var p := s.peersCreated;
    var e1, e2, e3 := ConnectCall(true), CreateResponse(p, Created(id, sid)), MessageCall(text, outcome);
    var e4, e5 := NegotiationSettled(p, Negotiated(sdp)), AnswerResponse(p, AnswerAccepted);
    RunFive(s, e1, e2, e3, e4, e5);
    var s1 := ConnectStart(s, true);
    StepConnect(s, true);
    var s2 := AfterCreate(s1, p, Created(id, sid));
    StepCreate(s1, p, Created(id, sid));
    var s3 := SendMessage(s2, text, outcome).0;
    StepMessage(s2, text, outcome);
    var s4 := AfterNegotiation(s3, p, Negotiated(sdp));
    StepNegotiation(s3, p, Negotiated(sdp));
    StepAnswer(s4, p, AnswerAccepted);
  }

  /** The state after those events: four effects, the new peer kept, no connect() left pending. */
  lemma MessageDuringConnectRun(s: Service, id: string, sid: string, sdp: string, text: string, outcome: SendOutcome)
    requires Valid(s) && id != ""
    ensures var t := Run(s, MessageDuringConnectEvents(s.peersCreated, id, sid, sdp, text, outcome));
            t.log == s.log + [Notify(Connecting)] + [Issue(CreateChatRequest(s.config, s.streamId))] +
                     [Issue(MessageRequest(s.config, id, text))] + [Issue(AnswerRequest(s.config, id, sdp))] &&
            t.peer == Some(s.peersCreated) && t.pending == s.pending
  {
    MessageDuringConnectIsRun(s, id, sid, sdp, text, outcome);
    var p := s.peersCreated;
    var s1 := ConnectStart(s, true);
    assert p !in s.pending;
    assert s1.peer == Some(p) && s1.pending == s.pending[p := AwaitingCreate];
    var s2 := AfterCreate(s1, p, Created(id, sid));
    assert s2.log == s1.log && s2.chatId == Some(id) && s2.peer == Some(p);
    assert s2.pending == s1.pending[p := AwaitingNegotiation(id)];
    MapUpdateTwice(s.pending, p, AwaitingCreate, AwaitingNegotiation(id));
    var s3 := SendMessage(s2, text, outcome).0;
    assert s3 == s2.(log := s2.log + [Issue(MessageRequest(s.config, id, text))]);
    var s4 := AfterNegotiation(s3, p, Negotiated(sdp));
    assert s4.log == s3.log + [Issue(AnswerRequest(s.config, id, sdp))];
    assert s3.pending == s2.pending && s3.peer == s2.peer;
    assert s4.peer == Some(p) && s4.pending == s2.pending[p := AwaitingAnswer];
    MapUpdateTwice(s.pending, p, AwaitingNegotiation(id), AwaitingAnswer);
    var s5 := AfterAnswer(s4, p, AnswerAccepted);
    assert s5.pending == s4.pending - {p};
    MapUpdateRemove(s.pending, p, AwaitingAnswer);
  }

  /** The two views of a log that such a run extended: CONNECTING, then three requests. */
  lemma MessageDuringConnectLogViews(prefix: seq<Effect>, create: Request, message: Request, answer: Request)
    ensures var full := prefix + [Notify(Connecting)] + [Issue(create)] + [Issue(message)] + [Issue(answer)];
            Notifications(full) == Notifications(prefix) + [Connecting] &&
            Requests(full) == Requests(prefix) + [create, message, answer]
  {
    var l1 := prefix + [Notify(Connecting)];
    var l2 := l1 + [Issue(create)];
    var l3 := l2 + [Issue(message)];
    ViewsSnoc(prefix, Notify(Connecting));
    ViewsSnoc(l1, Issue(create));
    ViewsSnoc(l2, Issue(message));
    ViewsSnoc(l3, Issue(answer));
  }

  /** A message sent while connect() is suspended between its create-chat response and its
      negotiation goes to the chat just created, and is POSTed between the create-chat and
      the answer requests. */
  lemma MessageDuringConnect(s: Service, id: string, sid: string, sdp: string, text: string, outcome: SendOutcome)
    requires Valid(s) && id != ""
    ensures var t := Run(s, MessageDuringConnectEvents(s.peersCreated, id, sid, sdp, text, outcome));
            Requests(t.log) == Requests(s.log) +
              [CreateChatRequest(s.config, s.streamId), MessageRequest(s.config, id, text), AnswerRequest(s.config, id, sdp)] &&
            Notifications(t.log) == Notifications(s.log) + [Connecting] &&
            t.peer == Some(s.peersCreated) && t.pending == s.pending
  {
    MessageDuringConnectRun(s, id, sid, sdp, text, outcome);
    MessageDuringConnectLogViews(s.log, CreateChatRequest(s.config, s.streamId), MessageRequest(s.config, id, text),
                                 AnswerRequest(s.config, id, sdp));
  }

  /** The views of a log extended by CONNECTING, a create-chat request, then DISCONNECTED,
      FAILED, DISCONNECTED. */
  lemma AbandonedConnectViews(prefix: seq<Effect>, create: Request)
    ensures var full := prefix + [Notify(Connecting)] + [Issue(create)] +
                        [Notify(Disconnected)] + [Notify(Failed)] + [Notify(Disconnected)];
            Notifications(full) == Notifications(prefix) + [Connecting, Disconnected, Failed, Disconnected] &&
            Requests(full) == Requests(prefix) + [create]
  {
    var l1 := prefix + [Notify(Connecting)];
    var l2 := l1 + [Issue(create)];
    var l3 := l2 + [Notify(Disconnected)];
    var l4 := l3 + [Notify(Failed)];
    ViewsSnoc(prefix, Notify(Connecting));
    ViewsSnoc(l1, Issue(create));
    ViewsSnoc(l2, Notify(Disconnected));
    ViewsSnoc(l3, Notify(Failed));
    ViewsSnoc(l4, Notify(Disconnected));
  }

  /** A disconnect() while connect() awaits its create-chat response: the response's ids are
      still stored, setRemoteDescription then meets a null peer field, and the catch block
      reports FAILED and disconnects again. No answer is ever POSTed. */
  lemma DisconnectWhileAwaitingCreate(s: Service, id: string, sid: string)
    requires Valid(s)
    ensures var p := s.peersCreated;
            var t := Run(s, [ConnectCall(true), DisconnectCall, CreateResponse(p, Created(id, sid))]);
            t.chatId == Some(id) && t.streamId == Some(sid) && t.peer == None && t.pending == s.pending &&
            Requests(t.log) == Requests(s.log) + [CreateChatRequest(s.config, s.streamId)] &&
            Notifications(t.log) == Notifications(s.log) + [Connecting, Disconnected, Failed, Disconnected]
  {
    var p := s.peersCreated;
    RunThree(s, ConnectCall(true), DisconnectCall, CreateResponse(p, Created(id, sid)));
    var s1 := ConnectStart(s, true);
    StepConnect(s, true);
    var s2 := Disconnect(s1);
    StepDisconnect(s1);
    var s3 := AfterCreate(s2, p, Created(id, sid));
    StepCreate(s2, p, Created(id, sid));
    assert p !in s.pending;
    assert s2.pending == s.pending[p := AwaitingCreate] && s2.peer == None;
    assert s3.pending == s2.pending - {p};
    MapUpdateRemove(s.pending, p, AwaitingCreate);
    var l2 := s.log + [Notify(Connecting)] + [Issue(CreateChatRequest(s.config, s.streamId))];
    assert s3.log == l2 + [Notify(Disconnected)] + [Notify(Failed)] + [Notify(Disconnected)];
    AbandonedConnectViews(s.log, CreateChatRequest(s.config, s.streamId));
  }

  /** disconnect() is safe twice in a row: the second call changes nothing but reporting one
      more DISCONNECTED, and neither call touches the chat or stream id. */
  lemma DisconnectTwice(s: Service)
    ensures var once := Disconnect(s);
            var twice := Disconnect(once);
            twice == once.(log := once.log + [Notify(Disconnected)]) &&
            Notifications(twice.log) == Notifications(s.log) + [Disconnected, Disconnected] &&
            Requests(twice.log) == Requests(s.log) &&
            twice.chatId == s.chatId && twice.streamId == s.streamId
  {
    NotificationsAppend(s.log, [Notify(Disconnected), Notify(Disconnected)]);
    RequestsAppend(s.log, [Notify(Disconnected), Notify(Disconnected)]);
    assert Disconnect(Disconnect(s)).log == s.log + [Notify(Disconnected), Notify(Disconnected)];
  }

  /** Whatever came before, a run that ends with disconnect() ends with no peer, no video
      source and DISCONNECTED as the last report. */
  lemma {:induction false} RunEndingInDisconnect(s: Service, es: seq<Event>)
    ensures var t := Run(s, es + [DisconnectCall]);
            t.peer == None && t.srcObject == None &&
            |Notifications(t.log)| > 0 && Notifications(t.log)[|Notifications(t.log)| - 1] == Disconnected
  {
    RunSnoc(s, es, DisconnectCall);
    NotificationsAppend(Run(s, es).log, [Notify(Disconnected)]);
  }

  /** The state hook after disconnect() reports nothing, whatever the transport says. */
  lemma StateHookSilentAfterDisconnect(s: Service, transport: PeerConnectionState)
    ensures OnConnectionStateChange(Disconnect(s), transport) == Disconnect(s)
  {
  }

  /** The state hook reports CONNECTED for 'connected', FAILED for 'failed' while a peer is
      current, and nothing in every other case; it never issues a request. */
  lemma StateHookReports(s: Service, transport: PeerConnectionState)
    ensures var t := OnConnectionStateChange(s, transport);
            Requests(t.log) == Requests(s.log) &&
            Notifications(t.log) == Notifications(s.log) +
              (if s.peer.None? then []
               else if transport == PeerConnected then [Connected]
               else if transport == PeerFailed then [Failed]
               else [])
  {
    var t := OnConnectionStateChange(s, transport);
    var suffix := t.log[|s.log|..];
    assert t.log == s.log + suffix;
    NotificationsAppend(s.log, suffix);
    RequestsAppend(s.log, suffix);
  }

  /** The ICE hook issues exactly one request, the candidate POSTed to the chat's ice
      endpoint, when the candidate is present and a chat id is set, and none otherwise;
      whether that POST fails makes no difference, and nothing is reported. */
  lemma IceForwarding(s: Service, candidate: Option<string>, delivered: bool)
    ensures var t := OnIceCandidate(s, candidate, delivered);
            t == OnIceCandidate(s, candidate, !delivered) &&
            t.(log := s.log) == s &&
            Notifications(t.log) == Notifications(s.log) &&
            Requests(t.log) == Requests(s.log) +
              (if candidate.Some? && Truthy(s.chatId)
               then [Post(SessionUrl(s.config.agentId, s.chatId.value) + "/ice", AuthHeaders(s.config.apiKey),
                          IceBody(candidate.value, "candidate"))]
               else [])
  {
    var t := OnIceCandidate(s, candidate, delivered);
    var suffix := t.log[|s.log|..];
    assert t.log == s.log + suffix;
    NotificationsAppend(s.log, suffix);
    RequestsAppend(s.log, suffix);
  }

  /** sendMessage() without a chat id fails with no request; with one it issues exactly one
      text-mode POST to the chat and fails unless the response is ok. */
  lemma SendMessageRequests(s: Service, text: string, outcome: SendOutcome)
    ensures var (t, r) := SendMessage(s, text, outcome);
            Notifications(t.log) == Notifications(s.log) &&
            (!Truthy(s.chatId) ==> t == s && r == Err(NoActiveChat)) &&
            (Truthy(s.chatId) ==>
               Requests(t.log) == Requests(s.log) +
                 [Post(SessionUrl(s.config.agentId, s.chatId.value), AuthHeaders(s.config.apiKey), MessageBody("Text", text))] &&
               (r.Ok? <==> outcome.Delivered?))
  {
    var t := SendMessage(s, text, outcome).0;
    var suffix := t.log[|s.log|..];
    assert t.log == s.log + suffix;
    NotificationsAppend(s.log, suffix);
    RequestsAppend(s.log, suffix);
  }

  /** An event that can leave a usable (truthy) chat id behind. */
  predicate OpensChat(e: Event) {
    e.CreateResponse? && e.create.Created? && e.create.id != ""
  }

  /** A request that needs an open chat: an ICE candidate or a chat message. */
  predicate NeedsChat(r: Request) {
    r.body.IceBody? || r.body.MessageBody?
  }

  predicate NoChatRequests(log: seq<Effect>) {
    forall i | 0 <= i < |log| && log[i].Issue? :: !NeedsChat(log[i].request)
  }

  /** Until a create-chat call returns a non-empty id, no chat id is usable and neither an ICE
      candidate nor a message is ever POSTed. */
  lemma {:induction false} NoChatUntilCreated(s: Service, es: seq<Event>)
    requires !Truthy(s.chatId) && NoChatRequests(s.log)
    requires forall i | 0 <= i < |es| :: !OpensChat(es[i])
    ensures !Truthy(Run(s, es).chatId) && NoChatRequests(Run(s, es).log)
    decreases |es|
  {
    if es != [] {
      var t := Step(s, es[0]);
      assert !OpensChat(es[0]);
      assert t.log[..|s.log|] == s.log;
      assert !Truthy(t.chatId);
      assert forall i | |s.log| <= i < |t.log| && t.log[i].Issue? :: !NeedsChat(t.log[i].request);
      assert NoChatRequests(t.log);
      NoChatUntilCreated(t, es[1..]);
    }
  }

  /** Before any create-chat call has returned a non-empty id, sendMessage() fails with
      NoActiveChat and changes nothing. */
  lemma SendBeforeCreateFails(cfg: Config, src: Option<string>, es: seq<Event>, text: string, outcome: SendOutcome)
    requires forall i | 0 <= i < |es| :: !OpensChat(es[i])
    ensures var s := Run(Init(cfg, src), es);
            SendMessage(s, text, outcome) == (s, Err(NoActiveChat)) && NoChatRequests(s.log)
  {
    NoChatUntilCreated(Init(cfg, src), es);
  }

  /** The chat id outlives a failed connect() and disconnect(): once create-chat returned a
      non-empty id, a later sendMessage() still POSTs to that chat even though the
      negotiation failed and the service has disconnected since. */
  lemma StaleChatAfterFailedConnect(s: Service, id: string, sid: string, text: string, outcome: SendOutcome)
    requires id != ""
    ensures var failed := ConnectUninterrupted(s, Created(id, sid), NegotiationFailed, AnswerRejected);
            var t := Disconnect(failed);
            var (u, r) := SendMessage(t, text, outcome);
            failed.peer == None && Truthy(t.chatId) &&
            u.log == t.log + [Issue(MessageRequest(s.config, id, text))] &&
            (r.Ok? <==> outcome.Delivered?)
  {
  }

  /** The requests view holds only requests the log issued with the credentials. */
  lemma {:induction false} RequestsAuthorized(cfg: Config, log: seq<Effect>)
    requires forall i | 0 <= i < |log| && log[i].Issue? :: Authorized(cfg, log[i].request)
    ensures forall r | r in Requests(log) :: Authorized(cfg, r)
  {
    if log != [] {
      RequestsAuthorized(cfg, log[1..]);
    }
  }

  /** Every request a service ever issues carries "Basic <apiKey>" and a JSON content type. */
  lemma EveryRequestAuthorized(cfg: Config, src: Option<string>, es: seq<Event>)
    ensures forall r | r in Requests(Run(Init(cfg, src), es).log) :: Authorized(cfg, r)
  {
    RequestsAuthorized(cfg, Run(Init(cfg, src), es).log);
  }

  /** A full handshake followed by the transport's 'connected' yields exactly CONNECTING then
      CONNECTED; a later 'failed' yields FAILED. */
  lemma HandshakeThenTransport(cfg: Config, src: Option<string>, id: string, sid: string, sdp: string)
    ensures var s0 := Init(cfg, src);
            var s1 := ConnectUninterrupted(s0, Created(id, sid), Negotiated(sdp), AnswerAccepted);
            var s2 := OnConnectionStateChange(s1, PeerConnected);
            var s3 := OnConnectionStateChange(s2, PeerFailed);
            Notifications(s2.log) == [Connecting, Connected] &&
            Notifications(s3.log) == [Connecting, Connected, Failed] &&
            s2.chatId == Some(id) && s2.streamId == Some(sid)
  {
    var s0 := Init(cfg, src);
    var s1 := ConnectUninterrupted(s0, Created(id, sid), Negotiated(sdp), AnswerAccepted);
    var s2 := OnConnectionStateChange(s1, PeerConnected);
    ConnectObservations(s0, Created(id, sid), Negotiated(sdp), AnswerAccepted);
    StateHookReports(s1, PeerConnected);
    StateHookReports(s2, PeerFailed);
  }
}
