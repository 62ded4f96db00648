/** DIDService: the session negotiator object. Its fields are the ones the service updates in
    place; every method is proved to move the object exactly as the matching function of
    DidSession moves a Service value, so the properties proved there hold of the object. */
module DidClient {
  import opened Types
  import opened DidApi
  import opened DidSession

  class DIDService {
    const config: Config
    /** The current RTCPeerConnection, by creation number; None is null. */
    var peerConnection: Option<PeerId>
    var streamId: Option<string>
    var chatId: Option<string>
    /** The video element's srcObject. */
    var srcObject: Option<string>
    /** How many peer connections this instance has constructed. */
    var peersCreated: nat
    /** The peer connections this instance has closed. */
    ghost var closedPeers: set<PeerId>
    /** The connect() calls suspended at an await, by the peer each one created, and what
        each awaits; they belong to the JavaScript runtime, not to the object. */
    ghost var pending: map<PeerId, Continuation>
    /** What the observer callback was told and which requests were issued, in order. */
    ghost var log: seq<Effect>

    ghost function State(): Service
      reads this
    {
      Service(config, peerConnection, chatId, streamId, srcObject, peersCreated, closedPeers, pending, log)
    }

    ghost predicate Valid()
      reads this
    {
      DidSession.Valid(State())
    }

    constructor (videoSrc: Option<string>, apiKey: string, agentId: string)
      ensures Valid()
      ensures State() == Init(Config(apiKey, agentId), videoSrc)
    {
      config := Config(apiKey, agentId);
      peerConnection, streamId, chatId := None, None, None;
      srcObject := videoSrc;
      peersCreated := 0;
      closedPeers := {};
      pending := map[];
      log := [];
    }

    /** connect() up to its first await. `peerCreated` is false when the RTCPeerConnection
        constructor throws; the catch block then reports FAILED and disconnects. */
    method Connect(peerCreated: bool)
      requires Valid()
      modifies this`peerConnection, this`peersCreated, this`closedPeers, this`srcObject, this`pending, this`log
      ensures Valid()
      ensures State() == ConnectStart(old(State()), peerCreated)
    {
      log := log + [Notify(Connecting)];
      if !peerCreated {
        log := log + [Notify(Failed)];
        Disconnect();
        return;
      }
      // A new peer connection replaces the field; the previous one is not closed.
      var p := peersCreated;
      peerConnection := Some(p);
      peersCreated := p + 1;
      // Its ontrack, onicecandidate and onconnectionstatechange hooks are the methods
      // OnTrack, OnIceCandidate and OnConnectionStateChange below.
      log := log + [Issue(CreateChatRequest(config, streamId))];
      pending := pending[p := AwaitingCreate];
    }

    /** The runtime resumes the connect() that created peer `attempt` with its create-chat
        response. */
    method AfterCreate(attempt: PeerId, create: CreateOutcome)
      requires Valid() && attempt in pending && pending[attempt] == AwaitingCreate
      modifies this`peerConnection, this`chatId, this`streamId, this`closedPeers, this`srcObject, this`pending, this`log
      ensures Valid()
      ensures State() == DidSession.AfterCreate(old(State()), attempt, create)
    {
      match create
      case CreateFailed =>
        pending := pending - {attempt};
        log := log + [Notify(Failed)];
        Disconnect();
      case Created(id, sid) =>
        chatId := Some(id);
        streamId := Some(sid);
        if peerConnection.None? {
          // setRemoteDescription on a null field throws.
          pending := pending - {attempt};
          log := log + [Notify(Failed)];
          Disconnect();
        } else {
          pending := pending[attempt := AwaitingNegotiation(id)];
        }
    }

    /** The runtime resumes that connect() once the descriptions have settled; `createdId` is the
        chat id its create response returned, held in the suspended call. */
    method AfterNegotiation(attempt: PeerId, createdId: string, negotiation: NegotiationOutcome)
      requires Valid() && attempt in pending && pending[attempt] == AwaitingNegotiation(createdId)
      modifies this`peerConnection, this`closedPeers, this`srcObject, this`pending, this`log
      ensures Valid()
      ensures State() == DidSession.AfterNegotiation(old(State()), attempt, negotiation)
    {
      if negotiation.NegotiationFailed? || peerConnection.None? {
        pending := pending - {attempt};
        log := log + [Notify(Failed)];
        Disconnect();
      } else {
        pending := pending[attempt := AwaitingAnswer];
        log := log + [Issue(AnswerRequest(config, createdId, negotiation.answer))];
      }
    }

    /** The runtime resumes that connect() with its answer response; connect() then returns. */
    method AfterAnswer(attempt: PeerId, answer: AnswerOutcome)
      requires Valid() && attempt in pending && pending[attempt] == AwaitingAnswer
      modifies this`peerConnection, this`closedPeers, this`srcObject, this`pending, this`log
      ensures Valid()
      ensures State() == DidSession.AfterAnswer(old(State()), attempt, answer)
    {
      pending := pending - {attempt};
      if answer == AnswerRejected {
        log := log + [Notify(Failed)];
        Disconnect();
      }
    }

    /** The ontrack hook. */
    method OnTrack(streams: seq<string>)
      requires Valid()
      modifies this`srcObject
      ensures Valid()
      ensures State() == DidSession.OnTrack(old(State()), streams)
    {
      if |streams| == 0 {
        return;
      }
      srcObject := Some(streams[0]);
    }

    /** The onicecandidate hook. */
    method OnIceCandidate(candidate: Option<string>, delivered: bool)
      requires Valid()
      modifies this`log
      ensures Valid()
      ensures State() == DidSession.OnIceCandidate(old(State()), candidate, delivered)
    {
      if candidate.Some? && chatId.Some? && chatId.value != "" {
        SendIceCandidate(candidate.value, delivered);
      }
    }

    /** The onconnectionstatechange hook; `transport` is the connection state of the peer in
        `peerConnection` when the hook runs. */
    method OnConnectionStateChange(transport: PeerConnectionState)
      requires Valid()
      modifies this`log
      ensures Valid()
      ensures State() == DidSession.OnConnectionStateChange(old(State()), transport)
    {
      if peerConnection.Some? && transport == PeerConnected {
        log := log + [Notify(Connected)];
      } else if peerConnection.Some? && transport == PeerFailed {
        log := log + [Notify(Failed)];
      }
    }

    /** sendICECandidate(): the POST is issued whether or not it is `delivered`; a failure is
        caught and only logged to the console. */
    method SendIceCandidate(candidate: string, delivered: bool)
      requires Valid()
      modifies this`log
      ensures Valid()
      ensures State() == DidSession.SendIceCandidate(old(State()), candidate, delivered)
    {
      if chatId.None? || chatId.value == "" {
        return;
      }
      log := log + [Issue(IceRequest(config, chatId.value, candidate))];
    }

    /** sendMessage(): throws when no chat id is set or when the response is not ok. */
    method SendMessage(text: string, outcome: SendOutcome) returns (r: Result<string>)
      requires Valid()
      modifies this`log
      ensures Valid()
      ensures (State(), r) == DidSession.SendMessage(old(State()), text, outcome)
    {
      if chatId.None? || chatId.value == "" {
        return Err(NoActiveChat);
      }
      log := log + [Issue(MessageRequest(config, chatId.value, text))];
      match outcome
      case Delivered(payload) => r := Ok(payload);
      case Undelivered => r := Err(SendFailed);
    }

    /** disconnect(): callable in any state, any number of times. */
    method Disconnect()
      modifies this`peerConnection, this`closedPeers, this`srcObject, this`log
      ensures old(Valid()) ==> Valid()
      ensures State() == DidSession.Disconnect(old(State()))
    {
      if peerConnection.Some? {
        closedPeers := closedPeers + {peerConnection.value};
        peerConnection := None;
      }
      srcObject := None;
      log := log + [Notify(Disconnected)];
    }
  }

  /** A client of the class: connect with every step succeeding, let the transport report
      'connected', then send "hi". Only the method contracts and the lemmas about the
      functions they refer to are used. */
  method ConnectThenSendScenario(apiKey: string, agentId: string, sdp: string, reply: string)
  {
    var service := new DIDService(None, apiKey, agentId);
    ghost var s0 := service.State();
    service.Connect(true);
    service.AfterCreate(0, Created("c1", "s1"));
    service.AfterNegotiation(0, "c1", Negotiated(sdp));
    service.AfterAnswer(0, AnswerAccepted);
    assert service.State() == DidSession.ConnectUninterrupted(s0, Created("c1", "s1"), Negotiated(sdp), AnswerAccepted);
    ghost var s1 := service.State();
    service.OnConnectionStateChange(PeerConnected);
    ghost var s2 := service.State();
    HandshakeThenTransport(Config(apiKey, agentId), None, "c1", "s1", sdp);
    assert Notifications(service.log) == [Connecting, Connected];
    var r := service.SendMessage("hi", Delivered(reply));
    SendMessageRequests(s2, "hi", Delivered(reply));
    assert r == Ok(reply);
    assert Requests(service.log)[|Requests(s2.log)|] ==
      Post(SessionUrl(agentId, "c1"), AuthHeaders(apiKey), MessageBody("Text", "hi"));
    service.Disconnect();
    service.Disconnect();
    assert service.peerConnection == None && service.chatId == Some("c1");
  }
}
