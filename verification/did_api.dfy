/** The signaling protocol of the D-ID Agents API as the service uses it: every call is a
    POST carrying Basic authorization and a JSON body, to one of four endpoints. */
module DidApi {
  import opened Types

  const ApiBase: string := "https://api.d-id.com"
  const JsonContentType: string := "application/json"
  const BasicScheme: string := "Basic "

  datatype Headers = Headers(authorization: string, contentType: string)

  /** The JSON bodies of the four calls. The SDP answer and the ICE candidate are opaque. */
  datatype Body =
    | CreateChatBody(streamId: Option<string>)
    | AnswerBody(answer: string)
    | IceBody(candidate: string, kind: string)
    | MessageBody(chatMode: string, text: string)

  /** Every request the service issues is a POST; only the URL, the headers and the body vary. */
  datatype Request = Post(url: string, headers: Headers, body: Body)

  /** The headers every call carries. */
  function AuthHeaders(apiKey: string): (h: Headers)
    ensures h.contentType == JsonContentType
    ensures ApiKeyOf(h) == Some(apiKey)
  {
    var h := Headers(BasicScheme + apiKey, JsonContentType);
    assert h.authorization[..|BasicScheme|] == BasicScheme;
    assert h.authorization[|BasicScheme|..] == apiKey;
    h
  }

  /** Reads the API key back out of a Basic authorization header, if it is one. */
  function ApiKeyOf(h: Headers): (k: Option<string>)
    ensures k.Some? ==> h.authorization == BasicScheme + k.value
  {
    var a := h.authorization;
    if |BasicScheme| <= |a| && a[..|BasicScheme|] == BasicScheme
    then
      assert a == a[..|BasicScheme|] + a[|BasicScheme|..];
      Some(a[|BasicScheme|..])
    else None
  }

  /** Two calls carry the same headers exactly when they were built from the same key. */
  lemma AuthHeadersInjective(k1: string, k2: string)
    ensures AuthHeaders(k1) == AuthHeaders(k2) <==> k1 == k2
  {
    if AuthHeaders(k1) == AuthHeaders(k2) {
      assert ApiKeyOf(AuthHeaders(k1)) == Some(k1);
    }
  }

  function ChatUrl(agentId: string): string {
    AgentsPrefix + agentId + ChatSuffix
  }

  const AgentsPrefix: string := ApiBase + "/agents/"
  const ChatSuffix: string := "/chat"

  /** Recovers the agent id from the URL of an agent's chat collection. */
  function AgentOf(url: string): (r: Option<string>)
    ensures r.Some? ==> url == ChatUrl(r.value)
  {
    if |AgentsPrefix| + |ChatSuffix| <= |url| && url[..|AgentsPrefix|] == AgentsPrefix &&
       url[|url| - |ChatSuffix|..] == ChatSuffix
    then
      var agentId := url[|AgentsPrefix|..|url| - |ChatSuffix|];
      assert url == url[..|AgentsPrefix|] + agentId + url[|url| - |ChatSuffix|..];
      Some(agentId)
    else None
  }

  /** The agent a chat is created for can be read back from the create URL, and that URL is
      shorter than any chat's own URL, so it names no chat. */
  lemma ChatUrlRoundTrip(agentId: string)
    ensures AgentOf(ChatUrl(agentId)) == Some(agentId)
    ensures SessionPathOf(agentId, ChatUrl(agentId)) == None
  {
    var u := ChatUrl(agentId);
    assert u[..|AgentsPrefix|] == AgentsPrefix;
    assert u[|u| - |ChatSuffix|..] == ChatSuffix;
    assert u[|AgentsPrefix|..|u| - |ChatSuffix|] == agentId;
  }

  function SessionUrl(agentId: string, chatId: string): string {
    ChatUrl(agentId) + "/" + chatId
  }

  /** Recovers the part of a URL that follows the agent's chat collection and a slash. */
  function SessionPathOf(agentId: string, url: string): (r: Option<string>)
    ensures r.Some? ==> url == ChatUrl(agentId) + "/" + r.value
  {
    var prefix := ChatUrl(agentId) + "/";
    if |prefix| <= |url| && url[..|prefix|] == prefix
    then
      assert url == url[..|prefix|] + url[|prefix|..];
      Some(url[|prefix|..])
    else None
  }

  /** The chat a message is sent to can be read back from the URL it is posted to. */
  lemma SessionUrlRoundTrip(agentId: string, chatId: string)
    ensures SessionPathOf(agentId, SessionUrl(agentId, chatId)) == Some(chatId)
    ensures SessionPathOf(agentId, SessionUrl(agentId, chatId) + "/ice") == Some(chatId + "/ice")
    ensures SessionPathOf(agentId, SessionUrl(agentId, chatId) + "/answer") == Some(chatId + "/answer")
  {
    var prefix := ChatUrl(agentId) + "/";
    var u := SessionUrl(agentId, chatId);
    assert u == prefix + chatId;
    assert u[..|prefix|] == prefix && u[|prefix|..] == chatId;
    var ice := u + "/ice";
    assert ice == prefix + (chatId + "/ice");
    assert ice[..|prefix|] == prefix && ice[|prefix|..] == chatId + "/ice";
    var ans := u + "/answer";
    assert ans == prefix + (chatId + "/answer");
    assert ans[..|prefix|] == prefix && ans[|prefix|..] == chatId + "/answer";
  }

  /** POST /agents/{agentId}/chat, carrying the stream id the service last stored. It goes to
      the agent's chat collection, not to any one chat. */
  function CreateChatRequest(cfg: Config, streamId: Option<string>): (r: Request)
    ensures Authorized(cfg, r) && r.body == CreateChatBody(streamId)
    ensures AgentOf(r.url) == Some(cfg.agentId) && SessionPathOf(cfg.agentId, r.url) == None
  {
    ChatUrlRoundTrip(cfg.agentId);
    Post(ChatUrl(cfg.agentId), AuthHeaders(cfg.apiKey), CreateChatBody(streamId))
  }

  /** POST /agents/{agentId}/chat/{chatId}/answer with the local SDP answer. */
  function AnswerRequest(cfg: Config, chatId: string, answer: string): (r: Request)
    ensures Authorized(cfg, r) && r.body == AnswerBody(answer)
    ensures SessionPathOf(cfg.agentId, r.url) == Some(chatId + "/answer")
  {
    SessionUrlRoundTrip(cfg.agentId, chatId);
    Post(SessionUrl(cfg.agentId, chatId) + "/answer", AuthHeaders(cfg.apiKey), AnswerBody(answer))
  }

  /** POST /agents/{agentId}/chat/{chatId}/ice with one candidate tagged "candidate". */
  function IceRequest(cfg: Config, chatId: string, candidate: string): (r: Request)
    ensures Authorized(cfg, r) && r.body == IceBody(candidate, "candidate")
    ensures SessionPathOf(cfg.agentId, r.url) == Some(chatId + "/ice")
  {
    SessionUrlRoundTrip(cfg.agentId, chatId);
    Post(SessionUrl(cfg.agentId, chatId) + "/ice", AuthHeaders(cfg.apiKey), IceBody(candidate, "candidate"))
  }

  /** POST /agents/{agentId}/chat/{chatId} with a text-mode chat message. */
  function MessageRequest(cfg: Config, chatId: string, text: string): (r: Request)
    ensures Authorized(cfg, r) && r.body == MessageBody("Text", text)
    ensures SessionPathOf(cfg.agentId, r.url) == Some(chatId)
  {
    SessionUrlRoundTrip(cfg.agentId, chatId);
    Post(SessionUrl(cfg.agentId, chatId), AuthHeaders(cfg.apiKey), MessageBody("Text", text))
  }

  /** A request built from the credentials: Basic authorization with the key and a JSON body. */
  predicate Authorized(cfg: Config, r: Request) {
    r.headers.authorization == BasicScheme + cfg.apiKey && r.headers.contentType == JsonContentType
  }
}
