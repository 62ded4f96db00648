/** Shared declarations of the avatar client: the observer's connection states and the credentials. */
module Types {

  /** The state the session negotiator reports to its observer. */
  datatype ConnectionState = Disconnected | Connecting | Connected | Failed

  datatype Option<T> = None | Some(value: T)

  /** The credentials a service instance is built with: an API key and an agent identifier. */
  datatype Config = Config(apiKey: string, agentId: string)
}
