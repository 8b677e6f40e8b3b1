/**
  Values shared by Pioneer's WebSocket dispatcher and its connection registry:
  connection handles, GraphQL requests and results, and the protocol messages
  sent back to a client. Serialisation to JSON (`jsonString`) is not modelled:
  a message is kept as a structured value.
 */
module Messages {

  datatype Option<+T> = None | Some(value: T)

  /** Identifier of a connection (a UUID in the library; only equality matters). */
  type Pid = nat

  /** Operation id chosen by the client, unique only within its connection. */
  type Oid = string

  /** Opaque handle of the transport (the WebSocket) a process writes to. */
  type Socket = nat

  /** Opaque per-connection context value, built once from the upgrade request. */
  type Context = nat

  /** A live connection: its id, the socket it writes to and its context. */
  datatype Process = Process(id: Pid, ws: Socket, ctx: Context)

  /** A parsed GraphQL request (variables are not modelled). */
  datatype GraphQLRequest = GraphQLRequest(query: string, operationName: Option<string>)

  datatype GraphQLError = GraphQLError(message: string)

  /** An execution result: optional data (kept as its JSON text) and a list of errors. */
  datatype GraphQLResult = GraphQLResult(data: Option<string>, errors: seq<GraphQLError>)

  /**
    Message types of the active sub-protocol. The exact tokens differ between
    the two sub-protocol variants; only the role of each token matters here.
   */
  datatype Kind = Next | Complete | ErrorKind | KeepAlive

  datatype Payload = Empty | Result(result: GraphQLResult) | Errors(errors: seq<GraphQLError>)

  /** A protocol message: optional operation id, type token and payload. */
  datatype Message = Message(id: Option<Oid>, kind: Kind, payload: Payload)

  /** `GraphQLMessage.from(type: next, id: oid, result)`: one result of operation `oid`. */
  function NextMessage(oid: Oid, result: GraphQLResult): Message
  {
    Message(Some(oid), Next, Result(result))
  }

  /** `GraphQLMessage(id: oid, type: complete)`: operation `oid` has finished. */
  function CompleteMessage(oid: Oid): Message
  {
    Message(Some(oid), Complete, Empty)
  }

  /** `GraphQLMessage.errors(id:type:_:)` with the sub-protocol's error token. */
  function ErrorsMessage(id: Option<Oid>, errors: seq<GraphQLError>): Message
  {
    Message(id, ErrorKind, Errors(errors))
  }

  /** The sub-protocol's keep-alive message. */
  const KeepAliveMessage: Message := Message(None, KeepAlive, Empty)
}
