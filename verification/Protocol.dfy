/** The frames exchanged between relay and client, and the size gate every frame passes. */
module Protocol {

  /** Request, tunnel and connection identifiers. Only equality of identifiers matters. */
  type Uuid = nat

  type Byte = bv8
  type Bytes = seq<Byte>

  type Header = (string, string)

  datatype Option<+T> = None | Some(value: T)

  datatype TunnelProtocol = Http | Tcp

  datatype CloseReason = Normal | Failed(text: string)

  datatype Message =
    | HttpRequest(id: Uuid, verb: string, path: string, headers: seq<Header>, body: Bytes)
    | HttpResponse(id: Uuid, status: nat, headers: seq<Header>, body: Bytes)
    | HttpRequestStart(id: Uuid, verb: string, path: string, headers: seq<Header>, contentLength: Option<nat>)
    | HttpRequestChunk(id: Uuid, data: Bytes, chunkSequence: nat)
    | HttpRequestEnd(id: Uuid)
    | TcpConnect(connectionId: Uuid, remoteAddr: string)
    | TcpConnectAck(connectionId: Uuid, success: bool)
    | TcpData(connectionId: Uuid, data: Bytes, sequence: nat)
    | TcpClose(connectionId: Uuid, reason: CloseReason)
    | Disconnect
    | Error(text: string)
    | Unsupported   // every other variant: both dispatchers log it and carry on

  const DEFAULT_MAX_BODY_SIZE: nat := 10 * 1024 * 1024

  const U32: nat := 0x1_0000_0000
  const U64: nat := 0x1_0000_0000_0000_0000

  /** What `encode` and `decode` both demand of a frame. */
  predicate Validate(m: Message, limit: nat) {
    match m
    case HttpRequest(_, _, _, _, body) => |body| <= limit
    case HttpResponse(_, _, _, body) => |body| <= limit
    case HttpRequestChunk(_, data, _) => |data| <= limit
    case TcpData(_, data, _) => |data| <= limit
    case _ => true
  }
}
