/**
 * The transport handles the servers keep in their maps: a WebSocket (ws) or a socket.io socket,
 * reduced to whether it is open and the messages sent on it so far. Messages are the parsed JSON
 * objects the components exchange.
 */
module Sockets {
  import opened Wrappers
  import Token

  type StartKey = string

  /**
   * A `peerConnectionId` as a map key: undefined, the text of a query parameter, or (app.js) the
   * number `parseFloat` makes of it. Keys compare as `Map` does: a text never equals a number,
   * and NaN equals NaN.
   */
  datatype PeerId = Undefined | Text(text: string) | Number(value: real) | NotANumber

  datatype Payload =
    | NoPayload
    | Opaque(json: string)
    | IceServers(info: Option<Token.IceServerInfo>)

  /** A message object: its `messageType`, the routing fields it carries, and the rest. */
  datatype Message = Message(
    messageType: string,
    peerConnectionId: PeerId,
    isPrimary: Option<bool>,
    payload: Payload)

  function PingMessage(): Message { Message("ping", Undefined, None, NoPayload) }

  /** `{messageType: 'close', peerConnectionId, isPrimary}`, the notice a controller gets when a peer leaves. */
  function CloseNotice(peer: PeerId, isPrimary: bool): Message
  {
    Message("close", peer, Some(isPrimary), NoPayload)
  }

  /** `{messageType: 'iceServerInfo', iceServerInfo}`. */
  function IceServerInfoMessage(info: Option<Token.IceServerInfo>): Message
  {
    Message("iceServerInfo", Undefined, None, IceServers(info))
  }

  class Socket {
    /** `readyState === OPEN` for ws, `connected` for socket.io. */
    var open: bool
    /** Everything sent on this socket, oldest first. */
    var sent: seq<Message>

    constructor(open: bool)
      ensures this.open == open && sent == []
    {
      this.open := open;
      sent := [];
    }

    method Send(m: Message)
      modifies this
      ensures sent == old(sent) + [m] && open == old(open)
    {
      sent := sent + [m];
    }

    method Close()
      modifies this
      ensures !open && sent == old(sent)
    {
      open := false;
    }
  }
}
