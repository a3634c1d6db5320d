/** The records that pass between the parts of a node: what the application hands
    to a peer, what a peer signs and sends, and what its receive side reports. */
module Wire {

  datatype Option<+T> = None | Some(value: T)

  datatype Addr = Addr(host: string, port: nat)

  datatype NodeInfo = NodeInfo(addr: Addr, id: string)

  /** An application message. `methodNo` is None when its text is not an integer,
      which is what `int(...)` refuses when the message is dispatched. */
  datatype Message = Message(methodNo: Option<int>, body: string)

  /** A message together with the node that signed the packet it came in. */
  datatype Delivery = Delivery(nodeID: string, msg: Message)

  datatype Body =
    | Hello(text: string)
    | Confirm(text: string)
    | Disconnect(reason: string)
    | Ping
    | Pong
    | Data(msg: Message)
    | Unknown(code: string)

  datatype Packet = Packet(node: NodeInfo, body: Body)

  /** The entries of the send queue, actions 0 to 5 and everything else. */
  datatype Cmd =
    | SendHello(text: string)
    | SendConfirm(text: string)
    | SendDisconnect(reason: string)
    | SendPing
    | SendPong
    | SendData(msg: Message)
    | UnknownCmd(action: int)

  datatype Kind = BadPeer | EndSession

  datatype Report =
    | Checked
    | Lost(kind: Kind, reason: string)
    | Arrived(item: Delivery)
}
