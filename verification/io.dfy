/** What the UDP methods exchange with the socket layer (`sock_*`), the
    address layer (`inet_*`) and the timeout tracker (`tm_*`). Those layers
    are not part of this model: each call into them is recorded as an
    `Effect`, and whatever they report is an input of the method. */
module Io {
  import opened Base

  /** Status codes of the socket layer. Only the codes udp.c names are told
      apart: it tests for `IO_DONE` and `IO_CLOSED` and produces
      `IO_REFUSED`; every other code is `IoOther`. */
  datatype IoCode = IoDone | IoClosed | IoRefused | IoOther(code: int)

  /** An IPv4 address as the 32-bit value `inet_aton` produces. */
  newtype ipv4 = x: int | 0 <= x < 0x1_0000_0000

  datatype SockAddr = SockAddr(ip: ipv4, port: ushort)

  /** One call from a UDP method into a collaborator, in the order made. */
  datatype Effect =
    | TmMarkStart
    | TmInit(block: int, total: int)
    | TmMethTimeout
    | SockSend(data: seq<byte>)
    | SockSendTo(data: seq<byte>, to: SockAddr)
    | SockRecv(count: nat)
    | SockRecvFrom(count: nat)
    | SockDestroy
    | InetTryConnect(address: string, port: ushort)
    | InetTryBind(address: string, port: ushort, backlog: int)
    | InetTryCreate
    | InetGetPeerName
    | InetGetSockName

  /** The effects that move datagrams. */
  predicate IsSockIo(e: Effect) {
    e.SockSend? || e.SockSendTo? || e.SockRecv? || e.SockRecvFrom?
  }

  /** Every datagram transfer comes after a `tm_markstart` of its own call. */
  predicate MarkedBeforeIo(effects: seq<Effect>) {
    forall i | 0 <= i < |effects| && IsSockIo(effects[i]) ::
      exists j | 0 <= j < i :: effects[j] == TmMarkStart
  }

  /** What `sock_send` / `sock_sendto` report: a status and a byte count. */
  datatype SendIo = SendIo(code: IoCode, sent: nat)

  /** What `sock_recv` / `sock_recvfrom` find: a status, the datagram
      waiting on the socket and the address it came from. */
  datatype RecvIo = RecvIo(code: IoCode, datagram: seq<byte>, sender: SockAddr)

  /** The bytes a receive with room for `count` bytes copies out of the
      waiting datagram: a datagram socket hands over at most the room given
      and drops the rest of the datagram. */
  function Received(io: RecvIo, count: nat): (got: seq<byte>)
    ensures |got| <= count
    ensures got <= io.datagram
    ensures |io.datagram| <= count ==> got == io.datagram
  {
    io.datagram[..Min(count, |io.datagram|)]
  }
}
