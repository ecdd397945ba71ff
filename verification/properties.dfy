/** How the UDP methods shape their results and translate status codes,
    stated across methods. */
module UdpProperties {
  import opened Base
  import opened Io
  import opened Lua
  import opened Classes
  import Udp
  import opened Session

  /** `sendto` and `send` given the same transfer report the same first
      result; their error values differ exactly when the transfer ended
      with a closed connection, which `sendto` reports as refused. */
  lemma SendToRemapsOnlyClosed(a: Udp.UdpObject, b: Udp.UdpObject, data: seq<byte>,
                               ip: string, port: int, aton: string -> Option<ipv4>, io: SendIo)
    requires a.tag == Connected && b.tag == Unconnected
    requires aton(CString(ip)).Some?
    ensures var s := Udp.Send(a, data, io).out;
            var t := Udp.SendTo(b, data, ip, Some(port), aton, io).out;
            && s.Returned? && t.Returned?
            && s.values[0] == t.values[0]
            && (s.values[1] == t.values[1] <==> io.code != IoClosed)
            && (io.code == IoClosed ==> t.values[1] == ErrorOf(IoRefused))
  {
  }

  /** So `sendto` never reports a closed connection, and reports a refusal
      exactly when the transfer was refused or closed. */
  lemma SendToNeverReportsClosed(u: Udp.UdpObject, c: Call)
    requires c.SendTo?
    ensures var s := Apply(u, c);
            s.out.Returned? ==>
              && s.out.values[1] != ErrorOf(IoClosed)
              && (s.out.values[1] == ErrorOf(IoRefused) <==> c.sendIo.code in {IoClosed, IoRefused})
  {
  }

  /** `send` and `receive` hand the status of the transfer back unchanged. */
  lemma SendAndReceivePassCodesThrough(u: Udp.UdpObject, c: Call)
    requires c.Send? || c.Receive?
    ensures var s := Apply(u, c);
            s.out.Returned? ==>
              s.out.values[1] == ErrorOf(if c.Send? then c.sendIo.code else c.recvIo.code)
  {
  }

  /** Whatever size is asked for, no receive asks the socket layer for more
      than UDP_DATAGRAMSIZE bytes or hands back a longer payload, and the
      payload is the front of the waiting datagram. */
  lemma ReceiveIsBounded(u: Udp.UdpObject, c: Call)
    requires c.Receive? || c.ReceiveFrom?
    ensures forall e | e in Apply(u, c).effects ::
              (e.SockRecv? ==> e.count <= Udp.DatagramSize) &&
              (e.SockRecvFrom? ==> e.count <= Udp.DatagramSize)
    ensures var s := Apply(u, c);
            s.out.Returned? && s.out.values[0].Bytes? ==>
              && |s.out.values[0].data| <= Udp.DatagramSize
              && s.out.values[0].data <= c.recvIo.datagram
  {
  }

  /** The count passed to the socket layer is the request clamped to the
      buffer, and the whole buffer when no size is given. */
  lemma ReceiveCountIsClamped(u: Udp.UdpObject, count: Option<int>, io: RecvIo)
    requires u.tag != Master
    ensures count.None? ==>
              Udp.Receive(u, count, io).effects[1] == SockRecv(Udp.DatagramSize)
    ensures count.Some? && 0 <= count.value < SizeTModulus ==>
              Udp.Receive(u, count, io).effects[1] == SockRecv(Min(count.value, Udp.DatagramSize))
  {
  }

  /** On an unconnected object, `receivefrom` delivers the payload
      `receive` would, followed by the sender's address and port; on failure
      both return nil and the same error. */
  lemma ReceiveFromAddsSender(u: Udp.UdpObject, count: Option<int>, io: RecvIo)
    requires u.tag == Unconnected
    ensures var r := Udp.Receive(u, count, io).out;
            var f := Udp.ReceiveFrom(u, count, io).out;
            && r.Returned? && f.Returned?
            && (io.code == IoDone ==>
                  f.values == [r.values[0], IpText(io.sender.ip), Number(io.sender.port as int)])
            && (io.code != IoDone ==> f.values == r.values)
  {
  }

  /** How many values each transfer method returns: two, except a
      successful `receivefrom`, which returns three. */
  lemma ResultCounts(u: Udp.UdpObject, c: Call)
    requires c.Send? || c.SendTo? || c.Receive? || c.ReceiveFrom?
    ensures var s := Apply(u, c);
            s.out.Returned? ==>
              |s.out.values| == (if c.ReceiveFrom? && c.recvIo.code == IoDone then 3 else 2)
  {
  }
}
