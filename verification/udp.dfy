/** The UDP object and its methods. Each method is a step from an object to
    the object it leaves, the calls it made into collaborators, and what it
    returned to Lua. Collaborator results are inputs of the step. */
module Udp {
  import opened Base
  import opened Io
  import opened Lua
  import opened Classes

  /** UDP_DATAGRAMSIZE, the size of the receive buffer. */
  const DatagramSize: nat := 8192

  /** The group check every `udp{any}` method makes, against the registry
      `udp_open` builds: it admits every tag except `udp{master}`. */
  function CheckAny(tag: Class): (ok: bool)
    ensures ok <==> tag != Master
  {
    AnyAdmitsBothClasses(tag);
    CheckGroup(Open(), tag, Any)
  }

  /** The timeout tracker's two budgets; -1 means no limit. */
  datatype Tm = Tm(block: int, total: int)

  /** A UDP object: its class tag, its timeout tracker, and whether its
      socket is still open. */
  datatype UdpObject = UdpObject(tag: Class, tm: Tm, open: bool)

  datatype Step = Step(obj: UdpObject, effects: seq<Effect>, out: Outcome)

  /** What `tm_meth_timeout` does: the tracker it leaves and the values it
      returns. */
  datatype TmResult = TmResult(tm: Tm, pushed: seq<Value>)

  /** A failed class or group check: nothing is touched. */
  function Refuse(u: UdpObject, expected: string): Step {
    Step(u, [], Raised(BadSelf(expected)))
  }

  /** The pair `send`, `sendto` and `receive` return: `value` only when the
      transfer completed, then the error value for `reported`. */
  function ValueThenError(status: IoCode, value: Value, reported: IoCode): seq<Value> {
    [if status == IoDone then value else Nil, ErrorOf(reported)]
  }

  /** The receive size: the optional request (default: the whole buffer),
      converted to `size_t` and clamped to the buffer. */
  function RecvCount(count: Option<int>): (n: nat)
    ensures n <= DatagramSize
    ensures count.None? ==> n == DatagramSize
    ensures count.Some? && 0 <= count.value < SizeTModulus ==> n == Min(count.value, DatagramSize)
  {
    Min(ToSizeT(count.GetOr(DatagramSize)), DatagramSize)
  }

  /** `strcmp(address, "*") != 0`: the C view of the address is not "*". */
  predicate Connecting(address: string) {
    CString(address) != "*"
  }

  /** The port `setpeername` hands to `inet_tryconnect`: mandatory when
      connecting (None when it is missing, where the source raises), optional
      with default 0 otherwise. */
  function PeerPort(connecting: bool, port: Option<int>): (p: Option<ushort>)
    ensures p.None? <==> connecting && port.None?
    ensures !connecting && port.None? ==> p == Some(0)
    ensures port.Some? && 0 <= port.value < UShortModulus ==> p == Some(port.value as ushort)
  {
    if connecting then
      (if port.None? then None else Some(ToUShort(port.value)))
    else
      Some(ToUShort(port.GetOr(0)))
  }

  /** udp_meth_send: only on a connected object. */
  function Send(u: UdpObject, data: seq<byte>, io: SendIo): (s: Step)
    ensures s.obj == u
    ensures s.out.Raised? <==> u.tag != Connected
    ensures s.out.Raised? ==> s.effects == [] && s.out.error == BadSelf("udp{connected}")
    ensures s.out.Returned? ==> s.effects == [TmMarkStart, SockSend(data)]
    ensures s.out.Returned? ==> |s.out.values| == 2 && s.out.values[1] == ErrorOf(io.code)
    ensures s.out.Returned? ==> (s.out.values[0] == Number(io.sent) <==> io.code == IoDone)
    ensures s.out.Returned? ==> (s.out.values[0] == Nil <==> io.code != IoDone)
  {
    if !CheckClass(u.tag, Connected) then Refuse(u, Connected.Name())
    else Step(u, [TmMarkStart, SockSend(data)],
              Returned(ValueThenError(io.code, Number(io.sent), io.code)))
  }

  /** udp_meth_sendto: only on an unconnected object. `aton` stands for
      `inet_aton`, applied to the C view of `ip`; an invalid address is
      refused before the timer starts. A closed-connection status is
      reported as refused. */
  function SendTo(u: UdpObject, data: seq<byte>, ip: string, port: Option<int>,
                  aton: string -> Option<ipv4>, io: SendIo): (s: Step)
    ensures s.obj == u
    ensures (s.out.Raised? && s.out.error.BadSelf?) <==> u.tag != Unconnected
    ensures u.tag != Unconnected ==> s.out == Raised(BadSelf("udp{unconnected}"))
    ensures s.out.Raised? <==> s.effects == []
    ensures u.tag == Unconnected && port.None? ==> s.out == Raised(BadArgument(4, NumberExpected))
    ensures u.tag == Unconnected && port.Some? && aton(CString(ip)).None? ==>
              s.out == Raised(BadArgument(3, "invalid ip address"))
    ensures s.out.Returned? <==> u.tag == Unconnected && port.Some? && aton(CString(ip)).Some?
    ensures s.out.Returned? ==>
              s.effects == [TmMarkStart, SockSendTo(data, SockAddr(aton(CString(ip)).value, ToUShort(port.value)))]
    ensures s.out.Returned? ==> |s.out.values| == 2
    ensures s.out.Returned? ==> (s.out.values[0] == Number(io.sent) <==> io.code == IoDone)
    ensures s.out.Returned? ==> (s.out.values[0] == Nil <==> io.code != IoDone)
    ensures s.out.Returned? && io.code == IoClosed ==> s.out.values[1] == ErrorOf(IoRefused)
    ensures s.out.Returned? && io.code != IoClosed ==> s.out.values[1] == ErrorOf(io.code)
  {
    if !CheckClass(u.tag, Unconnected) then Refuse(u, Unconnected.Name())
    else if port.None? then Step(u, [], Raised(BadArgument(4, NumberExpected)))
    else
      match aton(CString(ip))
      case None => Step(u, [], Raised(BadArgument(3, "invalid ip address")))
      case Some(addr) =>
      var to := SockAddr(addr, ToUShort(port.value));
      var reported := if io.code == IoClosed then IoRefused else io.code;
      Step(u, [TmMarkStart, SockSendTo(data, to)],
           Returned(ValueThenError(io.code, Number(io.sent), reported)))
  }

  /** udp_meth_receive: on either class. */
  function Receive(u: UdpObject, count: Option<int>, io: RecvIo): (s: Step)
    ensures s.obj == u
    ensures s.out.Raised? <==> u.tag == Master
    ensures s.out.Raised? ==> s.effects == [] && s.out.error == BadSelf("udp{any}")
    ensures s.out.Returned? ==> s.effects == [TmMarkStart, SockRecv(RecvCount(count))]
    ensures s.out.Returned? ==> |s.out.values| == 2 && s.out.values[1] == ErrorOf(io.code)
    ensures s.out.Returned? ==> (s.out.values[0].Bytes? <==> io.code == IoDone)
    ensures s.out.Returned? ==> (s.out.values[0] == Nil <==> io.code != IoDone)
    ensures s.out.Returned? && io.code == IoDone ==>
              s.out.values[0] == Bytes(Received(io, RecvCount(count)))
  {
    if !CheckAny(u.tag) then Refuse(u, Any.Name())
    else
      var n := RecvCount(count);
      Step(u, [TmMarkStart, SockRecv(n)],
           Returned(ValueThenError(io.code, Bytes(Received(io, n)), io.code)))
  }

  /** udp_meth_receivefrom: only on an unconnected object; three results on
      success, two on failure. */
  function ReceiveFrom(u: UdpObject, count: Option<int>, io: RecvIo): (s: Step)
    ensures s.obj == u
    ensures s.out.Raised? <==> u.tag != Unconnected
    ensures s.out.Raised? ==> s.effects == [] && s.out.error == BadSelf("udp{unconnected}")
    ensures s.out.Returned? ==> s.effects == [TmMarkStart, SockRecvFrom(RecvCount(count))]
    ensures s.out.Returned? && io.code == IoDone ==>
              && |s.out.values| == 3
              && s.out.values[0] == Bytes(Received(io, RecvCount(count)))
              && s.out.values[1] == IpText(io.sender.ip)
              && s.out.values[2] == Number(io.sender.port as int)
    ensures s.out.Returned? && io.code != IoDone ==> s.out.values == [Nil, ErrorOf(io.code)]
  {
    if !CheckClass(u.tag, Unconnected) then Refuse(u, Unconnected.Name())
    else
      var n := RecvCount(count);
      var effects := [TmMarkStart, SockRecvFrom(n)];
      if io.code == IoDone then
        Step(u, effects, Returned([Bytes(Received(io, n)), IpText(io.sender.ip), Number(io.sender.port as int)]))
      else
        Step(u, effects, Returned([Nil, ErrorOf(io.code)]))
  }

  /** udp_meth_getpeername: only on a connected object; `pushed` is what
      `inet_meth_getpeername` returns. */
  function GetPeerName(u: UdpObject, pushed: seq<Value>): (s: Step)
    ensures s.obj == u
    ensures s.out.Raised? <==> u.tag != Connected
    ensures s.out.Raised? ==> s.effects == [] && s.out.error == BadSelf("udp{connected}")
    ensures s.out.Returned? ==> s.effects == [InetGetPeerName] && s.out.values == pushed
  {
    if !CheckClass(u.tag, Connected) then Refuse(u, Connected.Name())
    else Step(u, [InetGetPeerName], Returned(pushed))
  }

  /** udp_meth_getsockname: on either class; `pushed` is what
      `inet_meth_getsockname` returns. */
  function GetSockName(u: UdpObject, pushed: seq<Value>): (s: Step)
    ensures s.obj == u
    ensures s.out.Raised? <==> u.tag == Master
    ensures s.out.Raised? ==> s.effects == [] && s.out.error == BadSelf("udp{any}")
    ensures s.out.Returned? ==> s.effects == [InetGetSockName] && s.out.values == pushed
  {
    if !CheckAny(u.tag) then Refuse(u, Any.Name())
    else Step(u, [InetGetSockName], Returned(pushed))
  }

  /** udp_meth_timeout: on either class; hands the tracker to
      `tm_meth_timeout`, whose result `r` is an input. */
  function Timeout(u: UdpObject, r: TmResult): (s: Step)
    ensures s.obj.tag == u.tag && s.obj.open == u.open
    ensures s.out.Raised? <==> u.tag == Master
    ensures s.out.Raised? ==> s.obj == u && s.effects == [] && s.out.error == BadSelf("udp{any}")
    ensures s.out.Returned? ==> s.effects == [TmMethTimeout] && s.obj.tm == r.tm && s.out.values == r.pushed
  {
    if !CheckAny(u.tag) then Refuse(u, Any.Name())
    else Step(u.(tm := r.tm), [TmMethTimeout], Returned(r.pushed))
  }

  /** udp_meth_setpeername: only on an unconnected object. With address "*"
      (as C reads it, up to the first NUL) the port is optional and the
      object stays unconnected; with any other address the port is mandatory
      and the object becomes connected. A failed connect leaves the object as
      it was. */
  function SetPeerName(u: UdpObject, address: string, port: Option<int>,
                       connectErr: Option<string>): (s: Step)
    ensures s.obj.tm == u.tm && s.obj.open == u.open
    ensures (s.out.Raised? && s.out.error.BadSelf?) <==> u.tag != Unconnected
    ensures u.tag != Unconnected ==> s.out == Raised(BadSelf("udp{unconnected}"))
    ensures s.out.Raised? ==> s.obj == u && s.effects == []
    ensures u.tag == Unconnected && Connecting(address) && port.None? ==>
              s.out == Raised(BadArgument(3, NumberExpected))
    ensures s.out.Returned? <==> u.tag == Unconnected && (!Connecting(address) || port.Some?)
    ensures s.out.Returned? ==> PeerPort(Connecting(address), port).Some?
    ensures s.out.Returned? ==>
              s.effects == [InetTryConnect(CString(address), PeerPort(Connecting(address), port).value)]
    ensures s.out.Returned? && connectErr.Some? ==>
              s.obj == u && s.out.values == [Nil, Text(connectErr.value)]
    ensures s.out.Returned? && connectErr.None? ==>
              s.out.values == [Number(1)] &&
              s.obj.tag == (if Connecting(address) then Connected else Unconnected)
    ensures s.obj.tag != u.tag ==> u.tag == Unconnected && s.obj.tag == Connected
  {
    if !CheckClass(u.tag, Unconnected) then Refuse(u, Unconnected.Name())
    else
      var connecting := Connecting(address);
      match PeerPort(connecting, port)
      case None => Step(u, [], Raised(BadArgument(3, NumberExpected)))
      case Some(p) =>
        var effects := [InetTryConnect(CString(address), p)];
        match connectErr
        case Some(e) => Step(u, effects, Returned([Nil, Text(e)]))
        case None =>
          var tag := if connecting then Connected else Unconnected;
          Step(u.(tag := tag), effects, Returned([Number(1)]))
  }

  /** udp_meth_close: on either class; releases the socket, keeps the tag. */
  function Close(u: UdpObject): (s: Step)
    ensures s.obj.tag == u.tag && s.obj.tm == u.tm
    ensures s.out.Raised? <==> u.tag == Master
    ensures s.out.Raised? ==> s.obj == u && s.effects == [] && s.out.error == BadSelf("udp{any}")
    ensures s.out.Returned? ==> !s.obj.open && s.effects == [SockDestroy] && s.out.values == []
  {
    if !CheckAny(u.tag) then Refuse(u, Any.Name())
    else Step(u.(open := false), [SockDestroy], Returned([]))
  }

  /** udp_meth_setsockname: only on a `udp{master}` object; binds with
      backlog -1 and never changes the tag, even on success. */
  function SetSockName(u: UdpObject, address: string, port: Option<int>,
                       bindErr: Option<string>): (s: Step)
    ensures s.obj == u
    ensures (s.out.Raised? && s.out.error.BadSelf?) <==> u.tag != Master
    ensures u.tag != Master ==> s.out == Raised(BadSelf("udp{master}"))
    ensures u.tag == Master && port.None? ==> s.out == Raised(BadArgument(3, NumberExpected))
    ensures s.out.Raised? <==> s.effects == []
    ensures s.out.Returned? <==> u.tag == Master && port.Some?
    ensures s.out.Returned? ==>
              s.effects == [InetTryBind(CString(address), ToUShort(port.value), -1)]
    ensures s.out.Returned? ==>
              s.out.values == (if bindErr.Some? then [Nil, Text(bindErr.value)] else [Number(1)])
  {
    if !CheckClass(u.tag, Master) then Refuse(u, Master.Name())
    else if port.None? then Step(u, [], Raised(BadArgument(3, NumberExpected)))
    else
      var effects := [InetTryBind(CString(address), ToUShort(port.value), -1)];
      match bindErr
      case Some(e) => Step(u, effects, Returned([Nil, Text(e)]))
      case None => Step(u, effects, Returned([Number(1)]))
  }

  /** The result of udp_global_create: the object, if one survives. */
  datatype Created = Created(obj: Option<UdpObject>, effects: seq<Effect>, out: Outcome)

  /** The object udp_global_create hands out. */
  const Fresh: UdpObject := UdpObject(Unconnected, Tm(-1, -1), true)

  /** udp_global_create: tags the new object `udp{unconnected}`, then asks
      `inet_trycreate` (whose error is `createErr`) for a socket. On failure
      the object is discarded; on success both timeouts start at -1. */
  function Create(createErr: Option<string>): (c: Created)
    ensures c.obj.Some? <==> createErr.None?
    ensures c.obj.Some? ==> c.obj.value.tag == Unconnected && c.obj.value.tm == Tm(-1, -1) && c.obj.value.open
    ensures c.obj.Some? ==> c.out == Returned([NewObject]) && c.effects == [InetTryCreate, TmInit(-1, -1)]
    ensures c.obj.None? ==> c.out == Returned([Nil, Text(createErr.value)]) && c.effects == [InetTryCreate]
  {
    match createErr
    case Some(e) => Created(None, [InetTryCreate], Returned([Nil, Text(e)]))
    case None => Created(Some(Fresh), [InetTryCreate, TmInit(-1, -1)], Returned([NewObject]))
  }

  /** strcmp stops at the first NUL, so any address "*" followed by a NUL
      and more text disconnects, whatever the port and whatever the connect
      reports: the port may be left out (then it is 0), `inet_tryconnect`
      sees "*", and the object stays unconnected. */
  lemma StarBeforeNulDisconnects(u: UdpObject, rest: string, port: Option<int>, err: Option<string>)
    requires u.tag == Unconnected
    ensures var s := SetPeerName(u, "*\0" + rest, port, err);
            && s.out.Returned?
            && s.obj.tag == Unconnected
            && s.effects == [InetTryConnect("*", PeerPort(false, port).value)]
            && (port.None? ==> s.effects == [InetTryConnect("*", 0)])
  {
    assert CString("*\0" + rest) == "*" by {
      assert ("*\0" + rest)[1..] == "\0" + rest;
    }
  }
}
