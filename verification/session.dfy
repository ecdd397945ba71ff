/** Sequences of method calls on one UDP object, and what holds of every
    object such a sequence can reach. */
module Session {
  import opened Base
  import opened Io
  import opened Lua
  import opened Classes
  import Udp

  /** One method call: its Lua arguments and what its collaborators report.
      Every collaborator result is per call, `inet_aton` included: nothing
      ties the resolution of an address in one call to another. */
  datatype Call =
    | Send(data: seq<byte>, sendIo: SendIo)
    | SendTo(data: seq<byte>, ip: string, port: Option<int>, aton: string -> Option<ipv4>, sendIo: SendIo)
    | Receive(count: Option<int>, recvIo: RecvIo)
    | ReceiveFrom(count: Option<int>, recvIo: RecvIo)
    | GetPeerName(pushed: seq<Value>)
    | GetSockName(pushed: seq<Value>)
    | Timeout(tmResult: Udp.TmResult)
    | SetPeerName(address: string, port: Option<int>, err: Option<string>)
    | Close
    | SetSockName(address: string, port: Option<int>, err: Option<string>)

  /** The method table: dispatches a call on object `u`. Each part of the
      object has exactly one method that may change it, and a call that
      raises changes nothing. */
  function Apply(u: Udp.UdpObject, c: Call): (s: Udp.Step)
    ensures s.obj.tag == u.tag || c.SetPeerName?
    ensures s.obj.tm == u.tm || c.Timeout?
    ensures s.obj.open == u.open || c.Close?
    ensures s.out.Raised? ==> s.obj == u
  {
    match c
    case Send(data, io) => Udp.Send(u, data, io)
    case SendTo(data, ip, port, aton, io) => Udp.SendTo(u, data, ip, port, aton, io)
    case Receive(count, io) => Udp.Receive(u, count, io)
    case ReceiveFrom(count, io) => Udp.ReceiveFrom(u, count, io)
    case GetPeerName(pushed) => Udp.GetPeerName(u, pushed)
    case GetSockName(pushed) => Udp.GetSockName(u, pushed)
    case Timeout(r) => Udp.Timeout(u, r)
    case SetPeerName(address, port, err) => Udp.SetPeerName(u, address, port, err)
    case Close => Udp.Close(u)
    case SetSockName(address, port, err) => Udp.SetSockName(u, address, port, err)
  }

  /** The legality table: the tags on which each method gets past its class
      check. */
  function Accepted(c: Call): set<Class> {
    match c
    case Send(_, _) => {Connected}
    case GetPeerName(_) => {Connected}
    case SendTo(_, _, _, _, _) => {Unconnected}
    case ReceiveFrom(_, _) => {Unconnected}
    case SetPeerName(_, _, _) => {Unconnected}
    case SetSockName(_, _, _) => {Master}
    case Receive(_, _) => {Connected, Unconnected}
    case GetSockName(_) => {Connected, Unconnected}
    case Timeout(_) => {Connected, Unconnected}
    case Close => {Connected, Unconnected}
  }

  /** A call is refused by its class check exactly when the table leaves the
      object's tag out; a refused call does no I/O and changes nothing. */
  lemma ClassGating(u: Udp.UdpObject, c: Call)
    ensures var s := Apply(u, c);
      (s.out.Raised? && s.out.error.BadSelf?) <==> u.tag !in Accepted(c)
    ensures var s := Apply(u, c);
      u.tag !in Accepted(c) ==> s.effects == [] && s.obj == u
  {
  }

  /** Every method that moves a datagram starts its timer first. */
  lemma MarkStartBeforeIo(u: Udp.UdpObject, c: Call)
    ensures MarkedBeforeIo(Apply(u, c).effects)
  {
    var e := Apply(u, c).effects;
    if e != [] && e[0] == TmMarkStart {
      assert forall i | 0 <= i < |e| && IsSockIo(e[i]) :: i > 0;
    }
  }

  /** The only tag change any method makes is `setpeername` turning an
      unconnected object into a connected one. */
  lemma OnlySetPeerNameRetags(u: Udp.UdpObject, c: Call)
    ensures Apply(u, c).obj.tag != u.tag ==>
              c.SetPeerName? && u.tag == Unconnected && Apply(u, c).obj.tag == Connected
  {
  }

  /** The steps of calling `calls` in order, starting from `u`. */
  function Run(u: Udp.UdpObject, calls: seq<Call>): (steps: seq<Udp.Step>)
    ensures |steps| == |calls|
    decreases |calls|
  {
    if calls == [] then []
    else
      var s := Apply(u, calls[0]);
      [s] + Run(s.obj, calls[1..])
  }

  /** The object the `i`-th call of a run is made on. */
  function Before(u: Udp.UdpObject, calls: seq<Call>, i: nat): Udp.UdpObject
    requires i <= |calls|
  {
    if i == 0 then u else Run(u, calls)[i - 1].obj
  }

  /** The `i`-th step of a run is the `i`-th call applied to the object the
      calls before it left behind. */
  lemma {:induction false} RunStep(u: Udp.UdpObject, calls: seq<Call>, i: nat)
    requires i < |calls|
    ensures Run(u, calls)[i] == Apply(Before(u, calls, i), calls[i])
    decreases i
  {
    if i > 0 {
      var s := Apply(u, calls[0]);
      RunStep(s.obj, calls[1..], i - 1);
      if i > 1 {
        assert Before(u, calls, i) == Before(s.obj, calls[1..], i - 1);
      }
    }
  }

  /** A run splits at any point into the run before and the run after. */
  lemma {:induction false} RunSuffix(u: Udp.UdpObject, calls: seq<Call>, k: nat)
    requires k <= |calls|
    ensures Run(u, calls)[k..] == Run(Before(u, calls, k), calls[k..])
    decreases k
  {
    if k > 0 {
      var s := Apply(u, calls[0]);
      RunSuffix(s.obj, calls[1..], k - 1);
      assert calls[1..][k - 1..] == calls[k..];
      if k > 1 {
        assert Before(u, calls, k) == Before(s.obj, calls[1..], k - 1);
      }
    }
  }

  /** No run starting outside `udp{master}` ever reaches it. */
  lemma {:induction false} NeverMaster(u: Udp.UdpObject, calls: seq<Call>)
    requires u.tag != Master
    ensures forall i | 0 <= i < |calls| :: Run(u, calls)[i].obj.tag != Master
    decreases |calls|
  {
    if calls != [] {
      var s := Apply(u, calls[0]);
      OnlySetPeerNameRetags(u, calls[0]);
      NeverMaster(s.obj, calls[1..]);
      assert forall i | 1 <= i < |calls| :: Run(u, calls)[i] == Run(s.obj, calls[1..])[i - 1];
    }
  }

  /** Hence, on such a run, every `setsockname` fails its class check and
      does nothing. */
  lemma SetSockNameAlwaysRefused(u: Udp.UdpObject, calls: seq<Call>, i: nat)
    requires u.tag != Master
    requires i < |calls| && calls[i].SetSockName?
    ensures Run(u, calls)[i].out == Raised(BadSelf("udp{master}"))
    ensures Run(u, calls)[i].effects == []
  {
    RunStep(u, calls, i);
    if i > 0 {
      NeverMaster(u, calls);
    }
  }

  /** Once connected, always connected: no run from a connected object
      leaves `udp{connected}`. */
  lemma {:induction false} ConnectedIsAbsorbing(u: Udp.UdpObject, calls: seq<Call>)
    requires u.tag == Connected
    ensures forall i | 0 <= i < |calls| :: Run(u, calls)[i].obj.tag == Connected
    decreases |calls|
  {
    if calls != [] {
      var s := Apply(u, calls[0]);
      OnlySetPeerNameRetags(u, calls[0]);
      ConnectedIsAbsorbing(s.obj, calls[1..]);
      assert forall i | 1 <= i < |calls| :: Run(u, calls)[i] == Run(s.obj, calls[1..])[i - 1];
    }
  }

  /** The same, from any point of any run. */
  lemma ConnectedStaysConnected(u: Udp.UdpObject, calls: seq<Call>, i: nat, j: nat)
    requires i <= j < |calls|
    requires Run(u, calls)[i].obj.tag == Connected
    ensures Run(u, calls)[j].obj.tag == Connected
  {
    RunSuffix(u, calls, i + 1);
    if j > i {
      var rest := Run(Before(u, calls, i + 1), calls[i + 1..]);
      ConnectedIsAbsorbing(Before(u, calls, i + 1), calls[i + 1..]);
      assert Run(u, calls)[j] == rest[j - (i + 1)];
    }
  }

  /** The objects a program sees: a successful `udp()` followed by any calls.
      A failed `udp()` yields no object and so no steps. */
  function FromCreate(createErr: Option<string>, calls: seq<Call>): seq<Udp.Step> {
    match Udp.Create(createErr).obj
    case None => []
    case Some(u) => Run(u, calls)
  }

  /** Every object a program can hold carries a registered class: never
      `udp{master}`, so `setsockname` never gets past its check. */
  lemma ReachableTagsAreRegistered(createErr: Option<string>, calls: seq<Call>)
    ensures forall i | 0 <= i < |FromCreate(createErr, calls)| ::
              FromCreate(createErr, calls)[i].obj.tag in Open().classes
    ensures forall i | 0 <= i < |FromCreate(createErr, calls)| && calls[i].SetSockName? ::
              FromCreate(createErr, calls)[i].out.Raised?
  {
    if createErr.None? {
      NeverMaster(Udp.Fresh, calls);
      forall i | 0 <= i < |calls| && calls[i].SetSockName?
        ensures Run(Udp.Fresh, calls)[i].out.Raised?
      {
        SetSockNameAlwaysRefused(Udp.Fresh, calls, i);
      }
    }
  }
}
