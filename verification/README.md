# LuaSocket UDP object: class-tag state machine and result shaping

This project models the UDP object of LuaSocket (`src/udp.c`) in Dafny. Every
UDP object carries a class tag, `udp{connected}` or `udp{unconnected}`. Both
classes belong to the group `udp{any}`. Each Lua method first checks the tag
of its first argument, either against one class (`aux_checkclass`) or against
the group (`aux_checkgroup`). Only after that check does it call the socket
layer (`sock_*`), the address layer (`inet_*`) or the timeout tracker (`tm_*`).

Each method is modelled as a pure step `Udp.<Method>(object, arguments,
collaborator results) -> Step(object', effects, outcome)`:

- `object'` is the object the method leaves: its tag, its timeout budgets,
  and whether its socket is still open.
- `effects` lists, in order, the calls made into collaborators
  (`TmMarkStart`, `SockSend`, `InetTryConnect`, ...).
- `outcome` is either `Raised` (a Lua error from a class or argument check)
  or `Returned` with the values pushed on the Lua stack.

The collaborators' bodies are not part of this model. What they report (a
status code, a byte count, a waiting datagram, an error string, what
`inet_aton` made of an address) is an input of the step.

Modules:
- `Base`: bytes, ports, `Option`, and the C casts `(ushort)` and `(size_t)`.
- `Io`: status codes, addresses, effects, and the results collaborators report.
- `Lua`: the values a method pushes and the errors it raises.
- `Classes`: class names, the registry `udp_open` builds, and the class and
  group checks.
- `Udp`: the object, `udp_global_create`, and the ten methods.
- `Session`: the method table, the legality table, runs of calls, and what
  holds of every reachable object.
- `UdpProperties`: error translation and result shape, stated across methods.

The model follows the code, not the intent stated in the code's own comments.
The comments speak of a "master" object: `setpeername` is to turn it into a
client (`src/udp.c:189`), `setsockname` into a server (`src/udp.c:222`), and
`udp_global_create` is to create one (`src/udp.c:249`). In the code, however:
- `udp_global_create` tags every new object `udp{unconnected}`.
- No class `udp{master}` is ever registered.
- `setpeername` is refused on a connected object, so a connected object can
  never reconnect or disconnect.

As a result, `setsockname` can never pass its class check, and
`udp{connected}` is absorbing. The model proves both facts.

## Model

| member | source | states |
|---|---|---|
| Classes.Open | src/udp.c:56-63 | the registry holds exactly `udp{connected}` and `udp{unconnected}`, never `udp{master}`, and the group `udp{any}` admits exactly the registered classes |
| Classes.NewClass | src/udp.c:59-60 | registering a class adds exactly that class, in no group yet, and leaves the other classes' groups alone |
| Classes.AddToGroup | src/udp.c:62-63 | adding a class to a group puts the group among that class's groups, registers no class, and leaves the other classes alone |
| Udp.CheckAny | src/udp.c:122 | the `udp{any}` check made by `receive`, `getsockname` (175), `timeout` (184) and `close` (216) admits every tag except `udp{master}` |
| Base.ToSizeT | src/udp.c:124 | a receive size in 0..2^64-1 is kept as given; any other integer is reduced modulo 2^64 |
| Base.CString | src/udp.c:195 | the C view of a Lua string is its longest prefix without NUL, ending where the string has its first NUL |
| Session.Apply | src/udp.c:33-45 | the method table: only `setpeername` may change the tag, only `timeout` the tracker, only `close` the socket, and a call that raises changes nothing |
| Classes.AnyAdmitsBothClasses | src/udp.c:62-63 | a `udp{any}` check accepts a tag iff it is connected or unconnected |
| Classes.CheckClass | src/udp.c:77 | a class check by name accepts exactly the expected class; the three class names are distinct |
| Base.ToUShort | src/udp.c:99 | a port argument in 0..65535 is kept as given; any other integer is reduced modulo 2^16 |
| Udp.RecvCount | src/udp.c:124-127 | the receive size is at most UDP_DATAGRAMSIZE; it is the whole buffer when no size is given, and min(request, UDP_DATAGRAMSIZE) for an in-range request |
| Udp.PeerPort | src/udp.c:195-197 | when connecting a missing port is an error (none is produced); otherwise a missing port defaults to 0; a given in-range port is used as is |
| Udp.Send | src/udp.c:75-88 | raises iff the object is not connected, and then does no I/O; otherwise marks the timer, then sends, and returns (count, err) when done or (nil, err) otherwise, passing the status through unchanged |
| Udp.SendTo | src/udp.c:93-115 | raises `udp{unconnected}` expected on any other tag; a missing port, or an address whose C view `inet_aton` rejects, raises before any effect; otherwise marks the timer, then sends to (address, port); reports a closed status as refused and every other status unchanged |
| Udp.Receive | src/udp.c:120-134 | raises only on a tag outside `udp{any}`; asks for the clamped size after marking the timer; when done returns exactly what the socket delivered for that size (never longer than UDP_DATAGRAMSIZE, a prefix of the datagram), otherwise nil, then the unchanged status |
| Udp.ReceiveFrom | src/udp.c:139-162 | raises iff not unconnected; on success returns three values: exactly what the socket delivered for the clamped size (at most UDP_DATAGRAMSIZE bytes), the sender address and the sender port; otherwise returns (nil, err) |
| Udp.GetPeerName | src/udp.c:167-171 | raises iff not connected; otherwise returns what `inet_meth_getpeername` returns and changes nothing |
| Udp.GetSockName | src/udp.c:173-177 | accepted on either class; returns what `inet_meth_getsockname` returns and changes nothing |
| Udp.Timeout | src/udp.c:182-186 | accepted on either class; only the timeout tracker changes, never the tag or the socket |
| Udp.SetPeerName | src/udp.c:191-209 | raises `udp{unconnected}` expected iff not unconnected; an address whose C view (up to the first NUL) is not "*" without a port raises; `inet_tryconnect` gets the C view of the address and the port; a failed connect leaves the object unchanged and returns (nil, err); success returns 1 and tags the object unconnected for "*", connected otherwise |
| Udp.StarBeforeNulDisconnects | src/udp.c:195-197 | for every text after the NUL, every port argument and every connect result, an address "*" followed by a NUL is read as "*": the call does not raise, `inet_tryconnect` gets "*" and the port (0 when none is given), and the object stays unconnected |
| Udp.Close | src/udp.c:214-219 | accepted on either class; closes the socket, keeps the tag, returns nothing |
| Udp.SetSockName | src/udp.c:224-237 | raises `udp{master}` expected iff the tag is not `udp{master}`, and a number-expected error on argument 3 when the port is missing; otherwise binds the C view of the address with backlog -1; never retags, even on success |
| Udp.Create | src/udp.c:245-263 | a failed socket allocation yields no object and (nil, err); otherwise the object is unconnected, open, and has both timeouts at -1 |
| Session.ClassGating | src/udp.c:77-226 | every method is refused by its class check exactly on the tags the legality table leaves out; a refused call does no I/O and leaves the object unchanged |
| Session.MarkStartBeforeIo | src/udp.c:82-83 | in every method, each datagram transfer comes after a `tm_markstart` of the same call |
| Session.OnlySetPeerNameRetags | src/udp.c:204-206 | the only tag change any method makes is `setpeername` turning an unconnected object into a connected one |
| Session.NeverMaster | src/udp.c:204-206 | no run of calls starting outside `udp{master}` ever reaches it |
| Session.SetSockNameAlwaysRefused | src/udp.c:226 | on any run starting outside `udp{master}`, every `setsockname` call raises a class-check error and does nothing |
| Session.ConnectedIsAbsorbing | src/udp.c:193 | every run from a connected object stays connected at every step |
| Session.ConnectedStaysConnected | src/udp.c:191-209 | at any point of any run, once the object is connected it stays connected at every later step |
| Session.ReachableTagsAreRegistered | src/udp.c:245-252 | every object a program can reach after `udp()` carries a registered class, and every `setsockname` on it raises |
| UdpProperties.SendToRemapsOnlyClosed | src/udp.c:109-113 | given the same transfer, `send` and `sendto` return the same first value; their error values differ exactly when the status is closed, which `sendto` reports as refused |
| UdpProperties.SendToNeverReportsClosed | src/udp.c:113 | `sendto` never reports closed, and reports refused iff the transfer was refused or closed |
| UdpProperties.SendAndReceivePassCodesThrough | src/udp.c:84-86 | `send` (and likewise `receive`, line 132) return the transfer's status unchanged as the error value |
| UdpProperties.ReceiveIsBounded | src/udp.c:145-150 | whatever size is asked for, `receive` and `receivefrom` never ask the socket layer for more than UDP_DATAGRAMSIZE bytes, and never return a longer payload; the payload is a prefix of the waiting datagram |
| UdpProperties.ReceiveCountIsClamped | src/udp.c:124-127 | the count passed to `sock_recv` is UDP_DATAGRAMSIZE by default, and min(request, UDP_DATAGRAMSIZE) for a request in 0..2^64-1 |
| UdpProperties.ReceiveFromAddsSender | src/udp.c:150-161 | on an unconnected object, `receivefrom` returns the payload `receive` would, plus the sender's address and port; on failure both return the same (nil, err) |
| UdpProperties.ResultCounts | src/udp.c:152-161 | `send`, `sendto` and `receive` return two values; `receivefrom` returns three on success and two otherwise |

## Left out

- Lua stack handling and registration (`luaL_openlib`, the `lua_push*` calls, the userdata allocation). The model keeps only the abstract arguments and the pushed values.
- Type errors from `luaL_checkstring` / `luaL_checklstring`, and from `luaL_checknumber` / `luaL_optnumber` on a value that is not a number (such as `u:receive({})`): `Option<int>` represents only a missing number or an integer. Data and address arguments are always strings in the model. Only a missing port or receive size is modelled, because the source treats those as mandatory or optional.
- Lua numbers are modelled as integers, so fractional arguments are not represented. C truncates an in-range fractional value toward zero (`receive(100.9)` asks for 100 bytes); only out-of-range values make the `(ushort)` and `(size_t)` casts undefined, and the model wraps those modulo 2^16 and 2^64.
- The bodies of `sock_send`, `sock_sendto`, `sock_recv`, `sock_recvfrom` and `sock_destroy`, and of `inet_tryconnect`, `inet_trybind`, `inet_trycreate`, `inet_meth_getsockname` and `inet_meth_getpeername`. These are OS and network I/O. Their results are inputs of each step.
- Io.Received: assumes a receive copies at most the room given, taken from the front of the waiting datagram, as a datagram socket does. `sock_recv` itself is not part of this model.
- The timeout tracker (`tm_init`, `tm_markstart`, `tm_get`, `tm_meth_timeout`). It depends on wall-clock time. Only the order "mark start, then transfer" and the initial budgets -1/-1 are modelled.
- Udp.Timeout: does not model argument errors that `tm_meth_timeout` may raise. Its returned values and the new budgets are inputs.
- `inet_aton`, `inet_ntoa`, `htons` and `ntohs`. `inet_aton` is a function parameter `aton` applied to the C view of the address. It is supplied per call, so two calls may resolve the same text differently; no property relies on them agreeing. Ports stay in host byte order, and the text of an address is the opaque value `IpText`.
- `error_push`: the message text for each status code is not part of this model. A pushed error is represented by its code (`ErrorOf`).
- Status codes: `io.h` is not part of this model. Only the codes `udp.c` names are told apart: it tests for `IO_DONE` and `IO_CLOSED` and produces `IO_REFUSED`; every other code is `IoOther`.
- `aux.c` is not part of this model. The semantics of `aux_newclass`, `aux_add2group`, `aux_checkclass`, `aux_checkgroup` and `aux_setclass` is assumed: a registry of classes and groups, a class check that compares class names, and a group check that looks up the class's groups. A failed check raises an argument error on argument 1 naming the expected class or group.
- `UDP_DATAGRAMSIZE` is defined in `udp.h`, which is not part of this model. The model uses 8192. No proof depends on the value.
- Concurrency and closing a socket while I/O is in progress. Nothing in this file expresses either.
