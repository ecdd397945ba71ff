/** The Lua side of a method call: the values a method leaves on the stack,
    or the error it raises instead of returning. */
module Lua {
  import opened Base
  import opened Io

  datatype Value =
    | Nil
    | Number(n: int)
    | Bytes(data: seq<byte>)
    | Text(s: string)
      /** What `error_push` leaves for a status code. */
    | ErrorOf(code: IoCode)
      /** The dotted text `inet_ntoa` makes of an address. */
    | IpText(ip: ipv4)
      /** The freshly allocated UDP object. */
    | NewObject

  /** An error raised through the Lua API, which never returns. */
  datatype Raise =
      /** `aux_checkclass` / `aux_checkgroup` refused argument 1; `expected`
          is the class or group it asked for. */
    | BadSelf(expected: string)
      /** `luaL_argerror` (directly or from `luaL_check*`) on argument `index`. */
    | BadArgument(index: nat, why: string)

  datatype Outcome = Raised(error: Raise) | Returned(values: seq<Value>)

  const NumberExpected: string := "number expected"
}
