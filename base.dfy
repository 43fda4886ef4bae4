/**
 * Types shared by the JSON-message gateway model: an Option wrapper for
 * NULL-or-value results, the cFE uint32 counter with its wrap-around, and
 * the C-string convention (characters up to, not including, the terminator).
 */
module Base {

  datatype Option<+T> = None | Some(value: T)

  /** cFE `uint32`, the type of every status counter. */
  newtype uint32 = x: int | 0 <= x < 0x1_0000_0000

  const Uint32Max: int := 0xFFFF_FFFF

  /** `Counter++` on a uint32: one more, wrapping from the largest value to 0. */
  function Inc32(x: uint32): (r: uint32)
    ensures x as int < Uint32Max ==> r as int == x as int + 1
    ensures x as int == Uint32Max ==> r == 0
  {
    ((x as int + 1) % 0x1_0000_0000) as uint32
  }

  /** `uint16` truncation of a length, as in `uint16 MsgPayloadLen = ...`. */
  function ToUint16(x: nat): (r: nat)
    ensures r < 0x1_0000
    ensures x < 0x1_0000 ==> r == x
  {
    x % 0x1_0000
  }

  /** JMSG_UDP_BUF_LEN: size of the Rx and Tx datagram buffers. */
  const JMsgUdpBufLen: nat := 4096

  /**
   * The text of a C string: everything before its terminating NUL, so it
   * holds no NUL itself.
   */
  predicate IsCString(s: string)
  {
    '\0' !in s
  }

  /** A string that can be held as a C string. */
  type CString = s: string | IsCString(s)

  /** A NUL-terminated copy of `s` sits at the start of the buffer `buf`. */
  ghost predicate HoldsCString(buf: seq<char>, s: string)
  {
    |s| < |buf| && buf[..|s|] == s && buf[|s|] == '\0'
  }
}
