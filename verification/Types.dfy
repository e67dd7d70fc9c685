/** Constants, enumerations and plain records shared by every component
    (source/Utils.h, source/udp_connected_lib/UDPConnector.h). */
module Types {
  const MAX_SAFE_QUEUE: nat := 100000
  const TIMEOUT_PERIODS: nat := 2000   // milliseconds a ping window stays open
  const TIMESEND_PING: nat := 500      // milliseconds slept after an answer
  const RETRY_NUM: nat := 5
  const PING_LENGTH: nat := 20
  const NOTIFY_LENGTH: nat := 40
  const BUFFER_SIZE: nat := 256
  const STAMP_LENGTH: nat := 19        // "YYYY-MM-DD HH:MM:SS"

  /** A `char` of the source, as its 8-bit pattern. */
  type byte = x: int | 0 <= x < 256
  /** A `uint16_t`. */
  type word = x: int | 0 <= x < 65536

  type Bytes = seq<byte>

  /** A raw receive buffer: always BUFFER_SIZE bytes. */
  type Buffer = b: Bytes | |b| == BUFFER_SIZE witness seq(256, _ => 0)

  // TypeMessage: the codes the enumerators have on the wire.
  const REGISTER: byte := 0
  const PING: byte := 1
  const PONG: byte := 2
  const NOTIFY: byte := 3

  // TypeNode: a decoded value may be any byte, so the enumeration is kept as its code.
  const BASE: byte := 0
  const DATA_PLANE: byte := 1
  const CONTROL_PLANE: byte := 2
  const OAM: byte := 3

  datatype NodeState = INIT | ALIVE | TIMEOUT | DEAD {
    function Code(): byte {
      match this
      case INIT => 0
      case ALIVE => 1
      case TIMEOUT => 2
      case DEAD => 3
    }
  }

  datatype Option<+T> = None | Some(value: T)

  /** A `sockaddr_in`: `port` is the raw `sin_port` field, as the little-endian host reads it. */
  datatype Addr = Addr(ip: nat, port: word)

  /** `htons` / `ntohs` on a little-endian host. */
  function Swap16(p: word): (r: word)
    ensures r / 256 == p % 256 && r % 256 == p / 256
  {
    (p % 256) * 256 + p / 256
  }

  function Zeros(n: nat): (r: Bytes)
    ensures |r| == n && forall i :: 0 <= i < n ==> r[i] == 0
  {
    seq(n, _ => 0)
  }

  /** The ASCII bytes of "Ping" and "Timeout ". */
  const PING_TEXT: Bytes := [80, 105, 110, 103]
  const TIMEOUT_TEXT: Bytes := [84, 105, 109, 101, 111, 117, 116, 32]
}
