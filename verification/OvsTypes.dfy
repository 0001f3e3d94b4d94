/** The enumerations, limits and records shared by every component. */
module OvsTypes {

  datatype Option<+T> = None | Some(value: T)

  datatype Status = Success | Unknown | Failed | TimedOut | TimedWaitError

  datatype Table = GatewayConfigTable | FeedbackTable | NotifyTable | LogbookTable

  // Longest uuid text, and the sizes of the text fields of a gateway
  // configuration; the sizes count the terminating NUL, MAX_UUID_LEN does not.
  const MAX_UUID_LEN: nat := 36
  const MAX_NAME_SIZE: nat := 16

  // Commands and interface types stay integers, because the decoder casts
  // whatever integer a row holds into the enumeration.
  const IF_UP_CMD: int := 0
  const IF_DOWN_CMD: int := 1
  const IF_DELETE_CMD: int := 2
  const BR_REMOVE_CMD: int := 3

  const BRIDGE_IF_TYPE: int := 1
  const GRE_IF_TYPE: int := 3
  const VLAN_IF_TYPE: int := 4

  /** A C string field is represented by its content up to the NUL. */
  datatype GatewayConfig = GatewayConfig(
    ifName: string,
    inetAddr: string,
    netmask: string,
    greRemoteInetAddr: string,
    greLocalInetAddr: string,
    parentIfname: string,
    parentBridge: string,
    mtu: int,
    vlanId: int,
    ifType: int,
    ifCmd: int)

  /** `status` is an integer for the same reason as `ifCmd`. */
  datatype Feedback = Feedback(reqUuid: string, status: int)

  /** What `strncpy(dst, s, n)` followed by a terminating NUL leaves in dst. */
  function Clip(s: string, n: nat): string {
    if |s| <= n then s else s[..n]
  }

  /** That is the longest part of s from its start that is not longer than n. */
  lemma ClipIsLongestPrefix(s: string, n: nat, t: string)
    ensures Clip(s, n) <= s && |Clip(s, n)| <= n
    ensures t <= s && |t| <= n ==> t <= Clip(s, n)
  {
  }

  /** The uuid text that fits a 37-byte buffer. */
  function ClipUuid(s: string): string {
    Clip(s, MAX_UUID_LEN)
  }

  predicate IsInt32(n: int) {
    -0x8000_0000 <= n < 0x8000_0000
  }

  /** The cast of a 64-bit JSON integer to a 32-bit `int`. */
  function ToInt32(n: int): (r: int)
    ensures IsInt32(r)
    ensures IsInt32(n) ==> r == n
    ensures (r - n) % 0x1_0000_0000 == 0
  {
    (n + 0x8000_0000) % 0x1_0000_0000 - 0x8000_0000
  }
}
