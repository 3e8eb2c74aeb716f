/** Limits, error codes and opaque identifiers shared by the durable-event modules. */
module Contract {

  const MAX_SAFE_INTEGER := 9_007_199_254_740_991

  const MAX_RETAINED_EVENTS := 1_000
  const MAX_RETAINED_BYTES := 1_048_576
  const RETENTION_MS := 30 * 60 * 1_000
  const MAX_INGRESS_PER_SECOND := 10
  const RECEIPT_RETENTION_MS := 2 * 60 * 60 * 1_000
  const MAX_RECEIPT_ROWS := 100_000
  const MAX_RECEIPT_METADATA_BYTES := 16 * 1_048_576
  const MAX_PENDING_ROWS := 100
  const MAX_PENDING_BYTES := 512 * 1_024

  // Lengths fixed by the validated patterns: "dev1." + 43, 64 hex digits, "dec1." + 43.
  const EVENT_ID_LENGTH := 48
  const FINGERPRINT_LENGTH := 64
  const CURSOR_LENGTH := 48
  const RECEIPT_ROW_BYTES := EVENT_ID_LENGTH + FINGERPRINT_LENGTH + CURSOR_LENGTH + 32

  // Digests and random tokens: only equality matters.
  type EventId = nat
  type Fingerprint = nat
  type Cursor = nat
  type GrantId = nat
  type SocketId = nat

  datatype Option<+T> = None | Some(value: T)

  datatype Code =
    | ConsumerUnavailable
    | StreamFull
    | GapRequiresReset
    | Transition
    | PayloadInvalid
    | SourceConflict
    | ServiceUnavailable

  /** One direction of a group's binding: source group and target platform. */
  datatype Direction = Direction(group: nat, platform: nat)

  /** The stream descriptor. Its digest names the stream object, so the descriptor
      itself serves as the route identifier. */
  datatype Route = Route(environment: nat, shareable: bool, realm: nat, stream: nat)

  function Max(a: int, b: int): int {
    if a < b then b else a
  }

  function Min(a: int, b: int): int {
    if a < b then a else b
  }

  function Pow2(n: nat): nat {
    if n == 0 then 1 else 2 * Pow2(n - 1)
  }
}
