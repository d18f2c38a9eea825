/** The C interface of the ProHand client library as the wrappers see it:
    its result codes, the fixed array sizes its functions read, the calls the
    wrappers make, and the status record it fills. The library's own bodies
    are not part of this model: the answer to each call is an input of the
    wrapper operation that makes it. */
module ProHandLib {

  // Result codes of the C API (ProHandResult).
  const SUCCESS: int := 0
  const ERROR_NULL: int := -1
  const ERROR_CONNECTION: int := -2
  const ERROR_INVALID_ARGUMENT: int := -3
  const ERROR_NOT_CONNECTED: int := -4
  const ERROR_UNSUPPORTED: int := -5
  const ERROR_OTHER: int := -99

  // Array sizes the C functions read.
  const ROTARY_JOINTS: nat := 16
  const LINEAR_JOINTS: nat := 2
  const WRIST_JOINTS: nat := 2
  const HAND_JOINTS: nat := 20

  /** An opaque client handle; `live` until the library destroys it. */
  class LibHandle {
    var live: bool

    constructor ()
      ensures live
    {
      live := true;
    }
  }

  /** One call into the C library, with the arrays it is handed. */
  datatype Request =
    | Ping
    | SetStreamingMode(enabled: int)
    | IsRunningState
    | IsConnected
    | RotaryCommands(positions: seq<real>, torques: seq<real>)
    | RotaryStreams(positions: seq<real>, torques: seq<real>)
    | LinearCommands(positions: seq<real>, speeds: seq<real>)
    | LinearStreams(positions: seq<real>, speeds: seq<real>)
    | WristCommand(positions: seq<real>, useProfiler: bool)
    | WristStreams(positions: seq<real>, useProfiler: bool)
    | HandCommand(positions: seq<real>, torque: real)
    | HandStreams(positions: seq<real>, torque: real)
    | SetWristLimits(maxVelocity: seq<real>, maxAcceleration: seq<real>, maxJerk: seq<real>)
    | ZeroCalibration(mask: seq<int>)
    | TryRecvStatus

  /** The length rule a wrapper enforces before a call, named by the message it raises. */
  datatype SizeRule =
    | NoSizeCheck             // the operation takes no arrays and checks no size
    | PositionsAndTorques16   // "positions and torques must have 16 elements"
    | PositionsAndSpeeds2     // "positions and speeds must have 2 elements"
    | Positions2              // "positions must have 2 elements"
    | Positions20             // "positions must have 20 elements (5 fingers × 4 joints)"
    | Mask16                  // "mask must have 16 elements"
    | WristLimits2            // "wrist limits must have 2 elements each"

  /** The request hands the C function arrays of exactly the lengths its
      signature reads (float[16], float[2], float[20], int[16]). */
  predicate FitsSignature(req: Request)
  {
    match req
    case RotaryCommands(p, t) => |p| == ROTARY_JOINTS && |t| == ROTARY_JOINTS
    case RotaryStreams(p, t) => |p| == ROTARY_JOINTS && |t| == ROTARY_JOINTS
    case LinearCommands(p, s) => |p| == LINEAR_JOINTS && |s| == LINEAR_JOINTS
    case LinearStreams(p, s) => |p| == LINEAR_JOINTS && |s| == LINEAR_JOINTS
    case WristCommand(p, _) => |p| == WRIST_JOINTS
    case WristStreams(p, _) => |p| == WRIST_JOINTS
    case HandCommand(p, _) => |p| == HAND_JOINTS
    case HandStreams(p, _) => |p| == HAND_JOINTS
    case SetWristLimits(v, a, j) => |v| == WRIST_JOINTS && |a| == WRIST_JOINTS && |j| == WRIST_JOINTS
    case ZeroCalibration(m) => |m| == ROTARY_JOINTS
    case _ => true
  }

  /** The 0/1 integer mask handed to prohand_send_zero_calibration for a boolean mask. */
  function MaskBits(mask: seq<bool>): (bits: seq<int>)
    ensures |bits| == |mask|
    ensures forall i :: 0 <= i < |mask| ==> (bits[i] == 1 <==> mask[i]) && (bits[i] == 0 <==> !mask[i])
  {
    seq(|mask|, i requires 0 <= i < |mask| => if mask[i] then 1 else 0)
  }

  /** Reading a bit mask back as booleans; the inverse of MaskBits. */
  function MaskBools(bits: seq<int>): (mask: seq<bool>)
    ensures |mask| == |bits|
  {
    seq(|bits|, i requires 0 <= i < |bits| => bits[i] != 0)
  }

  lemma MaskRoundTrip(mask: seq<bool>)
    ensures MaskBools(MaskBits(mask)) == mask
  {
  }

  type Floats16 = s: seq<real> | |s| == 16 witness seq(16, _ => 0.0)
  type Floats2 = s: seq<real> | |s| == 2 witness [0.0, 0.0]

  /** ProHandStatusInfo as the library fills it. */
  datatype StatusInfo = StatusInfo(isValid: int, statusType: int, rotaryPositions: Floats16, linearPositions: Floats2)

  /** HandStatus as both wrappers build it from a filled StatusInfo. */
  datatype HandStatus = HandStatus(isValid: bool, statusType: int, rotaryPositions: seq<real>, linearPositions: seq<real>)

  /** Copies the 16 rotary and 2 linear positions of the C record. */
  function ToHandStatus(info: StatusInfo): (s: HandStatus)
    ensures s.isValid <==> info.isValid != 0
    ensures s.statusType == info.statusType
    ensures |s.rotaryPositions| == ROTARY_JOINTS && |s.linearPositions| == LINEAR_JOINTS
    ensures forall i :: 0 <= i < ROTARY_JOINTS ==> s.rotaryPositions[i] == info.rotaryPositions[i]
    ensures forall i :: 0 <= i < LINEAR_JOINTS ==> s.linearPositions[i] == info.linearPositions[i]
  {
    HandStatus(info.isValid != 0, info.statusType, info.rotaryPositions[..16], info.linearPositions[..2])
  }
}
