/** Values shared by every component: options and results, the enumerations of
    flight.libs.types, and the bus messages of the SAFE / recovery protocol. */
module Basics {

  datatype Option<+T> = None | Some(value: T)

  datatype Result<+T> = Ok(value: T) | Err(error: FaultCode)

  datatype FaultCode =
    | NoFault | InferenceTimeout | InferenceNan | CameraStall | StorageFull | StorageCorrupt
    | ThermalOverLimit | PowerOverLimit | GimbalRunaway | CommTimeout | WatchdogExpire | ModelCorrupt
    | ProcessDied | CalibrationInvalid | FrameMalformed | GimbalFault | GimbalEncoderInvalid
    | GimbalControllerError | GimbalThermal | GimbalSafetyTimeout | GimbalClosedLoopLoss
    | GimbalStaleFeedback | GimbalTimeMapping | GimbalDutyExhausted | GimbalWatchdogUnconfirmed
    | EphemerisFault | CommandCrcFail | CommandAuthFail | CommandSeqError | CommandInvalid
    | CommandUnroutable

  datatype SystemMode = Idle | Stow | Safe | Init | Operate

  /** A float that may be NaN or infinite. */
  datatype Time = Finite(at: real) | NonFinite

  /** The absolute slack the flight code adds to its freshness bounds. */
  const TOLERANCE: real := 0.000000000001

  /** Successive readings of the monotonic clock; no order is assumed. */
  type Clock = nat -> real

  datatype ActivationKey = ActivationKey(epoch: string, sequence: int)

  // --- Commands ---------------------------------------------------------------------------

  datatype Param = Text(text: string) | Integer(i: int) | Number(x: real) | Flag(b: bool)

  /** CommandMsg and RoutedCommandMsg carry the same envelope. */
  datatype Command = Command(
    target: string, commandId: string, params: map<string, Param>, source: string, seqNo: int)

  const ROUTER := "command_router"
  const SYSTEM_MODES := "system_modes"
  const PAYLOAD := "payload"
  const EXIT_SAFE := "EXIT_SAFE"
  const SET_MODE := "SET_MODE"
  const GIMBAL_STOW := "GIMBAL_STOW"

  /** The text of a parameter; a number or flag never renders as a phase or mode word. */
  function TextOf(params: map<string, Param>, key: string): string {
    if key in params && params[key].Text? then params[key].text else ""
  }

  datatype Ack = Ack(
    accepted: bool, commandId: string, source: string, seqNo: int, fault: FaultCode)

  // --- Mode authority messages ------------------------------------------------------------

  datatype ModeRequestMsg = ModeRequestMsg(
    requestId: string, mode: SystemMode, requestedBy: string, reason: string, key: Option<ActivationKey>)

  datatype SyncRequestMsg = SyncRequestMsg(subscriber: string, expectedEpoch: string)

  datatype RequestKind = Subsystem | SetMode | ExitSafe

  datatype Reason =
    | SafeRequestedFrom(mode: Option<SystemMode>) | ExitSafeAuthorized
    | Edge(mode: Option<SystemMode>, target: SystemMode)
    | AlreadyActive | OnlyExitSafeLeaves | ConditionStillActive(faults: set<FaultCode>)
    | ExitSafeOnlyInSafe | LatchIsSet | NoSuchEdge
    | EvidenceStale | InitKeyRequired | SafeDecidedThisTick

  datatype Activation = Activation(
    epoch: string, sequence: int, previous: Option<SystemMode>, active: SystemMode,
    reason: Reason, requestId: Option<string>, recovery: bool)

  datatype TransitionMsg = TransitionMsg(
    number: int, requestId: string, epoch: string, previous: Option<SystemMode>,
    requested: SystemMode, resulting: SystemMode, accepted: bool, requestedBy: string,
    reason: Reason, activationSequence: Option<int>)

  // --- Fault messages ---------------------------------------------------------------------

  datatype FaultEvent = FaultEvent(code: FaultCode, subsystem: string)

  /** The fault app's published evidence. The fault set is a sorted tuple on the bus. */
  datatype SafetyMsg = SafetyMsg(
    activeFaults: set<FaultCode>, latched: bool, reason: FaultCode,
    epoch: string, sequence: int, observed: Time, recoveryId: Option<string>)

  function Last<T>(s: seq<T>): T
    requires s != []
  {
    s[|s| - 1]
  }
}
