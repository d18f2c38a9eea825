/** The ctypes wrapper prohand_sdk.ProHandClient of the Python package: it
    checks argument sizes (but not the handle) before each call and raises an
    exception of the ProHandError family for every failing result code. */
module ProHandPy {
  import opened Outcomes
  import opened ProHandLib
  import Readiness
  import ProHandCpp

  /** The exception classes; ConnectionError and InvalidArgumentError derive
      from ProHandError. */
  datatype ErrorClass = ProHandError | ConnectionError | InvalidArgumentError

  /** `isinstance` for these classes. */
  predicate IsInstance(cls: ErrorClass, of: ErrorClass)
  {
    of == ProHandError || cls == of
  }

  /** What _check_result says after "<operation>: ". */
  datatype Reason = NullPointer | ConnectionFailed | InvalidArgument | NotConnected | NotSupported | Unknown(code: int)

  datatype Message =
    | CreateFailed                    // "Failed to create ProHand client"
    | WrongLength(rule: SizeRule)     // the size messages
    | Failed(operation: string, reason: Reason)

  datatype PyError = PyError(cls: ErrorClass, message: Message)

  function ReasonCode(reason: Reason): int
  {
    match reason
    case NullPointer => ERROR_NULL
    case ConnectionFailed => ERROR_CONNECTION
    case InvalidArgument => ERROR_INVALID_ARGUMENT
    case NotConnected => ERROR_NOT_CONNECTED
    case NotSupported => ERROR_UNSUPPORTED
    case Unknown(c) => c
  }

  /** _check_result: success returns; every other code raises. Connection
      problems raise ConnectionError, a rejected argument InvalidArgumentError,
      everything else the base class. */
  function CheckResult(code: int, operation: string): (r: Result<(), PyError>)
    ensures r.Ok? <==> code == SUCCESS
    ensures r.Err? ==>
      r.error.message.Failed? && r.error.message.operation == operation && ReasonCode(r.error.message.reason) == code
    ensures r.Err? ==> (r.error.cls == ConnectionError <==> code == ERROR_CONNECTION || code == ERROR_NOT_CONNECTED)
    ensures r.Err? ==> (r.error.cls == InvalidArgumentError <==> code == ERROR_INVALID_ARGUMENT)
    ensures r.Err? ==> (r.error.message.reason.Unknown? <==> code !in KnownCodes)
  {
    if code == SUCCESS then Ok(())
    else if code == ERROR_NULL then Err(PyError(ProHandError, Failed(operation, NullPointer)))
    else if code == ERROR_CONNECTION then Err(PyError(ConnectionError, Failed(operation, ConnectionFailed)))
    else if code == ERROR_INVALID_ARGUMENT then Err(PyError(InvalidArgumentError, Failed(operation, InvalidArgument)))
    else if code == ERROR_NOT_CONNECTED then Err(PyError(ConnectionError, Failed(operation, NotConnected)))
    else if code == ERROR_UNSUPPORTED then Err(PyError(ProHandError, Failed(operation, NotSupported)))
    else Err(PyError(ProHandError, Failed(operation, Unknown(code))))
  }

  const KnownCodes: set<int> := {ERROR_NULL, ERROR_CONNECTION, ERROR_INVALID_ARGUMENT, ERROR_NOT_CONNECTED, ERROR_UNSUPPORTED}

  /** The C++ reason that corresponds to a Python reason. */
  function CppReason(reason: Reason): ProHandCpp.Reason
  {
    match reason
    case NullPointer => ProHandCpp.NullPointer
    case ConnectionFailed => ProHandCpp.ConnectionFailed
    case InvalidArgument => ProHandCpp.InvalidArgument
    case NotConnected => ProHandCpp.NotConnected
    case NotSupported => ProHandCpp.Unknown(ERROR_UNSUPPORTED)
    case Unknown(c) => ProHandCpp.Unknown(c)
  }

  /** The two wrappers fail on the same codes and report the same reason for
      every one of them, except ERROR_UNSUPPORTED: Python names it, C++ calls
      it an unknown error. */
  lemma {:induction false} WrappersAgree(code: int, operation: string)
    ensures CheckResult(code, operation).Ok? <==> ProHandCpp.CheckResult(code, operation).Ok?
    ensures code != SUCCESS ==>
      CppReason(CheckResult(code, operation).error.message.reason) == ProHandCpp.CheckResult(code, operation).error.reason
    ensures code == ERROR_UNSUPPORTED ==>
      CheckResult(code, operation).error.message.reason == NotSupported
      && ProHandCpp.CheckResult(code, operation).error.reason.Unknown?
  {
    if code != SUCCESS {
      var py := CheckResult(code, operation).error.message.reason;
      var cpp := ProHandCpp.CheckResult(code, operation).error.reason;
      assert ProHandCpp.ReasonCode(CppReason(py)) == code;
      if code == ERROR_UNSUPPORTED {
        assert CppReason(py) == ProHandCpp.Unknown(code);
      }
    }
  }

  /** A call guarded by a size check only: the handle is passed as it is. */
  function Guarded(sizesOk: bool, rule: SizeRule, req: Request, code: int, operation: string)
    : (out: (Option<Request>, Result<(), PyError>))
    ensures out.0.Some? <==> sizesOk
    ensures !sizesOk ==> out.1 == Err(PyError(InvalidArgumentError, WrongLength(rule)))
    ensures out.0.Some? ==> out.0.value == req && out.1 == CheckResult(code, operation)
  {
    if !sizesOk then (None, Err(PyError(InvalidArgumentError, WrongLength(rule))))
    else (Some(req), CheckResult(code, operation))
  }

  class ProHandClient {
    var handle: LibHandle?
    var closed: bool

    /** An open client owns a live handle; a closed one holds none. */
    ghost predicate Valid()
      reads this, handle
    {
      (!closed ==> handle != null && handle.live) && (closed ==> handle == null)
    }

    /** __init__: a null answer from prohand_client_create raises ConnectionError. */
    static method Create(created: LibHandle?) returns (r: Result<ProHandClient, PyError>)
      requires created != null ==> created.live
      ensures r.Ok? <==> created != null
      ensures r.Err? ==> r.error == PyError(ConnectionError, CreateFailed)
      ensures r.Ok? ==> fresh(r.value) && r.value.handle == created && !r.value.closed && r.value.Valid()
    {
      if created == null {
        return Err(PyError(ConnectionError, CreateFailed));
      }
      var c := new ProHandClient.Adopt(created);
      return Ok(c);
    }

    constructor Adopt(h: LibHandle)
      ensures handle == h && !closed
    {
      handle := h;
      closed := false;
    }

    /** close (also run by __exit__ and __del__): destroys the handle once;
        closing again does nothing. */
    method Close()
      requires Valid()
      modifies this, handle
      ensures Valid() && closed && handle == null
      ensures !old(closed) ==> !old(handle).live
      ensures old(closed) ==> unchanged(this)
    {
      if !closed && handle != null {
        handle.live := false;
        handle := null;
        closed := true;
      }
    }

    /** is_connected: false once closed, otherwise whether the answer is non-zero. */
    method IsConnected(code: int) returns (sent: Option<Request>, connected: bool)
      ensures sent.Some? <==> !closed
      ensures sent.Some? ==> sent.value == Request.IsConnected
      ensures connected <==> !closed && code != 0
    {
      if closed {
        return None, false;
      }
      return Some(Request.IsConnected), code != 0;
    }

    method SendPing(code: int) returns (sent: Option<Request>, r: Result<(), PyError>)
      ensures (sent, r) == Guarded(true, NoSizeCheck, Ping, code, "send_ping")
    {
      return Some(Ping), CheckResult(code, "send_ping");
    }

    method SetStreamingMode(enabled: bool, code: int) returns (sent: Option<Request>, r: Result<(), PyError>)
      ensures (sent, r) == Guarded(true, NoSizeCheck, Request.SetStreamingMode(if enabled then 1 else 0), code, "set_streaming_mode")
      ensures sent.Some? && sent.value.enabled == (if enabled then 1 else 0)
    {
      return Some(Request.SetStreamingMode(if enabled then 1 else 0)), CheckResult(code, "set_streaming_mode");
    }

    /** is_running_state: true only for the answer 1. */
    method IsRunningState(code: int) returns (sent: Option<Request>, running: bool)
      ensures sent == Some(Request.IsRunningState)
      ensures running <==> code == 1
    {
      return Some(Request.IsRunningState), code == 1;
    }

    method Issue(sizesOk: bool, rule: SizeRule, req: Request, code: int, operation: string)
      returns (sent: Option<Request>, r: Result<(), PyError>)
      ensures (sent, r) == Guarded(sizesOk, rule, req, code, operation)
    {
      if !sizesOk {
        return None, Err(PyError(InvalidArgumentError, WrongLength(rule)));
      }
      return Some(req), CheckResult(code, operation);
    }

    method SendRotaryCommands(positions: seq<real>, torques: seq<real>, code: int)
      returns (sent: Option<Request>, r: Result<(), PyError>)
      ensures (sent, r) == Guarded(|positions| == 16 && |torques| == 16, PositionsAndTorques16,
                                   RotaryCommands(positions, torques), code, "send_rotary_commands")
      ensures sent.Some? ==> FitsSignature(sent.value)
    {
      sent, r := Issue(|positions| == 16 && |torques| == 16, PositionsAndTorques16,
                       RotaryCommands(positions, torques), code, "send_rotary_commands");
    }

    method SendRotaryStreams(positions: seq<real>, torques: seq<real>, code: int)
      returns (sent: Option<Request>, r: Result<(), PyError>)
      ensures (sent, r) == Guarded(|positions| == 16 && |torques| == 16, PositionsAndTorques16,
                                   RotaryStreams(positions, torques), code, "send_rotary_streams")
      ensures sent.Some? ==> FitsSignature(sent.value)
    {
      sent, r := Issue(|positions| == 16 && |torques| == 16, PositionsAndTorques16,
                       RotaryStreams(positions, torques), code, "send_rotary_streams");
    }

    method SendLinearCommands(positions: seq<real>, speeds: seq<real>, code: int)
      returns (sent: Option<Request>, r: Result<(), PyError>)
      ensures (sent, r) == Guarded(|positions| == 2 && |speeds| == 2, PositionsAndSpeeds2,
                                   LinearCommands(positions, speeds), code, "send_linear_commands")
      ensures sent.Some? ==> FitsSignature(sent.value)
    {
      sent, r := Issue(|positions| == 2 && |speeds| == 2, PositionsAndSpeeds2,
                       LinearCommands(positions, speeds), code, "send_linear_commands");
    }

    method SendLinearStreams(positions: seq<real>, speeds: seq<real>, code: int)
      returns (sent: Option<Request>, r: Result<(), PyError>)
      ensures (sent, r) == Guarded(|positions| == 2 && |speeds| == 2, PositionsAndSpeeds2,
                                   LinearStreams(positions, speeds), code, "send_linear_streams")
      ensures sent.Some? ==> FitsSignature(sent.value)
    {
      sent, r := Issue(|positions| == 2 && |speeds| == 2, PositionsAndSpeeds2,
                       LinearStreams(positions, speeds), code, "send_linear_streams");
    }

    method SendWristCommand(positions: seq<real>, useProfiler: bool, code: int)
      returns (sent: Option<Request>, r: Result<(), PyError>)
      ensures (sent, r) == Guarded(|positions| == 2, Positions2, WristCommand(positions, useProfiler), code, "send_wrist_command")
      ensures sent.Some? ==> FitsSignature(sent.value)
    {
      if useProfiler {
        sent, r := Issue(|positions| == 2, Positions2, WristCommand(positions, true), code, "send_wrist_command");
      } else {
        sent, r := Issue(|positions| == 2, Positions2, WristCommand(positions, false), code, "send_wrist_command");
      }
    }

    method SendWristStreams(positions: seq<real>, useProfiler: bool, code: int)
      returns (sent: Option<Request>, r: Result<(), PyError>)
      ensures (sent, r) == Guarded(|positions| == 2, Positions2, WristStreams(positions, useProfiler), code, "send_wrist_streams")
      ensures sent.Some? ==> FitsSignature(sent.value)
    {
      if useProfiler {
        sent, r := Issue(|positions| == 2, Positions2, WristStreams(positions, true), code, "send_wrist_streams");
      } else {
        sent, r := Issue(|positions| == 2, Positions2, WristStreams(positions, false), code, "send_wrist_streams");
      }
    }

    method SetWristLimits(maxVelocity: seq<real>, maxAcceleration: seq<real>, maxJerk: seq<real>, code: int)
      returns (sent: Option<Request>, r: Result<(), PyError>)
      ensures (sent, r) == Guarded(|maxVelocity| == 2 && |maxAcceleration| == 2 && |maxJerk| == 2, WristLimits2,
                                   Request.SetWristLimits(maxVelocity, maxAcceleration, maxJerk), code, "set_wrist_limits")
      ensures sent.Some? ==> FitsSignature(sent.value)
    {
      sent, r := Issue(|maxVelocity| == 2 && |maxAcceleration| == 2 && |maxJerk| == 2, WristLimits2,
                       Request.SetWristLimits(maxVelocity, maxAcceleration, maxJerk), code, "set_wrist_limits");
    }

    /** send_hand_command; the source's default torque is 0.45, passed explicitly here. */
    method SendHandCommand(positions: seq<real>, torque: real, code: int)
      returns (sent: Option<Request>, r: Result<(), PyError>)
      ensures (sent, r) == Guarded(|positions| == 20, Positions20, HandCommand(positions, torque), code, "send_hand_command")
      ensures sent.Some? ==> FitsSignature(sent.value)
    {
      sent, r := Issue(|positions| == 20, Positions20, HandCommand(positions, torque), code, "send_hand_command");
    }

    method SendHandStreams(positions: seq<real>, torque: real, code: int)
      returns (sent: Option<Request>, r: Result<(), PyError>)
      ensures (sent, r) == Guarded(|positions| == 20, Positions20, HandStreams(positions, torque), code, "send_hand_streams")
      ensures sent.Some? ==> FitsSignature(sent.value)
    {
      sent, r := Issue(|positions| == 20, Positions20, HandStreams(positions, torque), code, "send_hand_streams");
    }

    /** send_zero_calibration: the mask is handed over as 0/1 integers. */
    method SendZeroCalibration(mask: seq<bool>, code: int)
      returns (sent: Option<Request>, r: Result<(), PyError>)
      ensures (sent, r) == Guarded(|mask| == 16, Mask16, ZeroCalibration(MaskBits(mask)), code, "send_zero_calibration")
      ensures sent.Some? ==> FitsSignature(sent.value) && MaskBools(sent.value.mask) == mask
    {
      MaskRoundTrip(mask);
      sent, r := Issue(|mask| == 16, Mask16, ZeroCalibration(MaskBits(mask)), code, "send_zero_calibration");
    }

    /** try_recv_status: positive brings a status, zero nothing, negative raises. */
    method TryRecvStatus(code: int, info: StatusInfo)
      returns (sent: Option<Request>, r: Result<Option<HandStatus>, PyError>)
      ensures sent == Some(Request.TryRecvStatus)
      ensures code > 0 ==> r == Ok(Some(ToHandStatus(info)))
      ensures code == 0 ==> r == Ok(None)
      ensures code < 0 ==> r.Err? && Err(r.error) == CheckResult(code, "try_recv_status")
    {
      sent := Some(Request.TryRecvStatus);
      if code > 0 {
        r := Ok(Some(ToHandStatus(info)));
      } else if code == 0 {
        r := Ok(None);
      } else {
        var check := CheckResult(code, "try_recv_status");
        r := Err(check.error);
      }
    }

    /** wait_for_streaming_ready on the virtual clock: never raises, and does
        what Readiness.Run describes. */
    method WaitForStreamingReady(timeout: nat, retry: nat, host: Readiness.Host)
      returns (ready: bool, trace: seq<Readiness.Event>, elapsed: nat)
      ensures var spec := Readiness.Run(host, timeout, retry);
        ready == spec.ready && trace == spec.trace && elapsed == spec.elapsed
    {
      var _, ping := SendPing(host.pingCode);
      if ping.Err? {
        return false, [Readiness.Pinged(false)], 0;
      }
      ghost var spec := Readiness.Run(host, timeout, retry);
      var clock: nat := 0;
      var startTime := clock;
      var lastRetryTime: nat := startTime;
      var polls: nat, sends: nat := 0, 0;
      trace := [Readiness.Pinged(true), Readiness.Slept(clock, Readiness.SettleMs)];
      clock := clock + Readiness.SettleMs;
      while clock - startTime < timeout
        invariant startTime == 0 && lastRetryTime <= clock
        invariant trace + Readiness.Loop(host, timeout, retry, polls, sends, clock, lastRetryTime).trace == spec.trace
        invariant Readiness.Loop(host, timeout, retry, polls, sends, clock, lastRetryTime).ready == spec.ready
        invariant Readiness.Loop(host, timeout, retry, polls, sends, clock, lastRetryTime).elapsed == spec.elapsed
        decreases timeout - clock
      {
        var _, running := IsRunningState(host.runningCode(polls));
        if running {
          trace := trace + [Readiness.Polled(clock, true)];
          return true, trace, clock;
        }
        ghost var trace0, now0, last0, sends0 := trace, clock, lastRetryTime, sends;
        ghost var resend := clock - lastRetryTime >= retry;
        ghost var okSend := resend && host.setModeCode(sends) == SUCCESS;
        ghost var d := Min(Readiness.PollMs, timeout - clock);
        trace := trace + [Readiness.Polled(clock, false)];
        var elapsedSinceRetry := clock - lastRetryTime;
        if elapsedSinceRetry >= retry {
          var _, enable := SetStreamingMode(true, host.setModeCode(sends));
          sends := sends + 1;
          trace := trace + [Readiness.Enabled(clock, enable.Ok?)];
          if enable.Ok? {
            lastRetryTime := clock;
          }
        }
        var remaining := timeout - (clock - startTime);
        if remaining > 0 {
          var pause := Min(Readiness.PollMs, remaining);
          trace := trace + [Readiness.Slept(clock, pause)];
          clock := clock + pause;
        } else {
          break;
        }
        assert trace == trace0 + Readiness.Round(now0, resend, okSend, d);
        Readiness.RoundPreserves(host, timeout, retry, polls, sends0, now0, last0, trace0, spec, sends, clock, lastRetryTime, trace);
        polls := polls + 1;
      }
      var _, running := IsRunningState(host.runningCode(polls));
      trace := trace + [Readiness.Polled(clock, running)];
      return running, trace, clock;
    }
  }
}
