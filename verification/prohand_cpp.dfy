/** The header-only C++ wrapper class prohand_sdk::ProHandClient: it owns the
    library handle, checks the handle and the argument sizes before each call,
    and turns every result code other than success into an SdkException. */
module ProHandCpp {
  import opened Outcomes
  import opened ProHandLib
  import Readiness

  /** The text checkResult appends after "<operation> failed: ". */
  datatype Reason = NullPointer | ConnectionFailed | InvalidArgument | NotConnected | Unknown(code: int)

  /** Every exception the wrapper throws. */
  datatype SdkException =
    | CreateFailed                    // "Failed to create ProHand client"
    | NullHandle                      // "Client handle is null"
    | WrongLength(rule: SizeRule)     // the size messages
    | Failed(operation: string, reason: Reason)

  /** The result code a reason reports. */
  function ReasonCode(reason: Reason): int
  {
    match reason
    case NullPointer => ERROR_NULL
    case ConnectionFailed => ERROR_CONNECTION
    case InvalidArgument => ERROR_INVALID_ARGUMENT
    case NotConnected => ERROR_NOT_CONNECTED
    case Unknown(c) => c
  }

  /** The switch of checkResult. It has no case for ERROR_UNSUPPORTED, which
      is therefore reported as an unknown error. */
  function Describe(code: int): (reason: Reason)
    requires code != SUCCESS
    ensures ReasonCode(reason) == code
    ensures reason.Unknown? <==>
      code != ERROR_NULL && code != ERROR_CONNECTION && code != ERROR_INVALID_ARGUMENT && code != ERROR_NOT_CONNECTED
  {
    if code == ERROR_NULL then NullPointer
    else if code == ERROR_CONNECTION then ConnectionFailed
    else if code == ERROR_INVALID_ARGUMENT then InvalidArgument
    else if code == ERROR_NOT_CONNECTED then NotConnected
    else Unknown(code)
  }

  /** checkResult: success passes, every other code throws. */
  function CheckResult(code: int, operation: string): (r: Result<(), SdkException>)
    ensures r.Ok? <==> code == SUCCESS
    ensures r.Err? ==> r.error.Failed? && r.error.operation == operation && ReasonCode(r.error.reason) == code
  {
    if code == SUCCESS then Ok(()) else Err(Failed(operation, Describe(code)))
  }

  /** Distinct failing codes are reported as distinct exceptions, and
      ERROR_UNSUPPORTED gets no reason of its own. */
  lemma CheckResultDistinguishes(c1: int, c2: int, operation: string)
    requires c1 != SUCCESS && c2 != SUCCESS && c1 != c2
    ensures CheckResult(c1, operation) != CheckResult(c2, operation)
    ensures CheckResult(ERROR_UNSUPPORTED, operation) == Err(Failed(operation, Unknown(ERROR_UNSUPPORTED)))
  {
    assert ReasonCode(CheckResult(c1, operation).error.reason) == c1;
  }

  /** What a guarded call does: the handle check first, then the size check,
      then the call and checkResult on its code. `sent` is the call made, if any. */
  function Guarded(hasHandle: bool, sizesOk: bool, rule: SizeRule, req: Request, code: int, operation: string)
    : (out: (Option<Request>, Result<(), SdkException>))
    ensures out.0.Some? <==> hasHandle && sizesOk
    ensures !hasHandle ==> out.1 == Err(NullHandle)
    ensures hasHandle && !sizesOk ==> out.1 == Err(WrongLength(rule))
    ensures out.0.Some? ==> out.0.value == req && out.1 == CheckResult(code, operation)
  {
    if !hasHandle then (None, Err(NullHandle))
    else if !sizesOk then (None, Err(WrongLength(rule)))
    else (Some(req), CheckResult(code, operation))
  }

  class ProHandClient {
    var handle: LibHandle?

    /** An owned handle has not been destroyed. */
    ghost predicate Valid()
      reads this, handle
    {
      handle != null ==> handle.live
    }

    /** The constructor: prohand_client_create answered `created`; a null
        answer throws. */
    static method Create(created: LibHandle?) returns (r: Result<ProHandClient, SdkException>)
      requires created != null ==> created.live
      ensures r.Ok? <==> created != null
      ensures r.Err? ==> r.error == CreateFailed
      ensures r.Ok? ==> fresh(r.value) && r.value.handle == created && r.value.Valid()
    {
      if created == null {
        return Err(CreateFailed);
      }
      var c := new ProHandClient.Adopt(created);
      return Ok(c);
    }

    constructor Adopt(h: LibHandle)
      ensures handle == h
    {
      handle := h;
    }

    /** The move constructor: takes the other client's handle and leaves it null. */
    constructor Move(other: ProHandClient)
      modifies other
      ensures handle == old(other.handle)
      ensures other.handle == null
    {
      handle := other.handle;
      new;
      other.handle := null;
    }

    /** Move assignment: unless both sides are the same object, the handle
        this client owned is destroyed and the other's handle is taken over. */
    method MoveAssign(other: ProHandClient)
      requires Valid() && other.Valid()
      requires this != other && handle != null ==> handle != other.handle
      modifies this, other, handle
      ensures this == other ==> handle == old(handle) && Valid()
      ensures this != other ==> handle == old(other.handle) && other.handle == null
      ensures this != other && old(handle) != null ==> !old(handle).live
      ensures Valid() && other.Valid()
    {
      if this != other {
        if handle != null {
          handle.live := false;
        }
        handle := other.handle;
        other.handle := null;
      }
    }

    /** The destructor: destroys an owned handle, once. */
    method Destroy()
      requires Valid()
      modifies this, handle
      ensures handle == null
      ensures old(handle) != null ==> !old(handle).live
    {
      if handle != null {
        handle.live := false;
        handle := null;
      }
    }

    /** isConnected: false without a handle, otherwise whether the library
        answered a non-zero `code`. */
    method IsConnected(code: int) returns (sent: Option<Request>, connected: bool)
      ensures sent.Some? <==> handle != null
      ensures sent.Some? ==> sent.value == Request.IsConnected
      ensures connected <==> handle != null && code != 0
    {
      if handle == null {
        return None, false;
      }
      return Some(Request.IsConnected), code != 0;
    }

    method SendPing(code: int) returns (sent: Option<Request>, r: Result<(), SdkException>)
      ensures (sent, r) == Guarded(handle != null, true, NoSizeCheck, Ping, code, "sendPing")
    {
      if handle == null {
        return None, Err(NullHandle);
      }
      return Some(Ping), CheckResult(code, "sendPing");
    }

    method SetStreamingMode(enabled: bool, code: int) returns (sent: Option<Request>, r: Result<(), SdkException>)
      ensures (sent, r) == Guarded(handle != null, true, NoSizeCheck,
                                   Request.SetStreamingMode(if enabled then 1 else 0), code, "setStreamingMode")
      ensures sent.Some? ==> sent.value.enabled == (if enabled then 1 else 0)
    {
      if handle == null {
        return None, Err(NullHandle);
      }
      return Some(Request.SetStreamingMode(if enabled then 1 else 0)), CheckResult(code, "setStreamingMode");
    }

    /** isRunningState: true only for the answer 1; error codes read as false. */
    method IsRunningState(code: int) returns (sent: Option<Request>, r: Result<bool, SdkException>)
      ensures sent.Some? <==> handle != null
      ensures sent.Some? ==> sent.value == Request.IsRunningState
      ensures handle == null ==> r == Err(NullHandle)
      ensures handle != null ==> r == Ok(code == 1)
    {
      if handle == null {
        return None, Err(NullHandle);
      }
      return Some(Request.IsRunningState), Ok(code == 1);
    }

    /** One send guarded by the handle check and a size check. */
    method Issue(sizesOk: bool, rule: SizeRule, req: Request, code: int, operation: string)
      returns (sent: Option<Request>, r: Result<(), SdkException>)
      ensures (sent, r) == Guarded(handle != null, sizesOk, rule, req, code, operation)
    {
      if handle == null {
        return None, Err(NullHandle);
      }
      if !sizesOk {
        return None, Err(WrongLength(rule));
      }
      return Some(req), CheckResult(code, operation);
    }

    method SetWristLimits(maxVelocity: seq<real>, maxAcceleration: seq<real>, maxJerk: seq<real>, code: int)
      returns (sent: Option<Request>, r: Result<(), SdkException>)
      ensures sent.Some? ==> FitsSignature(sent.value)
      ensures (sent, r) == Guarded(handle != null,
                                   |maxVelocity| == 2 && |maxAcceleration| == 2 && |maxJerk| == 2, WristLimits2,
                                   Request.SetWristLimits(maxVelocity, maxAcceleration, maxJerk), code, "setWristLimits")
    {
      sent, r := Issue(|maxVelocity| == 2 && |maxAcceleration| == 2 && |maxJerk| == 2, WristLimits2,
                       Request.SetWristLimits(maxVelocity, maxAcceleration, maxJerk), code, "setWristLimits");
    }

    method SendRotaryCommands(positions: seq<real>, torques: seq<real>, code: int)
      returns (sent: Option<Request>, r: Result<(), SdkException>)
      ensures sent.Some? ==> FitsSignature(sent.value)
      ensures (sent, r) == Guarded(handle != null, |positions| == 16 && |torques| == 16, PositionsAndTorques16,
                                   RotaryCommands(positions, torques), code, "sendRotaryCommands")
    {
      sent, r := Issue(|positions| == 16 && |torques| == 16, PositionsAndTorques16,
                       RotaryCommands(positions, torques), code, "sendRotaryCommands");
    }

    method SendLinearCommands(positions: seq<real>, speeds: seq<real>, code: int)
      returns (sent: Option<Request>, r: Result<(), SdkException>)
      ensures sent.Some? ==> FitsSignature(sent.value)
      ensures (sent, r) == Guarded(handle != null, |positions| == 2 && |speeds| == 2, PositionsAndSpeeds2,
                                   LinearCommands(positions, speeds), code, "sendLinearCommands")
    {
      sent, r := Issue(|positions| == 2 && |speeds| == 2, PositionsAndSpeeds2,
                       LinearCommands(positions, speeds), code, "sendLinearCommands");
    }

    method SendRotaryStreams(positions: seq<real>, torques: seq<real>, code: int)
      returns (sent: Option<Request>, r: Result<(), SdkException>)
      ensures sent.Some? ==> FitsSignature(sent.value)
      ensures (sent, r) == Guarded(handle != null, |positions| == 16 && |torques| == 16, PositionsAndTorques16,
                                   RotaryStreams(positions, torques), code, "sendRotaryStreams")
    {
      sent, r := Issue(|positions| == 16 && |torques| == 16, PositionsAndTorques16,
                       RotaryStreams(positions, torques), code, "sendRotaryStreams");
    }

    method SendLinearStreams(positions: seq<real>, speeds: seq<real>, code: int)
      returns (sent: Option<Request>, r: Result<(), SdkException>)
      ensures sent.Some? ==> FitsSignature(sent.value)
      ensures (sent, r) == Guarded(handle != null, |positions| == 2 && |speeds| == 2, PositionsAndSpeeds2,
                                   LinearStreams(positions, speeds), code, "sendLinearStreams")
    {
      sent, r := Issue(|positions| == 2 && |speeds| == 2, PositionsAndSpeeds2,
                       LinearStreams(positions, speeds), code, "sendLinearStreams");
    }

    method SendWristCommands(positions: seq<real>, useProfiler: bool, code: int)
      returns (sent: Option<Request>, r: Result<(), SdkException>)
      ensures sent.Some? ==> FitsSignature(sent.value)
      ensures (sent, r) == Guarded(handle != null, |positions| == 2, Positions2,
                                   WristCommand(positions, useProfiler), code, "sendWristCommands")
    {
      sent, r := Issue(|positions| == 2, Positions2, WristCommand(positions, useProfiler), code, "sendWristCommands");
    }

    method SendWristStreams(positions: seq<real>, useProfiler: bool, code: int)
      returns (sent: Option<Request>, r: Result<(), SdkException>)
      ensures sent.Some? ==> FitsSignature(sent.value)
      ensures (sent, r) == Guarded(handle != null, |positions| == 2, Positions2,
                                   WristStreams(positions, useProfiler), code, "sendWristStreams")
    {
      sent, r := Issue(|positions| == 2, Positions2, WristStreams(positions, useProfiler), code, "sendWristStreams");
    }

    method SendHandCommands(positions: seq<real>, torque: real, code: int)
      returns (sent: Option<Request>, r: Result<(), SdkException>)
      ensures sent.Some? ==> FitsSignature(sent.value)
      ensures (sent, r) == Guarded(handle != null, |positions| == 20, Positions20,
                                   HandCommand(positions, torque), code, "sendHandCommands")
    {
      sent, r := Issue(|positions| == 20, Positions20, HandCommand(positions, torque), code, "sendHandCommands");
    }

    method SendHandStreams(positions: seq<real>, torque: real, code: int)
      returns (sent: Option<Request>, r: Result<(), SdkException>)
      ensures sent.Some? ==> FitsSignature(sent.value)
      ensures (sent, r) == Guarded(handle != null, |positions| == 20, Positions20,
                                   HandStreams(positions, torque), code, "sendHandStreams")
    {
      sent, r := Issue(|positions| == 20, Positions20, HandStreams(positions, torque), code, "sendHandStreams");
    }

    /** sendZeroCalibration: the boolean mask is copied into a 16-entry
        integer buffer, 1 for a joint to calibrate and 0 otherwise. */
    method SendZeroCalibration(mask: seq<bool>, code: int)
      returns (sent: Option<Request>, r: Result<(), SdkException>)
      ensures (sent, r) == Guarded(handle != null, |mask| == 16, Mask16,
                                   ZeroCalibration(MaskBits(mask)), code, "sendZeroCalibration")
      ensures sent.Some? ==> FitsSignature(sent.value)
      ensures sent.Some? ==> MaskBools(sent.value.mask) == mask
    {
      if handle == null {
        return None, Err(NullHandle);
      }
      if |mask| != 16 {
        return None, Err(WrongLength(Mask16));
      }
      var intMask := new int[16];
      var i := 0;
      while i < 16
        invariant 0 <= i <= 16
        invariant forall k :: 0 <= k < i ==> intMask[k] == (if mask[k] then 1 else 0)
      {
        intMask[i] := if mask[i] then 1 else 0;
        i := i + 1;
      }
      assert intMask[..] == MaskBits(mask);
      MaskRoundTrip(mask);
      return Some(ZeroCalibration(intMask[..])), CheckResult(code, "sendZeroCalibration");
    }

    /** tryRecvStatus: a positive answer brings a status copied out of `info`,
        zero means nothing was waiting, a negative answer throws. */
    method TryRecvStatus(code: int, info: StatusInfo)
      returns (sent: Option<Request>, r: Result<Option<HandStatus>, SdkException>)
      ensures sent.Some? <==> handle != null
      ensures sent.Some? ==> sent.value == Request.TryRecvStatus
      ensures handle == null ==> r == Err(NullHandle)
      ensures handle != null && code > 0 ==> r == Ok(Some(ToHandStatus(info)))
      ensures handle != null && code == 0 ==> r == Ok(None)
      ensures handle != null && code < 0 ==> r.Err? && r.error == Failed("tryRecvStatus", Describe(code))
    {
      if handle == null {
        return None, Err(NullHandle);
      }
      if code > 0 {
        return Some(Request.TryRecvStatus), Ok(Some(ToHandStatus(info)));
      } else if code == 0 {
        return Some(Request.TryRecvStatus), Ok(None);
      }
      var check := CheckResult(code, "tryRecvStatus");
      return Some(Request.TryRecvStatus), Err(check.error);
    }

    /** waitForStreamingReady on the virtual clock: the loop of the source,
        proved to do what Readiness.Run describes. */
    method WaitForStreamingReady(timeout: nat, retry: nat, host: Readiness.Host)
      returns (r: Result<bool, SdkException>, trace: seq<Readiness.Event>, elapsed: nat)
      ensures handle == null ==> r == Err(NullHandle) && trace == [] && elapsed == 0
      ensures handle != null ==>
        var spec := Readiness.Run(host, timeout, retry);
        r == Ok(spec.ready) && trace == spec.trace && elapsed == spec.elapsed
    {
      if handle == null {
        return Err(NullHandle), [], 0;
      }
      var _, ping := SendPing(host.pingCode);
      if ping.Err? {
        return Ok(false), [Readiness.Pinged(false)], 0;
      }
      ghost var spec := Readiness.Run(host, timeout, retry);
      var start: nat := 0;
      var now: nat := start;
      var lastRetry: nat := start;
      var polls: nat, sends: nat := 0, 0;
      trace := [Readiness.Pinged(true), Readiness.Slept(now, Readiness.SettleMs)];
      now := now + Readiness.SettleMs;
      while true
        invariant start <= lastRetry <= now
        invariant trace + Readiness.Loop(host, timeout, retry, polls, sends, now, lastRetry).trace == spec.trace
        invariant Readiness.Loop(host, timeout, retry, polls, sends, now, lastRetry).ready == spec.ready
        invariant Readiness.Loop(host, timeout, retry, polls, sends, now, lastRetry).elapsed == spec.elapsed
        decreases timeout - now
      {
        var elapsedNow := now - start;
        if elapsedNow >= timeout {
          break;
        }
        var _, running := IsRunningState(host.runningCode(polls));
        if running.value {
          trace := trace + [Readiness.Polled(now, true)];
          return Ok(true), trace, now;
        }
        ghost var trace0, now0, last0, sends0 := trace, now, lastRetry, sends;
        ghost var resend := now - lastRetry >= retry;
        ghost var okSend := resend && host.setModeCode(sends) == SUCCESS;
        ghost var d := Min(Readiness.PollMs, timeout - now);
        trace := trace + [Readiness.Polled(now, false)];
        if now - lastRetry >= retry {
          var _, enable := SetStreamingMode(true, host.setModeCode(sends));
          sends := sends + 1;
          trace := trace + [Readiness.Enabled(now, enable.Ok?)];
          if enable.Ok? {
            lastRetry := now;
          }
        }
        var remaining := timeout - elapsedNow;
        if remaining > 0 {
          var pause := Min(Readiness.PollMs, remaining);
          trace := trace + [Readiness.Slept(now, pause)];
          now := now + pause;
        } else {
          break;
        }
        assert trace == trace0 + Readiness.Round(now0, resend, okSend, d);
        Readiness.RoundPreserves(host, timeout, retry, polls, sends0, now0, last0, trace0, spec, sends, now, lastRetry, trace);
        polls := polls + 1;
      }
      var _, running := IsRunningState(host.runningCode(polls));
      trace := trace + [Readiness.Polled(now, running.value)];
      return Ok(running.value), trace, now;
    }
  }
}
