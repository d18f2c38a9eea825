/** The header-only C++ wrapper class proglove_sdk::ProGloveClient. */
module ProGloveCpp {
  import opened Outcomes
  import opened ProGloveLib

  /** The text checkResult appends after "<operation> failed: "; unlike the
      ProHand wrapper, this one names ERROR_UNSUPPORTED. */
  datatype Reason = NullPointer | ConnectionFailed | InvalidArgument | NotConnected | Unsupported | Unknown(code: int)

  datatype SdkException =
    | CreateFailed(endpoint: string)  // "Failed to create ProGlove client for endpoint: ..."
    | NullHandle                      // "Client handle is null"
    | Failed(operation: string, reason: Reason)

  function ReasonCode(reason: Reason): int
  {
    match reason
    case NullPointer => ERROR_NULL
    case ConnectionFailed => ERROR_CONNECTION
    case InvalidArgument => ERROR_INVALID_ARGUMENT
    case NotConnected => ERROR_NOT_CONNECTED
    case Unsupported => ERROR_UNSUPPORTED
    case Unknown(c) => c
  }

  function Describe(code: int): (reason: Reason)
    requires code != SUCCESS
    ensures ReasonCode(reason) == code
    ensures reason.Unknown? <==>
      code !in {ERROR_NULL, ERROR_CONNECTION, ERROR_INVALID_ARGUMENT, ERROR_NOT_CONNECTED, ERROR_UNSUPPORTED}
  {
    if code == ERROR_NULL then NullPointer
    else if code == ERROR_CONNECTION then ConnectionFailed
    else if code == ERROR_INVALID_ARGUMENT then InvalidArgument
    else if code == ERROR_NOT_CONNECTED then NotConnected
    else if code == ERROR_UNSUPPORTED then Unsupported
    else Unknown(code)
  }

  function CheckResult(code: int, operation: string): (r: Result<(), SdkException>)
    ensures r.Ok? <==> code == SUCCESS
    ensures r.Err? ==> r.error.Failed? && r.error.operation == operation && ReasonCode(r.error.reason) == code
  {
    if code == SUCCESS then Ok(()) else Err(Failed(operation, Describe(code)))
  }

  class ProGloveClient {
    var handle: LibHandle?

    ghost predicate Valid()
      reads this, handle
    {
      handle != null ==> handle.live
    }

    /** The constructor: a null answer from proglove_client_create throws. */
    static method Create(created: LibHandle?, endpoint: string) returns (r: Result<ProGloveClient, SdkException>)
      requires created != null ==> created.live
      ensures r.Ok? <==> created != null
      ensures r.Err? ==> r.error == CreateFailed(endpoint)
      ensures r.Ok? ==> fresh(r.value) && r.value.handle == created && r.value.Valid()
    {
      if created == null {
        return Err(CreateFailed(endpoint));
      }
      var c := new ProGloveClient.Adopt(created);
      return Ok(c);
    }

    constructor Adopt(h: LibHandle)
      ensures handle == h
    {
      handle := h;
    }

    constructor Move(other: ProGloveClient)
      modifies other
      ensures handle == old(other.handle)
      ensures other.handle == null
    {
      handle := other.handle;
      new;
      other.handle := null;
    }

    method MoveAssign(other: ProGloveClient)
      requires Valid() && other.Valid()
      requires this != other && handle != null ==> handle != other.handle
      modifies this, other, handle
      ensures this == other ==> handle == old(handle)
      ensures this != other ==> handle == old(other.handle) && other.handle == null
      ensures this != other && old(handle) != null ==> !old(handle).live
      ensures Valid() && other.Valid()
    {
      if this != other {
        if handle != null {
          handle.live := false;
        }
        handle := other.handle;
        other.handle := null;
      }
    }

    method Destroy()
      requires Valid()
      modifies this, handle
      ensures handle == null
      ensures old(handle) != null ==> !old(handle).live
    {
      if handle != null {
        handle.live := false;
        handle := null;
      }
    }

    method IsConnected(code: int) returns (sent: Option<Request>, connected: bool)
      ensures sent.Some? <==> handle != null
      ensures sent.Some? ==> sent.value == Request.IsConnected
      ensures connected <==> handle != null && code != 0
    {
      if handle == null {
        return None, false;
      }
      return Some(Request.IsConnected), code != 0;
    }

    /** sendPing: only a negative answer is checked, so a positive one passes
        as success. */
    method SendPing(code: int) returns (sent: Option<Request>, r: Result<(), SdkException>)
      ensures sent.Some? <==> handle != null
      ensures sent.Some? ==> sent.value == Ping
      ensures handle == null ==> r == Err(NullHandle)
      ensures handle != null ==> (r.Ok? <==> code >= 0)
      ensures handle != null && code < 0 ==> r == CheckResult(code, "sendPing")
    {
      if handle == null {
        return None, Err(NullHandle);
      }
      sent := Some(Ping);
      r := Ok(());
      if code < 0 {
        r := CheckResult(code, "sendPing");
      }
    }

    /** tryRecvStatus: positive brings the unpacked record, zero nothing,
        negative throws. */
    method TryRecvStatus(code: int, info: TactileStatusInfo)
      returns (sent: Option<Request>, r: Result<Option<TactileStatus>, SdkException>)
      ensures sent.Some? <==> handle != null
      ensures sent.Some? ==> sent.value == Request.TryRecvStatus
      ensures handle == null ==> r == Err(NullHandle)
      ensures handle != null && code > 0 ==> r.Ok? && r.value.Some? && Flatten(r.value.value) == info.taxels
                                              && r.value.value == Unpack(info)
      ensures handle != null && code == 0 ==> r == Ok(None)
      ensures handle != null && code < 0 ==> r.Err? && Err(r.error) == CheckResult(code, "tryRecvStatus")
    {
      if handle == null {
        return None, Err(NullHandle);
      }
      sent := Some(Request.TryRecvStatus);
      if code > 0 {
        FlattenUnpack(info);
        r := Ok(Some(Unpack(info)));
      } else if code == 0 {
        r := Ok(None);
      } else {
        var check := CheckResult(code, "tryRecvStatus");
        r := Err(check.error);
      }
    }
  }
}
