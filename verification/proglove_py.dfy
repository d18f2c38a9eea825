/** The ctypes wrapper proglove_sdk.ProGloveClient of the Python package. */
module ProGlovePy {
  import opened Outcomes
  import opened ProGloveLib
  import ProGloveCpp

  /** ConnectionError and InvalidArgumentError derive from ProGloveError. */
  datatype ErrorClass = ProGloveError | ConnectionError | InvalidArgumentError

  datatype Message =
    | CreateFailed(endpoint: string)  // "Failed to create ProGlove client for endpoint: ..."
    | ClientClosed                    // "Client is closed"
    | Failed(operation: string, reason: ProGloveCpp.Reason)

  datatype PyError = PyError(cls: ErrorClass, message: Message)

  /** _check_result: success returns, every other code raises; the reasons
      are the C++ wrapper's, the classes split out connection problems and
      rejected arguments. */
  function CheckResult(code: int, operation: string): (r: Result<(), PyError>)
    ensures r.Ok? <==> code == SUCCESS
    ensures r.Err? ==> r.error.message.Failed? && r.error.message.operation == operation
    ensures r.Err? ==> ProGloveCpp.ReasonCode(r.error.message.reason) == code
    ensures r.Err? ==> (r.error.cls == ConnectionError <==> code == ERROR_CONNECTION || code == ERROR_NOT_CONNECTED)
    ensures r.Err? ==> (r.error.cls == InvalidArgumentError <==> code == ERROR_INVALID_ARGUMENT)
  {
    if code == SUCCESS then Ok(())
    else if code == ERROR_NULL then Err(PyError(ProGloveError, Failed(operation, ProGloveCpp.NullPointer)))
    else if code == ERROR_CONNECTION then Err(PyError(ConnectionError, Failed(operation, ProGloveCpp.ConnectionFailed)))
    else if code == ERROR_INVALID_ARGUMENT then Err(PyError(InvalidArgumentError, Failed(operation, ProGloveCpp.InvalidArgument)))
    else if code == ERROR_NOT_CONNECTED then Err(PyError(ConnectionError, Failed(operation, ProGloveCpp.NotConnected)))
    else if code == ERROR_UNSUPPORTED then Err(PyError(ProGloveError, Failed(operation, ProGloveCpp.Unsupported)))
    else Err(PyError(ProGloveError, Failed(operation, ProGloveCpp.Unknown(code))))
  }

  /** The Python and C++ ProGlove wrappers report every failing code with the
      same reason. */
  lemma WrappersAgree(code: int, operation: string)
    ensures CheckResult(code, operation).Ok? <==> ProGloveCpp.CheckResult(code, operation).Ok?
    ensures code != SUCCESS ==>
      CheckResult(code, operation).error.message.reason == ProGloveCpp.CheckResult(code, operation).error.reason
  {
  }

  class ProGloveClient {
    var handle: LibHandle?
    var closed: bool

    ghost predicate Valid()
      reads this, handle
    {
      (!closed ==> handle != null && handle.live) && (closed ==> handle == null)
    }

    static method Create(created: LibHandle?, endpoint: string) returns (r: Result<ProGloveClient, PyError>)
      requires created != null ==> created.live
      ensures r.Ok? <==> created != null
      ensures r.Err? ==> r.error == PyError(ConnectionError, CreateFailed(endpoint))
      ensures r.Ok? ==> fresh(r.value) && r.value.handle == created && !r.value.closed && r.value.Valid()
    {
      if created == null {
        return Err(PyError(ConnectionError, CreateFailed(endpoint)));
      }
      var c := new ProGloveClient.Adopt(created);
      return Ok(c);
    }

    constructor Adopt(h: LibHandle)
      ensures handle == h && !closed
    {
      handle := h;
      closed := false;
    }

    method Close()
      requires Valid()
      modifies this, handle
      ensures Valid() && closed && handle == null
      ensures !old(closed) ==> !old(handle).live
      ensures old(closed) ==> unchanged(this)
    {
      if !closed && handle != null {
        handle.live := false;
        handle := null;
        closed := true;
      }
    }

    method IsConnected(code: int) returns (sent: Option<Request>, connected: bool)
      ensures sent.Some? <==> !closed
      ensures sent.Some? ==> sent.value == Request.IsConnected
      ensures connected <==> !closed && code != 0
    {
      if closed {
        return None, false;
      }
      return Some(Request.IsConnected), code != 0;
    }

    /** send_ping: refused without a call once closed; otherwise only a
        negative answer raises. */
    method SendPing(code: int) returns (sent: Option<Request>, r: Result<(), PyError>)
      ensures sent.Some? <==> !closed
      ensures sent.Some? ==> sent.value == Ping
      ensures closed ==> r == Err(PyError(ConnectionError, ClientClosed))
      ensures !closed ==> (r.Ok? <==> code >= 0)
      ensures !closed && code < 0 ==> r == CheckResult(code, "send_ping")
    {
      if closed {
        return None, Err(PyError(ConnectionError, ClientClosed));
      }
      sent := Some(Ping);
      r := Ok(());
      if code < 0 {
        r := CheckResult(code, "send_ping");
      }
    }

    /** try_recv_status: no closed check; positive brings the unpacked record,
        zero nothing, negative raises. */
    method TryRecvStatus(code: int, info: TactileStatusInfo)
      returns (sent: Option<Request>, r: Result<Option<TactileStatus>, PyError>)
      ensures sent == Some(Request.TryRecvStatus)
      ensures code > 0 ==> r.Ok? && r.value.Some? && Flatten(r.value.value) == info.taxels
                           && r.value.value == Unpack(info)
      ensures code == 0 ==> r == Ok(None)
      ensures code < 0 ==> r.Err? && Err(r.error) == CheckResult(code, "try_recv_status")
    {
      sent := Some(Request.TryRecvStatus);
      if code > 0 {
        FlattenUnpack(info);
        r := Ok(Some(Unpack(info)));
      } else if code == 0 {
        r := Ok(None);
      } else {
        var check := CheckResult(code, "try_recv_status");
        r := Err(check.error);
      }
    }
  }
}
