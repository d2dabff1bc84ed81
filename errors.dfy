/**
 * Error values of the SDK: the `ErrorData` record that error subscribers
 * receive, the `SparkMessagingError` class, and the normalisation that
 * `ErrorHandler.handleError` applies to whatever it is given.
 */
module Errors {
  import opened Wrappers

  const UNKNOWN_ERROR := "UNKNOWN_ERROR"
  const INVALID_OPTIONS := "INVALID_OPTIONS"
  const CONNECTION_ERROR := "CONNECTION_ERROR"
  const CONNECTION_FAILED := "CONNECTION_FAILED"
  const SERVER_DISCONNECT := "SERVER_DISCONNECT"
  const SOCKET_ERROR := "SOCKET_ERROR"
  const NOT_INITIALIZED := "NOT_INITIALIZED"
  const NOT_CONNECTED := "NOT_CONNECTED"
  const SEND_MESSAGE_FAILED := "SEND_MESSAGE_FAILED"
  const SEND_ROOM_MESSAGE_FAILED := "SEND_ROOM_MESSAGE_FAILED"
  const AUTO_CONNECT_FAILED := "AUTO_CONNECT_FAILED"
  const AUTHENTICATION_FAILED := "AUTHENTICATION_FAILED"

  /** The message of the plain `Error` the handlers throw or reject with when their socket is down. */
  const SOCKET_NOT_CONNECTED := "Socket is not connected"

  /** The `details` an error may carry: an opaque value the SDK never inspects. */
  type Details = nat

  /** The record handed to error subscribers. */
  datatype ErrorData = ErrorData(message: string, code: Option<string>, statusCode: Option<int>, details: Option<Details>)

  /** An `ErrorData` carrying only a message and a code, as the SDK builds them. */
  function Coded(message: string, code: string): ErrorData {
    ErrorData(message, Some(code), None, None)
  }

  /** A constructed `SparkMessagingError`; its fields are read-only. */
  datatype SparkError = SparkError(name: string, message: string, code: string, statusCode: Option<int>, details: Option<Details>)

  /** What the `SparkMessagingError` constructor accepts. */
  datatype ErrorSource = FromMessage(text: string) | FromData(data: ErrorData)

  /** A value thrown or passed to `reject`: a plain `Error` or a `SparkMessagingError`. */
  datatype JsError = PlainError(text: string) | SparkErr(error: SparkError) {
    function Message(): string {
      match this
      case PlainError(m) => m
      case SparkErr(e) => e.message
    }
  }

  /** Any thrown value; only an `Error` instance has a class and a message. */
  datatype Thrown = Threw(error: JsError) | ThrewNonError

  /** The outcome of a call that may throw, or of a promise: it completed, or failed with an error. */
  datatype Outcome = Done | Failed(error: JsError)

  /** What `ErrorHandler.handleError` accepts. */
  datatype Raised = RaisedString(text: string) | RaisedError(error: JsError) | RaisedData(data: ErrorData)

  /** `new SparkMessagingError(source)`. */
  function NewSparkError(source: ErrorSource): (e: SparkError)
    ensures e.name == "SparkMessagingError"
    ensures e.code != ""
    ensures source.FromMessage? ==>
      e.message == source.text && e.code == UNKNOWN_ERROR && e.statusCode == None && e.details == None
    ensures source.FromData? ==>
      && e.message == source.data.message
      && e.statusCode == source.data.statusCode
      && e.details == source.data.details
      && e.code == (if Truthy(source.data.code) then source.data.code.value else UNKNOWN_ERROR)
  {
    match source
    case FromMessage(m) => SparkError("SparkMessagingError", m, UNKNOWN_ERROR, None, None)
    case FromData(d) => SparkError("SparkMessagingError", d.message, Or(d.code, UNKNOWN_ERROR), d.statusCode, d.details)
  }

  /** The error the SDK throws for a failure with a symbolic code. */
  function CodedError(message: string, code: string): (e: JsError)
    requires code != ""
    ensures e.SparkErr? && e.error.code == code && e.Message() == message
  {
    SparkErr(NewSparkError(FromData(Coded(message, code))))
  }

  /** `SparkMessagingError.toErrorData()`. */
  function ToErrorData(e: SparkError): (d: ErrorData)
    ensures d.message == e.message && d.code == Some(e.code)
    ensures d.statusCode == e.statusCode && d.details == e.details
  {
    ErrorData(e.message, Some(e.code), e.statusCode, e.details)
  }

  /** Constructing from an `ErrorData` and converting back gives it back exactly when it has a non-empty code. */
  lemma ErrorDataRoundTrip(d: ErrorData)
    ensures ToErrorData(NewSparkError(FromData(d))) == d <==> Truthy(d.code)
  {
    if !Truthy(d.code) {
      assert ToErrorData(NewSparkError(FromData(d))).code == Some(UNKNOWN_ERROR) != d.code;
    }
  }

  /** Converting to `ErrorData` and constructing again rebuilds the same error. */
  lemma SparkErrorRoundTrip(e: SparkError)
    requires e.name == "SparkMessagingError" && e.code != ""
    ensures NewSparkError(FromData(ToErrorData(e))) == e
  {
  }

  /** `SparkMessagingError.isConnectionError(value)`. */
  predicate IsConnectionError(value: Thrown)
    ensures IsConnectionError(value) ==> value.Threw? && value.error.SparkErr?
    ensures IsConnectionError(value) ==> value.error.error.code != AUTHENTICATION_FAILED
  {
    value.Threw? && value.error.SparkErr? && value.error.error.code in {CONNECTION_ERROR, CONNECTION_FAILED}
  }

  /** `SparkMessagingError.isAuthenticationError(value)`. */
  predicate IsAuthenticationError(value: Thrown)
    ensures IsAuthenticationError(value) ==> value.Threw? && value.error.SparkErr?
    ensures IsAuthenticationError(value) ==> value.error.error.code !in {CONNECTION_ERROR, CONNECTION_FAILED}
  {
    value.Threw? && value.error.SparkErr? && value.error.error.code == AUTHENTICATION_FAILED
  }

  /** The two classifications never both hold, and neither holds of a plain `Error` or a non-error. */
  lemma ClassificationsDisjoint(value: Thrown)
    ensures !(IsConnectionError(value) && IsAuthenticationError(value))
    ensures (value.ThrewNonError? || value.error.PlainError?) ==> !IsConnectionError(value) && !IsAuthenticationError(value)
  {
  }

  /** A connection error is recognised from its code alone, whatever its message. */
  lemma ConnectionErrorByCode(message: string, code: string)
    requires code != ""
    ensures IsConnectionError(Threw(CodedError(message, code))) <==> code == CONNECTION_ERROR || code == CONNECTION_FAILED
    ensures IsAuthenticationError(Threw(CodedError(message, code))) <==> code == AUTHENTICATION_FAILED
  {
  }

  /** The normalisation at the top of `ErrorHandler.handleError`. */
  function Normalize(raised: Raised): (d: ErrorData)
    ensures raised.RaisedData? ==> d == raised.data
    ensures raised.RaisedString? ==> d == ErrorData(raised.text, None, None, None)
    ensures raised.RaisedError? ==> d == ErrorData(raised.error.Message(), None, None, None)
  {
    match raised
    case RaisedString(s) => ErrorData(s, None, None, None)
    case RaisedError(e) => ErrorData(e.Message(), None, None, None)
    case RaisedData(d) => d
  }

  /**
   * A `SparkMessagingError` passed as an `Error` loses its code, its status
   * and its details; passed through `toErrorData()` it keeps them.
   */
  lemma HandleErrorDropsSparkCode(e: SparkError)
    requires e.code != ""
    ensures Normalize(RaisedError(SparkErr(e))).code == None
    ensures Normalize(RaisedData(ToErrorData(e))).code == Some(e.code)
    ensures Normalize(RaisedError(SparkErr(e))) != Normalize(RaisedData(ToErrorData(e)))
  {
  }

  /** What the auto-connect `catch` in the SDK constructor reports for a failed connect. */
  function AutoConnectReport(error: JsError): (d: ErrorData)
    ensures error.SparkErr? ==> d == ToErrorData(error.error)
    ensures error.PlainError? ==>
      d == Coded(if error.text != "" then error.text else "Auto-connect failed", AUTO_CONNECT_FAILED)
  {
    var spark :=
      match error
      case SparkErr(e) => e
      case PlainError(m) => NewSparkError(FromData(Coded(Or(Some(m), "Auto-connect failed"), AUTO_CONNECT_FAILED)));
    ToErrorData(spark)
  }
}
