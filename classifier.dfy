/**
  The error classifier of whatnetwork: a closed taxonomy of basic failure
  reasons and the decision tree that maps the shape of an HTTP/network error
  onto it.
 */
module Classifier {

  /** The taxonomy of basic failure reasons (Go's `BasicErrorType`). */
  datatype BasicErrorType =
    | CantResolveHost
    | CantFindHost
    | CantConnectToHost
    | UnexpectedEof
    | BadDataReceived
    | Unknown
  {
    /**
      The string the Go constant holds; it doubles as the error text. It is
      never empty and is shorter than both texts the classifier looks for.
     */
    function Name(): (s: string)
      ensures s != ""
      ensures |s| < |HttpMalformedPrefix| < |TransportErrClosed|
    {
      match this
      case CantResolveHost => "CantResolveHost"
      case CantFindHost => "CantFindHost"
      case CantConnectToHost => "CantConnectToHost"
      case UnexpectedEof => "UnexpectedEof"
      case BadDataReceived => "BadDataReceived"
      case Unknown => "Unknown"
    }

    /** The categories that mean the host could not be reached at all. */
    predicate IsConnectivity() {
      this == CantResolveHost || this == CantFindHost || this == CantConnectToHost
    }
  }

  /**
    The shapes of Go error values the classifier can tell apart.
    - `UrlErr` is a `*url.Error` (operation, URL, wrapped error);
    - `OpErr` is a `*net.OpError` (operation label, network, wrapped error);
    - `SyscallErr` is an `*os.SyscallError` (system call name, wrapped error);
    - `Eof` is the `io.EOF` sentinel itself;
    - `Other` is any other error, seen only through its message;
    - `Basic` is a `BasicError` already produced by the classifier.
   */
  datatype Error =
    | UrlErr(op: string, url: string, err: Error)
    | OpErr(op: string, net: string, err: Error)
    | SyscallErr(syscall: string, err: Error)
    | Eof
    | Other(msg: string)
    | Basic(basic: BasicError)

  /** A classified error: its category and the error it was computed from. */
  datatype BasicError = BasicError(kind: BasicErrorType, cause: Error)

  /** Unexported error text of net/http's transport. */
  const TransportErrClosed: string := "net/http: transport closed before response was received"

  /** Unexported prefix of net/http's malformed-response errors. */
  const HttpMalformedPrefix: string := "malformed HTTP response"

  /**
    The text `err.Error()` returns. For a `BasicError` it is the category
    name; a wrapping error's text ends with ": " and the wrapped error's text.
   */
  function Message(e: Error): (m: string)
    ensures e.Basic? ==> m == e.basic.kind.Name()
    ensures e.Other? ==> m == e.msg
    ensures (e.UrlErr? || e.OpErr? || e.SyscallErr?) ==>
              var tail := ": " + Message(e.err);
              |tail| <= |m| && m[|m| - |tail|..] == tail
  {
    match e
    case UrlErr(op, url, inner) => op + " " + url + ": " + Message(inner)
    case OpErr(op, net, inner) => op + (if net == "" then "" else " " + net) + ": " + Message(inner)
    case SyscallErr(syscall, inner) => syscall + ": " + Message(inner)
    case Eof => "EOF"
    case Other(msg) => msg
    case Basic(b) => b.kind.Name()
  }

  /** True when `e` is a `*net.OpError` whose operation label is `op`. */
  predicate IsOp(e: Error, op: string) {
    e.OpErr? && e.op == op
  }

  /** A dial that failed inside a `ConnectEx` operation. */
  predicate DialViaConnectEx(e: Error) {
    IsOp(e, "dial") && IsOp(e.err, "ConnectEx")
  }

  /** A dial that failed inside the `GetAddrInfoW` system call. */
  predicate DialViaGetAddrInfo(e: Error) {
    IsOp(e, "dial") && e.err.SyscallErr? && e.err.syscall == "GetAddrInfoW"
  }

  /** An error that is neither a `*url.Error` nor a `*net.OpError`: only these reach the sentinel and text tests. */
  predicate IsPlain(e: Error) {
    !e.UrlErr? && !e.OpErr?
  }

  /**
    Go's `ExtractBasicError`: classify `err` by its shape, keeping `err` as
    the cause. Structural tests come first; an error that is a `*url.Error`
    or a `*net.OpError` is never judged by its text.
   */
  function ExtractBasicError(err: Error): (b: BasicError)
    ensures b.cause == err
    ensures !IsPlain(err) ==> b.kind != BadDataReceived
    ensures err.UrlErr? ==> b.kind != UnexpectedEof
  {
    var kind :=
      match err
      case UrlErr(_, _, OpErr(op, _, inner)) =>
        if op == "dial" then
          (if inner.OpErr? && inner.op == "ConnectEx" then CantConnectToHost else CantResolveHost)
        else if op == "local error" then CantFindHost
        else Unknown
      case UrlErr(_, _, _) => Unknown
      case OpErr(op, _, inner) =>
        if op == "dial" then
          (match inner
           case SyscallErr(syscall, _) => if syscall == "GetAddrInfoW" then CantResolveHost else Unknown
           case OpErr(op2, _, _) => if op2 == "ConnectEx" then CantConnectToHost else Unknown
           case _ => Unknown)
        else if op == "WSARecv" then UnexpectedEof
        else Unknown
      case _ =>
        if err == Eof then UnexpectedEof
        else if Message(err) == TransportErrClosed then UnexpectedEof
        else if HttpMalformedPrefix <= Message(err) then BadDataReceived
        else Unknown;
    BasicError(kind, err)
  }

  /**
    Go's `IsConnectionError`: an error that already is a `BasicError` is
    judged by its own category; any other error is classified first.
   */
  function IsConnectionError(err: Error): (r: bool)
    ensures err.Basic? ==> (r <==> err.basic.kind.IsConnectivity())
    ensures !err.Basic? ==> (r <==> ExtractBasicError(err).kind.IsConnectivity())
  {
    var basic := if err.Basic? then err.basic else ExtractBasicError(err);
    match basic.kind
    case CantResolveHost => true
    case CantFindHost => true
    case CantConnectToHost => true
    case _ => false
  }

  // ---------------------------------------------------------------------
  // What each category means: for every category, exactly which error
  // shapes the classifier maps onto it.
  // ---------------------------------------------------------------------

  /** `CantConnectToHost` is exactly a dial that failed in `ConnectEx`, bare or inside a `*url.Error`. */
  lemma KindCantConnectToHost(e: Error)
    ensures ExtractBasicError(e).kind == CantConnectToHost <==>
              DialViaConnectEx(e) || (e.UrlErr? && DialViaConnectEx(e.err))
  {
  }

  /**
    `CantResolveHost` is exactly a `*url.Error` around any dial that did not
    fail in `ConnectEx`, or a bare dial that failed in `GetAddrInfoW`.
   */
  lemma KindCantResolveHost(e: Error)
    ensures ExtractBasicError(e).kind == CantResolveHost <==>
              (e.UrlErr? && IsOp(e.err, "dial") && !IsOp(e.err.err, "ConnectEx")) || DialViaGetAddrInfo(e)
  {
  }

  /** `CantFindHost` is exactly a `*url.Error` around a "local error" operation. */
  lemma KindCantFindHost(e: Error)
    ensures ExtractBasicError(e).kind == CantFindHost <==> e.UrlErr? && IsOp(e.err, "local error")
  {
  }

  /**
    `UnexpectedEof` is exactly a bare "WSARecv" operation, the `io.EOF`
    sentinel, or a plain error whose text is the transport-closed message.
   */
  lemma KindUnexpectedEof(e: Error)
    ensures ExtractBasicError(e).kind == UnexpectedEof <==>
              IsOp(e, "WSARecv") || e == Eof || (IsPlain(e) && Message(e) == TransportErrClosed)
  {
  }

  /** `BadDataReceived` is exactly a plain error, other than `io.EOF`, whose text starts with the malformed-response prefix. */
  lemma KindBadDataReceived(e: Error)
    ensures ExtractBasicError(e).kind == BadDataReceived <==>
              IsPlain(e) && e != Eof && HttpMalformedPrefix <= Message(e)
  {
    if HttpMalformedPrefix <= Message(e) {
      MalformedIsNotTransportClosed(Message(e));
    }
  }

  /** A malformed-response text is never the transport-closed text, so the two text tests never compete. */
  lemma MalformedIsNotTransportClosed(s: string)
    requires HttpMalformedPrefix <= s
    ensures s != TransportErrClosed
  {
    TransportClosedStartsWithN();
    assert HttpMalformedPrefix[0] == 'm';
    assert s[0] == HttpMalformedPrefix[0];
  }

  /** The transport-closed text starts with 'n', so no malformed-response text can equal it. */
  lemma TransportClosedStartsWithN()
    ensures |TransportErrClosed| > 0 && TransportErrClosed[0] == 'n'
  {
    var head, tail := "net/http: transport", " closed before response was received";
    assert TransportErrClosed == head + tail;
    assert (head + tail)[0] == head[0];
  }

  /**
    `Unknown` is the fallback of each branch: a `*url.Error` around anything
    but a "dial" or "local error" operation; a bare operation that is neither
    a recognised dial nor "WSARecv"; a plain error matching no sentinel or text.
   */
  lemma KindUnknown(e: Error)
    ensures e.UrlErr? ==>
              (ExtractBasicError(e).kind == Unknown <==> !IsOp(e.err, "dial") && !IsOp(e.err, "local error"))
    ensures e.OpErr? ==>
              (ExtractBasicError(e).kind == Unknown <==>
                 !DialViaConnectEx(e) && !DialViaGetAddrInfo(e) && e.op != "WSARecv")
    ensures IsPlain(e) ==>
              (ExtractBasicError(e).kind == Unknown <==>
                 e != Eof && Message(e) != TransportErrClosed && !(HttpMalformedPrefix <= Message(e)))
  {
  }

  // ---------------------------------------------------------------------
  // Precedence of structure over text.
  // ---------------------------------------------------------------------

  /**
    The category of a `*url.Error` depends only on the error it wraps: its
    operation, URL and hence its whole message are never consulted.
   */
  lemma UrlErrIgnoresMessage(op1: string, url1: string, op2: string, url2: string, inner: Error)
    ensures ExtractBasicError(UrlErr(op1, url1, inner)).kind == ExtractBasicError(UrlErr(op2, url2, inner)).kind
  {
  }

  /**
    A dial that failed in `ConnectEx` is `CantConnectToHost` even when the
    enclosing `*url.Error`'s message starts with the malformed-response prefix.
   */
  lemma StructureBeforeText(url: string, net: string, cause: Error)
    ensures HttpMalformedPrefix <= Message(UrlErr(HttpMalformedPrefix, url, OpErr("dial", net, OpErr("ConnectEx", net, cause))))
    ensures ExtractBasicError(UrlErr(HttpMalformedPrefix, url, OpErr("dial", net, OpErr("ConnectEx", net, cause)))).kind
              == CantConnectToHost
  {
  }

  /**
    Inside a `*url.Error` every dial defaults to `CantResolveHost`, but a
    bare dial whose inner error is neither `GetAddrInfoW` nor `ConnectEx`
    falls through to `Unknown`.
   */
  lemma DialFallbackDependsOnWrapper(op: string, url: string, net: string, inner: Error)
    requires !(inner.SyscallErr? && inner.syscall == "GetAddrInfoW")
    requires !IsOp(inner, "ConnectEx")
    ensures ExtractBasicError(UrlErr(op, url, OpErr("dial", net, inner))).kind == CantResolveHost
    ensures ExtractBasicError(OpErr("dial", net, inner)).kind == Unknown
  {
  }

  // ---------------------------------------------------------------------
  // Re-classification and IsConnectionError.
  // ---------------------------------------------------------------------

  /** No category name is the transport-closed text or starts with the malformed-response prefix. */
  lemma NameIsNoKnownText(k: BasicErrorType)
    ensures k.Name() != TransportErrClosed
    ensures !(HttpMalformedPrefix <= k.Name())
  {
  }

  /**
    Classifying a `BasicError` again always gives `Unknown`, since its text
    is just its category name; this is why `IsConnectionError` reuses the
    category of a `BasicError` instead of re-extracting it.
   */
  lemma ReExtractIsUnknown(b: BasicError)
    ensures ExtractBasicError(Basic(b)).kind == Unknown
  {
  }

  /**
    `IsConnectionError` holds exactly for a `BasicError` of a connectivity
    category, for a `*url.Error` around a "dial" or "local error" operation,
    and for a bare dial that failed in `ConnectEx` or `GetAddrInfoW`.
   */
  lemma IsConnectionErrorShapes(e: Error)
    ensures IsConnectionError(e) <==>
              (e.Basic? && e.basic.kind.IsConnectivity())
              || (e.UrlErr? && (IsOp(e.err, "dial") || IsOp(e.err, "local error")))
              || DialViaConnectEx(e)
              || DialViaGetAddrInfo(e)
  {
  }

  /**
    Wrapping the classification of a non-`BasicError` in a `BasicError`
    does not change whether it is a connection error.
   */
  lemma IsConnectionErrorStable(e: Error)
    requires !e.Basic?
    ensures IsConnectionError(Basic(ExtractBasicError(e))) == IsConnectionError(e)
  {
  }
}
