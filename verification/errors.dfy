/**
 * Failure values and the decisions the client takes from them (src/client/error.rs).
 *
 * A reply is its three-digit code (RFC 959, section 4.2). A RemoteError carries its kind and the
 * chain that repeated calls of `source()` walk through, outermost first.
 */
module Errors {
  import opened Wrappers

  type Status = nat

  const ALREADY_OPEN: Status := 125
  const ABOUT_TO_SEND: Status := 150
  const COMMAND_OK: Status := 200
  const CLOSING_DATA: Status := 226
  const FILE_ACTION_OK: Status := 250
  const FILE_PENDING: Status := 350
  const NOT_AVAILABLE: Status := 421
  const CANNOT_OPEN_DATA: Status := 425
  const TRANSFER_ABORTED: Status := 426
  const NOT_LOGGED_IN: Status := 530
  const NEED_ACCOUNT: Status := 532
  const FILE_UNAVAILABLE: Status := 550
  const BAD_FILENAME: Status := 553

  datatype FtpError =
    | ConnectionLost
    | SecureFailure
    | InvalidAddress
    | UnexpectedResponse(status: Status)
    | BadResponse
    | DataConnectionAlreadyOpen

  datatype Kind =
    | ConnectionError | AuthenticationFailed | PermissionDenied | NoSuchFileOrDirectory
    | UnsupportedFeature | ProtocolError | BadAddress | BadFile | AlreadyExists
    | DirectoryNotEmpty | NotConnected | AlreadyConnected

  /** One link of a `source()` chain; only FTP links are inspected by the client. */
  datatype Link = Ftp(error: FtpError) | Remote(kind: Kind) | Cleanup | Other

  datatype RemoteError = RemoteError(kind: Kind, sources: seq<Link>)

  function StatusKind(status: Status): Kind {
    if status in {NOT_AVAILABLE, CANNOT_OPEN_DATA, TRANSFER_ABORTED} then ConnectionError
    else if status == NOT_LOGGED_IN then AuthenticationFailed
    else if status in {NEED_ACCOUNT, BAD_FILENAME} then PermissionDenied
    else if status == FILE_UNAVAILABLE then NoSuchFileOrDirectory
    else if status in {500, 501, 502, 504} then UnsupportedFeature
    else ProtocolError
  }

  function KindOf(err: FtpError): Kind {
    match err
    case ConnectionLost | SecureFailure => ConnectionError
    case InvalidAddress => BadAddress
    case UnexpectedResponse(status) => StatusKind(status)
    case BadResponse | DataConnectionAlreadyOpen => ProtocolError
  }

  /** `ftp_error`: the mapped failure keeps the FTP failure as its source. */
  function FromFtp(err: FtpError): RemoteError {
    RemoteError(KindOf(err), [Ftp(err)])
  }

  /** `RemoteError::with_source` around another RemoteError. */
  function Wrap(kind: Kind, inner: RemoteError): RemoteError {
    RemoteError(kind, [Remote(inner.kind)] + inner.sources)
  }

  /** The failure of a LIST whose read and completion both failed; its source is the completion. */
  function ListCleanupFailure(read: RemoteError, finish: RemoteError): RemoteError {
    RemoteError(read.kind, [Cleanup, Remote(finish.kind)] + finish.sources)
  }

  /** `transfer_setup_requires_reconnect`: every failure but a plain refusal poisons the connection. */
  predicate SetupRequiresReconnect(err: FtpError) {
    match err
    case UnexpectedResponse(status) => status == NOT_AVAILABLE
    case ConnectionLost | BadResponse | SecureFailure | InvalidAddress | DataConnectionAlreadyOpen => true
  }

  predicate IsFileUnavailable(err: FtpError) {
    err == UnexpectedResponse(FILE_UNAVAILABLE)
  }

  predicate IsCreationRefusal(err: FtpError) {
    err.UnexpectedResponse? && err.status in {FILE_UNAVAILABLE, BAD_FILENAME}
  }

  /** The FTP failure nearest the outside of a chain. */
  function FirstFtp(chain: seq<Link>): Option<FtpError> {
    if chain == [] then None
    else if chain[0].Ftp? then Some(chain[0].error)
    else FirstFtp(chain[1..])
  }

  /** The refusal code nearest the outside of a chain; other FTP failures are passed over. */
  function FirstRefusal(chain: seq<Link>): Option<Status> {
    if chain == [] then None
    else if chain[0].Ftp? && chain[0].error.UnexpectedResponse? then Some(chain[0].error.status)
    else FirstRefusal(chain[1..])
  }

  predicate RequiresReconnect(err: RemoteError) {
    match FirstFtp(err.sources)
    case Some(cause) => SetupRequiresReconnect(cause)
    case None => err.kind == ConnectionError
  }

  predicate AmbiguousRefusal(err: RemoteError) {
    FirstRefusal(err.sources) == Some(FILE_UNAVAILABLE)
  }

  /** The loop of `remote_error_requires_reconnect`. */
  method RemoteErrorRequiresReconnect(err: RemoteError) returns (verdict: bool)
    ensures verdict == RequiresReconnect(err)
  {
    var source := err.sources;
    while source != []
      invariant FirstFtp(source) == FirstFtp(err.sources)
      decreases |source|
    {
      if source[0].Ftp? {
        return SetupRequiresReconnect(source[0].error);
      }
      source := source[1..];
    }
    verdict := err.kind == ConnectionError;
  }

  /** The loop of `is_ambiguous_path_refusal`. */
  method IsAmbiguousPathRefusal(err: RemoteError) returns (verdict: bool)
    ensures verdict == AmbiguousRefusal(err)
  {
    var source := err.sources;
    while source != []
      invariant FirstRefusal(source) == FirstRefusal(err.sources)
      decreases |source|
    {
      if source[0].Ftp? && source[0].error.UnexpectedResponse? {
        return source[0].error.status == FILE_UNAVAILABLE;
      }
      source := source[1..];
    }
    verdict := false;
  }

  /**
   * Wrapping a failure, however often and under whatever kinds, changes neither verdict as long
   * as the chain holds an FTP failure: no relabelling can hide a desynchronised connection.
   */
  lemma {:induction false} WrappingKeepsBothVerdicts(kinds: seq<Kind>, err: RemoteError)
    requires FirstFtp(err.sources).Some?
    ensures RequiresReconnect(WrapAll(kinds, err)) == RequiresReconnect(err)
    ensures AmbiguousRefusal(WrapAll(kinds, err)) == AmbiguousRefusal(err)
    ensures FirstFtp(WrapAll(kinds, err).sources).Some?
  {
    if kinds != [] {
      WrappingKeepsBothVerdicts(kinds[1..], err);
      var inner := WrapAll(kinds[1..], err);
      assert Wrap(kinds[0], inner).sources[1..] == inner.sources;
    }
  }

  function WrapAll(kinds: seq<Kind>, err: RemoteError): RemoteError {
    if kinds == [] then err else Wrap(kinds[0], WrapAll(kinds[1..], err))
  }

  /**
   * A LIST that failed while reading and again while finishing is judged by its completion alone.
   * When the completion was a plain refusal the recorded error therefore asks for no reconnect,
   * although the read failed: only the separate flag of the LIST reader poisons the connection.
   */
  lemma ListCleanupIsJudgedByItsCompletion(read: FtpError, finish: FtpError)
    ensures var err := ListCleanupFailure(FromFtp(read), FromFtp(finish));
            && RequiresReconnect(err) == SetupRequiresReconnect(finish)
            && (AmbiguousRefusal(err) <==> IsFileUnavailable(finish))
            && err.kind == KindOf(read)
  {
    var err := ListCleanupFailure(FromFtp(read), FromFtp(finish));
    var rest, last := [Remote(KindOf(finish)), Ftp(finish)], [Ftp(finish)];
    assert err.sources[1..] == rest && rest[1..] == last && last[1..] == [];
    assert FirstFtp(err.sources) == FirstFtp(rest) == FirstFtp(last);
    assert FirstRefusal(err.sources) == FirstRefusal(rest) == FirstRefusal(last);
  }

  /** Among mapped FTP failures, "no such file" means exactly the ambiguous 550 refusal. */
  lemma NoSuchFileIsExactlyTheAmbiguousRefusal(err: FtpError)
    ensures KindOf(err) == NoSuchFileOrDirectory <==> AmbiguousRefusal(FromFtp(err))
    ensures AmbiguousRefusal(FromFtp(err)) ==> !RequiresReconnect(FromFtp(err))
  {
    assert FromFtp(err).sources[1..] == [];
  }
}
