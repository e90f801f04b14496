/**
 * The control connection as both clients see it: an assumed contract of `suppaftp`, a server that
 * answers in any way, and the command sequences that run while the client lock is held
 * (src/client/sync.rs, src/client/tokio.rs).
 *
 * The wire is a value. Every command gets a number; a reply remembers the command it answers, so
 * "the reply just read answers the command just sent" (RFC 959, section 5.4) is a statement about
 * `pairs`. What the server answers is an input of each exchange, so every statement below holds
 * for every server.
 */
module ControlChannel {
  import opened Wrappers
  import opened Errors

  datatype Reply = Reply(command: nat, status: Status)

  /**
   * unread  replies that were sent, or will be, and that no one has consumed
   * marker  the restart marker the server will apply to its next transfer (RFC 959, section 4.1.3)
   * pairs   for every reply read: the command that waited for it and the command it answers
   * begun, finished  transfers this client takes to have begun, and completion replies it asked for
   */
  datatype Wire = Wire(
    next: nat, unread: seq<Reply>, marker: nat, pairs: seq<(nat, nat)>, begun: nat, finished: nat)

  const FRESH := Wire(0, [], 0, [], 0, 0)

  /** Nothing is left over from earlier commands. */
  predicate Clean(w: Wire) { w.unread == [] && w.marker == 0 }

  /** Every reply read so far answered the command that was waiting for it. */
  predicate InStep(w: Wire) { forall i | 0 <= i < |w.pairs| :: w.pairs[i].0 == w.pairs[i].1 }

  /**
   * What happens on the wire when one command is sent.
   * Answered  the server sends one final reply; the client consumes one reply
   * Broken    the client gives up without consuming a reply: any replies may be left behind and
   *           the marker may be anything
   * Builder   the caller's passive stream builder failed before the data command was sent
   */
  datatype RawAnswer =
    | Answered(status: Status, dropsMarker: bool)
    | Broken(error: FtpError, left: seq<Status>, marker: nat)
    | Builder(error: FtpError)

  /** Contract: giving up is never reported as a plain refusal. */
  predicate Lawful(a: RawAnswer) { a.Broken? ==> SetupRequiresReconnect(a.error) }

  type Answer = a: RawAnswer | Lawful(a) witness Answered(COMMAND_OK, false)
  type PlainAnswer = a: Answer | !a.Builder? witness Answered(COMMAND_OK, false)

  datatype Response = Code(status: Status) | Failure(error: FtpError)
  datatype FtpResult = Ok | Err(error: FtpError)

  const PRELIMINARY: set<Status> := {ALREADY_OPEN, ABOUT_TO_SEND}
  const COMPLETION: set<Status> := {CLOSING_DATA, FILE_ACTION_OK}
  const DONE: set<Status> := {COMMAND_OK, FILE_ACTION_OK, 257}

  function Tagged(command: nat, statuses: seq<Status>): (r: seq<Reply>)
    ensures |r| == |statuses|
    ensures forall i | 0 <= i < |r| :: r[i] == Reply(command, statuses[i])
  {
    seq(|statuses|, i requires 0 <= i < |statuses| => Reply(command, statuses[i]))
  }

  /** The command goes out; its replies are under way, and the marker is what the server made of it. */
  function Submit(w: Wire, a: Answer): (sent: Wire)
    ensures a.Answered? ==> sent.unread != []
  {
    match a
    case Answered(status, _) => w.(next := w.next + 1, unread := w.unread + [Reply(w.next, status)])
    case Broken(_, left, marker) => w.(next := w.next + 1, unread := w.unread + Tagged(w.next, left), marker := marker)
    case Builder(_) => w
  }

  function LastCommand(w: Wire): nat { if w.next == 0 then 0 else w.next - 1 }

  /** Consumes the oldest unread reply on behalf of the last command, or gives up. */
  function Receive(w: Wire, a: Answer): (Wire, Response)
    requires a.Answered? ==> w.unread != []
  {
    match a
    case Answered(_, _) =>
      (w.(unread := w.unread[1..], pairs := w.pairs + [(LastCommand(w), w.unread[0].command)]),
       Code(w.unread[0].status))
    case Broken(error, _, _) => (w, Failure(error))
    case Builder(error) => (w, Failure(error))
  }

  /** Sends one command and consumes at most one reply. */
  function Send(w: Wire, a: Answer): (Wire, Response) { Receive(Submit(w, a), a) }

  function Expect(r: Response, accepted: set<Status>): FtpResult {
    match r
    case Code(status) => if status in accepted then Ok else Err(UnexpectedResponse(status))
    case Failure(error) => Err(error)
  }

  /** `REST offset` goes out: the server installs the marker when its own answer is 350. */
  function SubmitRest(w: Wire, offset: nat, a: PlainAnswer): (sent: Wire)
    ensures a.Answered? ==> sent.unread != []
  {
    if a.Answered? && a.status == FILE_PENDING then Submit(w, a).(marker := offset) else Submit(w, a)
  }

  function Rest(w: Wire, offset: nat, a: PlainAnswer): (Wire, FtpResult) {
    var (received, response) := Receive(SubmitRest(w, offset, a), a);
    (received, Expect(response, {FILE_PENDING}))
  }

  /** The server starts a transfer, from its marker, exactly when its own answer is preliminary. */
  predicate Begins(a: Answer) { a.Answered? && a.status in PRELIMINARY }

  /** Where the server starts, if it does. */
  function Origin(w: Wire, a: Answer): Option<nat> { if Begins(a) then Some(w.marker) else None }

  /** `RETR`, `STOR`, `APPE` or `LIST` goes out: a transfer uses the marker up. */
  function SubmitTransfer(w: Wire, a: Answer): (sent: Wire)
    ensures a.Answered? ==> sent.unread != []
  {
    if Begins(a) || (a.Answered? && a.dropsMarker) then Submit(w, a).(marker := 0) else Submit(w, a)
  }

  /** The client's side of a data command: a preliminary reply means that its transfer is on. */
  function ReceiveTransfer(w: Wire, a: Answer): (Wire, FtpResult)
    requires a.Answered? ==> w.unread != []
  {
    var (received, response) := Receive(w, a);
    var result := Expect(response, PRELIMINARY);
    (received.(begun := received.begun + if result.Ok? then 1 else 0), result)
  }

  function Transfer(w: Wire, a: Answer): (Wire, FtpResult, Option<nat>) {
    var (received, result) := ReceiveTransfer(SubmitTransfer(w, a), a);
    (received, result, Origin(w, a))
  }

  /** How the server closes a transfer; closing the data socket early can add a second reply. */
  datatype Completion = Completion(answer: PlainAnswer, follow: Option<Status>)

  /** The data connection closes; the completion replies are under way (RFC 959, section 4.2). */
  function SubmitFinish(w: Wire, exhausted: bool, c: Completion): (sent: Wire)
    ensures c.answer.Answered? ==> sent.unread != []
  {
    match c.answer
    case Answered(status, _) =>
      var arrivals := [status] + if exhausted || c.follow.None? then [] else [c.follow.value];
      w.(unread := w.unread + Tagged(LastCommand(w), arrivals))
    case Broken(_, left, _) => w.(unread := w.unread + Tagged(LastCommand(w), left))
  }

  /** `TransferStream::finish` consumes one completion reply. */
  function ReceiveFinish(w: Wire, c: Completion): (Wire, FtpResult)
    requires c.answer.Answered? ==> w.unread != []
  {
    var (received, response) := Receive(w, c.answer);
    (received.(finished := received.finished + 1), Expect(response, COMPLETION))
  }

  function Finish(w: Wire, exhausted: bool, c: Completion): (Wire, FtpResult) {
    ReceiveFinish(SubmitFinish(w, exhausted, c), c)
  }

  /** The replies to a data connection that closes while nobody waits for them. */
  datatype Farewell = Farewell(status: Status, follow: Option<Status>)

  function Dismissed(w: Wire, exhausted: bool, bye: Farewell): Wire {
    var arrivals := [bye.status] + if exhausted || bye.follow.None? then [] else [bye.follow.value];
    w.(unread := w.unread + Tagged(LastCommand(w), arrivals), finished := w.finished + 1)
  }

  /** The asynchronous `suppaftp` drains one reply of a dismissed transfer before its next command. */
  function Drained(w: Wire, deferred: bool): Wire {
    if deferred && w.unread != [] then
      w.(unread := w.unread[1..], pairs := w.pairs + [(LastCommand(w), w.unread[0].command)])
    else w
  }

  /** The failing passive stream builder clears `connection_usable` itself. */
  predicate BuilderFailed(a: Answer) { a.Builder? }

  // ---- Command sequences run under the client lock ----

  /** A plain command with its `record_ftp_error`. */
  function CommandBody(w: Wire, usable: bool, a: PlainAnswer): (Wire, bool, FtpResult) {
    var (sent, response) := Send(w, a);
    var result := Expect(response, DONE);
    (sent, usable && !(result.Err? && SetupRequiresReconnect(result.error)), result)
  }

  datatype TransferResult =
    | Started(resumed: bool, begins: Option<nat>)
    | Refused(refusal: FtpError)
    | Aborted(failure: RemoteError)

  datatype TransferOutcome = TransferOutcome(wire: Wire, usable: bool, result: TransferResult)

  function Conclude(w: Wire, usable: bool, r: FtpResult, resumed: bool, begins: Option<nat>): TransferOutcome {
    match r
    case Ok => TransferOutcome(w, usable, Started(resumed, begins))
    case Err(error) => TransferOutcome(w, usable && !SetupRequiresReconnect(error), Refused(error))
  }

  /** `create` and `append`. */
  function StoreBody(w: Wire, usable: bool, a: Answer): TransferOutcome {
    var (sent, result, begins) := Transfer(w, a);
    Conclude(sent, usable && !BuilderFailed(a), result, false, begins)
  }

  datatype OffsetRequest = Negotiated(accepted: bool) | Unreachable(error: RemoteError)

  /** `request_offset`: an offset that does not fit a `usize`, or a refusal, means a local skip. */
  function RequestOffset(w: Wire, offset: nat, maxUsize: nat, a: PlainAnswer): (Wire, OffsetRequest) {
    if offset > maxUsize then (w, Negotiated(false))
    else
      var (sent, result) := Rest(w, offset, a);
      (sent,
       match result
       case Ok => Negotiated(true)
       case Err(error) =>
         if error.UnexpectedResponse? && error.status != NOT_AVAILABLE then Negotiated(false)
         else Unreachable(FromFtp(error)))
  }

  datatype OpenAnswers = OpenAnswers(rest: PlainAnswer, retr: Answer, reset: PlainAnswer, again: Answer)

  function Asked(w: Wire, offset: nat, maxUsize: nat, a: PlainAnswer): (Wire, OffsetRequest) {
    if offset > 0 then RequestOffset(w, offset, maxUsize, a) else (w, Negotiated(false))
  }

  /** The commands of `open`; a failed first `RETR` is not recorded when the marker reset succeeds. */
  function OpenBody(w: Wire, usable: bool, offset: nat, maxUsize: nat, env: OpenAnswers): TransferOutcome {
    var (negotiated, request) := Asked(w, offset, maxUsize, env.rest);
    match request
    case Unreachable(error) => TransferOutcome(negotiated, usable && !RequiresReconnect(error), Aborted(error))
    case Negotiated(resumed) =>
      var (first, result, begins) := Transfer(negotiated, env.retr);
      var usable1 := usable && !BuilderFailed(env.retr);
      if !resumed || result.Ok? then Conclude(first, usable1, result, resumed, begins)
      else Retry(first, usable1, env)
  }

  /** The marker reset after a failed `RETR`, and the second `RETR`. */
  function Retry(w: Wire, usable: bool, env: OpenAnswers): TransferOutcome {
    var (cleared, reset) := Rest(w, 0, env.reset);
    match reset
    case Err(error) => TransferOutcome(cleared, false, Aborted(FromFtp(error)))
    case Ok =>
      var (second, result, begins) := Transfer(cleared, env.again);
      Conclude(second, usable && !BuilderFailed(env.again), result, false, begins)
  }

  datatype ListAnswers = ListAnswers(list: Answer, readFails: bool, completion: Completion)

  /** `read_list_bytes`: the failure, if any, and whether the caller must reconnect. */
  function ReadListBytes(w: Wire, env: ListAnswers): (Wire, Option<RemoteError>, bool) {
    var (sent, setup, _) := Transfer(w, env.list);
    match setup
    case Err(error) => (sent, Some(FromFtp(error)), SetupRequiresReconnect(error))
    case Ok =>
      var (done, finish) := Finish(sent, !env.readFails, env.completion);
      var (failure, requiresReconnect) := Aggregate(env.readFails, finish);
      (done, failure, requiresReconnect)
  }

  /** What a LIST reports when reading its rows and finishing its transfer failed or not. */
  function Aggregate(readFails: bool, finish: FtpResult): (Option<RemoteError>, bool) {
    match finish
    case Ok => if readFails then (Some(FromFtp(ConnectionLost)), true) else (None, false)
    case Err(error) =>
      (Some(if readFails then ListCleanupFailure(FromFtp(ConnectionLost), FromFtp(error)) else FromFtp(error)), true)
  }

  /** The closure of `list_dir_raw` together with the recording done by `with_exclusive_stream`. */
  function ListBody(w: Wire, usable: bool, env: ListAnswers): (Wire, bool, Option<RemoteError>) {
    var (done, failure, requiresReconnect) := ReadListBytes(w, env);
    (done,
     usable && !BuilderFailed(env.list) && !requiresReconnect
     && !(failure.Some? && RequiresReconnect(failure.value)),
     failure)
  }

  // ---- Reply synchronisation of each sequence ----

  lemma SendOnACleanWire(w: Wire, a: Answer)
    requires w.unread == []
    ensures !a.Broken? ==> Send(w, a).0.unread == [] && Send(w, a).0.marker == w.marker
    ensures InStep(w) ==> InStep(Send(w, a).0)
    ensures a.Answered? ==> Send(w, a).1 == Code(a.status)
  {
    if a.Answered? {
      assert w.unread + [Reply(w.next, a.status)] == [Reply(w.next, a.status)];
    }
  }

  lemma CommandKeepsSync(w: Wire, usable: bool, a: PlainAnswer)
    requires Clean(w)
    ensures var (w', usable', result) := CommandBody(w, usable, a);
            && (usable' ==> Clean(w')) && (InStep(w) ==> InStep(w'))
            && w'.begun == w.begun && w'.finished == w.finished
  {
    SendOnACleanWire(w, a);
  }

  lemma TransferKeepsSync(w: Wire, a: Answer)
    requires w.unread == []
    ensures var (w', result, begins) := Transfer(w, a);
            && (!a.Broken? ==> w'.unread == [])
            && (a.Broken? ==> result.Err? && SetupRequiresReconnect(result.error))
            && (result.Ok? <==> begins.Some?) && (begins.Some? ==> begins.value == w.marker)
            && (result.Ok? ==> w'.marker == 0) && (!a.Broken? && w.marker == 0 ==> w'.marker == 0)
            && (InStep(w) ==> InStep(w'))
            && w'.finished == w.finished && w'.begun == w.begun + (if result.Ok? then 1 else 0)
  {
    SendOnACleanWire(w, a);
  }

  lemma StoreKeepsSync(w: Wire, usable: bool, a: Answer)
    requires Clean(w)
    ensures var o := StoreBody(w, usable, a);
            && (o.usable ==> Clean(o.wire)) && (InStep(w) ==> InStep(o.wire))
            && (o.result.Started? ==> o.result.begins == Some(0) && Clean(o.wire))
            && o.wire.finished == w.finished && o.wire.begun == w.begun + (if o.result.Started? then 1 else 0)
  {
    TransferKeepsSync(w, a);
  }

  lemma FinishKeepsSync(w: Wire, exhausted: bool, c: Completion)
    requires w.unread == []
    ensures var (w', result) := Finish(w, exhausted, c);
            && (exhausted && result.Ok? ==> w'.unread == []) && w'.marker == w.marker
            && (InStep(w) ==> InStep(w')) && w'.begun == w.begun && w'.finished == w.finished + 1
  {
  }

  lemma ListKeepsSync(w: Wire, usable: bool, env: ListAnswers)
    requires Clean(w)
    ensures var (w', usable', failure) := ListBody(w, usable, env);
            && (usable' ==> Clean(w')) && (InStep(w) ==> InStep(w'))
            && (w.begun == w.finished ==> w'.begun == w'.finished)
  {
    TransferKeepsSync(w, env.list);
    if Transfer(w, env.list).1.Ok? {
      FinishKeepsSync(Transfer(w, env.list).0, !env.readFails, env.completion);
    }
  }

  lemma ListFinishesWhatItBegins(w: Wire, usable: bool, env: ListAnswers)
    ensures var (w', usable', _) := ListBody(w, usable, env);
            w'.begun - w.begun == w'.finished - w.finished && (usable' ==> usable)
  {
  }

  /** The server accepted the restart marker of this `open`. */
  predicate RestAccepted(offset: nat, maxUsize: nat, env: OpenAnswers) {
    0 < offset <= maxUsize && env.rest.Answered? && env.rest.status == FILE_PENDING
  }

  /** The first `RETR` gave up with replies still to come, and the marker reset was sent all the same. */
  predicate ReadsStray(offset: nat, maxUsize: nat, env: OpenAnswers) {
    RestAccepted(offset, maxUsize, env) && env.retr.Broken? && env.retr.left != [] && env.reset.Answered?
  }

  /** The reply a second `RETR` reads when the reset has read the first stray one. */
  function SecondReply(env: OpenAnswers): Status
    requires env.retr.Broken? && env.reset.Answered?
  {
    if |env.retr.left| > 1 then env.retr.left[1] else env.reset.status
  }

  /** Moreover the stray reply is a 350, and the second `RETR` reads a reply that is not a 421. */
  predicate AbsorbsStray(offset: nat, maxUsize: nat, env: OpenAnswers) {
    && ReadsStray(offset, maxUsize, env) && env.retr.left[0] == FILE_PENDING && env.again.Answered?
    && SecondReply(env) != NOT_AVAILABLE
  }

  /** Moreover the second `RETR` reads a preliminary reply, and the server does not start it at zero. */
  predicate ShiftsStart(offset: nat, maxUsize: nat, env: OpenAnswers) {
    && AbsorbsStray(offset, maxUsize, env) && SecondReply(env) in PRELIMINARY
    && !(Begins(env.again) && (env.reset.status == FILE_PENDING || env.retr.marker == 0))
  }

  /** The wire after an accepted `REST` and a broken `RETR`, up to the reset. */
  lemma ResetAfterABrokenRetr(w: Wire, offset: nat, maxUsize: nat, env: OpenAnswers)
    requires Clean(w) && ReadsStray(offset, maxUsize, env)
    ensures var w1 := RequestOffset(w, offset, maxUsize, env.rest).0;
            var w2 := Transfer(w1, env.retr).0;
            var (w3, reset) := Rest(w2, 0, env.reset);
            && w2.unread == Tagged(w.next + 1, env.retr.left)
            && w3.unread == w2.unread[1..] + [Reply(w.next + 2, env.reset.status)]
            && (reset.Ok? <==> env.retr.left[0] == FILE_PENDING)
            && |w3.pairs| > 0 && w3.pairs[|w3.pairs| - 1] == (w.next + 2, w.next + 1)
  {
    SendOnACleanWire(w, env.rest);
    var w1 := RequestOffset(w, offset, maxUsize, env.rest).0;
    assert [] + Tagged(w1.next, env.retr.left) == Tagged(w1.next, env.retr.left);
    var w2 := Transfer(w1, env.retr).0;
    assert (w2.unread + [Reply(w2.next, env.reset.status)])[1..] == w2.unread[1..] + [Reply(w2.next, env.reset.status)];
  }

  /**
   * `open` leaves the connection either poisoned or clean, marker included, exactly when it does
   * not absorb a stray 350 left behind by a broken `RETR`.
   */
  lemma {:induction false} OpenKeepsSyncIff(w: Wire, usable: bool, offset: nat, maxUsize: nat, env: OpenAnswers)
    requires Clean(w) && usable
    ensures var o := OpenBody(w, usable, offset, maxUsize, env);
            (o.usable ==> Clean(o.wire)) <==> !AbsorbsStray(offset, maxUsize, env)
  {
    if ReadsStray(offset, maxUsize, env) {
      ResetAfterABrokenRetr(w, offset, maxUsize, env);
      var w1 := RequestOffset(w, offset, maxUsize, env.rest).0;
      var w3 := Rest(Transfer(w1, env.retr).0, 0, env.reset).0;
      assert |w3.unread| == |env.retr.left|;
      if env.again.Answered? {
        assert (w3.unread + [Reply(w3.next, env.again.status)])[0] == w3.unread[0];
      }
    } else {
      OpenWithoutStrayIsInSync(w, usable, offset, maxUsize, env);
    }
  }

  lemma AskingKeepsSync(w: Wire, offset: nat, maxUsize: nat, a: PlainAnswer)
    requires Clean(w)
    ensures var (w1, request) := Asked(w, offset, maxUsize, a);
            && (InStep(w) ==> InStep(w1))
            && (request.Unreachable? && !RequiresReconnect(request.error) ==> Clean(w1))
            && (request.Negotiated? ==> w1.unread == [] && w1.marker == if request.accepted then offset else 0)
  {
    SendOnACleanWire(w, a);
  }

  lemma {:induction false} RetryKeepsSync(w: Wire, usable: bool, env: OpenAnswers)
    requires w.unread == []
    ensures var o := Retry(w, usable, env);
            && (o.usable ==> Clean(o.wire)) && (InStep(w) ==> InStep(o.wire))
            && (o.result.Started? ==> Clean(o.wire) && o.result == Started(false, Some(0)))
  {
    SendOnACleanWire(w, env.reset);
    if env.reset.Answered? {
      TransferKeepsSync(Rest(w, 0, env.reset).0, env.again);
    }
  }

  lemma {:induction false} OpenWithoutStrayIsInSync(w: Wire, usable: bool, offset: nat, maxUsize: nat, env: OpenAnswers)
    requires Clean(w) && !ReadsStray(offset, maxUsize, env)
    ensures var o := OpenBody(w, usable, offset, maxUsize, env);
            && (o.usable ==> Clean(o.wire)) && (InStep(w) ==> InStep(o.wire))
            && (o.result.Started? ==>
                  Clean(o.wire) && o.result.begins == Some(if o.result.resumed then offset else 0))
  {
    AskingKeepsSync(w, offset, maxUsize, env.rest);
    var (w1, request) := Asked(w, offset, maxUsize, env.rest);
    if request.Negotiated? {
      TransferKeepsSync(w1, env.retr);
      var w2 := Transfer(w1, env.retr).0;
      if env.retr.Broken? && env.retr.left == [] { assert w2.unread == []; }
      if w2.unread == [] { RetryKeepsSync(w2, usable && !BuilderFailed(env.retr), env); }
    }
  }

  /** Every reply `open` reads answers the command just sent, unless it resets a broken `RETR`. */
  lemma {:induction false} OpenStaysInStepIff(w: Wire, usable: bool, offset: nat, maxUsize: nat, env: OpenAnswers)
    requires Clean(w) && InStep(w)
    ensures InStep(OpenBody(w, usable, offset, maxUsize, env).wire) <==> !ReadsStray(offset, maxUsize, env)
  {
    if ReadsStray(offset, maxUsize, env) {
      ResetAfterABrokenRetr(w, offset, maxUsize, env);
      var w3 := Rest(Transfer(RequestOffset(w, offset, maxUsize, env.rest).0, env.retr).0, 0, env.reset).0;
      var last := |w3.pairs| - 1;
      assert OpenBody(w, usable, offset, maxUsize, env).wire.pairs[last] == w3.pairs[last];
    } else {
      OpenWithoutStrayIsInSync(w, usable, offset, maxUsize, env);
    }
  }

  /**
   * The client asks for a completion reply exactly for the transfers it takes to have begun: `open`
   * counts one exactly when it hands a stream to its caller.
   */
  lemma {:induction false} OpenBeginsWhatItReturns(w: Wire, usable: bool, offset: nat, maxUsize: nat, env: OpenAnswers)
    ensures var o := OpenBody(w, usable, offset, maxUsize, env);
            && o.wire.finished == w.finished
            && o.wire.begun == w.begun + (if o.result.Started? then 1 else 0)
            && (o.result.Started? ==> o.wire.next > 0) && (o.usable ==> usable)
  {
    var (w1, request) := Asked(w, offset, maxUsize, env.rest);
    RequestBeginsNothing(w, offset, maxUsize, env.rest);
    if request.Negotiated? {
      TransferCountsItsStart(w1, env.retr);
      var (w2, result, _) := Transfer(w1, env.retr);
      if request.accepted && result.Err? {
        RequestBeginsNothing(w2, 0, maxUsize, env.reset);
        TransferCountsItsStart(Rest(w2, 0, env.reset).0, env.again);
      }
    }
  }

  lemma RequestBeginsNothing(w: Wire, offset: nat, maxUsize: nat, a: PlainAnswer)
    ensures Rest(w, offset, a).0.begun == w.begun && Rest(w, offset, a).0.finished == w.finished
    ensures RequestOffset(w, offset, maxUsize, a).0.begun == w.begun
    ensures RequestOffset(w, offset, maxUsize, a).0.finished == w.finished
  {
  }

  lemma TransferCountsItsStart(w: Wire, a: Answer)
    ensures var (w', result, _) := Transfer(w, a);
            && w'.finished == w.finished && w'.begun == w.begun + (if result.Ok? then 1 else 0)
            && (result.Ok? ==> w'.next > 0)
  {
  }

  /** A server that makes `open` resume at twice the offset while reporting a local skip. */
  lemma OpenCanShiftItsRange(w: Wire)
    requires Clean(w) && InStep(w)
    ensures var env := OpenAnswers(Answered(FILE_PENDING, false), Broken(BadResponse, [FILE_PENDING, ABOUT_TO_SEND], 7),
                                   Answered(FILE_UNAVAILABLE, false), Answered(ABOUT_TO_SEND, false));
            var o := OpenBody(w, true, 7, 100, env);
            && AbsorbsStray(7, 100, env)
            && o.result == Started(false, Some(7)) && o.usable && !Clean(o.wire) && !InStep(o.wire)
  {
    var env := OpenAnswers(Answered(FILE_PENDING, false), Broken(BadResponse, [FILE_PENDING, ABOUT_TO_SEND], 7),
                           Answered(FILE_UNAVAILABLE, false), Answered(ABOUT_TO_SEND, false));
    OpenKeepsSyncIff(w, true, 7, 100, env);
    OpenStaysInStepIff(w, true, 7, 100, env);
    ResetAfterABrokenRetr(w, 7, 100, env);
    var w3 := Rest(Transfer(RequestOffset(w, 7, 100, env.rest).0, env.retr).0, 0, env.reset).0;
    assert (w3.unread + [Reply(w3.next, ABOUT_TO_SEND)])[0] == Reply(w.next + 1, ABOUT_TO_SEND);
  }

  /** A transfer that `open` hands out starts on a clean wire unless it absorbed a stray reply. */
  lemma {:induction false} StartedTransfersAreClean(w: Wire, usable: bool, offset: nat, maxUsize: nat, env: OpenAnswers)
    requires Clean(w) && !AbsorbsStray(offset, maxUsize, env)
    ensures var o := OpenBody(w, usable, offset, maxUsize, env); o.result.Started? ==> Clean(o.wire)
  {
    if ReadsStray(offset, maxUsize, env) {
      StrayRetr(w, usable, offset, maxUsize, env);
    } else {
      OpenWithoutStrayIsInSync(w, usable, offset, maxUsize, env);
    }
  }

  /** What `open` makes of a broken `RETR` whose reset was answered. */
  lemma {:induction false} StrayRetr(w: Wire, usable: bool, offset: nat, maxUsize: nat, env: OpenAnswers)
    requires Clean(w) && ReadsStray(offset, maxUsize, env)
    ensures var o, left := OpenBody(w, usable, offset, maxUsize, env), env.retr.left;
            && (o.result.Started? <==>
                  left[0] == FILE_PENDING && env.again.Answered? && SecondReply(env) in PRELIMINARY)
            && (o.result.Started? ==>
                  !o.result.resumed && o.result.begins ==
                  if !Begins(env.again) then None
                  else Some(if env.reset.status == FILE_PENDING then 0 else env.retr.marker))
  {
    ResetAfterABrokenRetr(w, offset, maxUsize, env);
    var w3 := Rest(Transfer(RequestOffset(w, offset, maxUsize, env.rest).0, env.retr).0, 0, env.reset).0;
    if env.again.Answered? {
      assert (w3.unread + [Reply(w3.next, env.again.status)])[0] == w3.unread[0];
      assert w3.unread[0].status == SecondReply(env);
    }
  }

  /**
   * The server starts the transfer of a started `open` where the client believes it starts, at the
   * offset when it reports a resumed transfer and at zero otherwise, exactly when it does not
   * shift its start.
   */
  lemma {:induction false} StartedTransfersBeginAtTheReportedOffsetIff(
    w: Wire, usable: bool, offset: nat, maxUsize: nat, env: OpenAnswers)
    requires Clean(w)
    ensures var o := OpenBody(w, usable, offset, maxUsize, env).result;
            (o.Started? ==> o.begins == Some(if o.resumed then offset else 0)) <==> !ShiftsStart(offset, maxUsize, env)
  {
    if ReadsStray(offset, maxUsize, env) {
      StrayRetr(w, usable, offset, maxUsize, env);
    } else {
      OpenWithoutStrayIsInSync(w, usable, offset, maxUsize, env);
    }
  }

  /** A shifted `open` always hands out a stream, for a local skip of a transfer that starts elsewhere or nowhere. */
  lemma {:induction false} ShiftedStarts(w: Wire, usable: bool, offset: nat, maxUsize: nat, env: OpenAnswers)
    requires Clean(w) && ShiftsStart(offset, maxUsize, env)
    ensures OpenBody(w, usable, offset, maxUsize, env).result
         == Started(false, if Begins(env.again) then Some(env.retr.marker) else None)
  {
    StrayRetr(w, usable, offset, maxUsize, env);
  }
}
