/**
 * The asynchronous client, its operation guard and its streams as objects (src/client/tokio.rs,
 * src/client/tokio/stream.rs).
 *
 * A method that awaits is handed the executor's view of its future: how many more times it is
 * polled before it is dropped. At each await it may find itself dropped; what it has done to the
 * wire by then stays. TokioRuns proves the properties of whole runs over the same wire functions.
 */
module TokioClient {
  import opened Wrappers
  import opened Errors
  import opened ControlChannel
  import opened RangedRead
  import opened Guards
  import TokioRuns

  /** A future that is polled `polls` more times and then dropped. */
  class Future {
    var polls: nat

    constructor (polls: nat)
      ensures this.polls == polls
    {
      this.polls := polls;
    }

    method Await() returns (dropped: bool)
      modifies this
      ensures dropped <==> old(polls) == 0
      ensures polls == if dropped then 0 else old(polls) - 1
    {
      dropped := polls == 0;
      if !dropped {
        polls := polls - 1;
      }
    }
  }

  /** A control stream and whether its next command has to drain a reply first. */
  class AsyncControl {
    var wire: Wire
    var deferred: bool

    constructor ()
      ensures wire == FRESH && !deferred
    {
      wire, deferred := FRESH, false;
    }

    /** At most one reply is unread, and exactly then one is deferred. */
    predicate Quiet()
      reads this
    {
      wire.marker == 0 && |wire.unread| == if deferred then 1 else 0
    }

    /** Drains the deferred reply. */
    method Settle(f: Future) returns (dropped: bool)
      modifies this, f
      ensures dropped <==> old(f.polls) == 0
      ensures dropped ==> wire == old(wire) && deferred == old(deferred)
      ensures !dropped ==> wire == Drained(old(wire), old(deferred)) && !deferred && f.polls == old(f.polls) - 1
      ensures !dropped && old(Quiet()) ==> Clean(wire)
    {
      dropped := f.Await();
      if !dropped {
        wire, deferred := Drained(wire, deferred), false;
      }
    }

    /** A plain command; None when the future was dropped while its reply was awaited. */
    method Exchange(a: PlainAnswer, f: Future) returns (response: Option<Response>)
      modifies this, f
      ensures deferred == old(deferred) && (response.None? <==> old(f.polls) == 0)
      ensures response.Some? ==> (wire, response.value) == Send(old(wire), a)
      ensures response.None? ==> wire == Submit(old(wire), a)
    {
      wire := Submit(wire, a);
      var dropped := f.Await();
      if dropped {
        return None;
      }
      var (received, r) := Receive(wire, a);
      wire, response := received, Some(r);
    }

    method ResumeTransfer(offset: nat, a: PlainAnswer, f: Future) returns (result: Option<FtpResult>)
      modifies this, f
      ensures deferred == old(deferred) && (result.None? <==> old(f.polls) == 0)
      ensures result.Some? ==> (wire, result.value) == Rest(old(wire), offset, a)
      ensures result.None? ==> wire == SubmitRest(old(wire), offset, a)
    {
      wire := SubmitRest(wire, offset, a);
      var dropped := f.Await();
      if dropped {
        return None;
      }
      var (received, r) := Receive(wire, a);
      wire, result := received, Some(Expect(r, {FILE_PENDING}));
    }

    /** `retr_as_stream` and its kin; `begins` is where the server starts, if it does. */
    method BeginTransfer(a: Answer, f: Future) returns (result: Option<FtpResult>, begins: Option<nat>)
      modifies this, f
      ensures deferred == old(deferred) && (result.None? <==> old(f.polls) == 0)
      ensures result.Some? ==> (wire, result.value, begins) == Transfer(old(wire), a)
      ensures result.None? ==> wire == SubmitTransfer(old(wire), a)
    {
      begins := Origin(wire, a);
      wire := SubmitTransfer(wire, a);
      var dropped := f.Await();
      if dropped {
        return None, begins;
      }
      var (received, r) := ReceiveTransfer(wire, a);
      wire, result := received, Some(r);
    }

    method FinishTransfer(exhausted: bool, c: Completion, f: Future) returns (result: Option<FtpResult>)
      modifies this, f
      ensures deferred == old(deferred) && (result.None? <==> old(f.polls) == 0)
      ensures result.Some? ==> (wire, result.value) == Finish(old(wire), exhausted, c)
      ensures result.None? ==> wire == old(wire)
    {
      var dropped := f.Await();
      if dropped {
        return None;
      }
      var (received, r) := Finish(wire, exhausted, c);
      wire, result := received, Some(r);
    }

    /** The transfer is dropped unfinished: its data connection closes and its reply is deferred. */
    method Dismiss(exhausted: bool, bye: Farewell)
      modifies this
      ensures wire == Dismissed(old(wire), exhausted, bye) && deferred
      ensures Clean(old(wire)) && exhausted ==> Quiet()
    {
      wire, deferred := Dismissed(wire, exhausted, bye), true;
    }
  }

  /** `finish` came to its end, or its future was dropped with the data drained or not. */
  datatype Finished = Ended(ok: bool) | Forgotten(drained: bool)

  class TokioReadStream {
    const guard: TransferGuard
    const control: AsyncControl
    var inner: Option<seq<Byte>>
    var remaining: Option<nat>
    var atEof: bool

    function View(): Reader
      requires inner.Some?
      reads this
    {
      Reader(inner.value, remaining, atEof)
    }

    constructor (control: AsyncControl, data: seq<Byte>, length: Option<nat>, guard: TransferGuard)
      ensures this.control == control && this.guard == guard && inner.Some? && View() == Reader(data, length, false)
    {
      this.control, this.guard := control, guard;
      inner, remaining, atEof := Some(data), length, false;
    }

    method PollRead(bufLen: nat, maxUsize: nat, ready: Readiness) returns (result: PollResult)
      requires inner.Some?
      modifies this
      ensures inner.Some? && (View(), result) == RangedRead.PollRead(old(View()), bufLen, maxUsize, ready)
    {
      if bufLen == 0 {
        return Done(Data([]));
      }
      var limit := bufLen;
      if remaining.Some? {
        if remaining.value == 0 {
          return Done(Data([]));
        }
        limit := Limit(remaining.value, bufLen, maxUsize);
      }
      match ready
      case Pending => return NotYet;
      case Ready(Failed) => return Done(IoFailure);
      case Ready(Got(n)) =>
        var k := Granted(|inner.value|, limit, n);
        result := Done(Data(inner.value[..k]));
        inner := Some(inner.value[k..]);
        if remaining.Some? {
          remaining := Some(remaining.value - k);
        }
        if k == 0 {
          atEof := true;
        }
    }

    /** The local skip; None when the future of `open` was dropped in it, before any end of file. */
    method SkipPrefix(offset: nat, chunks: nat -> Chunk, f: Future) returns (ok: Option<bool>)
      requires inner.Some?
      modifies this, f
      ensures inner.Some?
      ensures ok.Some? ==> (View(), ok.value) == RangedRead.SkipPrefix(old(View()), offset, chunks)
      ensures ok.None? ==> atEof == old(atEof)
    {
      var rest := inner.value;
      var left: nat, i: nat := offset, 0;
      while left > 0
        invariant left <= offset && inner == old(inner) && remaining == old(remaining) && atEof == old(atEof)
        invariant SkipLoop(old(inner.value), offset, chunks, 0) == SkipLoop(rest, left, chunks, i)
        decreases left
      {
        var dropped := f.Await();
        if dropped {
          inner := Some(rest);
          return None;
        }
        if chunks(i).Failed? {
          inner := Some(rest);
          return Some(false);
        }
        var k := Granted(|rest|, left, chunks(i).n);
        if k == 0 {
          break;
        }
        rest, left, i := rest[k..], left - k, i + 1;
      }
      inner := Some(rest);
      if left > 0 {
        atEof := true;
      }
      ok := Some(true);
    }

    /** `io::copy` into a sink; None when the future was dropped in it. */
    static method DrainSocket(data: seq<Byte>, chunks: nat -> Chunk, f: Future)
      returns (rest: seq<Byte>, drained: Option<bool>)
      modifies f
      ensures drained.Some? ==> (rest, drained.value) == Drain(data, chunks, 0)
      ensures data == [] ==> rest == []
    {
      rest := data;
      var i: nat := 0;
      while true
        invariant Drain(data, chunks, 0) == Drain(rest, chunks, i)
        invariant data == [] ==> rest == []
        decreases |rest|
      {
        var dropped := f.Await();
        if dropped {
          return rest, None;
        }
        if chunks(i).Failed? {
          return rest, Some(false);
        }
        if rest == [] {
          return rest, Some(true);
        }
        rest, i := rest[Granted(|rest|, |rest|, chunks(i).n)..], i + 1;
      }
    }

    /**
     * `finish_inner` takes the stream before its first await. A future that is dropped afterwards
     * dismisses the transfer and does not invalidate: with data left, that loses a second reply.
     */
    method FinishInner(chunks: nat -> Chunk, completion: Completion, f: Future, bye: Farewell)
      returns (result: Finished)
      requires inner.Some?
      modifies this, control, guard.flags, f
      ensures inner.None? && guard.flags.active == old(guard.flags.active)
      ensures result.Ended? ==>
                && (control.wire, result.ok) == FinishRead(old(control.wire), old(View()), chunks, completion)
                && control.deferred == old(control.deferred)
                && guard.flags.usable == (old(guard.flags.usable) && result.ok)
      ensures result.Forgotten? ==>
                && control.wire == Dismissed(old(control.wire), result.drained, bye) && control.deferred
                && guard.flags.usable == old(guard.flags.usable) && (old(inner).value == [] ==> result.drained)
      ensures Clean(old(control.wire)) && !old(control.deferred) && EofSound(old(View())) ==>
                (result == Ended(true) || result == Forgotten(true) ==> control.Quiet())
    {
      var rest, drained := inner.value, true;
      inner := None;
      if !atEof {
        var tail, copied := DrainSocket(rest, chunks, f);
        rest := tail;
        if copied.None? {
          control.Dismiss(rest == [], bye);
          return Forgotten(rest == []);
        }
        drained := copied.value;
      }
      if Clean(control.wire) && EofSound(old(View())) {
        FinishReadKeepsSync(control.wire, old(View()), chunks, completion);
      }
      var finished := control.FinishTransfer(rest == [], completion, f);
      if finished.None? {
        control.Dismiss(rest == [], bye);
        return Forgotten(rest == []);
      }
      result := Ended(drained && finished.value.Ok?);
      if !result.ok {
        guard.Invalidate();
      }
    }

    /** Drop cannot await: at end of file the reply is deferred, before it the connection is given up. */
    method Drop(bye: Farewell)
      modifies this, control, guard.flags
      ensures inner.None? && !guard.flags.active
      ensures old(inner).None? ==>
                control.wire == old(control.wire) && control.deferred == old(control.deferred)
                && guard.flags.usable == old(guard.flags.usable)
      ensures old(inner).Some? ==>
                && control.wire == Dismissed(old(control.wire), old(inner).value == [], bye) && control.deferred
                && guard.flags.usable == (old(guard.flags.usable) && old(atEof))
      ensures old(inner).Some? && Clean(old(control.wire)) && EofSound(old(View())) && guard.flags.usable ==>
                control.Quiet()
    {
      if inner.Some? {
        if !atEof {
          guard.Invalidate();
        }
        control.Dismiss(inner.value == [], bye);
        inner := None;
      }
      guard.Drop();
    }
  }

  class TokioWriteStream {
    const guard: TransferGuard
    const control: AsyncControl
    var inner: bool

    constructor (control: AsyncControl, guard: TransferGuard)
      ensures this.control == control && this.guard == guard && inner
    {
      this.control, this.guard, inner := control, guard, true;
    }

    /** An upload has no data to drain, so a dropped future defers its one reply. */
    method Finish(flushed: bool, completion: Completion, f: Future, bye: Farewell) returns (ok: Option<bool>)
      requires inner
      modifies this, control, guard.flags, f
      ensures !inner && !guard.flags.active
      ensures ok.Some? ==>
                && (control.wire, ok.value) == FinishWrite(old(control.wire), flushed, completion)
                && control.deferred == old(control.deferred)
                && guard.flags.usable == (old(guard.flags.usable) && ok.value)
      ensures ok.None? ==>
                && control.wire == Dismissed(old(control.wire), true, bye) && control.deferred
                && guard.flags.usable == old(guard.flags.usable)
      ensures Clean(old(control.wire)) && !old(control.deferred) && ok != Some(false) ==> control.Quiet()
    {
      inner := false;
      if Clean(control.wire) { FinishKeepsSync(control.wire, true, completion); }
      var dropped := f.Await();   // the flush
      var finished: Option<FtpResult> := None;
      if !dropped {
        finished := control.FinishTransfer(true, completion, f);
      }
      if finished.None? {
        control.Dismiss(true, bye);
        guard.Drop();
        return None;
      }
      ok := Some(flushed && finished.value.Ok?);
      if !ok.value {
        guard.Invalidate();
      }
      guard.Drop();
    }

    method Drop(bye: Farewell)
      modifies this, control, guard.flags
      ensures !inner && !guard.flags.active && guard.flags.usable == old(guard.flags.usable)
      ensures !old(inner) ==> control.wire == old(control.wire) && control.deferred == old(control.deferred)
      ensures old(inner) ==> control.wire == Dismissed(old(control.wire), true, bye) && control.deferred
      ensures old(inner) && Clean(old(control.wire)) ==> control.Quiet()
    {
      if inner {
        control.Dismiss(true, bye);
        inner := false;
      }
      guard.Drop();
    }
  }

  /** Poisons the client unless the operation it guards has completed. */
  class OperationGuard {
    const flags: Flags
    var completed: bool

    constructor (flags: Flags)
      ensures this.flags == flags && !completed
    {
      this.flags, completed := flags, false;
    }

    method Complete()
      modifies this, flags
      ensures flags.usable == old(flags.usable) && flags.active == old(flags.active)
    {
      completed := true;
      Drop();
    }

    method Drop()
      modifies flags
      ensures flags.usable == (old(flags.usable) && completed) && flags.active == old(flags.active)
    {
      if !completed {
        flags.usable := false;
      }
    }
  }

  datatype Refusal = Busy | Unusable | NoStream

  /** Cancelled: dropped under the lock or in a skip; CleanupCancelled: while `open` finished a failed skip. */
  datatype Outcome =
    | Blocked(refusal: Refusal)
    | Cancelled
    | CleanupCancelled(drained: bool)
    | Completed
    | SkipFailed
    | FtpFailure(error: FtpError)
    | RemoteFailure(cause: RemoteError)

  class TokioFtpFs {
    const flags: Flags
    var stream: AsyncControl?
    var connected: bool

    /** The synchronous `is_connected` query never looks into the locked slot. */
    predicate Mirrored()
      reads this
    {
      connected <==> stream != null
    }

    /** What `lock_stream` finds: the flag first, then usability, then the slot. */
    function Gate(): Option<Refusal>
      reads this, flags
    {
      if flags.active then Some(Busy)
      else if !flags.usable then Some(Unusable)
      else if stream == null then Some(NoStream)
      else None
    }

    /** A client that may send has nothing unread but what its next command drains. */
    predicate Synchronised()
      reads this, flags, stream
    {
      Gate().None? ==> stream.Quiet()
    }

    /** The client between two calls, as a state of TokioRuns. */
    function View(): TokioRuns.State
      reads this, flags, stream
    {
      var (wire, deferred) := if stream == null then (FRESH, false) else (stream.wire, stream.deferred);
      TokioRuns.State(None, stream != null, connected, flags.active, flags.usable, wire, deferred,
                      TokioRuns.Settled, None, map[])
    }

    /** A blocked operation says why and touches nothing. */
    twostate predicate Untouched(outcome: Outcome)
      reads this, flags, stream
    {
      && old(Gate()).Some? && outcome == Blocked(old(Gate()).value) && stream == old(stream)
      && flags.usable == old(flags.usable) && flags.active == old(flags.active)
      && (stream != null ==> stream.wire == old(stream.wire) && stream.deferred == old(stream.deferred))
    }

    constructor ()
      ensures Mirrored() && fresh(flags) && stream == null && !flags.active && flags.usable && Synchronised()
    {
      flags := new Flags();
      stream, connected := null, false;
    }

    /** `lock_stream` once the lock is held: the gate, then the guard. */
    method LockStream() returns (refusal: Option<Refusal>, operation: OperationGuard?)
      ensures refusal == Gate() && (operation != null <==> refusal.None?)
      ensures operation != null ==> fresh(operation) && operation.flags == flags && !operation.completed
    {
      operation := null;
      if flags.active {
        return Some(Busy), null;
      }
      if !flags.usable {
        return Some(Unusable), null;
      }
      if stream == null {
        return Some(NoStream), null;
      }
      refusal := None;
      operation := new OperationGuard(flags);
    }

    method RecordFtpError(error: FtpError)
      modifies flags
      ensures flags.usable == (old(flags.usable) && !SetupRequiresReconnect(error)) && flags.active == old(flags.active)
    {
      if SetupRequiresReconnect(error) {
        flags.usable := false;
      }
    }

    /** `run_command`: two awaits, and a future dropped at either poisons the client. */
    method RunCommand(a: PlainAnswer, f: Future) returns (outcome: Outcome)
      modifies flags, stream, f
      ensures old(Gate()).Some? ==> Untouched(outcome)
      ensures old(Gate()).None? ==> stream == old(stream) && flags.active == old(flags.active)
      ensures old(Gate()).None? ==> (outcome == Cancelled <==> old(f.polls) < 2)
      ensures outcome == Cancelled ==> !flags.usable
      ensures old(Gate()).None? && outcome != Cancelled ==>
                var (wire, usable, result) := CommandBody(Drained(old(stream.wire), old(stream.deferred)), true, a);
                && stream.wire == wire && !stream.deferred && flags.usable == usable
                && outcome == if result.Ok? then Completed else FtpFailure(result.error)
      ensures old(Synchronised()) ==> Synchronised()
    {
      var refusal, operation := LockStream();
      if operation == null {
        return Blocked(refusal.value);
      }
      var dropped := stream.Settle(f);
      if dropped {
        operation.Drop();
        return Cancelled;
      }
      if Clean(stream.wire) { CommandKeepsSync(stream.wire, true, a); }
      var response := stream.Exchange(a, f);
      if response.None? {
        operation.Drop();
        return Cancelled;
      }
      operation.Complete();
      var result := Expect(response.value, DONE);
      if result.Ok? {
        return Completed;
      }
      RecordFtpError(result.error);
      outcome := FtpFailure(result.error);
    }

    /** `read_list_bytes`; None when the future was dropped at one of its three awaits. */
    method ReadList(env: ListAnswers, f: Future) returns (result: Option<(Option<RemoteError>, bool)>)
      requires stream != null
      modifies flags, stream, f
      ensures stream == old(stream) && stream.deferred == old(stream.deferred) && flags.active == old(flags.active)
      ensures result.Some? ==>
                && (stream.wire, result.value.0, result.value.1) == ReadListBytes(old(stream.wire), env)
                && flags.usable == (old(flags.usable) && !BuilderFailed(env.list))
    {
      var setup, _ := stream.BeginTransfer(env.list, f);
      if BuilderFailed(env.list) {
        flags.usable := false;
      }
      if setup.None? {
        return None;
      }
      if setup.value.Err? {
        return Some((Some(FromFtp(setup.value.error)), SetupRequiresReconnect(setup.value.error)));
      }
      var dropped := f.Await();   // read_to_end
      if dropped {
        return None;
      }
      var finish := stream.FinishTransfer(!env.readFails, env.completion, f);
      if finish.None? {
        return None;
      }
      result := Some(Aggregate(env.readFails, finish.value));
    }

    /** `list_dir_raw`: the failure is recorded right after the guard completes, in the same poll. */
    method ListDirRaw(env: ListAnswers, f: Future) returns (outcome: Outcome)
      modifies flags, stream, f
      ensures old(Gate()).Some? ==> Untouched(outcome)
      ensures old(Gate()).None? ==> stream == old(stream) && flags.active == old(flags.active)
      ensures outcome == Cancelled ==> !flags.usable
      ensures old(Gate()).None? && outcome != Cancelled ==>
                var (wire, usable, failure) := ListBody(Drained(old(stream.wire), old(stream.deferred)), true, env);
                && stream.wire == wire && !stream.deferred && flags.usable == usable
                && outcome == if failure.Some? then RemoteFailure(failure.value) else Completed
      ensures old(Synchronised()) ==> Synchronised()
    {
      var refusal, operation := LockStream();
      if operation == null {
        return Blocked(refusal.value);
      }
      var dropped := stream.Settle(f);
      if dropped {
        operation.Drop();
        return Cancelled;
      }
      RecordingAddsNothing(stream.wire, env);
      if Clean(stream.wire) { ListKeepsSync(stream.wire, true, env); }
      var result := ReadList(env, f);
      if result.None? {
        operation.Drop();
        return Cancelled;
      }
      operation.Complete();
      var (failure, requiresReconnect) := result.value;
      if requiresReconnect {
        flags.usable := false;
      }
      outcome := if failure.Some? then RemoteFailure(failure.value) else Completed;
    }

    /** The flag of the LIST reader is at least as strict as recording its error. */
    static lemma RecordingAddsNothing(w: Wire, env: ListAnswers)
      ensures var (_, failure, requiresReconnect) := ReadListBytes(w, env);
              failure.Some? && RequiresReconnect(failure.value) ==> requiresReconnect
    {
    }

    method StartTransfer() returns (guard: TransferGuard)
      modifies flags
      ensures fresh(guard) && guard.flags == flags && flags.active && flags.usable == old(flags.usable)
    {
      flags.active := true;
      guard := new TransferGuard(flags);
    }

    /** `create` and `append`. */
    method Store(a: Answer, f: Future) returns (outcome: Outcome, writer: TokioWriteStream?)
      modifies flags, stream, f
      ensures old(Gate()).Some? ==> Untouched(outcome) && writer == null
      ensures outcome == Cancelled ==> writer == null && !flags.usable && !flags.active
      ensures old(Gate()).None? ==> stream == old(stream)
      ensures old(Gate()).None? && outcome != Cancelled ==>
                var o := StoreBody(Drained(old(stream.wire), old(stream.deferred)), true, a);
                && stream.wire == o.wire && !stream.deferred && flags.usable == o.usable
                && (writer != null <==> o.result.Started?) && flags.active == o.result.Started?
                && outcome == (if o.result.Refused? then FtpFailure(o.result.refusal) else Completed)
                && (writer != null ==>
                      fresh(writer) && writer.inner && writer.control == stream && writer.guard.flags == flags)
      ensures old(Synchronised()) ==> Synchronised() && (writer != null ==> Clean(stream.wire) && !stream.deferred)
    {
      writer := null;
      var refusal, operation := LockStream();
      if operation == null {
        return Blocked(refusal.value), null;
      }
      var dropped := stream.Settle(f);
      if dropped {
        operation.Drop();
        return Cancelled, null;
      }
      if Clean(stream.wire) { StoreKeepsSync(stream.wire, true, a); }
      var result, _ := stream.BeginTransfer(a, f);
      if BuilderFailed(a) {
        flags.usable := false;
      }
      if result.None? {
        operation.Drop();
        return Cancelled, null;
      }
      if result.value.Err? {
        RecordFtpError(result.value.error);
        operation.Complete();
        return FtpFailure(result.value.error), null;
      }
      var guard := StartTransfer();
      operation.Complete();
      writer := new TokioWriteStream(stream, guard);
      outcome := Completed;
    }

    /** The commands of `open`; None when the future was dropped at one of their awaits. */
    method Retrieve(offset: nat, maxUsize: nat, env: OpenAnswers, f: Future) returns (result: Option<TransferResult>)
      requires stream != null
      modifies flags, stream, f
      ensures stream == old(stream) && stream.deferred == old(stream.deferred) && flags.active == old(flags.active)
      ensures result.Some? ==>
                OpenBody(old(stream.wire), old(flags.usable), offset, maxUsize, env)
                == TransferOutcome(stream.wire, flags.usable, result.value)
    {
      var resumed := false;
      if 0 < offset <= maxUsize {
        var rest := stream.ResumeTransfer(offset, env.rest, f);
        if rest.None? {
          return None;
        }
        resumed := rest.value.Ok?;
        if !resumed && !(rest.value.error.UnexpectedResponse? && rest.value.error.status != NOT_AVAILABLE) {
          var error := FromFtp(rest.value.error);
          var poisoned := RemoteErrorRequiresReconnect(error);
          if poisoned {
            flags.usable := false;
          }
          return Some(Aborted(error));
        }
      }
      var first, begins := stream.BeginTransfer(env.retr, f);
      if BuilderFailed(env.retr) {
        flags.usable := false;
      }
      if first.None? {
        return None;
      }
      if resumed && first.value.Err? {
        result := RetrieveAgain(env, f);
        return;
      }
      result := Some(Judge(first.value, resumed, begins));
      if first.value.Err? {
        RecordFtpError(first.value.error);
      }
    }

    static function Judge(result: FtpResult, resumed: bool, begins: Option<nat>): TransferResult {
      if result.Ok? then Started(resumed, begins) else Refused(result.error)
    }

    /** The marker reset and the second `RETR`. */
    method RetrieveAgain(env: OpenAnswers, f: Future) returns (result: Option<TransferResult>)
      requires stream != null
      modifies flags, stream, f
      ensures stream == old(stream) && stream.deferred == old(stream.deferred) && flags.active == old(flags.active)
      ensures result.Some? ==>
                Retry(old(stream.wire), old(flags.usable), env)
                == TransferOutcome(stream.wire, flags.usable, result.value)
    {
      var reset := stream.ResumeTransfer(0, env.reset, f);
      if reset.None? {
        return None;
      }
      if reset.value.Err? {
        flags.usable := false;
        return Some(Aborted(FromFtp(reset.value.error)));
      }
      var second, begins := stream.BeginTransfer(env.again, f);
      if BuilderFailed(env.again) {
        flags.usable := false;
      }
      if second.None? {
        return None;
      }
      result := Some(Judge(second.value, false, begins));
      if second.value.Err? {
        RecordFtpError(second.value.error);
      }
    }

    /** The part of `open` under the lock; a started transfer is handed over with its guard. */
    method OpenTransfer(offset: nat, maxUsize: nat, env: OpenAnswers, f: Future)
      returns (outcome: Outcome, begins: Option<nat>, resumed: bool, guard: TransferGuard?)
      modifies flags, stream, f
      ensures old(Gate()).Some? ==> Untouched(outcome) && guard == null
      ensures outcome == Cancelled ==> guard == null && !flags.usable && !flags.active
      ensures old(Gate()).None? ==> stream == old(stream)
      ensures old(Gate()).None? && outcome != Cancelled ==>
                var o := OpenBody(Drained(old(stream.wire), old(stream.deferred)), true, offset, maxUsize, env);
                && stream.wire == o.wire && !stream.deferred && flags.usable == o.usable
                && (guard != null <==> o.result.Started?) && flags.active == o.result.Started?
                && (guard != null ==> fresh(guard) && guard.flags == flags && o.result == Started(resumed, begins))
                && outcome == match o.result
                              case Started(_, _) => Completed
                              case Refused(refusal) => FtpFailure(refusal)
                              case Aborted(failure) => RemoteFailure(failure)
      ensures old(Synchronised()) && !AbsorbsStray(offset, maxUsize, env) ==>
                Synchronised() && (guard != null ==> Clean(stream.wire) && !stream.deferred)
    {
      begins, resumed, guard := None, false, null;
      var refusal, operation := LockStream();
      if operation == null {
        outcome := Blocked(refusal.value);
        return;
      }
      outcome := Cancelled;
      var dropped := stream.Settle(f);
      if dropped {
        operation.Drop();
        return;
      }
      if Clean(stream.wire) && !AbsorbsStray(offset, maxUsize, env) {
        OpenKeepsSyncIff(stream.wire, true, offset, maxUsize, env);
        StartedTransfersAreClean(stream.wire, true, offset, maxUsize, env);
      }
      var result := Retrieve(offset, maxUsize, env, f);
      if result.None? {
        operation.Drop();
        return;
      }
      match result.value {
        case Aborted(failure) => outcome := RemoteFailure(failure);
        case Refused(refusal) => outcome := FtpFailure(refusal);
        case Started(r, b) =>
          outcome, resumed, begins := Completed, r, b;
          guard := StartTransfer();
      }
      operation.Complete();
    }

    /**
     * `open`. Dropped while it holds the lock, or in its local skip, it poisons the client; only
     * dropped while it finishes, undrained, a transfer whose skip failed, it shares the gap of `finish`.
     */
    method Open(
      file: seq<Byte>, offset: nat, length: Option<nat>, maxUsize: nat, env: OpenAnswers,
      chunks: nat -> Chunk, completion: Completion, f: Future, bye: Farewell)
      returns (outcome: Outcome, reader: TokioReadStream?)
      modifies flags, stream, f
      ensures old(Gate()).Some? ==> Untouched(outcome) && reader == null
      ensures outcome == Cancelled ==> reader == null && !flags.usable && !flags.active
      ensures old(Gate()).None? ==> stream == old(stream)
      ensures old(Gate()).None? && outcome != Cancelled ==>
                var o := OpenBody(Drained(old(stream.wire), old(stream.deferred)), true, offset, maxUsize, env);
                && (o.result.Refused? ==> outcome == FtpFailure(o.result.refusal))
                && (o.result.Aborted? ==> outcome == RemoteFailure(o.result.failure))
                && (!o.result.Started? ==>
                      reader == null && !flags.active && flags.usable == o.usable && stream.wire == o.wire)
                && (o.result.Started? ==>
                      var wanted := OpenedReader(file, offset, length, o.result, chunks);
                      && (reader != null <==> wanted.Some?)
                      && (reader != null ==>
                            && outcome == Completed && fresh(reader) && reader.control == stream
                            && reader.guard.flags == flags && reader.inner.Some? && reader.View() == wanted.value
                            && flags.active && flags.usable == o.usable && stream.wire == o.wire)
                      && (reader == null ==> (outcome.SkipFailed? || outcome.CleanupCancelled?) && !flags.active))
      ensures old(Synchronised()) && !AbsorbsStray(offset, maxUsize, env) && outcome != CleanupCancelled(false) ==>
                Synchronised() && (reader != null ==> Clean(stream.wire) && !stream.deferred && EofSound(reader.View()))
    {
      reader := null;
      var begins, resumed, guard;
      outcome, begins, resumed, guard := OpenTransfer(offset, maxUsize, env, f);
      if guard != null {
        var data := if begins.Some? then file[Min(begins.value, |file|)..] else [];
        var skip := offset > 0 && !resumed;
        outcome, reader := SkipLocally(stream, guard, data, length, skip, offset, chunks, completion, f, bye);
      }
    }

    /** The part of `open` after the lock is released. */
    static method SkipLocally(
      control: AsyncControl, guard: TransferGuard, data: seq<Byte>, length: Option<nat>, skip: bool, offset: nat,
      chunks: nat -> Chunk, completion: Completion, f: Future, bye: Farewell)
      returns (outcome: Outcome, reader: TokioReadStream?)
      modifies control, guard.flags, f
      ensures var start := Reader(data, length, false);
              var (skipped, ok) := if skip then RangedRead.SkipPrefix(start, offset, chunks) else (start, true);
              && (outcome.Completed? || outcome.SkipFailed? || outcome.Cancelled? || outcome.CleanupCancelled?)
              && (reader != null <==> outcome == Completed)
              && (outcome == Completed ==> ok) && (outcome.SkipFailed? || outcome.CleanupCancelled? ==> !ok)
              && (reader != null ==>
                    && fresh(reader) && reader.control == control && reader.guard == guard && reader.inner.Some?
                    && reader.View() == skipped && EofSound(skipped)
                    && control.wire == old(control.wire) && control.deferred == old(control.deferred)
                    && guard.flags.active == old(guard.flags.active) && guard.flags.usable == old(guard.flags.usable))
              && (reader == null ==> !guard.flags.active)
      ensures outcome == Cancelled ==> !guard.flags.usable
      ensures Clean(old(control.wire)) && !old(control.deferred) && guard.flags.usable
              && (outcome == SkipFailed || outcome == CleanupCancelled(true)) ==>
                control.Quiet()
    {
      var stream := new TokioReadStream(control, data, length, guard);
      SkipReachesItsOffset(data, offset, chunks, 0);
      if skip {
        var ok := stream.SkipPrefix(offset, chunks, f);
        if ok.None? {
          stream.Drop(bye);
          return Cancelled, null;
        }
        if !ok.value {
          var finished := stream.FinishInner(chunks, completion, f, bye);   // finish_after_skip consumes the stream
          stream.Drop(bye);
          return if finished.Forgotten? then CleanupCancelled(finished.drained) else SkipFailed, null;
        }
      }
      outcome, reader := Completed, stream;
    }

    /** `connect`; a dropped future leaves the client without a stream. */
    method Connect(ok: bool, f: Future) returns (up: bool)
      requires Mirrored()
      modifies this`stream, this`connected, flags, f
      ensures Mirrored() && flags.active == old(flags.active)
      ensures old(flags.active) || old(Gate()).None? ==>
                !up && stream == old(stream) && flags.usable == old(flags.usable)
      ensures !old(flags.active) && old(Gate()).Some? ==>
                && up == (ok && old(f.polls) > 0) && flags.usable && (stream != null <==> up)
                && (up ==> fresh(stream) && stream.wire == FRESH && !stream.deferred)
      ensures old(Synchronised()) ==> Synchronised()
      ensures View() == TokioRuns.ConnectAsync(old(View()), ok && old(f.polls) > 0)
    {
      if flags.active || (flags.usable && stream != null) {
        return false;
      }
      if !flags.usable {
        stream, connected := null, false;
        flags.usable := true;
      }
      var dropped := f.Await();
      if dropped || !ok {
        return false;
      }
      stream := new AsyncControl();
      connected := true;
      up := true;
    }

    /** `disconnect`: the mirror falls with the slot, before the farewell is sent. */
    method Disconnect(quit: PlainAnswer, f: Future) returns (outcome: Outcome)
      requires Mirrored()
      modifies this`stream, this`connected, flags, stream, f
      ensures Mirrored() && flags.active == old(flags.active)
      ensures old(flags.active) ==>
                outcome == Blocked(Busy) && stream == old(stream) && flags.usable == old(flags.usable)
      ensures !old(flags.active) ==> stream == null
      ensures !old(flags.active) && old(stream) == null ==>
                outcome == Blocked(NoStream) && flags.usable == old(flags.usable)
      ensures !old(flags.active) && old(stream) != null && !old(flags.usable) ==>
                outcome == Blocked(Unusable) && flags.usable && old(stream).wire == old(stream.wire)
      ensures old(Gate()).None? ==>
                (outcome == Cancelled <==> old(f.polls) < 2) && (outcome == Cancelled ==> flags.usable)
      ensures old(Gate()).None? && outcome != Cancelled ==>
                var (wire, response) := Send(Drained(old(stream.wire), old(stream.deferred)), quit);
                var result := Expect(response, {221});
                && old(stream).wire == wire && flags.usable == !(result.Err? && SetupRequiresReconnect(result.error))
                && outcome == if result.Ok? then Completed else RemoteFailure(FromFtp(result.error))
      ensures outcome != Cancelled ==>
                var s := TokioRuns.DisconnectAsync(old(View()), quit);
                View() == s.(wire := View().wire, deferred := View().deferred)
    {
      if flags.active {
        return Blocked(Busy);
      }
      var usable := flags.usable;
      if stream == null {
        return Blocked(NoStream);
      }
      var owned: AsyncControl := stream;
      stream, connected := null, false;
      flags.usable := true;
      if !usable {
        return Blocked(Unusable);
      }
      var dropped := owned.Settle(f);
      if dropped {
        return Cancelled;
      }
      var response := owned.Exchange(quit, f);
      if response.None? {
        return Cancelled;
      }
      var result := Expect(response.value, {221});
      if result.Ok? {
        return Completed;
      }
      var poisoned := RemoteErrorRequiresReconnect(FromFtp(result.error));
      if poisoned {
        flags.usable := false;
      }
      outcome := RemoteFailure(FromFtp(result.error));
    }
  }
}
