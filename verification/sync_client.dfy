/**
 * The blocking client, its transfer guard and its owned streams as objects that share two flags
 * and the control connection (src/client/sync.rs, src/client/sync/stream.rs, src/client/guard.rs).
 *
 * Each method is tied to the wire and reader functions of ControlChannel and RangedRead, over
 * which SyncRuns proves the properties of whole runs. Mapped errors shrink to what the caller can
 * tell apart; server, network and scheduling choices are parameters.
 */
module SyncClient {
  import opened Wrappers
  import opened Errors
  import opened ControlChannel
  import opened RangedRead
  import opened Guards
  import SyncRuns

  /** One connected control stream. */
  class Control {
    var wire: Wire

    constructor ()
      ensures wire == FRESH
    {
      wire := FRESH;
    }
  }

  class FtpReadStream {
    const guard: TransferGuard
    const control: Control
    var inner: Option<seq<Byte>>   // the unread data of the transfer; None once finalized
    var remaining: Option<nat>
    var atEof: bool

    /** The stream as a value. */
    function View(): Reader
      requires inner.Some?
      reads this
    {
      Reader(inner.value, remaining, atEof)
    }

    constructor (control: Control, data: seq<Byte>, length: Option<nat>, guard: TransferGuard)
      ensures this.control == control && this.guard == guard && inner.Some? && View() == Reader(data, length, false)
    {
      this.control, this.guard := control, guard;
      inner, remaining, atEof := Some(data), length, false;
    }

    /** `read_limited`: an exhausted budget does not touch the socket. */
    method ReadLimited(bufLen: nat, maxUsize: nat, c: Chunk) returns (result: IoResult)
      requires inner.Some? && bufLen > 0
      modifies this`inner, this`remaining
      ensures inner.Some?
      ensures var (r, expected) := SyncRead(old(View()), bufLen, maxUsize, c);
              result == expected && View() == r.(atEof := old(atEof))
    {
      var limit := bufLen;
      if remaining.Some? {
        if remaining.value == 0 {
          return Data([]);
        }
        limit := Limit(remaining.value, bufLen, maxUsize);
      }
      if c.Failed? {
        return IoFailure;
      }
      var k := Granted(|inner.value|, limit, c.n);
      result := Data(inner.value[..k]);
      inner := Some(inner.value[k..]);
      if remaining.Some? {
        remaining := Some(remaining.value - k);
      }
    }

    method Read(bufLen: nat, maxUsize: nat, c: Chunk) returns (result: IoResult)
      requires inner.Some?
      modifies this
      ensures inner.Some? && (View(), result) == SyncRead(old(View()), bufLen, maxUsize, c)
    {
      if bufLen == 0 {
        return Data([]);
      }
      result := ReadLimited(bufLen, maxUsize, c);
      if result == Data([]) && remaining != Some(0) {
        atEof := true;
      }
    }

    method SkipPrefix(offset: nat, chunks: nat -> Chunk) returns (ok: bool)
      requires inner.Some?
      modifies this
      ensures inner.Some? && (View(), ok) == RangedRead.SkipPrefix(old(View()), offset, chunks)
    {
      var rest := inner.value;
      var left: nat, i: nat := offset, 0;
      while left > 0
        invariant left <= offset
        invariant SkipLoop(old(inner.value), offset, chunks, 0) == SkipLoop(rest, left, chunks, i)
        decreases left
      {
        if chunks(i).Failed? {
          inner := Some(rest);
          return false;
        }
        var k := Granted(|rest|, left, chunks(i).n);
        if k == 0 {
          break;
        }
        rest, left, i := rest[k..], left - k, i + 1;
      }
      inner := Some(rest);
      if left > 0 {
        atEof := true;
      }
      ok := true;
    }

    /** `finish_inner`: drain unless at end of file, finalize exactly once, invalidate on any failure. */
    method FinishInner(chunks: nat -> Chunk, completion: Completion) returns (ok: bool)
      requires inner.Some?
      modifies this, control, guard.flags
      ensures inner.None? && guard.flags.active == old(guard.flags.active)
      ensures (control.wire, ok) == FinishRead(old(control.wire), old(View()), chunks, completion)
      ensures guard.flags.usable == (old(guard.flags.usable) && ok)
      ensures remaining == old(remaining) && atEof == old(atEof)
    {
      var rest, drained := inner.value, true;
      var i: nat := 0;
      inner := None;
      if !atEof {
        while true
          invariant Drain(old(inner.value), chunks, 0) == Drain(rest, chunks, i)
          invariant control.wire == old(control.wire) && inner.None?
          invariant guard.flags.active == old(guard.flags.active) && guard.flags.usable == old(guard.flags.usable)
          decreases |rest|
        {
          if chunks(i).Failed? {
            drained := false;
            break;
          }
          if rest == [] {
            break;
          }
          rest, i := rest[Granted(|rest|, |rest|, chunks(i).n)..], i + 1;
        }
      }
      var (wire, finished) := ControlChannel.Finish(control.wire, rest == [], completion);
      control.wire := wire;
      ok := drained && finished.Ok?;
      if !ok {
        guard.Invalidate();
      }
    }

    /** Consuming finish: drop then finds nothing to finalize and releases the guard last. */
    method Finish(chunks: nat -> Chunk, completion: Completion) returns (ok: bool)
      requires inner.Some?
      modifies this, control, guard.flags
      ensures inner.None? && !guard.flags.active && control.wire.finished == old(control.wire.finished) + 1
      ensures (control.wire, ok) == FinishRead(old(control.wire), old(View()), chunks, completion)
      ensures guard.flags.usable == (old(guard.flags.usable) && ok)
    {
      ok := FinishInner(chunks, completion);
      Drop(chunks, completion);
    }

    /** Drop finalizes a stream that was not finished, once, and lowers the flag afterwards. */
    method Drop(chunks: nat -> Chunk, completion: Completion)
      modifies this, control, guard.flags
      ensures inner.None? && !guard.flags.active
      ensures control.wire.finished == old(control.wire.finished) + (if old(inner).Some? then 1 else 0)
      ensures old(inner).None? ==> control.wire == old(control.wire) && guard.flags.usable == old(guard.flags.usable)
      ensures old(inner).Some? ==>
                var (wire, ok) := FinishRead(old(control.wire), old(View()), chunks, completion);
                control.wire == wire && guard.flags.usable == (old(guard.flags.usable) && ok)
    {
      if inner.Some? {
        var _ := FinishInner(chunks, completion);
      }
      guard.Drop();
    }
  }

  class FtpWriteStream {
    const guard: TransferGuard
    const control: Control
    var inner: bool                // false once finalized

    constructor (control: Control, guard: TransferGuard)
      ensures this.control == control && this.guard == guard && inner
    {
      this.control, this.guard, inner := control, guard, true;
    }

    method FinishInner(flushed: bool, completion: Completion) returns (ok: bool)
      requires inner
      modifies this, control, guard.flags
      ensures !inner && guard.flags.active == old(guard.flags.active)
      ensures (control.wire, ok) == FinishWrite(old(control.wire), flushed, completion)
      ensures guard.flags.usable == (old(guard.flags.usable) && ok)
    {
      inner := false;
      var (wire, finished) := ControlChannel.Finish(control.wire, true, completion);
      control.wire := wire;
      ok := flushed && finished.Ok?;
      if !ok {
        guard.Invalidate();
      }
    }

    method Finish(flushed: bool, completion: Completion) returns (ok: bool)
      requires inner
      modifies this, control, guard.flags
      ensures !inner && !guard.flags.active
      ensures (control.wire, ok) == FinishWrite(old(control.wire), flushed, completion)
      ensures guard.flags.usable == (old(guard.flags.usable) && ok)
    {
      ok := FinishInner(flushed, completion);
      Drop(flushed, completion);
    }

    method Drop(flushed: bool, completion: Completion)
      modifies this, control, guard.flags
      ensures !inner && !guard.flags.active
      ensures !old(inner) ==> control.wire == old(control.wire) && guard.flags.usable == old(guard.flags.usable)
      ensures old(inner) ==>
                var (wire, ok) := FinishWrite(old(control.wire), flushed, completion);
                control.wire == wire && guard.flags.usable == (old(guard.flags.usable) && ok)
    {
      if inner {
        var _ := FinishInner(flushed, completion);
      }
      guard.Drop();
    }
  }

  /** Why an operation did not reach the control stream, or that it did. */
  datatype Gate = Passed | Busy | Unusable | NoStream

  datatype Outcome =
    | Blocked(gate: Gate)
    | Completed
    | SkipFailed
    | FtpFailure(error: FtpError)
    | RemoteFailure(cause: RemoteError)

  class FtpFs {
    const flags: Flags
    var stream: Control?

    constructor ()
      ensures fresh(flags) && stream == null && !flags.active && flags.usable
    {
      flags := new Flags();
      stream := null;
    }

    /** What a thread that holds the lock finds: the flag first, then usability, then the slot. */
    function GateState(): Gate
      reads this, flags
    {
      if flags.active then Busy else if !flags.usable then Unusable else if stream == null then NoStream else Passed
    }

    /** A client that may send has nothing unread and no restart marker pending. */
    predicate Synchronised()
      reads this, flags, stream
    {
      GateState().Passed? ==> Clean(stream.wire)
    }

    /** The client between two calls, as a state of SyncRuns. */
    function View(): SyncRuns.State
      reads this, flags, stream
    {
      var wire := if stream == null then FRESH else stream.wire;
      SyncRuns.State(None, stream != null, flags.active, flags.usable, wire, stream != null, None, map[])
    }

    method CheckOperationState() returns (gate: Gate)
      ensures gate == if GateState().NoStream? then Passed else GateState()
    {
      if flags.active {
        return Busy;
      }
      if !flags.usable {
        return Unusable;
      }
      gate := Passed;
    }

    method RecordFtpError(error: FtpError)
      modifies flags
      ensures flags.usable == (old(flags.usable) && !SetupRequiresReconnect(error)) && flags.active == old(flags.active)
    {
      if SetupRequiresReconnect(error) {
        flags.usable := false;
      }
    }

    method RecordRemoteError(error: RemoteError)
      modifies flags
      ensures flags.usable == (old(flags.usable) && !RequiresReconnect(error)) && flags.active == old(flags.active)
    {
      var poisoned := RemoteErrorRequiresReconnect(error);
      if poisoned {
        flags.usable := false;
      }
    }

    method StartTransfer() returns (guard: TransferGuard)
      modifies flags
      ensures fresh(guard) && guard.flags == flags && flags.active && flags.usable == old(flags.usable)
    {
      flags.active := true;
      guard := new TransferGuard(flags);
    }

    /** `mkdir`, `rm`, `rmdir` and `site` under `with_stream`. */
    method Command(a: PlainAnswer) returns (outcome: Outcome)
      modifies flags, stream
      ensures stream == old(stream) && flags.active == old(flags.active)
      ensures !old(GateState()).Passed? ==>
                outcome == Blocked(old(GateState())) && flags.usable == old(flags.usable)
                && (stream != null ==> stream.wire == old(stream.wire))
      ensures old(GateState()).Passed? ==>
                var (wire, usable, result) := CommandBody(old(stream.wire), true, a);
                && stream.wire == wire && flags.usable == usable
                && outcome == if result.Ok? then Completed else FtpFailure(result.error)
      ensures old(Synchronised()) ==> Synchronised()
    {
      var gate := CheckOperationState();
      if gate != Passed {
        return Blocked(gate);
      }
      if stream == null {
        return Blocked(NoStream);
      }
      ghost var before := stream.wire;
      var (wire, response) := Send(stream.wire, a);
      stream.wire := wire;
      var result := Expect(response, DONE);
      if result.Err? {
        RecordFtpError(result.error);
        outcome := FtpFailure(result.error);
      } else {
        outcome := Completed;
      }
      if Clean(before) { CommandKeepsSync(before, true, a); }
    }

    /** `create` and `append`. */
    method Store(a: Answer) returns (outcome: Outcome, writer: FtpWriteStream?)
      modifies flags, stream
      ensures stream == old(stream)
      ensures !old(GateState()).Passed? ==>
                outcome == Blocked(old(GateState())) && writer == null
                && flags.usable == old(flags.usable) && flags.active == old(flags.active)
                && (stream != null ==> stream.wire == old(stream.wire))
      ensures old(GateState()).Passed? ==>
                var o := StoreBody(old(stream.wire), true, a);
                && stream.wire == o.wire && flags.usable == o.usable && flags.active == o.result.Started?
                && (writer != null <==> o.result.Started?)
                && (writer != null ==>
                      && fresh(writer) && writer.inner && writer.control == stream && writer.guard.flags == flags
                                       && fresh(writer.guard) && outcome == Completed)
                && (o.result.Refused? ==> outcome == FtpFailure(o.result.refusal))
      ensures old(Synchronised()) ==> Synchronised()
    {
      writer := null;
      var gate := CheckOperationState();
      if gate != Passed {
        return Blocked(gate), null;
      }
      if stream == null {
        return Blocked(NoStream), null;
      }
      ghost var before := stream.wire;
      var (wire, result, _) := Transfer(stream.wire, a);
      stream.wire := wire;
      if BuilderFailed(a) {
        flags.usable := false;
      }
      if Clean(before) { StoreKeepsSync(before, true, a); }
      if result.Err? {
        RecordFtpError(result.error);
        return FtpFailure(result.error), null;
      }
      var guard := StartTransfer();
      writer := new FtpWriteStream(stream, guard);
      outcome := Completed;
    }

    /**
     * `list_dir_raw`: the stream leaves its slot while the listing runs without the lock, and is
     * back before the flag falls.
     */
    method ListDirRaw(env: ListAnswers) returns (outcome: Outcome)
      modifies this`stream, flags, stream
      ensures stream == old(stream) && flags.active == old(flags.active)
      ensures !old(GateState()).Passed? ==>
                outcome == Blocked(old(GateState())) && flags.usable == old(flags.usable)
                && (stream != null ==> stream.wire == old(stream.wire))
      ensures old(GateState()).Passed? ==>
                var (wire, usable, failure) := ListBody(old(stream.wire), true, env);
                && stream.wire == wire && flags.usable == usable
                && outcome == if failure.Some? then RemoteFailure(failure.value) else Completed
      ensures old(Synchronised()) ==> Synchronised()
    {
      var gate := CheckOperationState();
      if gate != Passed {
        return Blocked(gate);
      }
      if stream == null {
        return Blocked(NoStream);
      }
      var owned: Control := stream;
      stream := null;
      flags.active := true;
      if Clean(owned.wire) { ListKeepsSync(owned.wire, true, env); }
      var (wire, failure, requiresReconnect) := ReadListBytes(owned.wire, env);
      owned.wire := wire;
      if BuilderFailed(env.list) || requiresReconnect {
        flags.usable := false;
      }
      if failure.Some? {
        RecordRemoteError(failure.value);
      }
      stream := owned;
      flags.active := false;
      outcome := if failure.Some? then RemoteFailure(failure.value) else Completed;
    }

    /** `connect`: a poisoned stream is dropped, never reused; `ok` is whether a new one comes up. */
    method Connect(ok: bool) returns (connected: bool)
      modifies this`stream, flags
      ensures flags.active == old(flags.active)
      ensures old(flags.active) || old(GateState()).Passed? ==>
                !connected && stream == old(stream) && flags.usable == old(flags.usable)
      ensures !old(flags.active) && !old(GateState()).Passed? ==>
                && connected == ok && flags.usable
                && (ok ==> stream != null && fresh(stream) && stream.wire == FRESH)
                && (!ok ==> stream == null)
      ensures old(Synchronised()) ==> Synchronised()
      ensures View() == SyncRuns.ConnectClient(old(View()), ok)
    {
      if flags.active || (flags.usable && stream != null) {
        return false;
      }
      if !flags.usable {
        stream := null;
        flags.usable := true;
      }
      if !ok {
        return false;
      }
      stream := new Control();
      connected := true;
    }

    /** `disconnect`: takes the stream out for good; only a usable stream is asked to quit. */
    method Disconnect(quit: PlainAnswer) returns (outcome: Outcome)
      modifies this`stream, flags, stream
      ensures flags.active == old(flags.active)
      ensures old(flags.active) ==>
                outcome == Blocked(Busy) && stream == old(stream) && flags.usable == old(flags.usable)
      ensures !old(flags.active) && old(stream) == null ==>
                outcome == Blocked(NoStream) && stream == null && flags.usable == old(flags.usable)
      ensures !old(flags.active) && old(stream) != null ==>
                && stream == null
                && (!old(flags.usable) ==>
                      outcome == Blocked(Unusable) && flags.usable && old(stream).wire == old(stream.wire))
                && (old(flags.usable) ==>
                      var (wire, response) := Send(old(stream.wire), quit);
                      var result := Expect(response, {221});
                      && old(stream).wire == wire
                      && flags.usable == !(result.Err? && SetupRequiresReconnect(result.error))
                      && outcome == if result.Ok? then Completed else RemoteFailure(FromFtp(result.error)))
      ensures View() == SyncRuns.DisconnectClient(old(View()), quit).(wire := View().wire)
    {
      if flags.active {
        return Blocked(Busy);
      }
      var usable := flags.usable;
      if stream == null {
        return Blocked(NoStream);
      }
      var owned: Control := stream;
      stream := null;
      flags.usable := true;
      if !usable {
        return Blocked(Unusable);
      }
      var (wire, response) := Send(owned.wire, quit);
      owned.wire := wire;
      var result := Expect(response, {221});
      if result.Ok? {
        return Completed;
      }
      RecordRemoteError(FromFtp(result.error));
      outcome := RemoteFailure(FromFtp(result.error));
    }

    /** The commands of `open`, run under the lock on the connected stream. */
    method Retrieve(offset: nat, maxUsize: nat, env: OpenAnswers) returns (outcome: TransferResult)
      requires stream != null
      modifies flags, stream
      ensures stream == old(stream) && flags.active == old(flags.active)
      ensures TransferOutcome(stream.wire, flags.usable, outcome)
           == OpenBody(old(stream.wire), old(flags.usable), offset, maxUsize, env)
    {
      var resumed := false;
      if offset > 0 {
        var (asked, request) := RequestOffset(stream.wire, offset, maxUsize, env.rest);
        stream.wire := asked;
        match request
        case Unreachable(error) =>
          RecordRemoteError(error);
          return Aborted(error);
        case Negotiated(accepted) => resumed := accepted;
      }
      var (first, result, begins) := Transfer(stream.wire, env.retr);
      stream.wire := first;
      if BuilderFailed(env.retr) {
        flags.usable := false;
      }
      if resumed && result.Err? {
        var (cleared, reset) := Rest(stream.wire, 0, env.reset);
        stream.wire := cleared;
        match reset
        case Err(error) =>
          flags.usable := false;
          return Aborted(FromFtp(error));
        case Ok =>
          resumed := false;
          var (second, again, begins2) := Transfer(stream.wire, env.again);
          stream.wire, result, begins := second, again, begins2;
          if BuilderFailed(env.again) {
            flags.usable := false;
          }
      }
      if result.Err? {
        RecordFtpError(result.error);
        return Refused(result.error);
      }
      outcome := Started(resumed, begins);
    }

    /**
     * `open`: the commands of a ranged read under the lock, then the local skip outside it. A
     * failed skip finalizes the stream before the call returns.
     */
    method Open(
      file: seq<Byte>, offset: nat, length: Option<nat>, maxUsize: nat, env: OpenAnswers,
      chunks: nat -> Chunk, completion: Completion) returns (outcome: Outcome, reader: FtpReadStream?)
      modifies flags, stream
      ensures stream == old(stream)
      ensures !old(GateState()).Passed? ==>
                outcome == Blocked(old(GateState())) && reader == null
                && flags.usable == old(flags.usable) && flags.active == old(flags.active)
                && (stream != null ==> stream.wire == old(stream.wire))
      ensures old(GateState()).Passed? ==>
                var o := OpenBody(old(stream.wire), true, offset, maxUsize, env);
                && (o.result.Refused? ==> outcome == FtpFailure(o.result.refusal))
                && (o.result.Aborted? ==> outcome == RemoteFailure(o.result.failure))
                && (!o.result.Started? ==>
                      reader == null && !flags.active && flags.usable == o.usable && stream.wire == o.wire)
                && (o.result.Started? ==>
                      var wanted := OpenedReader(file, offset, length, o.result, chunks);
                      && (reader != null <==> wanted.Some?)
                      && (reader != null ==>
                            && outcome == Completed && fresh(reader) && reader.control == stream
                            && reader.guard.flags == flags
                            && reader.inner.Some? && reader.View() == wanted.value
                            && flags.active && flags.usable == o.usable && stream.wire == o.wire)
                      && (reader == null ==>
                            outcome == SkipFailed && !flags.active && stream.wire.finished == o.wire.finished + 1))
      ensures old(Synchronised()) && !AbsorbsStray(offset, maxUsize, env) ==> Synchronised()
    {
      var gate := CheckOperationState();
      if gate != Passed {
        return Blocked(gate), null;
      }
      if stream == null {
        return Blocked(NoStream), null;
      }
      ghost var before := stream.wire;
      var started := Retrieve(offset, maxUsize, env);
      if Clean(before) { OpenKeepsSyncIff(before, true, offset, maxUsize, env); }
      match started
      case Aborted(failure) => return RemoteFailure(failure), null;
      case Refused(refusal) => return FtpFailure(refusal), null;
      case Started(resumed, begins) =>
        var guard := StartTransfer();
        var data := if begins.Some? then file[Min(begins.value, |file|)..] else [];
        var skip := offset > 0 && !resumed;
        ghost var wire := stream.wire;
        outcome, reader := SkipLocally(stream, guard, data, length, skip, offset, chunks, completion);
        if reader == null { SkippingKeepsSync(wire, Reader(data, length, false), offset, chunks, completion); }
    }

    static lemma SkippingKeepsSync(w: Wire, r: Reader, offset: nat, chunks: nat -> Chunk, c: Completion)
      requires EofSound(r)
      ensures var (skipped, _) := RangedRead.SkipPrefix(r, offset, chunks);
              var (done, ok) := FinishRead(w, skipped, chunks, c);
              && done.finished == w.finished + 1 && (Clean(w) && ok ==> Clean(done))
    {
      SkipReachesItsOffset(r.rest, offset, chunks, 0);
      if Clean(w) { FinishReadKeepsSync(w, RangedRead.SkipPrefix(r, offset, chunks).0, chunks, c); }
    }

    /** The part of `open` after the lock is released. */
    static method SkipLocally(
      control: Control, guard: TransferGuard, data: seq<Byte>, length: Option<nat>, skip: bool, offset: nat,
      chunks: nat -> Chunk, completion: Completion) returns (outcome: Outcome, reader: FtpReadStream?)
      modifies control, guard.flags
      ensures var start := Reader(data, length, false);
              var (skipped, ok) := if skip then RangedRead.SkipPrefix(start, offset, chunks) else (start, true);
              && (reader != null <==> ok)
              && (reader != null ==>
                    && fresh(reader) && reader.control == control && reader.guard == guard && reader.inner.Some?
                    && reader.View() == skipped && outcome == Completed && control.wire == old(control.wire)
                    && guard.flags.active == old(guard.flags.active) && guard.flags.usable == old(guard.flags.usable))
              && (reader == null ==>
                    var (wire, finished) := FinishRead(old(control.wire), skipped, chunks, completion);
                    && outcome == SkipFailed && control.wire == wire && !guard.flags.active
                    && guard.flags.usable == (old(guard.flags.usable) && finished))
    {
      var stream := new FtpReadStream(control, data, length, guard);
      if skip {
        var ok := stream.SkipPrefix(offset, chunks);
        if !ok {
          var _ := stream.Finish(chunks, completion);   // finish_after_skip consumes the stream
          return SkipFailed, null;
        }
      }
      outcome, reader := Completed, stream;
    }
  }
}
