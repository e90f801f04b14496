/**
 * Download streams as values: byte budgets, local prefix skipping, end-of-file tracking and the
 * final drain (src/client/sync/stream.rs, src/client/tokio/stream.rs), and the range that a
 * sequence of reads delivers after `open`.
 *
 * How many bytes the network hands over at each call is an input; so is every I/O failure.
 */
module RangedRead {
  import opened Wrappers
  import opened Errors
  import opened ControlChannel

  type Byte = b: int | 0 <= b < 256

  /** One answer of the data socket; `Got(n)` offers n bytes, clipped to what exists and fits. */
  datatype Chunk = Got(n: nat) | Failed

  /** One answer of the asynchronous data socket. */
  datatype Readiness = Pending | Ready(chunk: Chunk)

  /** The unread data of a transfer, the byte budget, and the end-of-file flag. */
  datatype Reader = Reader(rest: seq<Byte>, remaining: Option<nat>, atEof: bool)

  datatype IoResult = Data(bytes: seq<Byte>) | IoFailure
  datatype PollResult = NotYet | Done(result: IoResult)

  function Min(a: nat, b: nat): nat { if a < b then a else b }

  /** `read(2)` on a buffer of `limit` bytes: at least one byte unless there is none to give. */
  function Granted(available: nat, limit: nat, n: nat): (k: nat)
    ensures k <= available && k <= limit
    ensures k == 0 <==> available == 0 || limit == 0
  {
    Min(if n == 0 then 1 else n, Min(available, limit))
  }

  /** The 64-bit budget narrowed to the machine's `usize` before it bounds the buffer. */
  function Limit(budget: nat, bufLen: nat, maxUsize: nat): (limit: nat)
    ensures limit <= budget && limit <= bufLen
    ensures bufLen <= maxUsize ==> limit == Min(budget, bufLen)
  {
    Min(if budget <= maxUsize then budget else maxUsize, bufLen)
  }

  /** `FtpReadStream::read`. */
  function SyncRead(r: Reader, bufLen: nat, maxUsize: nat, c: Chunk): (Reader, IoResult) {
    if bufLen == 0 || r.remaining == Some(0) then (r, Data([]))
    else if c.Failed? then (r, IoFailure)
    else
      var limit := if r.remaining.None? then bufLen else Limit(r.remaining.value, bufLen, maxUsize);
      var k := Granted(|r.rest|, limit, c.n);
      var remaining := if r.remaining.None? then None else Some(r.remaining.value - k);
      (Reader(r.rest[k..], remaining, r.atEof || (k == 0 && remaining != Some(0))), Data(r.rest[..k]))
  }

  /** `TokioReadStream::poll_read`. */
  function PollRead(r: Reader, bufLen: nat, maxUsize: nat, p: Readiness): (Reader, PollResult) {
    if bufLen == 0 || r.remaining == Some(0) then (r, Done(Data([])))
    else
      match p
      case Pending => (r, NotYet)
      case Ready(Failed) => (r, Done(IoFailure))
      case Ready(Got(n)) =>
        var limit := match r.remaining case None => bufLen case Some(budget) => Limit(budget, bufLen, maxUsize);
        var k := Granted(|r.rest|, limit, n);
        var remaining := match r.remaining case None => None case Some(budget) => Some(budget - k);
        (Reader(r.rest[k..], remaining, k == 0 || r.atEof), Done(Data(r.rest[..k])))
  }

  /** `io::copy` through `take(left)` into a sink: what is left unread, what was not skipped, success. */
  function SkipLoop(rest: seq<Byte>, left: nat, chunks: nat -> Chunk, i: nat): (seq<Byte>, nat, bool)
    decreases left
  {
    if left == 0 then (rest, 0, true)
    else if chunks(i).Failed? then (rest, left, false)
    else
      var k := Granted(|rest|, left, chunks(i).n);
      if k == 0 then (rest, left, true) else SkipLoop(rest[k..], left - k, chunks, i + 1)
  }

  /** `skip_prefix`: a short skip means the data ended; the length budget is untouched. */
  function SkipPrefix(r: Reader, offset: nat, chunks: nat -> Chunk): (Reader, bool) {
    var (rest, left, ok) := SkipLoop(r.rest, offset, chunks, 0);
    (r.(rest := rest, atEof := r.atEof || (ok && left > 0)), ok)
  }

  /** `io::copy` into a sink until the data ends or a read fails. */
  function Drain(rest: seq<Byte>, chunks: nat -> Chunk, i: nat): (seq<Byte>, bool)
    decreases |rest|
  {
    if chunks(i).Failed? then (rest, false)
    else if rest == [] then (rest, true)
    else Drain(rest[Granted(|rest|, |rest|, chunks(i).n)..], chunks, i + 1)
  }

  /** `finish_read`: drain unless at end of file, then always finalize; the flag says both worked. */
  function FinishRead(w: Wire, r: Reader, chunks: nat -> Chunk, c: Completion): (Wire, bool) {
    var (rest, drained) := if r.atEof then (r.rest, true) else Drain(r.rest, chunks, 0);
    var (done, finish) := Finish(w, rest == [], c);
    (done, drained && finish.Ok?)
  }

  /** `finish_write`: an upload has no unread tail, so the server closes it with one reply. */
  function FinishWrite(w: Wire, flushed: bool, c: Completion): (Wire, bool) {
    var (done, finish) := Finish(w, true, c);
    (done, flushed && finish.Ok?)
  }

  // ---- End of file ----

  /** The flag that lets `finish_read` skip the drain is only up when nothing is left to drain. */
  predicate EofSound(r: Reader) { r.atEof ==> r.rest == [] }

  lemma EofStaysSound(r: Reader, bufLen: nat, maxUsize: nat, p: Readiness, offset: nat, chunks: nat -> Chunk)
    requires EofSound(r) && bufLen <= maxUsize
    ensures EofSound(PollRead(r, bufLen, maxUsize, p).0)
    ensures p.Ready? ==> EofSound(SyncRead(r, bufLen, maxUsize, p.chunk).0)
    ensures EofSound(SkipPrefix(r, offset, chunks).0)
  {
    SkipReachesItsOffset(r.rest, offset, chunks, 0);
  }

  lemma {:induction false} SkipCountsDown(rest: seq<Byte>, left: nat, chunks: nat -> Chunk, i: nat)
    ensures var (rest', left', ok) := SkipLoop(rest, left, chunks, i);
            && |rest'| + left == |rest| + left' && left' <= left
            && (ok ==> |rest'| == |rest| - Min(left, |rest|) && (left' > 0 <==> |rest| < left))
    decreases left
  {
    if left > 0 && chunks(i).Got? {
      var k := Granted(|rest|, left, chunks(i).n);
      if k > 0 { SkipCountsDown(rest[k..], left - k, chunks, i + 1); }
    }
  }

  lemma {:induction false} SkipLeavesASuffix(rest: seq<Byte>, left: nat, chunks: nat -> Chunk, i: nat)
    ensures var rest' := SkipLoop(rest, left, chunks, i).0;
            |rest'| <= |rest| && rest' == rest[|rest| - |rest'|..]
    decreases left
  {
    if left > 0 && chunks(i).Got? {
      var k := Granted(|rest|, left, chunks(i).n);
      if k > 0 {
        SkipLeavesASuffix(rest[k..], left - k, chunks, i + 1);
        SuffixOfASuffix(rest, k, |SkipLoop(rest[k..], left - k, chunks, i + 1).0|);
      }
    }
  }

  lemma SkipReachesItsOffset(rest: seq<Byte>, left: nat, chunks: nat -> Chunk, i: nat)
    ensures var (rest', left', ok) := SkipLoop(rest, left, chunks, i);
            && |rest'| + left == |rest| + left' && left' <= left && rest' == rest[|rest| - |rest'|..]
            && (ok ==> |rest'| == |rest| - Min(left, |rest|) && (left' > 0 <==> |rest| < left))
  {
    SkipCountsDown(rest, left, chunks, i);
    SkipLeavesASuffix(rest, left, chunks, i);
  }

  lemma SuffixOfASuffix(s: seq<Byte>, k: nat, n: nat)
    requires k <= |s| && n <= |s| - k
    ensures s[k..][|s| - k - n..] == s[|s| - n..]
  {
  }

  lemma {:induction false} DrainEmptiesTheSocket(rest: seq<Byte>, chunks: nat -> Chunk, i: nat)
    ensures Drain(rest, chunks, i).1 ==> Drain(rest, chunks, i).0 == []
    decreases |rest|
  {
    if chunks(i).Got? && rest != [] {
      DrainEmptiesTheSocket(rest[Granted(|rest|, |rest|, chunks(i).n)..], chunks, i + 1);
    }
  }

  /** A skip or a drain fails only when a read fails. */
  lemma {:induction false} SkipsSucceed(rest: seq<Byte>, left: nat, chunks: nat -> Chunk, i: nat)
    requires forall k: nat :: chunks(k).Got?
    ensures SkipLoop(rest, left, chunks, i).2
    decreases left
  {
    if left > 0 && Granted(|rest|, left, chunks(i).n) > 0 {
      var k := Granted(|rest|, left, chunks(i).n);
      SkipsSucceed(rest[k..], left - k, chunks, i + 1);
    }
  }

  /** A short skip means the data ended, and only then is the end of file noted; the budget is untouched. */
  lemma SkipMeaning(r: Reader, offset: nat, chunks: nat -> Chunk)
    ensures var (r', ok) := SkipPrefix(r, offset, chunks);
            && (r'.atEof <==> r.atEof || (ok && |r.rest| < offset)) && r'.remaining == r.remaining
            && (ok ==> r'.rest == r.rest[Min(offset, |r.rest|)..])
  {
    SkipReachesItsOffset(r.rest, offset, chunks, 0);
  }

  lemma {:induction false} DrainsSucceed(rest: seq<Byte>, chunks: nat -> Chunk, i: nat)
    requires forall k: nat :: chunks(k).Got?
    ensures Drain(rest, chunks, i) == ([], true)
    decreases |rest|
  {
    if rest != [] {
      DrainsSucceed(rest[Granted(|rest|, |rest|, chunks(i).n)..], chunks, i + 1);
    }
  }

  /** Finalization reports success exactly when the drain worked, if there was one, and the server closed well. */
  lemma FinishReadSucceedsIff(w: Wire, r: Reader, chunks: nat -> Chunk, c: Completion)
    requires w.unread == []
    ensures FinishRead(w, r, chunks, c).1
            <==> (r.atEof || Drain(r.rest, chunks, 0).1) && c.answer.Answered? && c.answer.status in {226, 250}
  {
  }

  lemma FinishWriteSucceedsIff(w: Wire, flushed: bool, c: Completion)
    requires w.unread == []
    ensures FinishWrite(w, flushed, c).1 <==> flushed && c.answer.Answered? && c.answer.status in {226, 250}
  {
  }

  /** A finalization that reports success has consumed every reply of its transfer. */
  lemma FinishReadKeepsSync(w: Wire, r: Reader, chunks: nat -> Chunk, c: Completion)
    requires w.unread == [] && EofSound(r)
    ensures var (w', ok) := FinishRead(w, r, chunks, c);
            && (ok ==> w'.unread == []) && w'.marker == w.marker && (InStep(w) ==> InStep(w'))
            && w'.begun == w.begun && w'.finished == w.finished + 1
  {
    DrainEmptiesTheSocket(r.rest, chunks, 0);
    var rest := if r.atEof then r.rest else Drain(r.rest, chunks, 0).0;
    FinishKeepsSync(w, rest == [], c);
  }

  // ---- The bytes a run of reads delivers ----

  datatype Call = Call(bufLen: nat, chunk: Chunk)
  datatype AsyncCall = AsyncCall(bufLen: nat, ready: Readiness)

  function BytesOf(r: IoResult): seq<Byte> { if r.Data? then r.bytes else [] }

  function ReadRun(r: Reader, maxUsize: nat, calls: seq<Call>): (Reader, seq<Byte>)
    decreases |calls|
  {
    if calls == [] then (r, [])
    else
      var (r1, result) := SyncRead(r, calls[0].bufLen, maxUsize, calls[0].chunk);
      var (r2, bytes) := ReadRun(r1, maxUsize, calls[1..]);
      (r2, BytesOf(result) + bytes)
  }

  function PollRun(r: Reader, maxUsize: nat, calls: seq<AsyncCall>): (Reader, seq<Byte>)
    decreases |calls|
  {
    if calls == [] then (r, [])
    else
      var (r1, poll) := PollRead(r, calls[0].bufLen, maxUsize, calls[0].ready);
      var (r2, bytes) := PollRun(r1, maxUsize, calls[1..]);
      (r2, (if poll.Done? then BytesOf(poll.result) else []) + bytes)
  }

  /** The same network schedule without its pending answers. */
  function Completed(calls: seq<AsyncCall>): seq<Call> {
    if calls == [] then []
    else (if calls[0].ready.Pending? then [] else [Call(calls[0].bufLen, calls[0].ready.chunk)]) + Completed(calls[1..])
  }

  /**
   * Blocking and asynchronous streams deliver the same bytes and end with the same budget, data
   * and end-of-file flag, whatever the schedule of pending answers, chunk sizes and failures.
   */
  lemma {:induction false} PollingEqualsBlocking(r: Reader, maxUsize: nat, calls: seq<AsyncCall>)
    requires forall i | 0 <= i < |calls| :: calls[i].bufLen <= maxUsize
    ensures PollRun(r, maxUsize, calls) == ReadRun(r, maxUsize, Completed(calls))
    decreases |calls|
  {
    if calls != [] {
      var r1 := PollRead(r, calls[0].bufLen, maxUsize, calls[0].ready).0;
      PollingEqualsBlocking(r1, maxUsize, calls[1..]);
      if calls[0].ready.Ready? {
        var head := Call(calls[0].bufLen, calls[0].ready.chunk);
        assert Completed(calls) == [head] + Completed(calls[1..]);
        assert ([head] + Completed(calls[1..]))[1..] == Completed(calls[1..]);
      } else {
        assert Completed(calls) == Completed(calls[1..]);
        assert r1 == r;
        var bytes := PollRun(r1, maxUsize, calls[1..]).1;
        assert [] + bytes == bytes;
      }
    }
  }

  /** What the budget still allows out of the unread data. */
  function Wanted(r: Reader): seq<Byte> {
    match r.remaining
    case None => r.rest
    case Some(budget) => r.rest[..Min(budget, |r.rest|)]
  }

  lemma ReadTakesFromTheFront(r: Reader, bufLen: nat, maxUsize: nat, c: Chunk)
    requires bufLen <= maxUsize
    ensures var (r', result) := SyncRead(r, bufLen, maxUsize, c);
            && BytesOf(result) + Wanted(r') == Wanted(r)
            && (bufLen > 0 && result == Data([]) ==> Wanted(r) == [])
  {
  }

  /**
   * What one read does: it fails exactly when it asks a failing socket, and then changes nothing;
   * otherwise it hands over what the network offers, as far as buffer, budget and data go, at
   * least one byte if there is one to give; the end of file is noted exactly when the socket was
   * asked and had nothing left.
   */
  lemma ReadMeaning(r: Reader, bufLen: nat, maxUsize: nat, c: Chunk)
    requires bufLen <= maxUsize
    ensures var (r', result) := SyncRead(r, bufLen, maxUsize, c);
            var asked := bufLen > 0 && r.remaining != Some(0);
            && (result == IoFailure <==> asked && c.Failed?)
            && (result == IoFailure || !asked ==> r' == r)
            && (result.Data? ==>
                  && |result.bytes| == (if !asked then 0
                                       else Min(if c.n == 0 then 1 else c.n, Min(bufLen, |Wanted(r)|)))
                  && (r'.atEof <==> r.atEof || (asked && r.rest == []))
                  && r'.remaining == match r.remaining case None => None case Some(n) => Some(n - |result.bytes|))
  {
  }

  /** As many undisturbed reads as there are bytes deliver all of them. */
  lemma {:induction false} EnoughReadsDeliverAll(r: Reader, maxUsize: nat, calls: seq<Call>)
    requires forall i | 0 <= i < |calls| :: 0 < calls[i].bufLen <= maxUsize && calls[i].chunk.Got?
    requires |calls| >= |Wanted(r)|
    ensures ReadRun(r, maxUsize, calls).1 == Wanted(r)
    decreases |calls|
  {
    if calls != [] {
      var (r1, result) := SyncRead(r, calls[0].bufLen, maxUsize, calls[0].chunk);
      ReadMeaning(r, calls[0].bufLen, maxUsize, calls[0].chunk);
      ReadTakesFromTheFront(r, calls[0].bufLen, maxUsize, calls[0].chunk);
      EnoughReadsDeliverAll(r1, maxUsize, calls[1..]);
    }
  }

  lemma {:induction false} RunDeliversAPrefix(r: Reader, maxUsize: nat, calls: seq<Call>)
    requires forall i | 0 <= i < |calls| :: calls[i].bufLen <= maxUsize
    ensures var (r', bytes) := ReadRun(r, maxUsize, calls);
            bytes + Wanted(r') == Wanted(r)
    decreases |calls|
  {
    if calls != [] {
      var (r1, result) := SyncRead(r, calls[0].bufLen, maxUsize, calls[0].chunk);
      ReadTakesFromTheFront(r, calls[0].bufLen, maxUsize, calls[0].chunk);
      RunDeliversAPrefix(r1, maxUsize, calls[1..]);
    }
  }

  /** The bytes a caller asked for: a plain slice of the file, empty past its end. */
  function Slice(file: seq<Byte>, offset: nat, length: Option<nat>): seq<Byte> {
    var tail := file[Min(offset, |file|)..];
    match length
    case None => tail
    case Some(n) => tail[..Min(n, |tail|)]
  }

  /** The reader of a transfer the server begins at its marker (RFC 3659, section 5). */
  function ReaderFrom(file: seq<Byte>, begins: nat, length: Option<nat>): Reader {
    Reader(file[Min(begins, |file|)..], length, false)
  }

  /** The transfer behind a started `open`; when the server began none, there is nothing to read. */
  function Received(file: seq<Byte>, started: TransferResult, length: Option<nat>): Reader
    requires started.Started?
  {
    if started.begins.Some? then ReaderFrom(file, started.begins.value, length) else Reader([], length, false)
  }

  /** The stream `open` returns once its commands started a transfer, or None when the skip failed. */
  function OpenedReader(
    file: seq<Byte>, offset: nat, length: Option<nat>, started: TransferResult, chunks: nat -> Chunk): Option<Reader>
    requires started.Started?
  {
    var reader := Received(file, started, length);
    if offset > 0 && !started.resumed then
      var (skipped, ok) := SkipPrefix(reader, offset, chunks);
      if ok then Some(skipped) else None
    else Some(reader)
  }

  /** The bytes a started `open` stands for: the slice, or what a shifted start makes of it. */
  function Delivery(file: seq<Byte>, offset: nat, length: Option<nat>, maxUsize: nat, env: OpenAnswers): seq<Byte> {
    if !ShiftsStart(offset, maxUsize, env) then Slice(file, offset, length)
    else if Begins(env.again) then Slice(file, env.retr.marker + offset, length)
    else []
  }

  lemma SkippingMovesTheStart(file: seq<Byte>, begins: nat, length: Option<nat>, offset: nat, chunks: nat -> Chunk)
    ensures var (skipped, ok) := SkipPrefix(ReaderFrom(file, begins, length), offset, chunks);
            ok ==> skipped.rest == file[Min(begins + offset, |file|)..] && skipped.remaining == length
  {
    var tail := file[Min(begins, |file|)..];
    SkipReachesItsOffset(tail, offset, chunks, 0);
    assert tail[Min(offset, |tail|)..] == file[Min(begins + offset, |file|)..];
  }

  lemma WantedSlice(file: seq<Byte>, from: nat, length: Option<nat>, r: Reader)
    requires r.rest == file[Min(from, |file|)..] && r.remaining == length
    ensures Wanted(r) == Slice(file, from, length)
  {
  }

  /** A local skip of a transfer that starts at `begins`, or no skip of a resumed one. */
  lemma SkippedReadersWantASlice(
    file: seq<Byte>, offset: nat, length: Option<nat>, started: TransferResult, chunks: nat -> Chunk)
    requires started.Started? && OpenedReader(file, offset, length, started, chunks).Some?
    ensures Wanted(OpenedReader(file, offset, length, started, chunks).value)
         == if started.begins.None? then []
            else Slice(file, started.begins.value + if started.resumed then 0 else offset, length)
  {
    var reader := OpenedReader(file, offset, length, started, chunks).value;
    match started.begins
    case None => SkipMeaning(Received(file, started, length), offset, chunks);
    case Some(begins) =>
      var from := begins + if started.resumed then 0 else offset;
      SkippedReadersStart(file, offset, length, started, chunks);
      WantedSlice(file, from, length, reader);
  }

  lemma SkippedReadersStart(
    file: seq<Byte>, offset: nat, length: Option<nat>, started: TransferResult, chunks: nat -> Chunk)
    requires started.Started? && started.begins.Some? && OpenedReader(file, offset, length, started, chunks).Some?
    ensures var reader := OpenedReader(file, offset, length, started, chunks).value;
            var from := started.begins.value + if started.resumed then 0 else offset;
            reader.rest == file[Min(from, |file|)..] && reader.remaining == length
  {
    if offset > 0 && !started.resumed { SkippingMovesTheStart(file, started.begins.value, length, offset, chunks); }
  }

  lemma {:induction false} OpenedReadersWantTheDelivery(
    w: Wire, usable: bool, file: seq<Byte>, offset: nat, length: Option<nat>, maxUsize: nat, env: OpenAnswers,
    chunks: nat -> Chunk)
    requires Clean(w) && OpenBody(w, usable, offset, maxUsize, env).result.Started?
    ensures var reader := OpenedReader(file, offset, length, OpenBody(w, usable, offset, maxUsize, env).result, chunks);
            reader.Some? ==> Wanted(reader.value) == Delivery(file, offset, length, maxUsize, env)
  {
    var started := OpenBody(w, usable, offset, maxUsize, env).result;
    StartedTransfersBeginAtTheReportedOffsetIff(w, usable, offset, maxUsize, env);
    if ShiftsStart(offset, maxUsize, env) { ShiftedStarts(w, usable, offset, maxUsize, env); }
    DeliveryOf(file, offset, length, maxUsize, env, started, chunks);
  }

  lemma DeliveryOf(
    file: seq<Byte>, offset: nat, length: Option<nat>, maxUsize: nat, env: OpenAnswers, started: TransferResult,
    chunks: nat -> Chunk)
    requires started.Started?
    requires if ShiftsStart(offset, maxUsize, env)
             then started == Started(false, if Begins(env.again) then Some(env.retr.marker) else None)
             else started.begins == Some(if started.resumed then offset else 0)
    ensures var reader := OpenedReader(file, offset, length, started, chunks);
            reader.Some? ==> Wanted(reader.value) == Delivery(file, offset, length, maxUsize, env)
  {
    if OpenedReader(file, offset, length, started, chunks).Some? {
      SkippedReadersWantASlice(file, offset, length, started, chunks);
    }
  }

  /**
   * What a ranged `open` delivers. For every file, range and server, whether `REST` was accepted,
   * refused, impossible or undone after a refused `RETR`, and for every chunking of the skip and
   * of the reads: what was read is a prefix of the delivery, and the first empty read into a
   * non-empty buffer means all of it was.
   */
  lemma {:induction false} RangedOpenDelivers(
    w: Wire, usable: bool, file: seq<Byte>, offset: nat, length: Option<nat>, maxUsize: nat, env: OpenAnswers,
    chunks: nat -> Chunk, calls: seq<Call>, last: Call)
    requires Clean(w) && OpenBody(w, usable, offset, maxUsize, env).result.Started?
    requires forall i | 0 <= i < |calls| :: calls[i].bufLen <= maxUsize
    requires 0 < last.bufLen <= maxUsize
    ensures var reader := OpenedReader(file, offset, length, OpenBody(w, usable, offset, maxUsize, env).result, chunks);
            reader.Some? ==>
              var (at, bytes) := ReadRun(reader.value, maxUsize, calls);
              var all := Delivery(file, offset, length, maxUsize, env);
              && bytes <= all
              && (SyncRead(at, last.bufLen, maxUsize, last.chunk).1 == Data([]) ==> bytes == all)
  {
    OpenedReadersWantTheDelivery(w, usable, file, offset, length, maxUsize, env, chunks);
    var reader := OpenedReader(file, offset, length, OpenBody(w, usable, offset, maxUsize, env).result, chunks);
    if reader.Some? {
      RunDeliversAPrefix(reader.value, maxUsize, calls);
      var (at, bytes) := ReadRun(reader.value, maxUsize, calls);
      ReadTakesFromTheFront(at, last.bufLen, maxUsize, last.chunk);
      assert bytes == Delivery(file, offset, length, maxUsize, env)[..|bytes|];
    }
  }

  /** And all of it is delivered: when no read fails, the skip does not fail either, past the end of the file too. */
  lemma {:induction false} RangedOpenDeliversAll(
    w: Wire, usable: bool, file: seq<Byte>, offset: nat, length: Option<nat>, maxUsize: nat, env: OpenAnswers,
    chunks: nat -> Chunk, calls: seq<Call>)
    requires Clean(w) && OpenBody(w, usable, offset, maxUsize, env).result.Started?
    requires forall k: nat :: chunks(k).Got?
    requires forall i | 0 <= i < |calls| :: 0 < calls[i].bufLen <= maxUsize && calls[i].chunk.Got?
    requires |calls| >= |Delivery(file, offset, length, maxUsize, env)|
    ensures var reader := OpenedReader(file, offset, length, OpenBody(w, usable, offset, maxUsize, env).result, chunks);
            reader.Some?
            && ReadRun(reader.value, maxUsize, calls).1 == Delivery(file, offset, length, maxUsize, env)
  {
    var started := OpenBody(w, usable, offset, maxUsize, env).result;
    SkipsSucceed(Received(file, started, length).rest, offset, chunks, 0);
    OpenedReadersWantTheDelivery(w, usable, file, offset, length, maxUsize, env, chunks);
    EnoughReadsDeliverAll(OpenedReader(file, offset, length, started, chunks).value, maxUsize, calls);
  }

  /**
   * Ranged `open` refines slicing exactly when its start is not shifted: then, and only then, the
   * delivery is the requested slice of every file. (A range of no bytes is always right.)
   */
  lemma {:induction false} RangedOpenRefinesSlicingIff(
    offset: nat, length: Option<nat>, maxUsize: nat, env: OpenAnswers)
    requires length != Some(0)
    ensures (forall file :: Delivery(file, offset, length, maxUsize, env) == Slice(file, offset, length))
            <==> !ShiftsStart(offset, maxUsize, env)
  {
    if ShiftsStart(offset, maxUsize, env) {
      var file: seq<Byte> := seq(offset + 1, i => 0);
      assert |Slice(file, offset, length)| == 1;
      assert Delivery(file, offset, length, maxUsize, env) == [];
    }
  }

  /** A server that plants a stray 350 makes `open` at 7 deliver every file from 14. */
  lemma AStrayReplyShiftsTheRange(w: Wire, file: seq<Byte>, length: Option<nat>)
    requires Clean(w) && InStep(w)
    ensures var env := OpenAnswers(Answered(FILE_PENDING, false), Broken(BadResponse, [FILE_PENDING, ABOUT_TO_SEND], 7),
                                   Answered(FILE_UNAVAILABLE, false), Answered(ABOUT_TO_SEND, false));
            && OpenBody(w, true, 7, 100, env).result == Started(false, Some(7))
            && Delivery(file, 7, length, 100, env) == Slice(file, 14, length)
  {
    OpenCanShiftItsRange(w);
  }
}
