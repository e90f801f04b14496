/**
 * The operations a shared client can be asked for and the streams that outlive them, common to the
 * runs of the blocking and of the asynchronous client.
 */
module Operations {
  import opened Wrappers
  import opened Errors
  import opened ControlChannel
  import opened RangedRead

  type Tid = nat

  datatype Op =
    | Command(answer: PlainAnswer)
    | Store(data: Answer)
    | Open(file: seq<Byte>, offset: nat, length: Option<nat>, maxUsize: nat, env: OpenAnswers)
    | List(list: ListAnswers)

  datatype Stream = Download(reader: Reader) | Upload

  /** What the outside decides while a stream is finished: network, flush, server. */
  datatype Closing = Closing(chunks: nat -> Chunk, flushed: bool, completion: Completion)

  function CloseStream(w: Wire, stream: Stream, closing: Closing): (Wire, bool) {
    match stream
    case Download(reader) => FinishRead(w, reader, closing.chunks, closing.completion)
    case Upload => FinishWrite(w, closing.flushed, closing.completion)
  }

  /** The wire, usability and stream an operation ends with when its commands run undisturbed. */
  function Outcome(before: Wire, op: Op): (Wire, bool, Option<Stream>) {
    match op
    case Command(a) => var (w, usable, _) := CommandBody(before, true, a); (w, usable, None)
    case List(env) => var (w, usable, _) := ListBody(before, true, env); (w, usable, None)
    case Store(a) =>
      var o := StoreBody(before, true, a);
      (o.wire, o.usable, if o.result.Started? then Some(Upload) else None)
    case Open(file, offset, length, maxUsize, env) =>
      var o := OpenBody(before, true, offset, maxUsize, env);
      (o.wire, o.usable, if o.result.Started? then Some(Download(Received(file, o.result, length))) else None)
  }

  /** Whatever the server does, closing sends no command and asks for one completion reply. */
  lemma ClosingFinishesOnce(w: Wire, stream: Stream, closing: Closing)
    ensures var w' := CloseStream(w, stream, closing).0;
            w'.next == w.next && w'.begun == w.begun && w'.finished == w.finished + 1
  {
  }

  /** Closing succeeds exactly when its drain or flush worked and the server closed well. */
  lemma ClosingSucceedsIff(w: Wire, stream: Stream, closing: Closing)
    requires w.unread == []
    ensures var answer := closing.completion.answer;
            CloseStream(w, stream, closing).1 <==>
              && (match stream
                  case Download(r) => r.atEof || Drain(r.rest, closing.chunks, 0).1
                  case Upload => closing.flushed)
              && answer.Answered? && answer.status in {226, 250}
  {
    match stream
    case Download(r) => FinishReadSucceedsIff(w, r, closing.chunks, closing.completion);
    case Upload => FinishWriteSucceedsIff(w, closing.flushed, closing.completion);
  }

  lemma ClosingKeepsSync(w: Wire, stream: Stream, closing: Closing)
    requires w.unread == [] && (stream.Download? ==> EofSound(stream.reader))
    ensures var (w', ok) := CloseStream(w, stream, closing);
            && (ok ==> w'.unread == []) && w'.marker == w.marker && (InStep(w) ==> InStep(w'))
            && w'.next == w.next && w'.begun == w.begun && w'.finished == w.finished + 1
  {
    if stream.Download? {
      FinishReadKeepsSync(w, stream.reader, closing.chunks, closing.completion);
    } else {
      FinishKeepsSync(w, true, closing.completion);
    }
  }

  /** The behaviour of the server during `open` that the two theorems exclude. */
  predicate TameOp(op: Op, strict: bool) {
    op.Open? ==>
      && !AbsorbsStray(op.offset, op.maxUsize, op.env)
      && (strict ==> !ReadsStray(op.offset, op.maxUsize, op.env))
  }

  predicate Mine(holder: Option<Tid>, t: Tid) { holder.None? || holder.value == t }
}
