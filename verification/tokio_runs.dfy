/**
 * Every run of the asynchronous client: tasks that suspend at await points, futures dropped in
 * mid-flight, and streams dropped without `finish` (src/client/tokio.rs, src/client/tokio/stream.rs).
 *
 * One step is one poll. A poll runs from one await point of the source to the next: it sends a
 * command, or receives its reply and takes the decision that follows. Dropping the future of an
 * operation between two polls leaves the wire as the polls so far have left it.
 */
module TokioRuns {
  import opened Wrappers
  import opened Errors
  import opened ControlChannel
  import opened RangedRead
  import opened Operations

  /** How the last transfer ended, as long as its reply is still to be drained. */
  datatype Ending = Settled | DroppedUpload | DroppedAtEof | DroppedEarly | CancelledFinish

  type OpenCall = op: Op | op.Open?
    witness Open([], 0, None, 0, OpenAnswers(Answered(COMMAND_OK, false), Answered(COMMAND_OK, false),
                                             Answered(COMMAND_OK, false), Answered(COMMAND_OK, false)))

  /** The exchange a held operation is at. */
  datatype Stage =
    | Settling(op: Op)                      // the deferred reply is drained before the first command
    | AtCommand(answer: PlainAnswer)
    | AtStore(data: Answer)
    | AtList(list: ListAnswers)
    | AtFinish(list: ListAnswers)           // the rows are read, then the transfer is finished
    | AtRest(call: OpenCall)
    | AtRetr(call: OpenCall, resumed: bool)
    | AtReset(call: OpenCall)
    | AtAgain(call: OpenCall)

  /** Nothing was sent yet, or the reply is awaited; `begins` is where the server started a transfer. */
  datatype Phase = Unsent | Awaiting(begins: Option<nat>)

  /** A StreamGuard and the await point it is held at; `before` is the wire that the first command met. */
  datatype Held = Held(stage: Stage, phase: Phase, completed: bool, before: Wire)

  datatype Task =
    | Idle
    | Waiting(op: Op)          // awaits the mutex
    | Holding(held: Held)      // lock held, operation under way
    | Owning(owned: Stream)    // holds the stream and its guard; also while open skips its prefix
    | Finishing(owned: Stream) // finish() has taken the inner stream and is suspended

  /** `connected` mirrors the slot; `busy` and `owed` are bookkeeping of the proof. */
  datatype State = State(
    mutex: Option<Tid>, slot: bool, connected: bool, active: bool, usable: bool,
    wire: Wire, deferred: bool, owed: Ending, busy: Option<Tid>, tasks: map<Tid, Task>)

  const START := State(None, false, false, false, true, FRESH, false, Settled, None, map[])

  function Of(s: State, t: Tid): Task { if t in s.tasks then s.tasks[t] else Idle }

  function Put(s: State, t: Tid, task: Task): State { s.(tasks := s.tasks[t := task]) }

  datatype AsyncAccess =
    | Poll(bufLen: nat, maxUsize: nat, ready: Readiness)
    | SkipSome(offset: nat, chunks: nat -> Chunk)

  datatype Step =
    | Start(t: Tid, call: Op)
    | Lock(t: Tid)
    | Resume(t: Tid)                     // the next poll of a held operation
    | Cancel(t: Tid, late: seq<Status>)  // drop the future of an operation; replies may still arrive
    | Use(t: Tid, use: AsyncAccess)
    | Drop(t: Tid, bye: Farewell)        // drop a stream without finish, or cancel open in its skip
    | BeginFinish(t: Tid)
    | DrainSome(t: Tid, n: nat)          // finish is polled and reads some of the tail
    | EndFinish(t: Tid, closing: Closing)
    | CancelFinish(t: Tid, bye: Farewell)
    | Connect(ok: bool)
    | Disconnect(quit: PlainAnswer)

  /** `lock_stream`: the lock, the gate and the slot in one poll. */
  function LockStream(s: State, t: Tid, op: Op): State {
    if s.active || !s.usable || !s.slot then Put(s, t, Idle)
    else Put(s.(mutex := Some(t)), t, Holding(Held(Settling(op), Unsent, false, s.wire)))
  }

  // ---- The polls of a held operation ----

  function FirstStage(op: Op): Stage {
    match op
    case Command(a) => AtCommand(a)
    case Store(a) => AtStore(a)
    case List(env) => AtList(env)
    case Open(_, offset, _, maxUsize, _) => if 0 < offset <= maxUsize then AtRest(op) else AtRetr(op, false)
  }

  function AnswerAt(stage: Stage): Answer {
    match stage
    case Settling(_) => Answered(COMMAND_OK, false)
    case AtCommand(a) => a
    case AtStore(a) => a
    case AtList(env) => env.list
    case AtFinish(env) => env.completion.answer
    case AtRest(call) => call.env.rest
    case AtRetr(call, _) => call.env.retr
    case AtReset(call) => call.env.reset
    case AtAgain(call) => call.env.again
  }

  /** The wire once the command of a stage is out, and where the server started a transfer. */
  function Sent(w: Wire, stage: Stage): (r: (Wire, Option<nat>))
    ensures AnswerAt(stage).Answered? && !stage.Settling? ==> r.0.unread != []
  {
    match stage
    case Settling(_) => (w, None)
    case AtCommand(a) => (Submit(w, a), None)
    case AtFinish(env) => (SubmitFinish(w, !env.readFails, env.completion), None)
    case AtRest(call) => (SubmitRest(w, call.offset, call.env.rest), None)
    case AtReset(call) => (SubmitRest(w, 0, call.env.reset), None)
    case AtStore(_) | AtList(_) | AtRetr(_, _) | AtAgain(_) =>
      (SubmitTransfer(w, AnswerAt(stage)), Origin(w, AnswerAt(stage)))
  }

  /** What follows a reply: the next exchange, or the end of the operation with or without a stream. */
  datatype Decision =
    | GoOn(wire: Wire, stage: Stage)
    | End(wire: Wire, failed: bool, stream: Option<Stream>)

  /** Receives the awaited reply and decides. */
  function Decide(sent: Wire, stage: Stage, begins: Option<nat>): Decision
    requires AnswerAt(stage).Answered? ==> sent.unread != []
  {
    match stage
    case Settling(op) => GoOn(sent, FirstStage(op))
    case AtCommand(a) =>
      var (w, response) := Receive(sent, a);
      End(w, FailureOf(Expect(response, DONE)), None)
    case AtStore(a) =>
      var (w, result) := ReceiveTransfer(sent, a);
      End(w, FailureOf(result), if result.Ok? then Some(Upload) else None)
    case AtList(env) =>
      var (w, result) := ReceiveTransfer(sent, env.list);
      if result.Err? then End(w, FailureOf(result), None) else GoOn(w, AtFinish(env))
    case AtFinish(env) =>
      var (w, result) := ReceiveFinish(sent, env.completion);
      End(w, Aggregate(env.readFails, result).1, None)
    case AtRest(call) =>
      var (w, response) := Receive(sent, call.env.rest);
      var result := Expect(response, {FILE_PENDING});
      if result.Ok? then GoOn(w, AtRetr(call, true))
      else if result.error.UnexpectedResponse? && result.error.status != NOT_AVAILABLE then GoOn(w, AtRetr(call, false))
      else End(w, RequiresReconnect(FromFtp(result.error)), None)
    case AtRetr(call, resumed) =>
      var (w, result) := ReceiveTransfer(sent, call.env.retr);
      if resumed && result.Err? then GoOn(w, AtReset(call))
      else End(w, FailureOf(result), DownloadOf(call, result, resumed, begins))
    case AtReset(call) =>
      var (w, response) := Receive(sent, call.env.reset);
      if Expect(response, {FILE_PENDING}).Ok? then GoOn(w, AtAgain(call)) else End(w, true, None)
    case AtAgain(call) =>
      var (w, result) := ReceiveTransfer(sent, call.env.again);
      End(w, FailureOf(result), DownloadOf(call, result, false, begins))
  }

  predicate FailureOf(result: FtpResult) { result.Err? && SetupRequiresReconnect(result.error) }

  function DownloadOf(call: OpenCall, result: FtpResult, resumed: bool, begins: Option<nat>): Option<Stream> {
    if result.Ok? then Some(Download(Received(call.file, Started(resumed, begins), call.length))) else None
  }

  /** One poll: it drains the deferred reply, sends the next command, or receives a reply and decides. */
  function Advance(s: State, t: Tid, h: Held): State {
    match h.phase
    case Unsent =>
      if h.stage.Settling? then
        var w := Drained(s.wire, s.deferred);
        Put(s.(wire := w, deferred := false, owed := Settled), t,
            Holding(h.(stage := FirstStage(h.stage.op), before := w)))
      else
        var (w, begins) := Sent(s.wire, h.stage);
        Put(s.(wire := w, usable := s.usable && !BuilderFailed(AnswerAt(h.stage))), t,
            Holding(h.(phase := Awaiting(begins))))
    case Awaiting(begins) =>
      if AnswerAt(h.stage).Answered? && s.wire.unread == [] then s
      else
        match Decide(s.wire, h.stage, begins)
        case GoOn(w, stage) => Put(s.(wire := w), t, Holding(h.(stage := stage, phase := Unsent)))
        case End(w, failed, stream) => Return(s.(wire := w), t, h, failed, stream)
  }

  /** The operation guard goes out of scope together with the lock. */
  function DropGuard(s: State, h: Held): State { s.(mutex := None, usable := s.usable && h.completed) }

  /** The rest of the last poll: the failure is recorded, a transfer raises the flag, `complete()`. */
  function Return(s: State, t: Tid, h: Held, failed: bool, stream: Option<Stream>): State {
    var ended := DropGuard(s.(usable := s.usable && !failed), h.(completed := true));
    match stream
    case None => Put(ended, t, Idle)
    case Some(owned) => Put(ended.(active := true, busy := Some(t)), t, Owning(owned))
  }

  // ---- Streams, connect and disconnect ----

  predicate Exhausted(stream: Stream) { stream.Upload? || stream.reader.rest == [] }

  function Release(s: State, t: Tid): State { Put(s.(active := false, busy := None), t, Idle) }

  /** `Drop`: an upload, or a download at end of file, defers its reply; anything else poisons. */
  function DropStream(s: State, t: Tid, stream: Stream, bye: Farewell): State {
    var dismissed := s.(wire := Dismissed(s.wire, Exhausted(stream), bye), deferred := true);
    match stream
    case Upload => Release(dismissed.(owed := DroppedUpload), t)
    case Download(reader) =>
      if reader.atEof then Release(dismissed.(owed := DroppedAtEof), t)
      else Release(dismissed.(owed := DroppedEarly, usable := false), t)
  }

  function UseAsync(r: Reader, use: AsyncAccess): Reader {
    match use
    case Poll(bufLen, maxUsize, ready) => if bufLen <= maxUsize then PollRead(r, bufLen, maxUsize, ready).0 else r
    case SkipSome(offset, chunks) => SkipPrefix(r, offset, chunks).0
  }

  function DrainStream(stream: Stream, n: nat): Stream {
    match stream
    case Upload => Upload
    case Download(r) => Download(r.(rest := r.rest[Min(n, |r.rest|)..]))
  }

  /** `&mut self` is available. */
  ghost predicate Alone(s: State) { forall t: Tid :: !Of(s, t).Waiting? && !Of(s, t).Holding? }

  function ConnectAsync(s: State, ok: bool): State {
    if s.active || (s.usable && s.slot) then s
    else s.(slot := ok, connected := ok, usable := true, wire := FRESH, deferred := false, owed := Settled)
  }

  function DisconnectAsync(s: State, quit: PlainAnswer): State {
    if s.active || !s.slot then s
    else if !s.usable then s.(slot := false, connected := false, usable := true)
    else
      var (w, response) := Send(Drained(s.wire, s.deferred), quit);
      s.(slot := false, connected := false, wire := w, deferred := false, owed := Settled,
         usable := !FailureOf(Expect(response, {221})))
  }

  /** Replies to a cancelled command that arrive after its future is gone. */
  function Arriving(w: Wire, late: seq<Status>): Wire { w.(unread := w.unread + Tagged(LastCommand(w), late)) }

  ghost function Next(s: State, step: Step): State {
    match step
    case Start(t, call) => if Of(s, t).Idle? then Put(s, t, Waiting(call)) else s
    case Lock(t) => if Of(s, t).Waiting? && s.mutex.None? then LockStream(s, t, Of(s, t).op) else s
    case Resume(t) => if Of(s, t).Holding? then Advance(s, t, Of(s, t).held) else s
    case Cancel(t, late) =>
      if Of(s, t).Waiting? then Put(s, t, Idle)
      else if Of(s, t).Holding? then
        Put(DropGuard(s.(wire := Arriving(s.wire, late)), Of(s, t).held), t, Idle)
      else s
    case Use(t, use) =>
      var task := Of(s, t);
      if task.Owning? && task.owned.Download? then Put(s, t, Owning(Download(UseAsync(task.owned.reader, use)))) else s
    case Drop(t, bye) => if Of(s, t).Owning? then DropStream(s, t, Of(s, t).owned, bye) else s
    case BeginFinish(t) => if Of(s, t).Owning? then Put(s, t, Finishing(Of(s, t).owned)) else s
    case DrainSome(t, n) => if Of(s, t).Finishing? then Put(s, t, Finishing(DrainStream(Of(s, t).owned, n))) else s
    case EndFinish(t, closing) =>
      if Of(s, t).Finishing? then
        var (w, ok) := CloseStream(s.wire, Of(s, t).owned, closing);
        Release(s.(wire := w, usable := s.usable && ok), t)
      else s
    case CancelFinish(t, bye) => if Of(s, t).Finishing? then ForgetStream(s, t, Of(s, t).owned, bye) else s
    case Connect(ok) => if Alone(s) then ConnectAsync(s, ok) else s
    case Disconnect(quit) => if Alone(s) then DisconnectAsync(s, quit) else s
  }

  /** The future of `finish` owns the stream: dropping it dismisses the transfer and poisons nothing. */
  function ForgetStream(s: State, t: Tid, stream: Stream, bye: Farewell): State {
    Release(s.(wire := Dismissed(s.wire, Exhausted(stream), bye), deferred := true, owed := CancelledFinish), t)
  }

  // ---- Where the polls of one operation lead ----

  /** The wire and usability with which the commands of an operation arrive at a stage. */
  function Course(before: Wire, stage: Stage): (Wire, bool) {
    match stage
    case Settling(_) | AtCommand(_) | AtStore(_) | AtList(_) | AtRest(_) => (before, true)
    case AtFinish(env) => (Transfer(before, env.list).0, true)
    case AtRetr(call, _) => (AskedFor(before, call).0, true)
    case AtReset(call) => (FirstRetr(before, call).0, !BuilderFailed(call.env.retr))
    case AtAgain(call) => (Rest(FirstRetr(before, call).0, 0, call.env.reset).0, !BuilderFailed(call.env.retr))
  }

  /** They do arrive there. */
  predicate Arrives(before: Wire, stage: Stage) {
    match stage
    case Settling(_) => false
    case AtCommand(_) | AtStore(_) | AtList(_) => true
    case AtFinish(env) => Transfer(before, env.list).1.Ok?
    case AtRest(call) => 0 < call.offset <= call.maxUsize
    case AtRetr(call, resumed) => AskedFor(before, call).1 == Negotiated(resumed)
    case AtReset(call) => Resets(before, call)
    case AtAgain(call) => Resets(before, call) && Rest(FirstRetr(before, call).0, 0, call.env.reset).1.Ok?
  }

  function AskedFor(before: Wire, call: OpenCall): (Wire, OffsetRequest) {
    Asked(before, call.offset, call.maxUsize, call.env.rest)
  }

  function FirstRetr(before: Wire, call: OpenCall): (Wire, FtpResult, Option<nat>) {
    Transfer(AskedFor(before, call).0, call.env.retr)
  }

  predicate Resets(before: Wire, call: OpenCall) {
    AskedFor(before, call).1 == Negotiated(true) && FirstRetr(before, call).1.Err?
  }

  function OpOf(stage: Stage): Op {
    match stage
    case Settling(op) => op
    case AtCommand(a) => Command(a)
    case AtStore(a) => Store(a)
    case AtList(env) => List(env)
    case AtFinish(env) => List(env)
    case AtRest(call) => call
    case AtRetr(call, _) => call
    case AtReset(call) => call
    case AtAgain(call) => call
  }

  // ---- What holds whatever the server does ----

  predicate Active(task: Task) { task.Owning? || task.Finishing? }

  predicate TaskOk(task: Task) {
    && (task.Holding? ==> !task.held.completed)
    && (Active(task) && task.owned.Download? ==> EofSound(task.owned.reader))
  }

  /** Lock and flag belong to the one task whose place says so; no guard at an await is completed. */
  ghost predicate Placed(s: State) {
    && (forall t: Tid :: Of(s, t).Holding? <==> s.mutex == Some(t))
    && (forall t: Tid :: Active(Of(s, t)) <==> s.busy == Some(t))
    && (forall t: Tid :: TaskOk(Of(s, t)))
  }

  /** A held operation is where its commands lead from the wire it met. */
  predicate OnCourse(s: State, h: Held) {
    if h.stage.Settling? then h.phase.Unsent? && s.usable
    else
      && !s.deferred && Arrives(h.before, h.stage)
      && var (w, usable) := Course(h.before, h.stage);
         match h.phase
         case Unsent => s.wire == w && s.usable == usable
         case Awaiting(begins) =>
           (s.wire, begins) == Sent(w, h.stage) && s.usable == (usable && !BuilderFailed(AnswerAt(h.stage)))
  }

  predicate Linked(s: State) {
    && s.connected == s.slot && (s.active <==> s.busy.Some?)
    && !(s.mutex.Some? && s.busy.Some?)
    && (s.mutex.Some? ==> s.slot && Of(s, s.mutex.value).Holding? && OnCourse(s, Of(s, s.mutex.value).held))
    && (s.busy.Some? ==> s.slot && !s.deferred && s.wire.next > 0)
  }

  ghost predicate Safe(s: State) { Placed(s) && Linked(s) }

  lemma NearTask(s: State, t: Tid)
    requires Placed(s)
    ensures (Of(s, t).Holding? <==> s.mutex == Some(t)) && (Active(Of(s, t)) <==> s.busy == Some(t)) && TaskOk(Of(s, t))
  {
  }

  /** Only task t moved, and the lock and the flag changed hands only between it and nobody. */
  predicate LocalTo(s: State, s': State, t: Tid) {
    && s'.tasks == s.tasks[t := Of(s', t)]
    && (Of(s', t).Holding? <==> s'.mutex == Some(t)) && (Active(Of(s', t)) <==> s'.busy == Some(t))
    && (s'.mutex == s.mutex || (Mine(s.mutex, t) && Mine(s'.mutex, t)))
    && (s'.busy == s.busy || (Mine(s.busy, t) && Mine(s'.busy, t)))
    && TaskOk(Of(s', t))
  }

  lemma LocalStepsKeepPlaces(s: State, s': State, t: Tid)
    requires Placed(s) && LocalTo(s, s', t)
    ensures Placed(s')
  {
    assert forall u: Tid | u != t :: Of(s', u) == Of(s, u);
  }

  // ---- Each poll of an operation follows its commands ----

  lemma FirstStageArrives(w: Wire, op: Op)
    ensures Arrives(w, FirstStage(op)) && Course(w, FirstStage(op)) == (w, true)
    ensures OpOf(FirstStage(op)) == op && !FirstStage(op).Settling?
  {
  }

  /** A decision leads to the next stage of the course, or to the outcome of the whole operation. */
  predicate Follows(before: Wire, usable: bool, stage: Stage, d: Decision) {
    match d
    case GoOn(w, next) =>
      OpOf(next) == OpOf(stage) && !next.Settling? && Arrives(before, next) && Course(before, next) == (w, usable)
    case End(w, failed, stream) => (w, usable && !failed, stream) == Outcome(before, OpOf(stage))
  }

  /** The polls of an operation compute, one exchange at a time, what its command sequence computes. */
  lemma DecisionsFollowTheCommands(before: Wire, stage: Stage)
    requires Arrives(before, stage)
    ensures var (w, usable) := Course(before, stage);
            var (sent, begins) := Sent(w, stage);
            Follows(before, usable && !BuilderFailed(AnswerAt(stage)), stage, Decide(sent, stage, begins))
  {
    match stage
    case AtRetr(_, _) => RetrDecisionsFollow(before, stage);
    case AtReset(_) => ResetDecisionsFollow(before, stage);
    case AtRest(_) => RestDecisionsFollow(before, stage);
    case AtAgain(_) => AgainDecisionsFollow(before, stage);
    case _ =>
  }

  lemma AgainDecisionsFollow(before: Wire, stage: Stage)
    requires Arrives(before, stage) && stage.AtAgain?
    ensures var (w, usable) := Course(before, stage);
            var (sent, begins) := Sent(w, stage);
            Follows(before, usable && !BuilderFailed(AnswerAt(stage)), stage, Decide(sent, stage, begins))
  {
  }

  lemma RestDecisionsFollow(before: Wire, stage: Stage)
    requires Arrives(before, stage) && stage.AtRest?
    ensures var (sent, begins) := Sent(before, stage); Follows(before, true, stage, Decide(sent, stage, begins))
  {
  }

  lemma RetrDecisionsFollow(before: Wire, stage: Stage)
    requires Arrives(before, stage) && stage.AtRetr?
    ensures var (sent, begins) := Sent(Course(before, stage).0, stage);
            Follows(before, !BuilderFailed(AnswerAt(stage)), stage, Decide(sent, stage, begins))
  {
  }

  lemma ResetDecisionsFollow(before: Wire, stage: Stage)
    requires Arrives(before, stage) && stage.AtReset?
    ensures var (w, usable) := Course(before, stage);
            var (sent, begins) := Sent(w, stage);
            Follows(before, usable, stage, Decide(sent, stage, begins))
  {
  }

  /** An operation hands out a stream only after it has sent a command. */
  lemma OutcomesSend(before: Wire, op: Op)
    ensures var (w, usable, stream) := Outcome(before, op);
            && (stream.Some? ==> w.next > 0)
            && (stream.Some? && stream.value.Download? ==> EofSound(stream.value.reader))
  {
    match op
    case Store(a) => TransferCountsItsStart(before, a);
    case Open(_, offset, _, maxUsize, env) => OpenBeginsWhatItReturns(before, true, offset, maxUsize, env);
    case _ =>
  }

  lemma SettlingKeepsSafe(s: State, t: Tid)
    requires Safe(s) && Of(s, t).Holding? && Of(s, t).held.stage.Settling?
    ensures Safe(Next(s, Resume(t)))
  {
    NearTask(s, t);
    FirstStageArrives(Drained(s.wire, s.deferred), Of(s, t).held.stage.op);
    LocalStepsKeepPlaces(s, Next(s, Resume(t)), t);
  }

  lemma SendingKeepsSafe(s: State, t: Tid)
    requires Safe(s) && Of(s, t).Holding? && Of(s, t).held.phase.Unsent? && !Of(s, t).held.stage.Settling?
    ensures Safe(Next(s, Resume(t)))
  {
    NearTask(s, t);
    LocalStepsKeepPlaces(s, Next(s, Resume(t)), t);
  }

  /** The reply that task t awaits has come. */
  predicate Decides(s: State, t: Tid) {
    Of(s, t).Holding? && Of(s, t).held.phase.Awaiting?
    && (AnswerAt(Of(s, t).held.stage).Answered? ==> s.wire.unread != [])
  }

  function DecisionOf(s: State, t: Tid): Decision
    requires Decides(s, t)
  {
    Decide(s.wire, Of(s, t).held.stage, Of(s, t).held.phase.begins)
  }

  lemma GoingOnKeepsSafe(s: State, t: Tid)
    requires Safe(s) && Decides(s, t) && DecisionOf(s, t).GoOn?
    ensures Safe(Next(s, Resume(t)))
  {
    NearTask(s, t);
    DecisionsFollowTheCommands(Of(s, t).held.before, Of(s, t).held.stage);
    LocalStepsKeepPlaces(s, Next(s, Resume(t)), t);
  }

  lemma ReturningKeepsSafe(s: State, t: Tid)
    requires Safe(s) && Decides(s, t) && DecisionOf(s, t).End?
    ensures Safe(Next(s, Resume(t)))
  {
    NearTask(s, t);
    DecisionsFollowTheCommands(Of(s, t).held.before, Of(s, t).held.stage);
    OutcomesSend(Of(s, t).held.before, OpOf(Of(s, t).held.stage));
    LocalStepsKeepPlaces(s, Next(s, Resume(t)), t);
  }

  lemma UseKeepsTheEofSound(r: Reader, use: AsyncAccess)
    requires EofSound(r)
    ensures EofSound(UseAsync(r, use))
  {
    match use
    case Poll(_, _, _) =>
    case SkipSome(offset, chunks) => SkipReachesItsOffset(r.rest, offset, chunks, 0);
  }

  lemma EndingKeepsSafe(s: State, t: Tid, closing: Closing)
    requires Safe(s) && Of(s, t).Finishing?
    ensures Safe(Next(s, EndFinish(t, closing)))
  {
    NearTask(s, t);
    LocalStepsKeepPlaces(s, Next(s, EndFinish(t, closing)), t);
  }

  lemma LeavingKeepsSafe(s: State, step: Step)
    requires Safe(s) && Next(s, step) != s && (step.Drop? || step.CancelFinish?)
    ensures Safe(Next(s, step))
  {
    NearTask(s, step.t);
    LocalStepsKeepPlaces(s, Next(s, step), step.t);
  }

  lemma ReconnectingKeepsSafe(s: State, step: Step)
    requires Safe(s) && (step.Connect? || step.Disconnect?)
    ensures Safe(Next(s, step))
  {
    assert forall t: Tid :: Of(Next(s, step), t) == Of(s, t);
  }

  lemma CallingKeepsSafe(s: State, step: Step)
    requires Safe(s) && Next(s, step) != s && (step.Start? || step.Lock?)
    ensures Safe(Next(s, step))
  {
    NearTask(s, step.t);
    LocalStepsKeepPlaces(s, Next(s, step), step.t);
  }

  lemma CancellingKeepsSafe(s: State, t: Tid, late: seq<Status>)
    requires Safe(s) && Next(s, Cancel(t, late)) != s
    ensures Safe(Next(s, Cancel(t, late)))
  {
    NearTask(s, t);
    LocalStepsKeepPlaces(s, Next(s, Cancel(t, late)), t);
  }

  lemma StreamingKeepsSafe(s: State, step: Step)
    requires Safe(s) && Next(s, step) != s && (step.Use? || step.BeginFinish? || step.DrainSome?)
    ensures Safe(Next(s, step))
  {
    NearTask(s, step.t);
    if step.Use? { UseKeepsTheEofSound(Of(s, step.t).owned.reader, step.use); }
    LocalStepsKeepPlaces(s, Next(s, step), step.t);
  }

  lemma ResumingKeepsSafe(s: State, t: Tid)
    requires Safe(s) && Next(s, Resume(t)) != s
    ensures Safe(Next(s, Resume(t)))
  {
    var h := Of(s, t).held;
    if h.phase.Awaiting? {
      if DecisionOf(s, t).GoOn? { GoingOnKeepsSafe(s, t); } else { ReturningKeepsSafe(s, t); }
    } else if h.stage.Settling? {
      SettlingKeepsSafe(s, t);
    } else {
      SendingKeepsSafe(s, t);
    }
  }

  lemma {:induction false} NextKeepsSafe(s: State, step: Step)
    requires Safe(s)
    ensures Safe(Next(s, step))
  {
    if Next(s, step) != s {
      match step
      case Resume(t) => ResumingKeepsSafe(s, t);
      case EndFinish(t, closing) => EndingKeepsSafe(s, t, closing);
      case Drop(_, _) | CancelFinish(_, _) => LeavingKeepsSafe(s, step);
      case Connect(_) | Disconnect(_) => ReconnectingKeepsSafe(s, step);
      case Cancel(t, late) => CancellingKeepsSafe(s, t, late);
      case Start(_, _) | Lock(_) => CallingKeepsSafe(s, step);
      case Use(_, _) | BeginFinish(_) | DrainSome(_, _) => StreamingKeepsSafe(s, step);
    }
  }

  // ---- The replies ----

  /** The operation a task has still to finish. */
  function OpAt(task: Task): Option<Op> {
    match task
    case Waiting(op) => Some(op)
    case Holding(held) => Some(OpOf(held.stage))
    case _ => None
  }

  predicate TameTask(task: Task, strict: bool) { OpAt(task).Some? ==> TameOp(OpAt(task).value, strict) }

  ghost predicate Tamed(s: State, strict: bool) { forall t: Tid :: TameTask(Of(s, t), strict) }

  /** At most the one deferred reply is unread, and it comes from a transfer that was left at its end. */
  predicate Replies(s: State) {
    && s.wire.marker == 0
    && |s.wire.unread| == (if s.deferred then 1 else 0)
    && (s.deferred ==> s.wire.unread[0].command == LastCommand(s.wire))
    && (s.deferred ==> s.owed.DroppedUpload? || s.owed.DroppedAtEof? || s.owed.CancelledFinish?)
  }

  predicate Answering(s: State, strict: bool) {
    && (s.mutex.Some? && Of(s, s.mutex.value).Holding? ==>
          var h := Of(s, s.mutex.value).held;
          if h.stage.Settling? then Replies(s) else Clean(h.before) && (strict ==> InStep(h.before)))
    && (s.busy.Some? ==> Clean(s.wire))
    && (s.mutex.None? && s.usable && s.slot ==> Replies(s))
    && (strict ==> InStep(s.wire))
  }

  ghost predicate Good(s: State, strict: bool) { Safe(s) && Tamed(s, strict) && Answering(s, strict) }

  /** What the theorem excludes: stray replies in `open`, and dropping finish() before its data is drained. */
  predicate Sound(s: State, step: Step, strict: bool) {
    && (step.Start? ==> TameOp(step.call, strict))
    && (step.CancelFinish? && Of(s, step.t).Finishing? ==> Exhausted(Of(s, step.t).owned))
  }

  lemma DrainingLeavesACleanWire(s: State)
    requires Replies(s)
    ensures Clean(Drained(s.wire, s.deferred)) && (InStep(s.wire) ==> InStep(Drained(s.wire, s.deferred)))
  {
  }

  lemma OutcomesSettle(before: Wire, op: Op, strict: bool)
    requires Clean(before) && TameOp(op, strict) && (strict ==> InStep(before))
    ensures var (w, usable, stream) := Outcome(before, op);
            (usable || stream.Some? ==> Clean(w)) && (strict ==> InStep(w))
  {
    match op
    case Command(a) => CommandKeepsSync(before, true, a);
    case List(env) => ListKeepsSync(before, true, env);
    case Store(a) => StoreKeepsSync(before, true, a);
    case Open(_, offset, _, maxUsize, env) =>
      OpenKeepsSyncIff(before, true, offset, maxUsize, env);
      StartedTransfersAreClean(before, true, offset, maxUsize, env);
      if strict { OpenStaysInStepIff(before, true, offset, maxUsize, env); }
  }

  lemma CoursesStayInStep(before: Wire, stage: Stage)
    requires Clean(before) && InStep(before) && Arrives(before, stage) && TameOp(OpOf(stage), true)
    ensures InStep(Course(before, stage).0)
  {
    match stage
    case AtFinish(env) => TransferKeepsSync(before, env.list);
    case AtRetr(call, _) => AskingKeepsSync(before, call.offset, call.maxUsize, call.env.rest);
    case AtReset(call) => FirstRetrStaysInStep(before, call);
    case AtAgain(call) =>
      FirstRetrStaysInStep(before, call);
      SendOnACleanWire(FirstRetr(before, call).0, call.env.reset);
    case _ =>
  }

  lemma FirstRetrStaysInStep(before: Wire, call: OpenCall)
    requires Clean(before) && InStep(before) && Resets(before, call) && TameOp(call, true)
    ensures InStep(FirstRetr(before, call).0)
    ensures call.env.reset.Answered? ==> FirstRetr(before, call).0.unread == []
  {
    AskingKeepsSync(before, call.offset, call.maxUsize, call.env.rest);
    TransferKeepsSync(AskedFor(before, call).0, call.env.retr);
  }

  lemma SettlingKeepsReplies(s: State, t: Tid, strict: bool)
    requires Safe(s) && Answering(s, strict) && Of(s, t).Holding? && Of(s, t).held.stage.Settling?
    ensures Answering(Next(s, Resume(t)), strict)
  {
    NearTask(s, t);
    DrainingLeavesACleanWire(s);
    FirstStageArrives(Drained(s.wire, s.deferred), Of(s, t).held.stage.op);
  }

  lemma SendingKeepsReplies(s: State, t: Tid, strict: bool)
    requires Safe(s) && Answering(s, strict)
    requires Of(s, t).Holding? && Of(s, t).held.phase.Unsent? && !Of(s, t).held.stage.Settling?
    ensures Answering(Next(s, Resume(t)), strict)
  {
    NearTask(s, t);
    assert Sent(s.wire, Of(s, t).held.stage).0.pairs == s.wire.pairs;
  }

  lemma GoingOnKeepsReplies(s: State, t: Tid, strict: bool)
    requires Safe(s) && Answering(s, strict) && Decides(s, t) && DecisionOf(s, t).GoOn?
    requires TameOp(OpOf(Of(s, t).held.stage), strict)
    ensures Answering(Next(s, Resume(t)), strict)
  {
    NearTask(s, t);
    var h := Of(s, t).held;
    DecisionsFollowTheCommands(h.before, h.stage);
    if strict { CoursesStayInStep(h.before, DecisionOf(s, t).stage); }
  }

  lemma ReturningKeepsReplies(s: State, t: Tid, strict: bool)
    requires Safe(s) && Answering(s, strict) && Decides(s, t) && DecisionOf(s, t).End?
    requires TameOp(OpOf(Of(s, t).held.stage), strict)
    ensures Answering(Next(s, Resume(t)), strict)
  {
    NearTask(s, t);
    var h := Of(s, t).held;
    DecisionsFollowTheCommands(h.before, h.stage);
    OutcomesSettle(h.before, OpOf(h.stage), strict);
  }

  lemma ResumingKeepsReplies(s: State, t: Tid, strict: bool)
    requires Good(s, strict) && Next(s, Resume(t)) != s
    ensures Answering(Next(s, Resume(t)), strict)
  {
    var h := Of(s, t).held;
    assert TameTask(Of(s, t), strict);
    if h.phase.Awaiting? {
      if DecisionOf(s, t).GoOn? { GoingOnKeepsReplies(s, t, strict); } else { ReturningKeepsReplies(s, t, strict); }
    } else if h.stage.Settling? {
      SettlingKeepsReplies(s, t, strict);
    } else {
      SendingKeepsReplies(s, t, strict);
    }
  }

  lemma EndingKeepsReplies(s: State, t: Tid, closing: Closing, strict: bool)
    requires Safe(s) && Answering(s, strict) && Of(s, t).Finishing?
    ensures Answering(Next(s, EndFinish(t, closing)), strict)
  {
    NearTask(s, t);
    ClosingKeepsSync(s.wire, Of(s, t).owned, closing);
  }

  lemma LeavingKeepsReplies(s: State, step: Step, strict: bool)
    requires Safe(s) && Answering(s, strict) && Sound(s, step, strict) && (step.Drop? || step.CancelFinish?)
    ensures Answering(Next(s, step), strict)
  {
    NearTask(s, step.t);
  }

  lemma ReconnectingKeepsReplies(s: State, step: Step, strict: bool)
    requires Safe(s) && Answering(s, strict) && (step.Connect? || step.Disconnect?)
    ensures Answering(Next(s, step), strict)
  {
    if s.mutex.Some? {
      assert Of(s, s.mutex.value).Holding?;
    } else if step.Disconnect? && s.usable && s.slot {
      DrainingLeavesACleanWire(s);
      SendOnACleanWire(Drained(s.wire, s.deferred), step.quit);
    }
  }

  lemma CallingKeepsReplies(s: State, step: Step, strict: bool)
    requires Safe(s) && Answering(s, strict) && (step.Start? || step.Lock?)
    ensures Answering(Next(s, step), strict)
  {
    NearTask(s, step.t);
    var s' := Next(s, step);
    assert forall u: Tid | u != step.t :: Of(s', u) == Of(s, u);
  }

  lemma CancellingKeepsReplies(s: State, t: Tid, late: seq<Status>, strict: bool)
    requires Safe(s) && Answering(s, strict)
    ensures Answering(Next(s, Cancel(t, late)), strict)
  {
    NearTask(s, t);
    var s' := Next(s, Cancel(t, late));
    assert forall u: Tid | u != t :: Of(s', u) == Of(s, u);
  }

  lemma StreamingKeepsReplies(s: State, step: Step, strict: bool)
    requires Safe(s) && Answering(s, strict) && (step.Use? || step.BeginFinish? || step.DrainSome?)
    ensures Answering(Next(s, step), strict)
  {
    NearTask(s, step.t);
    var s' := Next(s, step);
    assert forall u: Tid | u != step.t :: Of(s', u) == Of(s, u);
  }

  /** Only task t moved, and it still has its own operation, if any. */
  predicate KeepsItsOp(s: State, s': State, t: Tid) {
    && s'.tasks == s.tasks[t := Of(s', t)]
    && (OpAt(Of(s', t)) == OpAt(Of(s, t)) || OpAt(Of(s', t)).None?)
  }

  lemma ResumingKeepsTheOp(s: State, t: Tid)
    requires Safe(s) && Next(s, Resume(t)) != s
    ensures KeepsItsOp(s, Next(s, Resume(t)), t)
  {
    NearTask(s, t);
    var h := Of(s, t).held;
    if Decides(s, t) { DecisionsFollowTheCommands(h.before, h.stage); }
    if h.stage.Settling? { FirstStageArrives(s.wire, h.stage.op); }
  }

  lemma LockingKeepsTheOp(s: State, t: Tid)
    requires Next(s, Lock(t)) != s
    ensures KeepsItsOp(s, Next(s, Lock(t)), t)
  {
  }

  lemma CancelledTasksHaveNoOp(s: State, t: Tid, late: seq<Status>)
    requires Next(s, Cancel(t, late)) != s
    ensures KeepsItsOp(s, Next(s, Cancel(t, late)), t)
  {
    CancelledTasksAreIdle(s, t, late);
  }

  lemma CancelledTasksAreIdle(s: State, t: Tid, late: seq<Status>)
    ensures Next(s, Cancel(t, late)) == s || Next(s, Cancel(t, late)).tasks == s.tasks[t := Idle]
  {
  }

  lemma LeftStreamsHaveNoOp(s: State, step: Step)
    requires Next(s, step) != s && (step.Drop? || step.CancelFinish?)
    ensures KeepsItsOp(s, Next(s, step), step.t)
  {
    var t := step.t;
    if step.Drop? { DroppingLeavesTheTaskIdle(s, t, Of(s, t).owned, step.bye); }
  }

  lemma DroppingLeavesTheTaskIdle(s: State, t: Tid, stream: Stream, bye: Farewell)
    ensures DropStream(s, t, stream, bye).tasks == s.tasks[t := Idle]
  {
  }

  lemma StreamsHaveNoOp(s: State, step: Step)
    requires Next(s, step) != s && (step.Use? || step.BeginFinish? || step.DrainSome?)
    ensures KeepsItsOp(s, Next(s, step), step.t)
  {
  }

  lemma FinishedStreamsHaveNoOp(s: State, t: Tid, closing: Closing)
    requires Of(s, t).Finishing?
    ensures KeepsItsOp(s, Next(s, EndFinish(t, closing)), t)
  {
  }

  lemma TheOpStaysTame(s: State, s': State, t: Tid, strict: bool)
    requires Tamed(s, strict) && KeepsItsOp(s, s', t)
    ensures Tamed(s', strict)
  {
    assert TameTask(Of(s, t), strict);
    assert forall u: Tid | u != t :: Of(s', u) == Of(s, u);
  }

  lemma TamenessIsKept(s: State, step: Step, strict: bool)
    requires Safe(s) && Tamed(s, strict) && Sound(s, step, strict)
    ensures Tamed(Next(s, step), strict)
  {
    var s' := Next(s, step);
    if s' == s {
    } else if step.Connect? || step.Disconnect? {
      assert forall u: Tid :: Of(s', u) == Of(s, u);
    } else if step.Start? {
      assert forall u: Tid | u != step.t :: Of(s', u) == Of(s, u);
    } else {
      match step {
        case Resume(t) => ResumingKeepsTheOp(s, t);
        case Lock(t) => LockingKeepsTheOp(s, t);
        case Cancel(t, late) => CancelledTasksHaveNoOp(s, t, late);
        case EndFinish(t, closing) => FinishedStreamsHaveNoOp(s, t, closing);
        case Drop(_, _) | CancelFinish(_, _) => LeftStreamsHaveNoOp(s, step);
        case _ => StreamsHaveNoOp(s, step);
      }
      TheOpStaysTame(s, s', step.t, strict);
    }
  }

  lemma {:induction false} NextKeepsGood(s: State, step: Step, strict: bool)
    requires Good(s, strict) && Sound(s, step, strict)
    ensures Good(Next(s, step), strict)
  {
    NextKeepsSafe(s, step);
    TamenessIsKept(s, step, strict);
    if Next(s, step) != s {
      match step
      case Resume(t) => ResumingKeepsReplies(s, t, strict);
      case EndFinish(t, closing) => EndingKeepsReplies(s, t, closing, strict);
      case Drop(_, _) | CancelFinish(_, _) => LeavingKeepsReplies(s, step, strict);
      case Connect(_) | Disconnect(_) => ReconnectingKeepsReplies(s, step, strict);
      case Cancel(t, late) => CancellingKeepsReplies(s, t, late, strict);
      case Start(_, _) | Lock(_) => CallingKeepsReplies(s, step, strict);
      case Use(_, _) | BeginFinish(_) | DrainSome(_, _) => StreamingKeepsReplies(s, step, strict);
    }
  }

  // ---- Theorems over runs ----

  ghost function RunTasks(s: State, steps: seq<Step>): State
    decreases |steps|
  {
    if steps == [] then s else RunTasks(Next(s, steps[0]), steps[1..])
  }

  ghost predicate SoundRun(s: State, steps: seq<Step>, strict: bool)
    decreases |steps|
  {
    steps != [] ==> Sound(s, steps[0], strict) && SoundRun(Next(s, steps[0]), steps[1..], strict)
  }

  lemma {:induction false} RunsStaySafe(s: State, steps: seq<Step>)
    requires Safe(s)
    ensures Safe(RunTasks(s, steps))
    decreases |steps|
  {
    if steps != [] {
      NextKeepsSafe(s, steps[0]);
      RunsStaySafe(Next(s, steps[0]), steps[1..]);
    }
  }

  lemma {:induction false} RunsStayGood(s: State, steps: seq<Step>, strict: bool)
    requires Good(s, strict) && SoundRun(s, steps, strict)
    ensures Good(RunTasks(s, steps), strict)
    decreases |steps|
  {
    if steps != [] {
      NextKeepsGood(s, steps[0], strict);
      RunsStayGood(Next(s, steps[0]), steps[1..], strict);
    }
  }

  /**
   * Safety of every run against every server: at most one task holds the lock, at most one owns
   * the stream and the flag, never both; the flag is up exactly while one owns it; an operation
   * begins only on a usable client, and its guard is not completed at any await, so that dropping
   * it poisons; `connected` mirrors the slot.
   */
  lemma EveryAsyncRunIsSafe(steps: seq<Step>)
    ensures var s := RunTasks(START, steps);
            && (forall t: Tid, u: Tid :: Of(s, t).Holding? && Of(s, u).Holding? ==> t == u)
            && (forall t: Tid, u: Tid :: Active(Of(s, t)) && Active(Of(s, u)) ==> t == u)
            && (forall t: Tid, u: Tid :: !(Of(s, t).Holding? && Active(Of(s, u))))
            && (s.active <==> exists t: Tid :: Active(Of(s, t)))
            && (forall t: Tid :: Of(s, t).Holding? ==> !Of(s, t).held.completed)
            && (forall t: Tid :: Of(s, t).Holding? && Of(s, t).held.stage.Settling? ==> s.usable)
            && s.connected == s.slot
  {
    RunsStaySafe(START, steps);
    var s := RunTasks(START, steps);
    forall t: Tid
      ensures Of(s, t).Holding? ==> s.mutex == Some(t) && !Of(s, t).held.completed
      ensures Of(s, t).Holding? && Of(s, t).held.stage.Settling? ==> s.usable
      ensures Active(Of(s, t)) ==> s.busy == Some(t)
    {
      NearTask(s, t);
    }
    if s.busy.Some? { NearTask(s, s.busy.value); }
  }

  /** Only the two commands of a marker reset are ever sent while a reply is unread. */
  lemma CoursesMeetNoReply(before: Wire, stage: Stage)
    requires Clean(before) && Arrives(before, stage) && !stage.AtReset? && !stage.AtAgain?
    ensures Course(before, stage).0.unread == []
  {
    match stage
    case AtFinish(env) => TransferKeepsSync(before, env.list);
    case AtRetr(call, _) => AskingKeepsSync(before, call.offset, call.maxUsize, call.env.rest);
    case _ =>
  }

  /**
   * The asynchronous reply invariant, for every sound run: an idle usable client has at most one
   * unread reply, it has one exactly when a reply is deferred, and a reply is deferred only after
   * a transfer was left at its end; the restart marker is zero. An operation starts from a clean
   * wire once that reply is drained, and sends nothing over an unread reply, but for the marker
   * reset.
   */
  lemma EveryAsyncRunIsSynchronised(steps: seq<Step>)
    requires SoundRun(START, steps, false)
    ensures var s := RunTasks(START, steps);
            && (s.usable && s.slot && !s.active && s.mutex.None? ==> Replies(s))
            && (forall t: Tid :: Of(s, t).Holding? && Of(s, t).held.stage.Settling? ==>
                  Clean(Drained(s.wire, s.deferred)))
            && (forall t: Tid :: Of(s, t).Holding? && Of(s, t).held.phase.Unsent? ==>
                  SendsInOrder(s, Of(s, t).held.stage))
            && (s.usable && s.slot && !s.active && s.mutex.None? && s.wire.unread != []
                && (forall i | 0 <= i < |steps| :: !steps[i].CancelFinish?) ==>
                  s.owed.DroppedUpload? || s.owed.DroppedAtEof?)
  {
    if forall i | 0 <= i < |steps| :: !steps[i].CancelFinish? { OnlyCancellingOwesACancelledFinish(START, steps); }
    RunsStayGood(START, steps, false);
    var s := RunTasks(START, steps);
    forall t: Tid | Of(s, t).Holding? && Of(s, t).held.phase.Unsent?
      ensures SendsInOrder(s, Of(s, t).held.stage)
      ensures Of(s, t).held.stage.Settling? ==> Clean(Drained(s.wire, s.deferred))
    {
      HeldOperationsSendInOrder(s, t);
    }
    forall t: Tid | Of(s, t).Holding? && Of(s, t).held.stage.Settling?
      ensures Of(s, t).held.phase.Unsent?
    {
      NearTask(s, t);
    }
  }

  predicate SendsInOrder(s: State, stage: Stage) {
    stage.Settling? || stage.AtReset? || stage.AtAgain? || s.wire.unread == []
  }

  lemma HeldOperationsSendInOrder(s: State, t: Tid)
    requires Safe(s) && Answering(s, false) && Of(s, t).Holding? && Of(s, t).held.phase.Unsent?
    ensures SendsInOrder(s, Of(s, t).held.stage)
    ensures Of(s, t).held.stage.Settling? ==> Clean(Drained(s.wire, s.deferred))
  {
    NearTask(s, t);
    var h := Of(s, t).held;
    if h.stage.Settling? {
      DrainingLeavesACleanWire(s);
    } else if !h.stage.AtReset? && !h.stage.AtAgain? {
      CoursesMeetNoReply(h.before, h.stage);
    }
  }

  lemma OneStepOwesNoCancelledFinish(s: State, step: Step)
    requires !s.owed.CancelledFinish? && !step.CancelFinish?
    ensures !Next(s, step).owed.CancelledFinish?
  {
    match step
    case Resume(t) => if Of(s, t).Holding? { AdvancingOwesNothing(s, t, Of(s, t).held); }
    case EndFinish(t, closing) => EndingOwesNothingNew(s, t, closing);
    case Use(t, use) => UsingOwesNothingNew(s, t, use);
    case Disconnect(quit) => DisconnectingSettles(s, quit);
    case Drop(t, bye) => if Of(s, t).Owning? { DroppingOwesAnotherReply(s, t, Of(s, t).owned, bye); }
    case _ =>
  }

  lemma AdvancingOwesNothing(s: State, t: Tid, h: Held)
    ensures Advance(s, t, h).owed in {s.owed, Settled}
  {
  }

  lemma EndingOwesNothingNew(s: State, t: Tid, closing: Closing)
    ensures Next(s, EndFinish(t, closing)).owed == s.owed
  {
  }

  lemma UsingOwesNothingNew(s: State, t: Tid, use: AsyncAccess)
    ensures Next(s, Use(t, use)).owed == s.owed
  {
  }

  lemma DisconnectingSettles(s: State, quit: PlainAnswer)
    ensures DisconnectAsync(s, quit).owed in {s.owed, Settled}
  {
  }

  lemma DroppingOwesAnotherReply(s: State, t: Tid, stream: Stream, bye: Farewell)
    ensures DropStream(s, t, stream, bye).owed in {DroppedUpload, DroppedAtEof, DroppedEarly}
  {
  }

  lemma {:induction false} OnlyCancellingOwesACancelledFinish(s: State, steps: seq<Step>)
    requires !s.owed.CancelledFinish? && forall i | 0 <= i < |steps| :: !steps[i].CancelFinish?
    ensures !RunTasks(s, steps).owed.CancelledFinish?
    decreases |steps|
  {
    if steps != [] {
      OneStepOwesNoCancelledFinish(s, steps[0]);
      OnlyCancellingOwesACancelledFinish(Next(s, steps[0]), steps[1..]);
    }
  }

  /** Every reply ever read answered the command just sent, if no `open` resets a broken `RETR`. */
  lemma EveryAsyncReplyAnswersItsCommand(steps: seq<Step>)
    requires SoundRun(START, steps, true)
    ensures InStep(RunTasks(START, steps).wire)
  {
    RunsStayGood(START, steps, true);
  }

  /**
   * An operation that comes to its end, through all its awaits and `complete()`, has done exactly
   * what its command sequence does from the wire it met, in every run. In a sound run that wire
   * was clean, and the client is left with nothing unread, or unusable.
   */
  lemma CompletedOperationsSettle(steps: seq<Step>, t: Tid)
    requires Of(RunTasks(START, steps), t).Holding? && !Of(RunTasks(START, steps + [Resume(t)]), t).Holding?
    ensures var h, s := Of(RunTasks(START, steps), t).held, RunTasks(START, steps + [Resume(t)]);
            var stream := if Of(s, t).Owning? then Some(Of(s, t).owned) else None;
            && (s.wire, s.usable, stream) == Outcome(h.before, OpOf(h.stage))
            && s.mutex.None? && !s.deferred
            && (SoundRun(START, steps, false) ==> Clean(h.before) && (s.usable || stream.Some? ==> Clean(s.wire)))
  {
    RunsStaySafe(START, steps);
    RunOneMore(START, steps, Resume(t));
    var s := RunTasks(START, steps);
    NearTask(s, t);
    OperationsEndAsTheirCommands(s, t);
    if SoundRun(START, steps, false) {
      RunsStayGood(START, steps, false);
      assert TameTask(Of(s, t), false);
      OutcomesSettle(Of(s, t).held.before, OpOf(Of(s, t).held.stage), false);
    }
  }

  lemma OperationsEndAsTheirCommands(s: State, t: Tid)
    requires Safe(s) && Of(s, t).Holding? && !Of(Next(s, Resume(t)), t).Holding?
    ensures var h, s' := Of(s, t).held, Next(s, Resume(t));
            var stream := if Of(s', t).Owning? then Some(Of(s', t).owned) else None;
            && (s'.wire, s'.usable, stream) == Outcome(h.before, OpOf(h.stage))
            && s'.mutex.None? && !s'.deferred
  {
    NearTask(s, t);
    OnlyDecisionsEnd(s, t);
    DecisionsFollowTheCommands(Of(s, t).held.before, Of(s, t).held.stage);
  }

  lemma OnlyDecisionsEnd(s: State, t: Tid)
    requires Of(s, t).Holding? && !Of(Next(s, Resume(t)), t).Holding?
    ensures Decides(s, t) && DecisionOf(s, t).End?
  {
  }

  lemma {:induction false} RunOneMore(s: State, steps: seq<Step>, step: Step)
    ensures RunTasks(s, steps + [step]) == Next(RunTasks(s, steps), step)
    decreases |steps|
  {
    if steps != [] {
      assert (steps + [step])[1..] == steps[1..] + [step];
      RunOneMore(Next(s, steps[0]), steps[1..], step);
    }
  }

  // ---- Cancellation ----

  predicate Undisturbed(steps: seq<Step>) { forall i | 0 <= i < |steps| :: !steps[i].Connect? && !steps[i].Disconnect? }

  /** Without `connect` and `disconnect` usability is never regained. */
  lemma {:induction false} UsabilityIsNotRegained(s: State, steps: seq<Step>)
    requires !s.usable && Undisturbed(steps)
    ensures !RunTasks(s, steps).usable
    decreases |steps|
  {
    if steps != [] {
      UsabilityIsNotRegainedBy(s, steps[0]);
      UsabilityIsNotRegained(Next(s, steps[0]), steps[1..]);
    }
  }

  lemma UsabilityIsNotRegainedBy(s: State, step: Step)
    requires !s.usable && !step.Connect? && !step.Disconnect?
    ensures !Next(s, step).usable
  {
    if step.Resume? && Of(s, step.t).Holding? { AdvancingRegainsNothing(s, step.t, Of(s, step.t).held); }
    if step.EndFinish? { EndingRegainsNothing(s, step.t, step.closing); }
  }

  lemma AdvancingRegainsNothing(s: State, t: Tid, h: Held)
    requires !s.usable
    ensures !Advance(s, t, h).usable
  {
  }

  lemma EndingRegainsNothing(s: State, t: Tid, closing: Closing)
    requires !s.usable
    ensures !Next(s, EndFinish(t, closing)).usable
  {
  }

  /** An unusable client whose lock is free sends nothing, however its tasks are scheduled or dropped. */
  lemma {:induction false} PoisonedTasksSendNothing(s: State, steps: seq<Step>)
    requires Safe(s) && !s.usable && s.mutex.None? && Undisturbed(steps)
    ensures var e := RunTasks(s, steps); !e.usable && e.mutex.None? && e.wire.next == s.wire.next
    decreases |steps|
  {
    if steps != [] {
      PoisonedStepsSendNothing(s, steps[0]);
      NextKeepsSafe(s, steps[0]);
      PoisonedTasksSendNothing(Next(s, steps[0]), steps[1..]);
    }
  }

  lemma PoisonedStepsSendNothing(s: State, step: Step)
    requires Safe(s) && !s.usable && s.mutex.None? && !step.Connect? && !step.Disconnect?
    ensures var s' := Next(s, step); !s'.usable && s'.mutex.None? && s'.wire.next == s.wire.next
  {
    if step.Resume? || step.Cancel? { NearTask(s, step.t); }
    if step.EndFinish? && Of(s, step.t).Finishing? { ClosingFinishesOnce(s.wire, Of(s, step.t).owned, step.closing); }
  }

  /** The future of an operation is dropped at one of its awaits, or a download before its end of file. */
  predicate Abandons(s: State, step: Step) {
    || (step.Cancel? && Of(s, step.t).Holding?)
    || (step.Drop? && Of(s, step.t).Owning? && Of(s, step.t).owned.Download? && !Of(s, step.t).owned.reader.atEof)
  }

  /**
   * Cancellation safety at any await point. After any run against any server, dropping an
   * operation that holds the lock, at whatever exchange and whether its command is out or not, or
   * a download before end of file, as `open` does when it is cancelled in its local skip: from
   * then on, however the other tasks are scheduled, the client is unusable, nobody gets the lock
   * and nothing is sent, until `connect` or `disconnect`.
   */
  lemma CancellationPoisons(prefix: seq<Step>, step: Step, suffix: seq<Step>)
    requires Abandons(RunTasks(START, prefix), step) && Undisturbed(suffix)
    ensures var s, e := RunTasks(START, prefix), RunTasks(RunTasks(START, prefix + [step]), suffix);
            && !e.usable && e.wire.next == s.wire.next
            && forall t: Tid :: !Of(e, t).Holding?
  {
    RunsStaySafe(START, prefix);
    RunOneMore(START, prefix, step);
    var s := RunTasks(START, prefix);
    NearTask(s, step.t);
    var abandoned := Next(s, step);
    NextKeepsSafe(s, step);
    PoisonedTasksSendNothing(abandoned, suffix);
    RunsStaySafe(abandoned, suffix);
  }

  /** A client that any run has left unusable with its lock free sends nothing more. */
  lemma UnusableClientsSendNothing(prefix: seq<Step>, suffix: seq<Step>)
    requires !RunTasks(START, prefix).usable && RunTasks(START, prefix).mutex.None? && Undisturbed(suffix)
    ensures var s, e := RunTasks(START, prefix), RunTasks(RunTasks(START, prefix), suffix);
            !e.usable && e.mutex.None? && e.wire.next == s.wire.next
  {
    RunsStaySafe(START, prefix);
    PoisonedTasksSendNothing(RunTasks(START, prefix), suffix);
  }

  // ---- Several executor threads ----

  /** Steps that free the lock before they record a failure: a cancellation, or the last poll of a command or LIST. */
  predicate ReleasesFirst(s: State, step: Step) {
    || (step.Cancel? && Of(s, step.t).Holding?)
    || (step.Resume? && Decides(s, step.t) && DecisionOf(s, step.t).End?
        && var stage := Of(s, step.t).held.stage; stage.AtCommand? || stage.AtList? || stage.AtFinish?)
  }

  /** The moment in between, which another executor thread can see and one poll as one step cannot. */
  ghost function Unrecorded(s: State, step: Step): State { Next(s, step).(usable := s.usable) }

  /** A task that waits for the lock gets in between exactly when the client was still usable. */
  lemma AnotherTaskGetsInIff(s: State, step: Step, u: Tid)
    requires Safe(s) && ReleasesFirst(s, step) && u != step.t && Of(s, u).Waiting?
    ensures Of(Next(Unrecorded(s, step), Lock(u)), u).Holding? <==> s.usable
  {
    NearTask(s, step.t);
    var between := Unrecorded(s, step);
    if step.Resume? { ReleasingFreesTheLock(s, step.t); }
    assert between.tasks == s.tasks[step.t := Idle] && between.mutex.None? && between.slot && !between.active;
    assert Of(between, u) == Of(s, u);
  }

  lemma ReleasingFreesTheLock(s: State, t: Tid)
    requires Safe(s) && ReleasesFirst(s, Resume(t))
    ensures var s' := Next(s, Resume(t));
            s'.tasks == s.tasks[t := Idle] && s'.mutex.None? && s'.slot == s.slot && s'.active == s.active
  {
  }

  ghost function ResumeThrice(s: State, u: Tid): State { Next(Next(Next(s, Resume(u)), Resume(u)), Resume(u)) }

  /** The three polls of a plain command consume the oldest unread reply. */
  lemma CommandsReadTheOldestReply(s: State, u: Tid, a: PlainAnswer)
    requires Of(s, u) == Holding(Held(Settling(Command(a)), Unsent, false, s.wire))
    requires !s.deferred && a.Answered? && s.wire.unread != []
    ensures ResumeThrice(s, u).wire.pairs == s.wire.pairs + [(s.wire.next, s.wire.unread[0].command)]
  {
    var s1 := Next(s, Resume(u));
    assert Of(s1, u) == Holding(Held(AtCommand(a), Unsent, false, s.wire)) && s1.wire == s.wire;
    var s2 := Next(s1, Resume(u));
    assert Of(s2, u) == Holding(Held(AtCommand(a), Awaiting(None), false, s.wire));
    assert s2.wire == Submit(s.wire, a) && s2.wire.unread[0] == s.wire.unread[0];
  }

  /** What it does there: after a command cancelled before its reply was read, it reads that reply as its own. */
  lemma InBetweenRepliesAreMisread(s: State, t: Tid, u: Tid, a: PlainAnswer)
    requires Good(s, true) && s.usable && t != u && a.Answered? && Of(s, u) == Waiting(Command(a))
    requires Of(s, t).Holding? && Of(s, t).held.stage.AtCommand? && Of(s, t).held.phase.Awaiting?
    requires Of(s, t).held.stage.answer.Answered?
    ensures !InStep(ResumeThrice(Next(Unrecorded(s, Cancel(t, [])), Lock(u)), u).wire)
  {
    NearTask(s, t);
    var first := s.wire.unread[0];
    assert s.wire.unread == [first] && first.command + 1 == s.wire.next;
    var s0 := Next(Unrecorded(s, Cancel(t, [])), Lock(u));
    AnotherTaskGetsInIff(s, Cancel(t, []), u);
    assert Of(s0, u) == Holding(Held(Settling(Command(a)), Unsent, false, s0.wire));
    assert s0.wire.unread == [first] && s0.wire.next == s.wire.next && !s0.deferred;
    CommandsReadTheOldestReply(s0, u, a);
    assert ResumeThrice(s0, u).wire.pairs[|s0.wire.pairs|] == (s.wire.next, first.command);
  }

  // ---- Dropping the future of finish() ----

  /** The next command after a dropped finish() reads its own reply. */
  predicate NextReplyIsRight(s: State, t: Tid, bye: Farewell, a: PlainAnswer)
    requires Of(s, t).Finishing?
  {
    var s' := ForgetStream(s, t, Of(s, t).owned, bye);
    s'.usable ==> InStep(CommandBody(Drained(s'.wire, s'.deferred), true, a).0)
  }

  /**
   * The excluded step, exactly: after dropping finish() on a usable client every next command
   * reads its own reply, whatever the server answers, if and only if the data had been drained.
   * Otherwise 426 followed by 226 leaves two replies, of which the next command drains one.
   */
  lemma CancellingFinishIsSafeIff(s: State, t: Tid)
    requires Good(s, true) && Of(s, t).Finishing? && s.usable
    ensures (forall bye, a :: NextReplyIsRight(s, t, bye, a)) <==> Exhausted(Of(s, t).owned)
  {
    NearTask(s, t);
    var stream := Of(s, t).owned;
    if Exhausted(stream) {
      forall bye, a ensures NextReplyIsRight(s, t, bye, a) {
        var s' := ForgetStream(s, t, stream, bye);
        DrainingLeavesACleanWire(s');
        CommandKeepsSync(Drained(s'.wire, s'.deferred), true, a);
      }
    } else {
      ForgottenRepliesAreRead(s, t, Answered(COMMAND_OK, false));
    }
  }

  lemma ForgottenRepliesAreRead(s: State, t: Tid, a: PlainAnswer)
    requires Of(s, t).Finishing? && !Exhausted(Of(s, t).owned) && s.usable && a.Answered?
    requires s.wire.unread == [] && s.wire.next > 0
    ensures !NextReplyIsRight(s, t, Farewell.Farewell(TRANSFER_ABORTED, Some(CLOSING_DATA)), a)
  {
    var bye := Farewell.Farewell(TRANSFER_ABORTED, Some(CLOSING_DATA));
    var s' := ForgetStream(s, t, Of(s, t).owned, bye);
    var w := Drained(s'.wire, s'.deferred);
    assert |s'.wire.unread| == 2 && w.unread == [Reply(LastCommand(s.wire), CLOSING_DATA)];
    var (w', _, _) := CommandBody(w, true, a);
    assert w'.pairs[|w'.pairs| - 1] == (w.next, LastCommand(s.wire));
  }

  lemma Play(steps: seq<Step>, s: State, step: Step) returns (steps': seq<Step>, s': State)
    requires RunTasks(START, steps) == s
    ensures steps' == steps + [step] && s' == Next(s, step) == RunTasks(START, steps')
  {
    steps', s' := steps + [step], Next(s, step);
    RunOneMore(START, steps, step);
  }

  const ABOUT: PlainAnswer := Answered(ABOUT_TO_SEND, false)
  const ONE_BYTE: OpenCall := Open([0], 0, None, 0, OpenAnswers(ABOUT, ABOUT, ABOUT, ABOUT))

  lemma ADownloadIsLocked() returns (steps: seq<Step>, s: State)
    ensures s == RunTasks(START, steps)
    ensures s == State(Some(0), true, true, false, true, FRESH, false, Settled, None,
                       map[0 := Holding(Held(Settling(ONE_BYTE), Unsent, false, FRESH))])
  {
    steps, s := [], START;
    steps, s := Play(steps, s, Connect(true));
    assert s == START.(slot := true, connected := true);
    steps, s := Play(steps, s, Start(0, ONE_BYTE));
    steps, s := Play(steps, s, Lock(0));
  }

  /** The download of one byte is opened. */
  lemma ADownloadIsOpened() returns (steps: seq<Step>, s: State)
    ensures s == RunTasks(START, steps)
    ensures s == State(None, true, true, true, true, Wire(1, [], 0, [(0, 0)], 1, 0), false, Settled, Some(0),
                       map[0 := Owning(Download(Reader([0], None, false)))])
  {
    steps, s := ADownloadIsLocked();
    steps, s := Play(steps, s, Resume(0));
    assert s.tasks == map[0 := Holding(Held(AtRetr(ONE_BYTE, false), Unsent, false, FRESH))] && s.wire == FRESH;
    steps, s := Play(steps, s, Resume(0));
    assert s.tasks == map[0 := Holding(Held(AtRetr(ONE_BYTE, false), Awaiting(Some(0)), false, FRESH))];
    assert s.wire == Wire(1, [Reply(0, ABOUT_TO_SEND)], 0, [], 0, 0);
    steps, s := Play(steps, s, Resume(0));
    assert s.wire == Wire(1, [], 0, [(0, 0)], 1, 0);
  }

  /** finish() is polled and its future dropped before the byte is drained. */
  lemma AFinishIsForgotten() returns (steps: seq<Step>, s: State)
    ensures s == RunTasks(START, steps)
    ensures s == State(None, true, true, false, true,
                       Wire(1, [Reply(0, TRANSFER_ABORTED), Reply(0, CLOSING_DATA)], 0, [(0, 0)], 1, 1),
                       true, CancelledFinish, None, map[0 := Idle])
  {
    steps, s := ADownloadIsOpened();
    steps, s := Play(steps, s, BeginFinish(0));
    steps, s := Play(steps, s, CancelFinish(0, Farewell.Farewell(TRANSFER_ABORTED, Some(CLOSING_DATA))));
    assert s.wire.unread == [Reply(0, TRANSFER_ABORTED), Reply(0, CLOSING_DATA)];
  }

  /**
   * A run in which the future of finish() is dropped before its data is drained: the next command,
   * on a client that is usable throughout, takes the 226 of the transfer for its own reply.
   */
  lemma AForgottenFinishMisleadsTheNextCommand() returns (steps: seq<Step>, s: State)
    ensures s == RunTasks(START, steps) && s.usable && s.slot && s.mutex.None? && !s.active
    ensures s.wire.pairs == [(0, 0), (0, 0), (1, 0)] && !InStep(s.wire)
  {
    var command := Answered(COMMAND_OK, false);
    steps, s := AFinishIsForgotten();
    steps, s := Play(steps, s, Start(1, Command(command)));
    steps, s := Play(steps, s, Lock(1));
    steps, s := Play(steps, s, Resume(1));
    var drained := Wire(1, [Reply(0, CLOSING_DATA)], 0, [(0, 0), (0, 0)], 1, 1);
    assert s.wire == drained && s.tasks[1] == Holding(Held(AtCommand(command), Unsent, false, drained));
    steps, s := Play(steps, s, Resume(1));
    assert s.wire == drained.(next := 2, unread := [Reply(0, CLOSING_DATA), Reply(1, COMMAND_OK)]);
    steps, s := Play(steps, s, Resume(1));
    assert s.wire.pairs[2] == (1, 0);
  }
}
