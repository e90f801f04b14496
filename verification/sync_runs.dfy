/**
 * Every run of the blocking client under any interleaving of threads that share it and of the
 * transfer streams that outlive their calls (src/client/sync.rs, src/client/guard.rs).
 *
 * One step is one access to shared state: taking or releasing the mutex, loading or storing one
 * flag, moving the control stream out of its slot or back, or the command sequence that runs on
 * the stream. A step that is not possible leaves the state alone, so a run is any sequence of steps.
 */
module SyncRuns {
  import opened Wrappers
  import opened Errors
  import opened ControlChannel
  import opened RangedRead
  import opened Operations

  /** Where a thread is, or the stream it was handed. The flag `transfer_active` is up from Raised on. */
  datatype Pc =
    | Idle
    | Waiting(op: Op)                          // about to lock the mutex
    | Locked(op: Op)                           // about to load transfer_active
    | SawIdle(op: Op)                          // about to load connection_usable
    | SawUsable(op: Op)                        // about to look into the slot and run the operation
    | Ran(poison: bool, stream: Option<Stream>)  // commands done, failure not yet recorded
    | Recorded(stream: Option<Stream>)         // failure recorded, lock still held
    | Raised(owned: Stream)                    // start_transfer raised the flag, lock still held
    | Owning(owned: Stream)                    // the caller holds the stream and its guard
    | Closed(failed: bool)                     // completion reply consumed, guard not yet invalidated
    | Releasing                                // about to lower the flag
    | Taken(env: ListAnswers)                  // LIST moved the stream out of the slot
    | RaisedList(env: ListAnswers)             // and raised the flag, lock still held
    | Exclusive(env: ListAnswers)              // and released the lock
    | Listed(poison: bool)                     // LIST done, failure not yet recorded
    | Returning                                // ExclusiveStream::drop is about to lock the mutex
    | PutBack                                  // and has put the stream back

  /** `connected` and `busy` are bookkeeping of the proof: a stream exists; whose flag is up. */
  datatype State = State(
    mutex: Option<Tid>, slot: bool, active: bool, usable: bool, wire: Wire,
    connected: bool, busy: Option<Tid>, pcs: map<Tid, Pc>)

  const INIT := State(None, false, false, true, FRESH, false, None, map[])

  function At(s: State, t: Tid): Pc { if t in s.pcs then s.pcs[t] else Idle }

  function Go(s: State, t: Tid, pc: Pc): State { s.(pcs := s.pcs[t := pc]) }

  datatype Access = Read(bufLen: nat, maxUsize: nat, chunk: Chunk) | Skip(offset: nat, chunks: nat -> Chunk)

  datatype Step =
    | Begin(t: Tid, op: Op)          // call an operation on &self
    | Advance(t: Tid)                // the next access of thread t
    | Use(t: Tid, access: Access)    // read from or skip in an owned download
    | Close(t: Tid, closing: Closing)  // finish or drop an owned stream
    | Connect(ok: bool)              // &mut self
    | Disconnect(quit: PlainAnswer)  // &mut self

  function Unlock(s: State): State { s.(mutex := None) }

  /** `check_operation_state` and the slot test have passed: run the operation on the stream. */
  function Enter(s: State, t: Tid, op: Op): State {
    match op
    case Command(a) =>
      var (w, usable, _) := CommandBody(s.wire, s.usable, a);
      Go(s.(wire := w), t, Ran(!usable, None))
    case Store(a) =>
      var o := StoreBody(s.wire, s.usable, a);
      Go(s.(wire := o.wire), t, Ran(!o.usable, if o.result.Started? then Some(Upload) else None))
    case Open(file, offset, length, maxUsize, env) =>
      var o := OpenBody(s.wire, s.usable, offset, maxUsize, env);
      var stream := if o.result.Started? then Some(Download(Received(file, o.result, length))) else None;
      Go(s.(wire := o.wire), t, Ran(!o.usable, stream))
    case List(env) => Go(s.(slot := false), t, Taken(env))
  }

  function AdvanceThread(s: State, t: Tid): State {
    match At(s, t)
    case Waiting(op) => if s.mutex.None? then Go(s.(mutex := Some(t)), t, Locked(op)) else s
    case Locked(op) => if s.active then Go(Unlock(s), t, Idle) else Go(s, t, SawIdle(op))
    case SawIdle(op) => if s.usable then Go(s, t, SawUsable(op)) else Go(Unlock(s), t, Idle)
    case SawUsable(op) => if s.slot then Enter(s, t, op) else Go(Unlock(s), t, Idle)
    case Ran(poison, stream) => Go(s.(usable := s.usable && !poison), t, Recorded(stream))
    case Recorded(None) => Go(Unlock(s), t, Idle)
    case Recorded(Some(stream)) => Go(s.(active := true, busy := Some(t)), t, Raised(stream))
    case Raised(stream) => Go(Unlock(s), t, Owning(stream))
    case Closed(failed) => Go(s.(usable := s.usable && !failed), t, Releasing)
    case Releasing => Go(s.(active := false, busy := None), t, Idle)
    case Taken(env) => Go(s.(active := true, busy := Some(t)), t, RaisedList(env))
    case RaisedList(env) => Go(Unlock(s), t, Exclusive(env))
    case Exclusive(env) =>
      var (w, usable, _) := ListBody(s.wire, s.usable, env);
      Go(s.(wire := w), t, Listed(!usable))
    case Listed(poison) => Go(s.(usable := s.usable && !poison), t, Returning)
    case Returning => if s.mutex.None? then Go(s.(mutex := Some(t), slot := true), t, PutBack) else s
    case PutBack => Go(Unlock(s), t, Releasing)
    case _ => s
  }

  function UseStream(r: Reader, access: Access): Reader {
    match access
    case Read(bufLen, maxUsize, chunk) => if bufLen <= maxUsize then SyncRead(r, bufLen, maxUsize, chunk).0 else r
    case Skip(offset, chunks) => SkipPrefix(r, offset, chunks).0
  }

  /** `&mut self` is available: no thread is inside an operation; escaped streams may be alive. */
  ghost predicate Exclusively(s: State) {
    forall t: Tid :: At(s, t).Idle? || At(s, t).Owning? || At(s, t).Closed? || At(s, t).Releasing?
  }

  function ConnectClient(s: State, ok: bool): State {
    if s.active || (s.usable && s.slot) then s
    else s.(slot := ok, connected := ok, usable := true, wire := FRESH)
  }

  /** Only a usable stream is asked to quit. */
  function DisconnectClient(s: State, quit: PlainAnswer): State {
    if s.active || !s.slot then s
    else if !s.usable then s.(slot := false, connected := false, usable := true)
    else
      var (w, response) := Send(s.wire, quit);
      var result := Expect(response, {221});
      s.(slot := false, connected := false, wire := w,
         usable := !(result.Err? && SetupRequiresReconnect(result.error)))
  }

  ghost function Apply(s: State, step: Step): State {
    match step
    case Begin(t, op) => if At(s, t).Idle? then Go(s, t, Waiting(op)) else s
    case Advance(t) => AdvanceThread(s, t)
    case Use(t, access) =>
      var pc := At(s, t);
      if pc.Owning? && pc.owned.Download? then Go(s, t, Owning(Download(UseStream(pc.owned.reader, access)))) else s
    case Close(t, closing) =>
      var pc := At(s, t);
      if pc.Owning? then
        var (w, ok) := CloseStream(s.wire, pc.owned, closing);
        Go(s.(wire := w), t, Closed(!ok))
      else s
    case Connect(ok) => if Exclusively(s) then ConnectClient(s, ok) else s
    case Disconnect(quit) => if Exclusively(s) then DisconnectClient(s, quit) else s
  }

  ghost function Run(s: State, steps: seq<Step>): State
    decreases |steps|
  {
    if steps == [] then s else Run(Apply(s, steps[0]), steps[1..])
  }

  // ---- The invariant ----

  predicate HoldsLock(pc: Pc) {
    || pc.Locked? || pc.SawIdle? || pc.SawUsable? || pc.Ran? || pc.Recorded? || pc.Raised?
    || pc.Taken? || pc.RaisedList? || pc.PutBack?
  }

  predicate Owns(pc: Pc) {
    || pc.Raised? || pc.Owning? || pc.Closed? || pc.Releasing?
    || pc.RaisedList? || pc.Exclusive? || pc.Listed? || pc.Returning? || pc.PutBack?
  }

  /** Past the gate with the flag still down. */
  predicate PastGate(pc: Pc) { pc.SawIdle? || pc.SawUsable? || pc.Ran? || pc.Recorded? || pc.Taken? }

  /** The control stream is out of its slot. */
  predicate Out(pc: Pc) { pc.Taken? || pc.RaisedList? || pc.Exclusive? || pc.Listed? || pc.Returning? }

  /** A transfer was begun and its completion reply has not been asked for. */
  predicate Streaming(pc: Pc) {
    (pc.Ran? && pc.stream.Some?) || (pc.Recorded? && pc.stream.Some?) || pc.Raised? || pc.Owning?
  }

  /** A failure that the thread is about to record. */
  predicate Pending(pc: Pc) { (pc.Ran? && pc.poison) || (pc.Closed? && pc.failed) || (pc.Listed? && pc.poison) }

  /** About to send, with the gate behind it. */
  predicate Sending(pc: Pc) { pc.SawUsable? || pc.Taken? || pc.RaisedList? || pc.Exclusive? }

  /** The thread in control of the connection: the owner of the flag, else the holder of the lock. */
  function Controller(s: State): Pc {
    if s.busy.Some? then At(s, s.busy.value)
    else if s.mutex.Some? then At(s, s.mutex.value)
    else Idle
  }

  function StreamOf(pc: Pc): Option<Stream> {
    match pc
    case Ran(_, stream) => stream
    case Recorded(stream) => stream
    case Raised(owned) => Some(owned)
    case Owning(owned) => Some(owned)
    case _ => None
  }

  /** The operation a thread has still to run. */
  function OpOf(pc: Pc): Option<Op> {
    match pc
    case Waiting(op) => Some(op)
    case Locked(op) => Some(op)
    case SawIdle(op) => Some(op)
    case SawUsable(op) => Some(op)
    case _ => None
  }

  /** A download that claims to be at its end has nothing left. */
  predicate EofOk(pc: Pc) { StreamOf(pc).Some? && StreamOf(pc).value.Download? ==> EofSound(StreamOf(pc).value.reader) }

  /** Lock and flag belong to the one thread whose place says so. */
  ghost predicate Placement(s: State) {
    && (forall t: Tid :: HoldsLock(At(s, t)) <==> s.mutex == Some(t))
    && (forall t: Tid :: Owns(At(s, t)) <==> s.busy == Some(t))
    && (forall t: Tid :: EofOk(At(s, t)))
    && (s.active <==> s.busy.Some?)
  }

  /** The slot, usability and the count of finalizations, as far as they do not depend on the server. */
  predicate Linked(s: State) {
    var pc := Controller(s);
    && (s.mutex.Some? && PastGate(At(s, s.mutex.value)) ==> s.busy.None?)
    && (s.connected <==> s.slot || Out(pc)) && !(s.slot && Out(pc))
    && (Streaming(pc) || s.busy.Some? || pc.Ran? ==> s.connected)
    && (Sending(pc) ==> s.usable)
    && (s.connected ==> s.wire.begun == s.wire.finished + (if Streaming(pc) then 1 else 0))
  }

  /** What holds whatever the server does. */
  ghost predicate Safe(s: State) { Placement(s) && Linked(s) }

  // ---- Each step keeps it, for every server ----

  /** What Placement says about the three threads a step can concern. */
  lemma Around(s: State, t: Tid)
    requires Placement(s)
    ensures (HoldsLock(At(s, t)) <==> s.mutex == Some(t)) && (Owns(At(s, t)) <==> s.busy == Some(t)) && EofOk(At(s, t))
    ensures s.mutex.Some? ==> HoldsLock(At(s, s.mutex.value))
    ensures s.busy.Some? ==> Owns(At(s, s.busy.value))
    ensures s.mutex.Some? && s.busy.Some? && Owns(At(s, s.mutex.value)) ==> s.mutex == s.busy
  {
  }

  /** Only thread t moved, with its own operation; mutex and flag changed hands only between it and nobody. */
  predicate Local(s: State, s': State, t: Tid) {
    && s'.pcs == s.pcs[t := At(s', t)]
    && (HoldsLock(At(s', t)) <==> s'.mutex == Some(t)) && (Owns(At(s', t)) <==> s'.busy == Some(t))
    && (s'.mutex == s.mutex || (Mine(s.mutex, t) && Mine(s'.mutex, t)))
    && (s'.busy == s.busy || (Mine(s.busy, t) && Mine(s'.busy, t)))
    && (s'.active <==> s'.busy.Some?)
    && EofOk(At(s', t))
    && (OpOf(At(s', t)) == OpOf(At(s, t)) || OpOf(At(s', t)).None? || At(s, t).Idle?)
  }

  lemma LocalMovesKeepPlacement(s: State, s': State, t: Tid)
    requires Placement(s) && Local(s, s', t)
    ensures Placement(s')
  {
    assert forall u: Tid | u != t :: At(s', u) == At(s, u);
  }

  lemma GateIsLocal(s: State, t: Tid)
    requires Safe(s) && AdvanceThread(s, t) != s
    requires At(s, t).Waiting? || At(s, t).Locked? || At(s, t).SawIdle?
    ensures Local(s, AdvanceThread(s, t), t)
  {
    Around(s, t);
  }

  lemma EnteringIsLocal(s: State, t: Tid)
    requires Safe(s) && At(s, t).SawUsable?
    ensures Local(s, AdvanceThread(s, t), t)
  {
    Around(s, t);
  }

  lemma RecordingIsLocal(s: State, t: Tid)
    requires Safe(s) && (At(s, t).Ran? || At(s, t).Recorded?)
    ensures Local(s, AdvanceThread(s, t), t)
  {
    Around(s, t);
  }

  lemma ReleasingIsLocal(s: State, t: Tid)
    requires Safe(s) && (At(s, t).Raised? || At(s, t).Closed? || At(s, t).Releasing?)
    ensures Local(s, AdvanceThread(s, t), t)
  {
    Around(s, t);
  }

  lemma LeavingTheSlotIsLocal(s: State, t: Tid)
    requires Safe(s) && (At(s, t).Taken? || At(s, t).RaisedList?)
    ensures Local(s, AdvanceThread(s, t), t)
  {
    Around(s, t);
  }

  lemma ListingIsLocal(s: State, t: Tid)
    requires Safe(s) && (At(s, t).Exclusive? || At(s, t).Listed?)
    ensures Local(s, AdvanceThread(s, t), t)
  {
    Around(s, t);
  }

  lemma ReturningIsLocal(s: State, t: Tid)
    requires Safe(s) && AdvanceThread(s, t) != s && (At(s, t).Returning? || At(s, t).PutBack?)
    ensures Local(s, AdvanceThread(s, t), t)
  {
    Around(s, t);
  }

  lemma AdvancingIsLocal(s: State, t: Tid)
    requires Safe(s) && AdvanceThread(s, t) != s
    ensures Local(s, AdvanceThread(s, t), t)
  {
    match At(s, t)
    case Waiting(_) | Locked(_) | SawIdle(_) => GateIsLocal(s, t);
    case SawUsable(_) => EnteringIsLocal(s, t);
    case Ran(_, _) | Recorded(_) => RecordingIsLocal(s, t);
    case Raised(_) | Closed(_) | Releasing => ReleasingIsLocal(s, t);
    case Taken(_) | RaisedList(_) => LeavingTheSlotIsLocal(s, t);
    case Exclusive(_) | Listed(_) => ListingIsLocal(s, t);
    case Returning | PutBack => ReturningIsLocal(s, t);
  }

  lemma ReconnectingKeepsPlacement(s: State, s': State)
    requires Placement(s)
    requires s' == s.(slot := s'.slot, usable := s'.usable, wire := s'.wire, connected := s'.connected)
    ensures Placement(s')
  {
    assert forall t: Tid :: At(s', t) == At(s, t);
  }

  lemma UseKeepsEofSound(r: Reader, access: Access)
    requires EofSound(r)
    ensures EofSound(UseStream(r, access))
  {
    match access
    case Read(bufLen, maxUsize, chunk) =>
    case Skip(offset, chunks) => SkipReachesItsOffset(r.rest, offset, chunks, 0);
  }

  lemma StreamingKeepsPlacement(s: State, step: Step)
    requires Safe(s) && Apply(s, step) != s && (step.Begin? || step.Use? || step.Close?)
    ensures Placement(Apply(s, step))
  {
    Around(s, step.t);
    if step.Use? { UseKeepsEofSound(At(s, step.t).owned.reader, step.access); }
    LocalMovesKeepPlacement(s, Apply(s, step), step.t);
  }

  lemma PlacementIsKept(s: State, step: Step)
    requires Safe(s)
    ensures Placement(Apply(s, step))
  {
    var s' := Apply(s, step);
    if s' == s {
    } else if step.Connect? || step.Disconnect? {
      ReconnectingKeepsPlacement(s, s');
    } else if step.Advance? {
      AdvancingIsLocal(s, step.t);
      LocalMovesKeepPlacement(s, s', step.t);
    } else {
      StreamingKeepsPlacement(s, step);
    }
  }

  lemma EnteringKeepsLinks(s: State, t: Tid, op: Op)
    requires Safe(s) && At(s, t) == SawUsable(op) && s.slot
    ensures Linked(Enter(s, t, op))
  {
    Around(s, t);
    match op
    case Command(a) =>
    case Store(a) => TransferCountsItsStart(s.wire, a);
    case Open(file, offset, length, maxUsize, env) => OpenBeginsWhatItReturns(s.wire, s.usable, offset, maxUsize, env);
    case List(env) =>
  }

  lemma ListingKeepsLinks(s: State, t: Tid)
    requires Safe(s) && At(s, t).Exclusive?
    ensures Linked(AdvanceThread(s, t))
  {
    Around(s, t);
    ListFinishesWhatItBegins(s.wire, s.usable, At(s, t).env);
  }

  lemma GateKeepsLinks(s: State, t: Tid)
    requires Safe(s)
    requires At(s, t).Waiting? || At(s, t).Locked? || At(s, t).SawIdle? || (At(s, t).SawUsable? && !s.slot)
    ensures Linked(AdvanceThread(s, t))
  {
    Around(s, t);
  }

  lemma RecordingKeepsLinks(s: State, t: Tid)
    requires Safe(s)
    requires At(s, t).Ran? || At(s, t).Recorded? || At(s, t).Raised? || At(s, t).Closed? || At(s, t).Releasing?
    ensures Linked(AdvanceThread(s, t))
  {
    Around(s, t);
  }

  lemma ReturningKeepsLinks(s: State, t: Tid)
    requires Safe(s)
    requires At(s, t).Taken? || At(s, t).RaisedList? || At(s, t).Listed? || At(s, t).Returning? || At(s, t).PutBack?
    ensures Linked(AdvanceThread(s, t))
  {
    Around(s, t);
  }

  lemma AdvancingKeepsLinks(s: State, t: Tid)
    requires Safe(s)
    ensures Linked(AdvanceThread(s, t))
  {
    match At(s, t)
    case Waiting(_) | Locked(_) | SawIdle(_) => GateKeepsLinks(s, t);
    case SawUsable(op) => if s.slot { EnteringKeepsLinks(s, t, op); } else { GateKeepsLinks(s, t); }
    case Ran(_, _) | Recorded(_) | Raised(_) | Closed(_) | Releasing => RecordingKeepsLinks(s, t);
    case Exclusive(_) => ListingKeepsLinks(s, t);
    case Taken(_) | RaisedList(_) | Listed(_) | Returning | PutBack => ReturningKeepsLinks(s, t);
    case Idle | Owning(_) =>
  }

  lemma StreamingKeepsLinks(s: State, step: Step)
    requires Safe(s) && (step.Begin? || step.Use? || step.Close?)
    ensures Linked(Apply(s, step))
  {
    Around(s, step.t);
    if step.Close? && At(s, step.t).Owning? { ClosingFinishesOnce(s.wire, At(s, step.t).owned, step.closing); }
    var s' := Apply(s, step);
    assert forall u | u != step.t :: At(s', u) == At(s, u);
  }

  lemma ReconnectingKeepsLinks(s: State, step: Step)
    requires Safe(s) && (step.Connect? || step.Disconnect?)
    ensures Linked(Apply(s, step))
  {
    if s.mutex.Some? { Around(s, s.mutex.value); }
  }

  lemma {:induction false} StepKeepsSafe(s: State, step: Step)
    requires Safe(s)
    ensures Safe(Apply(s, step))
  {
    PlacementIsKept(s, step);
    match step
    case Advance(t) => AdvancingKeepsLinks(s, t);
    case Begin(_, _) | Use(_, _) | Close(_, _) => StreamingKeepsLinks(s, step);
    case Connect(_) | Disconnect(_) => ReconnectingKeepsLinks(s, step);
  }

  // ---- The replies, for servers that plant no stray one ----

  predicate Tame(step: Step, strict: bool) { step.Begin? ==> TameOp(step.op, strict) }

  predicate TamePc(pc: Pc, strict: bool) { OpOf(pc).Some? ==> TameOp(OpOf(pc).value, strict) }

  ghost predicate Tamed(s: State, strict: bool) { forall t: Tid :: TamePc(At(s, t), strict) }

  predicate Synced(s: State, strict: bool) {
    var pc := Controller(s);
    && (Streaming(pc) ==> Clean(s.wire))
    && (s.connected && s.usable ==> Clean(s.wire) || Pending(pc))
    && (strict ==> InStep(s.wire))
  }

  ghost predicate Inv(s: State, strict: bool) { Safe(s) && Tamed(s, strict) && Synced(s, strict) }

  lemma OneThreadStaysTame(s: State, s': State, t: Tid, strict: bool)
    requires Tamed(s, strict) && s'.pcs == s.pcs[t := At(s', t)] && TamePc(At(s', t), strict)
    ensures Tamed(s', strict)
  {
    assert forall u: Tid | u != t :: At(s', u) == At(s, u);
  }

  lemma TamenessIsKept(s: State, step: Step, strict: bool)
    requires Safe(s) && Tamed(s, strict) && Tame(step, strict)
    ensures Tamed(Apply(s, step), strict)
  {
    var s' := Apply(s, step);
    if s' == s {
    } else if step.Connect? || step.Disconnect? {
      assert forall u: Tid :: At(s', u) == At(s, u);
    } else {
      assert TamePc(At(s, step.t), strict);
      if step.Advance? {
        AdvancingIsLocal(s, step.t);
      }
      OneThreadStaysTame(s, s', step.t, strict);
    }
  }

  lemma EnteringKeepsSync(s: State, t: Tid, op: Op, strict: bool)
    requires Inv(s, strict) && At(s, t) == SawUsable(op) && s.slot
    ensures Synced(Enter(s, t, op), strict)
  {
    Around(s, t);
    assert Controller(s) == SawUsable(op) && Clean(s.wire) && TamePc(At(s, t), strict);
    match op
    case Command(a) => CommandKeepsSync(s.wire, s.usable, a);
    case Store(a) => StoreKeepsSync(s.wire, s.usable, a);
    case Open(file, offset, length, maxUsize, env) =>
      OpenKeepsSyncIff(s.wire, s.usable, offset, maxUsize, env);
      StartedTransfersAreClean(s.wire, s.usable, offset, maxUsize, env);
      if strict { OpenStaysInStepIff(s.wire, s.usable, offset, maxUsize, env); }
    case List(env) =>
  }

  lemma ListingKeepsReplies(s: State, t: Tid, strict: bool)
    requires Safe(s) && Synced(s, strict) && At(s, t).Exclusive?
    ensures Synced(AdvanceThread(s, t), strict)
  {
    Around(s, t);
    assert Controller(s) == At(s, t) && Clean(s.wire);
    ListKeepsSync(s.wire, s.usable, At(s, t).env);
  }

  /** The accesses to lock, flags and slot. */
  lemma PassingKeepsSync(s: State, t: Tid, strict: bool)
    requires Safe(s) && Synced(s, strict) && !At(s, t).Exclusive? && !(At(s, t).SawUsable? && s.slot)
    ensures Synced(AdvanceThread(s, t), strict)
  {
    Around(s, t);
  }

  lemma UsingKeepsSync(s: State, step: Step, strict: bool)
    requires Safe(s) && Synced(s, strict) && (step.Begin? || step.Use?)
    ensures Synced(Apply(s, step), strict)
  {
    Around(s, step.t);
    var s' := Apply(s, step);
    assert forall u | u != step.t :: At(s', u) == At(s, u);
  }

  lemma ClosingStreamsKeepsSync(s: State, t: Tid, closing: Closing, strict: bool)
    requires Safe(s) && Synced(s, strict) && At(s, t).Owning?
    ensures Synced(Apply(s, Close(t, closing)), strict)
  {
    Around(s, t);
    assert Controller(s) == At(s, t);
    ClosingKeepsSync(s.wire, At(s, t).owned, closing);
  }

  lemma ReconnectingKeepsSync(s: State, step: Step, strict: bool)
    requires Safe(s) && Synced(s, strict) && (step.Connect? || step.Disconnect?)
    ensures Synced(Apply(s, step), strict)
  {
    if s.mutex.Some? { Around(s, s.mutex.value); }
    if step.Disconnect? && Clean(s.wire) { SendOnACleanWire(s.wire, step.quit); }
  }

  lemma {:induction false} StepKeepsInv(s: State, step: Step, strict: bool)
    requires Inv(s, strict) && Tame(step, strict)
    ensures Inv(Apply(s, step), strict)
  {
    StepKeepsSafe(s, step);
    TamenessIsKept(s, step, strict);
    match step
    case Advance(t) =>
      if At(s, t).Exclusive? {
        ListingKeepsReplies(s, t, strict);
      } else if At(s, t).SawUsable? && s.slot {
        EnteringKeepsSync(s, t, At(s, t).op, strict);
      } else {
        PassingKeepsSync(s, t, strict);
      }
    case Begin(_, _) | Use(_, _) => UsingKeepsSync(s, step, strict);
    case Close(t, closing) => if At(s, t).Owning? { ClosingStreamsKeepsSync(s, t, closing, strict); }
    case Connect(_) | Disconnect(_) => ReconnectingKeepsSync(s, step, strict);
  }

  // ---- Theorems over runs ----

  lemma {:induction false} RunsStaySafe(s: State, steps: seq<Step>)
    requires Safe(s)
    ensures Safe(Run(s, steps))
    decreases |steps|
  {
    if steps != [] {
      StepKeepsSafe(s, steps[0]);
      RunsStaySafe(Apply(s, steps[0]), steps[1..]);
    }
  }

  lemma {:induction false} RunsKeepInv(s: State, steps: seq<Step>, strict: bool)
    requires Inv(s, strict)
    requires forall i | 0 <= i < |steps| :: Tame(steps[i], strict)
    ensures Inv(Run(s, steps), strict)
    decreases |steps|
  {
    if steps != [] {
      StepKeepsInv(s, steps[0], strict);
      RunsKeepInv(Apply(s, steps[0]), steps[1..], strict);
    }
  }

  /** The flag was found down under the lock. */
  predicate SawFlagDown(pc: Pc) { pc.SawIdle? || pc.SawUsable? }

  /**
   * Thread safety, for every run against every server. At most one thread holds the lock and at
   * most one owns the flag, which is up exactly while one does. Whoever saw the flag down under
   * the lock also sees the stream back in its slot and every cleanup failure recorded. Nobody is
   * about to send on an unusable client. Every transfer is finalized exactly once before the flag
   * falls.
   */
  lemma EveryRunIsSafe(steps: seq<Step>)
    ensures var s := Run(INIT, steps);
            && (forall t: Tid, u: Tid :: HoldsLock(At(s, t)) && HoldsLock(At(s, u)) ==> t == u)
            && (forall t: Tid, u: Tid :: Owns(At(s, t)) && Owns(At(s, u)) ==> t == u)
            && (s.active <==> exists t: Tid :: Owns(At(s, t)))
            && (forall t: Tid :: SawFlagDown(At(s, t)) ==> !s.active && s.slot == s.connected)
            && (forall t: Tid, u: Tid :: SawFlagDown(At(s, t)) ==> !Pending(At(s, u)))
            && (forall t: Tid :: Sending(At(s, t)) ==> s.usable)
            && (s.connected && !s.active && s.mutex.None? ==> s.wire.begun == s.wire.finished)
  {
    RunsStaySafe(INIT, steps);
    var s := Run(INIT, steps);
    forall t: Tid
      ensures Sending(At(s, t)) || SawFlagDown(At(s, t)) ==> Controller(s) == At(s, t)
      ensures SawFlagDown(At(s, t)) ==> s.busy.None?
    {
      Around(s, t);
    }
    forall t: Tid, u: Tid | SawFlagDown(At(s, t)) ensures !Pending(At(s, u)) {
      Around(s, t);
      Around(s, u);
    }
    if s.busy.Some? { Around(s, s.busy.value); }
  }

  lemma SyncedStatesAreClean(s: State)
    requires Safe(s) && Synced(s, false)
    ensures forall t: Tid :: Sending(At(s, t)) && s.connected ==> Clean(s.wire)
    ensures s.slot && s.usable && !s.active && s.mutex.None? ==> Clean(s.wire)
    ensures forall t: Tid :: SawFlagDown(At(s, t)) && s.slot && s.usable ==> Clean(s.wire)
  {
    forall t: Tid ensures Sending(At(s, t)) || SawFlagDown(At(s, t)) ==> Controller(s) == At(s, t) {
      Around(s, t);
    }
  }

  /**
   * Reply synchronisation, for every run in which no `open` absorbs a stray reply. Whoever is
   * about to send has an empty reply queue and a zero restart marker before it; so has the idle
   * client, and whoever saw the flag down under the lock on a usable client.
   */
  lemma EveryRunIsSynchronised(steps: seq<Step>)
    requires forall i | 0 <= i < |steps| :: Tame(steps[i], false)
    ensures var s := Run(INIT, steps);
            && (forall t: Tid :: Sending(At(s, t)) && s.connected ==> Clean(s.wire))
            && (s.slot && s.usable && !s.active && s.mutex.None? ==> Clean(s.wire))
            && (forall t: Tid :: SawFlagDown(At(s, t)) && s.slot && s.usable ==> Clean(s.wire))
  {
    RunsKeepInv(INIT, steps, false);
    SyncedStatesAreClean(Run(INIT, steps));
  }

  /** If moreover no `open` resets a broken `RETR`, every reply ever read answered the command just sent. */
  lemma EveryReplyAnswersItsCommand(steps: seq<Step>)
    requires forall i | 0 <= i < |steps| :: Tame(steps[i], true)
    ensures InStep(Run(INIT, steps).wire)
  {
    RunsKeepInv(INIT, steps, true);
  }

  lemma PoisonIsKept(s: State, step: Step)
    requires Safe(s) && !s.usable && !step.Connect? && !step.Disconnect?
    ensures !Apply(s, step).usable && Apply(s, step).wire.next == s.wire.next
  {
    if step.Advance? { Around(s, step.t); }
    if step.Close? && At(s, step.t).Owning? { ClosingFinishesOnce(s.wire, At(s, step.t).owned, step.closing); }
  }

  /** From then on, without `connect` and `disconnect`, the client stays unusable and sends nothing. */
  lemma {:induction false} PoisonedStatesSendNothing(s: State, steps: seq<Step>)
    requires Safe(s) && !s.usable
    requires forall i | 0 <= i < |steps| :: !steps[i].Connect? && !steps[i].Disconnect?
    ensures !Run(s, steps).usable && Run(s, steps).wire.next == s.wire.next
    decreases |steps|
  {
    if steps != [] {
      PoisonIsKept(s, steps[0]);
      StepKeepsSafe(s, steps[0]);
      PoisonedStatesSendNothing(Apply(s, steps[0]), steps[1..]);
    }
  }

  /** A client that has become unusable in any run sends nothing more, under any interleaving. */
  lemma PoisonedClientsSendNothing(prefix: seq<Step>, suffix: seq<Step>)
    requires !Run(INIT, prefix).usable
    requires forall i | 0 <= i < |suffix| :: !suffix[i].Connect? && !suffix[i].Disconnect?
    ensures var s, e := Run(INIT, prefix), Run(Run(INIT, prefix), suffix);
            !e.usable && e.wire.next == s.wire.next
  {
    RunsStaySafe(INIT, prefix);
    PoisonedStatesSendNothing(Run(INIT, prefix), suffix);
  }

  /** Reconnecting an unusable idle client, after any run, drops the old stream and starts from a fresh wire. */
  lemma ReconnectingRecovers(steps: seq<Step>)
    requires Exclusively(Run(INIT, steps)) && !Run(INIT, steps).active && !Run(INIT, steps).usable
    ensures var s' := Apply(Run(INIT, steps), Connect(true));
            Inv(s', true) && s'.slot && s'.usable && Clean(s'.wire) && InStep(s'.wire)
  {
    RunsStaySafe(INIT, steps);
    var s := Run(INIT, steps);
    StepKeepsSafe(s, Connect(true));
    var s' := Apply(s, Connect(true));
    assert forall t: Tid :: At(s', t) == At(s, t);
    if s.mutex.Some? { Around(s, s.mutex.value); }
  }
}
