/**
 * What tasks of the asynchronous client achieve when nobody disturbs them: the counterpart to the
 * safety of TokioRuns. Operations are polled to their end from any state that a run reaches;
 * streams, `connect` and `disconnect` do exactly what they are for.
 */
module TokioProgress {
  import opened Wrappers
  import opened Errors
  import opened ControlChannel
  import opened RangedRead
  import opened Operations
  import opened TokioRuns

  lemma {:induction false} RunAppend(s: State, a: seq<Step>, b: seq<Step>)
    ensures RunTasks(s, a + b) == RunTasks(RunTasks(s, a), b)
    decreases |a|
  {
    if a == [] {
      assert a + b == b;
    } else {
      assert (a + b)[0] == a[0] && (a + b)[1..] == a[1..] + b;
      RunAppend(Next(s, a[0]), a[1..], b);
    }
  }

  function Resumes(t: Tid, n: nat): seq<Step> { if n == 0 then [] else [Resume(t)] + Resumes(t, n - 1) }

  /** Task t gets from s to e when it alone is polled. */
  ghost predicate Leads(s: State, t: Tid, e: State) { exists n: nat :: RunTasks(s, Resumes(t, n)) == e }

  lemma Arrived(s: State, t: Tid)
    ensures Leads(s, t, s)
  {
    assert RunTasks(s, Resumes(t, 0)) == s;
  }

  lemma Onward(s: State, t: Tid, e: State)
    requires Leads(Next(s, Resume(t)), t, e)
    ensures Leads(s, t, e)
  {
    var n: nat :| RunTasks(Next(s, Resume(t)), Resumes(t, n)) == e;
    assert Resumes(t, n + 1)[1..] == Resumes(t, n);
    assert RunTasks(s, Resumes(t, n + 1)) == e;
  }

  /** The state after an operation of task t: its wire and usability, and the stream it handed out. */
  function Done(s: State, t: Tid, outcome: (Wire, bool, Option<Stream>)): State {
    var (w, usable, stream) := outcome;
    var ended := s.(mutex := None, wire := w, usable := usable);
    match stream
    case None => Put(ended, t, Idle)
    case Some(owned) => Put(ended.(active := true, busy := Some(t)), t, Owning(owned))
  }

  /** How many exchanges an operation may still have before it. */
  function Rank(stage: Stage): nat {
    match stage
    case Settling(_) => 5
    case AtRest(_) => 4
    case AtRetr(_, _) => 3
    case AtReset(_) => 2
    case AtAgain(_) => 1
    case AtList(_) => 1
    case AtFinish(_) | AtCommand(_) | AtStore(_) => 0
  }

  lemma SendingMeans(s: State, t: Tid)
    requires Safe(s) && Of(s, t).Holding? && Of(s, t).held.phase.Unsent? && !Of(s, t).held.stage.Settling?
    ensures var s', h := Next(s, Resume(t)), Of(s, t).held;
            && Of(s', t).Holding? && Of(s', t).held.stage == h.stage && Of(s', t).held.before == h.before
            && Decides(s', t)
            && forall outcome :: Done(s', t, outcome) == Done(s, t, outcome)
  {
    NearTask(s, t);
    var s', h := Next(s, Resume(t)), Of(s, t).held;
    var (w, begins) := Sent(s.wire, h.stage);
    forall outcome ensures Done(s', t, outcome) == Done(s, t, outcome) {
      SameExceptTheTask(s, s', t, outcome);
    }
  }

  lemma SameExceptTheTask(s: State, s': State, t: Tid, outcome: (Wire, bool, Option<Stream>))
    requires s'.tasks == s.tasks[t := Of(s', t)]
    requires s' == s.(tasks := s'.tasks, wire := s'.wire, usable := s'.usable)
    ensures Done(s', t, outcome) == Done(s, t, outcome)
  {
    var task := if outcome.2.None? then Idle else Owning(outcome.2.value);
    assert s'.tasks[t := task] == s.tasks[t := task];
  }

  /** A decision that goes on does so at a later stage of the same operation. */
  lemma GoingOnMeans(s: State, t: Tid)
    requires Safe(s) && Decides(s, t) && DecisionOf(s, t).GoOn?
    ensures var s', h := Next(s, Resume(t)), Of(s, t).held;
            && Of(s', t).Holding? && Of(s', t).held.phase.Unsent? && Of(s', t).held.before == h.before
            && OpOf(Of(s', t).held.stage) == OpOf(h.stage) && Rank(Of(s', t).held.stage) < Rank(h.stage)
            && s' == s.(tasks := s.tasks[t := Of(s', t)], wire := s'.wire)
  {
    NearTask(s, t);
    DecisionsFollowTheCommands(Of(s, t).held.before, Of(s, t).held.stage);
  }

  /** A decision that ends the operation leaves its outcome. */
  lemma EndingMeans(s: State, t: Tid)
    requires Safe(s) && Decides(s, t) && DecisionOf(s, t).End?
    ensures Next(s, Resume(t)) == Done(s, t, Outcome(Of(s, t).held.before, OpOf(Of(s, t).held.stage)))
  {
    NearTask(s, t);
    DecisionsFollowTheCommands(Of(s, t).held.before, Of(s, t).held.stage);
  }

  /** Polled to its end, a held operation does what its command sequence does from the wire it met. */
  lemma {:induction false} HeldOperationsEnd(s: State, t: Tid)
    requires Safe(s) && Of(s, t).Holding? && !Of(s, t).held.stage.Settling?
    ensures Leads(s, t, Done(s, t, Outcome(Of(s, t).held.before, OpOf(Of(s, t).held.stage))))
    decreases Rank(Of(s, t).held.stage), if Of(s, t).held.phase.Unsent? then 1 else 0
  {
    var h, s' := Of(s, t).held, Next(s, Resume(t));
    var outcome := Outcome(h.before, OpOf(h.stage));
    NextKeepsSafe(s, Resume(t));
    if h.phase.Unsent? {
      SendingMeans(s, t);
      HeldOperationsEnd(s', t);
    } else {
      RepliesArrive(s, t);
      if DecisionOf(s, t).GoOn? {
        GoingOnMeans(s, t);
        HeldOperationsEnd(s', t);
        SameExceptTheTask(s, s', t, outcome);
      } else {
        EndingMeans(s, t);
        Arrived(s', t);
      }
    }
    Onward(s, t, Done(s, t, outcome));
  }

  lemma RepliesArrive(s: State, t: Tid)
    requires Safe(s) && Of(s, t).Holding? && Of(s, t).held.phase.Awaiting?
    ensures Decides(s, t) && !Of(s, t).held.stage.Settling?
  {
    NearTask(s, t);
  }

  lemma SettlingMeans(s: State, t: Tid, op: Op)
    requires Safe(s) && Of(s, t).Holding? && Of(s, t).held.stage == Settling(op)
    ensures var s', w := Next(s, Resume(t)), Drained(s.wire, s.deferred);
            && Of(s', t).Holding? && !Of(s', t).held.stage.Settling? && Of(s', t).held.before == w
            && OpOf(Of(s', t).held.stage) == op
            && s' == s.(tasks := s.tasks[t := Of(s', t)], wire := w, deferred := false, owed := Settled)
  {
    NearTask(s, t);
    FirstStageArrives(Drained(s.wire, s.deferred), op);
  }

  lemma LockingMeans(s: State, t: Tid, op: Op)
    requires Of(s, t) == Waiting(op) && s.mutex.None?
    ensures Next(s, Lock(t)) == if !s.active && s.usable && s.slot
                                then Put(s.(mutex := Some(t)), t, Holding(Held(Settling(op), Unsent, false, s.wire)))
                                else Put(s, t, Idle)
  {
  }

  lemma LockedOperationsEnd(s: State, t: Tid, op: Op)
    requires Safe(s) && Of(s, t) == Waiting(op) && s.mutex.None? && !s.active && s.usable && s.slot
    ensures Leads(Next(s, Lock(t)), t,
                  Done(s.(deferred := false, owed := Settled), t, Outcome(Drained(s.wire, s.deferred), op)))
  {
    LockingMeans(s, t, op);
    NextKeepsSafe(s, Lock(t));
    var locked := Next(s, Lock(t));
    NextKeepsSafe(locked, Resume(t));
    SettlingMeans(locked, t, op);
    var settled := Next(locked, Resume(t));
    HeldOperationsEnd(settled, t);
    var outcome := Outcome(Drained(s.wire, s.deferred), op);
    DoneForgets(s.(deferred := false, owed := Settled), settled, t, outcome);
    Onward(locked, t, Done(settled, t, outcome));
  }

  lemma DoneForgets(s: State, s': State, t: Tid, outcome: (Wire, bool, Option<Stream>))
    requires s' == s.(mutex := s'.mutex, wire := s'.wire, tasks := s'.tasks) && t in s'.tasks
    requires s'.tasks == s.tasks[t := s'.tasks[t]]
    ensures Done(s', t, outcome) == Done(s, t, outcome)
  {
    var task := if outcome.2.None? then Idle else Owning(outcome.2.value);
    assert s'.tasks[t := task] == s.tasks[t := task];
  }

  /**
   * What an operation achieves that nobody disturbs or drops, after any run against any server: on
   * an idle, usable, connected client it drains the deferred reply and ends with the wire, the
   * usability and the stream of its command sequence, the lock free, and the flag up exactly when a
   * stream was handed out. Otherwise it ends at the gate and leaves everything as it was.
   */
  lemma UndisturbedOperationsEnd(steps: seq<Step>, t: Tid, op: Op) returns (n: nat)
    requires Of(RunTasks(START, steps), t).Idle? && RunTasks(START, steps).mutex.None?
    ensures RunTasks(START, steps + ([Start(t, op), Lock(t)] + Resumes(t, n)))
         == Achieved(RunTasks(START, steps), t, op)
  {
    RunsStaySafe(START, steps);
    var s := RunTasks(START, steps);
    StartedOperationsEnd(s, t, op);
    var locked := Next(Next(s, Start(t, op)), Lock(t));
    n :| RunTasks(locked, Resumes(t, n)) == Achieved(s, t, op);
    RunAppend(START, steps, [Start(t, op), Lock(t)] + Resumes(t, n));
    StartAndLock(s, t, op, Resumes(t, n));
  }

  function Achieved(s: State, t: Tid, op: Op): State {
    if !s.active && s.usable && s.slot
    then Done(s.(deferred := false, owed := Settled), t, Outcome(Drained(s.wire, s.deferred), op))
    else Put(s, t, Idle)
  }

  lemma StartedOperationsEnd(s: State, t: Tid, op: Op)
    requires Safe(s) && Of(s, t).Idle? && s.mutex.None?
    ensures Leads(Next(Next(s, Start(t, op)), Lock(t)), t, Achieved(s, t, op))
  {
    var waiting := Next(s, Start(t, op));
    NextKeepsSafe(s, Start(t, op));
    LockingMeans(waiting, t, op);
    if !s.active && s.usable && s.slot {
      LockedOperationsEnd(waiting, t, op);
      DoneForgets(s.(deferred := false, owed := Settled), waiting.(deferred := false, owed := Settled), t,
                  Outcome(Drained(s.wire, s.deferred), op));
    } else {
      assert waiting.tasks[t := Idle] == s.tasks[t := Idle];
      Arrived(Next(waiting, Lock(t)), t);
    }
  }

  lemma StartAndLock(s: State, t: Tid, op: Op, rest: seq<Step>)
    ensures RunTasks(s, [Start(t, op), Lock(t)] + rest) == RunTasks(Next(Next(s, Start(t, op)), Lock(t)), rest)
  {
    var steps := [Start(t, op), Lock(t)] + rest;
    assert steps[1..] == [Lock(t)] + rest && steps[1..][1..] == rest;
  }

  // ---- Streams ----

  lemma UsingMeans(s: State, t: Tid, r: Reader, use: AsyncAccess)
    requires Of(s, t) == Owning(Download(r))
    ensures Next(s, Use(t, use)) == Put(s, t, Owning(Download(
              match use
              case Poll(bufLen, maxUsize, ready) =>
                if bufLen <= maxUsize then PollRead(r, bufLen, maxUsize, ready).0 else r
              case SkipSome(offset, chunks) => SkipPrefix(r, offset, chunks).0)))
  {
  }

  /** The client once task t has left its stream and lowered the flag. */
  function Gone(s: State, t: Tid): State { Put(s.(active := false, busy := None), t, Idle) }

  /**
   * Dropping a stream dismisses its transfer, defers the reply and keeps the client usable exactly
   * for an upload and for a download at its end.
   */
  lemma DroppingMeans(s: State, t: Tid, bye: Farewell)
    requires Of(s, t).Owning?
    ensures var stream := Of(s, t).owned;
            Next(s, Drop(t, bye)) == Gone(s, t).(
              wire := Dismissed(s.wire, stream.Upload? || stream.reader.rest == [], bye), deferred := true,
              usable := s.usable && (stream.Upload? || stream.reader.atEof),
              owed := if stream.Upload? then DroppedUpload
                      else if stream.reader.atEof then DroppedAtEof
                      else DroppedEarly)
  {
    match Of(s, t).owned
    case Upload =>
    case Download(reader) => DroppedDownloads(s, t, reader, bye);
  }

  lemma DroppedDownloads(s: State, t: Tid, reader: Reader, bye: Farewell)
    ensures DropStream(s, t, Download(reader), bye) == Gone(s, t).(
              wire := Dismissed(s.wire, reader.rest == [], bye), deferred := true,
              usable := s.usable && reader.atEof, owed := if reader.atEof then DroppedAtEof else DroppedEarly)
  {
  }

  /** Finishing it keeps the client usable exactly when the finalization worked; dropping that future always. */
  lemma FinishingMeans(s: State, t: Tid, bye: Farewell, closing: Closing)
    requires Of(s, t).Finishing?
    ensures var stream := Of(s, t).owned;
            var (w, ok) := CloseStream(s.wire, stream, closing);
            var dismissed := Dismissed(s.wire, stream.Upload? || stream.reader.rest == [], bye);
            && Next(s, EndFinish(t, closing)) == Gone(s, t).(wire := w, usable := s.usable && ok)
            && Next(s, CancelFinish(t, bye))
               == Gone(s, t).(wire := dismissed, deferred := true, owed := CancelledFinish)
  {
  }

  // ---- connect and disconnect ----

  /**
   * `connect`, when `&mut self` is available: refused exactly when a transfer is active, or the
   * client is usable with its stream in the slot; otherwise the client is usable again, and
   * connected to a fresh wire exactly when the server was reached.
   */
  lemma ConnectingMeans(s: State, ok: bool)
    requires Alone(s)
    ensures var s' := Next(s, Connect(ok));
            if s.active || (s.usable && s.slot) then s' == s
            else s'.slot == ok && s'.connected == ok && s'.usable && s'.wire == FRESH && !s'.deferred
                 && !s'.active && s'.mutex == s.mutex && s'.tasks == s.tasks
  {
  }

  /**
   * `disconnect`: refused exactly while a transfer is active or without a stream; otherwise the
   * stream is given up, and only a usable one is asked to quit, whose answer decides on usability.
   */
  lemma DisconnectingMeans(s: State, quit: PlainAnswer)
    requires Alone(s)
    ensures var s' := Next(s, Disconnect(quit));
            if s.active || !s.slot then s' == s
            else
              && !s'.slot && !s'.connected && s'.tasks == s.tasks && s'.mutex == s.mutex
              && s'.wire == (if s.usable then Send(Drained(s.wire, s.deferred), quit).0 else s.wire)
              && (!s.usable ==> s'.usable)
              && (s.usable && Clean(Drained(s.wire, s.deferred)) ==>
                    (s'.usable <==> quit.Answered? && quit.status != 421))
  {
    if Clean(Drained(s.wire, s.deferred)) { SendOnACleanWire(Drained(s.wire, s.deferred), quit); }
  }
}
