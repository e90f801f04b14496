/**
 * What threads of the blocking client achieve when nobody disturbs them: the counterpart to the
 * safety of SyncRuns. Operations, closings, `connect` and `disconnect` are followed access by
 * access from any state that a run reaches.
 */
module SyncProgress {
  import opened Wrappers
  import opened Errors
  import opened ControlChannel
  import opened RangedRead
  import opened Operations
  import opened SyncRuns

  lemma {:induction false} RunAppend(s: State, a: seq<Step>, b: seq<Step>)
    ensures Run(s, a + b) == Run(Run(s, a), b)
    decreases |a|
  {
    if a == [] {
      assert a + b == b;
    } else {
      assert (a + b)[0] == a[0] && (a + b)[1..] == a[1..] + b;
      RunAppend(Apply(s, a[0]), a[1..], b);
    }
  }

  /** Thread t makes n accesses and nobody else moves. */
  function AdvanceAlone(s: State, t: Tid, n: nat): State
    decreases n
  {
    if n == 0 then s else AdvanceAlone(AdvanceThread(s, t), t, n - 1)
  }

  function Advances(t: Tid, n: nat): seq<Step> { if n == 0 then [] else [Advance(t)] + Advances(t, n - 1) }

  lemma {:induction false} AdvancingAloneIsARun(s: State, t: Tid, n: nat)
    ensures Run(s, Advances(t, n)) == AdvanceAlone(s, t, n)
    decreases n
  {
    if n > 0 {
      assert Advances(t, n)[1..] == Advances(t, n - 1);
      AdvancingAloneIsARun(AdvanceThread(s, t), t, n - 1);
    }
  }

  /** Thread t gets from s to e alone. */
  ghost predicate Leads(s: State, t: Tid, e: State) { exists n: nat :: AdvanceAlone(s, t, n) == e }

  lemma Arrived(s: State, t: Tid)
    ensures Leads(s, t, s)
  {
    assert AdvanceAlone(s, t, 0) == s;
  }

  /** One access from place a of thread t to place b, on the rest of the state. */
  lemma Onward(s: State, t: Tid, a: Pc, s': State, b: Pc, e: State)
    requires At(AdvanceThread(Go(s, t, a), t), t) == b
    requires AdvanceThread(Go(s, t, a), t) == s'.(pcs := Go(s, t, a).pcs[t := b]) && s'.pcs == s.pcs
    requires Leads(Go(s', t, b), t, e)
    ensures Leads(Go(s, t, a), t, e)
  {
    assert s.pcs[t := a][t := b] == s.pcs[t := b];
    var n: nat :| AdvanceAlone(Go(s', t, b), t, n) == e;
    OneMore(Go(s, t, a), t, n);
  }

  lemma OneMore(s: State, t: Tid, n: nat)
    ensures AdvanceAlone(s, t, n + 1) == AdvanceAlone(AdvanceThread(s, t), t, n)
  {
  }

  /** The state after an operation of thread t: its wire and usability, and the stream it handed out. */
  function Done(s: State, t: Tid, outcome: (Wire, bool, Option<Stream>)): State {
    var (w, usable, stream) := outcome;
    match stream
    case None => Go(s.(wire := w, usable := usable), t, Idle)
    case Some(owned) => Go(s.(wire := w, usable := usable, active := true, busy := Some(t)), t, Owning(owned))
  }

  /** Connected, usable, and nobody at work. */
  predicate Idling(s: State) { s.mutex.None? && !s.active && s.busy.None? && s.usable && s.slot }

  lemma TheGateLetsIn(s: State, t: Tid, op: Op, e: State)
    requires Idling(s) && Leads(Go(s.(mutex := Some(t)), t, SawUsable(op)), t, e)
    ensures Leads(Go(s, t, Waiting(op)), t, e)
  {
    var l := s.(mutex := Some(t));
    Onward(l, t, SawIdle(op), l, SawUsable(op), e);
    Onward(l, t, Locked(op), l, SawIdle(op), e);
    Onward(s, t, Waiting(op), l, Locked(op), e);
  }

  /** Busy, unusable or unconnected: the operation ends at the gate and leaves everything as it was. */
  lemma TheGateKeepsOut(s: State, t: Tid, op: Op)
    requires s.mutex.None? && (s.active || !s.usable || !s.slot)
    ensures Leads(Go(s, t, Waiting(op)), t, Go(s, t, Idle))
  {
    var l, e := s.(mutex := Some(t)), Go(s, t, Idle);
    assert Unlock(l) == s;
    Arrived(e, t);
    if s.active {
      Onward(l, t, Locked(op), s, Idle, e);
    } else {
      if !s.usable {
        Onward(l, t, SawIdle(op), s, Idle, e);
      } else {
        Onward(l, t, SawUsable(op), s, Idle, e);
        Onward(l, t, SawIdle(op), l, SawUsable(op), e);
      }
      Onward(l, t, Locked(op), l, SawIdle(op), e);
    }
    Onward(s, t, Waiting(op), l, Locked(op), e);
  }

  lemma CommandsRun(s: State, t: Tid, op: Op)
    requires Idling(s) && !op.List?
    ensures var (w, usable, stream) := Outcome(s.wire, op);
            Enter(Go(s.(mutex := Some(t)), t, SawUsable(op)), t, op)
            == Go(Go(s.(mutex := Some(t), wire := w), t, SawUsable(op)), t, Ran(!usable, stream))
  {
  }

  /** Recording, raising the flag for a stream, releasing the lock. */
  lemma RecordingEnds(s: State, t: Tid, w: Wire, usable: bool, stream: Option<Stream>)
    requires Idling(s)
    ensures Leads(Go(s.(mutex := Some(t), wire := w), t, Ran(!usable, stream)), t, Done(s, t, (w, usable, stream)))
  {
    var l, e := s.(mutex := Some(t), wire := w), Done(s, t, (w, usable, stream));
    var r := l.(usable := usable);
    Arrived(e, t);
    match stream {
      case None => Onward(r, t, Recorded(None), r.(mutex := None), Idle, e);
      case Some(owned) =>
        var raised := r.(active := true, busy := Some(t));
        Onward(raised, t, Raised(owned), raised.(mutex := None), Owning(owned), e);
        Onward(r, t, Recorded(stream), raised, Raised(owned), e);
    }
    Onward(l, t, Ran(!usable, stream), r, Recorded(stream), e);
  }

  /** The client while thread t has its stream for a LIST. */
  function Alone(s: State, t: Tid): State { s.(slot := false, active := true, busy := Some(t)) }

  lemma ListingUnlocks(s: State, t: Tid, env: ListAnswers, e: State)
    requires Leads(Go(s.(mutex := None), t, Exclusive(env)), t, e)
    ensures Leads(Go(s, t, RaisedList(env)), t, e)
  {
    Onward(s, t, RaisedList(env), s.(mutex := None), Exclusive(env), e);
  }

  lemma ListingRaisesTheFlag(s: State, t: Tid, env: ListAnswers, e: State)
    requires Leads(Go(s.(active := true, busy := Some(t)), t, RaisedList(env)), t, e)
    ensures Leads(Go(s, t, Taken(env)), t, e)
  {
    Onward(s, t, Taken(env), s.(active := true, busy := Some(t)), RaisedList(env), e);
  }

  lemma ListingTakesTheStream(s: State, t: Tid, env: ListAnswers, e: State)
    requires s.slot && Leads(Go(s.(slot := false), t, Taken(env)), t, e)
    ensures Leads(Go(s, t, SawUsable(List(env))), t, e)
  {
    Onward(s, t, SawUsable(List(env)), s.(slot := false), Taken(env), e);
  }

  lemma ListingReleases(s: State, t: Tid)
    requires s.mutex == Some(t)
    ensures Leads(Go(s, t, PutBack), t, Go(s.(mutex := None, active := false, busy := None), t, Idle))
  {
    var free := s.(mutex := None);
    var e := Go(free.(active := false, busy := None), t, Idle);
    Arrived(e, t);
    Onward(free, t, Releasing, free.(active := false, busy := None), Idle, e);
    Onward(s, t, PutBack, free, Releasing, e);
  }

  lemma ListingPutsBack(s: State, t: Tid)
    requires s.mutex.None?
    ensures Leads(Go(s, t, Returning), t, Go(s.(slot := true, active := false, busy := None), t, Idle))
  {
    var back := s.(mutex := Some(t), slot := true);
    ListingReleases(back, t);
    assert back.(mutex := None, active := false, busy := None) == s.(slot := true, active := false, busy := None);
    Onward(s, t, Returning, back, PutBack, Go(s.(slot := true, active := false, busy := None), t, Idle));
  }

  lemma ListingReturnsTheStream(s: State, t: Tid, w: Wire, usable: bool)
    requires Idling(s)
    ensures Leads(Go(Alone(s, t).(wire := w), t, Listed(!usable)), t, Go(s.(wire := w, usable := usable), t, Idle))
  {
    var listed, e := Alone(s, t).(wire := w), Go(s.(wire := w, usable := usable), t, Idle);
    var recorded := listed.(usable := usable);
    ListingPutsBack(recorded, t);
    assert recorded.(slot := true, active := false, busy := None) == s.(wire := w, usable := usable);
    Onward(listed, t, Listed(!usable), recorded, Returning, e);
  }

  lemma ListingRuns(s: State, t: Tid, env: ListAnswers)
    requires Idling(s)
    ensures var (w, usable, _) := ListBody(s.wire, true, env);
            AdvanceThread(Go(Alone(s, t), t, Exclusive(env)), t)
            == Go(Go(Alone(s, t).(wire := w), t, Exclusive(env)), t, Listed(!usable))
  {
  }

  lemma EnteredOperationsEnd(s: State, t: Tid, op: Op)
    requires Idling(s)
    ensures Leads(Go(s.(mutex := Some(t)), t, SawUsable(op)), t, Done(s, t, Outcome(s.wire, op)))
  {
    var (w, usable, stream) := Outcome(s.wire, op);
    var e := Done(s, t, (w, usable, stream));
    if op.List? {
      ListingReturnsTheStream(s, t, w, usable);
      ListingRuns(s, t, op.list);
      Onward(Alone(s, t), t, Exclusive(op.list), Alone(s, t).(wire := w), Listed(!usable), e);
      var l := s.(mutex := Some(t));
      assert Alone(l, t).(mutex := None) == Alone(s, t);
      ListingUnlocks(Alone(l, t), t, op.list, e);
      ListingRaisesTheFlag(l.(slot := false), t, op.list, e);
      ListingTakesTheStream(l, t, op.list, e);
    } else {
      RecordingEnds(s, t, w, usable, stream);
      CommandsRun(s, t, op);
      Onward(s.(mutex := Some(t)), t, SawUsable(op), s.(mutex := Some(t), wire := w), Ran(!usable, stream), e);
    }
  }

  /**
   * What an operation achieves that nobody disturbs, after any run against any server: on an idle,
   * usable, connected client it ends with the wire, the usability and the stream of its command
   * sequence, the lock free, and the flag up exactly when a stream was handed out. Otherwise it
   * ends at the gate and leaves everything as it was.
   */
  lemma UndisturbedOperationsEnd(steps: seq<Step>, t: Tid, op: Op) returns (n: nat)
    requires At(Run(INIT, steps), t).Idle? && Run(INIT, steps).mutex.None?
    ensures var s := Run(INIT, steps);
            Run(INIT, steps + ([Begin(t, op)] + Advances(t, n)))
            == if !s.active && s.usable && s.slot then Done(s, t, Outcome(s.wire, op)) else Go(s, t, Idle)
  {
    RunsStaySafe(INIT, steps);
    var s := Run(INIT, steps);
    var e := if !s.active && s.usable && s.slot then Done(s, t, Outcome(s.wire, op)) else Go(s, t, Idle);
    if !s.active && s.usable && s.slot {
      EnteredOperationsEnd(s, t, op);
      TheGateLetsIn(s, t, op, e);
    } else {
      TheGateKeepsOut(s, t, op);
    }
    n := LeadsByARun(steps, Begin(t, op), t, e);
  }

  lemma LeadsByARun(steps: seq<Step>, step: Step, t: Tid, e: State) returns (n: nat)
    requires Leads(Apply(Run(INIT, steps), step), t, e)
    ensures Run(INIT, steps + ([step] + Advances(t, n))) == e
  {
    n :| AdvanceAlone(Apply(Run(INIT, steps), step), t, n) == e;
    RunAppend(INIT, steps, [step] + Advances(t, n));
    assert ([step] + Advances(t, n))[1..] == Advances(t, n);
    AdvancingAloneIsARun(Apply(Run(INIT, steps), step), t, n);
  }

  lemma ClosingEnds(s: State, t: Tid, w: Wire, ok: bool)
    ensures Leads(Go(s.(wire := w), t, Closed(!ok)), t,
                  Go(s.(wire := w, usable := s.usable && ok, active := false, busy := None), t, Idle))
  {
    var recorded := s.(wire := w, usable := s.usable && ok);
    var e := Go(recorded.(active := false, busy := None), t, Idle);
    Arrived(e, t);
    Onward(recorded, t, Releasing, recorded.(active := false, busy := None), Idle, e);
    Onward(s.(wire := w), t, Closed(!ok), recorded, Releasing, e);
  }

  /** What closing a stream achieves: its finalization, then the failure recorded, then the flag down. */
  lemma UndisturbedClosingsEnd(steps: seq<Step>, t: Tid, closing: Closing) returns (n: nat)
    requires At(Run(INIT, steps), t).Owning?
    ensures var s := Run(INIT, steps);
            var (w, ok) := CloseStream(s.wire, At(s, t).owned, closing);
            Run(INIT, steps + ([Close(t, closing)] + Advances(t, n)))
            == Go(s.(wire := w, usable := s.usable && ok, active := false, busy := None), t, Idle)
  {
    var s := Run(INIT, steps);
    var (w, ok) := CloseStream(s.wire, At(s, t).owned, closing);
    ClosingEnds(s, t, w, ok);
    n := LeadsByARun(steps, Close(t, closing), t,
                     Go(s.(wire := w, usable := s.usable && ok, active := false, busy := None), t, Idle));
  }

  /** What using an owned download achieves: the read or the skip of its reader, and nothing else. */
  lemma UsingReadsTheStream(s: State, t: Tid, r: Reader, bufLen: nat, maxUsize: nat, c: Chunk)
    requires At(s, t) == Owning(Download(r)) && bufLen <= maxUsize
    ensures Apply(s, Use(t, Read(bufLen, maxUsize, c)))
         == Go(s, t, Owning(Download(SyncRead(r, bufLen, maxUsize, c).0)))
  {
  }

  lemma UsingSkipsThePrefix(s: State, t: Tid, r: Reader, offset: nat, chunks: nat -> Chunk)
    requires At(s, t) == Owning(Download(r))
    ensures Apply(s, Use(t, Skip(offset, chunks))) == Go(s, t, Owning(Download(SkipPrefix(r, offset, chunks).0)))
  {
  }

  /**
   * `connect`, after any run, when `&mut self` is available: it is refused exactly when a transfer
   * is active, or the client is usable with its stream in the slot; otherwise the client is usable
   * again, and connected to a fresh wire exactly when the server was reached.
   */
  lemma ConnectingMeans(steps: seq<Step>, ok: bool)
    requires Exclusively(Run(INIT, steps))
    ensures var s, s' := Run(INIT, steps), Run(INIT, steps + [Connect(ok)]);
            if s.active || (s.usable && s.slot) then s' == s
            else s'.slot == ok && s'.connected == ok && s'.usable && s'.wire == FRESH
                 && !s'.active && s'.mutex.None? && s'.pcs == s.pcs
  {
    RunAppend(INIT, steps, [Connect(ok)]);
    RunsStaySafe(INIT, steps);
    var s := Run(INIT, steps);
    if s.mutex.Some? { Around(s, s.mutex.value); }
    assert Run(s, [Connect(ok)]) == Apply(s, Connect(ok));
  }

  /**
   * `disconnect`: refused exactly while a transfer is active or without a stream; otherwise the
   * stream is given up, and only a usable one is asked to quit, whose answer decides on usability.
   */
  lemma DisconnectingMeans(steps: seq<Step>, quit: PlainAnswer)
    requires Exclusively(Run(INIT, steps))
    ensures var s, s' := Run(INIT, steps), Run(INIT, steps + [Disconnect(quit)]);
            if s.active || !s.slot then s' == s
            else
              && !s'.slot && !s'.connected && s'.pcs == s.pcs
              && s'.wire == (if s.usable then Send(s.wire, quit).0 else s.wire)
              && (!s.usable ==> s'.usable)
              && (s.usable && Clean(s.wire) ==> (s'.usable <==> quit.Answered? && quit.status != 421))
  {
    RunAppend(INIT, steps, [Disconnect(quit)]);
    var s := Run(INIT, steps);
    if Clean(s.wire) { SendOnACleanWire(s.wire, quit); }
    assert Run(s, [Disconnect(quit)]) == Apply(s, Disconnect(quit));
  }

  /** A new client connects, sends a command, uploads a file, and is idle again: two commands, one transfer. */
  lemma AClientWorks() returns (steps: seq<Step>)
    ensures var s := Run(INIT, steps);
            && s.slot && s.usable && !s.active && s.mutex.None? && Clean(s.wire)
            && s.wire.pairs == [(0, 0), (1, 1), (1, 1)] && s.wire.begun == s.wire.finished == 1
  {
    var wire1 := Wire(1, [], 0, [(0, 0)], 0, 0);
    var wire2 := Wire(2, [], 0, [(0, 0), (1, 1)], 1, 0);
    var connected := INIT.(slot := true, connected := true);
    steps := [Connect(true)];
    assert Exclusively(INIT);
    assert Run(INIT, steps) == Run(Apply(INIT, Connect(true)), []) == connected;
    var n := UndisturbedOperationsEnd(steps, 0, Command(Answered(COMMAND_OK, false)));
    steps := steps + ([Begin(0, Command(Answered(COMMAND_OK, false)))] + Advances(0, n));
    ACommandIsAnswered();
    assert Run(INIT, steps) == Go(connected.(wire := wire1), 0, Idle);
    n := UndisturbedOperationsEnd(steps, 0, Store(Answered(ABOUT_TO_SEND, false)));
    steps := steps + ([Begin(0, Store(Answered(ABOUT_TO_SEND, false)))] + Advances(0, n));
    AnUploadIsBegun();
    var s := Run(INIT, steps);
    assert At(s, 0) == Owning(Upload) && s.active && s.usable && s.slot && s.mutex.None? && s.wire == wire2;
    var closing := Closing.Closing(i => Got(1), true, Completion.Completion(Answered(CLOSING_DATA, false), None));
    n := UndisturbedClosingsEnd(steps, 0, closing);
    steps := steps + ([Close(0, closing)] + Advances(0, n));
    AnUploadIsClosed(closing);
  }

  lemma ACommandIsAnswered()
    ensures Outcome(FRESH, Command(Answered(COMMAND_OK, false))) == (Wire(1, [], 0, [(0, 0)], 0, 0), true, None)
  {
    var sent := Submit(FRESH, Answered(COMMAND_OK, false));
    assert sent == Wire(1, [Reply(0, COMMAND_OK)], 0, [], 0, 0);
    assert sent.unread[1..] == [] && sent.pairs + [(0, 0)] == [(0, 0)];
  }

  lemma AnUploadIsBegun()
    ensures Outcome(Wire(1, [], 0, [(0, 0)], 0, 0), Store(Answered(ABOUT_TO_SEND, false)))
         == (Wire(2, [], 0, [(0, 0), (1, 1)], 1, 0), true, Some(Upload))
  {
    var sent := SubmitTransfer(Wire(1, [], 0, [(0, 0)], 0, 0), Answered(ABOUT_TO_SEND, false));
    assert sent == Wire(2, [Reply(1, ABOUT_TO_SEND)], 0, [(0, 0)], 0, 0);
    assert sent.unread[1..] == [] && sent.pairs + [(1, 1)] == [(0, 0), (1, 1)];
  }

  lemma AnUploadIsClosed(closing: Closing)
    requires closing.flushed && closing.completion == Completion.Completion(Answered(CLOSING_DATA, false), None)
    ensures CloseStream(Wire(2, [], 0, [(0, 0), (1, 1)], 1, 0), Upload, closing)
         == (Wire(2, [], 0, [(0, 0), (1, 1), (1, 1)], 1, 1), true)
  {
    var sent := SubmitFinish(Wire(2, [], 0, [(0, 0), (1, 1)], 1, 0), true, closing.completion);
    assert sent.unread == [Reply(1, CLOSING_DATA)];
    assert sent.unread[1..] == [] && sent.pairs + [(1, 1)] == [(0, 0), (1, 1), (1, 1)];
  }
}
