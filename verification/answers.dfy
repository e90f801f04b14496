/**
 * What each command sequence comes to, told from the server's answers alone: when an operation
 * starts or succeeds, with which failure it ends otherwise, and whether the client stays usable.
 *
 * Nothing here speaks of queues or markers. The lemmas connect these forecasts to the command
 * sequences of ControlChannel, for every server, from a clean wire.
 */
module Answers {
  import opened Wrappers
  import opened Errors
  import opened ControlChannel
  import opened RangedRead

  /** A preliminary reply to a data command (RFC 959, section 4.2). */
  predicate Preliminary(a: Answer) { a.Answered? && (a.status == 125 || a.status == 150) }

  /** No reply, a failed stream builder, or 421: everything but an acceptance and a plain refusal. */
  predicate Poisons(a: Answer) { !a.Answered? || a.status == 421 }

  predicate Closes(c: Completion) { c.answer.Answered? && (c.answer.status == 226 || c.answer.status == 250) }

  /** The failure an answer that is not accepted is reported as. */
  function FailureOf(a: Answer): FtpError {
    match a
    case Answered(status, _) => UnexpectedResponse(status)
    case Broken(error, _, _) => error
    case Builder(error) => error
  }

  /** Only a plain refusal leaves the connection usable. */
  lemma OnlyRefusalsAreHarmless(err: FtpError)
    ensures SetupRequiresReconnect(err) <==> !(err.UnexpectedResponse? && err.status != 421)
    ensures RequiresReconnect(FromFtp(err)) <==> SetupRequiresReconnect(err)
  {
  }

  /** An error without any FTP failure behind it is judged by its kind, and never ambiguous. */
  lemma {:induction false} OtherErrorsAreJudgedByTheirKind(err: RemoteError)
    requires forall i | 0 <= i < |err.sources| :: !err.sources[i].Ftp?
    ensures RequiresReconnect(err) <==> err.kind == ConnectionError
    ensures !AmbiguousRefusal(err)
    decreases |err.sources|
  {
    if err.sources != [] { OtherErrorsAreJudgedByTheirKind(err.(sources := err.sources[1..])); }
  }

  // ---- Commands, uploads, listings ----

  lemma CommandsFollowTheirAnswer(w: Wire, usable: bool, a: PlainAnswer)
    requires Clean(w)
    ensures var (_, usable', result) := CommandBody(w, usable, a);
            && (result.Ok? <==> a.Answered? && (a.status == 200 || a.status == 250 || a.status == 257))
            && (result.Err? ==> result.error == FailureOf(a))
            && (usable' <==> usable && !Poisons(a))
  {
    SendOnACleanWire(w, a);
  }

  lemma UploadsFollowTheirAnswer(w: Wire, usable: bool, a: Answer)
    requires Clean(w)
    ensures var o := StoreBody(w, usable, a);
            && o.result == (if Preliminary(a) then Started(false, Some(0)) else Refused(FailureOf(a)))
            && (o.usable <==> usable && !Poisons(a))
  {
    SendOnACleanWire(w, a);
  }

  lemma DataCommandsFollowTheirAnswer(w: Wire, a: Answer)
    requires w.unread == []
    ensures var (w', result, begins) := Transfer(w, a);
            && result == (if Preliminary(a) then Ok else Err(FailureOf(a)))
            && begins == (if Preliminary(a) then Some(w.marker) else None)
            && (!a.Broken? ==> w'.unread == [])
  {
    SendOnACleanWire(w, a);
  }

  lemma FinishFollowsItsAnswer(w: Wire, exhausted: bool, c: Completion)
    requires w.unread == []
    ensures Finish(w, exhausted, c).1 == if Closes(c) then Ok else Err(FailureOf(c.answer))
  {
  }

  /**
   * A LIST succeeds exactly when the server announced it, its rows were read and its completion
   * was a success. Anything but a plain refusal of the LIST itself poisons the client.
   */
  lemma ListsFollowTheirAnswers(w: Wire, usable: bool, env: ListAnswers)
    requires Clean(w)
    ensures var (_, usable', failure) := ListBody(w, usable, env);
            var began, read, closed := Preliminary(env.list), !env.readFails, Closes(env.completion);
            && failure == ReadListBytes(w, env).1
            && (failure.None? <==> began && read && closed)
            && (!began ==> failure == Some(FromFtp(FailureOf(env.list))))
            && (began && !read ==> failure.value.kind == ConnectionError)
            && (began && read && !closed ==> failure == Some(FromFtp(FailureOf(env.completion.answer))))
            && (failure.Some? ==>
                  (AmbiguousRefusal(failure.value) <==>
                     FailureOf(if !began then env.list else env.completion.answer) == UnexpectedResponse(550)))
            && (usable' <==> usable && (failure.None? || (!began && !Poisons(env.list))))
  {
    DataCommandsFollowTheirAnswer(w, env.list);
    if Preliminary(env.list) {
      FinishFollowsItsAnswer(Transfer(w, env.list).0, !env.readFails, env.completion);
      FailedListsAreAmbiguousIff(env.readFails, Finish(Transfer(w, env.list).0, !env.readFails, env.completion).1);
    } else {
      OnlyRefusalsAreHarmless(FailureOf(env.list));
      NoSuchFileIsExactlyTheAmbiguousRefusal(FailureOf(env.list));
    }
  }

  lemma FailedListsAreAmbiguousIff(readFails: bool, finish: FtpResult)
    ensures var (failure, _) := Aggregate(readFails, finish);
            failure.Some? ==>
              (AmbiguousRefusal(failure.value) <==> finish == Err(UnexpectedResponse(550)))
  {
    if finish.Err? {
      ListCleanupIsJudgedByItsCompletion(ConnectionLost, finish.error);
      NoSuchFileIsExactlyTheAmbiguousRefusal(finish.error);
    } else {
      NoSuchFileIsExactlyTheAmbiguousRefusal(ConnectionLost);
    }
  }

  // ---- open ----

  datatype Forecast = Forecast(result: TransferResult, healthy: bool)

  predicate Asks(offset: nat, maxUsize: nat) { 0 < offset <= maxUsize }

  /** A broken `RETR` left replies behind, which the next commands read instead of their own. */
  predicate LeavesStray(env: OpenAnswers) { env.retr.Broken? && env.retr.left != [] }

  /** The status the marker reset reads, and the status the second `RETR` reads, if they read any. */
  function ResetReads(env: OpenAnswers): Option<Status> {
    if !env.reset.Answered? then None
    else if LeavesStray(env) then Some(env.retr.left[0])
    else Some(env.reset.status)
  }

  function AgainReads(env: OpenAnswers): Option<Status> {
    if !env.again.Answered? then None
    else if !LeavesStray(env) || !env.reset.Answered? then Some(env.again.status)
    else if |env.retr.left| > 1 then Some(env.retr.left[1])
    else Some(env.reset.status)
  }

  /** Where the server starts the second transfer. */
  function AgainBegins(env: OpenAnswers): Option<nat> {
    if !Preliminary(env.again) then None
    else if env.retr.Broken? && !(env.reset.Answered? && env.reset.status == 350) then Some(env.retr.marker)
    else Some(0)
  }

  function ForecastOpen(offset: nat, maxUsize: nat, env: OpenAnswers): Forecast {
    if Asks(offset, maxUsize) && Poisons(env.rest) then Forecast(Aborted(FromFtp(FailureOf(env.rest))), false)
    else
      var resumed := Asks(offset, maxUsize) && env.rest.status == 350;
      if Preliminary(env.retr) then Forecast(Started(resumed, Some(if resumed then offset else 0)), true)
      else if !resumed then Forecast(Refused(FailureOf(env.retr)), !Poisons(env.retr))
      else ForecastRetry(env)
  }

  /** A failed `RETR` is forgotten once the reset has succeeded; only a failed stream builder is not. */
  function ForecastRetry(env: OpenAnswers): Forecast {
    match ResetReads(env)
    case None => Forecast(Aborted(FromFtp(FailureOf(env.reset))), false)
    case Some(reset) =>
      if reset != 350 then Forecast(Aborted(FromFtp(UnexpectedResponse(reset))), false)
      else
        match AgainReads(env)
        case None => Forecast(Refused(FailureOf(env.again)), false)
        case Some(again) =>
          if again == 125 || again == 150 then Forecast(Started(false, AgainBegins(env)), !env.retr.Builder?)
          else Forecast(Refused(UnexpectedResponse(again)), again != 421 && !env.retr.Builder?)
  }

  lemma RequestsFollowTheirAnswer(w: Wire, offset: nat, maxUsize: nat, a: PlainAnswer)
    requires Clean(w)
    ensures var (w1, request) := Asked(w, offset, maxUsize, a);
            && request == (if !Asks(offset, maxUsize) then Negotiated(false)
                           else if Poisons(a) then Unreachable(FromFtp(FailureOf(a)))
                           else Negotiated(a.status == 350))
            && (request.Negotiated? ==> w1.unread == [] && w1.marker == if request.accepted then offset else 0)
  {
    SendOnACleanWire(w, a);
  }

  /** The unread replies a `RETR` has left on a wire that was clean. */
  predicate Carries(unread: seq<Reply>, left: seq<Status>) {
    |unread| == |left| && forall i | 0 <= i < |left| :: unread[i].status == left[i]
  }

  predicate AfterTheFirstRetr(w: Wire, env: OpenAnswers) {
    if env.retr.Broken? then Carries(w.unread, env.retr.left) && w.marker == env.retr.marker else w.unread == []
  }

  /** After an answered reset the second `RETR` meets nothing, or a second stray reply, or that of the reset. */
  predicate Meets(w: Wire, env: OpenAnswers)
    requires env.reset.Answered?
  {
    if !LeavesStray(env) then w.unread == []
    else w.unread != [] && w.unread[0].status == if |env.retr.left| > 1 then env.retr.left[1] else env.reset.status
  }

  lemma ResetsFollowTheAnswers(w: Wire, env: OpenAnswers)
    requires AfterTheFirstRetr(w, env)
    ensures var (w', result) := Rest(w, 0, env.reset);
            && result == (match ResetReads(env)
                          case None => Err(FailureOf(env.reset))
                          case Some(status) => if status == 350 then Ok else Err(UnexpectedResponse(status)))
            && (env.reset.Answered? ==>
                  Meets(w', env) && w'.marker == if env.reset.status == 350 then 0 else w.marker)
  {
    if env.reset.Answered? {
      var own := Reply(w.next, env.reset.status);
      var queue := w.unread + [own];
      assert queue[0] == if w.unread == [] then own else w.unread[0];
      assert |w.unread| == 1 ==> queue[1..] == [own];
      assert |w.unread| > 1 ==> queue[1..][0] == w.unread[1];
    }
  }

  lemma SecondRetrsFollowTheAnswers(w: Wire, usable: bool, env: OpenAnswers)
    requires env.reset.Answered?
    requires Meets(w, env)
    ensures var (_, result, begins) := Transfer(w, env.again);
            && result == (match AgainReads(env)
                          case None => Err(FailureOf(env.again))
                          case Some(status) =>
                            if status == 125 || status == 150 then Ok else Err(UnexpectedResponse(status)))
            && begins == if Preliminary(env.again) then Some(w.marker) else None
  {
    if env.again.Answered? {
      assert (w.unread + [Reply(w.next, env.again.status)])[0]
          == if w.unread == [] then Reply(w.next, env.again.status) else w.unread[0];
    }
  }

  lemma {:induction false} RetriesFollowTheAnswers(w: Wire, usable: bool, env: OpenAnswers)
    requires AfterTheFirstRetr(w, env)
    ensures var o, forecast := Retry(w, usable && !env.retr.Builder?, env), ForecastRetry(env);
            o.result == forecast.result && (o.usable <==> usable && forecast.healthy)
  {
    ResetsFollowTheAnswers(w, env);
    var (cleared, reset) := Rest(w, 0, env.reset);
    if reset.Ok? {
      SecondRetrsFollowTheAnswers(cleared, usable, env);
      if AgainReads(env).Some? { OnlyRefusalsAreHarmless(UnexpectedResponse(AgainReads(env).value)); }
    }
  }

  /** `open`, for every server: its result, and whether it leaves the client usable. */
  lemma {:induction false} OpensFollowTheAnswers(
    w: Wire, usable: bool, offset: nat, maxUsize: nat, env: OpenAnswers)
    requires Clean(w)
    ensures var o, forecast := OpenBody(w, usable, offset, maxUsize, env), ForecastOpen(offset, maxUsize, env);
            o.result == forecast.result && (o.usable <==> usable && forecast.healthy)
  {
    RequestsFollowTheirAnswer(w, offset, maxUsize, env.rest);
    var (w1, request) := Asked(w, offset, maxUsize, env.rest);
    match request
    case Unreachable(_) => OnlyRefusalsAreHarmless(FailureOf(env.rest));
    case Negotiated(resumed) =>
      DataCommandsFollowTheirAnswer(w1, env.retr);
      OnlyRefusalsAreHarmless(FailureOf(env.retr));
      if resumed && !Preliminary(env.retr) {
        FirstRetrLeaves(w1, env);
        RetriesFollowTheAnswers(Transfer(w1, env.retr).0, usable, env);
      }
  }

  lemma FirstRetrLeaves(w: Wire, env: OpenAnswers)
    requires w.unread == []
    ensures AfterTheFirstRetr(Transfer(w, env.retr).0, env)
  {
    SendOnACleanWire(w, env.retr);
    if env.retr.Broken? { assert [] + Tagged(w.next, env.retr.left) == Tagged(w.next, env.retr.left); }
  }

  /**
   * When `open` starts. Without a marker, because none was asked for, the offset does not fit, or
   * the server declined it with any code but 421: exactly when `RETR` is answered with a
   * preliminary code, and then from the start, for a local skip. With a marker: exactly when
   * `RETR` is, and then resumed, or when the reset reads 350 and the second `RETR` reads a
   * preliminary code, and then for a local skip.
   */
  lemma {:induction false} OpenStartsIff(w: Wire, usable: bool, offset: nat, maxUsize: nat, env: OpenAnswers)
    requires Clean(w)
    ensures var result := OpenBody(w, usable, offset, maxUsize, env).result;
            if Asks(offset, maxUsize) && Poisons(env.rest) then result == Aborted(FromFtp(FailureOf(env.rest)))
            else if !Asks(offset, maxUsize) || env.rest.status != 350 then
              result == if Preliminary(env.retr) then Started(false, Some(0)) else Refused(FailureOf(env.retr))
            else if Preliminary(env.retr) then result == Started(true, Some(offset))
            else
              && (result.Started? <==> ResetReads(env) == Some(350) && AgainReads(env) in {Some(125), Some(150)})
              && (result.Started? ==> !result.resumed && result.begins == AgainBegins(env))
  {
    OpensFollowTheAnswers(w, usable, offset, maxUsize, env);
  }
}
