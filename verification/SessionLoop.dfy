/**
 The receive loop of a communication session, driven by a script of what the socket and the
 state machine do, and the notification it leaves in the handler's queue when it ends.
 */
module SessionLoop {
  import opened Options

  datatype NextState = Stay | Other | Terminate | Pause

  /** What a state leaves behind: whether it has a message to send, and its next state. */
  datatype Processed = Processed(hasMessage: bool, next: NextState)

  /** One round: nothing but the end of the stream, no data in time, a reset, an exception before or after sending, or a processed message. */
  datatype Round = EndOfStream | TimedOut | Reset | Failure(afterSend: bool) | Message(processed: Processed)

  /** `byState`: the notification is the one a state prepared, not one the loop made up for a failure. */
  datatype Effect = Received | Sent | Stopped(byState: bool)

  /** A missing message is only allowed when the next state is Terminate; otherwise processing raises. */
  predicate Faulty(p: Processed) { !p.hasMessage && !p.next.Terminate? }

  predicate Last(round: Round) {
    !round.Message? || Faulty(round.processed) || round.processed.next.Terminate? || round.processed.next.Pause?
  }

  function Effects(round: Round): seq<Effect> {
    match round
    case Message(p) =>
      if Faulty(p) then [Received, Stopped(false)]
      else
        [Received] + (if p.hasMessage then [Sent] else [])
        + if p.next.Terminate? || p.next.Pause? then [Stopped(true)] else []
    case Failure(afterSend) => [Received] + (if afterSend then [Sent] else []) + [Stopped(false)]
    case _ => [Stopped(false)]
  }

  /** All effects of a script up to its first last round. */
  function Trace(rounds: seq<Round>): seq<Effect> {
    if rounds == [] then []
    else if Last(rounds[0]) then Effects(rounds[0])
    else Effects(rounds[0]) + Trace(rounds[1..])
  }

  lemma TraceEnd()
    ensures Trace([]) == []
  {
  }

  lemma TraceHead(rounds: seq<Round>)
    requires rounds != []
    ensures Trace(rounds) == Effects(rounds[0]) + if Last(rounds[0]) then [] else Trace(rounds[1..])
  {
  }

  class CommunicationSession {
    var log: seq<Effect>
    var handlerQueue: nat

    constructor ()
      ensures log == [] && handlerQueue == 0
    {
      log, handlerQueue := [], 0;
    }

    method PutStop(byState: bool)
      modifies this
      ensures handlerQueue == old(handlerQueue) + 1 && log == old(log) + [Stopped(byState)]
    {
      log := log + [Stopped(byState)];
      handlerQueue := handlerQueue + 1;
    }

    /** A received message whose processing raised nothing by itself. */
    method Process(p: Processed) returns (stop: bool)
      modifies this
      ensures stop <==> Last(Message(p))
      ensures log == old(log) + Effects(Message(p))
      ensures handlerQueue == old(handlerQueue) + if stop then 1 else 0
    {
      log := log + [Received];
      if !p.hasMessage && !p.next.Terminate? {
        PutStop(false);
        return true;
      }
      if p.hasMessage {
        log := log + [Sent];
      }
      if p.next.Terminate? || p.next.Pause? {
        PutStop(true);
        return true;
      }
      return false;
    }

    /** `rcv_loop`; `ended` is false when the script runs out before the loop does. */
    method RcvLoop(rounds: seq<Round>) returns (ended: bool)
      modifies this
      ensures log == old(log) + Trace(rounds)
      ensures ended <==> exists i :: 0 <= i < |rounds| && Last(rounds[i])
      ensures handlerQueue == old(handlerQueue) + if ended then 1 else 0
    {
      hide Trace;
      TraceEnd();
      var i := 0;
      while i < |rounds|
        invariant 0 <= i <= |rounds| && handlerQueue == old(handlerQueue)
        invariant log + Trace(rounds[i..]) == old(log) + Trace(rounds)
        invariant forall k :: 0 <= k < i ==> !Last(rounds[k])
      {
        var round := rounds[i];
        TraceHead(rounds[i..]);
        assert rounds[i..][0] == round && rounds[i..][1..] == rounds[i + 1..];
        match round {
          case EndOfStream => PutStop(false);
            return true;
          case TimedOut => PutStop(false);
            return true;
          case Reset => PutStop(false);
            return true;
          case Failure(afterSend) =>
            log := log + [Received];
            if afterSend {
              log := log + [Sent];
            }
            PutStop(false);
            return true;
          case Message(p) =>
            var stop := Process(p);
            if stop {
              return true;
            }
        }
        i := i + 1;
      }
      return false;
    }
  }

  /** Strict alternation, starting with a received message: every message but the last is answered before the next is read. */
  predicate Alternates(trace: seq<Effect>) {
    forall i :: 0 <= i < |trace| && !trace[i].Stopped? ==> (if i % 2 == 0 then trace[i].Received? else trace[i].Sent?)
  }

  predicate OneStopAtTheEnd(trace: seq<Effect>) {
    trace != [] && trace[|trace| - 1].Stopped? && forall i :: 0 <= i < |trace| - 1 ==> !trace[i].Stopped?
  }

  lemma TraceStep(rounds: seq<Round>)
    requires rounds != [] && !Last(rounds[0])
    ensures Trace(rounds) == [Received, Sent] + Trace(rounds[1..])
  {
  }

  lemma LastRound(round: Round)
    requires Last(round)
    ensures OneStopAtTheEnd(Effects(round)) && Alternates(Effects(round))
  {
  }

  lemma ExchangeFirst(rest: seq<Effect>)
    requires OneStopAtTheEnd(rest) && Alternates(rest)
    ensures OneStopAtTheEnd([Received, Sent] + rest) && Alternates([Received, Sent] + rest)
  {
    var trace := [Received, Sent] + rest;
    forall i | 0 <= i < |trace| && !trace[i].Stopped?
      ensures if i % 2 == 0 then trace[i].Received? else trace[i].Sent?
    {
      if i >= 2 {
        assert trace[i] == rest[i - 2];
      }
    }
  }

  /**
   Every run of the loop that ends leaves exactly one stop notification, whatever ends it,
   and nothing after it; until then received and sent messages alternate strictly.
   */
  lemma {:induction false} EndedRun(rounds: seq<Round>)
    requires exists i :: 0 <= i < |rounds| && Last(rounds[i])
    ensures OneStopAtTheEnd(Trace(rounds)) && Alternates(Trace(rounds))
  {
    if Last(rounds[0]) {
      LastRound(rounds[0]);
    } else {
      TraceStep(rounds);
      var i :| 0 <= i < |rounds| && Last(rounds[i]);
      assert Last(rounds[1..][i - 1]);
      EndedRun(rounds[1..]);
      ExchangeFirst(Trace(rounds[1..]));
    }
  }

  /**
   How an ended run ends: it received what the exception or the processed message had
   received, sent what was sent before, and the notification carries a state's own reason
   exactly when a message was processed without one missing.
   */
  lemma {:induction false} EndOfRun(rounds: seq<Round>, k: nat)
    requires k < |rounds| && Last(rounds[k]) && forall i :: 0 <= i < k ==> !Last(rounds[i])
    ensures |Trace(rounds)| == 2 * k + 1 + (if Read(rounds[k]) then 1 else 0) + (if Answered(rounds[k]) then 1 else 0)
    ensures Trace(rounds)[|Trace(rounds)| - 1] ==
      Stopped(rounds[k].Message? && (rounds[k].processed.hasMessage || rounds[k].processed.next.Terminate?))
  {
    if k == 0 {
      EffectsOfLast(rounds[0]);
    } else {
      TraceStep(rounds);
      hide Trace;
      hide Last;
      EndOfRun(rounds[1..], k - 1);
    }
  }

  /** Whether a last round had received its message, and sent one. */
  predicate Read(round: Round) { round.Failure? || round.Message? }

  predicate Answered(round: Round) { (round.Failure? && round.afterSend) || (round.Message? && round.processed.hasMessage) }

  lemma EffectsOfLast(round: Round)
    requires Last(round)
    ensures |Effects(round)| == 1 + (if Read(round) then 1 else 0) + (if Answered(round) then 1 else 0)
    ensures Effects(round)[|Effects(round)| - 1] ==
      Stopped(round.Message? && (round.processed.hasMessage || round.processed.next.Terminate?))
  {
  }

  /** A run that has not ended has stopped nothing and has answered every message it received. */
  lemma {:induction false} OpenRun(rounds: seq<Round>)
    requires forall i :: 0 <= i < |rounds| ==> !Last(rounds[i])
    ensures |Trace(rounds)| == 2 * |rounds|
    ensures forall k :: 0 <= k < |rounds| ==> Trace(rounds)[2 * k] == Received && Trace(rounds)[2 * k + 1] == Sent
  {
    if rounds != [] {
      TraceStep(rounds);
      OpenRun(rounds[1..]);
      forall k | 0 <= k < |rounds| ensures Trace(rounds)[2 * k] == Received && Trace(rounds)[2 * k + 1] == Sent {
        if k > 0 {
          assert Trace(rounds[1..])[2 * (k - 1)] == Received && Trace(rounds[1..])[2 * (k - 1) + 1] == Sent;
        }
      }
    }
  }

  /** A state that pauses the session is only reported as such when it also has a message to send. */
  lemma PauseNeedsMessage(hasMessage: bool)
    ensures Stopped(true) in Effects(Message(Processed(hasMessage, Pause))) <==> hasMessage
  {
  }
}
