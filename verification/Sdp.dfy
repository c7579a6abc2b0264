/**
 The EVCC's SECC discovery: one request and one notification at a time, retry cycles of up to
 fifty requests, and the handler that reacts to replies, timeouts and ended sessions.
 */
module Sdp {
  import opened Options

  const MaxRequests: nat := 50

  /** What a datagram turns out to be: a discovery response, one for the wireless case, or something else. */
  datatype Packet = NotV2gtp | SdpResponse(tls: bool) | MalformedResponse | WirelessResponse | OtherPayload

  datatype Notification = UdpPacket(packet: Packet) | ReceiveTimeout | SessionStopped(successful: bool)

  /** What reaches the client's own queue within the request's timeout, if anything does. */
  datatype Reply = Answered(packet: Packet) | Silence

  /** Waiting for notifications, waiting for the reply to a request, done after a successful session, or dead after an exception. */
  datatype Mode = Listening | Awaiting | Finished | Crashed

  datatype Event =
    /** the handler takes its next notification; `connects` answers an attempt to open a session */
    | Handle(connects: bool)
    /** the client has waited for a reply to the request it sent */
    | Receive(reply: Reply)
    /** the receive loop of the live session ends and leaves its stop notification */
    | SessionEnds(successful: bool)

  /** `live` is the security of the live session, if there is one. */
  datatype Handler = Handler(
    cycles: nat, retries: nat, queue: seq<Notification>, live: Option<bool>, mode: Mode, requests: nat, notified: nat)

  datatype Config = Config(useTls: bool, enforceTls: bool)

  function NotificationFor(reply: Reply): Notification {
    match reply
    case Answered(packet) => UdpPacket(packet)
    case Silence => ReceiveTimeout
  }

  /** `restart_sdp` up to the request: spends a cycle and sends, or fails. */
  function Restart(h: Handler, newCycle: bool): Handler {
    if newCycle && h.cycles == 0 then h
    else
      var h1 := if newCycle then h.(cycles := h.cycles - 1, retries := MaxRequests) else h;
      if h1.retries > 0 then h1.(mode := Awaiting, requests := h1.requests + 1) else h1.(retries := MaxRequests)
  }

  /** The client's wait is over: the handler is notified, and the request is taken off the cycle's budget. */
  function Notified(h: Handler, reply: Reply): Handler {
    if h.mode.Awaiting? then
      h.(mode := Listening, retries := if h.retries > 0 then h.retries - 1 else 0,
         queue := h.queue + [NotificationFor(reply)], notified := h.notified + 1)
    else h
  }

  predicate SecurityFits(config: Config, tls: bool) {
    (tls || !config.enforceTls) && (!tls || config.useTls)
  }

  function OnPacket(config: Config, h: Handler, packet: Packet, connects: bool): Handler {
    match packet
    case NotV2gtp => h
    case SdpResponse(tls) => if SecurityFits(config, tls) && connects then h.(live := Some(tls)) else h
    case MalformedResponse => Restart(h, true)
    case WirelessResponse => h.(mode := Crashed)
    case OtherPayload => Restart(h, true)
  }

  function Step(config: Config, h: Handler, event: Event): Handler {
    match event
    case Handle(connects) =>
      if !h.mode.Listening? || h.queue == [] then h
      else
        var rest := h.(queue := h.queue[1..]);
        (match h.queue[0]
         case UdpPacket(packet) => OnPacket(config, rest, packet, connects)
         case ReceiveTimeout => Restart(rest, false)
         case SessionStopped(successful) => if successful then rest.(mode := Finished) else Restart(rest, true))
    case Receive(reply) => Notified(h, reply)
    case SessionEnds(successful) =>
      if h.live.Some? then h.(live := None, queue := h.queue + [SessionStopped(successful)]) else h
  }

  /** The handler once `start_session_handler` has begun its first cycle. */
  function Started(cycles: nat): Handler {
    Restart(Handler(cycles, MaxRequests, [], None, Listening, 0, 0), true)
  }

  function Run(config: Config, cycles: nat, events: seq<Event>): Handler {
    if events == [] then Started(cycles)
    else Step(config, Run(config, cycles, events[..|events| - 1]), events[|events| - 1])
  }

  class CommunicationSessionHandler {
    const config: Config
    var sdpRetryCycles: nat
    var sdpRetries: nat
    var rcvQueue: seq<Notification>
    var session: Option<bool>
    var mode: Mode
    ghost var requests: nat
    ghost var notified: nat
    ghost var awaiting: bool

    ghost function Model(): Handler
      reads this
    {
      Handler(sdpRetryCycles, sdpRetries, rcvQueue, session, if awaiting then Awaiting else mode, requests, notified)
    }

    constructor (config: Config, cycles: nat)
      ensures this.config == config
      ensures Model() == Handler(cycles, MaxRequests, [], None, Listening, 0, 0)
    {
      this.config, sdpRetryCycles, sdpRetries := config, cycles, MaxRequests;
      rcvQueue, session, mode, requests, notified, awaiting := [], None, Listening, 0, 0, false;
    }

    /** `send` of the UDP client. */
    method Send()
      requires !awaiting
      modifies this`requests, this`awaiting
      ensures Model() == old(Model()).(mode := Awaiting, requests := old(requests) + 1)
      ensures awaiting
    {
      requests, awaiting := requests + 1, true;
    }

    /** `receive` of the UDP client: a packet or the timeout, one notification either way. */
    method Receive(reply: Reply)
      requires awaiting
      modifies this`rcvQueue, this`notified, this`awaiting
      ensures Model() == old(Model()).(mode := mode, queue := old(rcvQueue) + [NotificationFor(reply)], notified := old(notified) + 1)
      ensures !awaiting
    {
      match reply {
        case Answered(packet) => rcvQueue := rcvQueue + [UdpPacket(packet)];
        case Silence => rcvQueue := rcvQueue + [ReceiveTimeout];
      }
      notified, awaiting := notified + 1, false;
    }

    /** A restart sends and waits; the event of the reply follows the event that caused the request. */
    method RestartSdp(newCycle: bool, reply: Reply) returns (failed: bool)
      requires mode == Listening && !awaiting
      modifies this`sdpRetryCycles, this`sdpRetries, this`rcvQueue, this`requests, this`notified, this`awaiting
      ensures !awaiting && Model() == Notified(Restart(old(Model()), newCycle), reply)
      ensures failed <==> if newCycle then old(sdpRetryCycles) == 0 else old(sdpRetries) == 0
    {
      if newCycle {
        if sdpRetryCycles == 0 {
          return true;
        }
        sdpRetryCycles := sdpRetryCycles - 1;
        sdpRetries := MaxRequests;
      }
      if sdpRetries > 0 {
        Send();
        Receive(reply);
        sdpRetries := sdpRetries - 1;
        return false;
      } else {
        sdpRetries := MaxRequests;
        return true;
      }
    }

    method ProcessIncomingUdpPacket(packet: Packet, reply: Reply, connects: bool)
      requires mode == Listening && !awaiting
      modifies this
      ensures !awaiting && Model() == Notified(OnPacket(config, old(Model()), packet, connects), reply)
    {
      if packet.NotV2gtp? {
        return;
      }
      if packet.MalformedResponse? {
        var failed := RestartSdp(true, reply);
        return;
      }
      if packet.SdpResponse? {
        if (!packet.tls && config.enforceTls) || (packet.tls && !config.useTls) {
          return;
        }
      } else if packet.WirelessResponse? {
        mode := Crashed;
        return;
      } else {
        var failed := RestartSdp(true, reply);
        return;
      }
      if connects {
        session := Some(packet.tls);
      }
    }

    /** One turn of `get_from_rcv_queue`, with the reply to the request it may send. */
    method HandleNext(reply: Reply, connects: bool)
      requires mode == Listening && !awaiting && rcvQueue != []
      modifies this
      ensures !awaiting && Model() == Step(config, Step(config, old(Model()), Handle(connects)), Event.Receive(reply))
    {
      var notification := rcvQueue[0];
      rcvQueue := rcvQueue[1..];
      match notification {
        case UdpPacket(packet) => ProcessIncomingUdpPacket(packet, reply, connects);
        case ReceiveTimeout =>
          var failed := RestartSdp(false, reply);
        case SessionStopped(successful) =>
          if successful {
            mode := Finished;
          } else {
            var failed := RestartSdp(true, reply);
          }
      }
    }
  }

  function Outstanding(h: Handler): nat {
    |h.queue| + (if h.live.Some? then 1 else 0) + if h.mode.Awaiting? then 1 else 0
  }

  /** The requests of the present cycle that may still follow. */
  function Budget(h: Handler): nat {
    if h.mode.Awaiting? then if h.retries > 0 then h.retries - 1 else 0
    else if h.queue != [] && h.queue[0].ReceiveTimeout? then h.retries else 0
  }

  predicate Invariant(h: Handler, budget: nat) {
    && Outstanding(h) <= 1
    && h.retries <= MaxRequests
    && h.requests == h.notified + (if h.mode.Awaiting? then 1 else 0)
    && h.requests + MaxRequests * h.cycles + Budget(h) <= MaxRequests * budget
  }

  lemma StepKeepsInvariant(config: Config, h: Handler, event: Event, budget: nat)
    requires Invariant(h, budget)
    ensures Invariant(Step(config, h, event), budget)
  {
  }

  /**
   Over every sequence of replies, timeouts, malformed replies and failed sessions, at most
   one request, notification or live session is outstanding, every request but the one being
   waited for has had exactly one notification, and the requests never exceed fifty per
   configured cycle - also although the counter is set back to fifty when a cycle is exhausted.
   */
  lemma {:induction false} DiscoveryIsBounded(config: Config, cycles: nat, events: seq<Event>)
    ensures var h := Run(config, cycles, events);
      && Outstanding(h) <= 1
      && h.requests == h.notified + (if h.mode.Awaiting? then 1 else 0)
      && h.requests <= 50 * cycles
  {
    RunKeepsInvariant(config, cycles, events);
  }

  lemma {:induction false} RunKeepsInvariant(config: Config, cycles: nat, events: seq<Event>)
    ensures Invariant(Run(config, cycles, events), cycles)
  {
    if events != [] {
      RunKeepsInvariant(config, cycles, events[..|events| - 1]);
      StepKeepsInvariant(config, Run(config, cycles, events[..|events| - 1]), events[|events| - 1], cycles);
    }
  }

  /** The session may be opened: secured if the car enforces it, and only if the car can. */
  predicate Permitted(config: Config, tls: bool) { (config.enforceTls ==> tls) && (tls ==> config.useTls) }

  /** Whatever happens, a live session has a security that the configuration permits: with TLS enforced none is unsecured. */
  lemma {:induction false} SessionsArePermitted(config: Config, cycles: nat, events: seq<Event>)
    ensures var live := Run(config, cycles, events).live; live.Some? ==> Permitted(config, live.value)
  {
    if events != [] {
      SessionsArePermitted(config, cycles, events[..|events| - 1]);
    }
  }

  predicate Takes(h: Handler, notification: Notification) {
    h.mode.Listening? && h.queue != [] && h.queue[0] == notification
  }

  /** A notification that makes the handler begin a new cycle of requests. */
  predicate StartsOver(notification: Notification) {
    match notification
    case UdpPacket(packet) => packet.MalformedResponse? || packet.OtherPayload?
    case ReceiveTimeout => false
    case SessionStopped(successful) => !successful
  }

  /**
   What the handler makes of its next notification, whatever has happened before. A session
   opens exactly for a response with a permitted security when the connection succeeds. A
   request is sent exactly after a timeout with requests left in the cycle, or when a cycle is
   left to start over with. A successful session ends the handler, a wireless response makes
   it raise. Whatever else was taken leaves nothing outstanding.
   */
  lemma HandlingIsDecided(config: Config, cycles: nat, events: seq<Event>, notification: Notification, connects: bool)
    ensures var h, h' := Run(config, cycles, events), Run(config, cycles, events + [Handle(connects)]);
      Takes(h, notification) ==>
        && h.live.None? && h'.queue == []
        && (forall tls :: h'.live == Some(tls) <==> notification == UdpPacket(SdpResponse(tls)) && Permitted(config, tls) && connects)
        && (h'.mode.Awaiting? <==>
             (notification.ReceiveTimeout? && h.retries > 0) || (StartsOver(notification) && h.cycles > 0))
        && h'.requests == h.requests + (if h'.mode.Awaiting? then 1 else 0)
        && h'.cycles == h.cycles - (if StartsOver(notification) && h.cycles > 0 then 1 else 0)
        && (h'.mode.Finished? <==> notification == SessionStopped(true))
        && (h'.mode.Crashed? <==> notification == UdpPacket(WirelessResponse))
        && (h'.live.None? && !h'.mode.Awaiting? ==> Outstanding(h') == 0)
  {
    assert (events + [Handle(connects)])[..|events|] == events;
    RunKeepsInvariant(config, cycles, events);
  }

  /** With nothing outstanding nothing happens any more: no later event sends a request or opens a session. */
  lemma {:induction false} NothingOutstandingStalls(config: Config, cycles: nat, events: seq<Event>, more: seq<Event>)
    requires Outstanding(Run(config, cycles, events)) == 0
    ensures Run(config, cycles, events + more) == Run(config, cycles, events)
  {
    if more == [] {
      assert events + more == events;
    } else {
      var last := |more| - 1;
      NothingOutstandingStalls(config, cycles, events, more[..last]);
      assert (events + more)[..|events| + last] == events + more[..last];
    }
  }

  /** A refused security, a failed connection or an invalid datagram is the end of the discovery. */
  lemma MismatchEndsDiscovery(config: Config, cycles: nat, events: seq<Event>, packet: Packet, connects: bool, more: seq<Event>)
    requires packet.NotV2gtp? || (packet.SdpResponse? && !(Permitted(config, packet.tls) && connects))
    requires Takes(Run(config, cycles, events), UdpPacket(packet))
    ensures var h, h' := Run(config, cycles, events), Run(config, cycles, events + [Handle(connects)] + more);
      h'.requests == h.requests && h'.live.None?
  {
    HandlingIsDecided(config, cycles, events, UdpPacket(packet), connects);
    NothingOutstandingStalls(config, cycles, events + [Handle(connects)], more);
  }

  /** Each request gets the same reply and the handler reacts. */
  predicate OnlyReply(events: seq<Event>, reply: Reply) {
    forall i :: 0 <= i < |events| ==> events[i] == if i % 2 == 0 then Event.Receive(reply) else Handle(false)
  }

  function Onwards(config: Config, h: Handler, events: seq<Event>): Handler {
    if events == [] then h else Step(config, Onwards(config, h, events[..|events| - 1]), events[|events| - 1])
  }

  /** A handler that has just begun a cycle and waits for the reply to its first request. */
  predicate CycleBegun(h: Handler) { h.mode.Awaiting? && h.queue == [] && h.live.None? && h.retries == 50 }

  /** Silence from the beginning of any cycle on uses exactly its fifty requests and then stops, whatever cycles are left. */
  lemma {:induction false} SilenceEndsAfterOneCycle(config: Config, h: Handler, events: seq<Event>)
    requires CycleBegun(h) && OnlyReply(events, Silence)
    ensures var h', n := Onwards(config, h, events), |events|;
      && h'.requests == h.requests + (if n < 99 then n / 2 else 49)
      && h'.cycles == h.cycles && h'.live.None?
      && (if n >= 100 then h'.mode.Listening? && h'.queue == [] && h'.retries == 50
          else if n % 2 == 0 then h'.mode.Awaiting? && h'.queue == [] && h'.retries == 50 - n / 2
          else h'.mode.Listening? && h'.queue == [ReceiveTimeout] && h'.retries == 49 - n / 2)
  {
    if events != [] {
      SilenceEndsAfterOneCycle(config, h, events[..|events| - 1]);
    }
  }

  /** Malformed or foreign replies alone use one request of every cycle, and then the discovery stops. */
  lemma {:induction false} MalformedRepliesUseEveryCycle(config: Config, h: Handler, packet: Packet, events: seq<Event>)
    requires CycleBegun(h) && OnlyReply(events, Answered(packet)) && (packet.MalformedResponse? || packet.OtherPayload?)
    ensures var h', n := Onwards(config, h, events), |events|;
      var used := if n / 2 <= h.cycles then n / 2 else h.cycles;
      && h'.requests == h.requests + used && h'.cycles == h.cycles - used && h'.live.None?
      && (if n >= 2 * h.cycles + 2 then h'.mode.Listening? && h'.queue == []
          else if n % 2 == 0 then CycleBegun(h')
          else h'.mode.Listening? && h'.queue == [UdpPacket(packet)])
  {
    if events != [] {
      MalformedRepliesUseEveryCycle(config, h, packet, events[..|events| - 1]);
    }
  }

  /** Discovery begins with the first request of a cycle, if there is one. */
  lemma DiscoveryBegins(cycles: nat)
    ensures var h := Started(cycles);
      if cycles > 0 then CycleBegun(h) && h.cycles == cycles - 1 && h.requests == 1 else Outstanding(h) == 0 && h.requests == 0
  {
  }
}
