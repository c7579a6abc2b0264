/** The SECC's table of communication sessions by peer address, across pause and resume. */
module SessionTable {
  import opened Options

  datatype StopAction = Terminate | Pause

  /** `resets`: building the session on the old context hits a connection reset. */
  datatype Event = Connected(address: string, resets: bool) | Stopped(address: string, action: StopAction)

  /** Contexts are numbered in the order of their creation; `made` of them exist. */
  datatype Table = Table(sessions: map<string, nat>, made: nat, current: Option<string>, discoveryPaused: bool)

  const Empty := Table(map[], 0, None, false)

  /** An address without an entry is ignored: the lookup fails before anything else is changed. */
  function Stop(t: Table, address: string, action: StopAction): Table {
    if address !in t.sessions then t
    else
      t.(sessions := if action.Terminate? then t.sessions - {address} else t.sessions, current := None, discoveryPaused := false)
  }

  function Connect(t: Table, address: string, resets: bool): Table {
    if address in t.sessions && !resets then t.(current := Some(address), discoveryPaused := true)
    else
      var ended := if address in t.sessions then Stop(t.(discoveryPaused := true), address, Terminate) else t.(discoveryPaused := true);
      ended.(sessions := ended.sessions[address := t.made], made := t.made + 1, current := Some(address))
  }

  function Step(t: Table, event: Event): Table {
    match event
    case Connected(address, resets) => Connect(t, address, resets)
    case Stopped(address, action) => Stop(t, address, action)
  }

  function Run(events: seq<Event>): Table {
    if events == [] then Empty else Step(Run(events[..|events| - 1]), events[|events| - 1])
  }

  class CommunicationSessionHandler {
    var sessions: map<string, nat>
    var made: nat
    var currentPeer: Option<string>
    var discoveryPaused: bool

    function Model(): Table
      reads this
    {
      Table(sessions, made, currentPeer, discoveryPaused)
    }

    constructor ()
      ensures Model() == Empty
    {
      sessions, made, currentPeer, discoveryPaused := map[], 0, None, false;
    }

    method EndCurrentSession(address: string, action: StopAction) returns (missing: bool)
      modifies this
      ensures missing <==> address !in old(sessions)
      ensures Model() == Stop(old(Model()), address, action)
    {
      if address !in sessions {
        return true;
      }
      if action.Terminate? {
        sessions := sessions - {address};
      }
      currentPeer := None;
      discoveryPaused := false;
      return false;
    }

    /** A client has connected: resume its context, or start with a fresh one. */
    method OnConnected(address: string, resets: bool) returns (context: nat)
      modifies this
      ensures Model() == Connect(old(Model()), address, resets)
      ensures address in sessions && context == sessions[address]
    {
      discoveryPaused := true;
      if address in sessions && !resets {
        context := sessions[address];
      } else {
        if address in sessions {
          var missing := EndCurrentSession(address, Terminate);
        }
        context := made;
        made := made + 1;
      }
      sessions := sessions[address := context];
      currentPeer := Some(address);
    }
  }

  /** The context that the i-th event, a connection, gets. */
  function Given(events: seq<Event>, i: nat): nat
    requires i < |events| && events[i].Connected?
  {
    var t := Run(events[..i + 1]);
    RunSnoc(events, i);
    t.sessions[events[i].address]
  }

  lemma RunSnoc(events: seq<Event>, i: nat)
    requires i < |events|
    ensures Run(events[..i + 1]) == Step(Run(events[..i]), events[i])
  {
    assert events[..i + 1][..i] == events[..i];
  }

  /** Entries hold existing contexts, and no two addresses share one. */
  predicate Sound(t: Table) {
    && (forall a :: a in t.sessions ==> t.sessions[a] < t.made)
    && (forall a, b :: a in t.sessions && b in t.sessions && a != b ==> t.sessions[a] != t.sessions[b])
  }

  lemma {:induction false} RunIsSound(events: seq<Event>)
    ensures Sound(Run(events))
  {
    if events != [] {
      RunIsSound(events[..|events| - 1]);
    }
  }

  lemma {:induction false} MadeGrows(events: seq<Event>, i: nat, j: nat)
    requires i <= j <= |events|
    ensures Run(events[..i]).made <= Run(events[..j]).made
  {
    if i < j {
      MadeGrows(events, i, j - 1);
      RunSnoc(events, j - 1);
    }
  }

  predicate ConnectsAt(events: seq<Event>, i: nat, address: string) {
    i < |events| && events[i].Connected? && events[i].address == address
  }

  predicate TerminatedBetween(events: seq<Event>, j: nat, i: nat, address: string)
    requires i <= |events|
  {
    exists k :: j < k < i && events[k] == Stopped(address, Terminate)
  }

  /** Only its own connection or a Terminate changes an address's entry. */
  lemma EntryStep(t: Table, event: Event, address: string)
    requires event.Connected? ==> event.address != address
    ensures var t' := Step(t, event);
      if event == Stopped(address, Terminate) then address !in t'.sessions
      else if address in t.sessions then address in t'.sessions && t'.sessions[address] == t.sessions[address]
      else address !in t'.sessions
  {
  }

  lemma TerminatedSnoc(events: seq<Event>, j: nat, i: nat, address: string)
    requires j + 1 < i <= |events|
    ensures TerminatedBetween(events, j, i, address) <==>
      TerminatedBetween(events, j, i - 1, address) || events[i - 1] == Stopped(address, Terminate)
  {
    if TerminatedBetween(events, j, i - 1, address) {
      var k :| j < k < i - 1 && events[k] == Stopped(address, Terminate);
    }
  }

  /** What the table holds for an address between two of its connections. */
  lemma {:induction false} EntryBetween(events: seq<Event>, j: nat, i: nat, address: string)
    requires j < i <= |events| && ConnectsAt(events, j, address)
    requires forall k :: j < k < i ==> !ConnectsAt(events, k, address)
    ensures if TerminatedBetween(events, j, i, address) then address !in Run(events[..i]).sessions
            else address in Run(events[..i]).sessions && Run(events[..i]).sessions[address] == Given(events, j)
  {
    RunSnoc(events, i - 1);
    if j + 1 < i {
      hide Run;
      hide Step;
      hide TerminatedBetween;
      EntryBetween(events, j, i - 1, address);
      assert !ConnectsAt(events, i - 1, address);
      EntryStep(Run(events[..i - 1]), events[i - 1], address);
      TerminatedSnoc(events, j, i, address);
    }
  }

  /**
   Over every sequence of connections and stops: a reconnecting address gets the context of
   its previous connection unless it was stopped with Terminate in between or the resumption
   is reset; then it gets a context that nobody has had before.
   */
  lemma ReconnectKeepsContext(events: seq<Event>, j: nat, i: nat, address: string)
    requires j < i && ConnectsAt(events, j, address) && ConnectsAt(events, i, address)
    requires forall k :: j < k < i ==> !ConnectsAt(events, k, address)
    ensures Given(events, i) == Given(events, j) <==> !events[i].resets && !TerminatedBetween(events, j, i, address)
    ensures Given(events, i) != Given(events, j) ==>
      forall k :: 0 <= k < i && events[k].Connected? ==> Given(events, k) < Given(events, i)
  {
    EntryBetween(events, j, i, address);
    RunSnoc(events, i);
    RunIsSound(events[..i]);
    forall k | 0 <= k < i && events[k].Connected? ensures Given(events, k) < Run(events[..i]).made {
      GivenExists(events, k, i);
    }
  }

  lemma GivenExists(events: seq<Event>, k: nat, i: nat)
    requires k < i <= |events| && events[k].Connected?
    ensures Given(events, k) < Run(events[..i]).made
  {
    RunIsSound(events[..k + 1]);
    RunSnoc(events, k);
    MadeGrows(events, k + 1, i);
  }

  /** An address that connects for the first time gets a context that nobody has had before. */
  lemma FirstConnectIsFresh(events: seq<Event>, i: nat, address: string)
    requires ConnectsAt(events, i, address)
    requires forall k :: 0 <= k < i ==> !ConnectsAt(events, k, address)
    ensures forall k :: 0 <= k < i && events[k].Connected? ==> Given(events, k) < Given(events, i)
  {
    NeverConnected(events, i, address);
    RunSnoc(events, i);
    forall k | 0 <= k < i && events[k].Connected? ensures Given(events, k) < Run(events[..i]).made {
      GivenExists(events, k, i);
    }
  }

  lemma {:induction false} NeverConnected(events: seq<Event>, i: nat, address: string)
    requires i <= |events| && forall k :: 0 <= k < i ==> !ConnectsAt(events, k, address)
    ensures address !in Run(events[..i]).sessions
  {
    if i > 0 {
      NeverConnected(events, i - 1, address);
      assert !ConnectsAt(events, i - 1, address);
      RunSnoc(events, i - 1);
    }
  }

  /** An event of one address leaves the entries of all others alone. */
  lemma OthersUntouched(t: Table, event: Event, other: string)
    requires other != event.address
    ensures other in Step(t, event).sessions <==> other in t.sessions
    ensures other in t.sessions ==> Step(t, event).sessions[other] == t.sessions[other]
  {
  }

  /** Without reset resumptions, discovery is paused exactly while some peer is the current one. */
  lemma {:induction false} PausedWhileConnected(events: seq<Event>)
    requires forall i :: 0 <= i < |events| && events[i].Connected? ==> !events[i].resets
    ensures Run(events).discoveryPaused <==> Run(events).current.Some?
  {
    if events != [] {
      PausedWhileConnected(events[..|events| - 1]);
    }
  }

  /** A reset resumption ends the old session after discovery was paused, and so resumes it. */
  lemma ResetResumesDiscovery(events: seq<Event>, address: string)
    requires address in Run(events).sessions
    ensures var t := Run(events + [Connected(address, true)]); t.current == Some(address) && !t.discoveryPaused
  {
    assert (events + [Connected(address, true)])[..|events|] == events;
  }
}
