/**
 What every ISO 15118-20 run of the EVCC keeps, whatever the SECC answers.

 `Log` is kept by an observer of the wire and of the charge controller's answers, who
 never sees the session's own fields.
 */
module EvccSafety {
  import opened Options
  import opened Messages
  import opened EvccProtocol

  datatype Input = Input(res: Response, env: Env)

  /**
   `found` and `published` come from the service responses; `stop` is what the loop response
   said to which the car answered with a stop; `loopStart` is the time of the
   first response that made the car repeat its last request of a timed kind. `clocked` says
   that all clock readings were positive, as seconds since the epoch are.
   */
  datatype Log = Log(
    lastSent: Request,
    now: real,
    clocked: bool,
    found: seq<Service>,
    requested: seq<Service>,
    published: map<Service, seq<ParameterSet>>,
    cableChecked: bool,
    precharged: bool,
    stop: Option<Option<EvseNotification>>,
    loopStart: Option<real>)

  const EmptyLog := Log(SessionSetupReq, 0.0, true, [], [], map[], false, false, None, None)

  predicate Timed(kind: Kind) { kind.KAuthorization? || kind.KCableCheck? || kind.KWelding? }

  predicate IsLoop(kind: Kind) { kind.KAcLoop? || kind.KDcLoop? }

  /** The notification that a loop response carries, if any. */
  function StatusOf(body: ResponseBody): Option<EvseNotification> {
    match body
    case AcLoopRes(status) => status
    case DcLoopRes(status) => status
    case _ => None
  }

  /** What one exchange shows from outside; a session that ends shows nothing more. */
  function Observe(log: Log, input: Input, out: Outcome): Log {
    if !out.Sent? then log
    else
      var body, good, sent := input.res.body, !input.res.failed, KindOf(log.lastSent);
      Log(
        out.req,
        input.env.now,
        log.clocked && input.env.now > 0.0,
        if body.ServiceDiscoveryRes? && sent.KServiceDiscovery? then Matching(body.energy, input.env.supported) else log.found,
        if out.req.ServiceDetailReq? then log.requested + [out.req.service] else log.requested,
        if body.ServiceDetailRes? && sent.KServiceDetail? then log.published[body.service := body.sets] else log.published,
        log.cableChecked || (good && sent.KCableCheck? && body == CableCheckRes(Finished)),
        log.precharged || (good && log.cableChecked && sent.KPreCharge? && body.PreChargeRes? && input.env.precharged),
        if IsLoop(sent) && out.req.PowerDeliveryReq? && out.req.progress.Stop? then Some(StatusOf(body)) else log.stop,
        if !Timed(KindOf(out.req)) || sent != KindOf(out.req) then None
        else if log.loopStart.Some? then log.loopStart
        else Some(input.env.now))
  }

  datatype Trace = Trace(session: Session, log: Log, out: Outcome)

  function Next(trace: Trace, input: Input): Trace {
    var (session, out) := Step(trace.session, input.res, input.env);
    Trace(session, Observe(trace.log, input, out), out)
  }

  /** The session, the observer and the last outcome after a list of responses, oldest first. */
  function Run(inputs: seq<Input>): Trace {
    if inputs == [] then Trace(Initial, EmptyLog, Sent(SessionSetupReq))
    else Next(Run(inputs[..|inputs| - 1]), inputs[|inputs| - 1])
  }

  /** The outcomes of a run, one per input. */
  function Outcomes(inputs: seq<Input>): (outs: seq<Outcome>)
    ensures |outs| == |inputs|
  {
    if inputs == [] then []
    else
      var last := |inputs| - 1;
      Outcomes(inputs[..last]) + [Step(Run(inputs[..last]).session, inputs[last].res, inputs[last].env).1]
  }

  /** What an observer makes of the messages alone. */
  function Observed(inputs: seq<Input>, outs: seq<Outcome>): Log
    requires |inputs| == |outs|
  {
    if inputs == [] then EmptyLog
    else
      var last := |inputs| - 1;
      Observe(Observed(inputs[..last], outs[..last]), inputs[last], outs[last])
  }

  lemma {:induction false} LogIsObserved(inputs: seq<Input>)
    ensures Run(inputs).log == Observed(inputs, Outcomes(inputs))
  {
    hide Step;
    if inputs != [] {
      var last := |inputs| - 1;
      LogIsObserved(inputs[..last]);
      assert Outcomes(inputs)[..last] == Outcomes(inputs[..last]);
    }
  }

  function Reverse<T>(s: seq<T>): (r: seq<T>)
    ensures |r| == |s|
    ensures forall i :: 0 <= i < |s| ==> r[i] == s[|s| - 1 - i]
  {
    if s == [] then [] else [s[|s| - 1]] + Reverse(s[..|s| - 1])
  }

  predicate SentMatchesState(trace: Trace) {
    Agrees((trace.session, trace.out)) && (trace.out.Sent? ==> trace.log.lastSent == trace.out.req)
  }

  /** The list of matched services starts with the energy services, each with its last published sets. */
  predicate Published(matched: seq<MatchedService>, found: seq<Service>, published: map<Service, seq<ParameterSet>>) {
    && |found| <= |matched|
    && (forall i :: 0 <= i < |found| ==> matched[i].service == found[i])
    && (forall i :: 0 <= i < |matched| ==>
         matched[i].sets == if matched[i].service in published then published[matched[i].service] else [])
  }

  predicate SelectionFits(log: Log, energy: Pick) {
    && log.found != []
    && log.requested == Reverse(log.found)
    && log.found[0] in log.published && log.published[log.found[0]] != []
    && energy == Pick(log.found[0], log.published[log.found[0]][0].id)
  }

  predicate DetailInvariant(trace: Trace) {
    var s, log := trace.session, trace.log;
    && (Early(s.state) ==>
         s.matched == [] && s.toRequest == [] && log.found == [] && log.requested == [] && log.published == map[])
    && (s.state.ServiceDetail? ==>
         && log.found != [] && log.requested + Reverse(s.toRequest) == Reverse(log.found)
         && Published(s.matched, log.found, log.published))
    && (trace.out.Sent? && trace.out.req.ServiceSelectionReq? ==> SelectionFits(log, trace.out.req.energy))
  }

  predicate ServiceKept(state: State) {
    state.AcParameters? || state.DcParameters? || state.ScheduleExchange? || state.CableCheck? || state.PreCharge?
    || state.PowerDelivery? || state.AcLoop? || state.DcLoop?
  }

  predicate ServiceFits(s: Session) {
    s.selected.Some? && if s.isAc then IsAc(s.selected.value.service) else IsDc(s.selected.value.service)
  }

  predicate Prepared(s: Session, log: Log) {
    && (ServiceKept(s.state) ==> ServiceFits(s))
    && (s.state.AcLoop? ==> s.isAc)
    && (s.state.PreCharge? ==> log.cableChecked)
    && (s.state.DcLoop? || (s.state.PowerDelivery? && !s.isAc) ==> log.cableChecked && log.precharged)
    && (s.state.AcLoop? || s.state.DcLoop? ==> !s.evProcessing.Ongoing? && log.stop.None?)
    && (log.stop.Some? ==>
         || s.state.Welding? || s.state.SessionStop? || s.state.Terminated?
         || (s.state.PowerDelivery? && !s.evProcessing.Ongoing? && s.stop.Some? && !s.stop.value.Pause?))
  }

  function Limit(kind: Kind): real
    requires Timed(kind)
  {
    match kind
    case KAuthorization => 60.0
    case KCableCheck => 42.0
    case KWelding => 62.0
  }

  predicate TimerInvariant(s: Session, log: Log) {
    if s.state.Terminated? || s.state.SessionStop? then true
    else if Timed(Awaited(s.state)) then
      && s.timer == (if log.loopStart.Some? then log.loopStart.value else -1.0)
      && (log.loopStart.Some? ==> s.timer > 0.0 && log.now + s.wait <= s.timer + Limit(Awaited(s.state)))
    else s.timer == -1.0
  }

  lemma ReverseDrop<T>(s: seq<T>)
    requires s != []
    ensures Reverse(s) == [s[|s| - 1]] + Reverse(s[..|s| - 1])
  {
  }

  /** The details still to request after the first one of a fresh list. */
  lemma FirstDetail(found: seq<Service>, vas: seq<Service>)
    requires found != []
    ensures [] + [found[|found| - 1]] + Reverse(found[..|found| - 1]) == Reverse(found)
    ensures Published(Entries(found, true) + Entries(vas, false), found, map[])
  {
    ReverseDrop(found);
  }

  lemma DiscoveryShape(trace: Trace, input: Input)
    requires SentMatchesState(trace)
    requires trace.session.state.ServiceDiscovery? && Passes(trace.session, input.res)
    ensures var log, body, next := trace.log, input.res.body, Next(trace, input);
      && (next.session, next.out) == OnServiceDiscovery(trace.session, body.renegotiation, body.energy, body.vas, input.env)
      && (next.out.Sent? ==>
           && next.log.found == Matching(body.energy, input.env.supported) && next.log.published == log.published
           && next.log.requested == if next.out.req.ServiceDetailReq? then log.requested + [next.out.req.service] else log.requested)
  {
    hide Step;
    hide OnServiceDiscovery;
    ServiceDiscoveryStep(trace.session, input.res, input.env);
  }

  /** The first detail of what a discovery found has been requested. */
  lemma FirstDetailInvariant(found: seq<Service>, vas: seq<Service>, next: Trace)
    requires found != [] && next.session.state.ServiceDetail? && next.out == Sent(ServiceDetailReq(found[|found| - 1]))
    requires next.session.matched == Entries(found, true) + Entries(vas, false) && next.session.toRequest == found[..|found| - 1]
    requires next.log.found == found && next.log.published == map[] && next.log.requested == [] + [found[|found| - 1]]
    ensures DetailInvariant(next)
  {
    FirstDetail(found, vas);
  }

  lemma DiscoveryKeepsDetails(trace: Trace, input: Input)
    requires SentMatchesState(trace) && DetailInvariant(trace)
    requires trace.session.state.ServiceDiscovery? && Passes(trace.session, input.res)
    ensures DetailInvariant(Next(trace, input))
  {
    hide Next;
    hide OnServiceDiscovery;
    hide Published;
    hide Reverse;
    hide Matching;
    hide Entries;
    hide AmongServices;
    hide Agrees;
    var body := input.res.body;
    var found := Matching(body.energy, input.env.supported);
    DiscoveryShape(trace, input);
    DiscoveryEffect(trace.session, body.renegotiation, body.energy, body.vas, input.env);
    if found != [] {
      FirstDetailInvariant(found, body.vas, Next(trace, input));
    }
  }

  lemma DetailShape(trace: Trace, input: Input)
    requires SentMatchesState(trace)
    requires trace.session.state.ServiceDetail? && Passes(trace.session, input.res)
    ensures var log, body, next := trace.log, input.res.body, Next(trace, input);
      && (next.session, next.out) == AfterDetail(trace.session.(matched := StoreAll(trace.session.matched, body.service, body.sets)), input.env)
      && (next.out.Sent? ==>
           && next.log.found == log.found && next.log.published == log.published[body.service := body.sets]
           && next.log.requested == if next.out.req.ServiceDetailReq? then log.requested + [next.out.req.service] else log.requested)
  {
  }

  /** What the observer adds when a detail has been stored. */
  predicate LogGoesOn(log: Log, next: Trace) {
    next.out.Sent? ==>
      && next.log.found == log.found && next.log.published == log.published
      && next.log.requested == if next.out.req.ServiceDetailReq? then log.requested + [next.out.req.service] else log.requested
  }

  lemma NextDetailAdvances(s: Session, log: Log, env: Env, next: Trace)
    requires s.toRequest != [] && log.found != [] && log.requested + Reverse(s.toRequest) == Reverse(log.found)
    requires Published(s.matched, log.found, log.published)
    requires (next.session, next.out) == AfterDetail(s, env) && LogGoesOn(log, next)
    ensures DetailInvariant(next)
  {
    hide AfterDetail;
    hide Published;
    hide Reverse;
    NextDetailEffect(s, env);
    ReverseDrop(s.toRequest);
    var last := |s.toRequest| - 1;
    assert log.requested + [s.toRequest[last]] + Reverse(s.toRequest[..last]) == log.requested + Reverse(s.toRequest);
  }

  lemma LastDetailAdvances(s: Session, log: Log, env: Env, next: Trace)
    requires s.toRequest == [] && log.found != [] && log.requested == Reverse(log.found)
    requires Published(s.matched, log.found, log.published)
    requires (next.session, next.out) == AfterDetail(s, env) && LogGoesOn(log, next)
    ensures DetailInvariant(next)
  {
    hide AfterDetail;
    hide Reverse;
    LastDetailEffect(s, env);
  }

  /** One detail stored, and the next requested or the service selected: the invariant holds again. */
  lemma DetailAdvances(s: Session, log: Log, env: Env, next: Trace)
    requires log.found != [] && log.requested + Reverse(s.toRequest) == Reverse(log.found)
    requires Published(s.matched, log.found, log.published)
    requires (next.session, next.out) == AfterDetail(s, env) && LogGoesOn(log, next)
    ensures DetailInvariant(next)
  {
    hide AfterDetail;
    hide Published;
    hide DetailInvariant;
    hide LogGoesOn;
    if s.toRequest != [] {
      NextDetailAdvances(s, log, env, next);
    } else {
      assert log.requested + [] == log.requested;
      LastDetailAdvances(s, log, env, next);
    }
  }

  lemma DetailKeepsDetails(trace: Trace, input: Input)
    requires SentMatchesState(trace) && DetailInvariant(trace)
    requires trace.session.state.ServiceDetail? && Passes(trace.session, input.res)
    ensures DetailInvariant(Next(trace, input))
  {
    var s, log, body := trace.session, trace.log, input.res.body;
    DetailShape(trace, input);
    DetailAdvances(s.(matched := StoreAll(s.matched, body.service, body.sets)),
                   log.(published := log.published[body.service := body.sets]), input.env, Next(trace, input));
  }

  lemma OtherStepKeepsDetails(trace: Trace, input: Input)
    requires SentMatchesState(trace) && DetailInvariant(trace)
    requires trace.session.state.ServiceDiscovery? || trace.session.state.ServiceDetail? ==> !Passes(trace.session, input.res)
    ensures DetailInvariant(Next(trace, input))
  {
    var log, log' := trace.log, Next(trace, input).log;
    assert log'.found == log.found && log'.published == log.published && log'.requested == log.requested;
  }

  lemma {:induction false} RunKeepsDetails(inputs: seq<Input>)
    ensures SentMatchesState(Run(inputs)) && DetailInvariant(Run(inputs))
  {
    if inputs != [] {
      var before, input := Run(inputs[..|inputs| - 1]), inputs[|inputs| - 1];
      RunKeepsDetails(inputs[..|inputs| - 1]);
      if before.session.state.ServiceDetail? && Passes(before.session, input.res) {
        DetailKeepsDetails(before, input);
      } else if before.session.state.ServiceDiscovery? && Passes(before.session, input.res) {
        DiscoveryKeepsDetails(before, input);
      } else {
        OtherStepKeepsDetails(before, input);
      }
    }
  }

  predicate Invariant(trace: Trace) {
    && SentMatchesState(trace)
    && Prepared(trace.session, trace.log)
    && (trace.log.clocked ==> TimerInvariant(trace.session, trace.log))
  }

  lemma SetupKeepsInvariant(trace: Trace, input: Input)
    requires Invariant(trace)
    requires trace.session.state.SessionSetup?
    ensures Invariant(Next(trace, input))
  {
    hide Step;
    hide LeavesServices;
    SessionSetupStep(trace.session, input.res, input.env);
  }

  lemma AuthorizationSetupKeepsInvariant(trace: Trace, input: Input)
    requires Invariant(trace)
    requires trace.session.state.AuthorizationSetup?
    ensures Invariant(Next(trace, input))
  {
    hide Step;
    hide LeavesServices;
    AuthorizationSetupStep(trace.session, input.res, input.env);
  }

  lemma AuthorizationKeepsInvariant(trace: Trace, input: Input)
    requires Invariant(trace)
    requires trace.session.state.Authorization?
    ensures Invariant(Next(trace, input))
  {
    hide Step;
    hide LeavesServices;
    AuthorizationStep(trace.session, input.res, input.env);
  }

  lemma DiscoveryKeepsInvariant(trace: Trace, input: Input)
    requires Invariant(trace)
    requires trace.session.state.ServiceDiscovery?
    ensures Invariant(Next(trace, input))
  {
    hide Matching;
    hide Step;
    hide LeavesServices;
    ServiceDiscoveryStep(trace.session, input.res, input.env);
    hide OnServiceDiscovery;
  }

  lemma DetailKeepsInvariant(trace: Trace, input: Input)
    requires Invariant(trace)
    requires trace.session.state.ServiceDetail?
    ensures Invariant(Next(trace, input))
  {
    hide Step;
    hide LeavesServices;
    ServiceDetailStep(trace.session, input.res, input.env);
    hide OnServiceDetail;
  }

  lemma SelectionKeepsInvariant(trace: Trace, input: Input)
    requires Invariant(trace)
    requires trace.session.state.ServiceSelection?
    ensures Invariant(Next(trace, input))
  {
    hide Step;
    hide LeavesServices;
    ServiceSelectionStep(trace.session, input.res, input.env);
  }

  lemma ParametersKeepInvariant(trace: Trace, input: Input)
    requires Invariant(trace)
    requires trace.session.state.AcParameters? || trace.session.state.DcParameters?
    ensures Invariant(Next(trace, input))
  {
    hide Step;
    hide LeavesServices;
    ChargeParametersStep(trace.session, input.res, input.env);
  }

  lemma ScheduleKeepsInvariant(trace: Trace, input: Input)
    requires Invariant(trace)
    requires trace.session.state.ScheduleExchange?
    ensures Invariant(Next(trace, input))
  {
    hide Step;
    hide LeavesServices;
    ScheduleExchangeStep(trace.session, input.res, input.env);
  }

  lemma CableCheckKeepsInvariant(trace: Trace, input: Input)
    requires Invariant(trace)
    requires trace.session.state.CableCheck?
    ensures Invariant(Next(trace, input))
  {
    hide Step;
    hide LeavesServices;
    CableCheckStep(trace.session, input.res, input.env);
  }

  lemma PreChargeKeepsInvariant(trace: Trace, input: Input)
    requires Invariant(trace)
    requires trace.session.state.PreCharge?
    ensures Invariant(Next(trace, input))
  {
    hide Step;
    hide LeavesServices;
    PreChargeStep(trace.session, input.res, input.env);
  }

  lemma DeliveryKeepsInvariant(trace: Trace, input: Input)
    requires Invariant(trace)
    requires trace.session.state.PowerDelivery?
    ensures Invariant(Next(trace, input))
  {
    hide Step;
    hide LeavesServices;
    hide OnPowerDelivery;
    PowerDeliveryStep(trace.session, input.res, input.env);
    DeliveryOutcome(trace.session, input.env);
  }

  lemma LoopKeepsInvariant(trace: Trace, input: Input)
    requires Invariant(trace)
    requires trace.session.state.AcLoop? || trace.session.state.DcLoop?
    ensures Invariant(Next(trace, input))
  {
    hide Step;
    hide LeavesServices;
    hide OnLoop;
    LoopStep(trace.session, input.res, input.env);
    if Passes(trace.session, input.res) {
      LoopOutcome(trace.session, input.res.body.status, input.env);
    }
  }

  lemma SessionStopKeepsInvariant(trace: Trace, input: Input)
    requires Invariant(trace)
    requires trace.session.state.SessionStop?
    ensures Invariant(Next(trace, input))
  {
    hide Step;
    hide LeavesServices;
    SessionStopStep(trace.session, input.res, input.env);
  }

  lemma WeldingKeepsInvariant(trace: Trace, input: Input)
    requires Invariant(trace)
    requires trace.session.state.Welding?
    ensures Invariant(Next(trace, input))
  {
    hide Step;
    hide LeavesServices;
    UncheckedStep(trace.session, input.res, input.env);
  }

  lemma EndKeepsInvariant(trace: Trace, input: Input)
    requires Invariant(trace)
    requires trace.session.state.CertificateInstallation? || trace.session.state.Terminated?
    ensures Invariant(Next(trace, input))
  {
    hide Step;
    hide LeavesServices;
    UncheckedStep(trace.session, input.res, input.env);
  }

  lemma StepKeepsInvariant(trace: Trace, input: Input)
    requires Invariant(trace)
    ensures Invariant(Next(trace, input))
  {
    hide Next;
    hide Invariant;
    match trace.session.state {
      case SessionSetup => SetupKeepsInvariant(trace, input);
      case AuthorizationSetup => AuthorizationSetupKeepsInvariant(trace, input);
      case CertificateInstallation => EndKeepsInvariant(trace, input);
      case Authorization => AuthorizationKeepsInvariant(trace, input);
      case ServiceDiscovery => DiscoveryKeepsInvariant(trace, input);
      case ServiceDetail => DetailKeepsInvariant(trace, input);
      case ServiceSelection => SelectionKeepsInvariant(trace, input);
      case AcParameters => ParametersKeepInvariant(trace, input);
      case DcParameters => ParametersKeepInvariant(trace, input);
      case ScheduleExchange => ScheduleKeepsInvariant(trace, input);
      case CableCheck(_) => CableCheckKeepsInvariant(trace, input);
      case PreCharge(_, _) => PreChargeKeepsInvariant(trace, input);
      case PowerDelivery => DeliveryKeepsInvariant(trace, input);
      case AcLoop => LoopKeepsInvariant(trace, input);
      case DcLoop(_) => LoopKeepsInvariant(trace, input);
      case Welding(_, _) => WeldingKeepsInvariant(trace, input);
      case SessionStop => SessionStopKeepsInvariant(trace, input);
      case Terminated => EndKeepsInvariant(trace, input);
    }
  }

  lemma {:induction false} RunKeepsInvariant(inputs: seq<Input>)
    ensures Invariant(Run(inputs))
  {
    hide Next;
    if inputs != [] {
      RunKeepsInvariant(inputs[..|inputs| - 1]);
      StepKeepsInvariant(Run(inputs[..|inputs| - 1]), inputs[|inputs| - 1]);
    }
  }

  lemma {:induction false} RepeatedCount(service: Service, supported: seq<Service>)
    ensures multiset(Repeated(service, supported))[service] == multiset(supported)[service]
    ensures forall x :: x in Repeated(service, supported) ==> x == service
  {
    if supported != [] {
      var last := |supported| - 1;
      RepeatedCount(service, supported[..last]);
      assert supported == supported[..last] + [supported[last]];
    }
  }

  /** Matches come in offer order: those of a list are those of its parts, and those of one service are copies of it. */
  lemma {:induction false} MatchesInOrder(energy: seq<Service>, more: seq<Service>, supported: seq<Service>)
    ensures Matching(energy + more, supported) == Matching(energy, supported) + Matching(more, supported)
    ensures |energy| == 1 ==> forall x :: x in Matching(energy, supported) ==> x == energy[0]
  {
    if more == [] {
      assert energy + more == energy && Matching(energy, supported) + [] == Matching(energy, supported);
    } else {
      var last := |more| - 1;
      MatchesInOrder(energy, more[..last], supported);
      assert (energy + more)[..|energy| + last] == energy + more[..last];
    }
    if |energy| == 1 {
      RepeatedCount(energy[0], supported);
      assert energy[..0] == [];
    }
  }

  function Count(services: seq<Service>, service: Service): nat { multiset(services)[service] }

  lemma OneMore(count: nat, times: nat)
    ensures (count + 1) * times == count * times + times
  {
  }

  lemma CountSnoc(services: seq<Service>, service: Service)
    requires services != []
    ensures var last := |services| - 1;
      Count(services, service) == Count(services[..last], service) + if services[last] == service then 1 else 0
  {
    assert services == services[..|services| - 1] + [services[|services| - 1]];
  }

  /** A service is matched as often as it is offered times as often as the car lists it. */
  lemma {:induction false} MatchingCount(energy: seq<Service>, supported: seq<Service>, service: Service)
    ensures Count(Matching(energy, supported), service) == Count(energy, service) * Count(supported, service)
  {
    if energy != [] {
      var last := |energy| - 1;
      var earlier, here := Matching(energy[..last], supported), Repeated(energy[last], supported);
      MatchingCount(energy[..last], supported, service);
      RepeatedCount(energy[last], supported);
      CountSnoc(energy, service);
      assert Matching(energy, supported) == earlier + here;
      assert Count(earlier + here, service) == Count(earlier, service) + Count(here, service);
      if energy[last] == service {
        OneMore(Count(energy[..last], service), Count(supported, service));
      } else {
        assert service !in here;
      }
    }
  }

  lemma {:induction false} ReverseCount<T>(s: seq<T>)
    ensures multiset(Reverse(s)) == multiset(s)
  {
    if s != [] {
      ReverseCount(s[..|s| - 1]);
      assert s == s[..|s| - 1] + [s[|s| - 1]];
    }
  }

  predicate SelectionFollows(energy: Pick, log: Log) {
    && log.found != [] && multiset(log.requested) == multiset(log.found)
    && |log.requested| > 0 && log.requested[|log.requested| - 1] == log.found[0]
    && log.found[0] in log.published && log.published[log.found[0]] != []
    && energy == Pick(log.found[0], log.published[log.found[0]][0].id)
  }

  /**
   Whatever the station answers: by the time the car sends its service selection it has asked
   for the details of every matched energy service, once per match and last match first, and
   it selects the first match with the first parameter set last published under that id.
   */
  lemma {:induction false} SelectionFollowsAllDetails(inputs: seq<Input>)
    ensures var out := Run(inputs).out;
      out.Sent? && out.req.ServiceSelectionReq? ==> SelectionFollows(out.req.energy, Run(inputs).log)
  {
    RunKeepsDetails(inputs);
    ReverseCount(Run(inputs).log.found);
  }

  /**
   Whatever the station answers: a DC charge-loop request is only sent after a cable check
   answered Finished and, after that, a precharge response for which the car's precharge test
   held; and no charge-loop request follows a stop of the loop.
   */
  lemma {:induction false} LoopIsPrepared(inputs: seq<Input>)
    ensures SentPrepared(Run(inputs).out, Run(inputs).log)
  {
    RunKeepsInvariant(inputs);
    LoopInvariant(Run(inputs));
  }

  predicate SentPrepared(out: Outcome, log: Log) {
    out.Sent? && IsLoop(KindOf(out.req)) ==>
      && log.stop.None?
      && (out.req.DcLoopReq? ==> log.cableChecked && log.precharged)
  }

  lemma LoopInvariant(trace: Trace)
    requires Invariant(trace)
    ensures SentPrepared(trace.out, trace.log)
  {
  }

  /** The timer is -1 whenever a state that loops on Ongoing has just been entered. */
  lemma TimerStartsUnset(inputs: seq<Input>)
    ensures var s, log := Run(inputs).session, Run(inputs).log;
      log.clocked && !s.state.Terminated? && Timed(Awaited(s.state)) && log.loopStart.None? ==> s.timer == -1.0
  {
    RunKeepsInvariant(inputs);
  }

  /**
   While a timed loop repeats, the receive loop waits for the next response from the time it
   sent the request, `lag` after the clock was read: that response arrives at most `Limit`
   seconds plus the lag after the first Ongoing one. The wait is capped by the time left only
   for Authorization; the cable check and welding loops overrun by one message timeout.
   */
  lemma OngoingDeadline(inputs: seq<Input>, lag: real, arrived: real)
    ensures var s, log := Run(inputs).session, Run(inputs).log;
      log.clocked && !s.state.Terminated? && Timed(Awaited(s.state)) && log.loopStart.Some? && arrived <= log.now + lag + s.wait ==>
        arrived <= log.loopStart.value + Limit(Awaited(s.state)) + lag
  {
    RunKeepsInvariant(inputs);
  }

  /** The last outcome of a run is its trace's. */
  lemma SentOutcome(inputs: seq<Input>)
    requires inputs != []
    ensures Outcomes(inputs)[|inputs| - 1] == Run(inputs).out
  {
    hide Step;
  }

  lemma {:induction false} OutcomesPrefix(inputs: seq<Input>, n: nat)
    requires n <= |inputs|
    ensures Outcomes(inputs)[..n] == Outcomes(inputs[..n])
  {
    hide Step;
    if n == |inputs| {
      assert inputs[..n] == inputs;
    } else {
      OutcomesPrefix(inputs[..|inputs| - 1], n);
      assert inputs[..|inputs| - 1][..n] == inputs[..n];
    }
  }

  /** Every message sent along a run was prepared when it was sent, in the eyes of the observer. */
  predicate PreparedThroughout(inputs: seq<Input>, outs: seq<Outcome>)
    requires |inputs| == |outs|
  {
    forall i :: 0 <= i < |inputs| ==> SentInOrder(outs[i], Observed(inputs[..i + 1], outs[..i + 1]))
  }

  predicate SentInOrder(out: Outcome, log: Log) {
    SentPrepared(out, log) && (out.Sent? && out.req.ServiceSelectionReq? ==> SelectionFollows(out.req.energy, log))
  }

  lemma PreparedAt(inputs: seq<Input>, i: nat)
    requires i < |inputs|
    ensures SentInOrder(Outcomes(inputs)[i], Observed(inputs[..i + 1], Outcomes(inputs)[..i + 1]))
  {
    hide Run;
    hide Outcomes;
    hide Observed;
    hide SentPrepared;
    hide SelectionFollows;
    var prefix := inputs[..i + 1];
    OutcomesPrefix(inputs, i + 1);
    assert Outcomes(inputs)[i] == Outcomes(inputs)[..i + 1][i];
    SentOutcome(prefix);
    LogIsObserved(prefix);
    LoopIsPrepared(prefix);
    SelectionFollowsAllDetails(prefix);
  }

  lemma AllPrepared(inputs: seq<Input>)
    ensures PreparedThroughout(inputs, Outcomes(inputs))
  {
    hide Run;
    hide Outcomes;
    hide Observed;
    hide SentInOrder;
    forall i | 0 <= i < |inputs| ensures SentInOrder(Outcomes(inputs)[i], Observed(inputs[..i + 1], Outcomes(inputs)[..i + 1])) {
      PreparedAt(inputs, i);
    }
  }
}
