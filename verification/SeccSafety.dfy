/**
 What every ISO 15118-20 run of the SECC keeps, whatever the EVCC sends.

 `Log` is kept by an observer of the wire and of the contactor, who sees requests,
 responses and measurements but never the session's own fields. The theorem says that a
 session inside a charge loop has earned it in the observer's eyes.
 */
module SeccSafety {
  import opened Options
  import opened Messages
  import opened SeccProtocol

  datatype Input = Input(sid: string, req: Request, env: Env)

  datatype Started = Started(tupleId: Option<int>, contactor: Option<bool>)

  /** The readings behind an authorization answered Finished. */
  datatype Grant = Grant(pnc: bool, signed: bool, signatureValid: bool, status: AuthorizationStatus)

  datatype Log = Log(
    grant: Option<Grant>,
    served: set<Pick>,
    accepted: Option<Pick>,
    parameters: Option<Kind>,
    tuples: seq<int>,
    started: Option<Started>)

  const EmptyLog := Log(None, {}, None, None, [], None)

  function PicksOf(service: Service, sets: seq<ParameterSet>): (picks: set<Pick>)
    ensures forall p :: p in sets ==> Pick(service, p.id) in picks
  {
    set p | p in sets :: Pick(service, p.id)
  }

  /** What one exchange shows from outside. */
  function Observe(log: Log, input: Input, out: Outcome): Log {
    if out.Raised? then log
    else
      var res := out.res;
      match input.req
      case AuthorizationReq(pnc, signed) =>
        if res.body == AuthorizationRes(Finished)
        then log.(grant := Some(Grant(pnc, signed, input.env.signatureValid, input.env.authorization))) else log
      case ServiceDetailReq(_) =>
        if !res.failed && res.body.ServiceDetailRes?
        then log.(served := log.served + PicksOf(res.body.service, res.body.sets)) else log
      case ServiceSelectionReq(energy, _) =>
        if !res.failed then log.(accepted := Some(energy), parameters := None) else log
      case AcParametersReq => if !res.failed then log.(parameters := Some(KAcParameters)) else log
      case DcParametersReq => if !res.failed then log.(parameters := Some(KDcParameters)) else log
      case ScheduleExchangeReq =>
        if !res.failed && res.body.ScheduleExchangeRes? && res.body.processing.Finished? && res.body.tuples.Some?
        then log.(tuples := res.body.tuples.value) else log
      case PowerDeliveryReq(evProcessing, progress, tupleId) =>
        if res.failed || evProcessing.Ongoing? then log
        else log.(started := if progress.Stop? then None else Some(Started(tupleId, input.env.contactorClosed)))
      case _ => log
  }

  datatype Trace = Trace(session: Session, log: Log)

  function Next(trace: Trace, input: Input): Trace {
    var (session, out) := Step(trace.session, input.sid, input.req, input.env);
    Trace(session, if trace.session.state.Terminated? then trace.log else Observe(trace.log, input, out))
  }

  /** The session and the observer after a list of messages, oldest first. */
  function Run(inputs: seq<Input>): Trace {
    if inputs == [] then Trace(Initial, EmptyLog)
    else Next(Run(inputs[..|inputs| - 1]), inputs[|inputs| - 1])
  }

  /** The outcomes of a run, one per input. */
  function Outcomes(inputs: seq<Input>): (outs: seq<Outcome>)
    ensures |outs| == |inputs|
  {
    if inputs == [] then []
    else
      var last := |inputs| - 1;
      Outcomes(inputs[..last]) + [Step(Run(inputs[..last]).session, inputs[last].sid, inputs[last].req, inputs[last].env).1]
  }

  /** What an observer makes of the messages alone. */
  function Observed(inputs: seq<Input>, outs: seq<Outcome>): Log
    requires |inputs| == |outs|
  {
    if inputs == [] then EmptyLog
    else
      var last := |inputs| - 1;
      Observe(Observed(inputs[..last], outs[..last]), inputs[last], outs[last])
  }

  lemma {:induction false} LogIsObserved(inputs: seq<Input>)
    ensures Run(inputs).log == Observed(inputs, Outcomes(inputs))
  {
    hide Step;
    if inputs != [] {
      var last := |inputs| - 1;
      LogIsObserved(inputs[..last]);
      assert Outcomes(inputs)[..last] == Outcomes(inputs[..last]);
      TerminatedShowsNothing(Run(inputs[..last]).session, inputs[last], Run(inputs[..last]).log);
    }
  }

  lemma TerminatedShowsNothing(s: Session, input: Input, log: Log)
    ensures s.state.Terminated? ==> Observe(log, input, Step(s, input.sid, input.req, input.env).1) == log
  {
  }

  predicate InLoop(state: State) { state.AcLoop? || state.DcLoop? }

  predicate Authorized(state: State) {
    !(state.SessionSetup? || state.AuthorizationSetup? || state.CertificateInstallation?
      || (state.Authorization? && state.expecting) || state.Terminated?)
  }

  predicate ServiceChosen(state: State) {
    state.AcParameters? || state.DcParameters? || ParametersDone(state)
  }

  predicate ParametersDone(state: State) {
    state.ScheduleExchange? || state.PowerDelivery? || state.CableCheck? || state.PreCharge? || state.Welding? || InLoop(state)
  }

  /** An accepted session stop that asks a supporting station to renegotiate before any authorization was finished. */
  predicate RenegotiatesEarly(trace: Trace, input: Input) {
    && Passes(trace.session, input.sid, input.req) && input.req == SessionStopReq(ServiceRenegotiation)
    && input.env.renegotiation && trace.log.grant.None?
  }

  predicate EarlyRenegotiated(inputs: seq<Input>) {
    inputs != [] &&
    (var last := |inputs| - 1;
     EarlyRenegotiated(inputs[..last]) || RenegotiatesEarly(Run(inputs[..last]), inputs[last]))
  }

  predicate SelectionEarned(s: Session, log: Log) {
    && s.selected.Some?
    && log.accepted == Some(Pick(s.selected.value.service, s.selected.value.parameterSet.id))
    && (IsAc(s.selected.value.service) || IsDc(s.selected.value.service))
    && (s.state.AcParameters? ==> IsAc(s.selected.value.service))
    && (s.state.DcParameters? ==> IsDc(s.selected.value.service))
  }

  predicate StartEarned(s: Session, log: Log) {
    && log.started.Some?
    && log.started.value.contactor == Some(true)
    && (s.mode == Some(Scheduled) ==> log.started.value.tupleId.Some? && log.started.value.tupleId.value in log.tuples)
  }

  predicate LoopFits(s: Session) {
    && s.selected.Some?
    && (s.state.AcLoop? ==> IsAc(s.selected.value.service))
    && (s.state.DcLoop? ==> IsDc(s.selected.value.service))
  }

  /** A signature that came along was valid, and the station had made up its mind; it need not have accepted. */
  predicate Genuine(grant: Grant) { (grant.signed ==> grant.signatureValid) && !grant.status.StillOngoing? }

  /** `early` says that a renegotiation came before the authorization. */
  predicate AuthorizationKept(s: Session, log: Log, early: bool) {
    && (Authorized(s.state) ==> (log.grant.Some? <==> !early))
    && (log.grant.Some? ==> Genuine(log.grant.value))
    && (early ==> Authorized(s.state) && !s.state.Authorization?)
  }

  predicate ChargingKept(s: Session, log: Log) {
    && (s.hlc <==> log.started.Some?)
    && s.offeredTuples == log.tuples
    && (ServiceChosen(s.state) ==> SelectionEarned(s, log))
    && (ParametersDone(s.state) ==>
         log.parameters == Some(if IsAc(s.selected.value.service) then KAcParameters else KDcParameters))
    && (InLoop(s.state) ==> StartEarned(s, log) && LoopFits(s))
  }

  predicate Invariant(trace: Trace, early: bool) {
    trace.session.state.Terminated?
    || (AuthorizationKept(trace.session, trace.log, early) && ChargingKept(trace.session, trace.log))
  }

  lemma RefusalEnds(trace: Trace, input: Input)
    requires trace.session.state.Terminated? || trace.session.state.CertificateInstallation?
      || !Passes(trace.session, input.sid, input.req)
    ensures Next(trace, input).session.state.Terminated?
  {
  }

  lemma SetupStepKeepsInvariant(trace: Trace, input: Input, early: bool)
    requires Invariant(trace, early) && Passes(trace.session, input.sid, input.req)
    requires input.req.SessionSetupReq? || input.req.AuthorizationSetupReq? || input.req.AuthorizationReq?
    ensures Invariant(Next(trace, input), early)
  {
  }

  lemma ServiceStepKeepsInvariant(trace: Trace, input: Input, early: bool)
    requires Invariant(trace, early) && Passes(trace.session, input.sid, input.req)
    requires input.req.ServiceDiscoveryReq? || input.req.ServiceDetailReq?
    ensures Invariant(Next(trace, input), early)
  {
  }

  lemma SelectionStepKeepsInvariant(trace: Trace, input: Input, early: bool)
    requires Invariant(trace, early) && Passes(trace.session, input.sid, input.req)
    requires input.req.ServiceSelectionReq?
    ensures Invariant(Next(trace, input), early)
  {
    hide Step;
    ServiceSelectionStep(trace.session, input.sid, input.req, input.env);
  }

  lemma StopStepKeepsInvariant(trace: Trace, input: Input, early: bool)
    requires Invariant(trace, early) && Passes(trace.session, input.sid, input.req)
    requires input.req.CertificateInstallationReq? || input.req.SessionStopReq?
    ensures Invariant(Next(trace, input), early || RenegotiatesEarly(trace, input))
  {
  }

  lemma DeliveryStepKeepsInvariant(trace: Trace, input: Input, early: bool)
    requires Invariant(trace, early) && Passes(trace.session, input.sid, input.req)
    requires input.req.PowerDeliveryReq?
    ensures Invariant(Next(trace, input), early)
  {
    hide Step;
    PowerDeliveryStep(trace.session, input.sid, input.req, input.env);
  }

  lemma LoopStepKeepsInvariant(trace: Trace, input: Input, early: bool)
    requires Invariant(trace, early) && Passes(trace.session, input.sid, input.req)
    requires input.req.AcLoopReq? || input.req.DcLoopReq? || input.req.WeldingReq?
    ensures Invariant(Next(trace, input), early)
  {
  }

  lemma ParametersStepKeepsInvariant(trace: Trace, input: Input, early: bool)
    requires Invariant(trace, early) && Passes(trace.session, input.sid, input.req)
    requires input.req.AcParametersReq? || input.req.DcParametersReq? || input.req.ScheduleExchangeReq?
    ensures Invariant(Next(trace, input), early)
  {
  }

  lemma DcStepKeepsInvariant(trace: Trace, input: Input, early: bool)
    requires Invariant(trace, early) && Passes(trace.session, input.sid, input.req)
    requires input.req.CableCheckReq? || input.req.PreChargeReq?
    ensures Invariant(Next(trace, input), early)
  {
    hide Step;
    if input.req.CableCheckReq? {
      CableCheckStep(trace.session, input.sid, input.req, input.env);
    } else {
      PreChargeStep(trace.session, input.sid, input.req, input.env);
    }
  }

  lemma StepKeepsInvariant(trace: Trace, input: Input, early: bool)
    requires Invariant(trace, early)
    ensures Invariant(Next(trace, input), early || RenegotiatesEarly(trace, input))
  {
    hide Next;
    hide Invariant;
    if trace.session.state.CertificateInstallation? || !Passes(trace.session, input.sid, input.req) {
      RefusalEnds(trace, input);
      TerminatedIsFine(Next(trace, input), early || RenegotiatesEarly(trace, input));
    } else {
      match input.req
      case SessionSetupReq => SetupStepKeepsInvariant(trace, input, early);
      case AuthorizationSetupReq => SetupStepKeepsInvariant(trace, input, early);
      case AuthorizationReq(_, _) => SetupStepKeepsInvariant(trace, input, early);
      case ServiceDiscoveryReq => ServiceStepKeepsInvariant(trace, input, early);
      case ServiceDetailReq(_) => ServiceStepKeepsInvariant(trace, input, early);
      case ServiceSelectionReq(_, _) => SelectionStepKeepsInvariant(trace, input, early);
      case CertificateInstallationReq => StopStepKeepsInvariant(trace, input, early);
      case SessionStopReq(_) => StopStepKeepsInvariant(trace, input, early);
      case PowerDeliveryReq(_, _, _) => DeliveryStepKeepsInvariant(trace, input, early);
      case AcLoopReq => LoopStepKeepsInvariant(trace, input, early);
      case DcLoopReq => LoopStepKeepsInvariant(trace, input, early);
      case WeldingReq(_) => LoopStepKeepsInvariant(trace, input, early);
      case AcParametersReq => ParametersStepKeepsInvariant(trace, input, early);
      case DcParametersReq => ParametersStepKeepsInvariant(trace, input, early);
      case ScheduleExchangeReq => ParametersStepKeepsInvariant(trace, input, early);
      case CableCheckReq => DcStepKeepsInvariant(trace, input, early);
      case PreChargeReq(_) => DcStepKeepsInvariant(trace, input, early);
    }
  }

  lemma TerminatedIsFine(trace: Trace, early: bool)
    requires trace.session.state.Terminated?
    ensures Invariant(trace, early)
  {
  }

  lemma {:induction false} RunKeepsInvariant(inputs: seq<Input>)
    ensures Invariant(Run(inputs), EarlyRenegotiated(inputs))
  {
    if inputs != [] {
      var last := |inputs| - 1;
      RunKeepsInvariant(inputs[..last]);
      StepKeepsInvariant(Run(inputs[..last]), inputs[last], EarlyRenegotiated(inputs[..last]));
    }
  }

  // Which accepted pairs had been published in a service detail.

  /** A value-added service under an AC or DC energy id comes without parameter sets. */
  predicate Harmless(vas: seq<VasOffer>) {
    forall i :: 0 <= i < |vas| && (IsAc(vas[i].service) || IsDc(vas[i].service)) ==> vas[i].sets == []
  }

  predicate EnergySetsServed(matched: seq<MatchedService>, served: set<Pick>) {
    forall i, j :: 0 <= i < |matched| && 0 <= j < |matched[i].sets| && (IsAc(matched[i].service) || IsDc(matched[i].service))
      ==> Pick(matched[i].service, matched[i].sets[j].id) in served
  }

  predicate AcceptedWasServed(log: Log) { log.accepted.Some? && log.accepted.value in log.served }

  predicate ServedKept(trace: Trace) {
    trace.session.state.Terminated? ||
    (EnergySetsServed(trace.session.matched, trace.log.served)
     && (ServiceChosen(trace.session.state) ==> AcceptedWasServed(trace.log)))
  }

  lemma DetailKeepsServed(matched: seq<MatchedService>, served: set<Pick>, service: Service, sets: seq<ParameterSet>)
    requires EnergySetsServed(matched, served)
    ensures EnergySetsServed(StoreFirst(matched, service, sets), served + PicksOf(service, sets))
  {
  }

  lemma DetailOfUnlisted(matched: seq<MatchedService>, service: Service, sets: seq<ParameterSet>)
    requires !Lists(matched, service)
    ensures StoreFirst(matched, service, sets) == matched
  {
  }

  lemma DiscoveryKeepsServed(matched: seq<MatchedService>, served: set<Pick>, env: Env)
    requires EnergySetsServed(matched, served) && Harmless(env.vas)
    ensures EnergySetsServed(matched + Offered(env.energyServices) + OfferedVas(env.vas), served)
  {
  }

  lemma OfferedPairIsServed(matched: seq<MatchedService>, served: set<Pick>, pick: Pick)
    requires EnergySetsServed(matched, served) && PairOffered(matched, pick)
    ensures IsAc(pick.service) || IsDc(pick.service) ==> pick in served
  {
  }

  lemma DiscoveryStepKeepsServed(trace: Trace, input: Input)
    requires ServedKept(trace) && Harmless(input.env.vas)
    requires Passes(trace.session, input.sid, input.req) && input.req.ServiceDiscoveryReq?
    ensures ServedKept(Next(trace, input))
  {
    DiscoveryKeepsServed(trace.session.matched, trace.log.served, input.env);
  }

  lemma DetailStepKeepsServed(trace: Trace, input: Input)
    requires ServedKept(trace)
    requires Passes(trace.session, input.sid, input.req) && input.req.ServiceDetailReq?
    ensures ServedKept(Next(trace, input))
  {
    var s := trace.session;
    ServiceDetailStep(s, input.sid, input.req, input.env);
    DetailKeepsServed(s.matched, trace.log.served, input.req.service, input.env.parameterSets);
    if !Lists(s.matched, input.req.service) {
      DetailOfUnlisted(s.matched, input.req.service, input.env.parameterSets);
    }
  }

  lemma SelectionStepKeepsServed(trace: Trace, input: Input)
    requires ServedKept(trace)
    requires Passes(trace.session, input.sid, input.req) && input.req.ServiceSelectionReq?
    ensures ServedKept(Next(trace, input))
  {
    if PairOffered(trace.session.matched, input.req.energy) {
      OfferedPairIsServed(trace.session.matched, trace.log.served, input.req.energy);
    }
  }

  /** No other exchange lists services, publishes sets, accepts a selection or leaves the setup states for a later one. */
  lemma OtherStepKeepsServed(trace: Trace, input: Input)
    requires ServedKept(trace)
    requires Passes(trace.session, input.sid, input.req)
    requires !input.req.ServiceDiscoveryReq? && !input.req.ServiceDetailReq? && !input.req.ServiceSelectionReq?
    ensures ServedKept(Next(trace, input))
  {
    hide EnergySetsServed;
    if input.req.PowerDeliveryReq? {
      PowerDeliveryStep(trace.session, input.sid, input.req, input.env);
    } else {
      QuietStepKeepsServed(trace, input);
    }
  }

  lemma QuietStepKeepsServed(trace: Trace, input: Input)
    requires ServedKept(trace)
    requires Passes(trace.session, input.sid, input.req)
    requires !input.req.ServiceDiscoveryReq? && !input.req.ServiceDetailReq? && !input.req.ServiceSelectionReq?
    requires !input.req.PowerDeliveryReq?
    ensures ServedKept(Next(trace, input))
  {
    hide EnergySetsServed;
  }

  lemma StepKeepsServed(trace: Trace, input: Input)
    requires ServedKept(trace) && Harmless(input.env.vas)
    ensures ServedKept(Next(trace, input))
  {
    if trace.session.state.CertificateInstallation? || !Passes(trace.session, input.sid, input.req) {
      RefusalEnds(trace, input);
    } else if input.req.ServiceDiscoveryReq? {
      DiscoveryStepKeepsServed(trace, input);
    } else if input.req.ServiceDetailReq? {
      DetailStepKeepsServed(trace, input);
    } else if input.req.ServiceSelectionReq? {
      SelectionStepKeepsServed(trace, input);
    } else {
      OtherStepKeepsServed(trace, input);
    }
  }

  predicate HarmlessRun(inputs: seq<Input>) { forall i :: 0 <= i < |inputs| ==> Harmless(inputs[i].env.vas) }

  lemma {:induction false} RunKeepsServed(inputs: seq<Input>)
    requires HarmlessRun(inputs)
    ensures ServedKept(Run(inputs))
  {
    if inputs != [] {
      RunKeepsServed(inputs[..|inputs| - 1]);
      StepKeepsServed(Run(inputs[..|inputs| - 1]), inputs[|inputs| - 1]);
    }
  }

  predicate LoopEarned(s: Session, log: Log) {
    && log.grant.Some? && Genuine(log.grant.value)
    && AcceptedWasServed(log)
    && s.selected.Some? && log.accepted.value == Pick(s.selected.value.service, s.selected.value.parameterSet.id)
    && (s.state.AcLoop? ==> IsAc(log.accepted.value.service) && log.parameters == Some(KAcParameters))
    && (s.state.DcLoop? ==> IsDc(log.accepted.value.service) && log.parameters == Some(KDcParameters))
    && s.hlc
    && StartEarned(s, log)
  }

  /**
   A session in a charge loop, after any messages from any peer, has earned it: an
   authorization was answered Finished, with a valid signature if there was one and a station
   that had made up its mind; the accepted (service, set) pair had been published
   in a service detail; parameters of the same AC/DC kind were discovered since; the last
   start found the contactor closed and no stop followed; and in Scheduled mode that start
   named a schedule tuple of the last finished schedule exchange. The only ways around it are
   a supported renegotiation before the authorization and a value-added offer that brings
   parameter sets under an energy id.
   */
  lemma ChargeLoopIsEarned(inputs: seq<Input>)
    ensures InLoop(Run(inputs).session.state) ==>
      (LoopEarned(Run(inputs).session, Run(inputs).log) <==>
        !EarlyRenegotiated(inputs) && AcceptedWasServed(Run(inputs).log))
    ensures InLoop(Run(inputs).session.state) && HarmlessRun(inputs) ==> AcceptedWasServed(Run(inputs).log)
  {
    RunKeepsInvariant(inputs);
    if HarmlessRun(inputs) {
      RunKeepsServed(inputs);
    }
  }

  /** While a session lives, high-level-controlled charging is on exactly from an accepted start to the next accepted stop. */
  lemma HlcFollowsStartAndStop(inputs: seq<Input>)
    ensures !Run(inputs).session.state.Terminated? ==> (Run(inputs).session.hlc <==> Run(inputs).log.started.Some?)
  {
    RunKeepsInvariant(inputs);
  }

  /** A station that does not support renegotiation, as the simulated one, never meets the early one. */
  lemma {:induction false} WithoutRenegotiationNeverEarly(inputs: seq<Input>)
    requires forall i :: 0 <= i < |inputs| ==> !inputs[i].env.renegotiation
    ensures !EarlyRenegotiated(inputs)
  {
    if inputs != [] {
      WithoutRenegotiationNeverEarly(inputs[..|inputs| - 1]);
    }
  }

  lemma Extend(inputs: seq<Input>, input: Input, before: Trace, after: Trace)
    requires Run(inputs) == before && Next(before, input) == after
    ensures Run(inputs + [input]) == after
  {
    assert (inputs + [input])[..|inputs|] == inputs;
  }

  /** A healthy station that supports renegotiation and offers one AC parameter set. */
  const Station := Env("1", false, false, true, false, Accepted, true, [Ac], [], [ParameterSet(1, [Dynamic])],
                       true, true, true, [1], false, Some(true), true, Valid, true, None, 400.0, 8000.0)

  function Send(req: Request): Input { Input("1", req, Station) }

  function At(state: State): Session { Initial.(sid := "1", state := state) }

  const Listed := [MatchedService(Ac, true, [])]
  const Filled := [MatchedService(Ac, true, [ParameterSet(1, [Dynamic])])]
  const Serving := EmptyLog.(served := PicksOf(Ac, [ParameterSet(1, [Dynamic])]))

  function SelectedAt(state: State): Session {
    At(state).(matched := Filled, selected := Some(SelectedService(Ac, ParameterSet(1, [Dynamic]))), mode := Some(Dynamic))
  }

  /** The session and the observer along the run that renegotiates early. */
  function EarlyStage(n: nat): Trace
    requires n <= 6
  {
    match n
    case 0 => Trace(Initial, EmptyLog)
    case 1 => Trace(At(State.AuthorizationSetup(true)), EmptyLog)
    case 2 => Trace(At(State.AuthorizationSetup(false)), EmptyLog)
    case 3 => Trace(At(State.ServiceDiscovery(true)), EmptyLog)
    case 4 => Trace(At(State.ServiceDiscovery(false)).(matched := Listed), EmptyLog)
    case 5 => Trace(At(State.ServiceDetail(false)).(matched := Filled), Serving)
    case 6 => Trace(SelectedAt(State.AcParameters), Serving.(accepted := Some(Pick(Ac, 1))))
  }

  lemma EarlySetupStages()
    ensures Next(EarlyStage(0), Send(SessionSetupReq)) == EarlyStage(1)
    ensures Next(EarlyStage(1), Send(AuthorizationSetupReq)) == EarlyStage(2)
  {
  }

  lemma EarlyStopStage()
    ensures Next(EarlyStage(2), Send(SessionStopReq(ServiceRenegotiation))) == EarlyStage(3)
  {
  }

  lemma EarlyDiscoveryStage()
    ensures Next(EarlyStage(3), Send(ServiceDiscoveryReq)) == EarlyStage(4)
  {
    assert [] + Offered([Ac]) + OfferedVas([]) == Listed;
  }

  lemma EarlyDetailStage()
    ensures Next(EarlyStage(4), Send(ServiceDetailReq(Ac))) == EarlyStage(5)
  {
    assert Listed[0].service == Ac;
    assert {} + PicksOf(Ac, [ParameterSet(1, [Dynamic])]) == PicksOf(Ac, [ParameterSet(1, [Dynamic])]);
  }

  lemma EarlySelectionStage()
    ensures Next(EarlyStage(5), Send(ServiceSelectionReq(Pick(Ac, 1), []))) == EarlyStage(6)
  {
    assert Filled[0].sets[0].id == 1;
  }

  lemma EarlySelection() returns (inputs: seq<Input>)
    ensures HarmlessRun(inputs) && Run(inputs) == EarlyStage(6)
  {
    hide Next;
    hide EarlyStage;
    EarlySetupStages();
    EarlyStopStage();
    EarlyDiscoveryStage();
    EarlyDetailStage();
    EarlySelectionStage();
    EarlyStart();
    Extend([], Send(SessionSetupReq), EarlyStage(0), EarlyStage(1));
    inputs := [] + [Send(SessionSetupReq)];
    Extend(inputs, Send(AuthorizationSetupReq), EarlyStage(1), EarlyStage(2));
    inputs := inputs + [Send(AuthorizationSetupReq)];
    Extend(inputs, Send(SessionStopReq(ServiceRenegotiation)), EarlyStage(2), EarlyStage(3));
    inputs := inputs + [Send(SessionStopReq(ServiceRenegotiation))];
    Extend(inputs, Send(ServiceDiscoveryReq), EarlyStage(3), EarlyStage(4));
    inputs := inputs + [Send(ServiceDiscoveryReq)];
    Extend(inputs, Send(ServiceDetailReq(Ac)), EarlyStage(4), EarlyStage(5));
    inputs := inputs + [Send(ServiceDetailReq(Ac))];
    Extend(inputs, Send(ServiceSelectionReq(Pick(Ac, 1), [])), EarlyStage(5), EarlyStage(6));
    inputs := inputs + [Send(ServiceSelectionReq(Pick(Ac, 1), []))];
  }

  lemma EarlyStart()
    ensures Run([]) == EarlyStage(0)
  {
  }

  /**
   A session stop that asks for renegotiation is accepted before any authorization and, where
   the station supports it, leads to service discovery: the loop is then reached unauthorized.
   */
  lemma EarlyRenegotiation() returns (inputs: seq<Input>)
    ensures HarmlessRun(inputs)
    ensures InLoop(Run(inputs).session.state) && Run(inputs).log.grant.None?
  {
    hide Next;
    var chosen := EarlySelection();
    inputs := LastSteps(chosen, Station);
    forall i | 0 <= i < |inputs| ensures Harmless(inputs[i].env.vas) {
      assert i < |chosen| ==> inputs[i] == inputs[..|chosen|][i];
    }
  }

  /** With discovered parameters, a schedule and a closed contactor, every accepted selection gets into its loop. */
  lemma LastSteps(chosen: seq<Input>, env: Env) returns (inputs: seq<Input>)
    requires Selected(Run(chosen)) && Willing(env)
    ensures |inputs| == |chosen| + 3 && inputs[..|chosen|] == chosen
    ensures forall i :: |chosen| <= i < |inputs| ==> inputs[i].env == env
    ensures InLoop(Run(inputs).session.state)
    ensures var log, log' := Run(chosen).log, Run(inputs).log;
      log'.grant == log.grant && log'.served == log.served && log'.accepted == log.accepted
  {
    hide Next;
    var parameters := Input("1", if Run(chosen).session.state.AcParameters? then AcParametersReq else DcParametersReq, env);
    DiscoversParameters(Run(chosen), parameters);
    Extend(chosen, parameters, Run(chosen), Next(Run(chosen), parameters));
    var known := chosen + [parameters];
    var schedule := Input("1", ScheduleExchangeReq, env);
    ExchangesSchedule(Run(known), schedule);
    Extend(known, schedule, Run(known), Next(Run(known), schedule));
    var scheduled := known + [schedule];
    var start := Input("1", PowerDeliveryReq(Finished, Start, Some(1)), env);
    StartsLoop(Run(scheduled), start);
    Extend(scheduled, start, Run(scheduled), Next(Run(scheduled), start));
    inputs := scheduled + [start];
  }

  predicate Willing(env: Env) {
    env.parametersKnown && env.scheduleParamsFit && env.readyToCharge && env.scheduleTuples == [1] && env.contactorClosed == Some(true)
  }

  predicate Chose(s: Session) {
    s.sid == "1" && s.selected.Some? && (IsAc(s.selected.value.service) || IsDc(s.selected.value.service))
  }

  predicate Selected(trace: Trace) {
    Chose(trace.session) && (trace.session.state.AcParameters? || trace.session.state.DcParameters?)
  }

  predicate SameStory(log: Log, log': Log) {
    log'.grant == log.grant && log'.served == log.served && log'.accepted == log.accepted
  }

  lemma DiscoversParameters(trace: Trace, input: Input)
    requires Selected(trace) && Willing(input.env) && input.sid == "1"
    requires input.req == if trace.session.state.AcParameters? then AcParametersReq else DcParametersReq
    ensures var next := Next(trace, input);
      next.session.state.ScheduleExchange? && Chose(next.session) && SameStory(trace.log, next.log)
  {
  }

  lemma ExchangesSchedule(trace: Trace, input: Input)
    requires trace.session.state.ScheduleExchange? && Chose(trace.session)
    requires input.req == ScheduleExchangeReq && Willing(input.env) && input.sid == "1"
    ensures var next := Next(trace, input);
      && (next.session.state.ScheduleExchange? || next.session.state.PowerDelivery?) && Chose(next.session)
      && (next.session.mode == Some(Scheduled) ==> next.session.offeredTuples == [1]) && SameStory(trace.log, next.log)
  {
  }

  lemma StartsLoop(trace: Trace, input: Input)
    requires (trace.session.state.ScheduleExchange? || trace.session.state.PowerDelivery?) && Chose(trace.session)
    requires trace.session.mode == Some(Scheduled) ==> trace.session.offeredTuples == [1]
    requires input.req == PowerDeliveryReq(Finished, Start, Some(1)) && Willing(input.env) && input.sid == "1"
    ensures InLoop(Next(trace, input).session.state) && SameStory(trace.log, Next(trace, input).log)
  {
  }

  predicate OffersOnly(inputs: seq<Input>, vas: seq<VasOffer>) {
    forall i :: 0 <= i < |inputs| ==> inputs[i].env.vas == vas
  }

  /** With this value-added offer every run that reaches a charge loop has been served the pair it selected. */
  ghost predicate AlwaysServed(vas: seq<VasOffer>) {
    forall inputs :: OffersOnly(inputs, vas) && InLoop(Run(inputs).session.state) ==> AcceptedWasServed(Run(inputs).log)
  }

  /** A station that offers nothing but value-added services. */
  function Offering(vas: seq<VasOffer>): Env { Station.(energyServices := [], vas := vas, parameterSets := []) }

  const Authorizing := EmptyLog.(grant := Some(Grant(false, false, true, Accepted)))

  function VasList(vas: seq<VasOffer>): seq<MatchedService> { StoreFirst(OfferedVas(vas), Internet, []) }

  function VasStage(vas: seq<VasOffer>, n: nat): Trace
    requires n <= 5
  {
    match n
    case 0 => Trace(Initial, EmptyLog)
    case 1 => Trace(At(State.AuthorizationSetup(true)), EmptyLog)
    case 2 => Trace(At(State.AuthorizationSetup(false)), EmptyLog)
    case 3 => Trace(At(State.Authorization(false)), Authorizing)
    case 4 => Trace(At(State.ServiceDiscovery(false)).(matched := OfferedVas(vas)), Authorizing)
    case 5 => Trace(At(State.ServiceDetail(false)).(matched := VasList(vas)), Authorizing)
  }

  lemma VasSetupStages(vas: seq<VasOffer>)
    ensures Next(VasStage(vas, 0), Input("1", SessionSetupReq, Offering(vas))) == VasStage(vas, 1)
    ensures Next(VasStage(vas, 1), Input("1", AuthorizationSetupReq, Offering(vas))) == VasStage(vas, 2)
  {
  }

  lemma VasAuthorizationStage(vas: seq<VasOffer>)
    ensures Next(VasStage(vas, 2), Input("1", AuthorizationReq(false, false), Offering(vas))) == VasStage(vas, 3)
  {
  }

  lemma VasDiscoveryStage(vas: seq<VasOffer>)
    ensures Next(VasStage(vas, 3), Input("1", ServiceDiscoveryReq, Offering(vas))) == VasStage(vas, 4)
  {
    hide Step;
    ServiceDiscoveryStep(VasStage(vas, 3).session, "1", ServiceDiscoveryReq, Offering(vas));
    assert [] + Offered([]) + OfferedVas(vas) == OfferedVas(vas);
  }

  /** Asking for the details of any service gets the car past the discovery, listed or not. */
  lemma VasDetailStage(vas: seq<VasOffer>)
    ensures Next(VasStage(vas, 4), Input("1", ServiceDetailReq(Internet), Offering(vas))) == VasStage(vas, 5)
  {
    assert {} + PicksOf(Internet, []) == {};
  }

  lemma VasDetailed(vas: seq<VasOffer>) returns (inputs: seq<Input>)
    ensures OffersOnly(inputs, vas) && Run(inputs) == VasStage(vas, 5)
  {
    hide Next;
    hide VasStage;
    VasSetupStages(vas);
    VasAuthorizationStage(vas);
    VasDiscoveryStage(vas);
    VasDetailStage(vas);
    VasStart(vas);
    var env := Offering(vas);
    Extend([], Input("1", SessionSetupReq, env), VasStage(vas, 0), VasStage(vas, 1));
    inputs := [] + [Input("1", SessionSetupReq, env)];
    Extend(inputs, Input("1", AuthorizationSetupReq, env), VasStage(vas, 1), VasStage(vas, 2));
    inputs := inputs + [Input("1", AuthorizationSetupReq, env)];
    Extend(inputs, Input("1", AuthorizationReq(false, false), env), VasStage(vas, 2), VasStage(vas, 3));
    inputs := inputs + [Input("1", AuthorizationReq(false, false), env)];
    Extend(inputs, Input("1", ServiceDiscoveryReq, env), VasStage(vas, 3), VasStage(vas, 4));
    inputs := inputs + [Input("1", ServiceDiscoveryReq, env)];
    Extend(inputs, Input("1", ServiceDetailReq(Internet), env), VasStage(vas, 4), VasStage(vas, 5));
    inputs := inputs + [Input("1", ServiceDetailReq(Internet), env)];
  }

  lemma VasStart(vas: seq<VasOffer>)
    ensures Run([]) == VasStage(vas, 0)
  {
  }

  lemma VasSelected(vas: seq<VasOffer>, k: nat)
    requires k < |vas| && (IsAc(vas[k].service) || IsDc(vas[k].service)) && vas[k].sets != []
    ensures var pick := Pick(vas[k].service, vas[k].sets[0].id);
      var next := Next(VasStage(vas, 5), Input("1", ServiceSelectionReq(pick, []), Offering(vas)));
      Selected(next) && next.log == Authorizing.(accepted := Some(pick))
  {
    var s := VasStage(vas, 5).session;
    var pick := Pick(vas[k].service, vas[k].sets[0].id);
    assert s.matched[k] == MatchedService(vas[k].service, false, vas[k].sets);
    assert s.matched[k].sets[0].id == pick.setId;
    assert PairOffered(s.matched, pick);
    ServiceSelectionStep(s, "1", ServiceSelectionReq(pick, []), Offering(vas));
  }

  /** A value-added service with parameter sets under an energy id gets into the charge loop without any detail served. */
  lemma UnservedRun(vas: seq<VasOffer>) returns (inputs: seq<Input>)
    requires !Harmless(vas)
    ensures OffersOnly(inputs, vas) && InLoop(Run(inputs).session.state) && !AcceptedWasServed(Run(inputs).log)
  {
    var k :| 0 <= k < |vas| && (IsAc(vas[k].service) || IsDc(vas[k].service)) && vas[k].sets != [];
    var detailed := VasDetailed(vas);
    VasSelected(vas, k);
    var selection := Input("1", ServiceSelectionReq(Pick(vas[k].service, vas[k].sets[0].id), []), Offering(vas));
    Extend(detailed, selection, VasStage(vas, 5), Next(VasStage(vas, 5), selection));
    var chosen := detailed + [selection];
    inputs := LastSteps(chosen, Offering(vas));
    forall i | 0 <= i < |inputs| ensures inputs[i].env.vas == vas {
      assert i < |chosen| ==> inputs[i] == inputs[..|chosen|][i];
    }
  }

  /** The value-added offers with which every selection that gets into a charge loop had been served. */
  lemma ServedExactlyWhenHarmless(vas: seq<VasOffer>)
    ensures AlwaysServed(vas) <==> Harmless(vas)
  {
    if Harmless(vas) {
      forall inputs | OffersOnly(inputs, vas) && InLoop(Run(inputs).session.state) ensures AcceptedWasServed(Run(inputs).log) {
        ChargeLoopIsEarned(inputs);
      }
    } else {
      var inputs := UnservedRun(vas);
    }
  }
}
