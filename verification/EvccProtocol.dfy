/**
 The EVCC side of ISO 15118-20 as a transition function over responses.

 The charge controller of the car, the clock and the random source answer through `Env`;
 module BatteryControl supplies those answers for the simulated battery.
 */
module EvccProtocol {
  import opened Options
  import opened Messages

  /** The state waits for the response of its own kind; `held` is the message of a state that stayed put. */
  datatype State =
    | SessionSetup
    | AuthorizationSetup
    | CertificateInstallation
    | Authorization
    | ServiceDiscovery
    | ServiceDetail
    | ServiceSelection
    | ScheduleExchange
    | PowerDelivery
    | SessionStop
    | AcParameters
    | AcLoop
    | DcParameters
    | CableCheck(held: Option<Request>)
    | PreCharge(builtOnce: bool, held: Option<Request>)
    | DcLoop(held: Option<Request>)
    | Welding(complete: bool, held: Option<Request>)
    | Terminated

  /** `now` is the clock when the response is processed. */
  datatype Env = Env(
    now: real,
    certInstallNeeded: bool,
    oemKeyReadable: bool,
    contractKeyReadable: bool,
    supported: seq<Service>,
    diagnostic: Option<Service>,
    profileReady: bool,
    precharged: bool,
    stillPrecharged: bool,
    continueCharging: bool,
    weldingFinished: bool)

  datatype Offer = Offer(tuples: Option<seq<int>>, goToPause: bool)

  datatype Session = Session(
    state: State,
    sid: string,
    renegotiationSupported: bool,
    matched: seq<MatchedService>,
    toRequest: seq<Service>,
    selected: Option<SelectedService>,
    mode: Option<ControlMode>,
    isAc: bool,
    evProcessing: Processing,
    offer: Offer,
    stop: Option<ChargingSession>,
    renegotiationRequested: bool,
    pnc: bool,
    timer: real,
    wait: real)

  /** Sends the next request, quits (sending a held message again, if any), or fails with an exception. */
  datatype Outcome = Sent(req: Request) | Quit(held: Option<Request>, successful: bool) | Raised

  const ZeroSid := "0000000000000000"

  const OngoingTimeout := 60.0
  const CableCheckTimeout := 40.0

  const Initial := Session(SessionSetup, ZeroSid, false, [], [], None, None, true, Finished, Offer(None, false),
                           None, false, false, -1.0, 2.0)

  function Awaited(state: State): Kind
    requires !state.Terminated?
  {
    match state
    case SessionSetup => KSessionSetup
    case AuthorizationSetup => KAuthorizationSetup
    case CertificateInstallation => KCertificateInstallation
    case Authorization => KAuthorization
    case ServiceDiscovery => KServiceDiscovery
    case ServiceDetail => KServiceDetail
    case ServiceSelection => KServiceSelection
    case ScheduleExchange => KScheduleExchange
    case PowerDelivery => KPowerDelivery
    case SessionStop => KSessionStop
    case AcParameters => KAcParameters
    case AcLoop => KAcLoop
    case DcParameters => KDcParameters
    case CableCheck(_) => KCableCheck
    case PreCharge(_, _) => KPreCharge
    case DcLoop(_) => KDcLoop
    case Welding(_, _) => KWelding
  }

  /** `check_msg`: type, response code, and the session id after session setup. */
  predicate Passes(s: Session, res: Response) {
    && !s.state.Terminated?
    && ResponseKind(res.body) == Awaited(s.state)
    && !res.failed
    && (s.state.SessionSetup? || res.sid == s.sid)
  }

  /** A state object that stayed put still carries its last message. */
  function Held(state: State): Option<Request> {
    match state
    case CableCheck(held) => held
    case PreCharge(_, held) => held
    case DcLoop(held) => held
    case Welding(_, held) => held
    case _ => None
  }

  /** A session that goes on waits for the answer to the request it just sent. */
  predicate Agrees(r: (Session, Outcome)) {
    if r.1.Sent? then !r.0.state.Terminated? && KindOf(r.1.req) == Awaited(r.0.state) else r.0.state.Terminated?
  }

  /** The states up to service discovery. */
  predicate Early(state: State) {
    state.SessionSetup? || state.AuthorizationSetup? || state.CertificateInstallation? || state.Authorization?
    || state.ServiceDiscovery?
  }

  /** Nothing outside the two service states touches the matched services or asks for details. */
  predicate LeavesServices(s: Session, r: (Session, Outcome)) {
    && r.0.matched == s.matched && r.0.toRequest == s.toRequest && !r.0.state.ServiceDetail?
    && (r.1.Sent? ==> !r.1.req.ServiceDetailReq? && !r.1.req.ServiceSelectionReq?)
  }

  /** Discovery and the detail loop lead to more details, to the selection or to the end. */
  predicate AmongServices(s: Session, r: (Session, Outcome)) {
    && r.0.timer == s.timer && r.0.sid == s.sid && r.0.evProcessing == s.evProcessing && r.0.offer == s.offer
    && (r.0.state.ServiceDetail? || r.0.state.ServiceSelection? ==> r.0.stop == s.stop)
    && (r.1.Sent? && r.1.req.ServiceSelectionReq? ==>
         r.0.selected.Some? && r.1.req.energy == Pick(r.0.selected.value.service, r.0.selected.value.parameterSet.id))
    && (r.0.state.ServiceDetail? || r.0.state.ServiceSelection? || r.0.state.SessionStop? || r.0.state.Terminated?)
    && (r.1.Sent? ==> !r.1.req.PowerDeliveryReq?)
  }

  function Go(s: Session, state: State, req: Request, wait: real): (Session, Outcome) {
    (s.(state := state, wait := wait), Sent(req))
  }

  function StopNow(s: Session): (Session, Outcome) {
    (s.(state := Terminated), Quit(Held(s.state), false))
  }

  function Crash(s: Session): (Session, Outcome) { (s.(state := Terminated), Raised) }

  function Step(s: Session, res: Response, env: Env): (r: (Session, Outcome))
    ensures Agrees(r)
    ensures s.state.ServiceDiscovery? || s.state.ServiceDetail? ==> AmongServices(s, r)
    ensures !s.state.ServiceDiscovery? && !s.state.ServiceDetail? ==> LeavesServices(s, r)
  {
    if s.state.Terminated? then (s, Raised)
    else if s.state.Welding? then OnWelding(s, env)   // this state never calls check_msg
    else if s.state.CertificateInstallation? then Crash(s)
    else if !Passes(s, res) then StopNow(s)
    else
      match s.state
      case SessionSetup => Go(s.(sid := res.sid), AuthorizationSetup, AuthorizationSetupReq, 2.0)
      case AuthorizationSetup => OnAuthorizationSetup(s, res.body.certInstallService, res.body.pncOffered, env)
      case Authorization => OnAuthorization(s, res.body.processing, env)
      case ServiceDiscovery => OnServiceDiscovery(s, res.body.renegotiation, res.body.energy, res.body.vas, env)
      case ServiceDetail => OnServiceDetail(s, res.body.service, res.body.sets, env)
      case ServiceSelection => OnServiceSelection(s)
      case ScheduleExchange => OnScheduleExchange(s, res.body.processing, Offer(res.body.tuples, res.body.goToPause), env)
      case PowerDelivery => OnPowerDelivery(s, env)
      case SessionStop => OnSessionStop(s)
      case AcParameters => Go(s, ScheduleExchange, ScheduleExchangeReq, 2.0)
      case DcParameters => Go(s, ScheduleExchange, ScheduleExchangeReq, 2.0)
      case AcLoop => OnLoop(s, res.body.status, env)
      case DcLoop(_) => OnLoop(s, res.body.status, env)
      case CableCheck(_) => OnCableCheck(s, res.body.processing, env)
      case PreCharge(_, _) => OnPreCharge(s, env)
  }

  function OnAuthorizationSetup(s: Session, install: bool, pncOffered: bool, env: Env): (r: (Session, Outcome))
    ensures Agrees(r) && LeavesServices(s, r)
  {
    if install && env.certInstallNeeded && env.oemKeyReadable then Go(s, CertificateInstallation, CertificateInstallationReq, 5.0)
    else
      var pnc := pncOffered && env.contractKeyReadable;
      Go(s.(pnc := pnc), Authorization, AuthorizationReq(pnc, pnc), 2.0)
  }

  function Min(a: real, b: real): real { if a <= b then a else b }

  /** The Ongoing timer: -1 until the first Ongoing response of a loop, then that response's time. */
  function Elapsed(s: Session, now: real): real { if s.timer >= 0.0 then now - s.timer else 0.0 }

  function Started(s: Session, now: real): Session { if s.timer >= 0.0 then s else s.(timer := now) }

  function OnAuthorization(s: Session, processing: Processing, env: Env): (r: (Session, Outcome))
    ensures Agrees(r) && LeavesServices(s, r)
  {
    if processing.Finished? then Go(s.(timer := -1.0), ServiceDiscovery, ServiceDiscoveryReq, 2.0)
    else if Elapsed(s, env.now) > OngoingTimeout then StopNow(s)
    else
      Go(Started(s, env.now), Authorization, AuthorizationReq(s.pnc, s.pnc), Min(2.0, OngoingTimeout - Elapsed(s, env.now)))
  }

  /** The offered services the car supports, one entry per equal pair, in offer order. */
  function Repeated(service: Service, supported: seq<Service>): seq<Service> {
    if supported == [] then []
    else
      var earlier := Repeated(service, supported[..|supported| - 1]);
      if supported[|supported| - 1] == service then earlier + [service] else earlier
  }

  function Matching(energy: seq<Service>, supported: seq<Service>): seq<Service> {
    if energy == [] then []
    else Matching(energy[..|energy| - 1], supported) + Repeated(energy[|energy| - 1], supported)
  }

  function Entries(services: seq<Service>, isEnergy: bool): (r: seq<MatchedService>)
    ensures |r| == |services|
    ensures forall i :: 0 <= i < |r| ==> r[i] == MatchedService(services[i], isEnergy, [])
  {
    if services == [] then []
    else Entries(services[..|services| - 1], isEnergy) + [MatchedService(services[|services| - 1], isEnergy, [])]
  }

  function OnServiceDiscovery(s: Session, renegotiation: bool, energy: seq<Service>, vas: seq<Service>, env: Env)
    : (r: (Session, Outcome))
    ensures Agrees(r) && AmongServices(s, r)
  {
    var found := Matching(energy, env.supported);
    var s1 := s.(renegotiationSupported := renegotiation,
                 matched := s.matched + Entries(found, true),
                 toRequest := s.toRequest + found);
    if s1.matched == [] then
      Go(s1.(stop := Some(ChargingSession.Terminate)), SessionStop, SessionStopReq(ChargingSession.Terminate), 2.0)
    else
      RequestDetail(s1.(matched := s1.matched + Entries(vas, false)))
  }

  /** Pops the last service from the list and asks for its details. */
  function RequestDetail(s: Session): (r: (Session, Outcome))
    ensures Agrees(r) && AmongServices(s, r)
  {
    if s.toRequest == [] then Crash(s)
    else
      var last := |s.toRequest| - 1;
      Go(s.(toRequest := s.toRequest[..last]), ServiceDetail, ServiceDetailReq(s.toRequest[last]), 5.0)
  }

  function Stored(m: MatchedService, service: Service, sets: seq<ParameterSet>): MatchedService {
    if m.service == service then m.(sets := sets) else m
  }

  function StoreAll(matched: seq<MatchedService>, service: Service, sets: seq<ParameterSet>): (r: seq<MatchedService>)
    ensures |r| == |matched|
    ensures forall i :: 0 <= i < |r| ==> r[i] == Stored(matched[i], service, sets)
  {
    if matched == [] then []
    else
      var last := |matched| - 1;
      StoreAll(matched[..last], service, sets) + [Stored(matched[last], service, sets)]
  }

  function OnServiceDetail(s: Session, service: Service, sets: seq<ParameterSet>, env: Env): (r: (Session, Outcome))
    ensures Agrees(r) && AmongServices(s, r)
  {
    AfterDetail(s.(matched := StoreAll(s.matched, service, sets)), env)
  }

  /** The next pending detail; once there is none, the first matched service and its first set are selected. */
  function AfterDetail(s: Session, env: Env): (r: (Session, Outcome))
    ensures Agrees(r) && AmongServices(s, r)
  {
    if s.toRequest != [] then RequestDetail(s)
    else if s.matched == [] || s.matched[0].sets == [] then Crash(s)
    else
      var chosen := SelectedService(s.matched[0].service, s.matched[0].sets[0]);
      var s' := s.(selected := Some(chosen));
      if ModeOf(chosen.parameterSet).None? then
        Go(s', SessionStop, SessionStopReq(ChargingSession.Terminate), 2.0)
      else
        Go(s'.(mode := ModeOf(chosen.parameterSet)), ServiceSelection,
           ServiceSelectionReq(Pick(chosen.service, chosen.parameterSet.id), SelectVas(s.matched, env.diagnostic)), 2.0)
  }

  /** The parameter set id of a value-added service whose details were never requested is 1. */
  function VasPick(m: MatchedService): Pick { Pick(m.service, if m.sets == [] then 1 else m.sets[0].id) }

  /** All value-added services, or the first one with the requested diagnostic id. */
  function SelectVas(matched: seq<MatchedService>, diagnostic: Option<Service>): seq<Pick> {
    if matched == [] then []
    else if matched[0].isEnergy then SelectVas(matched[1..], diagnostic)
    else if diagnostic.None? then [VasPick(matched[0])] + SelectVas(matched[1..], diagnostic)
    else if matched[0].service == diagnostic.value then [VasPick(matched[0])]
    else SelectVas(matched[1..], diagnostic)
  }

  /** A service that is neither AC nor DC is only logged: no message is built, which raises. */
  function OnServiceSelection(s: Session): (r: (Session, Outcome))
    ensures Agrees(r) && LeavesServices(s, r) && !Early(r.0.state)
  {
    if s.selected.None? then Crash(s)
    else if IsAc(s.selected.value.service) then Go(s.(isAc := true), AcParameters, AcParametersReq, 2.0)
    else if IsDc(s.selected.value.service) then Go(s.(isAc := false), DcParameters, DcParametersReq, 2.0)
    else Crash(s)
  }

  /** The tuple id of the EV's power profile, when the profile is ready. */
  datatype Profile = NotReady | Ready(tupleId: Option<int>, progress: ChargeProgress) | NoSchedule

  function BuildProfile(s: Session, offer: Offer, env: Env): Profile {
    if !env.profileReady then NotReady
    else
      var progress := if offer.goToPause then Stop else Start;
      if s.mode != Some(Scheduled) then Ready(None, progress)
      else if offer.tuples.None? || offer.tuples.value == [] then NoSchedule
      else Ready(Some(offer.tuples.value[0]), progress)
  }

  function OnScheduleExchange(s: Session, processing: Processing, offer: Offer, env: Env): (r: (Session, Outcome))
    ensures Agrees(r) && LeavesServices(s, r) && !Early(r.0.state)
  {
    if processing.Ongoing? then Go(s, ScheduleExchange, ScheduleExchangeReq, 2.0)
    else
      var profile := BuildProfile(s, offer, env);
      if profile.NoSchedule? then Crash(s)
      else
        var s' := s.(offer := offer, evProcessing := if profile.NotReady? then Ongoing else s.evProcessing);
        if s.isAc then Go(s', PowerDelivery, DeliveryRequest(profile), 2.0)
        else Go(s', CableCheck(None), CableCheckReq, 2.0)
  }

  function DeliveryRequest(profile: Profile): Request
    requires !profile.NoSchedule?
  {
    match profile
    case NotReady => PowerDeliveryReq(Ongoing, Start, None)
    case Ready(tupleId, progress) => PowerDeliveryReq(Finished, progress, tupleId)
  }

  /** Recomputes the profile from the stored schedule exchange response. */
  function DeliverPower(s: Session, env: Env): (r: (Session, Outcome))
    ensures Agrees(r) && LeavesServices(s, r) && !Early(r.0.state)
  {
    var profile := BuildProfile(s, s.offer, env);
    if profile.NoSchedule? then Crash(s)
    else
      Go(s.(evProcessing := if profile.NotReady? then Ongoing else Finished), PowerDelivery, DeliveryRequest(profile), 2.0)
  }

  function OnPowerDelivery(s: Session, env: Env): (r: (Session, Outcome))
    ensures Agrees(r) && LeavesServices(s, r) && !Early(r.0.state)
  {
    if s.evProcessing.Ongoing? then DeliverPower(s, env)
    else if s.selected.None? then Crash(s)
    else if s.stop == Some(ChargingSession.Terminate) || s.stop == Some(ServiceRenegotiation) then
      LeaveLoop(s, s.selected.value.service, s.stop.value)
    else
      EnterLoop(s, s.selected.value.service)
  }

  function LeaveLoop(s: Session, service: Service, stop: ChargingSession): (r: (Session, Outcome))
    ensures Agrees(r) && LeavesServices(s, r) && !Early(r.0.state)
  {
    if IsDc(service) then Go(s, Welding(false, None), WeldingReq(Ongoing), 2.0)
    else Go(s, SessionStop, SessionStopReq(stop), 2.0)
  }

  function EnterLoop(s: Session, service: Service): (r: (Session, Outcome))
    ensures Agrees(r) && LeavesServices(s, r) && !Early(r.0.state)
  {
    if IsAc(service) then Go(s, AcLoop, AcLoopReq, 0.5)
    else if IsDc(service) then Go(s, DcLoop(None), DcLoopReq, 0.5)
    else Crash(s)
  }

  /** Renegotiation sets a next state without a message, which raises; otherwise the session ends. */
  function OnSessionStop(s: Session): (r: (Session, Outcome))
    ensures Agrees(r) && LeavesServices(s, r) && !Early(r.0.state)
  {
    if s.stop.None? then Crash(s)
    else if s.renegotiationSupported && s.renegotiationRequested then Crash(s.(renegotiationRequested := false))
    else (s.(state := Terminated), Quit(None, true))
  }

  function StopCharging(s: Session, renegotiation: bool): (r: (Session, Outcome))
    ensures Agrees(r) && LeavesServices(s, r) && !Early(r.0.state)
  {
    Go(s.(renegotiationRequested := renegotiation || s.renegotiationRequested,
          stop := Some(if renegotiation then ServiceRenegotiation else ChargingSession.Terminate)),
       PowerDelivery, PowerDeliveryReq(Finished, Stop, None), 2.0)
  }

  function OnLoop(s: Session, status: Option<EvseNotification>, env: Env): (r: (Session, Outcome))
    ensures Agrees(r) && LeavesServices(s, r) && !Early(r.0.state)
  {
    if status.Some? then
      if status.value.NotifyOther? then Crash(s) else StopCharging(s, status.value.NotifyServiceRenegotiation?)
    else if !env.continueCharging then StopCharging(s, false)
    else if s.state.DcLoop? then Go(s, DcLoop(Some(DcLoopReq)), DcLoopReq, 0.5)
    else if s.selected.Some? && IsAc(s.selected.value.service) then Go(s, AcLoop, AcLoopReq, 0.5)
    else Crash(s)
  }

  function OnCableCheck(s: Session, processing: Processing, env: Env): (r: (Session, Outcome))
    ensures Agrees(r) && LeavesServices(s, r) && !Early(r.0.state)
  {
    if processing.Finished? then Go(s.(timer := -1.0), PreCharge(false, None), PreChargeReq(Ongoing), 2.0)
    else if Elapsed(s, env.now) > CableCheckTimeout then StopNow(s)
    else Go(Started(s, env.now), CableCheck(Some(CableCheckReq)), CableCheckReq, 2.0)
  }

  /** Precharge is left only when the test holds and a precharge message was built here before. */
  function OnPreCharge(s: Session, env: Env): (r: (Session, Outcome))
    ensures Agrees(r) && LeavesServices(s, r) && !Early(r.0.state)
  {
    if !s.state.PreCharge? then Crash(s)
    else if env.precharged && s.state.builtOnce then DeliverPower(s, env)
    else
      var req := PreChargeReq(if env.stillPrecharged then Finished else Ongoing);
      Go(s, PreCharge(true, Some(req)), req, 2.0)
  }

  function OnWelding(s: Session, env: Env): (r: (Session, Outcome))
    requires s.state.Welding?
    ensures Agrees(r) && LeavesServices(s, r) && !Early(r.0.state)
  {
    if s.timer > 0.0 && env.now - s.timer > OngoingTimeout then StopNow(s)
    else
      var s' := if s.timer == -1.0 then s.(timer := env.now) else s;
      if s.state.complete then Go(s', SessionStop, SessionStopReq(ChargingSession.Terminate), 2.0)
      else
        var req := WeldingReq(if env.weldingFinished then Finished else Ongoing);
        Go(s', Welding(env.weldingFinished, Some(req)), req, 2.0)
  }

  /** A first service discovery: the session stops without a match, else the last match's details come first. */
  lemma {:induction false} DiscoveryEffect(s: Session, renegotiation: bool, energy: seq<Service>, vas: seq<Service>, env: Env)
    requires s.matched == [] && s.toRequest == []
    ensures var found := Matching(energy, env.supported);
      var last := |found| - 1;
      var (s', out) := OnServiceDiscovery(s, renegotiation, energy, vas, env);
      && (found == [] ==> s'.state.SessionStop? && out == Sent(SessionStopReq(ChargingSession.Terminate)))
      && (found != [] ==>
           && out == Sent(ServiceDetailReq(found[last]))
           && s' == s.(renegotiationSupported := renegotiation, matched := Entries(found, true) + Entries(vas, false),
                       toRequest := found[..last], state := ServiceDetail, wait := 5.0))
  {
    var found := Matching(energy, env.supported);
    assert [] + Entries(found, true) == Entries(found, true) && [] + found == found;
  }

  lemma NextDetailEffect(s: Session, env: Env)
    requires s.toRequest != []
    ensures var (s', out) := AfterDetail(s, env);
      var last := |s.toRequest| - 1;
      && s'.state.ServiceDetail? && out == Sent(ServiceDetailReq(s.toRequest[last]))
      && s'.toRequest == s.toRequest[..last] && s'.matched == s.matched
  {
  }

  lemma SelectionEffect(s: Session, env: Env)
    requires s.toRequest == [] && s.matched != [] && s.matched[0].sets != []
    ensures var service, set0 := s.matched[0].service, s.matched[0].sets[0];
      var s' := s.(selected := Some(SelectedService(service, set0)));
      AfterDetail(s, env) ==
        if set0.modes == [] then Go(s', State.SessionStop, SessionStopReq(ChargingSession.Terminate), 2.0)
        else
          Go(s'.(mode := Some(set0.modes[|set0.modes| - 1])), State.ServiceSelection,
             ServiceSelectionReq(Pick(service, set0.id), SelectVas(s.matched, env.diagnostic)), 2.0)
  {
  }

  lemma LastDetailEffect(s: Session, env: Env)
    requires s.toRequest == []
    ensures var (s', out) := AfterDetail(s, env);
      && !s'.state.ServiceDetail?
      && (out.Sent? && out.req.ServiceSelectionReq? ==>
           && s.matched != [] && s.matched[0].sets != [] && ModeOf(s.matched[0].sets[0]).Some?
           && s'.selected == Some(SelectedService(s.matched[0].service, s.matched[0].sets[0]))
           && s'.mode == ModeOf(s.matched[0].sets[0])
           && out.req.vas == SelectVas(s.matched, env.diagnostic)
           && out.req.energy == Pick(s.matched[0].service, s.matched[0].sets[0].id))
      && (out.Sent? ==> !out.req.ServiceDetailReq?)
  {
  }

  /** What the end of charging leaves alone. */
  predicate Same(s: Session, s': Session) {
    && s'.sid == s.sid && s'.selected == s.selected && s'.mode == s.mode && s'.isAc == s.isAc
    && s'.offer == s.offer && s'.timer == s.timer
  }

  lemma EnterOutcome(s: Session, service: Service)
    ensures var (s', out) := EnterLoop(s, service);
      out.Sent? ==>
        && Same(s, s') && s'.stop == s.stop && s'.evProcessing == s.evProcessing
        && if IsAc(service) then s'.state.AcLoop? else IsDc(service) && s'.state == State.DcLoop(None)
  {
  }

  lemma LeaveOutcome(s: Session, service: Service, stop: ChargingSession)
    ensures var (s', out) := LeaveLoop(s, service, stop);
      && Same(s, s') && s'.stop == s.stop && s'.evProcessing == s.evProcessing
      && (if IsDc(service) then s'.state == State.Welding(false, None) else s'.state.SessionStop?)
  {
  }

  lemma RepeatOutcome(s: Session, env: Env)
    ensures var (s', out) := DeliverPower(s, env);
      out.Sent? ==>
        && Same(s, s') && s'.stop == s.stop && s'.state.PowerDelivery?
        && (s'.evProcessing.Ongoing? || s'.evProcessing.Finished?)
  {
  }

  /** A power delivery repeats while the car is not ready, and otherwise leads to a loop or, after a stop, to the end. */
  lemma DeliveryOutcome(s: Session, env: Env)
    ensures var (s', out) := OnPowerDelivery(s, env);
      out.Sent? ==>
        && Same(s, s') && s'.stop == s.stop
        && (if s.evProcessing.Ongoing? then s'.state.PowerDelivery? && (s'.evProcessing.Ongoing? || s'.evProcessing.Finished?)
            else
              && s'.evProcessing == s.evProcessing && s.selected.Some?
              && (if s.stop.Some? && !s.stop.value.Pause? then
                    if IsDc(s.selected.value.service) then s'.state == State.Welding(false, None) else s'.state.SessionStop?
                  else if IsAc(s.selected.value.service) then s'.state.AcLoop?
                  else IsDc(s.selected.value.service) && s'.state.DcLoop?))
  {
    hide DeliverPower;
    hide LeaveLoop;
    hide EnterLoop;
    RepeatOutcome(s, env);
    if s.selected.Some? {
      EnterOutcome(s, s.selected.value.service);
      if s.stop.Some? {
        LeaveOutcome(s, s.selected.value.service, s.stop.value);
      }
    }
  }

  /** A charge loop goes on as the controller wants, or is stopped. */
  lemma LoopOutcome(s: Session, status: Option<EvseNotification>, env: Env)
    requires s.state.AcLoop? || s.state.DcLoop?
    ensures var (s', out) := OnLoop(s, status, env);
      out.Sent? ==>
        && Same(s, s') && s'.evProcessing == s.evProcessing
        && (|| (s'.state.PowerDelivery? && s'.stop.Some? && !s'.stop.value.Pause? && out.req == PowerDeliveryReq(Finished, Stop, None))
            || (s'.stop == s.stop && env.continueCharging
                && if s.state.DcLoop? then s'.state == State.DcLoop(Some(DcLoopReq)) else s'.state.AcLoop?))
  {
  }

  /** Why a charge loop stops, and what is remembered of it. */
  lemma LoopReaction(s: Session, status: Option<EvseNotification>, env: Env)
    requires s.state.DcLoop? || (s.state.AcLoop? && s.selected.Some? && IsAc(s.selected.value.service))
    ensures var (s', out) := OnLoop(s, status, env);
      var renegotiates := status == Some(NotifyServiceRenegotiation);
      if status == Some(NotifyOther) then out.Raised? && s'.state.Terminated?
      else if status.Some? || !env.continueCharging then
        && out == Sent(PowerDeliveryReq(Finished, Stop, None))
        && s' == s.(state := State.PowerDelivery, wait := 2.0,
                    stop := Some(if renegotiates then ServiceRenegotiation else ChargingSession.Terminate),
                    renegotiationRequested := renegotiates || s.renegotiationRequested)
      else
        && out == Sent(if s.state.DcLoop? then DcLoopReq else AcLoopReq)
        && s' == s.(state := if s.state.DcLoop? then State.DcLoop(Some(DcLoopReq)) else State.AcLoop, wait := 0.5)
  {
  }

  // One response in each state: what `Step` comes down to, for the proofs about whole runs.

  lemma SessionSetupStep(s: Session, res: Response, env: Env)
    requires s.state.SessionSetup?
    ensures Step(s, res, env) == if Passes(s, res) then Go(s.(sid := res.sid), State.AuthorizationSetup, AuthorizationSetupReq, 2.0) else StopNow(s)
  {
  }

  lemma AuthorizationSetupStep(s: Session, res: Response, env: Env)
    requires s.state.AuthorizationSetup?
    ensures Step(s, res, env) == if Passes(s, res) then OnAuthorizationSetup(s, res.body.certInstallService, res.body.pncOffered, env) else StopNow(s)
  {
  }

  lemma AuthorizationStep(s: Session, res: Response, env: Env)
    requires s.state.Authorization?
    ensures Step(s, res, env) == if Passes(s, res) then OnAuthorization(s, res.body.processing, env) else StopNow(s)
  {
  }

  lemma ServiceDiscoveryStep(s: Session, res: Response, env: Env)
    requires s.state.ServiceDiscovery?
    ensures Step(s, res, env) == if Passes(s, res) then OnServiceDiscovery(s, res.body.renegotiation, res.body.energy, res.body.vas, env) else StopNow(s)
  {
  }

  lemma ServiceDetailStep(s: Session, res: Response, env: Env)
    requires s.state.ServiceDetail?
    ensures Step(s, res, env) == if Passes(s, res) then OnServiceDetail(s, res.body.service, res.body.sets, env) else StopNow(s)
  {
  }

  lemma ServiceSelectionStep(s: Session, res: Response, env: Env)
    requires s.state.ServiceSelection?
    ensures Step(s, res, env) == if Passes(s, res) then OnServiceSelection(s) else StopNow(s)
  {
  }

  lemma ChargeParametersStep(s: Session, res: Response, env: Env)
    requires s.state.AcParameters? || s.state.DcParameters?
    ensures Step(s, res, env) == if Passes(s, res) then Go(s, State.ScheduleExchange, ScheduleExchangeReq, 2.0) else StopNow(s)
  {
  }

  lemma ScheduleExchangeStep(s: Session, res: Response, env: Env)
    requires s.state.ScheduleExchange?
    ensures Step(s, res, env) == if Passes(s, res) then OnScheduleExchange(s, res.body.processing, Offer(res.body.tuples, res.body.goToPause), env) else StopNow(s)
  {
  }

  lemma CableCheckStep(s: Session, res: Response, env: Env)
    requires s.state.CableCheck?
    ensures Step(s, res, env) == if Passes(s, res) then OnCableCheck(s, res.body.processing, env) else StopNow(s)
  {
  }

  lemma PreChargeStep(s: Session, res: Response, env: Env)
    requires s.state.PreCharge?
    ensures Step(s, res, env) == if Passes(s, res) then OnPreCharge(s, env) else StopNow(s)
  {
  }

  lemma PowerDeliveryStep(s: Session, res: Response, env: Env)
    requires s.state.PowerDelivery?
    ensures Step(s, res, env) == if Passes(s, res) then OnPowerDelivery(s, env) else StopNow(s)
  {
  }

  lemma LoopStep(s: Session, res: Response, env: Env)
    requires s.state.AcLoop? || s.state.DcLoop?
    ensures Step(s, res, env) == if Passes(s, res) then OnLoop(s, res.body.status, env) else StopNow(s)
  {
  }

  lemma SessionStopStep(s: Session, res: Response, env: Env)
    requires s.state.SessionStop?
    ensures Step(s, res, env) == if Passes(s, res) then OnSessionStop(s) else StopNow(s)
  {
  }

  /** A response that does not pass stops every state that checks it. */
  lemma StoppedStep(s: Session, res: Response, env: Env)
    requires !Passes(s, res) && !s.state.Welding? && !s.state.CertificateInstallation? && !s.state.Terminated?
    ensures Step(s, res, env) == StopNow(s)
  {
  }

  /** The two states that never look at the response, and the end. */
  lemma UncheckedStep(s: Session, res: Response, env: Env)
    requires s.state.Welding? || s.state.CertificateInstallation? || s.state.Terminated?
    ensures Step(s, res, env) ==
      if s.state.Welding? then OnWelding(s, env) else if s.state.CertificateInstallation? then Crash(s) else (s, Raised)
  {
  }
}
