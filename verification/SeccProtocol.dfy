/**
 The SECC side of ISO 15118-20 as a transition function.

 The program keeps one state object per session and lets a handler build a fresh state
 object for a message it does not answer itself. The specification says the same thing
 without objects: `Accepts` is the accept table, `Owner` names the state that answers,
 and `Answer` is what that state replies and where it goes.
 */
module SeccProtocol {
  import opened Options
  import opened Messages

  datatype State =
    | SessionSetup
    | AuthorizationSetup(expecting: bool)
    | CertificateInstallation
    | Authorization(expecting: bool)
    | ServiceDiscovery(expecting: bool)
    | ServiceDetail(expecting: bool)
    | ServiceSelection
    | ScheduleExchange
    | PowerDelivery
    | SessionStop
    | AcParameters
    | AcLoop
    | DcParameters
    | CableCheck(started: bool, contactorsClosed: bool)
    | PreCharge(expecting: bool)
    | DcLoop(expecting: bool)
    | Welding(expecting: bool)
    | Terminated

  datatype AuthorizationStatus = Accepted | StillOngoing | Rejected

  datatype Isolation = Valid | Warning | Invalid | Fault | NoImd

  datatype VasOffer = VasOffer(service: Service, sets: seq<ParameterSet>)

  /** The answers of the charging station, the clock and the random source to one message. */
  datatype Env = Env(
    freshSid: string,
    certInstallService: bool,
    pncOffered: bool,
    signatureValid: bool,
    authCodeFailed: bool,
    authorization: AuthorizationStatus,
    renegotiation: bool,
    energyServices: seq<Service>,
    vas: seq<VasOffer>,
    parameterSets: seq<ParameterSet>,
    parametersKnown: bool,
    scheduleParamsFit: bool,
    readyToCharge: bool,
    scheduleTuples: seq<int>,
    standbyAllowed: bool,
    contactorClosed: Option<bool>,
    contactorOpened: bool,
    isolation: Isolation,
    commandAccepted: bool,
    status: Option<EvseNotification>,
    evseVoltage: real,
    maxPower: real)

  datatype Session = Session(
    state: State,
    sid: string,
    matched: seq<MatchedService>,
    selected: Option<SelectedService>,
    mode: Option<ControlMode>,
    offeredTuples: seq<int>,
    hlc: bool)

  /** A message handler replies, or raises an exception and replies nothing. */
  datatype Outcome = Replied(res: Response) | Raised

  const Initial := Session(SessionSetup, "", [], None, None, [], false)

  /** With `expect_first`, only the head of the list of expected kinds is accepted. */
  predicate FirstOnly(state: State) {
    match state
    case SessionSetup => true
    case AuthorizationSetup(expecting) => expecting
    case Authorization(expecting) => expecting
    case ServiceDiscovery(expecting) => expecting
    case ServiceDetail(expecting) => expecting
    case PreCharge(expecting) => expecting
    case DcLoop(expecting) => expecting
    case Welding(expecting) => expecting
    case _ => false
  }

  /** The kind a state answers itself, the head of its list. */
  function OwnKind(state: State): Kind
    requires !state.Terminated?
  {
    match state
    case SessionSetup => KSessionSetup
    case AuthorizationSetup(_) => KAuthorizationSetup
    case CertificateInstallation => KCertificateInstallation
    case Authorization(_) => KAuthorization
    case ServiceDiscovery(_) => KServiceDiscovery
    case ServiceDetail(_) => KServiceDetail
    case ServiceSelection => KServiceSelection
    case ScheduleExchange => KScheduleExchange
    case PowerDelivery => KPowerDelivery
    case SessionStop => KSessionStop
    case AcParameters => KAcParameters
    case AcLoop => KAcLoop
    case DcParameters => KDcParameters
    case CableCheck(_, _) => KCableCheck
    case PreCharge(_) => KPreCharge
    case DcLoop(_) => KDcLoop
    case Welding(_) => KWelding
  }

  /** The other kinds it accepts once it no longer insists on the first. */
  predicate AlsoAccepts(state: State, kind: Kind) {
    match state
    case AuthorizationSetup(_) => kind.KAuthorization? || kind.KCertificateInstallation? || kind.KSessionStop?
    case Authorization(_) => kind.KCertificateInstallation? || kind.KServiceDiscovery? || kind.KSessionStop?
    case ServiceDiscovery(_) => kind.KServiceDetail? || kind.KSessionStop?
    case ServiceDetail(_) => kind.KServiceSelection? || kind.KSessionStop?
    case ServiceSelection => kind.KSessionStop?
    case ScheduleExchange => kind.KCableCheck? || kind.KPowerDelivery? || kind.KSessionStop?
    case PowerDelivery => kind.KWelding? || kind.KSessionStop?
    case AcParameters => kind.KSessionStop?
    case AcLoop => kind.KPowerDelivery? || kind.KSessionStop?
    case DcParameters => kind.KSessionStop?
    case CableCheck(_, _) => kind.KSessionStop?
    case PreCharge(_) => kind.KPowerDelivery?
    case DcLoop(_) => kind.KPowerDelivery?
    case Welding(_) => kind.KSessionStop?
    case _ => false
  }

  predicate Accepts(state: State, kind: Kind) {
    !state.Terminated? && (kind == OwnKind(state) || (!FirstOnly(state) && AlsoAccepts(state, kind)))
  }

  /** `check_msg`: the right type, and the session id for everything after SessionSetupReq. */
  predicate Passes(s: Session, sid: string, req: Request) {
    Accepts(s.state, KindOf(req)) && (req.SessionSetupReq? || sid == s.sid)
  }

  /** The state object built for a message of another kind. */
  function Fresh(kind: Kind): State {
    match kind
    case KSessionSetup => SessionSetup
    case KAuthorizationSetup => AuthorizationSetup(true)
    case KCertificateInstallation => CertificateInstallation
    case KAuthorization => Authorization(true)
    case KServiceDiscovery => ServiceDiscovery(true)
    case KServiceDetail => ServiceDetail(true)
    case KServiceSelection => ServiceSelection
    case KScheduleExchange => ScheduleExchange
    case KPowerDelivery => PowerDelivery
    case KSessionStop => SessionStop
    case KAcParameters => AcParameters
    case KAcLoop => AcLoop
    case KDcParameters => DcParameters
    case KCableCheck => CableCheck(false, false)
    case KPreCharge => PreCharge(true)
    case KDcLoop => DcLoop(true)
    case KWelding => Welding(true)
  }

  /** The state that answers an accepted message. */
  function Owner(state: State, kind: Kind): State
    requires Accepts(state, kind)
  {
    if kind == OwnKind(state) then state else Fresh(kind)
  }

  function Ok(s: Session, body: ResponseBody): Outcome { Replied(Response(s.sid, false, body)) }

  /** `stop_state_machine`: a failed response of the request's type, then Terminate. */
  function Refuse(s: Session, req: Request): (Session, Outcome) {
    (s.(state := Terminated), Replied(Response(s.sid, true, FailedBody(req))))
  }

  /** The same with a warning code, which the other side does not take for a failure. */
  function Decline(s: Session, req: Request): (Session, Outcome) {
    (s.(state := Terminated), Replied(Response(s.sid, false, FailedBody(req))))
  }

  function Crash(s: Session): (Session, Outcome) { (s.(state := Terminated), Raised) }

  /** Every reply is of the request's kind and carries the session's id. */
  predicate Answers(r: (Session, Outcome), kind: Kind) {
    r.1.Replied? ==> ResponseKind(r.1.res.body) == kind && r.1.res.sid == r.0.sid
  }

  function Step(s: Session, sid: string, req: Request, env: Env): (r: (Session, Outcome))
    ensures Answers(r, KindOf(req))
  {
    if s.state.Terminated? then (s, Raised)
    else if s.state.CertificateInstallation? then Crash(s)   // this state never calls check_msg
    else if !Passes(s, sid, req) then Refuse(s, req)
    else Answer(s.(state := Owner(s.state, KindOf(req))), sid, req, env)
  }

  /** Only session setup gives out a new session id. */
  lemma IdKept(s: Session, sid: string, req: Request, env: Env)
    requires !req.SessionSetupReq? || !Passes(s, sid, req)
    ensures Step(s, sid, req, env).0.sid == s.sid
  {
  }

  function Answer(s: Session, sid: string, req: Request, env: Env): (r: (Session, Outcome))
    ensures Answers(r, KindOf(req))
  {
    match req
    case SessionSetupReq => AnswerSessionSetup(s, sid, env)
    case AuthorizationSetupReq => AnswerAuthorizationSetup(s, env)
    case CertificateInstallationReq => Crash(s)
    case AuthorizationReq(pnc, signed) => AnswerAuthorization(s, pnc, signed, env)
    case ServiceDiscoveryReq => AnswerServiceDiscovery(s, env)
    case ServiceDetailReq(service) => AnswerServiceDetail(s, service, env)
    case ServiceSelectionReq(energy, vas) => AnswerServiceSelection(s, energy, vas)
    case ScheduleExchangeReq => AnswerScheduleExchange(s, env)
    case PowerDeliveryReq(evProcessing, progress, tupleId) =>
      AnswerPowerDelivery(s, evProcessing, progress, tupleId, env)
    case SessionStopReq(session) => AnswerSessionStop(s, session, env)
    case _ => AnswerEnergy(s, req, env)
  }

  /** The messages of the AC and DC message sets. */
  function AnswerEnergy(s: Session, req: Request, env: Env): (r: (Session, Outcome))
    requires req.AcParametersReq? || req.AcLoopReq? || req.DcParametersReq? || req.CableCheckReq? || req.PreChargeReq?
      || req.DcLoopReq? || req.WeldingReq?
    ensures Answers(r, KindOf(req))
  {
    match req
    case AcParametersReq => AnswerParameters(s, req, AcParametersRes, env)
    case AcLoopReq => AnswerAcLoop(s, env)
    case DcParametersReq => AnswerParameters(s, req, DcParametersRes(env.maxPower), env)
    case CableCheckReq => AnswerCableCheck(s, env)
    case PreChargeReq(evProcessing) => AnswerPreCharge(s, evProcessing, env)
    case DcLoopReq => AnswerDcLoop(s, env)
    case WeldingReq(_) => AnswerWelding(s)
  }

  /** "00" asks for a new session; the stored id resumes it; anything else gets a new id too. */
  function AnswerSessionSetup(s: Session, sid: string, env: Env): (r: (Session, Outcome))
    ensures Answers(r, KSessionSetup)
  {
    var sid' := if sid != "00" && sid == s.sid then s.sid else env.freshSid;
    var s' := s.(sid := sid', state := AuthorizationSetup(true));
    (s', Ok(s', SessionSetupRes))
  }

  function AnswerAuthorizationSetup(s: Session, env: Env): (r: (Session, Outcome))
    ensures Answers(r, KAuthorizationSetup)
  {
    (s.(state := AuthorizationSetup(false)), Ok(s, AuthorizationSetupRes(env.certInstallService, env.pncOffered)))
  }

  function AnswerAuthorization(s: Session, pnc: bool, signed: bool, env: Env): (r: (Session, Outcome))
    ensures Answers(r, KAuthorization)
  {
    if signed && !env.signatureValid then Refuse(s, AuthorizationReq(pnc, signed))
    else
      var processing :=
        if !env.authorization.StillOngoing? then Finished else if pnc then Ongoing else WaitingForCustomer;
      (s.(state := Authorization(!processing.Finished?)),
       Replied(Response(s.sid, env.authCodeFailed, AuthorizationRes(processing))))
  }

  function Offered(services: seq<Service>): (matched: seq<MatchedService>)
    ensures |matched| == |services|
    ensures forall i :: 0 <= i < |matched| ==> matched[i] == MatchedService(services[i], true, [])
  {
    if services == [] then [] else [MatchedService(services[0], true, [])] + Offered(services[1..])
  }

  function OfferedVas(vas: seq<VasOffer>): (matched: seq<MatchedService>)
    ensures |matched| == |vas|
    ensures forall i :: 0 <= i < |matched| ==> matched[i] == MatchedService(vas[i].service, false, vas[i].sets)
  {
    if vas == [] then [] else [MatchedService(vas[0].service, false, vas[0].sets)] + OfferedVas(vas[1..])
  }

  function VasServices(vas: seq<VasOffer>): (services: seq<Service>)
    ensures |services| == |vas|
    ensures forall i :: 0 <= i < |vas| ==> services[i] == vas[i].service
  {
    if vas == [] then [] else [vas[0].service] + VasServices(vas[1..])
  }

  function AnswerServiceDiscovery(s: Session, env: Env): (r: (Session, Outcome))
    ensures Answers(r, KServiceDiscovery)
  {
    (s.(state := ServiceDiscovery(false), matched := s.matched + Offered(env.energyServices) + OfferedVas(env.vas)),
     Ok(s, ServiceDiscoveryRes(env.renegotiation, env.energyServices, VasServices(env.vas))))
  }

  /** The first list entry with the requested id gets the parameter sets. */
  function StoreFirst(matched: seq<MatchedService>, service: Service, sets: seq<ParameterSet>): (r: seq<MatchedService>)
    ensures |r| == |matched|
    ensures forall i :: 0 <= i < |r| ==> r[i] == matched[i] || (r[i] == matched[i].(sets := sets) && r[i].service == service)
  {
    if matched == [] then []
    else if matched[0].service == service then [matched[0].(sets := sets)] + matched[1..]
    else [matched[0]] + StoreFirst(matched[1..], service, sets)
  }

  predicate Lists(matched: seq<MatchedService>, service: Service) {
    exists i :: 0 <= i < |matched| && matched[i].service == service
  }

  function AnswerServiceDetail(s: Session, service: Service, env: Env): (r: (Session, Outcome))
    ensures Answers(r, KServiceDetail)
  {
    (s.(state := ServiceDetail(false), matched := StoreFirst(s.matched, service, env.parameterSets)),
     Replied(Response(s.sid, !Lists(s.matched, service), ServiceDetailRes(service, env.parameterSets))))
  }

  /** Some offered service with this id has a parameter set with this id. */
  predicate PairOffered(matched: seq<MatchedService>, pick: Pick) {
    exists i, j :: 0 <= i < |matched| && 0 <= j < |matched[i].sets|
      && matched[i].service == pick.service && matched[i].sets[j].id == pick.setId
  }

  predicate AllOffered(matched: seq<MatchedService>, picks: seq<Pick>) {
    forall k :: 0 <= k < |picks| ==> PairOffered(matched, picks[k])
  }

  function FirstSet(sets: seq<ParameterSet>, setId: int): (r: Option<ParameterSet>)
    ensures r.Some? ==> r.value in sets && r.value.id == setId
    ensures r.None? <==> forall j :: 0 <= j < |sets| ==> sets[j].id != setId
  {
    if sets == [] then None
    else if sets[0].id == setId then Some(sets[0])
    else FirstSet(sets[1..], setId)
  }

  lemma {:induction false} FirstSetIsFirst(sets: seq<ParameterSet>, setId: int, k: nat)
    requires k < |sets| && sets[k].id == setId && forall j :: 0 <= j < k ==> sets[j].id != setId
    ensures FirstSet(sets, setId) == Some(sets[k])
  {
    if k > 0 {
      assert sets[0].id != setId;
      FirstSetIsFirst(sets[1..], setId, k - 1);
    }
  }

  /** What the loop over the matched services leaves in the session: the last match wins. */
  function Chosen(matched: seq<MatchedService>, pick: Pick): (r: Option<SelectedService>)
    ensures r.Some? <==> PairOffered(matched, pick)
    ensures r.Some? ==> r.value.service == pick.service && r.value.parameterSet.id == pick.setId
  {
    if matched == [] then None
    else
      var n := |matched| - 1;
      var here := if matched[n].service == pick.service then FirstSet(matched[n].sets, pick.setId) else None;
      var earlier := Chosen(matched[..n], pick);
      if here.Some? then
        var j :| 0 <= j < |matched[n].sets| && matched[n].sets[j] == here.value;
        assert PairOffered(matched, pick);
        Some(SelectedService(pick.service, here.value))
      else
        assert PairOffered(matched[..n], pick) ==> PairOffered(matched, pick);
        earlier
  }

  /** The control mode left by the same loop: a set without the parameter leaves it alone. */
  function ChosenMode(matched: seq<MatchedService>, pick: Pick, mode: Option<ControlMode>): Option<ControlMode> {
    if matched == [] then mode
    else
      var n := |matched| - 1;
      var here := if matched[n].service == pick.service then FirstSet(matched[n].sets, pick.setId) else None;
      if here.Some? && ModeOf(here.value).Some? then ModeOf(here.value)
      else ChosenMode(matched[..n], pick, mode)
  }

  /** What the loop finds in one matched service. */
  function SetHere(m: MatchedService, pick: Pick): Option<ParameterSet> {
    if m.service == pick.service then FirstSet(m.sets, pick.setId) else None
  }

  lemma ChosenSnoc(matched: seq<MatchedService>, m: MatchedService, pick: Pick, mode: Option<ControlMode>)
    ensures var here := SetHere(m, pick);
      && Chosen(matched + [m], pick) == (if here.Some? then Some(SelectedService(pick.service, here.value)) else Chosen(matched, pick))
      && ChosenMode(matched + [m], pick, mode) ==
           (if here.Some? && ModeOf(here.value).Some? then ModeOf(here.value) else ChosenMode(matched, pick, mode))
  {
    assert (matched + [m])[..|matched|] == matched;
  }

  function AnswerServiceSelection(s: Session, energy: Pick, vas: seq<Pick>): (r: (Session, Outcome))
    ensures Answers(r, KServiceSelection)
  {
    var req := ServiceSelectionReq(energy, vas);
    if !PairOffered(s.matched, energy) || !AllOffered(s.matched, vas) then Refuse(s, req)
    else
      var s' := s.(selected := Chosen(s.matched, energy), mode := ChosenMode(s.matched, energy, s.mode));
      if IsAc(energy.service) then (s'.(state := AcParameters), Ok(s, ServiceSelectionRes))
      else if IsDc(energy.service) then (s'.(state := DcParameters), Ok(s, ServiceSelectionRes))
      else Refuse(s', req)
  }

  function AnswerScheduleExchange(s: Session, env: Env): (r: (Session, Outcome))
    ensures Answers(r, KScheduleExchange)
  {
    if s.mode.Some? && !env.scheduleParamsFit then Refuse(s, ScheduleExchangeReq)
    else if !env.readyToCharge then
      (s, Ok(s, ScheduleExchangeRes(Ongoing, if s.mode == Some(Scheduled) then Some(env.scheduleTuples) else None, false)))
    else
      var s' := s.(offeredTuples := if s.mode == Some(Scheduled) then env.scheduleTuples else s.offeredTuples);
      if s.selected.None? then Crash(s')
      else
        (s'.(state := if IsAc(s.selected.value.service) then PowerDelivery else ScheduleExchange),
         Ok(s, ScheduleExchangeRes(Finished, if s.mode == Some(Scheduled) then Some(env.scheduleTuples) else None, false)))
  }

  function AnswerPowerDelivery(s: Session, evProcessing: Processing, progress: ChargeProgress,
                               tupleId: Option<int>, env: Env): (r: (Session, Outcome))
    ensures Answers(r, KPowerDelivery)
  {
    var req := PowerDeliveryReq(evProcessing, progress, tupleId);
    if evProcessing.Ongoing? then (s.(state := PowerDelivery), Ok(s, PowerDeliveryRes))
    else if progress.Standby? && !env.standbyAllowed then Decline(s, req)
    else if progress.Stop? then
      var s' := s.(hlc := false, state := PowerDelivery);
      if env.contactorOpened then (s', Ok(s, PowerDeliveryRes)) else Refuse(s', req)
    else if s.mode == Some(Scheduled) && tupleId.None? then Crash(s)
    else if s.mode == Some(Scheduled) && tupleId.value !in s.offeredTuples then Refuse(s, req)
    else if env.contactorClosed != Some(true) then Refuse(s.(hlc := false), req)
    else if s.selected.None? then Crash(s.(hlc := true))
    else
      (s.(hlc := true, state := LoopFor(s.selected.value.service)), Ok(s, PowerDeliveryRes))
  }

  /** The charge loop of the selected service; another service would leave the state alone. */
  function LoopFor(service: Service): State {
    if IsAc(service) then AcLoop else if IsDc(service) then DcLoop(true) else PowerDelivery
  }

  function AnswerSessionStop(s: Session, session: ChargingSession, env: Env): (r: (Session, Outcome))
    ensures Answers(r, KSessionStop)
  {
    (s.(state := if session.ServiceRenegotiation? && env.renegotiation then ServiceDiscovery(true) else Terminated),
     Ok(s, SessionStopRes))
  }

  function AnswerCableCheck(s: Session, env: Env): (r: (Session, Outcome))
    ensures Answers(r, KCableCheck)
  {
    if !s.state.CableCheck? then Crash(s)
    else if s.state.contactorsClosed then
      match env.isolation
      case Valid => (s.(state := PreCharge(true)), Ok(s, CableCheckRes(Finished)))
      case Warning => (s.(state := PreCharge(true)), Ok(s, CableCheckRes(Finished)))
      case NoImd => (s.(state := CableCheck(true, true)), Ok(s, CableCheckRes(Ongoing)))
      case _ => Refuse(s, CableCheckReq)
    else
      match env.contactorClosed
      case None => (s.(state := CableCheck(true, false)), Ok(s, CableCheckRes(Ongoing)))
      case Some(closed) =>
        if closed then (s.(state := CableCheck(true, true)), Ok(s, CableCheckRes(Ongoing)))
        else Refuse(s, CableCheckReq)
  }

  /** Charge-parameter discovery, AC or DC. */
  function AnswerParameters(s: Session, req: Request, body: ResponseBody, env: Env): (r: (Session, Outcome))
    requires ResponseKind(body) == KindOf(req)
    ensures Answers(r, KindOf(req))
  {
    if s.selected.None? then Crash(s)
    else if env.parametersKnown then (s.(state := ScheduleExchange), Ok(s, body))
    else Refuse(s, req)
  }

  function AnswerAcLoop(s: Session, env: Env): (r: (Session, Outcome))
    ensures Answers(r, KAcLoop)
  {
    if s.selected.None? then Crash(s)
    else (s.(state := AcLoop), Replied(Response(s.sid, !IsAc(s.selected.value.service), AcLoopRes(env.status))))
  }

  function AnswerDcLoop(s: Session, env: Env): (r: (Session, Outcome))
    ensures Answers(r, KDcLoop)
  {
    if s.selected.None? then Crash(s)
    else if !env.commandAccepted then Refuse(s, DcLoopReq)
    else (s.(state := DcLoop(false)),
          Replied(Response(s.sid, !IsDc(s.selected.value.service), DcLoopRes(env.status))))
  }

  /** A finished precharge hands over to PowerDelivery, which takes no further precharge request. */
  function AnswerPreCharge(s: Session, evProcessing: Processing, env: Env): (r: (Session, Outcome))
    ensures Answers(r, KPreCharge)
  {
    if !evProcessing.Finished? && !env.commandAccepted then Refuse(s, PreChargeReq(evProcessing))
    else (s.(state := if evProcessing.Finished? then PowerDelivery else PreCharge(false)),
          Ok(s, PreChargeRes(env.evseVoltage)))
  }

  function AnswerWelding(s: Session): (r: (Session, Outcome))
    ensures Answers(r, KWelding)
  {
    (s.(state := Welding(false)), Ok(s, WeldingRes))
  }

  // One accepted request of each kind: what `Step` comes down to, for the proofs about whole runs.

  lemma SessionSetupStep(s: Session, sid: string, req: Request, env: Env)
    requires Passes(s, sid, req) && req.SessionSetupReq?
    ensures Step(s, sid, req, env) == AnswerSessionSetup(s, sid, env)
  {
  }

  lemma AuthorizationSetupStep(s: Session, sid: string, req: Request, env: Env)
    requires Passes(s, sid, req) && req.AuthorizationSetupReq?
    ensures Step(s, sid, req, env) == AnswerAuthorizationSetup(s, env)
  {
  }

  lemma InstallationStep(s: Session, sid: string, req: Request, env: Env)
    requires Passes(s, sid, req) && req.CertificateInstallationReq?
    ensures Step(s, sid, req, env) == Crash(s)
  {
  }

  lemma AuthorizationStep(s: Session, sid: string, req: Request, env: Env)
    requires Passes(s, sid, req) && req.AuthorizationReq?
    ensures Step(s, sid, req, env) == AnswerAuthorization(s, req.pnc, req.signed, env)
  {
  }

  lemma ServiceDiscoveryStep(s: Session, sid: string, req: Request, env: Env)
    requires Passes(s, sid, req) && req.ServiceDiscoveryReq?
    ensures Step(s, sid, req, env) == AnswerServiceDiscovery(s, env)
  {
  }

  lemma ServiceDetailStep(s: Session, sid: string, req: Request, env: Env)
    requires Passes(s, sid, req) && req.ServiceDetailReq?
    ensures Step(s, sid, req, env) == AnswerServiceDetail(s, req.service, env)
  {
  }

  lemma ServiceSelectionStep(s: Session, sid: string, req: Request, env: Env)
    requires Passes(s, sid, req) && req.ServiceSelectionReq?
    ensures Step(s, sid, req, env) == AnswerServiceSelection(s, req.energy, req.vas)
  {
  }

  lemma ScheduleExchangeStep(s: Session, sid: string, req: Request, env: Env)
    requires Passes(s, sid, req) && req.ScheduleExchangeReq?
    ensures Step(s, sid, req, env) == AnswerScheduleExchange(s, env)
  {
  }

  lemma PowerDeliveryStep(s: Session, sid: string, req: Request, env: Env)
    requires Passes(s, sid, req) && req.PowerDeliveryReq?
    ensures Step(s, sid, req, env) == AnswerPowerDelivery(s, req.evProcessing, req.progress, req.tupleId, env)
  {
  }

  lemma SessionStopStep(s: Session, sid: string, req: Request, env: Env)
    requires Passes(s, sid, req) && req.SessionStopReq?
    ensures Step(s, sid, req, env) == AnswerSessionStop(s, req.session, env)
  {
  }

  lemma AcParametersStep(s: Session, sid: string, req: Request, env: Env)
    requires Passes(s, sid, req) && req.AcParametersReq?
    ensures Step(s, sid, req, env) == AnswerParameters(s, req, AcParametersRes, env)
  {
  }

  lemma DcParametersStep(s: Session, sid: string, req: Request, env: Env)
    requires Passes(s, sid, req) && req.DcParametersReq?
    ensures Step(s, sid, req, env) == AnswerParameters(s, req, DcParametersRes(env.maxPower), env)
  {
  }

  lemma AcLoopStep(s: Session, sid: string, req: Request, env: Env)
    requires Passes(s, sid, req) && req.AcLoopReq?
    ensures Step(s, sid, req, env) == AnswerAcLoop(s, env)
  {
  }

  lemma CableCheckStep(s: Session, sid: string, req: Request, env: Env)
    requires Passes(s, sid, req) && req.CableCheckReq?
    ensures Step(s, sid, req, env) == AnswerCableCheck(s.(state := if s.state.CableCheck? then s.state else State.CableCheck(false, false)), env)
  {
  }

  lemma PreChargeStep(s: Session, sid: string, req: Request, env: Env)
    requires Passes(s, sid, req) && req.PreChargeReq?
    ensures Step(s, sid, req, env) == AnswerPreCharge(s, req.evProcessing, env)
  {
  }

  lemma DcLoopStep(s: Session, sid: string, req: Request, env: Env)
    requires Passes(s, sid, req) && req.DcLoopReq?
    ensures Step(s, sid, req, env) == AnswerDcLoop(s, env)
  {
  }

  lemma WeldingStep(s: Session, sid: string, req: Request, env: Env)
    requires Passes(s, sid, req) && req.WeldingReq?
    ensures Step(s, sid, req, env) == AnswerWelding(s)
  {
  }

  lemma OwnCableCheckStep(s: Session, sid: string, env: Env)
    requires s.state.CableCheck? && Passes(s, sid, CableCheckReq)
    ensures Step(s, sid, CableCheckReq, env) == AnswerCableCheck(s, env)
  {
  }

  lemma InstallationStateStep(s: Session, sid: string, req: Request, env: Env)
    requires s.state.CertificateInstallation?
    ensures Step(s, sid, req, env) == Crash(s)
  {
  }

  lemma RefusedStep(s: Session, sid: string, req: Request, env: Env)
    requires !Passes(s, sid, req) && !s.state.Terminated? && !s.state.CertificateInstallation?
    ensures Step(s, sid, req, env) == Refuse(s, req)
  {
  }

  /** The state object that is built for a message of another kind answers it as the session would. */
  lemma HandedOn(s: Session, state: State, sid: string, req: Request, env: Env)
    requires Passes(s, sid, req) && state == Owner(s.state, KindOf(req))
    ensures Step(s.(state := state), sid, req, env) == Step(s, sid, req, env)
  {
    if req.CertificateInstallationReq? {
      InstallationStep(s, sid, req, env);
    } else {
      FreshOwns(KindOf(req));
      hide Answer;
      hide Fresh;
      hide AlsoAccepts;
    }
  }

  lemma FreshOwns(kind: Kind)
    ensures !Fresh(kind).Terminated? && OwnKind(Fresh(kind)) == kind
    ensures Fresh(kind).CertificateInstallation? <==> kind.KCertificateInstallation?
  {
  }
}
