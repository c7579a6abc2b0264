/** The EVCC side of ISO 15118-2 as a transition function over responses. */
module EvccV2Protocol {
  import opened Options

  datatype State =
    | SessionSetup | ServiceDiscovery | ServiceDetail | PaymentServiceSelection | CertificateInstallation | PaymentDetails
    | Authorization | ChargeParameterDiscovery | PowerDelivery | MeteringReceipt | ChargingStatus
    | CableCheck | PreCharge | CurrentDemand | WeldingDetection(held: bool) | SessionStop | Terminated

  datatype Progress = Start | Stop | Renegotiate

  datatype Request =
    | SessionSetupReq | ServiceDiscoveryReq | ServiceDetailReq(id: int) | PaymentServiceSelectionReq(pnc: bool)
    | CertificateInstallationReq | PaymentDetailsReq | AuthorizationReq | ChargeParameterDiscoveryReq
    | PowerDeliveryReq(progress: Progress) | MeteringReceiptReq | ChargingStatusReq
    | CableCheckReq | PreChargeReq | CurrentDemandReq | WeldingDetectionReq | SessionStopReq

  datatype Mode = Mode(isAc: bool, name: string)

  datatype Service = Service(id: int, isCertificate: bool)

  datatype Notification = NoNotification | StopCharging | ReNegotiation

  datatype Isolation = Valid | NotValid

  datatype Body =
    | SessionSetupRes
    | ServiceDiscoveryRes(chargeService: bool, pncOffered: bool, services: seq<Service>, modes: seq<Mode>)
    | ServiceDetailRes
    | PaymentServiceSelectionRes
    | CertificateInstallationRes
    | PaymentDetailsRes
    | AuthorizationRes(finished: bool)
    | ChargeParameterDiscoveryRes(finished: bool, schedules: nat)
    | PowerDeliveryRes
    | MeteringReceiptRes(notification: Notification)
    | ChargingStatusRes(receiptRequired: bool, notification: Notification)
    | CableCheckRes(finished: bool, ready: bool, isolation: Isolation)
    | PreChargeRes
    | CurrentDemandRes(notification: Notification)
    | WeldingDetectionRes
    | SessionStopRes

  datatype Response = Response(sid: string, failed: bool, body: Body)

  /** The clock, the settings of a resumed session, the charge controller, keys and certificate files. */
  datatype Env = Env(
    now: real,
    isTls: bool,
    resumedPnc: Option<bool>,
    resumedMode: Option<Mode>,
    ownMode: Mode,
    certInstallNeeded: bool,
    keyReadable: bool,
    filesPresent: bool,
    installationValid: bool,
    precharged: bool,
    continueCharging: bool,
    weldingFinished: bool)

  datatype Session = Session(
    state: State,
    sid: string,
    pnc: bool,
    mode: Option<Mode>,
    isAc: bool,
    details: seq<int>,
    stopping: bool,
    renegotiation: bool,
    timer: real,
    wait: real)

  datatype Outcome = Sent(req: Request) | Quit(held: Option<Request>, successful: bool) | Raised

  const Initial := Session(SessionSetup, "00", false, None, true, [], false, false, -1.0, 2.0)

  const OngoingTimeout := 60.0
  const CableCheckTimeout := 40.0
  const PreChargeTimeout := 7.0

  predicate Awaits(state: State, body: Body) {
    match state
    case SessionSetup => body.SessionSetupRes?
    case ServiceDiscovery => body.ServiceDiscoveryRes?
    case ServiceDetail => body.ServiceDetailRes?
    case PaymentServiceSelection => body.PaymentServiceSelectionRes?
    case CertificateInstallation => body.CertificateInstallationRes?
    case PaymentDetails => body.PaymentDetailsRes?
    case Authorization => body.AuthorizationRes?
    case ChargeParameterDiscovery => body.ChargeParameterDiscoveryRes?
    case PowerDelivery => body.PowerDeliveryRes?
    case MeteringReceipt => body.MeteringReceiptRes?
    case ChargingStatus => body.ChargingStatusRes?
    case CableCheck => body.CableCheckRes?
    case PreCharge => body.PreChargeRes?
    case CurrentDemand => body.CurrentDemandRes?
    case WeldingDetection(_) => body.WeldingDetectionRes?
    case SessionStop => body.SessionStopRes?
    case Terminated => false
  }

  predicate Passes(s: Session, res: Response) {
    Awaits(s.state, res.body) && !res.failed && (s.state.SessionSetup? || res.sid == s.sid)
  }

  function Held(state: State): Option<Request> {
    if state.WeldingDetection? && state.held then Some(WeldingDetectionReq) else None
  }

  function Go(s: Session, state: State, req: Request, wait: real): (Session, Outcome) {
    (s.(state := state, wait := wait), Sent(req))
  }

  function StopNow(s: Session): (Session, Outcome) { (s.(state := Terminated), Quit(Held(s.state), false)) }

  function Crash(s: Session): (Session, Outcome) { (s.(state := Terminated), Raised) }

  function Step(s: Session, res: Response, env: Env): (Session, Outcome) {
    if s.state.Terminated? then (s, Raised)
    else if !Passes(s, res) then StopNow(s)
    else
      match s.state
      case SessionSetup => Go(s.(sid := res.sid), ServiceDiscovery, ServiceDiscoveryReq, 2.0)
      case ServiceDiscovery => OnServiceDiscovery(s, res.body, env)
      case ServiceDetail => NextDetail(s)
      case PaymentServiceSelection => OnPaymentServiceSelection(s, env)
      case CertificateInstallation =>
        if env.installationValid && env.keyReadable then Go(s, PaymentDetails, PaymentDetailsReq, 5.0) else StopNow(s)
      case PaymentDetails => if env.keyReadable then Go(s, Authorization, AuthorizationReq, 2.0) else StopNow(s)
      case Authorization => OnAuthorization(s, res.body.finished, env)
      case ChargeParameterDiscovery => OnChargeParameterDiscovery(s, res.body.finished, res.body.schedules, env)
      case PowerDelivery => OnPowerDelivery(s)
      case MeteringReceipt => OnMeteringReceipt(s, res.body.notification)
      case ChargingStatus => OnChargingStatus(s, res.body.receiptRequired, res.body.notification, env)
      case CableCheck => OnCableCheck(s, res.body, env)
      case PreCharge => OnPreCharge(s, env)
      case CurrentDemand =>
        if res.body.notification.StopCharging? || !env.continueCharging then StopLoop(s)
        else Go(s, CurrentDemand, CurrentDemandReq, 5.0)
      case WeldingDetection(_) => OnWeldingDetection(s, env)
      case SessionStop => if s.stopping then (s.(state := Terminated), Quit(None, true)) else Crash(s)
  }

  /** The ids of the certificate services, wanted for Plug and Charge over TLS when a contract is missing. */
  function Certificates(services: seq<Service>): seq<int> {
    if services == [] then []
    else
      var last := services[|services| - 1];
      var earlier := Certificates(services[..|services| - 1]);
      if last.isCertificate then earlier + [last.id] else earlier
  }

  function OnServiceDiscovery(s: Session, body: Body, env: Env): (Session, Outcome)
    requires body.ServiceDiscoveryRes?
  {
    if !body.chargeService then StopNow(s)
    else
      var pnc := if env.resumedPnc.Some? then env.resumedPnc.value else body.pncOffered && env.isTls;
      var wanted := if env.isTls && pnc && env.certInstallNeeded then Certificates(body.services) else [];
      var s1 := s.(pnc := pnc, details := s.details + wanted);
      // the energy type of a resumed mode is not taken over
      var s2 := if env.resumedMode.Some? then s1.(mode := env.resumedMode) else s1.(mode := Some(env.ownMode), isAc := env.ownMode.isAc);
      if s2.mode.value !in body.modes then StopNow(s2) else NextDetail(s2)
  }

  function NextDetail(s: Session): (Session, Outcome) {
    if s.details == [] then Go(s, PaymentServiceSelection, PaymentServiceSelectionReq(s.pnc), 2.0)
    else
      var last := |s.details| - 1;
      Go(s.(details := s.details[..last]), ServiceDetail, ServiceDetailReq(s.details[last]), 5.0)
  }

  function OnPaymentServiceSelection(s: Session, env: Env): (Session, Outcome) {
    if !s.pnc then Go(s, Authorization, AuthorizationReq, 2.0)
    else if env.certInstallNeeded then
      if env.keyReadable then Go(s, CertificateInstallation, CertificateInstallationReq, 5.0) else StopNow(s)
    else if env.filesPresent then Go(s, PaymentDetails, PaymentDetailsReq, 5.0)
    else StopNow(s)
  }

  function Min(a: real, b: real): real { if a <= b then a else b }

  function Elapsed(s: Session, now: real): real { if s.timer >= 0.0 then now - s.timer else 0.0 }

  function Started(s: Session, now: real): Session { if s.timer >= 0.0 then s else s.(timer := now) }

  function OnAuthorization(s: Session, finished: bool, env: Env): (Session, Outcome) {
    if finished then Go(s.(timer := -1.0), ChargeParameterDiscovery, ChargeParameterDiscoveryReq, 2.0)
    else if Elapsed(s, env.now) > OngoingTimeout then StopNow(s)
    else Go(Started(s, env.now), Authorization, AuthorizationReq, Min(2.0, OngoingTimeout - Elapsed(s, env.now)))
  }

  function OnChargeParameterDiscovery(s: Session, finished: bool, schedules: nat, env: Env): (Session, Outcome) {
    if finished then
      if schedules == 0 then Crash(s.(timer := -1.0))
      else if s.isAc then Go(s.(timer := -1.0), PowerDelivery, PowerDeliveryReq(Start), 5.0)
      else Go(s.(timer := -1.0), CableCheck, CableCheckReq, 2.0)
    else if Elapsed(s, env.now) > OngoingTimeout then StopNow(s)
    else
      Go(Started(s, env.now), ChargeParameterDiscovery, ChargeParameterDiscoveryReq, Min(2.0, OngoingTimeout - Elapsed(s, env.now)))
  }

  function OnPowerDelivery(s: Session): (Session, Outcome) {
    if s.stopping && s.isAc then Go(s, SessionStop, SessionStopReq, 2.0)
    else if s.stopping then Go(s, WeldingDetection(false), WeldingDetectionReq, 2.0)
    else if s.renegotiation then
      Go(s.(renegotiation := false), ChargeParameterDiscovery, ChargeParameterDiscoveryReq, 2.0)
    else if s.mode.Some? && s.isAc then Go(s, ChargingStatus, ChargingStatusReq, 2.0)
    else Go(s, CurrentDemand, CurrentDemandReq, 2.0)
  }

  /** A stop asked for by the metering receipt sends the stop but does not remember it. */
  function OnMeteringReceipt(s: Session, notification: Notification): (Session, Outcome) {
    match notification
    case StopCharging => Go(s, PowerDelivery, PowerDeliveryReq(Stop), 5.0)
    case ReNegotiation => Go(s.(renegotiation := true), PowerDelivery, PowerDeliveryReq(Renegotiate), 5.0)
    case NoNotification =>
      if s.mode.Some? && s.isAc then Go(s, ChargingStatus, ChargingStatusReq, 2.0) else Go(s, CurrentDemand, CurrentDemandReq, 2.0)
  }

  function StopLoop(s: Session): (Session, Outcome) {
    Go(s.(stopping := true), PowerDelivery, PowerDeliveryReq(Stop), 5.0)
  }

  function OnChargingStatus(s: Session, receiptRequired: bool, notification: Notification, env: Env): (Session, Outcome) {
    if receiptRequired && env.isTls then
      if env.keyReadable then Go(s, MeteringReceipt, MeteringReceiptReq, 2.0) else StopNow(s)
    else if notification.ReNegotiation? then Go(s.(renegotiation := true), PowerDelivery, PowerDeliveryReq(Renegotiate), 5.0)
    else if notification.StopCharging? || !env.continueCharging then StopLoop(s)
    else Go(s, ChargingStatus, ChargingStatusReq, 2.0)
  }

  function OnCableCheck(s: Session, body: Body, env: Env): (Session, Outcome)
    requires body.CableCheckRes?
  {
    if body.finished then
      if body.ready && body.isolation.Valid? then Go(s.(timer := -1.0), PreCharge, PreChargeReq, 2.0)
      else StopNow(s.(timer := -1.0))
    else if Elapsed(s, env.now) > CableCheckTimeout then StopNow(s)
    else Go(Started(s, env.now), CableCheck, CableCheckReq, 2.0)
  }

  function OnPreCharge(s: Session, env: Env): (Session, Outcome) {
    if env.precharged then Go(s.(timer := -1.0), PowerDelivery, PowerDeliveryReq(Start), 5.0)
    else if Elapsed(s, env.now) > PreChargeTimeout then StopNow(s)
    else Go(Started(s, env.now), PreCharge, PreChargeReq, 2.0)
  }

  function OnWeldingDetection(s: Session, env: Env): (Session, Outcome) {
    if s.timer > 0.0 && env.now - s.timer > OngoingTimeout then StopNow(s)
    else
      var s' := if s.timer == -1.0 then s.(timer := env.now) else s;
      if env.weldingFinished then Go(s', SessionStop, SessionStopReq, 2.0)
      else Go(s', WeldingDetection(true), WeldingDetectionReq, 2.0)
  }
}
