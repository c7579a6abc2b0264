/** The optional values of the source (Python's `None` or a value). */
module Options {
  datatype Option<+T> = None | Some(value: T)
}

/** The ISO 15118-20 message pairs, reduced to the fields on which some state branches. */
module Messages {
  import opened Options

  datatype Service =
    | Ac | Dc | Wpt | DcAcdp | AcBpt | DcBpt | DcAcdpBpt
    | Internet | ParkingStatus | BatteryHealthTest

  predicate IsAc(service: Service) { service.Ac? || service.AcBpt? }

  predicate IsDc(service: Service) { service.Dc? || service.DcBpt? }

  datatype ControlMode = Scheduled | Dynamic

  /** `modes` holds the values of the set's ControlMode parameters, in list order. */
  datatype ParameterSet = ParameterSet(id: int, modes: seq<ControlMode>)

  /** Both sides loop over the parameters and let the last ControlMode win. */
  function ModeOf(parameterSet: ParameterSet): Option<ControlMode> {
    if parameterSet.modes == [] then None else Some(parameterSet.modes[|parameterSet.modes| - 1])
  }

  datatype MatchedService = MatchedService(service: Service, isEnergy: bool, sets: seq<ParameterSet>)

  datatype SelectedService = SelectedService(service: Service, parameterSet: ParameterSet)

  /** A (service, parameter set id) pair as carried by ServiceSelectionReq. */
  datatype Pick = Pick(service: Service, setId: int)

  datatype Processing = Finished | Ongoing | WaitingForCustomer

  datatype ChargeProgress = Start | Stop | Standby | ScheduleRenegotiation

  datatype ChargingSession = Pause | Terminate | ServiceRenegotiation

  datatype EvseNotification = NotifyTerminate | NotifyServiceRenegotiation | NotifyOther

  /** A request message and the response message that answers it share one kind. */
  datatype Kind =
    | KSessionSetup | KAuthorizationSetup | KCertificateInstallation | KAuthorization
    | KServiceDiscovery | KServiceDetail | KServiceSelection | KScheduleExchange
    | KPowerDelivery | KSessionStop
    | KAcParameters | KAcLoop
    | KDcParameters | KCableCheck | KPreCharge | KDcLoop | KWelding

  datatype Request =
    | SessionSetupReq
    | AuthorizationSetupReq
    | CertificateInstallationReq
      /** `pnc`: Plug and Charge is the selected option; `signed`: there are Plug and Charge parameters. */
    | AuthorizationReq(pnc: bool, signed: bool)
    | ServiceDiscoveryReq
    | ServiceDetailReq(service: Service)
    | ServiceSelectionReq(energy: Pick, vas: seq<Pick>)
    | ScheduleExchangeReq
      /** `tupleId` is the id in the scheduled profile, None when there is no such profile. */
    | PowerDeliveryReq(evProcessing: Processing, progress: ChargeProgress, tupleId: Option<int>)
    | SessionStopReq(session: ChargingSession)
    | AcParametersReq
    | AcLoopReq
    | DcParametersReq
    | CableCheckReq
    | PreChargeReq(evProcessing: Processing)
    | DcLoopReq
    | WeldingReq(evProcessing: Processing)

  function KindOf(req: Request): Kind {
    match req
    case SessionSetupReq => KSessionSetup
    case AuthorizationSetupReq => KAuthorizationSetup
    case CertificateInstallationReq => KCertificateInstallation
    case AuthorizationReq(_, _) => KAuthorization
    case ServiceDiscoveryReq => KServiceDiscovery
    case ServiceDetailReq(_) => KServiceDetail
    case ServiceSelectionReq(_, _) => KServiceSelection
    case ScheduleExchangeReq => KScheduleExchange
    case PowerDeliveryReq(_, _, _) => KPowerDelivery
    case SessionStopReq(_) => KSessionStop
    case AcParametersReq => KAcParameters
    case AcLoopReq => KAcLoop
    case DcParametersReq => KDcParameters
    case CableCheckReq => KCableCheck
    case PreChargeReq(_) => KPreCharge
    case DcLoopReq => KDcLoop
    case WeldingReq(_) => KWelding
  }

  datatype ResponseBody =
    | SessionSetupRes
    | AuthorizationSetupRes(certInstallService: bool, pncOffered: bool)
    | CertificateInstallationRes
    | AuthorizationRes(processing: Processing)
    | ServiceDiscoveryRes(renegotiation: bool, energy: seq<Service>, vas: seq<Service>)
    | ServiceDetailRes(service: Service, sets: seq<ParameterSet>)
    | ServiceSelectionRes
      /** `tuples`: the ids in the scheduled parameters, None when there are none. */
    | ScheduleExchangeRes(processing: Processing, tuples: Option<seq<int>>, goToPause: bool)
    | PowerDeliveryRes
    | SessionStopRes
    | AcParametersRes
    | AcLoopRes(status: Option<EvseNotification>)
    | DcParametersRes(maxPower: real)
    | CableCheckRes(processing: Processing)
    | PreChargeRes(evseVoltage: real)
    | DcLoopRes(status: Option<EvseNotification>)
    | WeldingRes

  function ResponseKind(body: ResponseBody): Kind {
    match body
    case SessionSetupRes => KSessionSetup
    case AuthorizationSetupRes(_, _) => KAuthorizationSetup
    case CertificateInstallationRes => KCertificateInstallation
    case AuthorizationRes(_) => KAuthorization
    case ServiceDiscoveryRes(_, _, _) => KServiceDiscovery
    case ServiceDetailRes(_, _) => KServiceDetail
    case ServiceSelectionRes => KServiceSelection
    case ScheduleExchangeRes(_, _, _) => KScheduleExchange
    case PowerDeliveryRes => KPowerDelivery
    case SessionStopRes => KSessionStop
    case AcParametersRes => KAcParameters
    case AcLoopRes(_) => KAcLoop
    case DcParametersRes(_) => KDcParameters
    case CableCheckRes(_) => KCableCheck
    case PreChargeRes(_) => KPreCharge
    case DcLoopRes(_) => KDcLoop
    case WeldingRes => KWelding
  }

  /** `failed`: the response code contains "FAILED". */
  datatype Response = Response(sid: string, failed: bool, body: ResponseBody)

  /** The minimal response of the request's own type, as the failed-response table stores it. */
  function FailedBody(req: Request): (body: ResponseBody)
    ensures ResponseKind(body) == KindOf(req)
  {
    match req
    case SessionSetupReq => SessionSetupRes
    case AuthorizationSetupReq => AuthorizationSetupRes(false, false)
    case CertificateInstallationReq => CertificateInstallationRes
    case AuthorizationReq(_, _) => AuthorizationRes(Finished)
    case ServiceDiscoveryReq => ServiceDiscoveryRes(false, [], [])
    case ServiceDetailReq(_) => ServiceDetailRes(Ac, [])
    case ServiceSelectionReq(_, _) => ServiceSelectionRes
    case ScheduleExchangeReq => ScheduleExchangeRes(Finished, None, false)
    case PowerDeliveryReq(_, _, _) => PowerDeliveryRes
    case SessionStopReq(_) => SessionStopRes
    case AcParametersReq => AcParametersRes
    case AcLoopReq => AcLoopRes(None)
    case DcParametersReq => DcParametersRes(0.0)
    case CableCheckReq => CableCheckRes(Finished)
    case PreChargeReq(_) => PreChargeRes(0.0)
    case DcLoopReq => DcLoopRes(None)
    case WeldingReq(_) => WeldingRes
  }
}
