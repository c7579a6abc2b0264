/**
 The station's conduct as an observer of the wire can predict it, whatever the car sends.

 `History` has no state objects in it: only the last exchange, the session id, the services
 discovered and whether the contactor was reported closed. It says which requests the
 station answers next (`Welcome`) and, with the readings of the station's surroundings,
 what it answers (`Proper`).
 */
module SeccConduct {
  import opened Options
  import opened Messages
  import opened SeccProtocol
  import opened SeccSafety

  datatype Exchange = Exchange(req: Request, body: ResponseBody)

  datatype History =
    | Over
    | Open(sid: string, last: Option<Exchange>, listed: set<Service>, contactorClosed: bool)

  const Beginning := Open("", None, {}, false)

  predicate Scheduling(kind: Kind) { kind.KScheduleExchange? || kind.KCableCheck? || kind.KPowerDelivery? || kind.KSessionStop? }

  predicate Delivering(kind: Kind) { kind.KPowerDelivery? || kind.KWelding? || kind.KSessionStop? }

  /** Which kinds of request may follow an exchange, `ac` telling the kind of the accepted service. */
  predicate MayFollow(last: Exchange, ac: bool, kind: Kind) {
    match last.req
    case SessionSetupReq => kind.KAuthorizationSetup?
    case AuthorizationSetupReq =>
      kind.KAuthorizationSetup? || kind.KAuthorization? || kind.KCertificateInstallation? || kind.KSessionStop?
    case CertificateInstallationReq => false
    case AuthorizationReq(_, _) =>
      kind.KAuthorization? ||
      (last.body == AuthorizationRes(Finished) && (kind.KCertificateInstallation? || kind.KServiceDiscovery? || kind.KSessionStop?))
    case ServiceDiscoveryReq => kind.KServiceDiscovery? || kind.KServiceDetail? || kind.KSessionStop?
    case ServiceDetailReq(_) => kind.KServiceDetail? || kind.KServiceSelection? || kind.KSessionStop?
    case ServiceSelectionReq(_, _) => kind.KSessionStop? || if ac then kind.KAcParameters? else kind.KDcParameters?
    case AcParametersReq => Scheduling(kind)
    case DcParametersReq => Scheduling(kind)
    case ScheduleExchangeReq =>
      if ac && last.body.ScheduleExchangeRes? && last.body.processing.Finished? then Delivering(kind) else Scheduling(kind)
    case PowerDeliveryReq(evProcessing, progress, _) =>
      if evProcessing.Ongoing? || progress.Stop? then Delivering(kind)
      else if ac then kind.KAcLoop? || kind.KPowerDelivery? || kind.KSessionStop?
      else kind.KDcLoop?
    case AcLoopReq => kind.KAcLoop? || kind.KPowerDelivery? || kind.KSessionStop?
    case DcLoopReq => kind.KDcLoop? || kind.KPowerDelivery?
    case CableCheckReq =>
      if last.body == CableCheckRes(Finished) then kind.KPreCharge? else kind.KCableCheck? || kind.KSessionStop?
    case PreChargeReq(evProcessing) =>
      if evProcessing.Finished? then Delivering(kind) else kind.KPreCharge? || kind.KPowerDelivery?
    case WeldingReq(_) => kind.KWelding? || kind.KSessionStop?
    case SessionStopReq(_) => kind.KServiceDiscovery?
  }

  predicate AcAccepted(log: Log) {
    log.accepted.Some? && (log.accepted.value.service == Ac || log.accepted.value.service == AcBpt)
  }

  /** A request the session is open for: the right kind at this point and, after the setup, the id that was given out. */
  predicate Welcome(h: History, log: Log, sid: string, req: Request) {
    && h.Open?
    && (if h.last.None? then req.SessionSetupReq? else MayFollow(h.last.value, AcAccepted(log), KindOf(req)))
    && (req.SessionSetupReq? || sid == h.sid)
  }

  /** Which answered requests end the session. */
  predicate Ends(input: Input, failed: bool) {
    match input.req
    case AuthorizationReq(_, signed) => signed && !input.env.signatureValid
    case ServiceDetailReq(_) => false
    case PowerDeliveryReq(evProcessing, progress, _) =>
      failed || (!evProcessing.Ongoing? && progress.Standby? && !input.env.standbyAllowed)
    case SessionStopReq(session) => !(session.ServiceRenegotiation? && input.env.renegotiation)
    case _ => failed
  }

  function ServicesOf(energy: seq<Service>, vas: seq<Service>): set<Service> { (set s | s in energy) + (set s | s in vas) }

  function Watch(h: History, log: Log, input: Input, out: Outcome): History {
    if !Welcome(h, log, input.sid, input.req) || out.Raised? || Ends(input, out.res.failed) then Over
    else
      var body := out.res.body;
      Open(out.res.sid,
           Some(Exchange(input.req, body)),
           if body.ServiceDiscoveryRes? then h.listed + ServicesOf(body.energy, body.vas) else h.listed,
           input.req.CableCheckReq? && (h.contactorClosed || input.env.contactorClosed == Some(true)))
  }

  function Watched(inputs: seq<Input>): History {
    if inputs == [] then Beginning
    else
      var n := |inputs| - 1;
      var before, input := Run(inputs[..n]), inputs[n];
      Watch(Watched(inputs[..n]), before.log, input, Step(before.session, input.sid, input.req, input.env).1)
  }

  /** The state object that the history amounts to. */
  function StateOf(h: History, ac: bool): State {
    if h.Over? then State.Terminated
    else if h.last.None? then State.SessionSetup
    else
      var body := h.last.value.body;
      match h.last.value.req
      case SessionSetupReq => State.AuthorizationSetup(true)
      case AuthorizationSetupReq => State.AuthorizationSetup(false)
      case CertificateInstallationReq => State.Terminated
      case AuthorizationReq(_, _) => State.Authorization(body != AuthorizationRes(Finished))
      case ServiceDiscoveryReq => State.ServiceDiscovery(false)
      case ServiceDetailReq(_) => State.ServiceDetail(false)
      case ServiceSelectionReq(_, _) => if ac then State.AcParameters else State.DcParameters
      case AcParametersReq => State.ScheduleExchange
      case DcParametersReq => State.ScheduleExchange
      case ScheduleExchangeReq =>
        if ac && body.ScheduleExchangeRes? && body.processing.Finished? then State.PowerDelivery else State.ScheduleExchange
      case PowerDeliveryReq(evProcessing, progress, _) =>
        if evProcessing.Ongoing? || progress.Stop? then State.PowerDelivery
        else if ac then State.AcLoop else State.DcLoop(true)
      case AcLoopReq => State.AcLoop
      case DcLoopReq => State.DcLoop(false)
      case CableCheckReq =>
        if body == CableCheckRes(Finished) then State.PreCharge(true) else State.CableCheck(true, h.contactorClosed)
      case PreChargeReq(evProcessing) => if evProcessing.Finished? then State.PowerDelivery else State.PreCharge(false)
      case WeldingReq(_) => State.Welding(false)
      case SessionStopReq(_) => State.ServiceDiscovery(true)
  }

  /** The proper answer to a welcome request, in the observer's terms and the readings of the station's surroundings. */
  predicate Proper(h: History, log: Log, s: Session, input: Input, out: Outcome)
    requires h.Open?
  {
    var env := input.env;
    match input.req
    case SessionSetupReq =>
      Granted(out) && out.res.sid == if input.sid != "00" && input.sid == h.sid then input.sid else env.freshSid
    case AuthorizationSetupReq => Granted(out) && out.res.body == AuthorizationSetupRes(env.certInstallService, env.pncOffered)
    case CertificateInstallationReq => out.Raised?
    case AuthorizationReq(pnc, signed) => ProperAuthorization(pnc, signed, env, out)
    case ServiceDiscoveryReq => Granted(out) && ReportsOffer(env, out.res.body)
    case ServiceDetailReq(service) =>
      out.Replied? && out.res.body == ServiceDetailRes(service, env.parameterSets) && (out.res.failed <==> service !in h.listed)
    case ServiceSelectionReq(energy, vas) =>
      out.Replied? && (!out.res.failed <==>
        PairOffered(s.matched, energy) && AllOffered(s.matched, vas) && energy.service in {Ac, AcBpt, Dc, DcBpt})
    case AcParametersReq => out.Replied? && (!out.res.failed <==> env.parametersKnown)
    case DcParametersReq =>
      && out.Replied? && (!out.res.failed <==> env.parametersKnown)
      && (!out.res.failed ==> out.res.body == DcParametersRes(env.maxPower))
    case ScheduleExchangeReq =>
      && out.Replied? && (out.res.failed <==> s.mode.Some? && !env.scheduleParamsFit)
      && (!out.res.failed ==>
           out.res.body == ScheduleExchangeRes(if env.readyToCharge then Finished else Ongoing,
                                               if s.mode == Some(Scheduled) then Some(env.scheduleTuples) else None, false))
    case PowerDeliveryReq(evProcessing, progress, tupleId) => ProperDelivery(log, s, evProcessing, progress, tupleId, env, out)
    case SessionStopReq(_) => Granted(out)
    case CableCheckReq => ProperCableCheck(h.contactorClosed, env, out)
    case PreChargeReq(evProcessing) =>
      && out.Replied? && (out.res.failed <==> !evProcessing.Finished? && !env.commandAccepted)
      && (!out.res.failed ==> out.res.body == PreChargeRes(env.evseVoltage))
    case AcLoopReq => Granted(out) && out.res.body == AcLoopRes(env.status)
    case DcLoopReq =>
      out.Replied? && (out.res.failed <==> !env.commandAccepted) && (!out.res.failed ==> out.res.body == DcLoopRes(env.status))
    case WeldingReq(_) => Granted(out)
  }

  predicate Granted(out: Outcome) { out.Replied? && !out.res.failed }

  predicate ReportsOffer(env: Env, body: ResponseBody) {
    && body.ServiceDiscoveryRes? && body.renegotiation == env.renegotiation && body.energy == env.energyServices
    && |body.vas| == |env.vas| && forall i :: 0 <= i < |env.vas| ==> body.vas[i] == env.vas[i].service
  }

  /**
   An invalid signature is answered with a failure. Otherwise the answer is Finished exactly
   when the station has made up its mind; while it has not, Plug and Charge is Ongoing and
   everything else waits for the customer.
   */
  predicate ProperAuthorization(pnc: bool, signed: bool, env: Env, out: Outcome) {
    && out.Replied?
    && if signed && !env.signatureValid then out.res.failed
       else
         && (out.res.body == AuthorizationRes(Finished) <==> !env.authorization.StillOngoing?)
         && (out.res.body == AuthorizationRes(Ongoing) <==> env.authorization.StillOngoing? && pnc)
         && (out.res.body == AuthorizationRes(WaitingForCustomer) <==> env.authorization.StillOngoing? && !pnc)
         && (out.res.failed <==> env.authCodeFailed)
  }

  /** The check is finished exactly when an earlier turn found the contactor closed and the isolation is valid or a warning. */
  predicate ProperCableCheck(contactorClosed: bool, env: Env, out: Outcome) {
    && out.Replied?
    && (Granted(out) && out.res.body == CableCheckRes(Finished) <==>
         contactorClosed && (env.isolation.Valid? || env.isolation.Warning?))
    && (out.res.failed <==>
         if contactorClosed then env.isolation.Invalid? || env.isolation.Fault? else env.contactorClosed == Some(false))
    && (Granted(out) ==> out.res.body == CableCheckRes(Finished) || out.res.body == CableCheckRes(Ongoing))
  }

  /** A stop needs the contactor open; a start needs it closed and, in Scheduled mode, a tuple of the last finished schedule exchange. */
  predicate ProperDelivery(log: Log, s: Session, evProcessing: Processing, progress: ChargeProgress, tupleId: Option<int>,
                           env: Env, out: Outcome) {
    if evProcessing.Ongoing? || (progress.Standby? && !env.standbyAllowed) then Granted(out)
    else if progress.Stop? then out.Replied? && (out.res.failed <==> !env.contactorOpened)
    else
      && (out.Raised? <==> s.mode == Some(Scheduled) && tupleId.None?)
      && (Granted(out) <==>
           env.contactorClosed == Some(true) && (s.mode == Some(Scheduled) ==> tupleId.Some? && tupleId.value in log.tuples))
  }

  predicate Refused(req: Request, out: Outcome) { out.Replied? && out.res.failed && ResponseKind(out.res.body) == KindOf(req) }

  /** An open session answers what is welcome properly and refuses the rest. */
  predicate Conduct(h: History, log: Log, s: Session, input: Input, out: Outcome) {
    h.Open? ==>
      if Welcome(h, log, input.sid, input.req) then Proper(h, log, s, input, out) else Refused(input.req, out)
  }

  predicate ListedIn(matched: seq<MatchedService>, listed: set<Service>) {
    forall service :: Lists(matched, service) <==> service in listed
  }

  /** The session is where its history says. */
  predicate Follows(h: History, trace: Trace) {
    && trace.session.state == StateOf(h, AcAccepted(trace.log))
    && (h.Open? ==> h.sid == trace.session.sid && ListedIn(trace.session.matched, h.listed))
    && (h.Open? && h.last.Some? ==> !h.last.value.req.CertificateInstallationReq?)
    && (h.Open? && h.contactorClosed ==> h.last.Some? && h.last.value.req.CableCheckReq?)
  }

  /** The accept table of the state objects is the table of what may follow. */
  lemma AcceptsTheWelcome(h: History, trace: Trace, sid: string, req: Request)
    requires Follows(h, trace)
    ensures Passes(trace.session, sid, req) <==> Welcome(h, trace.log, sid, req)
  {
  }

  /** The answer to a request, and where it leaves the session. */
  predicate Conducted(h: History, trace: Trace, input: Input) {
    var out := Step(trace.session, input.sid, input.req, input.env).1;
    && Conduct(h, trace.log, trace.session, input, out)
    && Follows(Watch(h, trace.log, input, out), Next(trace, input))
  }

  predicate Expected(h: History, trace: Trace, input: Input, early: bool) {
    && h.Open? && Follows(h, trace) && Invariant(trace, early)
    && Welcome(h, trace.log, input.sid, input.req) && Passes(trace.session, input.sid, input.req)
  }

  lemma SetupConduct(h: History, trace: Trace, input: Input, early: bool)
    requires Expected(h, trace, input, early) && input.req.SessionSetupReq?
    ensures Conducted(h, trace, input)
  {
    hide Step;
    SessionSetupStep(trace.session, input.sid, input.req, input.env);
  }

  lemma AuthorizationSetupConduct(h: History, trace: Trace, input: Input, early: bool)
    requires Expected(h, trace, input, early) && input.req.AuthorizationSetupReq?
    ensures Conducted(h, trace, input)
  {
    hide Step;
    AuthorizationSetupStep(trace.session, input.sid, input.req, input.env);
  }

  lemma InstallationConduct(h: History, trace: Trace, input: Input, early: bool)
    requires Expected(h, trace, input, early) && input.req.CertificateInstallationReq?
    ensures Conducted(h, trace, input)
  {
    hide Step;
    InstallationStep(trace.session, input.sid, input.req, input.env);
  }

  lemma AuthorizationConduct(h: History, trace: Trace, input: Input, early: bool)
    requires Expected(h, trace, input, early) && input.req.AuthorizationReq?
    ensures Conducted(h, trace, input)
  {
    hide Step;
    AuthorizationStep(trace.session, input.sid, input.req, input.env);
  }

  lemma DiscoveryLists(matched: seq<MatchedService>, listed: set<Service>, env: Env)
    requires ListedIn(matched, listed)
    ensures ListedIn(matched + Offered(env.energyServices) + OfferedVas(env.vas),
                     listed + ServicesOf(env.energyServices, VasServices(env.vas)))
  {
    var energy, vas := Offered(env.energyServices), OfferedVas(env.vas);
    forall service ensures Lists(matched + energy + vas, service) <==>
        service in listed + ServicesOf(env.energyServices, VasServices(env.vas))
    {
      ListsConcat(matched + energy, vas, service);
      ListsConcat(matched, energy, service);
      OfferedLists(env.energyServices, service);
      OfferedVasLists(env.vas, service);
    }
  }

  lemma ListsConcat(a: seq<MatchedService>, b: seq<MatchedService>, service: Service)
    ensures Lists(a + b, service) <==> Lists(a, service) || Lists(b, service)
  {
    if Lists(a, service) {
      var i :| 0 <= i < |a| && a[i].service == service;
      assert (a + b)[i].service == service;
    }
    if Lists(b, service) {
      var i :| 0 <= i < |b| && b[i].service == service;
      assert (a + b)[|a| + i].service == service;
    }
  }

  lemma OfferedLists(services: seq<Service>, service: Service)
    ensures Lists(Offered(services), service) <==> service in services
  {
    if service in services {
      var i :| 0 <= i < |services| && services[i] == service;
      assert Offered(services)[i].service == service;
    }
  }

  lemma OfferedVasLists(vas: seq<VasOffer>, service: Service)
    ensures Lists(OfferedVas(vas), service) <==> service in VasServices(vas)
  {
    if service in VasServices(vas) {
      var i :| 0 <= i < |vas| && VasServices(vas)[i] == service;
      assert OfferedVas(vas)[i].service == service;
    }
    if Lists(OfferedVas(vas), service) {
      var i :| 0 <= i < |vas| && OfferedVas(vas)[i].service == service;
      assert VasServices(vas)[i] == service;
    }
  }

  lemma DiscoveryConduct(h: History, trace: Trace, input: Input, early: bool)
    requires Expected(h, trace, input, early) && input.req.ServiceDiscoveryReq?
    ensures Conducted(h, trace, input)
  {
    hide Step;
    hide ListedIn;
    hide ServicesOf;
    ServiceDiscoveryStep(trace.session, input.sid, input.req, input.env);
    DiscoveryLists(trace.session.matched, h.listed, input.env);
  }

  /** Storing sets lists no other services. */
  lemma StoringLists(matched: seq<MatchedService>, listed: set<Service>, service: Service, sets: seq<ParameterSet>)
    requires ListedIn(matched, listed)
    ensures ListedIn(StoreFirst(matched, service, sets), listed)
    ensures Lists(matched, service) <==> service in listed
  {
    var stored := StoreFirst(matched, service, sets);
    forall other ensures Lists(stored, other) <==> Lists(matched, other) {
      assert forall i :: 0 <= i < |matched| ==> stored[i].service == matched[i].service;
    }
  }

  lemma DetailConduct(h: History, trace: Trace, input: Input, early: bool)
    requires Expected(h, trace, input, early) && input.req.ServiceDetailReq?
    ensures Conducted(h, trace, input)
  {
    hide Step;
    hide ListedIn;
    hide StoreFirst;
    hide ChargingKept;
    hide AuthorizationKept;
    ServiceDetailStep(trace.session, input.sid, input.req, input.env);
    StoringLists(trace.session.matched, h.listed, input.req.service, input.env.parameterSets);
  }

  lemma SelectionConduct(h: History, trace: Trace, input: Input, early: bool)
    requires Expected(h, trace, input, early) && input.req.ServiceSelectionReq?
    ensures Conducted(h, trace, input)
  {
    hide Step;
    hide Chosen;
    hide ChosenMode;
    hide PairOffered;
    hide AllOffered;
    hide ListedIn;
    ServiceSelectionStep(trace.session, input.sid, input.req, input.env);
  }

  lemma ParametersConduct(h: History, trace: Trace, input: Input, early: bool)
    requires Expected(h, trace, input, early) && (input.req.AcParametersReq? || input.req.DcParametersReq?)
    ensures Conducted(h, trace, input)
  {
    hide Step;
    hide ListedIn;
    if input.req.AcParametersReq? {
      AcParametersStep(trace.session, input.sid, input.req, input.env);
    } else {
      DcParametersStep(trace.session, input.sid, input.req, input.env);
    }
  }

  lemma ScheduleConduct(h: History, trace: Trace, input: Input, early: bool)
    requires Expected(h, trace, input, early) && input.req.ScheduleExchangeReq?
    ensures Conducted(h, trace, input)
  {
    hide Step;
    hide ListedIn;
    hide AuthorizationKept;
    hide StartEarned;
    hide ProperAuthorization;
    hide ProperDelivery;
    hide ProperCableCheck;
    hide ReportsOffer;
    hide PairOffered;
    hide AllOffered;
    hide ServicesOf;
    ScheduleExchangeStep(trace.session, input.sid, input.req, input.env);
  }

  lemma DeliveryConduct(h: History, trace: Trace, input: Input, early: bool)
    requires Expected(h, trace, input, early) && input.req.PowerDeliveryReq?
    ensures Conducted(h, trace, input)
  {
    hide Step;
    hide ListedIn;
    hide AuthorizationKept;
    hide StartEarned;
    hide ProperAuthorization;
    hide ProperCableCheck;
    hide ReportsOffer;
    hide PairOffered;
    hide AllOffered;
    hide ServicesOf;
    PowerDeliveryStep(trace.session, input.sid, input.req, input.env);
  }

  lemma StopConduct(h: History, trace: Trace, input: Input, early: bool)
    requires Expected(h, trace, input, early) && input.req.SessionStopReq?
    ensures Conducted(h, trace, input)
  {
    hide Step;
    hide ListedIn;
    SessionStopStep(trace.session, input.sid, input.req, input.env);
  }

  lemma CableCheckConduct(h: History, trace: Trace, input: Input, early: bool)
    requires Expected(h, trace, input, early) && input.req.CableCheckReq?
    ensures Conducted(h, trace, input)
  {
    hide Step;
    hide ListedIn;
    hide AuthorizationKept;
    hide ChargingKept;
    hide ProperAuthorization;
    hide ProperDelivery;
    hide ReportsOffer;
    hide PairOffered;
    hide AllOffered;
    hide ServicesOf;
    CableCheckStep(trace.session, input.sid, input.req, input.env);
  }

  lemma PreChargeConduct(h: History, trace: Trace, input: Input, early: bool)
    requires Expected(h, trace, input, early) && input.req.PreChargeReq?
    ensures Conducted(h, trace, input)
  {
    hide Step;
    hide ListedIn;
    PreChargeStep(trace.session, input.sid, input.req, input.env);
  }

  lemma AcLoopConduct(h: History, trace: Trace, input: Input, early: bool)
    requires Expected(h, trace, input, early) && input.req.AcLoopReq?
    ensures Conducted(h, trace, input)
  {
    hide Step;
    hide ListedIn;
    AcLoopStep(trace.session, input.sid, input.req, input.env);
  }

  lemma DcLoopConduct(h: History, trace: Trace, input: Input, early: bool)
    requires Expected(h, trace, input, early) && input.req.DcLoopReq?
    ensures Conducted(h, trace, input)
  {
    hide Step;
    hide ListedIn;
    DcLoopStep(trace.session, input.sid, input.req, input.env);
  }

  lemma WeldingConduct(h: History, trace: Trace, input: Input, early: bool)
    requires Expected(h, trace, input, early) && input.req.WeldingReq?
    ensures Conducted(h, trace, input)
  {
    hide Step;
    hide ListedIn;
    WeldingStep(trace.session, input.sid, input.req, input.env);
  }

  /** Anything else is refused, and the session is over. */
  lemma UnwelcomeConduct(h: History, trace: Trace, input: Input)
    requires Follows(h, trace) && !Welcome(h, trace.log, input.sid, input.req)
    ensures Conducted(h, trace, input)
  {
    AcceptsTheWelcome(h, trace, input.sid, input.req);
  }

  lemma StepConduct(h: History, trace: Trace, input: Input, early: bool)
    requires Follows(h, trace) && Invariant(trace, early)
    ensures Conducted(h, trace, input)
  {
    hide Conducted;
    hide Welcome;
    hide Follows;
    hide Invariant;
    AcceptsTheWelcome(h, trace, input.sid, input.req);
    if !Welcome(h, trace.log, input.sid, input.req) {
      UnwelcomeConduct(h, trace, input);
    } else {
      OnlyOpenIsWelcome(h, trace.log, input);
      match input.req
      case SessionSetupReq => SetupConduct(h, trace, input, early);
      case AuthorizationSetupReq => AuthorizationSetupConduct(h, trace, input, early);
      case CertificateInstallationReq => InstallationConduct(h, trace, input, early);
      case AuthorizationReq(_, _) => AuthorizationConduct(h, trace, input, early);
      case ServiceDiscoveryReq => DiscoveryConduct(h, trace, input, early);
      case ServiceDetailReq(_) => DetailConduct(h, trace, input, early);
      case ServiceSelectionReq(_, _) => SelectionConduct(h, trace, input, early);
      case ScheduleExchangeReq => ScheduleConduct(h, trace, input, early);
      case PowerDeliveryReq(_, _, _) => DeliveryConduct(h, trace, input, early);
      case SessionStopReq(_) => StopConduct(h, trace, input, early);
      case AcParametersReq => ParametersConduct(h, trace, input, early);
      case AcLoopReq => AcLoopConduct(h, trace, input, early);
      case DcParametersReq => ParametersConduct(h, trace, input, early);
      case CableCheckReq => CableCheckConduct(h, trace, input, early);
      case PreChargeReq(_) => PreChargeConduct(h, trace, input, early);
      case DcLoopReq => DcLoopConduct(h, trace, input, early);
      case WeldingReq(_) => WeldingConduct(h, trace, input, early);
    }
  }

  lemma OnlyOpenIsWelcome(h: History, log: Log, input: Input)
    requires Welcome(h, log, input.sid, input.req)
    ensures h.Open?
  {
  }

  lemma {:induction false} RunFollows(inputs: seq<Input>)
    ensures Follows(Watched(inputs), Run(inputs))
  {
    hide Step;
    hide Invariant;
    if inputs != [] {
      var n := |inputs| - 1;
      RunFollows(inputs[..n]);
      RunKeepsInvariant(inputs[..n]);
      StepConduct(Watched(inputs[..n]), Run(inputs[..n]), inputs[n], EarlyRenegotiated(inputs[..n]));
    }
  }

  /**
   Whatever was sent before: the station passes a request exactly when the last exchange, the
   id given out and the kind of the accepted service make it welcome - with all its state
   objects and their flags it is no more than this table.
   */
  lemma PassesExactlyTheWelcome(inputs: seq<Input>, sid: string, req: Request)
    ensures Passes(Run(inputs).session, sid, req) <==> Welcome(Watched(inputs), Run(inputs).log, sid, req)
  {
    RunFollows(inputs);
    AcceptsTheWelcome(Watched(inputs), Run(inputs), sid, req);
  }

  /**
   Whatever was sent before, an open session answers a welcome request properly and refuses
   any other one, and the session is over exactly when the observer says so.
   */
  lemma AnswersAreProper(inputs: seq<Input>, input: Input)
    ensures Conduct(Watched(inputs), Run(inputs).log, Run(inputs).session, input,
                    Step(Run(inputs).session, input.sid, input.req, input.env).1)
    ensures Watched(inputs + [input]).Over? <==> Run(inputs + [input]).session.state.Terminated?
  {
    hide Step;
    hide Conduct;
    RunFollows(inputs);
    RunKeepsInvariant(inputs);
    StepConduct(Watched(inputs), Run(inputs), input, EarlyRenegotiated(inputs));
    RunFollows(inputs + [input]);
    OverExactlyWhenTerminated(Watched(inputs + [input]), Run(inputs + [input]));
  }

  /**
   What an authorization is worth: an invalid signature is answered with a failure that ends
   the session. Otherwise a Finished answer means that the station has made up its mind, and
   while it has not, Plug and Charge goes on and everything else waits for the customer.
   */
  lemma AuthorizationIsEarned(inputs: seq<Input>, sid: string, pnc: bool, signed: bool, env: Env)
    ensures var s := Run(inputs).session;
      var (s', out) := Step(s, sid, AuthorizationReq(pnc, signed), env);
      Passes(s, sid, AuthorizationReq(pnc, signed)) ==>
        && out.Replied?
        && (signed && !env.signatureValid <==> s'.state.Terminated?)
        && (s'.state.Terminated? ==> out.res.failed)
        && (out.res.body == AuthorizationRes(Finished) ==> out.res.failed || ((signed ==> env.signatureValid) && !env.authorization.StillOngoing?))
        && (!s'.state.Terminated? && env.authorization.StillOngoing? ==>
             out.res.body == AuthorizationRes(if pnc then Ongoing else WaitingForCustomer))
  {
    hide Step;
    hide Conduct;
    var input := Input(sid, AuthorizationReq(pnc, signed), env);
    var h, trace := Watched(inputs), Run(inputs);
    PassesExactlyTheWelcome(inputs, sid, input.req);
    AnswersAreProper(inputs, input);
    assert (inputs + [input])[..|inputs|] == inputs;
    assert Run(inputs + [input]).session == Step(trace.session, sid, input.req, env).0;
    if Welcome(h, trace.log, sid, input.req) {
      AuthorizationOutcome(h, trace.log, trace.session, input, Step(trace.session, sid, input.req, env).1);
    }
  }

  lemma AuthorizationOutcome(h: History, log: Log, s: Session, input: Input, out: Outcome)
    requires h.Open? && Welcome(h, log, input.sid, input.req) && Conduct(h, log, s, input, out) && input.req.AuthorizationReq?
    ensures ProperAuthorization(input.req.pnc, input.req.signed, input.env, out)
    ensures Watch(h, log, input, out).Over? <==> input.req.signed && !input.env.signatureValid
  {
  }

  lemma OverExactlyWhenTerminated(h: History, trace: Trace)
    requires Follows(h, trace)
    ensures h.Over? <==> trace.session.state.Terminated?
  {
  }

  /** The history as the messages alone show it. */
  function WatchedIn(inputs: seq<Input>, outs: seq<Outcome>): History
    requires |inputs| == |outs|
  {
    if inputs == [] then Beginning
    else
      var n := |inputs| - 1;
      Watch(WatchedIn(inputs[..n], outs[..n]), Observed(inputs[..n], outs[..n]), inputs[n], outs[n])
  }

  lemma {:induction false} HistoryIsWatched(inputs: seq<Input>)
    ensures Watched(inputs) == WatchedIn(inputs, Outcomes(inputs))
  {
    hide Step;
    hide Watch;
    if inputs != [] {
      var n := |inputs| - 1;
      HistoryIsWatched(inputs[..n]);
      LogIsObserved(inputs[..n]);
      assert Outcomes(inputs)[..n] == Outcomes(inputs[..n]);
    }
  }

  lemma {:induction false} OutcomesPrefix(inputs: seq<Input>, n: nat)
    requires n <= |inputs|
    ensures Outcomes(inputs)[..n] == Outcomes(inputs[..n])
  {
    hide Step;
    if n == |inputs| {
      assert inputs[..n] == inputs;
    } else {
      OutcomesPrefix(inputs[..|inputs| - 1], n);
      assert inputs[..|inputs| - 1][..n] == inputs[..n];
    }
  }

  /** What the station accepts next, by the messages alone. */
  lemma NextWelcome(inputs: seq<Input>)
    ensures forall sid, req :: Passes(Run(inputs).session, sid, req) <==>
      Welcome(WatchedIn(inputs, Outcomes(inputs)), Observed(inputs, Outcomes(inputs)), sid, req)
  {
    hide Passes;
    hide Welcome;
    hide Run;
    hide Watched;
    hide WatchedIn;
    hide Observed;
    hide Outcomes;
    HistoryIsWatched(inputs);
    LogIsObserved(inputs);
    forall sid, req ensures Passes(Run(inputs).session, sid, req) <==>
      Welcome(WatchedIn(inputs, Outcomes(inputs)), Observed(inputs, Outcomes(inputs)), sid, req)
    {
      PassesExactlyTheWelcome(inputs, sid, req);
    }
  }

  /** Every answer along a run is proper, in the eyes of the observer. */
  predicate ProperThroughout(inputs: seq<Input>, outs: seq<Outcome>)
    requires |inputs| == |outs|
  {
    forall i :: 0 <= i < |inputs| ==>
      Conduct(WatchedIn(inputs[..i], outs[..i]), Observed(inputs[..i], outs[..i]), Run(inputs[..i]).session, inputs[i], outs[i])
  }

  lemma ProperAt(inputs: seq<Input>, i: nat)
    requires i < |inputs|
    ensures var outs := Outcomes(inputs);
      Conduct(WatchedIn(inputs[..i], outs[..i]), Observed(inputs[..i], outs[..i]), Run(inputs[..i]).session, inputs[i], outs[i])
  {
    hide Run;
    hide Step;
    hide Conduct;
    var before := inputs[..i];
    OutcomesPrefix(inputs, i);
    OutcomesPrefix(inputs, i + 1);
    assert inputs[..i + 1][..i] == before;
    assert Outcomes(inputs)[i] == Outcomes(inputs)[..i + 1][i];
    HistoryIsWatched(before);
    LogIsObserved(before);
    AnswersAreProper(before, inputs[i]);
  }

  lemma AllProper(inputs: seq<Input>)
    ensures ProperThroughout(inputs, Outcomes(inputs))
  {
    hide Run;
    hide Outcomes;
    hide Observed;
    hide WatchedIn;
    hide Conduct;
    forall i | 0 <= i < |inputs|
      ensures var outs := Outcomes(inputs);
        Conduct(WatchedIn(inputs[..i], outs[..i]), Observed(inputs[..i], outs[..i]), Run(inputs[..i]).session, inputs[i], outs[i])
    {
      ProperAt(inputs, i);
    }
  }
}
