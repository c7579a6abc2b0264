/**
 The conduct of the car in ISO 15118-2 as an observer of the wire can predict it, whatever
 the station answers.
 */
module EvccV2Conduct {
  import opened Options
  import opened EvccV2Protocol
  import opened EvccV2Safety

  /** `details` are the certificate details still to ask for, last first; `ac` is how the car will charge. */
  datatype History = Over | Open(sid: string, repeats: bool, ac: bool, details: seq<int>)

  const Beginning := Open("00", false, true, [])

  function Pending(h: History, log: Log, input: Input): seq<int>
    requires h.Open?
  {
    if log.lastSent.ServiceDiscoveryReq? && input.res.body.ServiceDiscoveryRes? then Wanted(input.res.body, input.env) else h.details
  }

  function Watch(h: History, log: Log, input: Input, out: Outcome): History {
    if h.Over? || !out.Sent? then Over
    else
      var details := Pending(h, log, input);
      Open(
        if log.lastSent.SessionSetupReq? then input.res.sid else h.sid,
        out.req == log.lastSent,
        // the energy type of a resumed mode is not taken over
        if log.lastSent.ServiceDiscoveryReq? && input.env.resumedMode.None? then input.env.ownMode.isAc else h.ac,
        if out.req.ServiceDetailReq? && details != [] then details[..|details| - 1] else details)
  }

  function Watched(inputs: seq<Input>): History {
    if inputs == [] then Beginning
    else
      var n := |inputs| - 1;
      Watch(Watched(inputs[..n]), Run(inputs[..n]).log, inputs[n], Run(inputs).out)
  }

  /** The response to the last request. */
  predicate Answers(req: Request, body: Body) {
    match req
    case SessionSetupReq => body.SessionSetupRes?
    case ServiceDiscoveryReq => body.ServiceDiscoveryRes?
    case ServiceDetailReq(_) => body.ServiceDetailRes?
    case PaymentServiceSelectionReq(_) => body.PaymentServiceSelectionRes?
    case CertificateInstallationReq => body.CertificateInstallationRes?
    case PaymentDetailsReq => body.PaymentDetailsRes?
    case AuthorizationReq => body.AuthorizationRes?
    case ChargeParameterDiscoveryReq => body.ChargeParameterDiscoveryRes?
    case PowerDeliveryReq(_) => body.PowerDeliveryRes?
    case MeteringReceiptReq => body.MeteringReceiptRes?
    case ChargingStatusReq => body.ChargingStatusRes?
    case CableCheckReq => body.CableCheckRes?
    case PreChargeReq => body.PreChargeRes?
    case CurrentDemandReq => body.CurrentDemandRes?
    case WeldingDetectionReq => body.WeldingDetectionRes?
    case SessionStopReq => body.SessionStopRes?
  }

  predicate Good(h: History, log: Log, res: Response)
    requires h.Open?
  {
    Answers(log.lastSent, res.body) && !res.failed && (log.lastSent.SessionSetupReq? || res.sid == h.sid)
  }

  predicate InTime(log: Log, now: real, limit: real) { log.loopStart.Some? ==> now - log.loopStart.value <= limit }

  /** A car that gives up in the middle of the welding detection sends that request again. */
  function GivesUp(h: History, log: Log): Outcome
    requires h.Open?
  {
    Quit(if h.repeats && log.lastSent.WeldingDetectionReq? then Some(WeldingDetectionReq) else None, false)
  }

  predicate Repeats(h: History, log: Log, input: Input, limit: real, out: Outcome)
    requires h.Open?
  {
    log.clocked ==> out == if InTime(log, input.env.now, limit) then Sent(log.lastSent) else GivesUp(h, log)
  }

  /** After the discovery: nothing more for a station whose offer does not suit, else the certificate details, then the payment option. */
  predicate ProperDiscovery(h: History, log: Log, body: Body, env: Env, out: Outcome)
    requires h.Open? && body.ServiceDiscoveryRes?
  {
    var offer := OfferOf(body, env);
    out == if !Suits(offer) then GivesUp(h, log)
           else Sent(DetailOr(Wanted(body, env), PaymentServiceSelectionReq(PncAgreed(offer))))
  }

  function Loop(h: History): Request
    requires h.Open?
  {
    if h.ac then ChargingStatusReq else CurrentDemandReq
  }

  /** An accepted power delivery ends what a loop has stopped, starts over for a renegotiation, or enters the loop. */
  predicate AfterDelivery(h: History, log: Log, out: Outcome)
    requires h.Open?
  {
    out == Sent(if log.stopped then if h.ac then SessionStopReq else WeldingDetectionReq
                else if log.lastSent == PowerDeliveryReq(Renegotiate) then ChargeParameterDiscoveryReq
                else Loop(h))
  }

  predicate ProperStatus(h: History, log: Log, receiptRequired: bool, notification: Notification, env: Env, out: Outcome)
    requires h.Open?
  {
    if receiptRequired && env.isTls then out == if env.keyReadable then Sent(MeteringReceiptReq) else GivesUp(h, log)
    else
      && (out == Sent(PowerDeliveryReq(Renegotiate)) <==> notification.ReNegotiation?)
      && (out == Sent(PowerDeliveryReq(Stop)) <==> !notification.ReNegotiation? && (notification.StopCharging? || !env.continueCharging))
      && (out == Sent(ChargingStatusReq) <==> notification.NoNotification? && env.continueCharging)
  }

  predicate Proper(h: History, log: Log, input: Input, out: Outcome)
    requires h.Open? && Good(h, log, input.res)
  {
    var body, env := input.res.body, input.env;
    match log.lastSent
    case SessionSetupReq => out == Sent(ServiceDiscoveryReq)
    case ServiceDiscoveryReq => ProperDiscovery(h, log, body, env, out)
    case ServiceDetailReq(_) =>
      log.offer.Some? && out == Sent(DetailOr(h.details, PaymentServiceSelectionReq(PncAgreed(log.offer.value))))
    case PaymentServiceSelectionReq(pnc) =>
      && (out == Sent(AuthorizationReq) <==> !pnc)
      && (out == Sent(CertificateInstallationReq) <==> pnc && env.certInstallNeeded && env.keyReadable)
      && (out == Sent(PaymentDetailsReq) <==> pnc && !env.certInstallNeeded && env.filesPresent)
      && (out == GivesUp(h, log) <==> pnc && if env.certInstallNeeded then !env.keyReadable else !env.filesPresent)
    case CertificateInstallationReq =>
      out == if env.installationValid && env.keyReadable then Sent(PaymentDetailsReq) else GivesUp(h, log)
    case PaymentDetailsReq => out == if env.keyReadable then Sent(AuthorizationReq) else GivesUp(h, log)
    case AuthorizationReq =>
      if body.AuthorizationRes? && body.finished then out == Sent(ChargeParameterDiscoveryReq)
      else Repeats(h, log, input, 60.0, out)
    case ChargeParameterDiscoveryReq =>
      if body.ChargeParameterDiscoveryRes? && body.finished then
        out == if body.schedules == 0 then Raised else Sent(if h.ac then PowerDeliveryReq(Start) else CableCheckReq)
      else Repeats(h, log, input, 60.0, out)
    case PowerDeliveryReq(_) => AfterDelivery(h, log, out)
    case MeteringReceiptReq =>
      && (out == Sent(PowerDeliveryReq(Stop)) <==> body.notification.StopCharging?)
      && (out == Sent(PowerDeliveryReq(Renegotiate)) <==> body.notification.ReNegotiation?)
      && (out == Sent(Loop(h)) <==> body.notification.NoNotification?)
    case ChargingStatusReq => ProperStatus(h, log, body.receiptRequired, body.notification, env, out)
    case CableCheckReq =>
      if body.CableCheckRes? && body.finished then
        out == if body.ready && body.isolation.Valid? then Sent(PreChargeReq) else GivesUp(h, log)
      else Repeats(h, log, input, 40.0, out)
    case PreChargeReq => if env.precharged then out == Sent(PowerDeliveryReq(Start)) else Repeats(h, log, input, 7.0, out)
    case CurrentDemandReq =>
      && (out == Sent(PowerDeliveryReq(Stop)) <==> body.notification.StopCharging? || !env.continueCharging)
      && (out == Sent(CurrentDemandReq) <==> !body.notification.StopCharging? && env.continueCharging)
    case WeldingDetectionReq =>
      log.clocked ==>
        out == if !InTime(log, env.now, 60.0) then GivesUp(h, log)
               else Sent(if env.weldingFinished then SessionStopReq else WeldingDetectionReq)
    case SessionStopReq => out == Quit(None, true)
  }

  predicate Conduct(h: History, log: Log, input: Input, out: Outcome) {
    if h.Over? then out.Raised?
    else if Good(h, log, input.res) then Proper(h, log, input, out)
    else out == GivesUp(h, log)
  }

  /** The wait for the response to a request; the two capped loops wait no longer than the time left. */
  predicate Waits(log: Log, input: Input, req: Request, wait: real) {
    if (req.AuthorizationReq? || req.ChargeParameterDiscoveryReq?) && req == log.lastSent then
      var left := if log.loopStart.Some? then 60.0 - (input.env.now - log.loopStart.value) else 60.0;
      log.clocked ==> wait == if left < 2.0 then left else 2.0
    else
      wait == if req.ServiceDetailReq? || req.CertificateInstallationReq? || req.PaymentDetailsReq? || req.PowerDeliveryReq?
                 || (req.CurrentDemandReq? && log.lastSent.CurrentDemandReq?) then 5.0 else 2.0
  }

  predicate Follows(h: History, trace: Trace) {
    var s, log := trace.session, trace.log;
    && (h.Over? <==> s.state.Terminated?)
    && (h.Open? ==>
         && trace.out.Sent? && s.sid == h.sid && s.isAc == h.ac && s.details == h.details
         && (s.state.SessionSetup? || s.state.ServiceDiscovery? ==> h.details == [] && h.ac)
         && (s.state.WeldingDetection? ==> s.state.held == h.repeats)
         && (s.stopping <==> log.stopped)
         && (s.state.WeldingDetection? || s.state.SessionStop? ==> log.stopped)
         && (s.state.PowerDelivery? && log.stopped ==> log.lastSent == PowerDeliveryReq(Stop))
         && (s.renegotiation <==> log.lastSent == PowerDeliveryReq(Renegotiate)))
  }

  predicate Conducted(h: History, trace: Trace, input: Input) {
    var next := Next(trace, input);
    && Conduct(h, trace.log, input, next.out)
    && (next.out.Sent? ==> Waits(trace.log, input, next.out.req, next.session.wait))
    && Follows(Watch(h, trace.log, input, next.out), next)
  }

  predicate Expected(h: History, trace: Trace, input: Input) { h.Open? && Follows(h, trace) && Invariant(trace) }

  lemma SetupConduct(h: History, trace: Trace, input: Input)
    requires Expected(h, trace, input) && Passes(trace.session, input.res) && trace.session.state.SessionSetup?
    ensures Conducted(h, trace, input)
  {
    hide Certificates;
  }

  lemma DiscoveryConduct(h: History, trace: Trace, input: Input)
    requires Expected(h, trace, input) && Passes(trace.session, input.res) && trace.session.state.ServiceDiscovery?
    ensures Conducted(h, trace, input)
  {
    hide OnServiceDiscovery;
    hide TimerInvariant;
    hide Prepared;
    hide Wanted;
    var wanted := Wanted(input.res.body, input.env);
    assert trace.session.details + wanted == wanted;
    DiscoveryReaction(trace.session, input.res.body, input.env);
  }

  lemma DetailConduct(h: History, trace: Trace, input: Input)
    requires Expected(h, trace, input) && Passes(trace.session, input.res) && trace.session.state.ServiceDetail?
    ensures Conducted(h, trace, input)
  {
    hide Certificates;
  }

  lemma PaymentConduct(h: History, trace: Trace, input: Input)
    requires Expected(h, trace, input) && Passes(trace.session, input.res) && trace.session.state.PaymentServiceSelection?
    ensures Conducted(h, trace, input)
  {
    hide Certificates;
  }

  lemma CertificateConduct(h: History, trace: Trace, input: Input)
    requires Expected(h, trace, input) && Passes(trace.session, input.res) && (trace.session.state.CertificateInstallation? || trace.session.state.PaymentDetails?)
    ensures Conducted(h, trace, input)
  {
    hide Certificates;
  }

  lemma AuthorizationConduct(h: History, trace: Trace, input: Input)
    requires Expected(h, trace, input) && Passes(trace.session, input.res) && trace.session.state.Authorization?
    ensures Conducted(h, trace, input)
  {
    hide Certificates;
  }

  lemma ParametersConduct(h: History, trace: Trace, input: Input)
    requires Expected(h, trace, input) && Passes(trace.session, input.res) && trace.session.state.ChargeParameterDiscovery?
    ensures Conducted(h, trace, input)
  {
    hide Certificates;
  }

  lemma DeliveryConduct(h: History, trace: Trace, input: Input)
    requires Expected(h, trace, input) && Passes(trace.session, input.res) && trace.session.state.PowerDelivery?
    ensures Conducted(h, trace, input)
  {
    hide Certificates;
  }

  lemma ReceiptConduct(h: History, trace: Trace, input: Input)
    requires Expected(h, trace, input) && Passes(trace.session, input.res) && trace.session.state.MeteringReceipt?
    ensures Conducted(h, trace, input)
  {
    hide Certificates;
  }

  lemma StatusConduct(h: History, trace: Trace, input: Input)
    requires Expected(h, trace, input) && Passes(trace.session, input.res) && trace.session.state.ChargingStatus?
    ensures Conducted(h, trace, input)
  {
    hide Certificates;
  }

  lemma CableCheckConduct(h: History, trace: Trace, input: Input)
    requires Expected(h, trace, input) && Passes(trace.session, input.res) && trace.session.state.CableCheck?
    ensures Conducted(h, trace, input)
  {
    hide Certificates;
  }

  lemma PreChargeConduct(h: History, trace: Trace, input: Input)
    requires Expected(h, trace, input) && Passes(trace.session, input.res) && trace.session.state.PreCharge?
    ensures Conducted(h, trace, input)
  {
    hide Certificates;
  }

  lemma DemandConduct(h: History, trace: Trace, input: Input)
    requires Expected(h, trace, input) && Passes(trace.session, input.res) && trace.session.state.CurrentDemand?
    ensures Conducted(h, trace, input)
  {
    hide Certificates;
  }

  lemma WeldingConduct(h: History, trace: Trace, input: Input)
    requires Expected(h, trace, input) && Passes(trace.session, input.res) && trace.session.state.WeldingDetection?
    ensures Conducted(h, trace, input)
  {
    hide Certificates;
  }

  lemma StopConduct(h: History, trace: Trace, input: Input)
    requires Expected(h, trace, input) && Passes(trace.session, input.res) && trace.session.state.SessionStop?
    ensures Conducted(h, trace, input)
  {
    hide Certificates;
  }

  lemma PassesTheGood(h: History, trace: Trace, res: Response)
    requires h.Open? && Follows(h, trace) && Invariant(trace)
    ensures Passes(trace.session, res) <==> Good(h, trace.log, res)
  {
  }

  lemma StoppedConduct(h: History, trace: Trace, input: Input)
    requires Follows(h, trace) && Invariant(trace) && !Passes(trace.session, input.res)
    ensures Conducted(h, trace, input)
  {
    if h.Open? {
      PassesTheGood(h, trace, input.res);
    }
  }

  lemma StepConduct(h: History, trace: Trace, input: Input)
    requires Follows(h, trace) && Invariant(trace)
    ensures Conducted(h, trace, input)
  {
    if !Passes(trace.session, input.res) {
      StoppedConduct(h, trace, input);
    } else {
      OpenWhenPassing(h, trace, input.res);
      hide Conducted;
      hide Follows;
      hide Invariant;
      hide Passes;
      match trace.session.state
      case SessionSetup => SetupConduct(h, trace, input);
      case ServiceDiscovery => DiscoveryConduct(h, trace, input);
      case ServiceDetail => DetailConduct(h, trace, input);
      case PaymentServiceSelection => PaymentConduct(h, trace, input);
      case CertificateInstallation => CertificateConduct(h, trace, input);
      case PaymentDetails => CertificateConduct(h, trace, input);
      case Authorization => AuthorizationConduct(h, trace, input);
      case ChargeParameterDiscovery => ParametersConduct(h, trace, input);
      case PowerDelivery => DeliveryConduct(h, trace, input);
      case MeteringReceipt => ReceiptConduct(h, trace, input);
      case ChargingStatus => StatusConduct(h, trace, input);
      case CableCheck => CableCheckConduct(h, trace, input);
      case PreCharge => PreChargeConduct(h, trace, input);
      case CurrentDemand => DemandConduct(h, trace, input);
      case WeldingDetection(_) => WeldingConduct(h, trace, input);
      case SessionStop => StopConduct(h, trace, input);
    }
  }

  lemma OpenWhenPassing(h: History, trace: Trace, res: Response)
    requires Follows(h, trace) && Passes(trace.session, res)
    ensures h.Open? && !trace.session.state.Terminated?
  {
  }

  lemma {:induction false} RunFollows(inputs: seq<Input>)
    ensures Follows(Watched(inputs), Run(inputs))
  {
    hide Next;
    hide Invariant;
    hide Watch;
    if inputs == [] {
      BeginningFollows();
    } else {
      var n := |inputs| - 1;
      RunFollows(inputs[..n]);
      RunKeepsInvariant(inputs[..n]);
      StepConduct(Watched(inputs[..n]), Run(inputs[..n]), inputs[n]);
    }
  }

  lemma BeginningFollows()
    ensures Follows(Beginning, Run([]))
  {
  }

  /**
   Whatever the station has answered before: the next request, or the way the session ends,
   is the proper reaction in the eyes of an observer of the wire and the car's surroundings,
   and the car waits as long as that request deserves.
   */
  lemma ReactionsAreProper(inputs: seq<Input>, input: Input)
    ensures var h, log, next := Watched(inputs), Run(inputs).log, Run(inputs + [input]);
      && Conduct(h, log, input, next.out)
      && (next.out.Sent? ==> Waits(log, input, next.out.req, next.session.wait))
  {
    hide Next;
    hide Follows;
    hide Conduct;
    assert (inputs + [input])[..|inputs|] == inputs;
    RunFollows(inputs);
    RunKeepsInvariant(inputs);
    StepConduct(Watched(inputs), Run(inputs), input);
  }

  /** The history as the messages alone show it. */
  function WatchedIn(inputs: seq<Input>, outs: seq<Outcome>): History
    requires |inputs| == |outs|
  {
    if inputs == [] then Beginning
    else
      var n := |inputs| - 1;
      Watch(WatchedIn(inputs[..n], outs[..n]), Observed(inputs[..n], outs[..n]), inputs[n], outs[n])
  }

  lemma {:induction false} HistoryIsWatched(inputs: seq<Input>)
    ensures Watched(inputs) == WatchedIn(inputs, Outcomes(inputs))
  {
    hide Step;
    hide Watch;
    if inputs != [] {
      var n := |inputs| - 1;
      HistoryIsWatched(inputs[..n]);
      LogIsObserved(inputs[..n]);
      SentOutcome(inputs);
      assert Outcomes(inputs)[..n] == Outcomes(inputs[..n]);
    }
  }

  /** Every request along a run is the proper reaction, in the eyes of the observer. */
  predicate ProperThroughout(inputs: seq<Input>, outs: seq<Outcome>)
    requires |inputs| == |outs|
  {
    forall i :: 0 <= i < |inputs| ==>
      Conduct(WatchedIn(inputs[..i], outs[..i]), Observed(inputs[..i], outs[..i]), inputs[i], outs[i])
  }

  lemma ProperAt(inputs: seq<Input>, i: nat)
    requires i < |inputs|
    ensures var outs := Outcomes(inputs);
      Conduct(WatchedIn(inputs[..i], outs[..i]), Observed(inputs[..i], outs[..i]), inputs[i], outs[i])
  {
    hide Run;
    hide Outcomes;
    hide Conduct;
    hide Watch;
    hide Observe;
    var before := inputs[..i];
    OutcomesPrefix(inputs, i);
    OutcomesPrefix(inputs, i + 1);
    assert inputs[..i + 1] == before + [inputs[i]];
    assert Outcomes(inputs)[i] == Outcomes(inputs)[..i + 1][i];
    SentOutcome(inputs[..i + 1]);
    HistoryIsWatched(before);
    LogIsObserved(before);
    ReactionsAreProper(before, inputs[i]);
  }

  lemma AllProper(inputs: seq<Input>)
    ensures ProperThroughout(inputs, Outcomes(inputs))
  {
    hide Run;
    hide Outcomes;
    hide Observed;
    hide WatchedIn;
    hide Conduct;
    forall i | 0 <= i < |inputs|
      ensures var outs := Outcomes(inputs);
        Conduct(WatchedIn(inputs[..i], outs[..i]), Observed(inputs[..i], outs[..i]), inputs[i], outs[i])
    {
      ProperAt(inputs, i);
    }
  }

  /** The certificate services are asked about in the order offered and no other service is: certificates of a list are those of its parts. */
  lemma {:induction false} CertificatesInOrder(services: seq<Service>, more: seq<Service>)
    ensures Certificates(services + more) == Certificates(services) + Certificates(more)
    ensures |services| == 1 ==> Certificates(services) == if services[0].isCertificate then [services[0].id] else []
  {
    if more == [] {
      assert services + more == services && Certificates(services) + [] == Certificates(services);
    } else {
      var last := |more| - 1;
      CertificatesInOrder(services, more[..last]);
      assert (services + more)[..|services| + last] == services + more[..last];
    }
    if |services| == 1 {
      assert services[..0] == [];
    }
  }
}
