/** What every ISO 15118-2 run of the EVCC keeps, whatever the SECC answers. */
module EvccV2Safety {
  import opened Options
  import opened EvccV2Protocol

  datatype Input = Input(res: Response, env: Env)

  /** What the station offered and the car wanted at the service discovery; `mode` is the resumed one or the car's own. */
  datatype Offer = Offer(modes: seq<Mode>, chargeService: bool, pncOffered: bool, isTls: bool, resumedPnc: Option<bool>, mode: Mode)

  /**
   Kept from the wire and the charge controller's answers. `cableChecked` and `precharged`
   start anew with every charge-parameter discovery; `stopped` says that a charge-loop state
   has sent a stop.
   */
  datatype Log = Log(
    lastSent: Request,
    now: real,
    clocked: bool,
    cableChecked: bool,
    precharged: bool,
    stopped: bool,
    loopStart: Option<real>,
    offer: Option<Offer>)

  const EmptyLog := Log(SessionSetupReq, 0.0, true, false, false, false, None, None)

  predicate Timed(req: Request) {
    req.AuthorizationReq? || req.ChargeParameterDiscoveryReq? || req.CableCheckReq? || req.PreChargeReq? || req.WeldingDetectionReq?
  }

  predicate SameKind(a: Request, b: Request) {
    Timed(a) && Timed(b) && a == b
  }

  predicate IsLoop(req: Request) { req.ChargingStatusReq? || req.CurrentDemandReq? }

  predicate GoodCableCheck(res: Response) {
    !res.failed && res.body.CableCheckRes? && res.body.finished && res.body.ready && res.body.isolation.Valid?
  }

  function OfferOf(body: Body, env: Env): Offer
    requires body.ServiceDiscoveryRes?
  {
    Offer(body.modes, body.chargeService, body.pncOffered, env.isTls, env.resumedPnc,
          if env.resumedMode.Some? then env.resumedMode.value else env.ownMode)
  }

  /** The station charges, and in the mode the car wants. */
  predicate Suits(offer: Offer) { offer.chargeService && offer.mode in offer.modes }

  /** Plug and Charge: as in the session resumed, or offered on a secured connection. */
  predicate PncAgreed(offer: Offer) { offer.resumedPnc == Some(true) || (offer.resumedPnc.None? && offer.pncOffered && offer.isTls) }

  function Observe(log: Log, input: Input, out: Outcome): Log {
    if !out.Sent? then log
    else
      var anew := out.req.ChargeParameterDiscoveryReq?;
      Log(
        out.req,
        input.env.now,
        log.clocked && input.env.now > 0.0,
        !anew && (log.cableChecked || (log.lastSent.CableCheckReq? && GoodCableCheck(input.res))),
        !anew && (log.precharged || (log.lastSent.PreChargeReq? && input.env.precharged && log.cableChecked)),
        log.stopped || (IsLoop(log.lastSent) && out.req == PowerDeliveryReq(Stop)),
        if !SameKind(log.lastSent, out.req) then None
        else if log.loopStart.Some? then log.loopStart
        else Some(input.env.now),
        if log.lastSent.ServiceDiscoveryReq? && input.res.body.ServiceDiscoveryRes? then Some(OfferOf(input.res.body, input.env))
        else log.offer)
  }

  datatype Trace = Trace(session: Session, log: Log, out: Outcome)

  function Next(trace: Trace, input: Input): Trace {
    var (session, out) := Step(trace.session, input.res, input.env);
    Trace(session, Observe(trace.log, input, out), out)
  }

  function Run(inputs: seq<Input>): Trace {
    if inputs == [] then Trace(Initial, EmptyLog, Sent(SessionSetupReq))
    else Next(Run(inputs[..|inputs| - 1]), inputs[|inputs| - 1])
  }

  /** The outcomes of a run, one per input. */
  function Outcomes(inputs: seq<Input>): (outs: seq<Outcome>)
    ensures |outs| == |inputs|
  {
    if inputs == [] then []
    else
      var last := |inputs| - 1;
      Outcomes(inputs[..last]) + [Step(Run(inputs[..last]).session, inputs[last].res, inputs[last].env).1]
  }

  /** What an observer makes of the messages alone. */
  function Observed(inputs: seq<Input>, outs: seq<Outcome>): Log
    requires |inputs| == |outs|
  {
    if inputs == [] then EmptyLog
    else
      var last := |inputs| - 1;
      Observe(Observed(inputs[..last], outs[..last]), inputs[last], outs[last])
  }

  lemma {:induction false} LogIsObserved(inputs: seq<Input>)
    ensures Run(inputs).log == Observed(inputs, Outcomes(inputs))
  {
    hide Step;
    if inputs != [] {
      var last := |inputs| - 1;
      LogIsObserved(inputs[..last]);
      assert Outcomes(inputs)[..last] == Outcomes(inputs[..last]);
    }
  }

  predicate Fits(state: State, req: Request) {
    match state
    case SessionSetup => req.SessionSetupReq?
    case ServiceDiscovery => req.ServiceDiscoveryReq?
    case ServiceDetail => req.ServiceDetailReq?
    case PaymentServiceSelection => req.PaymentServiceSelectionReq?
    case CertificateInstallation => req.CertificateInstallationReq?
    case PaymentDetails => req.PaymentDetailsReq?
    case Authorization => req.AuthorizationReq?
    case ChargeParameterDiscovery => req.ChargeParameterDiscoveryReq?
    case PowerDelivery => req.PowerDeliveryReq?
    case MeteringReceipt => req.MeteringReceiptReq?
    case ChargingStatus => req.ChargingStatusReq?
    case CableCheck => req.CableCheckReq?
    case PreCharge => req.PreChargeReq?
    case CurrentDemand => req.CurrentDemandReq?
    case WeldingDetection(_) => req.WeldingDetectionReq?
    case SessionStop => req.SessionStopReq?
    case Terminated => false
  }

  predicate SentMatchesState(trace: Trace) {
    if trace.out.Sent? then trace.out.req == trace.log.lastSent && Fits(trace.session.state, trace.log.lastSent)
    else trace.session.state.Terminated?
  }

  predicate ModeKnown(state: State) {
    !state.SessionSetup? && !state.ServiceDiscovery? && !state.Terminated?
  }

  predicate Prepared(s: Session, log: Log) {
    && (ModeKnown(s.state) ==> s.mode.Some?)
    && (s.state.ChargingStatus? || s.state.MeteringReceipt? ==> s.isAc)
    && (s.state.PreCharge? ==> log.cableChecked)
    && (s.state.CurrentDemand? ==> log.cableChecked && log.precharged)
    && (s.state.PowerDelivery? && !s.isAc ==> log.cableChecked && log.precharged && !s.renegotiation)
    && (s.renegotiation ==> s.isAc && !s.state.SessionSetup? && !s.state.ServiceDiscovery?)
    && (log.stopped ==> s.stopping)
    && (s.stopping ==> s.state.PowerDelivery? || s.state.WeldingDetection? || s.state.SessionStop? || s.state.Terminated?)
  }

  function Limit(req: Request): real
    requires Timed(req)
  {
    match req
    case CableCheckReq => 42.0
    case PreChargeReq => 9.0
    case WeldingDetectionReq => 62.0
    case _ => 60.0
  }

  predicate TimerInvariant(s: Session, log: Log) {
    if s.state.Terminated? || s.state.SessionStop? then true
    else if Timed(log.lastSent) then
      && s.timer == (if log.loopStart.Some? then log.loopStart.value else -1.0)
      && (log.loopStart.Some? ==> s.timer > 0.0 && log.now + s.wait <= s.timer + Limit(log.lastSent))
    else s.timer == -1.0
  }

  /** From the details on, the session's mode and payment option are those of an offer that suits the car. */
  predicate OfferKept(s: Session, log: Log) {
    ModeKnown(s.state) ==>
      log.offer.Some? && Suits(log.offer.value) && s.mode == Some(log.offer.value.mode) && (s.pnc <==> PncAgreed(log.offer.value))
  }

  /** The payment option on the wire. */
  predicate PaymentKept(log: Log, pnc: bool) {
    match log.lastSent
    case PaymentServiceSelectionReq(asked) => asked == pnc
    case CertificateInstallationReq => pnc
    case PaymentDetailsReq => pnc
    case _ => true
  }

  predicate Invariant(trace: Trace) {
    && SentMatchesState(trace)
    && Prepared(trace.session, trace.log)
    && OfferKept(trace.session, trace.log)
    && (!trace.session.state.Terminated? ==> PaymentKept(trace.log, trace.session.pnc))
    && (trace.log.clocked ==> TimerInvariant(trace.session, trace.log))
  }

  lemma SetupKeepsInvariant(trace: Trace, input: Input)
    requires Invariant(trace)
    requires trace.session.state.SessionSetup?
    ensures Invariant(Next(trace, input))
  {
  }

  /** The details the car wants: of the certificate services, for Plug and Charge over TLS without a contract certificate. */
  function Wanted(body: Body, env: Env): seq<int>
    requires body.ServiceDiscoveryRes?
  {
    if env.isTls && env.certInstallNeeded && PncAgreed(OfferOf(body, env)) then Certificates(body.services) else []
  }

  function DetailOr(details: seq<int>, otherwise: Request): Request {
    if details == [] then otherwise else ServiceDetailReq(details[|details| - 1])
  }

  /** A discovery ends with a station whose offer does not suit, and otherwise leads to the details or the payment option. */
  lemma DiscoveryReaction(s: Session, body: Body, env: Env)
    requires body.ServiceDiscoveryRes?
    ensures var (s', out) := OnServiceDiscovery(s, body, env);
      var offer, details := OfferOf(body, env), s.details + Wanted(body, env);
      && s'.stopping == s.stopping && s'.renegotiation == s.renegotiation
      && if !Suits(offer) then out == Quit(Held(s.state), false) && s'.state.Terminated?
         else
           && out == Sent(DetailOr(details, PaymentServiceSelectionReq(PncAgreed(offer))))
           && s' == s.(state := if details == [] then State.PaymentServiceSelection else State.ServiceDetail,
                       wait := if details == [] then 2.0 else 5.0,
                       pnc := PncAgreed(offer), mode := Some(offer.mode),
                       isAc := if env.resumedMode.Some? then s.isAc else env.ownMode.isAc,
                       details := if details == [] then [] else details[..|details| - 1])
  {
    hide OnServiceDiscovery;
    hide Certificates;
    hide NextDetail;
    hide Suits;
    hide PncAgreed;
    hide Wanted;
    DiscoveryTakesOver(s, body, env);
    DetailReaction(Taken(s, body, env));
  }

  /** The session with the option, the mode and the details of an offer that suits. */
  function Taken(s: Session, body: Body, env: Env): Session
    requires body.ServiceDiscoveryRes?
  {
    var offer := OfferOf(body, env);
    s.(pnc := PncAgreed(offer), mode := Some(offer.mode), details := s.details + Wanted(body, env),
       isAc := if env.resumedMode.Some? then s.isAc else env.ownMode.isAc)
  }

  lemma DiscoveryTakesOver(s: Session, body: Body, env: Env)
    requires body.ServiceDiscoveryRes?
    ensures var r := OnServiceDiscovery(s, body, env);
      if Suits(OfferOf(body, env)) then r == NextDetail(Taken(s, body, env))
      else r.1 == Quit(Held(s.state), false) && r.0.state.Terminated? && r.0.stopping == s.stopping && r.0.renegotiation == s.renegotiation
  {
    hide Certificates;
    hide NextDetail;
  }

  /** The last pending detail, or the payment option. */
  lemma DetailReaction(s: Session)
    ensures NextDetail(s) ==
      (s.(state := if s.details == [] then State.PaymentServiceSelection else State.ServiceDetail,
          wait := if s.details == [] then 2.0 else 5.0,
          details := if s.details == [] then [] else s.details[..|s.details| - 1]),
       Sent(DetailOr(s.details, PaymentServiceSelectionReq(s.pnc))))
  {
  }

  lemma DiscoveryKeepsInvariant(trace: Trace, input: Input)
    requires Invariant(trace)
    requires trace.session.state.ServiceDiscovery?
    ensures Invariant(Next(trace, input))
  {
    hide OnServiceDiscovery;
    hide Suits;
    hide PncAgreed;
    hide Wanted;
    if Passes(trace.session, input.res) {
      DiscoveryReaction(trace.session, input.res.body, input.env);
    }
  }

  lemma DetailKeepsInvariant(trace: Trace, input: Input)
    requires Invariant(trace)
    requires trace.session.state.ServiceDetail? || trace.session.state.PaymentServiceSelection?
    ensures Invariant(Next(trace, input))
  {
  }

  lemma CertificateKeepsInvariant(trace: Trace, input: Input)
    requires Invariant(trace)
    requires trace.session.state.CertificateInstallation? || trace.session.state.PaymentDetails?
    ensures Invariant(Next(trace, input))
  {
  }

  lemma AuthorizationKeepsInvariant(trace: Trace, input: Input)
    requires Invariant(trace)
    requires trace.session.state.Authorization?
    ensures Invariant(Next(trace, input))
  {
  }

  lemma ParametersKeepInvariant(trace: Trace, input: Input)
    requires Invariant(trace)
    requires trace.session.state.ChargeParameterDiscovery?
    ensures Invariant(Next(trace, input))
  {
  }

  lemma CableCheckKeepsInvariant(trace: Trace, input: Input)
    requires Invariant(trace)
    requires trace.session.state.CableCheck?
    ensures Invariant(Next(trace, input))
  {
  }

  lemma PreChargeKeepsInvariant(trace: Trace, input: Input)
    requires Invariant(trace)
    requires trace.session.state.PreCharge?
    ensures Invariant(Next(trace, input))
  {
  }

  lemma WeldingKeepsInvariant(trace: Trace, input: Input)
    requires Invariant(trace)
    requires trace.session.state.WeldingDetection?
    ensures Invariant(Next(trace, input))
  {
  }

  lemma DeliveryKeepsInvariant(trace: Trace, input: Input)
    requires Invariant(trace)
    requires trace.session.state.PowerDelivery?
    ensures Invariant(Next(trace, input))
  {
  }

  lemma ReceiptKeepsInvariant(trace: Trace, input: Input)
    requires Invariant(trace)
    requires trace.session.state.MeteringReceipt?
    ensures Invariant(Next(trace, input))
  {
  }

  lemma StatusKeepsInvariant(trace: Trace, input: Input)
    requires Invariant(trace)
    requires trace.session.state.ChargingStatus?
    ensures Invariant(Next(trace, input))
  {
  }

  lemma DemandKeepsInvariant(trace: Trace, input: Input)
    requires Invariant(trace)
    requires trace.session.state.CurrentDemand?
    ensures Invariant(Next(trace, input))
  {
  }

  lemma EndKeepsInvariant(trace: Trace, input: Input)
    requires Invariant(trace)
    requires trace.session.state.SessionStop? || trace.session.state.Terminated?
    ensures Invariant(Next(trace, input))
  {
  }

  lemma {:induction false} RunKeepsInvariant(inputs: seq<Input>)
    ensures Invariant(Run(inputs))
  {
    hide Next;
    if inputs != [] {
      var before, input := Run(inputs[..|inputs| - 1]), inputs[|inputs| - 1];
      RunKeepsInvariant(inputs[..|inputs| - 1]);
      match before.session.state {
        case SessionSetup => SetupKeepsInvariant(before, input);
        case ServiceDiscovery => DiscoveryKeepsInvariant(before, input);
        case ServiceDetail => DetailKeepsInvariant(before, input);
        case PaymentServiceSelection => DetailKeepsInvariant(before, input);
        case CertificateInstallation => CertificateKeepsInvariant(before, input);
        case PaymentDetails => CertificateKeepsInvariant(before, input);
        case Authorization => AuthorizationKeepsInvariant(before, input);
        case ChargeParameterDiscovery => ParametersKeepInvariant(before, input);
        case CableCheck => CableCheckKeepsInvariant(before, input);
        case PreCharge => PreChargeKeepsInvariant(before, input);
        case WeldingDetection(_) => WeldingKeepsInvariant(before, input);
        case PowerDelivery => DeliveryKeepsInvariant(before, input);
        case MeteringReceipt => ReceiptKeepsInvariant(before, input);
        case ChargingStatus => StatusKeepsInvariant(before, input);
        case CurrentDemand => DemandKeepsInvariant(before, input);
        case SessionStop => EndKeepsInvariant(before, input);
        case Terminated => EndKeepsInvariant(before, input);
      }
    }
  }

  /**
   Whatever the station answers: a current-demand request is only sent when, since the last
   charge-parameter discovery, a finished cable check reported the station ready and the
   isolation valid, and after that a precharge response satisfied the car's precharge test.
   */
  lemma {:induction false} CurrentDemandIsPrepared(inputs: seq<Input>)
    ensures Run(inputs).out == Sent(CurrentDemandReq) ==> Run(inputs).log.cableChecked && Run(inputs).log.precharged
  {
    RunKeepsInvariant(inputs);
    LoopInvariant(Run(inputs));
  }

  /** No charge-loop request follows a stop that a charge-loop state has sent. */
  lemma {:induction false} NoLoopAfterStop(inputs: seq<Input>)
    ensures Run(inputs).out.Sent? && IsLoop(Run(inputs).out.req) ==> !Run(inputs).log.stopped
  {
    RunKeepsInvariant(inputs);
    LoopInvariant(Run(inputs));
  }

  /** The requests that follow the service discovery. */
  predicate AfterDiscovery(req: Request) { !req.SessionSetupReq? && !req.ServiceDiscoveryReq? }

  predicate NeedsPnc(req: Request) {
    req == PaymentServiceSelectionReq(true) || req.CertificateInstallationReq? || req.PaymentDetailsReq?
  }

  /**
   Current is demanded only when prepared, nothing of a loop is sent after a stop, and after
   the service discovery nothing at all is sent to a station whose offer does not suit the
   car, and nothing of Plug and Charge unless it was agreed.
   */
  predicate SentPrepared(out: Outcome, log: Log) {
    && (out == Sent(CurrentDemandReq) ==> log.cableChecked && log.precharged)
    && (out.Sent? && IsLoop(out.req) ==> !log.stopped)
    && (out.Sent? && AfterDiscovery(out.req) ==> log.offer.Some? && Suits(log.offer.value))
    && (out.Sent? && NeedsPnc(out.req) ==> log.offer.Some? && PncAgreed(log.offer.value))
    && (out == Sent(PaymentServiceSelectionReq(false)) ==> log.offer.Some? && !PncAgreed(log.offer.value))
  }

  /** Whatever the station answers, the session's energy mode and payment option are those of the offer it took. */
  lemma {:induction false} ModeWasOffered(inputs: seq<Input>)
    ensures OfferKept(Run(inputs).session, Run(inputs).log)
  {
    RunKeepsInvariant(inputs);
  }

  lemma LoopInvariant(trace: Trace)
    requires Invariant(trace)
    ensures trace.out.Sent? && IsLoop(trace.out.req) ==> !trace.log.stopped
    ensures trace.out == Sent(CurrentDemandReq) ==> trace.log.cableChecked && trace.log.precharged
  {
  }

  /** A stop that follows a metering receipt is different: the accepted stop is followed by another charging status request. */
  lemma {:induction false} ReceiptStopGoesOn(inputs: seq<Input>, receipt: Input, delivered: Input)
    ensures ReceiptStops(Run(inputs), receipt) ==>
      && Run(inputs + [receipt]).out == Sent(PowerDeliveryReq(Stop))
      && (Passes(Run(inputs + [receipt]).session, delivered.res) ==>
           Run(inputs + [receipt] + [delivered]).out == Sent(ChargingStatusReq))
  {
    RunKeepsInvariant(inputs);
    assert (inputs + [receipt])[..|inputs|] == inputs;
    assert (inputs + [receipt] + [delivered])[..|inputs| + 1] == inputs + [receipt];
    ReceiptStop(Run(inputs), receipt, delivered);
  }

  predicate ReceiptStops(trace: Trace, receipt: Input) {
    && trace.session.state.MeteringReceipt? && !trace.session.renegotiation
    && Passes(trace.session, receipt.res) && receipt.res.body.notification.StopCharging?
  }

  lemma ReceiptStop(trace: Trace, receipt: Input, delivered: Input)
    requires Invariant(trace)
    ensures ReceiptStops(trace, receipt) ==>
      && Next(trace, receipt).out == Sent(PowerDeliveryReq(Stop))
      && (Passes(Next(trace, receipt).session, delivered.res) ==>
           Next(Next(trace, receipt), delivered).out == Sent(ChargingStatusReq))
  {
  }

  /** The timer is -1 whenever a state that loops has just been entered. */
  lemma {:induction false} TimerStartsUnset(inputs: seq<Input>)
    ensures var s, log := Run(inputs).session, Run(inputs).log;
      log.clocked && !s.state.Terminated? && Timed(log.lastSent) && log.loopStart.None? ==> s.timer == -1.0
  {
    RunKeepsInvariant(inputs);
    LoopsAreTimed(Run(inputs));
  }

  lemma LoopsAreTimed(trace: Trace)
    requires Invariant(trace)
    ensures Timed(trace.log.lastSent) ==> !trace.session.state.SessionStop?
  {
  }

  /**
   The response that ends or continues a loop arrives at most `Limit` seconds, and the time
   the car took to send its request, after the first one that kept the loop going: 60 s for
   Authorization and ChargeParameterDiscovery, whose waits are capped by the time left.
   */
  lemma {:induction false} OngoingDeadline(inputs: seq<Input>, lag: real, arrived: real)
    ensures var s, log := Run(inputs).session, Run(inputs).log;
      log.clocked && !s.state.Terminated? && Timed(log.lastSent) && log.loopStart.Some? && arrived <= log.now + lag + s.wait ==>
        arrived <= log.loopStart.value + Limit(log.lastSent) + lag
  {
    RunKeepsInvariant(inputs);
    LoopsAreTimed(Run(inputs));
  }

  /** The last outcome of a run is its trace's. */
  lemma SentOutcome(inputs: seq<Input>)
    requires inputs != []
    ensures Outcomes(inputs)[|inputs| - 1] == Run(inputs).out
  {
    hide Step;
  }

  lemma {:induction false} OutcomesPrefix(inputs: seq<Input>, n: nat)
    requires n <= |inputs|
    ensures Outcomes(inputs)[..n] == Outcomes(inputs[..n])
  {
    hide Step;
    if n == |inputs| {
      assert inputs[..n] == inputs;
    } else {
      OutcomesPrefix(inputs[..|inputs| - 1], n);
      assert inputs[..|inputs| - 1][..n] == inputs[..n];
    }
  }

  /** Every message sent along a run was prepared when it was sent, in the eyes of the observer. */
  predicate PreparedThroughout(inputs: seq<Input>, outs: seq<Outcome>)
    requires |inputs| == |outs|
  {
    forall i :: 0 <= i < |inputs| ==> SentPrepared(outs[i], Observed(inputs[..i + 1], outs[..i + 1]))
  }

  lemma PreparedAt(inputs: seq<Input>, i: nat)
    requires i < |inputs|
    ensures SentPrepared(Outcomes(inputs)[i], Observed(inputs[..i + 1], Outcomes(inputs)[..i + 1]))
  {
    hide Run;
    hide Outcomes;
    hide Observed;
    hide SentPrepared;
    var prefix := inputs[..i + 1];
    OutcomesPrefix(inputs, i + 1);
    assert Outcomes(inputs)[i] == Outcomes(inputs)[..i + 1][i];
    SentOutcome(prefix);
    LogIsObserved(prefix);
    SendsPrepared(prefix);
  }

  lemma AllPrepared(inputs: seq<Input>)
    ensures PreparedThroughout(inputs, Outcomes(inputs))
  {
    hide Run;
    hide Outcomes;
    hide Observed;
    hide SentPrepared;
    forall i | 0 <= i < |inputs| ensures SentPrepared(Outcomes(inputs)[i], Observed(inputs[..i + 1], Outcomes(inputs)[..i + 1])) {
      PreparedAt(inputs, i);
    }
  }

  lemma SendsPrepared(inputs: seq<Input>)
    ensures SentPrepared(Run(inputs).out, Run(inputs).log)
  {
    hide Run;
    RunKeepsInvariant(inputs);
    SendsPreparedNow(Run(inputs));
  }

  lemma SendsPreparedNow(trace: Trace)
    requires Invariant(trace)
    ensures SentPrepared(trace.out, trace.log)
  {
  }
}
