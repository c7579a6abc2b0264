/** The EVCC session object of ISO 15118-2 and its state handlers, field by field. */
module EvccV2Sessions {
  import opened Options
  import opened EvccV2Protocol
  import Conduct = EvccV2Conduct
  import Safety = EvccV2Safety

  datatype Next = Stay | To(state: State) | End

  class EvccV2Session {
    var current: State
    var next: Next
    var sid: string
    var pnc: bool
    var mode: Option<Mode>
    var isAc: bool
    var details: seq<int>
    var stopping: bool
    var renegotiation: bool
    var timer: real
    var wait: real

    constructor ()
      ensures Settled() == Initial && next == Stay
    {
      current, next, sid, pnc, mode, isAc := State.SessionSetup, Stay, "00", false, None, true;
      details, stopping, renegotiation, timer, wait := [], false, false, -1.0, 2.0;
    }

    function Settled(): Session
      reads this
    {
      var state := match next case Stay => current case To(state) => state case End => State.Terminated;
      Session(state, sid, pnc, mode, isAc, details, stopping, renegotiation, timer, wait)
    }

    method ProcessMessage(res: Response, env: Env) returns (out: Outcome)
      requires next == Stay
      modifies this
      ensures next == Stay
      ensures (Settled(), out) == old(Step(Settled(), res, env))
    {
      if current.Terminated? {
        return Raised;
      }
      var ok;
      ok, out := CheckMessage(res);
      if ok {
        match current {
          case SessionSetup =>
            sid := res.sid;
            out := CreateNextMessage(State.ServiceDiscovery, ServiceDiscoveryReq, 2.0);
          case ServiceDiscovery => out := ProcessServiceDiscovery(res.body, env);
          case ServiceDetail => out := PopDetail();
          case PaymentServiceSelection => out := ProcessPaymentServiceSelection(env);
          case CertificateInstallation => out := ProcessCertificateInstallation(env);
          case PaymentDetails => out := ProcessPaymentDetails(env);
          case Authorization => out := ProcessAuthorization(res.body.finished, env);
          case ChargeParameterDiscovery => out := ProcessChargeParameterDiscovery(res.body.finished, res.body.schedules, env);
          case PowerDelivery => out := ProcessPowerDelivery();
          case MeteringReceipt => out := ProcessMeteringReceipt(res.body.notification);
          case ChargingStatus => out := ProcessChargingStatus(res.body.receiptRequired, res.body.notification, env);
          case CableCheck => out := ProcessCableCheck(res.body, env);
          case PreCharge => out := ProcessPreCharge(env);
          case CurrentDemand => out := ProcessCurrentDemand(res.body.notification, env);
          case WeldingDetection(_) => out := ProcessWeldingDetection(env);
          case SessionStop => out := ProcessSessionStop();
        }
      }
      GoToNextState();
    }

    /** A whole session: every message is processed in turn. */
    method ReceiveAll(inputs: seq<Safety.Input>) returns (outs: seq<Outcome>)
      requires next == Stay && Settled() == Initial
      modifies this
      ensures next == Stay && Settled() == Safety.Run(inputs).session && outs == Safety.Outcomes(inputs)
      ensures Safety.PreparedThroughout(inputs, outs)
      ensures Conduct.ProperThroughout(inputs, outs)
    {
      outs := [];
      for i := 0 to |inputs|
        invariant next == Stay && Settled() == Safety.Run(inputs[..i]).session
        invariant outs == Safety.Outcomes(inputs[..i])
      {
        assert inputs[..i + 1][..i] == inputs[..i];
        var out := ProcessMessage(inputs[i].res, inputs[i].env);
        outs := outs + [out];
      }
      assert inputs[..|inputs|] == inputs;
      Safety.AllPrepared(inputs);
      Conduct.AllProper(inputs);
    }

    method GoToNextState()
      modifies this`current, this`next
      ensures next == Stay && Settled() == old(Settled())
    {
      match next {
        case Stay =>
        case To(state) => current := state;
        case End => current := State.Terminated;
      }
      next := Stay;
    }

    method CheckMessage(res: Response) returns (ok: bool, out: Outcome)
      requires next == Stay && !current.Terminated?
      modifies this`next
      ensures ok == Passes(old(Settled()), res)
      ensures ok ==> next == Stay
      ensures !ok ==> (Settled(), out) == StopNow(old(Settled()))
    {
      ok, out := true, Raised;
      if !Awaits(current, res.body) || res.failed || (!res.body.SessionSetupRes? && res.sid != sid) {
        ok := false;
        out := StopStateMachine();
      }
    }

    method StopStateMachine() returns (out: Outcome)
      requires next == Stay
      modifies this`next
      ensures (Settled(), out) == StopNow(old(Settled()))
    {
      next := End;
      out := Quit(Held(current), false);
    }

    method CreateNextMessage(state: State, req: Request, timeout: real) returns (out: Outcome)
      modifies this`next, this`wait
      ensures (Settled(), out) == Go(old(Settled()), state, req, timeout)
    {
      next, wait, out := To(state), timeout, Sent(req);
    }

    method ProcessServiceDiscovery(body: Body, env: Env) returns (out: Outcome)
      requires next == Stay && body.ServiceDiscoveryRes?
      modifies this
      ensures (Settled(), out) == OnServiceDiscovery(old(Settled()), body, env)
    {
      if !body.chargeService {
        out := StopStateMachine();
        return;
      }
      if env.resumedPnc.Some? {
        pnc := env.resumedPnc.value;
      } else {
        pnc := body.pncOffered && env.isTls;
      }
      if env.isTls && pnc && env.certInstallNeeded {
        SelectCertificates(body.services);
      }
      assert old(details) + [] == old(details);
      if env.resumedMode.Some? {
        mode := env.resumedMode;
      } else {
        mode := Some(env.ownMode);
        isAc := env.ownMode.isAc;
      }
      if mode.value !in body.modes {
        out := StopStateMachine();
        return;
      }
      out := PopDetail();
    }

    method SelectCertificates(services: seq<Service>)
      modifies this`details
      ensures details == old(details) + Certificates(services)
    {
      for i := 0 to |services|
        invariant details == old(details) + Certificates(services[..i])
      {
        assert services[..i + 1][..i] == services[..i];
        if services[i].isCertificate {
          details := details + [services[i].id];
        }
      }
      assert services[..|services|] == services;
    }

    method PopDetail() returns (out: Outcome)
      requires next == Stay
      modifies this
      ensures (Settled(), out) == NextDetail(old(Settled()))
    {
      if |details| == 0 {
        out := CreateNextMessage(State.PaymentServiceSelection, PaymentServiceSelectionReq(pnc), 2.0);
      } else {
        var id := details[|details| - 1];
        details := details[..|details| - 1];
        out := CreateNextMessage(State.ServiceDetail, ServiceDetailReq(id), 5.0);
      }
    }

    method ProcessPaymentServiceSelection(env: Env) returns (out: Outcome)
      requires next == Stay
      modifies this
      ensures (Settled(), out) == OnPaymentServiceSelection(old(Settled()), env)
    {
      if pnc {
        if env.certInstallNeeded {
          if !env.keyReadable {
            out := StopStateMachine();
            return;
          }
          out := CreateNextMessage(State.CertificateInstallation, CertificateInstallationReq, 5.0);
        } else {
          if !env.filesPresent {
            out := StopStateMachine();
            return;
          }
          out := CreateNextMessage(State.PaymentDetails, PaymentDetailsReq, 5.0);
        }
      } else {
        out := CreateNextMessage(State.Authorization, AuthorizationReq, 2.0);
      }
    }

    method ProcessCertificateInstallation(env: Env) returns (out: Outcome)
      requires next == Stay
      modifies this
      ensures (Settled(), out) == if env.installationValid && env.keyReadable
        then Go(old(Settled()), State.PaymentDetails, PaymentDetailsReq, 5.0) else StopNow(old(Settled()))
    {
      if !env.installationValid || !env.keyReadable {
        out := StopStateMachine();
      } else {
        out := CreateNextMessage(State.PaymentDetails, PaymentDetailsReq, 5.0);
      }
    }

    method ProcessPaymentDetails(env: Env) returns (out: Outcome)
      requires next == Stay
      modifies this
      ensures (Settled(), out) == if env.keyReadable
        then Go(old(Settled()), State.Authorization, AuthorizationReq, 2.0) else StopNow(old(Settled()))
    {
      if env.keyReadable {
        out := CreateNextMessage(State.Authorization, AuthorizationReq, 2.0);
      } else {
        out := StopStateMachine();
      }
    }

    /** The Ongoing timer of the looping states: stops the session, or tells how long the loop has lasted. */
    method CheckOngoingTimer(now: real, limit: real) returns (inTime: bool, elapsed: real, out: Outcome)
      requires next == Stay && limit >= 0.0
      modifies this`next, this`timer
      ensures inTime <==> Elapsed(old(Settled()), now) <= limit
      ensures inTime ==> Settled() == Started(old(Settled()), now) && next == Stay && elapsed == Elapsed(old(Settled()), now)
      ensures !inTime ==> (Settled(), out) == StopNow(old(Settled()))
    {
      inTime, elapsed, out := true, 0.0, Raised;
      if timer >= 0.0 {
        elapsed := now - timer;
        if elapsed > limit {
          inTime := false;
          out := StopStateMachine();
        }
      } else {
        timer := now;
      }
    }

    method ProcessAuthorization(finished: bool, env: Env) returns (out: Outcome)
      requires next == Stay
      modifies this
      ensures (Settled(), out) == OnAuthorization(old(Settled()), finished, env)
    {
      if finished {
        timer := -1.0;
        out := CreateNextMessage(State.ChargeParameterDiscovery, ChargeParameterDiscoveryReq, 2.0);
        return;
      }
      var inTime, elapsed;
      inTime, elapsed, out := CheckOngoingTimer(env.now, OngoingTimeout);
      if inTime {
        out := CreateNextMessage(State.Authorization, AuthorizationReq, Min(2.0, OngoingTimeout - elapsed));
      }
    }

    method ProcessChargeParameterDiscovery(finished: bool, schedules: nat, env: Env) returns (out: Outcome)
      requires next == Stay
      modifies this
      ensures (Settled(), out) == OnChargeParameterDiscovery(old(Settled()), finished, schedules, env)
    {
      if finished {
        timer := -1.0;
        if schedules == 0 {
          next, out := End, Raised;
        } else if isAc {
          out := CreateNextMessage(State.PowerDelivery, PowerDeliveryReq(Start), 5.0);
        } else {
          out := CreateNextMessage(State.CableCheck, CableCheckReq, 2.0);
        }
        return;
      }
      var inTime, elapsed;
      inTime, elapsed, out := CheckOngoingTimer(env.now, OngoingTimeout);
      if inTime {
        out := CreateNextMessage(State.ChargeParameterDiscovery, ChargeParameterDiscoveryReq, Min(2.0, OngoingTimeout - elapsed));
      }
    }

    method ProcessPowerDelivery() returns (out: Outcome)
      requires next == Stay
      modifies this
      ensures (Settled(), out) == OnPowerDelivery(old(Settled()))
    {
      if stopping && isAc {
        out := CreateNextMessage(State.SessionStop, SessionStopReq, 2.0);
      } else if stopping {
        out := CreateNextMessage(State.WeldingDetection(false), WeldingDetectionReq, 2.0);
      } else if renegotiation {
        renegotiation := false;
        out := CreateNextMessage(State.ChargeParameterDiscovery, ChargeParameterDiscoveryReq, 2.0);
      } else if mode.Some? && isAc {
        out := CreateNextMessage(State.ChargingStatus, ChargingStatusReq, 2.0);
      } else {
        out := CreateNextMessage(State.CurrentDemand, CurrentDemandReq, 2.0);
      }
    }

    method ProcessMeteringReceipt(notification: Notification) returns (out: Outcome)
      requires next == Stay
      modifies this
      ensures (Settled(), out) == OnMeteringReceipt(old(Settled()), notification)
    {
      if notification.StopCharging? {
        out := CreateNextMessage(State.PowerDelivery, PowerDeliveryReq(Stop), 5.0);
      } else if notification.ReNegotiation? {
        renegotiation := true;
        out := CreateNextMessage(State.PowerDelivery, PowerDeliveryReq(Renegotiate), 5.0);
      } else if mode.Some? && isAc {
        out := CreateNextMessage(State.ChargingStatus, ChargingStatusReq, 2.0);
      } else {
        out := CreateNextMessage(State.CurrentDemand, CurrentDemandReq, 2.0);
      }
    }

    method StopCharging() returns (out: Outcome)
      requires next == Stay
      modifies this
      ensures (Settled(), out) == StopLoop(old(Settled()))
    {
      out := CreateNextMessage(State.PowerDelivery, PowerDeliveryReq(Stop), 5.0);
      stopping := true;
    }

    method ProcessChargingStatus(receiptRequired: bool, notification: Notification, env: Env) returns (out: Outcome)
      requires next == Stay
      modifies this
      ensures (Settled(), out) == OnChargingStatus(old(Settled()), receiptRequired, notification, env)
    {
      if receiptRequired && env.isTls {
        if !env.keyReadable {
          out := StopStateMachine();
          return;
        }
        out := CreateNextMessage(State.MeteringReceipt, MeteringReceiptReq, 2.0);
      } else if notification.ReNegotiation? {
        renegotiation := true;
        out := CreateNextMessage(State.PowerDelivery, PowerDeliveryReq(Renegotiate), 5.0);
      } else if notification.StopCharging? {
        out := StopCharging();
      } else if env.continueCharging {
        out := CreateNextMessage(State.ChargingStatus, ChargingStatusReq, 2.0);
      } else {
        out := StopCharging();
      }
    }

    method ProcessCableCheck(body: Body, env: Env) returns (out: Outcome)
      requires next == Stay && body.CableCheckRes? && current.CableCheck?
      modifies this
      ensures (Settled(), out) == OnCableCheck(old(Settled()), body, env)
    {
      if body.finished {
        timer := -1.0;
        if body.ready && body.isolation.Valid? {
          out := CreateNextMessage(State.PreCharge, PreChargeReq, 2.0);
        } else {
          out := StopStateMachine();
        }
        return;
      }
      var inTime, elapsed;
      inTime, elapsed, out := CheckOngoingTimer(env.now, CableCheckTimeout);
      if inTime {
        out := CreateNextMessage(State.CableCheck, CableCheckReq, 2.0);
      }
    }

    method ProcessPreCharge(env: Env) returns (out: Outcome)
      requires next == Stay
      modifies this
      ensures (Settled(), out) == OnPreCharge(old(Settled()), env)
    {
      if env.precharged {
        timer := -1.0;
        out := CreateNextMessage(State.PowerDelivery, PowerDeliveryReq(Start), 5.0);
        return;
      }
      var inTime, elapsed;
      inTime, elapsed, out := CheckOngoingTimer(env.now, PreChargeTimeout);
      if inTime {
        out := CreateNextMessage(State.PreCharge, PreChargeReq, 2.0);
      }
    }

    method ProcessCurrentDemand(notification: Notification, env: Env) returns (out: Outcome)
      requires next == Stay
      modifies this
      ensures (Settled(), out) == if notification.StopCharging? || !env.continueCharging then StopLoop(old(Settled()))
        else Go(old(Settled()), State.CurrentDemand, CurrentDemandReq, 5.0)
    {
      if notification.StopCharging? {
        out := StopCharging();
      } else if env.continueCharging {
        out := CreateNextMessage(State.CurrentDemand, CurrentDemandReq, 5.0);
      } else {
        out := StopCharging();
      }
    }

    /** An unfinished detection stays in the state and keeps its request. */
    method ProcessWeldingDetection(env: Env) returns (out: Outcome)
      requires next == Stay && current.WeldingDetection?
      modifies this
      ensures (Settled(), out) == OnWeldingDetection(old(Settled()), env)
    {
      if timer > 0.0 {
        if env.now - timer > OngoingTimeout {
          out := StopStateMachine();
          return;
        }
      } else if timer == -1.0 {
        timer := env.now;
      }
      if env.weldingFinished {
        out := CreateNextMessage(State.SessionStop, SessionStopReq, 2.0);
      } else {
        current := State.WeldingDetection(true);
        wait, out := 2.0, Sent(WeldingDetectionReq);
      }
    }

    method ProcessSessionStop() returns (out: Outcome)
      requires next == Stay
      modifies this`next
      ensures (Settled(), out) == if old(stopping) then (old(Settled()).(state := State.Terminated), Quit(None, true)) else Crash(old(Settled()))
    {
      next := End;
      out := if stopping then Quit(None, true) else Raised;
    }
  }
}
