# A verified model of the ISO 15118 charging stack

The project models the communication of a vehicle (EVCC) and a charging station (SECC) as the
Python stack under `iso15118_core/` implements it, and proves what the two sides keep, alone
and together. `dafny verify dfyconfig.toml` checks everything.

The state machines come twice: as a transition function over message datatypes, and as a class
whose methods follow the handlers field by field and are proved to do exactly what the function
says. Each class has a method `ReceiveAll` that processes a list of messages one after the other
and states the safety theorem of the final object, in terms of the messages it has sent.

The three `Conduct` modules hold a reference that knows no state objects: a `History` that an
observer of the wire can keep, the requests that may follow an exchange, and a predicate `Proper`
that says what an exchange must lead to, with numbers such as the time limits written out. Their
theorems say that every run of the state machines conducts itself like that, message by message.

| file | contents |
|---|---|
| `Messages.dfy` | the ISO 15118-20 messages, reduced to the fields on which some state branches |
| `SeccProtocol.dfy`, `SeccSession.dfy`, `SeccSafety.dfy`, `SeccConduct.dfy` | the station: transition function, session class, what holds against every car, and its conduct as an observer of the wire can predict it |
| `EvccProtocol.dfy`, `EvccSession.dfy`, `EvccSafety.dfy`, `EvccConduct.dfy` | the car: the same against every station |
| `Joint.dfy`, `JointServices.dfy`, `JointWitness.dfy` | both machines against each other: accepted requests, agreement on services, two runs in which one of these fails |
| `Battery.dfy`, `BatteryControl.dfy`, `Diagnostic.dfy` | the car's energy integrator, its charge controller, the charge/discharge test |
| `Termination.dfy`, `LoopEntry.dfy` | joint sessions driven by that controller: DC sessions end, on both sides; with what the car enters the loop and when it leaves it |
| `EvccV2Protocol.dfy`, `EvccV2Session.dfy`, `EvccV2Safety.dfy`, `EvccV2Conduct.dfy` | the car in ISO 15118-2 |
| `Sap.dfy`, `Sdp.dfy`, `SessionLoop.dfy`, `SessionTable.dfy`, `V2gtp.dfy` | protocol negotiation, discovery, receive loop, session table, framing |
| `Schedule.dfy`, `CertChain.dfy` | charging schedules and certificate chains |

Clocks, random choices, the charging station's hardware, keys and files answer through the `Env`
and `Input` parameters of the steps; nothing is assumed about them unless a lemma says so.

## Where the code does not do what one expects

Each of these comes with the input that shows it and with the exact condition under which the
property holds.

* A station that supports renegotiation accepts a session stop asking for it before any
  authorization and goes on to service discovery. `SeccSafety.ChargeLoopIsEarned` shows that this,
  and an accepted pair that no detail had published, are the only ways into a charge loop that has
  not been earned; `SeccSafety.EarlyRenegotiation` is a run of the first kind.
* A value-added service that brings parameter sets under an AC or DC service id makes those sets
  selectable without any detail. `SeccSafety.ServedExactlyWhenHarmless` says which offers rule this
  out and constructs a run for every other one.
* After a precharge request that is finished the station takes no further precharge request. A car
  whose precharge test then fails sends one all the same. `JointSessions.AcceptedExactlyWhenSteady`
  shows that this is the only way a joint run can have a request refused by type or session id.
* The station looks up the selected set by id in all matched services and lets the last one win.
  `JointServices.SelectionsAgree` shows that both sides then hold the same service, set and control
  mode exactly when no value-added service holds another set under the same two ids, and
  `JointWitness.SharedIdDisagrees` is a run in which they do not.
* For a value-added service whose details it never requests the car names set 1. The station refuses
  the whole selection when it has no such set; see `JointServices.RefusedExactly`.
* In Dynamic mode the car sets its power from its own limit and the price level, without the
  station's limit (`BatteryControl.DynamicPowerBounds`); `BatteryControl.PowerStaysWithinLimits` is
  about Scheduled sessions.
* In an AC session in Scheduled mode the simulated battery never gets any power and the loop never
  ends (`Diagnostic.NoPowerNeverEnds`).
* A schedule entry of duration zero counts as one without a duration; see
  `Schedule.MeaningPreservedExactly`.
* `CertChain.PublicChainExactly` says what acceptance means for keys of any type, since an error
  other than a wrong signature or an unsupported algorithm is only logged.

## Where code and documentation differ

The model follows the code in each case.

* An authorization answer is finished also when the station rejects
  (`iso15118_core/iso15118/secc/states/iso15118_20_states.py:472-473`).
* The loop that should record the selected value-added services compares the energy service id
  where it has just been found different, so it records nothing (lines 859-871 of that file).
* A standby request takes the start branch where standby is allowed, although the comment names
  start and schedule renegotiation as the only options left (lines 1111-1115).
* The comment on parameter sets says Dynamic is advertised first; the loop starts with Scheduled
  (`iso15118_core/iso15118/secc/controller/simulator.py:490-499`).
* The car's diagnostic parameters always keep their defaults, because it never requests the details
  of a value-added service (`iso15118_core/iso15118/evcc/states/iso15118_20_states.py:519-523`).
* A missing message is said to be allowed before Terminate or Pause; before Pause it raises
  (`iso15118_core/iso15118/shared/comm_session.py:252-260` and 497-498).
* The comment on path lengths gives 0 for both kinds of sub-CA; the code expects 0 and 1
  (`iso15118_core/iso15118/shared/security.py:553-562`).
* Removing DIN SPEC 70121 over TLS takes out one entry only, and from the configuration itself
  (`iso15118_core/iso15118/evcc/comm_session_handler.py:172-180`).
* In ISO 15118-2 a stop asked for in a metering receipt is sent but not remembered, and charging
  goes on (`iso15118_core/iso15118/evcc/states/iso15118_2_states.py:980-992`).

## Model

| member | source | states |
|---|---|---|
| `SeccProtocol.IdKept` | iso15118_core/iso15118/secc/states/iso15118_20_states.py:133-185 | Only an accepted session setup changes the session id. |
| `SeccProtocol.FirstSetIsFirst` | iso15118_core/iso15118/secc/states/iso15118_20_states.py:839-857 | Of several sets with the id the first one is taken. |
| `SeccSessions.ExpectedKindsAreAccepted` | iso15118_core/iso15118/secc/states/secc_state.py:236-268 | A message type passes exactly when it is in the state's list, and is the head of the list while the state insists on its first message. |
| `SeccSessions.SeccSession.constructor` | iso15118_core/iso15118/shared/comm_session.py:318-342 | A new session starts in the initial state with nothing matched, selected or offered. |
| `SeccSessions.SeccSession.ProcessMessage` | iso15118_core/iso15118/shared/comm_session.py:148-273 | One turn of the receive loop leaves the session and its reply as the transition function says, whichever state object ends up answering and whatever it overwrites. |
| `SeccSessions.SeccSession.ReceiveAll` | iso15118_core/iso15118/shared/comm_session.py:433-548 | A session object fed with any messages ends as the transition function's run; it has answered each message as the observer's table demands and accepts next exactly what that table welcomes; in a charge loop it has earned it exactly when no renegotiation came before the authorization and the accepted pair had been published; high-level-controlled charging is on exactly from an accepted start to the next accepted stop. |
| `SeccSessions.SeccSession.GoToNextState` | iso15118_core/iso15118/shared/comm_session.py:262-273 | Moves to the prepared next state, or stays; nothing else changes. |
| `SeccSessions.SeccSession.CheckMessage` | iso15118_core/iso15118/secc/states/secc_state.py:166-289 | Accepts exactly the types the state expects at that moment with the session's id, and leaves the session alone then; otherwise prepares a failed response of the request's own type and ends. |
| `SeccSessions.SeccSession.StopStateMachine` | iso15118_core/iso15118/secc/states/secc_state.py:291-375 | The failed response of the request's type carries the session id, and the next state is Terminate. |
| `SeccSessions.SeccSession.ProcessSessionSetup` | iso15118_core/iso15118/secc/states/iso15118_20_states.py:133-185 | The stored id is joined only when the request carries it and it is not the reset id; otherwise a fresh id is given out. |
| `SeccSessions.SeccSession.ProcessAuthorizationSetup` | iso15118_core/iso15118/secc/states/iso15118_20_states.py:214-300 | Answers its own message or hands on certificate installation, authorization and session stop; afterwards it no longer insists on its own message. |
| `SeccSessions.SeccSession.ProcessCertificateInstallation` | iso15118_core/iso15118/secc/states/iso15118_20_states.py:312-323 | Raises before it looks at the message. |
| `SeccSessions.SeccSession.ProcessAuthorization` | iso15118_core/iso15118/secc/states/iso15118_20_states.py:352-494 | With Plug and Charge parameters the signature must be valid; the processing value follows the station's status: finished also for a rejection, waiting for the customer only when Plug and Charge is not the selected option; the next message may be another kind only after finished. |
| `SeccSessions.SeccSession.ProcessServiceDiscovery` | iso15118_core/iso15118/secc/states/iso15118_20_states.py:519-595 | Adds the offered energy and value-added services to the matched list and reports them. |
| `SeccSessions.SeccSession.MatchOffers` | iso15118_core/iso15118/secc/states/iso15118_20_states.py:551-577 | Every offered service is appended in order; only value-added services come with parameter sets. |
| `SeccSessions.SeccSession.ProcessServiceDetail` | iso15118_core/iso15118/secc/states/iso15118_20_states.py:638-710 | Serves details, or hands on a service selection or session stop. |
| `SeccSessions.SeccSession.ServeDetail` | iso15118_core/iso15118/secc/states/iso15118_20_states.py:672-710 | The answer carries the sets for the id and fails exactly when no offered service has it. |
| `SeccSessions.SeccSession.StoreParameterSets` | iso15118_core/iso15118/secc/states/iso15118_20_states.py:678-684 | The first matched entry with the id takes the sets, all others are unchanged; reports whether there was one. |
| `SeccSessions.SeccSession.ProcessServiceSelection` | iso15118_core/iso15118/secc/states/iso15118_20_states.py:722-778 | Leads to AC or DC parameters by the selected id when all selected pairs are offered, and refuses otherwise. |
| `SeccSessions.SeccSession.CheckSelectedServices` | iso15118_core/iso15118/secc/states/iso15118_20_states.py:780-885 | Valid exactly when the energy pair and all value-added pairs are offered; records the last matching set and its control mode; the list of selected value-added services never changes. |
| `SeccSessions.SeccSession.OfferedPairs` | iso15118_core/iso15118/secc/states/iso15118_20_states.py:799-803 | Exactly the pairs of service id and parameter set id of the matched services. |
| `SeccSessions.SeccSession.FirstWithId` | iso15118_core/iso15118/secc/states/iso15118_20_states.py:839-857 | The first parameter set with the id, if any. |
| `SeccSessions.SeccSession.ProcessScheduleExchange` | iso15118_core/iso15118/secc/states/iso15118_20_states.py:908-1014 | Exchanges schedules, or hands on a cable check, power delivery or session stop. |
| `SeccSessions.SeccSession.OfferSchedule` | iso15118_core/iso15118/secc/states/iso15118_20_states.py:939-1014 | The tuples become the offered schedules exactly when the exchange is finished in Scheduled mode; AC moves on to power delivery then, DC stays. |
| `SeccSessions.SeccSession.ProcessPowerDelivery` | iso15118_core/iso15118/secc/states/iso15118_20_states.py:1026-1193 | Delivers power, or hands on a welding detection or session stop. |
| `SeccSessions.SeccSession.DeliverPower` | iso15118_core/iso15118/secc/states/iso15118_20_states.py:1053-1193 | Ongoing changes nothing; a stop switches charging off and needs the contactor open; any other progress needs an offered schedule id in Scheduled mode and the contactor closed, switches charging on and enters the loop of the selected service. |
| `SeccSessions.SeccSession.ProcessSessionStop` | iso15118_core/iso15118/secc/states/iso15118_20_states.py:1238-1307 | Ends the session, unless a renegotiation is asked for and supported: then service discovery follows. |
| `SeccSessions.SeccSession.ProcessChargeParameters` | iso15118_core/iso15118/secc/states/iso15118_20_states.py:1516-1578 | With acceptable parameters of the car goes on to the schedule exchange, else refuses; AC and DC alike. |
| `SeccSessions.SeccSession.ProcessAcLoop` | iso15118_core/iso15118/secc/states/iso15118_20_states.py:1400-1495 | Answers a loop request, failing when the selected service is not an AC service, or hands on power delivery and session stop. |
| `SeccSessions.SeccSession.ProcessCableCheck` | iso15118_core/iso15118/secc/states/iso15118_20_states.py:1606-1689 | The check is finished only when the contactor was reported closed in an earlier turn and the isolation is valid or a warning; open contactors and bad isolation are refused. |
| `SeccSessions.SeccSession.ProcessPreCharge` | iso15118_core/iso15118/secc/states/iso15118_20_states.py:1702-1762 | A finished precharge request hands over to power delivery, an ongoing one stays; power delivery is accepted once one precharge request was answered. |
| `SeccSessions.SeccSession.ProcessDcLoop` | iso15118_core/iso15118/secc/states/iso15118_20_states.py:1775-1849 | Answers a loop request when the charging command succeeds, failing when the selected service is not a DC service, or hands on power delivery. |
| `SeccSessions.SeccSession.ProcessWelding` | iso15118_core/iso15118/secc/states/iso15118_20_states.py:1928-1968 | Answers welding detection, or hands on a session stop once one has been answered. |
| `SeccSafety.ChargeLoopIsEarned` | iso15118_core/iso15118/secc/states/iso15118_20_states.py:1042-1193 | Whatever the car sends: a session in a charge loop has seen an authorization answered finished, with a valid signature if there was one and a station that had made up its mind, an accepted pair whose details had been served, parameters of the same AC or DC kind since, a last start with the contactor closed and, in Scheduled mode, a schedule id of the last finished exchange - exactly when no supported renegotiation came before the authorization and the accepted pair had been served, which harmless value-added offers guarantee. |
| `SeccSafety.HlcFollowsStartAndStop` | iso15118_core/iso15118/secc/states/iso15118_20_states.py:1088-1160 | In every run, while a session lives, high-level-controlled charging is on exactly from an accepted start to the next accepted stop. |
| `SeccSafety.WithoutRenegotiationNeverEarly` | iso15118_core/iso15118/secc/controller/simulator.py:778-780 | A station that does not support renegotiation never meets the early one. |
| `SeccSafety.EarlyRenegotiation` | iso15118_core/iso15118/secc/states/iso15118_20_states.py:1255-1264 | A concrete run with renegotiation supported reaches a charge loop without a finished authorization. |
| `SeccSafety.ServedExactlyWhenHarmless` | iso15118_core/iso15118/secc/states/iso15118_20_states.py:551-577 | For a value-added offer, every run that reaches a charge loop had been served the pair it selected exactly when the offer brings no parameter sets under an AC or DC service id. |
| `SeccSafety.UnservedRun` | iso15118_core/iso15118/secc/states/iso15118_20_states.py:799-857 | For every other offer a run that reaches a charge loop with a pair that no detail had published. |
| `SeccConduct.PassesExactlyTheWelcome` | iso15118_core/iso15118/secc/states/secc_state.py:166-289 | In every run the station passes a request exactly when the last answered exchange, the session id given out and the kind of the accepted service allow it to follow, by a table without state objects. |
| `SeccConduct.AnswersAreProper` | iso15118_core/iso15118/secc/states/iso15118_20_states.py:133-1968 | In every run each request that may follow is answered as the observer's history and the station's readings demand: session id, offers, authorization, refusals with their exact causes, schedules, contactor, isolation, status; every other request is refused; and the session is over exactly when the observer says so. |
| `SeccConduct.AuthorizationIsEarned` | iso15118_core/iso15118/secc/states/iso15118_20_states.py:396-473 | After any messages: an invalid signature gets a failed answer that ends the session and nothing else does; a finished answer that is not a failure means a valid or absent signature and a station that has made up its mind; while it has not, Plug and Charge is ongoing and everything else waits for the customer. |
| `EvccSessions.EvccSession.constructor` | iso15118_core/iso15118/evcc/comm_session_handler.py:77-146 | The session starts waiting for the session setup response with an unset ongoing timer. |
| `EvccSessions.EvccSession.ProcessMessage` | iso15118_core/iso15118/shared/comm_session.py:148-273 | One turn of the receive loop leaves the session and the next request as the transition function says. |
| `EvccSessions.EvccSession.ReceiveAll` | iso15118_core/iso15118/shared/comm_session.py:433-548 | A session object fed with any responses ends as the transition function's run; each of its requests and its end are the proper reaction in the observer's eyes, and whenever it sent a DC loop request or a service selection, the messages before it had prepared it. |
| `EvccSessions.EvccSession.GoToNextState` | iso15118_core/iso15118/shared/comm_session.py:262-273 | Moves to the prepared next state, or stays with the message it holds. |
| `EvccSessions.EvccSession.CheckMessage` | iso15118_core/iso15118/evcc/states/evcc_state.py:146-234 | Passes exactly the awaited type without a failed code and with the session id; otherwise the session stops. |
| `EvccSessions.EvccSession.StopStateMachine` | iso15118_core/iso15118/evcc/states/evcc_state.py:236-249 | The session terminates; a state that stayed put still sends the message it holds. |
| `EvccSessions.EvccSession.ProcessSessionSetup` | iso15118_core/iso15118/evcc/states/iso15118_20_states.py:127-159 | Takes over the id the station gives out and asks for the authorization setup. |
| `EvccSessions.EvccSession.ProcessAuthorizationSetup` | iso15118_core/iso15118/evcc/states/iso15118_20_states.py:171-318 | Installs a certificate when offered and needed and the provisioning key is readable; otherwise Plug and Charge exactly when offered and the contract key is readable. |
| `EvccSessions.EvccSession.ProcessAuthorization` | iso15118_core/iso15118/evcc/states/iso15118_20_states.py:353-429 | Finished resets the timer; otherwise the loop starts or continues the timer, stops after 60 s, and waits no longer than the time left. |
| `EvccSessions.EvccSession.ProcessServiceDiscovery` | iso15118_core/iso15118/evcc/states/iso15118_20_states.py:441-538 | Passes the response on to the matching of services after the check. |
| `EvccSessions.EvccSession.DiscoverServices` | iso15118_core/iso15118/evcc/states/iso15118_20_states.py:461-538 | Without any matched service the session is stopped; otherwise value-added services are listed and the first detail is requested. |
| `EvccSessions.EvccSession.MatchOffers` | iso15118_core/iso15118/evcc/states/iso15118_20_states.py:465-480 | One entry and one pending detail per equal pair of offered and supported service, in offer order. |
| `EvccSessions.EvccSession.MatchOffer` | iso15118_core/iso15118/evcc/states/iso15118_20_states.py:466-480 | The pairs of one offered service. |
| `EvccSessions.EvccSession.ListVas` | iso15118_core/iso15118/evcc/states/iso15118_20_states.py:507-538 | Value-added services are listed without requesting their details. |
| `EvccSessions.EvccSession.PopDetail` | iso15118_core/iso15118/evcc/states/iso15118_20_states.py:526-538 | Requests the last pending detail and removes it; an empty list raises. |
| `EvccSessions.EvccSession.ProcessServiceDetail` | iso15118_core/iso15118/evcc/states/iso15118_20_states.py:550-625 | Stores the sets of every entry with the id and goes on with the next detail. |
| `EvccSessions.EvccSession.NextDetail` | iso15118_core/iso15118/evcc/states/iso15118_20_states.py:564-625 | Drains the pending details; then selects the first match with its first set, or stops the session when that set has no control mode. |
| `EvccSessions.EvccSession.StoreParameterSets` | iso15118_core/iso15118/evcc/states/iso15118_20_states.py:672-686 | Every entry with the id takes the sets. |
| `EvccSessions.EvccSession.IsControlModeSet` | iso15118_core/iso15118/evcc/states/iso15118_20_states.py:659-670 | The last control mode of the set wins; false exactly when there is none. |
| `EvccSessions.EvccSession.SelectVasServices` | iso15118_core/iso15118/evcc/controller/simulator.py:314-353 | All value-added services, or only the first with the configured diagnostic id, or none when it is not offered. |
| `EvccSessions.EvccSession.ProcessServiceSelection` | iso15118_core/iso15118/evcc/states/iso15118_20_states.py:698-788 | Asks for AC or DC parameters by the selected service and remembers which; another service builds no message and raises. |
| `EvccSessions.EvccSession.ProcessChargeParameters` | iso15118_core/iso15118/evcc/states/iso15118_20_states.py:1373-1412 | Goes on to the schedule exchange. |
| `EvccSessions.EvccSession.ProcessScheduleExchange` | iso15118_core/iso15118/evcc/states/iso15118_20_states.py:800-895 | Repeats while ongoing; otherwise remembers the offer and goes on to power delivery for AC and to the cable check for DC. |
| `EvccSessions.EvccSession.CreatePowerDelivery` | iso15118_core/iso15118/evcc/states/iso15118_20_states.py:1069-1120 | Builds the request from the remembered offer; a profile that is not ready makes it ongoing. |
| `EvccSessions.EvccSession.ProcessPowerDelivery` | iso15118_core/iso15118/evcc/states/iso15118_20_states.py:907-1067 | Repeats while the car is not ready; after a stop goes to welding detection or session stop; otherwise enters the loop of the selected service. |
| `EvccSessions.EvccSession.ProcessSessionStop` | iso15118_core/iso15118/evcc/states/iso15118_20_states.py:1135-1172 | Ends successfully; without a remembered stop or with a renegotiation pending it raises. |
| `EvccSessions.EvccSession.ProcessChargeLoop` | iso15118_core/iso15118/evcc/states/iso15118_20_states.py:1648-1705 | A notification or a full battery leads to a stop, otherwise the next loop request is sent. |
| `EvccSessions.EvccSession.StopV20Charging` | iso15118_core/iso15118/evcc/states/evcc_state.py:251-289 | Sends a stop and remembers whether to renegotiate or to terminate. |
| `EvccSessions.EvccSession.ProcessCableCheck` | iso15118_core/iso15118/evcc/states/iso15118_20_states.py:1450-1500 | Finished resets the timer and starts the precharge; otherwise the check repeats for at most 40 s on the timer. |
| `EvccSessions.EvccSession.ProcessPreCharge` | iso15118_core/iso15118/evcc/states/iso15118_20_states.py:1527-1570 | Power delivery only when the car is precharged and has sent a precharge request from this state before; otherwise another request that says whether it is precharged. |
| `EvccSessions.EvccSession.ProcessWelding` | iso15118_core/iso15118/evcc/states/iso15118_20_states.py:1755-1809 | Repeats until the detection has finished, reports that once, and then stops the session; 60 s on the timer. |
| `EvccProtocol.DiscoveryEffect` | iso15118_core/iso15118/evcc/states/iso15118_20_states.py:461-538 | A first discovery leaves the matched list, the pending details and the first detail request exactly as the offer and the supported services determine. |
| `EvccSafety.MatchingCount` | iso15118_core/iso15118/evcc/states/iso15118_20_states.py:465-480 | A service is matched as often as it is offered times as often as the car lists it. |
| `EvccSafety.MatchesInOrder` | iso15118_core/iso15118/evcc/states/iso15118_20_states.py:465-480 | The matches of a list of offers are those of its parts, in order; those of one offer are copies of it. |
| `EvccSafety.SelectionFollowsAllDetails` | iso15118_core/iso15118/evcc/states/iso15118_20_states.py:466-613 | Whatever the station answers, the selection is sent after the details of every matched energy service were requested, once per match and last match first, and it names the first match with the first set last published for it. |
| `EvccSafety.LoopIsPrepared` | iso15118_core/iso15118/evcc/states/iso15118_20_states.py:862-895 | Whatever the station answers, a DC loop request is sent only after a finished cable check and then a satisfied precharge test, and no loop request follows a stop of the loop. |
| `EvccSafety.TimerStartsUnset` | iso15118_core/iso15118/evcc/states/iso15118_20_states.py:373-429 | The ongoing timer is -1 whenever Authorization, cable check or welding detection has just been entered. |
| `EvccSafety.OngoingDeadline` | iso15118_core/iso15118/evcc/states/iso15118_20_states.py:397-429 | No response of an ongoing loop arrives later than 60 s for Authorization, 42 s for the cable check and 62 s for welding detection after the first one that kept it going, plus the time the car takes to send. |
| `EvccConduct.ReactionsAreProper` | iso15118_core/iso15118/evcc/states/iso15118_20_states.py:127-1809 | In every run the next request, or the way the session ends, is the proper reaction to the response in the eyes of an observer of the wire and the controller's answers, in every state; and the wait for the next response is the one that belongs to that request, capped by the time left of 60 s for a repeated authorization. |
| `EvccConduct.StopMeansTheNotification` | iso15118_core/iso15118/evcc/states/evcc_state.py:251-289 | Once the car has answered a loop response with a stop it remembers a renegotiation exactly when that response notified one, and a full stop otherwise; stopped by a full battery or a Terminate notification, its session completes. |
| `JointSessions.AcceptedExactlyWhenSteady` | iso15118_core/iso15118/secc/states/iso15118_20_states.py:225-1968 | In every joint run the station accepts every request, session id included, exactly when the car's precharge test never fails right after the car announced the end of the precharge. |
| `JointSessions.UnsteadyIsRefused` | iso15118_core/iso15118/secc/states/iso15118_20_states.py:1733-1762 | A precharge test that fails then always leads to a refused request, because the station has moved on. |
| `JointSessions.AnswersAreAwaited` | iso15118_core/iso15118/evcc/states/iso15118_20_states.py:127-1809 | In every run each answer has the type the car's state awaits and passes its check exactly unless it reports a failure. |
| `JointSessions.EndOfRun` | iso15118_core/iso15118/shared/comm_session.py:503-512 | In every run: a stopping car repeats what its state holds and is still understood; a completed session ends both machines except for a supported renegotiation; a car that stops otherwise leaves a station that ended or waits in one of four states; an exception ends its own side. |
| `JointWitness.LostPrecharge` | iso15118_core/iso15118/evcc/states/iso15118_20_states.py:1543-1563 | A concrete joint run in which the precharge is lost and the next request is refused. |
| `JointWitness.SharedIdDisagrees` | iso15118_core/iso15118/secc/states/iso15118_20_states.py:835-857 | A concrete joint run in which a value-added service reuses the energy service id: both sides go on to the parameter discovery with different parameter sets and control modes. |
| `JointServices.ChosenIsFirst` | iso15118_core/iso15118/secc/states/iso15118_20_states.py:837-857 | The station's loop ends with the set and mode of the first entry of the id when later entries of it are empty. |
| `JointServices.ChosenBehind` | iso15118_core/iso15118/secc/states/iso15118_20_states.py:835-857 | Value-added services come last in the station's loop: the last one with a set under both ids wins, with its control mode. |
| `JointServices.DetailAgrees` | iso15118_core/iso15118/secc/states/iso15118_20_states.py:678-692 | Storing a detail on both sides keeps the car's entries in agreement with the energy services at the head of the station's list and leaves the value-added services behind them alone. |
| `JointServices.SelectionsAgree` | iso15118_core/iso15118/secc/states/iso15118_20_states.py:835-857 | In every run, from the accepted selection on, both sides hold the same service, parameter set and control mode exactly when no value-added service of the discovered offer holds another set under the chosen service id and set id. |
| `JointServices.DisjointOfferAgrees` | iso15118_core/iso15118/secc/states/iso15118_20_states.py:835-857 | With an offer that shares no service ids both sides always agree. |
| `JointServices.SelectionIsGranted` | iso15118_core/iso15118/secc/states/iso15118_20_states.py:722-778 | When every value-added service offers a set 1, the station refuses the car's selection exactly when the service is neither an AC nor a DC service. |
| `JointServices.RefusedExactly` | iso15118_core/iso15118/secc/states/iso15118_20_states.py:799-833 | With an offer that shares no service ids, the station refuses the car's selection exactly when the service is neither AC nor DC or the car names a value-added service that is offered without a set 1. |
| `JointServices.StartNamesOfferedTuple` | iso15118_core/iso15118/secc/states/iso15118_20_states.py:1117-1132 | In every run a start of charging in Scheduled mode names a tuple of the last finished offer exactly when the car is in Scheduled mode too, which it is when nothing shadows its choice. |
| `Battery.SocStaysInRange` | iso15118_core/iso15118/evcc/controller/simulator.py:219-251 | The state of charge stays in 0 to 100 percent and the voltage within its limits. |
| `Battery.IntegratorAccuracy` | iso15118_core/iso15118/evcc/controller/simulator.py:225-251 | The integrated charge differs from a clamped integrator that skips nothing by at most skipped steps times 10 ms times the largest power. |
| `Battery.SplittingIsHarmless` | iso15118_core/iso15118/evcc/controller/simulator.py:238-251 | For power of one sign, any split into steps of at least 10 ms gives the clamped sum of the energies. |
| `Battery.ConstantPower` | iso15118_core/iso15118/evcc/controller/simulator.py:238-251 | Constant power gives the same charge in any number of such steps as in one. |
| `Battery.EnergyIsConserved` | iso15118_core/iso15118/evcc/controller/simulator.py:247-251 | Without saturation the change of charge is exactly the energy over the capacity. |
| `Battery.FullCharge` | iso15118_core/iso15118/evcc/controller/simulator.py:247-249 | The capacity in watt-hours is the energy from 0 to 100 percent. |
| `Battery.VoltageIsLinear` | iso15118_core/iso15118/evcc/controller/simulator.py:219-223 | The voltage is the lowest at 0 and the highest at 100 percent and follows the state of charge in proportion. |
| `BatteryControl.BatterySimulator.constructor` | iso15118_core/iso15118/evcc/controller/simulator.py:150-213 | The simulator starts at 20 percent with the fixed pack, its own current and voltage limits, no power limit of a station and no test. |
| `BatteryControl.BatterySimulator.UpdateBatteryState` | iso15118_core/iso15118/evcc/controller/simulator.py:225-251 | Moves clock and power, and integrates unless the step is below 10 ms. |
| `BatteryControl.BatterySimulator.UpdateSeccLimits` | iso15118_core/iso15118/evcc/controller/simulator.py:709-714 | Current, voltage and power limits become the smaller of the station's and the car's, and the power becomes its limit. |
| `BatteryControl.BatterySimulator.ProcessDynamicSeParams` | iso15118_core/iso15118/evcc/controller/simulator.py:482-551 | A ready car takes over the target hint and sets its power from its own limit, scaled down by the price level; a car that is not ready changes nothing. |
| `BatteryControl.BatterySimulator.ActivateDiagnostic` | iso15118_core/iso15118/evcc/controller/simulator.py:355-390 | Starts the test in its charge phase with the smallest of C-rate current, station limit and battery limit. |
| `BatteryControl.BatterySimulator.IsChargingComplete` | iso15118_core/iso15118/evcc/controller/simulator.py:637-666 | In the test: switches to discharging at 100 percent and completes at the cutoff; otherwise complete at the target. |
| `BatteryControl.BatterySimulator.ContinueCharging` | iso15118_core/iso15118/evcc/controller/simulator.py:592-606 | False without integrating once complete, otherwise integrates with the present power. |
| `BatteryControl.BatterySimulator.GetScheduledDcParams` | iso15118_core/iso15118/evcc/controller/simulator.py:891-902 | Integrates and asks for the present power, no more than the station's limit, over the voltage, in amperes and volts rounded to the nearest integer. |
| `BatteryControl.BatterySimulator.GetBptScheduledDcParams` | iso15118_core/iso15118/evcc/controller/simulator.py:922-954 | While the test discharges, requests the operative current in whole amperes and sets the matching negative power without integrating; otherwise the scheduled request. |
| `BatteryControl.BatterySimulator.GetDisplayParams` | iso15118_core/iso15118/evcc/controller/simulator.py:726-739 | Reports the rounded state of charge and the target, and runs the completion test with its effects. |
| `BatteryControl.BatterySimulator.IsPrecharged` | iso15118_core/iso15118/evcc/controller/simulator.py:623-635 | True for equal voltages or after five failures, which it counts. |
| `BatteryControl.BatterySimulator.WeldingDetectionHasFinished` | iso15118_core/iso15118/evcc/controller/simulator.py:694-699 | True after three calls that were not, which it counts. |
| `BatteryControl.PowerStaysWithinLimits` | iso15118_core/iso15118/evcc/controller/simulator.py:379-385 | In every Scheduled session, over every sequence of controller calls after parameter discovery, the integrated power is at most the smaller limit, and negative power belongs to the discharge phase of the test and stays within its current. |
| `BatteryControl.OrdinaryPowerIsNonnegative` | iso15118_core/iso15118/evcc/controller/simulator.py:592-606 | Without the test the power is never negative and the state of charge never falls. |
| `BatteryControl.TestPowerStaysWithinLimits` | iso15118_core/iso15118/evcc/controller/simulator.py:379-385 | With the test activated its current is within C-rate, station and battery limits, and the power within the limits for that current. |
| `BatteryControl.DischargeWithinPowerLimit` | iso15118_core/iso15118/evcc/controller/simulator.py:929-936 | The discharge power respects the battery's power limit at every charge exactly when it does at the maximum voltage. |
| `BatteryControl.RequestedCurrent` | iso15118_core/iso15118/evcc/controller/simulator.py:942-954 | The discharge request is the operative current cut towards zero to whole amperes. |
| `BatteryControl.RequestedPower` | iso15118_core/iso15118/evcc/controller/simulator.py:125-128 | The rounded current of a charge request misses the negotiated power by at most half an ampere. |
| `BatteryControl.DynamicPowerBounds` | iso15118_core/iso15118/evcc/controller/simulator.py:508-527 | In Dynamic mode the power is between half and all of the car's limit, and all of it exactly up to price level 1. |
| `BatteryControl.DynamicPowerLaw` | iso15118_core/iso15118/evcc/controller/simulator.py:508-527 | Price level 1 of n leaves all of the car's limit, each level above takes the 2n-th part of it, and from level n + 1 on half of it is left. |
| `BatteryControl.PrechargeStays` | iso15118_core/iso15118/evcc/controller/simulator.py:629-635 | With constant voltages a precharge test that holds keeps holding, and it holds from the sixth time at the latest. |
| `Diagnostic.EndedTest` | iso15118_core/iso15118/evcc/controller/simulator.py:637-666 | An ended test, on any DC service and in any mode, was at exactly 100 percent at its only switch, never rose afterwards, and is at or below the cutoff, which it was above one request earlier. |
| `Diagnostic.EndsNearCutoff` | iso15118_core/iso15118/evcc/controller/simulator.py:656-663 | It ends below the cutoff by less than one cycle's largest discharge. |
| `Diagnostic.TestEnds` | iso15118_core/iso15118/evcc/controller/simulator.py:592-606 | The number of charge and discharge cycles is bounded by capacity, power, current, minimum voltage and the time from response to response, wherever in the cycle that time passes. |
| `Diagnostic.PlainEnds` | iso15118_core/iso15118/evcc/controller/simulator.py:592-606 | Ordinary charging with positive power ends within a number of cycles that power and cycle time determine. |
| `Diagnostic.EndsExactlyAtTarget` | iso15118_core/iso15118/evcc/controller/simulator.py:637-666 | Without the test the loop ends with the first response at which the charge has reached the target, and with no other. |
| `Diagnostic.NoPowerNeverEnds` | iso15118_core/iso15118/evcc/controller/simulator.py:856-858 | With power left at zero, as in AC Scheduled sessions, the loop never ends. |
| `Termination.StepMoves` | iso15118_core/iso15118/evcc/states/iso15118_20_states.py:127-1809 | Each reaction of the car moves to a later phase or repeats for one of the listed reasons. |
| `Termination.StepApproaches` | iso15118_core/iso15118/evcc/states/iso15118_20_states.py:862-1067 | In a session that is not an AC session the loop is entered only after the discovery of DC parameters, and the last stop is always a full one. |
| `Termination.RunKeepsPower` | iso15118_core/iso15118/evcc/states/iso15118_20_states.py:1388-1395 | Along every DC run the power from the discovery of DC parameters to the loop is at least the station's or half the car's own, and a run that is over has ended well on both sides. |
| `Termination.MeasureShrinks` | iso15118_core/iso15118/evcc/states/iso15118_20_states.py:1527-1809 | Each joint turn uses up the measure of phase, details, precharge and welding counters and charge cycles, or is an Ongoing turn that leaves it alone. |
| `Termination.LoopIsBounded` | iso15118_core/iso15118/evcc/states/iso15118_20_states.py:1686-1705 | The battery bounds the charge-loop cycles of every paced DC session, with or without the test, in every mode. |
| `Termination.DcRunEnds` | iso15118_core/iso15118/evcc/states/iso15118_20_states.py:1686-1809 | With a station that has power to give, a minimum cycle time and finitely many Ongoing turns, every joint DC run is over after a computed number of exchanges, and a completed one has ended both machines. |
| `LoopEntry.EntersLoop` | iso15118_core/iso15118/evcc/controller/simulator.py:482-551 | In every joint run the car enters the DC loop at 20 percent with the smaller of its own limit and the station's at the discovery of DC parameters, with the target that the last schedule exchange hinted at in Dynamic mode and 90 percent otherwise, with the power of its mode, and with the test exactly when a service selection named services for a configured one. |
| `LoopEntry.OrdinaryLoopEndsAtTarget` | iso15118_core/iso15118/evcc/controller/simulator.py:592-606 | In every joint run a loop without the test is stopped by the battery with the first response at which the charge has reached that target, and with no other. |
| `LoopEntry.PrechargeTested` | iso15118_core/iso15118/evcc/controller/simulator.py:623-635 | In every joint run the precharge test holds exactly for equal voltages or once five tests have failed; a precharge answer asks it once, and once more for the next request. |
| `LoopEntry.WeldingFinishesFourth` | iso15118_core/iso15118/evcc/controller/simulator.py:694-699 | In every joint run the welding detection has finished exactly from the fourth time on that the car is asked. |
| `Sap.EvccSession.CreateSap` | iso15118_core/iso15118/evcc/comm_session_handler.py:147-209 | Over TLS the first DIN entry leaves the configured list for good; the entries count schema id and priority from 1 in list order. |
| `Sap.EvccSession.ProcessAnswer` | iso15118_core/iso15118/evcc/states/sap_states.py:109-173 | The entry with the answered schema id decides the protocol; no such entry stops the session. |
| `Sap.Select` | iso15118_core/iso15118/secc/states/sap_states.py:62-122 | Sorts by priority and answers with the first acceptable entry. |
| `Sap.SelectionIsBest` | iso15118_core/iso15118/secc/states/sap_states.py:62-122 | The station picks the acceptable entry with the lowest priority number, the earlier among equals, fails exactly when none is acceptable, and reports a minor deviation exactly when the entry's minor version is not 0. |
| `Sap.NegotiationAgrees` | iso15118_core/iso15118/evcc/states/sap_states.py:109-160 | Both sides end on the first protocol of the car's list that the station supports, and fail exactly when there is none. |
| `Sap.UsableProtocols` | iso15118_core/iso15118/evcc/comm_session_handler.py:172-180 | Over TLS the first DIN entry is left out and the rest keeps its order; without TLS nothing is left out. |
| `Sap.TlsAndDin` | iso15118_core/iso15118/evcc/comm_session_handler.py:172-180 | A TLS session can end on DIN SPEC 70121 exactly when the car lists it more than once. |
| `Sdp.CommunicationSessionHandler.Receive` | iso15118_core/iso15118/evcc/transport/udp_client.py:172-184 | The wait for a reply ends with exactly one notification, a packet or the timeout. |
| `Sdp.CommunicationSessionHandler.RestartSdp` | iso15118_core/iso15118/evcc/comm_session_handler.py:338-410 | Spends a cycle or a request, and fails exactly when there is none left; exhaustion sets the counter back to fifty. |
| `Sdp.CommunicationSessionHandler.ProcessIncomingUdpPacket` | iso15118_core/iso15118/evcc/comm_session_handler.py:455-536 | A response with the security the configuration permits opens a session of that security, a malformed or foreign one starts a new cycle, a security mismatch or invalid datagram does nothing. |
| `Sdp.CommunicationSessionHandler.HandleNext` | iso15118_core/iso15118/evcc/comm_session_handler.py:538-578 | Each notification has its reaction; a successful stop ends the handler, a failed one starts a new cycle. |
| `Sdp.DiscoveryIsBounded` | iso15118_core/iso15118/evcc/comm_session_handler.py:382-410 | Over every sequence of events at most one request, notification or live session is outstanding, every request but the one being waited for has had one notification, and there are at most fifty requests per configured cycle. |
| `Sdp.SilenceEndsAfterOneCycle` | iso15118_core/iso15118/evcc/comm_session_handler.py:396-410 | From the beginning of any cycle on, silence alone uses exactly its fifty requests and then stops, whatever cycles are left. |
| `Sdp.MalformedRepliesUseEveryCycle` | iso15118_core/iso15118/evcc/comm_session_handler.py:455-536 | From the beginning of any cycle on, malformed or foreign replies alone use one request of every cycle left and then the discovery stops. |
| `Sdp.SessionsArePermitted` | iso15118_core/iso15118/evcc/comm_session_handler.py:504-513 | Over every sequence of events a live session is secured when the car enforces TLS, and unsecured when it cannot use TLS. |
| `Sdp.HandlingIsDecided` | iso15118_core/iso15118/evcc/comm_session_handler.py:455-578 | After any events: a session opens exactly for a response with a permitted security when the connection succeeds; a request is sent exactly after a timeout with requests left or, with a cycle left, after a malformed or foreign packet or a failed session; a successful session finishes, a wireless response raises; anything else leaves nothing outstanding. |
| `Sdp.MismatchEndsDiscovery` | iso15118_core/iso15118/evcc/comm_session_handler.py:504-536 | After a response with another security, a failed connection or an invalid datagram no request is sent and no session opens any more. |
| `SessionLoop.CommunicationSession.RcvLoop` | iso15118_core/iso15118/shared/comm_session.py:433-548 | The effects of a script of rounds, and one stop notification exactly when the loop has ended. |
| `SessionLoop.CommunicationSession.Process` | iso15118_core/iso15118/shared/comm_session.py:490-515 | A processed message is answered when there is a message to send, and ends the loop on Terminate, Pause or a missing message. |
| `SessionLoop.EndedRun` | iso15118_core/iso15118/shared/comm_session.py:448-548 | Every run that ends leaves exactly one stop notification, as its last effect, and messages alternate strictly before. |
| `SessionLoop.EndOfRun` | iso15118_core/iso15118/shared/comm_session.py:433-548 | What the last round of an ended run has received and sent, and that the notification carries a state's own reason exactly when a message was processed without one missing. |
| `SessionLoop.OpenRun` | iso15118_core/iso15118/shared/comm_session.py:448-515 | A run that goes on has answered every message it received and stopped nothing. |
| `Schedule.GetSaScheduleList` | iso15118_core/iso15118/secc/controller/simulator.py:659-720 | The power and tariff entries for a departure time, one per day and the rest with a duration, 24 hours by default. |
| `Schedule.ProcessSaSchedules` | iso15118_core/iso15118/evcc/controller/simulator.py:564-590 | Takes the last schedule off the list and turns its entries into profile points. |
| `Schedule.EntriesTile` | iso15118_core/iso15118/secc/controller/simulator.py:691-720 | For every departure time, and for 24 hours without one, each instant before it is covered by exactly the entry of its day. |
| `Schedule.MeaningPreservedExactly` | iso15118_core/iso15118/evcc/controller/simulator.py:571-584 | For a sorted schedule the profile denotes the same power at every instant exactly when entries of duration zero have no power or are replaced as they start. |
| `Schedule.OwnScheduleIsPreserved` | iso15118_core/iso15118/evcc/controller/simulator.py:571-584 | For the station's schedules the profile is the rated power before the departure and zero otherwise. |
| `CertChain.CheckValidity` | iso15118_core/iso15118/shared/security.py:715-732 | The first certificate out of date decides the error. |
| `CertChain.Categorize` | iso15118_core/iso15118/shared/security.py:563-603 | Assigns the sub-CAs to their roles by path length and rejects missing, repeated and other path lengths. |
| `CertChain.VerifyCerts` | iso15118_core/iso15118/shared/security.py:481-707 | The verdict of validity, roles and signatures in their order. |
| `CertChain.PublicChainAccepted` | iso15118_core/iso15118/shared/security.py:529-690 | With a root and elliptic-curve keys, accepted exactly when all certificates are in date, one sub-CA has path length 0, at most one has 1, none has another, and signatures link leaf, sub-CAs and root. |
| `CertChain.PublicChainExactly` | iso15118_core/iso15118/shared/security.py:529-707 | The same for keys of any type: a key that is not an elliptic-curve key ends the signature checks. |
| `CertChain.PrivateChainExactly` | iso15118_core/iso15118/shared/security.py:608-626 | A private chain is accepted exactly for a leaf in date, without sub-CAs, signed by the root. |
| `CertChain.LongListsAreRejected` | iso15118_core/iso15118/shared/security.py:563-603 | With a root, more than two sub-CAs are always rejected. |
| `CertChain.RejectionHasFirstCause` | iso15118_core/iso15118/shared/security.py:529-707 | The first certificate out of date decides the error; without a root nothing else is checked; then the first sub-CA that takes no role decides, then missing or superfluous roles, and only then the signatures. |
| `CertChain.OrderDoesNotMatter` | iso15118_core/iso15118/shared/security.py:496-503 | Acceptance does not depend on the order of the sub-CA list. |
| `SessionTable.CommunicationSessionHandler.OnConnected` | iso15118_core/iso15118/secc/comm_session_handler.py:281-321 | A known address resumes its context unless the resumption is reset; otherwise it gets a fresh one. |
| `SessionTable.CommunicationSessionHandler.EndCurrentSession` | iso15118_core/iso15118/secc/comm_session_handler.py:356-375 | Terminate removes the entry, pause keeps it, an unknown address changes nothing. |
| `SessionTable.ReconnectKeepsContext` | iso15118_core/iso15118/secc/comm_session_handler.py:281-330 | A reconnecting address gets its previous context exactly unless it was stopped with Terminate in between or the resumption is reset, and then one nobody had before. |
| `SessionTable.FirstConnectIsFresh` | iso15118_core/iso15118/secc/comm_session_handler.py:288-311 | A first connection gets a context nobody had before. |
| `SessionTable.OthersUntouched` | iso15118_core/iso15118/secc/comm_session_handler.py:281-330 | An event of one address leaves the entries of all others alone. |
| `SessionTable.PausedWhileConnected` | iso15118_core/iso15118/secc/comm_session_handler.py:276-280 | Without reset resumptions, discovery is paused exactly while there is a current peer. |
| `SessionTable.ResetResumesDiscovery` | iso15118_core/iso15118/secc/comm_session_handler.py:299-304 | A reset resumption leaves discovery running while its peer is connected. |
| `EvccV2Sessions.EvccV2Session.ProcessMessage` | iso15118_core/iso15118/shared/comm_session.py:148-273 | One turn of the receive loop of an ISO 15118-2 session, as the transition function says. |
| `EvccV2Sessions.EvccV2Session.ReceiveAll` | iso15118_core/iso15118/shared/comm_session.py:433-548 | A session object fed with any responses ends as the transition function's run; each of its requests and its end are the proper reaction in the observer's eyes; whenever it demanded current the messages since the last parameter discovery had prepared it, no loop request follows a loop's stop, nothing follows a service discovery whose offer does not suit, and nothing of Plug and Charge is sent unless it was agreed. |
| `EvccV2Sessions.EvccV2Session.CheckMessage` | iso15118_core/iso15118/evcc/states/evcc_state.py:146-234 | The awaited type, no failed code, the session id; otherwise the session stops. |
| `EvccV2Sessions.EvccV2Session.ProcessServiceDiscovery` | iso15118_core/iso15118/evcc/states/iso15118_2_states.py:164-226 | Authorization option and energy mode, resumed or chosen; an energy mode that is not offered and a station without a charge service stop the session. |
| `EvccV2Sessions.EvccV2Session.SelectCertificates` | iso15118_core/iso15118/evcc/states/iso15118_2_states.py:281-328 | The ids of all certificate services are requested. |
| `EvccV2Sessions.EvccV2Session.ProcessPaymentServiceSelection` | iso15118_core/iso15118/evcc/states/iso15118_2_states.py:398-490 | Plug and Charge installs a certificate or sends payment details; external identification authorizes. |
| `EvccV2Sessions.EvccV2Session.CheckOngoingTimer` | iso15118_core/iso15118/evcc/states/iso15118_2_states.py:704-716 | The timer starts with the first ongoing answer and stops the session beyond the limit. |
| `EvccV2Sessions.EvccV2Session.ProcessAuthorization` | iso15118_core/iso15118/evcc/states/iso15118_2_states.py:669-727 | Finished resets the timer; otherwise repeats for at most 60 s with the wait capped by the time left. |
| `EvccV2Sessions.EvccV2Session.ProcessChargeParameterDiscovery` | iso15118_core/iso15118/evcc/states/iso15118_2_states.py:739-837 | Finished leads to power delivery for AC and to the cable check for DC; otherwise repeats as Authorization does. |
| `EvccV2Sessions.EvccV2Session.ProcessPowerDelivery` | iso15118_core/iso15118/evcc/states/iso15118_2_states.py:849-925 | Stop, renegotiation, AC loop and DC loop in this order. |
| `EvccV2Sessions.EvccV2Session.ProcessMeteringReceipt` | iso15118_core/iso15118/evcc/states/iso15118_2_states.py:962-1024 | A stop is sent but not remembered; a renegotiation is; otherwise the loop goes on. |
| `EvccV2Sessions.EvccV2Session.ProcessChargingStatus` | iso15118_core/iso15118/evcc/states/iso15118_2_states.py:1101-1191 | Metering receipt, renegotiation, stop or the next status request. |
| `EvccV2Sessions.EvccV2Session.ProcessCableCheck` | iso15118_core/iso15118/evcc/states/iso15118_2_states.py:1223-1277 | Finished goes on only when the station is ready and the isolation valid. |
| `EvccV2Sessions.EvccV2Session.ProcessPreCharge` | iso15118_core/iso15118/evcc/states/iso15118_2_states.py:1300-1351 | Goes on when precharged, otherwise repeats for at most 7 s on the timer. |
| `EvccV2Sessions.EvccV2Session.ProcessCurrentDemand` | iso15118_core/iso15118/evcc/states/iso15118_2_states.py:1374-1413 | Stops on a notification or a full battery, otherwise asks for current again. |
| `EvccV2Sessions.EvccV2Session.ProcessWeldingDetection` | iso15118_core/iso15118/evcc/states/iso15118_2_states.py:1464-1508 | Repeats until finished, at most 60 s on the timer. |
| `EvccV2Safety.CurrentDemandIsPrepared` | iso15118_core/iso15118/evcc/states/iso15118_2_states.py:1242-1333 | Whatever the station answers, current is demanded only when, since the last charge-parameter discovery, a finished cable check reported ready and valid isolation and then a precharge test held; renegotiation starts this anew. |
| `EvccV2Safety.NoLoopAfterStop` | iso15118_core/iso15118/evcc/states/iso15118_2_states.py:856-890 | No loop request follows a stop sent by a loop state. |
| `EvccV2Safety.ModeWasOffered` | iso15118_core/iso15118/evcc/states/iso15118_2_states.py:164-226 | Whatever the station answers, from the first request after the service discovery on the session's energy mode was among those offered by a station with a charge service, and its payment option is Plug and Charge exactly when resumed so or offered over TLS. |
| `EvccV2Safety.ReceiptStopGoesOn` | iso15118_core/iso15118/evcc/states/iso15118_2_states.py:980-992 | After a stop asked for by a metering receipt the car requests the charging status again. |
| `EvccV2Safety.TimerStartsUnset` | iso15118_core/iso15118/evcc/states/iso15118_2_states.py:686-727 | The timer is -1 whenever a state that loops has just been entered, also after renegotiation. |
| `EvccV2Safety.OngoingDeadline` | iso15118_core/iso15118/evcc/states/iso15118_2_states.py:759-837 | No response of Authorization or ChargeParameterDiscovery arrives later than 60 s after the first ongoing one, plus the time the car takes to send; the other loops overrun by one message timeout. |
| `EvccV2Conduct.ReactionsAreProper` | iso15118_core/iso15118/evcc/states/iso15118_2_states.py:122-1508 | In every run the next request, or the way the session ends, is the proper reaction to the response in the eyes of an observer of the wire and the car's surroundings, in every state, and the car waits as long as that request deserves. |
| `EvccV2Conduct.CertificatesInOrder` | iso15118_core/iso15118/evcc/states/iso15118_2_states.py:281-328 | The certificate services of a list are those of its parts, in order, and no other service. |
| `V2gtp.RoundTrip` | iso15118_core/iso15118/shared/messages/v2gtp.py:163-207 | A framed message is parsed again exactly when its payload has at least two bytes. |
| `V2gtp.LengthIsIgnored` | iso15118_core/iso15118/shared/messages/v2gtp.py:107-161 | The length field does not influence what is parsed. |
| `V2gtp.HeaderFields` | iso15118_core/iso15118/shared/messages/v2gtp.py:107-161 | The length field says how long the payload is; with a payload type foreign to it a DIN SPEC 70121 receiver raises. |
| `V2gtp.BigEndianRoundTrip` | iso15118_core/iso15118/shared/messages/v2gtp.py:74-89 | Big-endian header fields read back what was written. |
| `V2gtp.NamespaceSurvives` | iso15118_core/iso15118/shared/comm_session.py:119-146 | Every ISO 15118-20 message is decoded with the namespace it was encoded with. |

## Left out

- Termination.DcRunEnds: covers sessions that do not enter an AC loop; AC Scheduled sessions do not end (`Diagnostic.NoPowerNeverEnds`).
- EvccSafety.OngoingDeadline: takes the time between reading the clock and sending the request as a parameter.
- BatteryControl.BatterySimulator.ProcessDynamicSeParams: leaves out the bulk target and the profile's duration, which nothing else reads.
- SessionLoop.EndedRun: leaves out exceptions raised while the loop is already stopping the connection.
- SessionTable.ReconnectKeepsContext: whether resuming hits a connection reset is an input.
- EvccSessions.EvccSession.ProcessScheduleExchange: in Dynamic mode the response is taken to carry dynamic parameters; an answer without them raises in the code.
- EvccV2Sessions.EvccV2Session.ProcessCertificateInstallation: the signature and decryption results are inputs.
- CertChain.VerifyCerts: revocation is not looked at, as in the code.
- EXI and JSON encoding, sockets, TLS, file loading, logging, validation of message fields and cryptography: foreign calls.
- The ISO 15118-2 states of the station and both sides of DIN SPEC 70121.
- Messages of a protocol other than the negotiated one, service ids the stack does not know and control modes other than Scheduled and Dynamic.
- Certificate installation in ISO 15118-20: the states raise an exception, which the model has.
- Renegotiation by the car in ISO 15118-20: it sets a next state without a message, which raises; the model has the exception.
- The contents of price, energy and meter fields, the constant getters and the tables of failed responses beyond their type: they would add only easy members.
