/**
 * The call-admission state machine of the VideoCall component, as values.
 *
 * A `State` holds the component's React state (the `useState` fields, with
 * the SDK client and call handle reduced to "present" flags), the closure
 * state of the setup effect (its `isMounted` guard, where `setupCall` is
 * suspended, whether a polling interval runs, which `on("custom")` handlers
 * are registered) and a log of the outward effects: custom events sent on the
 * call, the scheduled redirect and the browser notifications shown.
 *
 * Every asynchronous continuation, timer tick, incoming event and button
 * click is one transition function below; `Step` and `Run` apply a sequence
 * of them, and `Inv` is the invariant every reachable state satisfies.
 */
module Admission {
  import Identity

  datatype Option<+T> = None | Some(value: T)

  datatype Role = Doctor | Patient

  /** A Stream user record, as sent in and read from custom events. */
  datatype User = User(id: string, name: string)

  /** The three custom-event types the component sends and reacts to. */
  datatype EventType = JoinRequest | JoinAccepted | JoinRejected

  /** The string a type travels as in the event's `custom.type`. */
  function TypeName(t: EventType): string {
    match t
    case JoinRequest => "join-request"
    case JoinAccepted => "join-accepted"
    case JoinRejected => "join-rejected"
  }

  /** The handlers' `===` comparisons of a received `custom.type`: which of the three it is, if any. */
  function ParseType(name: string): Option<EventType> {
    if name == "join-request" then Some(JoinRequest)
    else if name == "join-accepted" then Some(JoinAccepted)
    else if name == "join-rejected" then Some(JoinRejected)
    else None
  }

  /** The initial and reset value of the countdown shown in the popup. */
  const CountdownStart: int := 20

  /** The name shown for a requester whose event carries no user name. */
  const DefaultRequesterName: string := "A patient"

  /**
   * An incoming custom event: `typ` is the string `event.custom.type`,
   * `sender` is `event.user` and `addressee` is the `user` inside the payload.
   */
  datatype Incoming = Incoming(typ: string, sender: Option<User>, addressee: Option<User>)

  /** The outward effects the component performs. */
  datatype Effect =
    | Sent(kind: EventType, user: User)   // call.sendCustomEvent({type, user})
    | Redirect(target: string)         // window.location.href, scheduled after 5 s
    | Notified(title: string)          // new Notification(title, ...)

  /** The outcome of awaiting `videoCall.get()`: the participant count, or a throw. */
  datatype Probe = Fetched(count: nat) | Threw

  /** Where `setupCall` is suspended. */
  datatype Stage = AwaitingToken | AwaitingHostJoin | AwaitingFirstCheck | Settled

  /** The component's props and the identifier it derives from the name. */
  datatype Config = Config(role: Role, userName: string, userId: string, callId: string)

  /** The configuration a component rendered with these props works with. */
  function Props(role: Role, userName: string, meetingId: string): Config {
    Config(role, userName, Identity.NormalizeUserId(userName), meetingId)
  }

  datatype State = State(
    cfg: Config,
    // React state
    hasClient: bool,
    hasCall: bool,
    showCall: bool,
    loading: bool,
    rejected: bool,
    waitingApproval: bool,
    popupVisible: bool,
    requestingUser: Option<User>,
    countdown: int,
    doctorNotAvailable: bool,
    // closure state of the setup effect
    mounted: bool,
    stage: Stage,
    polling: bool,
    hostListening: bool,
    joinerListening: bool,
    // outward effects, oldest first
    log: seq<Effect>)

  /** The user record a patient puts into its join request. */
  function Self(cfg: Config): User {
    User(cfg.userId, cfg.userName)
  }

  /** The page a full call redirects to. */
  function RedirectTarget(cfg: Config): string {
    "/" + cfg.callId
  }

  /** The `useState` defaults, with `setupCall` started and awaiting its token. */
  function Init(cfg: Config): State {
    State(cfg, false, false, false, true, false, false, false, None, CountdownStart, false,
          true, AwaitingToken, false, false, false, [])
  }

  /** A token the code accepts: present and not the empty string. */
  predicate TokenUsable(token: Option<string>) {
    token.Some? && token.value != ""
  }

  /** `setupCall` resumes after `getToken`. */
  function TokenArrived(s: State, token: Option<string>): State
    requires s.stage == AwaitingToken
  {
    if !TokenUsable(token) then s.(loading := false, stage := Settled)
    else if s.cfg.role == Doctor then s.(stage := AwaitingHostJoin)
    else s.(stage := AwaitingFirstCheck)
  }

  /** A joined call is stored and shown, and loading ends. */
  function CallShown(s: State): State {
    s.(hasClient := true, hasCall := true, showCall := true, loading := false)
  }

  /**
   * The doctor's `join({create: true, ...})` has settled.  A throw ends
   * `setupCall`; on success the custom handler is registered and, only while
   * mounted, the call is shown.
   */
  function HostJoined(s: State, ok: bool): State
    requires s.stage == AwaitingHostJoin
  {
    if !ok then s.(stage := Settled)
    else if s.mounted then CallShown(s.(stage := Settled, hostListening := true))
    else s.(stage := Settled, hostListening := true)
  }

  /** The title of the notification shown for a join request from `sender`. */
  function NotificationTitle(sender: Option<User>): string {
    var name := if sender.Some? && sender.value.name != "" then sender.value.name
                else DefaultRequesterName;
    name + " wants to join the call"
  }

  /**
   * `showBrowserNotification`: shown only when the browser supports
   * notifications and has granted them at the moment of the call.
   */
  function Notify(s: State, sender: Option<User>, granted: bool): State {
    if granted then s.(log := s.log + [Notified(NotificationTitle(sender))]) else s
  }

  /**
   * The doctor's `on("custom")` handler; a no-op until it is registered.
   * `granted` is the notification permission when the event arrives.
   */
  function HostHandler(s: State, ev: Incoming, granted: bool): State {
    if !s.hostListening || ParseType(ev.typ) != Some(JoinRequest) then s
    else Notify(ShowRequest(s, ev.sender), ev.sender, granted)
  }

  /** The requester is stored and the approval popup opened. */
  function ShowRequest(s: State, sender: Option<User>): State {
    s.(requestingUser := sender, popupVisible := true)
  }

  /**
   * The patient's `on("custom")` handler; a no-op until it is registered.
   * `joinOk` is the outcome of the `join()` it awaits on `join-accepted`.
   */
  function JoinerHandler(s: State, ev: Incoming, joinOk: bool): State {
    if !s.joinerListening then s
    else if ParseType(ev.typ) == Some(JoinAccepted) then
      if joinOk && s.mounted then CallShown(s.(waitingApproval := false))
      else s
    else if ParseType(ev.typ) == Some(JoinRejected) then
      s.(waitingApproval := false, rejected := true, loading := false)
    else s
  }

  /** A custom event reaches every handler registered on the call. */
  function OnCustom(s: State, ev: Incoming, joinOk: bool, granted: bool): State {
    JoinerHandler(HostHandler(s, ev, granted), ev, joinOk)
  }

  /** `proceedToJoinFlow(count)`: redirect when full, otherwise ask to join. */
  function ProceedToJoinFlow(s: State, count: nat): State {
    if count >= 2 then
      s.(showCall := false, loading := false, log := s.log + [Redirect(RedirectTarget(s.cfg))])
    else
      s.(log := s.log + [Sent(JoinRequest, Self(s.cfg))], waitingApproval := true, joinerListening := true)
  }

  /** No doctor yet: "doctor not available" is shown, loading ends and the 5-second poll starts. */
  function AwaitDoctor(s: State): State {
    CallHidden(s.(doctorNotAvailable := true)).(polling := true)
  }

  /** The call is hidden and loading ends. */
  function CallHidden(s: State): State {
    s.(showCall := false, loading := false)
  }

  /** The patient's first `get()` has settled. */
  function FirstCheck(s: State, probe: Probe): State
    requires s.stage == AwaitingFirstCheck
  {
    var t := s.(stage := Settled);
    match probe
    case Fetched(count) => if count == 0 then AwaitDoctor(t) else ProceedToJoinFlow(t, count)
    case Threw => AwaitDoctor(t.(waitingApproval := false))
  }

  /** The poll has seen somebody: the interval is cleared and "doctor not available" hidden. */
  function DoctorArrived(s: State): State {
    s.(polling := false, doctorNotAvailable := false)
  }

  /** One tick of the 5-second polling interval, with what its `get()` saw. */
  function PollTick(s: State, probe: Probe): State
    requires s.polling
  {
    if probe.Fetched? && probe.count > 0 then ProceedToJoinFlow(DoctorArrived(s), probe.count)
    else s
  }

  /** `handleApprove`. */
  function Approve(s: State): State {
    Respond(s, JoinAccepted)
  }

  /** `handleReject`. */
  function Reject(s: State): State {
    Respond(s, JoinRejected)
  }

  /**
   * The shared body of `handleApprove` and `handleReject`: without a call or
   * a requester nothing happens; otherwise the response is sent to the
   * requester and the popup is closed.
   */
  function Respond(s: State, kind: EventType): State {
    if !s.hasCall || s.requestingUser.None? then s
    else ClosePopup(s.(log := s.log + [Sent(kind, s.requestingUser.value)]))
  }

  /** The popup is hidden, the request slot cleared and the countdown reset. */
  function ClosePopup(s: State): State {
    s.(popupVisible := false, requestingUser := None, countdown := CountdownStart)
  }

  /**
   * The effect's cleanup.  Its `call` is the one captured by the first
   * render, which is null, so no `leave()` happens; the interval is not
   * cleared either.
   */
  function Teardown(s: State): State {
    s.(mounted := false)
  }

  // ---------------------------------------------------------------------
  // Traces

  datatype Input =
    | TokenResult(token: Option<string>)
    | HostJoinResult(ok: bool)
    | FirstProbe(probe: Probe)
    | Tick(probe: Probe)
    | Custom(ev: Incoming, joinOk: bool, granted: bool)
    | ApproveClick
    | RejectClick
    | Unmount

  /** Whether an input can happen in `s`: a continuation resumes only where `setupCall` waits, a tick only while the interval runs. */
  predicate Enabled(s: State, i: Input) {
    match i
    case TokenResult(_) => s.stage == AwaitingToken
    case HostJoinResult(_) => s.stage == AwaitingHostJoin
    case FirstProbe(_) => s.stage == AwaitingFirstCheck
    case Tick(_) => s.polling
    case _ => true
  }

  /** One input; an input that cannot happen in `s` leaves it alone. */
  function Step(s: State, i: Input): State {
    if !Enabled(s, i) then s
    else match i
      case TokenResult(t) => TokenArrived(s, t)
      case HostJoinResult(ok) => HostJoined(s, ok)
      case FirstProbe(p) => FirstCheck(s, p)
      case Tick(p) => PollTick(s, p)
      case Custom(ev, joinOk, granted) => OnCustom(s, ev, joinOk, granted)
      case ApproveClick => Approve(s)
      case RejectClick => Reject(s)
      case Unmount => Teardown(s)
  }

  function Run(s: State, inputs: seq<Input>): State
    decreases |inputs|
  {
    if inputs == [] then s else Run(Step(s, inputs[0]), inputs[1..])
  }

  // ---------------------------------------------------------------------
  // The invariant

  /** What a doctor's component can have logged: responses and notifications. */
  predicate DoctorEffect(e: Effect) {
    (e.Sent? && (e.kind == JoinAccepted || e.kind == JoinRejected)) || e.Notified?
  }

  /** A patient's log: empty, one join request with its own identity, or one redirect. */
  predicate PatientLog(s: State) {
    s.log == [] || s.log == [Sent(JoinRequest, Self(s.cfg))] || s.log == [Redirect(RedirectTarget(s.cfg))]
  }

  predicate Requested(s: State) {
    s.log == [Sent(JoinRequest, Self(s.cfg))]
  }

  predicate Redirected(s: State) {
    s.log == [Redirect(RedirectTarget(s.cfg))]
  }

  predicate DoctorInv(s: State) {
    && !s.polling && !s.joinerListening && !s.waitingApproval && !s.rejected && !s.doctorNotAvailable
    && s.stage != AwaitingFirstCheck
    && (s.hostListening ==> s.stage == Settled)
    && (s.hasCall ==> s.hostListening && s.showCall && !s.loading)
    && (s.showCall ==> s.hasCall)
    && (s.popupVisible ==> s.hostListening)
    && (s.requestingUser.Some? ==> s.hostListening)
    && (forall k :: 0 <= k < |s.log| ==> DoctorEffect(s.log[k]))
  }

  predicate PatientInv(s: State) {
    && !s.hostListening && !s.popupVisible && s.requestingUser.None?
    && s.stage != AwaitingHostJoin
    && PatientLog(s)
    && (s.stage != Settled ==> s.log == [] && !s.polling && !s.hasCall)
    && (s.polling ==> s.log == [] && !s.loading)
    && (s.doctorNotAvailable <==> s.polling)
    && (s.joinerListening <==> Requested(s))
    && (s.waitingApproval ==> s.joinerListening)
    && (s.rejected ==> s.joinerListening && !s.loading && !s.waitingApproval)
    && (s.showCall ==> s.hasCall)
    && (s.hasCall ==> s.joinerListening && s.showCall)
    && (Redirected(s) ==>
          !s.loading && !s.showCall && !s.waitingApproval && !s.rejected && !s.doctorNotAvailable)
  }

  predicate Inv(s: State) {
    && s.countdown == CountdownStart
    && s.hasClient == s.hasCall
    && (s.cfg.role == Doctor ==> DoctorInv(s))
    && (s.cfg.role == Patient ==> PatientInv(s))
  }

  lemma InitInv(cfg: Config)
    ensures Inv(Init(cfg))
  {
  }

  lemma TokenInv(s: State, token: Option<string>)
    requires Inv(s) && s.stage == AwaitingToken
    ensures Inv(TokenArrived(s, token))
  {
    // one role at a time: the two invariants together exceed the solver's budget
    if s.cfg.role == Doctor {
    } else {
    }
  }

  lemma HostJoinInv(s: State, ok: bool)
    requires Inv(s) && s.stage == AwaitingHostJoin
    ensures Inv(HostJoined(s, ok))
  {
  }

  lemma FirstCheckInv(s: State, probe: Probe)
    requires Inv(s) && s.stage == AwaitingFirstCheck
    ensures Inv(FirstCheck(s, probe))
  {
    if probe.Fetched? && probe.count > 0 {
      ProceedInv(s.(stage := Settled), probe.count);
    }
  }

  lemma PollTickInv(s: State, probe: Probe)
    requires Inv(s) && s.polling
    ensures Inv(PollTick(s, probe))
  {
    if probe.Fetched? && probe.count > 0 {
      ProceedInv(s.(polling := false, doctorNotAvailable := false), probe.count);
    }
  }

  lemma ResolveInv(s: State)
    requires Inv(s)
    ensures Inv(Approve(s)) && Inv(Reject(s)) && Inv(Teardown(s))
  {
  }

  lemma StepInv(s: State, i: Input)
    requires Inv(s)
    ensures Inv(Step(s, i))
    ensures Step(s, i).cfg == s.cfg
  {
    if i.TokenResult? || i.HostJoinResult? || i.FirstProbe? || i.Tick? {
      SetupStepInv(s, i);
    } else if i.Custom? {
      CustomInv(s, i.ev, i.joinOk, i.granted);
    } else {
      ClickStepInv(s, i);
    }
  }

  /** The continuations of `setupCall` and the polling ticks keep the invariant. */
  lemma SetupStepInv(s: State, i: Input)
    requires Inv(s) && (i.TokenResult? || i.HostJoinResult? || i.FirstProbe? || i.Tick?)
    ensures Inv(Step(s, i))
    ensures Step(s, i).cfg == s.cfg
  {
    if Enabled(s, i) {
      match i
      case TokenResult(t) => TokenInv(s, t);
      case HostJoinResult(ok) => HostJoinInv(s, ok);
      case FirstProbe(p) => FirstCheckInv(s, p);
      case Tick(p) => PollTickInv(s, p);
    }
  }

  /** Button clicks and teardown keep the invariant. */
  lemma ClickStepInv(s: State, i: Input)
    requires Inv(s) && (i.ApproveClick? || i.RejectClick? || i.Unmount?)
    ensures Inv(Step(s, i))
    ensures Step(s, i).cfg == s.cfg
  {
    ResolveInv(s);
  }

  /** `proceedToJoinFlow` runs from a patient that has logged nothing and no longer polls. */
  lemma ProceedInv(s: State, count: nat)
    requires s.countdown == CountdownStart && s.hasClient == s.hasCall && !s.hasCall
    requires s.cfg.role == Patient && s.stage == Settled && s.log == []
    requires !s.hostListening && !s.popupVisible && s.requestingUser.None?
    requires !s.polling && !s.doctorNotAvailable && !s.joinerListening
    requires !s.waitingApproval && !s.rejected && !s.showCall
    ensures Inv(ProceedToJoinFlow(s, count))
  {
    var r := ProceedToJoinFlow(s, count);
    if count >= 2 {
      assert r.log == [Redirect(RedirectTarget(s.cfg))];
    } else {
      assert r.log == [Sent(JoinRequest, Self(s.cfg))];
    }
  }

  lemma CustomInv(s: State, ev: Incoming, joinOk: bool, granted: bool)
    requires Inv(s)
    ensures Inv(OnCustom(s, ev, joinOk, granted))
    ensures OnCustom(s, ev, joinOk, granted).cfg == s.cfg
  {
  }

  /** Every state a component reaches from its first render satisfies `Inv`. */
  lemma {:induction false} RunInv(s: State, inputs: seq<Input>)
    requires Inv(s)
    ensures Inv(Run(s, inputs)) && Run(s, inputs).cfg == s.cfg
    decreases |inputs|
  {
    if inputs != [] {
      StepInv(s, inputs[0]);
      RunInv(Step(s, inputs[0]), inputs[1..]);
    }
  }

  lemma ReachableInv(cfg: Config, inputs: seq<Input>)
    ensures Inv(Run(Init(cfg), inputs)) && Run(Init(cfg), inputs).cfg == cfg
  {
    InitInv(cfg);
    RunInv(Init(cfg), inputs);
  }

  // ---------------------------------------------------------------------
  // Event types

  /**
   * A received type string is recognised as type `t` exactly when it is the
   * string `t` is sent as: the sender's types reach the receiver's
   * comparisons intact, and no other string is taken for one of them.
   */
  lemma ParseTypeName(name: string, t: EventType)
    ensures ParseType(name) == Some(t) <==> name == TypeName(t)
  {
    assert TypeName(JoinRequest)[5] == 'r' && TypeName(JoinRequest)[7] == 'q';
    assert TypeName(JoinAccepted)[5] == 'a';
    assert TypeName(JoinRejected)[5] == 'r' && TypeName(JoinRejected)[7] == 'j';
  }

  // ---------------------------------------------------------------------
  // The request / response handshake on the doctor's side

  /** `handleApprove` does something exactly when a call is held and a request is pending. */
  lemma ApproveGuard(s: State)
    ensures Approve(s) == s <==> !s.hasCall || s.requestingUser.None?
    ensures Reject(s) == s <==> !s.hasCall || s.requestingUser.None?
  {
    if s.hasCall && s.requestingUser.Some? {
      assert |Approve(s).log| == |s.log| + 1;
      assert |Reject(s).log| == |s.log| + 1;
    }
  }

  /**
   * Approving sends exactly one `join-accepted` carrying the pending user,
   * closes the popup, clears the slot, resets the countdown and changes
   * nothing else.
   */
  lemma ApproveSendsOneAcceptance(s: State, u: User)
    requires s.hasCall && s.requestingUser == Some(u)
    ensures Approve(s).log == s.log + [Sent(JoinAccepted, u)]
    ensures !Approve(s).popupVisible && Approve(s).requestingUser == None
    ensures Approve(s).countdown == CountdownStart
    ensures Approve(s).(log := s.log, popupVisible := s.popupVisible,
                        requestingUser := s.requestingUser, countdown := s.countdown) == s
  {
    assert Approve(s) == s.(log := s.log + [Sent(JoinAccepted, u)], popupVisible := false,
                          requestingUser := None, countdown := CountdownStart);
  }

  /** Rejecting is the same with `join-rejected`. */
  lemma RejectSendsOneRejection(s: State, u: User)
    requires s.hasCall && s.requestingUser == Some(u)
    ensures Reject(s).log == s.log + [Sent(JoinRejected, u)]
    ensures !Reject(s).popupVisible && Reject(s).requestingUser == None
    ensures Reject(s).countdown == CountdownStart
    ensures Reject(s).(log := s.log, popupVisible := s.popupVisible,
                       requestingUser := s.requestingUser, countdown := s.countdown) == s
  {
    assert Reject(s) == s.(log := s.log + [Sent(JoinRejected, u)], popupVisible := false,
                          requestingUser := None, countdown := CountdownStart);
  }

  /** The doctor's handler ignores every event but `join-request`, and everything before it is registered. */
  lemma HostHandlerIgnoresOthers(s: State, ev: Incoming, granted: bool)
    requires !s.hostListening || ev.typ != TypeName(JoinRequest)
    ensures HostHandler(s, ev, granted) == s
  {
    ParseTypeName(ev.typ, JoinRequest);
  }

  /**
   * On a `join-request` the doctor's handler fills the single request slot
   * with the sender (or leaves it empty when the event has no user), shows
   * the popup and, when notifications are granted at that moment, shows one
   * notification naming the requester; nothing else changes.
   */
  lemma HostHandlerNotifies(s: State, ev: Incoming)
    requires s.hostListening && ev.typ == TypeName(JoinRequest)
    ensures HostHandler(s, ev, true) ==
      s.(requestingUser := ev.sender, popupVisible := true,
         log := s.log + [Notified(NotificationTitle(ev.sender))])
  {
    ParseTypeName(ev.typ, JoinRequest);
  }

  /** Without notification permission the request is stored and the popup shown, and the log is untouched. */
  lemma HostHandlerSilent(s: State, ev: Incoming)
    requires s.hostListening && ev.typ == TypeName(JoinRequest)
    ensures HostHandler(s, ev, false) == s.(requestingUser := ev.sender, popupVisible := true)
  {
    ParseTypeName(ev.typ, JoinRequest);
  }

  /**
   * The permission is read anew for every request: the same request is
   * announced or not according to the permission when it arrives, and
   * otherwise has the same effect.
   */
  lemma PermissionReadPerRequest(s: State, ev: Incoming)
    requires s.hostListening && ev.typ == TypeName(JoinRequest)
    ensures HostHandler(s, ev, true).log == HostHandler(s, ev, false).log + [Notified(NotificationTitle(ev.sender))]
    ensures HostHandler(s, ev, true).(log := s.log) == HostHandler(s, ev, false)
  {
    ParseTypeName(ev.typ, JoinRequest);
  }

  /** A request without a user name is announced as coming from "A patient". */
  lemma AnonymousRequester(sender: Option<User>)
    requires sender.None? || sender.value.name == ""
    ensures NotificationTitle(sender) == "A patient wants to join the call"
  {
  }

  /** A second request while one is pending overwrites the slot: the first requester is lost. */
  lemma SecondRequestOverwrites(s: State, first: Incoming, second: Incoming, g1: bool, g2: bool)
    requires s.hostListening && first.typ == TypeName(JoinRequest) && second.typ == TypeName(JoinRequest)
    ensures HostHandler(HostHandler(s, first, g1), second, g2).requestingUser == second.sender
    ensures HostHandler(HostHandler(s, first, g1), second, g2).popupVisible
  {
    ParseTypeName(TypeName(JoinRequest), JoinRequest);
  }

  // ---------------------------------------------------------------------
  // The patient's side

  /**
   * With two or more participants the call is full: no request is sent,
   * the call is hidden, loading ends and one redirect to "/" + callId is
   * scheduled.  Otherwise exactly one `join-request` with the patient's own
   * identity is sent and the patient waits for approval.
   */
  lemma ProceedToJoinFlowSpec(s: State, count: nat)
    ensures count >= 2 ==>
      && ProceedToJoinFlow(s, count).log == s.log + [Redirect("/" + s.cfg.callId)]
      && !ProceedToJoinFlow(s, count).showCall && !ProceedToJoinFlow(s, count).loading
      && ProceedToJoinFlow(s, count).waitingApproval == s.waitingApproval
      && ProceedToJoinFlow(s, count).joinerListening == s.joinerListening
    ensures count < 2 ==>
      && ProceedToJoinFlow(s, count).log ==
           s.log + [Sent(JoinRequest, User(s.cfg.userId, s.cfg.userName))]
      && ProceedToJoinFlow(s, count).waitingApproval && ProceedToJoinFlow(s, count).joinerListening
      && ProceedToJoinFlow(s, count).showCall == s.showCall
      && ProceedToJoinFlow(s, count).loading == s.loading
  {
  }

  /** The first occupancy check, when somebody is in the call, goes straight to `proceedToJoinFlow`. */
  lemma FirstCheckOccupied(s: State, count: nat)
    requires s.stage == AwaitingFirstCheck && count > 0
    ensures FirstCheck(s, Fetched(count)) == ProceedToJoinFlow(s.(stage := Settled), count)
  {
  }

  /**
   * The first occupancy check, when the call is empty or `get()` throws,
   * shows "doctor not available", ends loading and starts the poll without
   * sending anything; a throw also clears `waitingApproval`.
   */
  lemma FirstCheckUnavailable(s: State, probe: Probe)
    requires s.stage == AwaitingFirstCheck
    requires probe == Fetched(0) || probe == Threw
    ensures var r := FirstCheck(s, probe);
      && r.stage == Settled && r.doctorNotAvailable && r.polling
      && !r.showCall && !r.loading && r.log == s.log
      && r.waitingApproval == (s.waitingApproval && probe != Threw)
      && r.joinerListening == s.joinerListening
  {
  }

  /**
   * A tick that sees somebody in the call stops the poll, clears "doctor not
   * available" and proceeds once: alone with the doctor it sends the join
   * request and waits, with two or more it schedules the redirect.
   */
  lemma PollTickProceeds(s: State, count: nat)
    requires s.polling && count > 0
    ensures var t := PollTick(s, Fetched(count));
      && !t.polling && !t.doctorNotAvailable
      && (count == 1 ==> t.waitingApproval && t.log == s.log + [Sent(JoinRequest, Self(s.cfg))])
      && (count >= 2 ==> !t.showCall && !t.loading && t.log == s.log + [Redirect(RedirectTarget(s.cfg))])
  {
    // one count at a time: both branches of proceedToJoinFlow at once are costly
    if count == 1 {
    } else {
    }
  }

  /** A tick that sees nobody, or whose `get()` throws, changes nothing, so the poll goes on. */
  lemma PollTickIdle(s: State, probe: Probe)
    requires s.polling && (probe == Fetched(0) || probe == Threw)
    ensures PollTick(s, probe) == s
  {
  }

  predicate Idle(i: Input) {
    i == Tick(Fetched(0)) || i == Tick(Threw)
  }

  /** However many ticks find the call empty or missing, the component keeps waiting, unchanged. */
  lemma {:induction false} IdlePollingChangesNothing(s: State, ticks: seq<Input>)
    requires s.polling
    requires forall k :: 0 <= k < |ticks| ==> Idle(ticks[k])
    ensures Run(s, ticks) == s
    decreases |ticks|
  {
    if ticks != [] {
      IdlePollingChangesNothing(s, ticks[1..]);
    }
  }

  /**
   * The patient's handler: `join-accepted` shows the call only when `join()`
   * succeeded and the component is still mounted; `join-rejected` marks the
   * rejection whether mounted or not.
   */
  lemma JoinerHandlerSpec(s: State, ev: Incoming, joinOk: bool)
    requires s.joinerListening
    ensures ev.typ == TypeName(JoinAccepted) && joinOk && s.mounted ==>
      JoinerHandler(s, ev, joinOk) ==
        s.(hasClient := true, hasCall := true, showCall := true, waitingApproval := false, loading := false)
    ensures ev.typ == TypeName(JoinAccepted) && !(joinOk && s.mounted) ==> JoinerHandler(s, ev, joinOk) == s
    ensures ev.typ == TypeName(JoinRejected) ==>
      JoinerHandler(s, ev, joinOk) == s.(waitingApproval := false, rejected := true, loading := false)
    ensures ev.typ != TypeName(JoinAccepted) && ev.typ != TypeName(JoinRejected) ==>
      JoinerHandler(s, ev, joinOk) == s
  {
    ParseTypeName(ev.typ, JoinAccepted);
    ParseTypeName(ev.typ, JoinRejected);
  }

  /**
   * The patient's handler does not look at whom a decision is for: an
   * acceptance or rejection addressed to another user has the same effect.
   */
  lemma JoinerIgnoresAddressee(s: State, a: Incoming, b: Incoming, joinOk: bool)
    requires a.typ == b.typ
    ensures JoinerHandler(s, a, joinOk) == JoinerHandler(s, b, joinOk)
  {
  }

  /** After teardown a successful doctor join registers the handler but shows nothing. */
  lemma UnmountedHostJoinShowsNothing(s: State)
    requires s.stage == AwaitingHostJoin
    ensures var r := HostJoined(Teardown(s), true);
      r.hostListening && r.hasClient == s.hasClient && r.hasCall == s.hasCall && r.showCall == s.showCall
  {
  }

  /** After teardown no event, an acceptance included, sets the client, the call or `showCall`. */
  lemma UnmountedAcceptShowsNothing(s: State, ev: Incoming, joinOk: bool)
    ensures var r := JoinerHandler(Teardown(s), ev, joinOk);
      r.hasClient == s.hasClient && r.hasCall == s.hasCall && r.showCall == s.showCall
  {
  }

  /**
   * Teardown only clears the mounted guard: it does not leave the call,
   * emits nothing and keeps any poll running.
   */
  lemma TeardownSpec(s: State)
    ensures !Teardown(s).mounted
    ensures Teardown(s).(mounted := s.mounted) == s
  {
  }

  lemma TeardownIdempotent(s: State)
    ensures Teardown(Teardown(s)) == Teardown(s)
  {
  }

  /**
   * The poll outlives teardown: a tick after it that finds the doctor still
   * sends the join request and registers the patient's handler.
   */
  lemma PollOutlivesTeardown(s: State)
    requires s.polling
    ensures Teardown(s).polling
    ensures var t := PollTick(Teardown(s), Fetched(1));
      t.log == s.log + [Sent(JoinRequest, Self(s.cfg))] && t.joinerListening && !t.mounted
  {
  }

  // ---------------------------------------------------------------------
  // Properties of whole runs

  /**
   * Whatever happens, a patient's component sends at most one join request
   * and schedules at most one redirect, never both, and the request carries
   * the patient's own normalised identity.
   */
  lemma PatientEffectsAtMostOnce(userName: string, meetingId: string, inputs: seq<Input>)
    ensures var s := Run(Init(Props(Patient, userName, meetingId)), inputs);
      s.log == [] ||
      s.log == [Sent(JoinRequest, User(Identity.NormalizeUserId(userName), userName))] ||
      s.log == [Redirect("/" + meetingId)]
  {
    ReachableInv(Props(Patient, userName, meetingId), inputs);
  }

  /** A doctor's component only ever sends acceptances and rejections and shows notifications. */
  lemma DoctorOnlyResponds(cfg: Config, inputs: seq<Input>, k: nat)
    requires cfg.role == Doctor && k < |Run(Init(cfg), inputs).log|
    ensures var e := Run(Init(cfg), inputs).log[k];
      (e.Sent? && (e.kind == JoinAccepted || e.kind == JoinRejected)) || e.Notified?
  {
    ReachableInv(cfg, inputs);
  }

  /** The countdown is never decremented: it reads 20 in every reachable state. */
  lemma CountdownNeverMoves(cfg: Config, inputs: seq<Input>)
    ensures Run(Init(cfg), inputs).countdown == 20
  {
    ReachableInv(cfg, inputs);
  }

  /** At most one poll runs, and only a patient with no request sent polls. */
  lemma PollingOnlyBeforeRequest(cfg: Config, inputs: seq<Input>)
    ensures var s := Run(Init(cfg), inputs);
      s.polling ==> cfg.role == Patient && s.log == [] && !s.joinerListening && s.doctorNotAvailable
  {
    ReachableInv(cfg, inputs);
  }

  /**
   * Once the doctor is in the call, the call stays shown and loading stays
   * off, across any number of requests, approvals, rejections and teardowns.
   */
  lemma {:induction false} HostStaysLive(s: State, inputs: seq<Input>)
    requires Inv(s) && s.cfg.role == Doctor && s.hasCall
    ensures var r := Run(s, inputs);
      r.hasCall && r.hasClient && r.showCall && !r.loading
    decreases |inputs|
  {
    if inputs != [] {
      StepInv(s, inputs[0]);
      HostStaysLive(Step(s, inputs[0]), inputs[1..]);
    }
  }

  /**
   * The patient's happy path: with a token and the doctor alone in the call,
   * the patient asks to join under its normalised identifier and waits; the
   * doctor's acceptance (with the patient's `join()` succeeding) shows the call.
   */
  lemma PatientHandshake(userName: string, meetingId: string, doctor: User)
    ensures var me := User(Identity.NormalizeUserId(userName), userName);
      var asked := Step(Step(Init(Props(Patient, userName, meetingId)), TokenResult(Some("t"))),
                        FirstProbe(Fetched(1)));
      var admitted := Step(asked, Custom(Incoming(TypeName(JoinAccepted), Some(doctor), Some(me)), true, false));
      && asked.log == [Sent(JoinRequest, me)] && asked.waitingApproval && !asked.showCall
      && admitted.showCall && admitted.hasCall && !admitted.waitingApproval && !admitted.loading
  {
    ParseTypeName(TypeName(JoinAccepted), JoinAccepted);
  }

  /**
   * The doctor's happy path: with a token the call is created and shown; a
   * request from `u` is approved, which sends one acceptance to `u` and
   * clears the request slot.
   */
  lemma DoctorHandshake(userName: string, meetingId: string, u: User)
    ensures var joined := Step(Step(Init(Props(Doctor, userName, meetingId)), TokenResult(Some("t"))),
                               HostJoinResult(true));
      var approved := Step(Step(joined, Custom(Incoming(TypeName(JoinRequest), Some(u), None), true, false)),
                           ApproveClick);
      && joined.showCall && !joined.loading
      && approved.log == [Sent(JoinAccepted, u)] && approved.requestingUser.None? && approved.showCall
  {
    ParseTypeName(TypeName(JoinRequest), JoinRequest);
  }
}
