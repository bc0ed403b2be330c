/**
 * The VideoCall component as an object whose methods update its state in
 * place, one method per handler, continuation or timer callback.  Each
 * handler is proved to move the state exactly as the corresponding
 * transition of `Admission` does and to keep `Admission.Inv`; the methods
 * it is built from are proved against the smaller transitions they perform.
 */
module Component {
  import opened Admission

  class VideoCall {
    // props, with the userId derived from the name
    const cfg: Config

    // React state
    var hasClient: bool
    var hasCall: bool
    var showCall: bool
    var loading: bool
    var rejected: bool
    var waitingApproval: bool
    var popupVisible: bool
    var requestingUser: Option<User>
    var countdown: int
    var doctorNotAvailable: bool

    // closure state of the setup effect
    var mounted: bool
    var stage: Stage
    var polling: bool
    var hostListening: bool
    var joinerListening: bool

    // custom events sent, redirects scheduled and notifications shown
    var log: seq<Effect>

    function Model(): State
      reads this
    {
      State(cfg,
            hasClient, hasCall, showCall, loading, rejected, waitingApproval, popupVisible,
            requestingUser, countdown, doctorNotAvailable,
            mounted, stage, polling, hostListening, joinerListening, log)
    }

    ghost predicate Valid()
      reads this
    {
      Inv(Model())
    }

    /** The first render: the `useState` defaults, then `setupCall` starts and awaits its token. */
    constructor (role: Role, userName: string, meetingId: string)
      ensures Valid()
      ensures Model() == Init(Props(role, userName, meetingId))
    {
      cfg := Props(role, userName, meetingId);
      hasClient, hasCall, showCall := false, false, false;
      rejected, waitingApproval, popupVisible := false, false, false;
      requestingUser := None;
      countdown := CountdownStart;
      doctorNotAvailable := false;
      mounted := true;
      stage := AwaitingToken;
      polling, hostListening, joinerListening := false, false, false;
      log := [];
      loading := true;
      new;
      InitInv(Model().cfg);
    }

    // -------------------------------------------------------------------
    // Handlers, continuations and timer callbacks.  Each keeps the
    // invariant and moves the state as its transition in `Admission` does.

    /** `setupCall` resumes with the result of `getToken`. */
    method OnToken(token: Option<string>)
      requires Valid() && stage == AwaitingToken
      modifies this
      ensures Valid()
      ensures Model() == Admission.TokenArrived(old(Model()), token)
    {
      TokenInv(Model(), token);
      TokenArrived(token);
    }

    /** The doctor's `join({create: true, ...})` settles; `ok` is false when it throws. */
    method OnHostJoin(ok: bool)
      requires Valid() && stage == AwaitingHostJoin
      modifies this
      ensures Valid()
      ensures Model() == Admission.HostJoined(old(Model()), ok)
    {
      HostJoinInv(Model(), ok);
      HostJoined(ok);
    }

    /** The patient's first `get()` settles. */
    method OnFirstCheck(probe: Probe)
      requires Valid() && stage == AwaitingFirstCheck
      modifies this
      ensures Valid()
      ensures Model() == Admission.FirstCheck(old(Model()), probe)
    {
      FirstCheckInv(Model(), probe);
      FirstCheck(probe);
    }

    /** One tick of the polling interval, with the outcome of its `get()`. */
    method OnPollTick(probe: Probe)
      requires Valid() && polling
      modifies this
      ensures Valid()
      ensures Model() == Admission.PollTick(old(Model()), probe)
    {
      PollTickInv(Model(), probe);
      PollTick(probe);
    }

    /**
     * A custom event reaches every handler registered on the call; `granted`
     * is the notification permission at that moment.
     */
    method OnCustomEvent(ev: Incoming, joinOk: bool, granted: bool)
      requires Valid()
      modifies this
      ensures Valid()
      ensures Model() == OnCustom(old(Model()), ev, joinOk, granted)
    {
      CustomInv(Model(), ev, joinOk, granted);
      HostHandler(ev, granted);
      JoinerHandler(ev, joinOk);
    }

    /** `handleApprove`. */
    method HandleApprove()
      requires Valid()
      modifies this
      ensures Valid()
      ensures Model() == Admission.Approve(old(Model()))
    {
      ResolveInv(Model());
      Respond(JoinAccepted);
    }

    /** `handleReject`. */
    method HandleReject()
      requires Valid()
      modifies this
      ensures Valid()
      ensures Model() == Admission.Reject(old(Model()))
    {
      ResolveInv(Model());
      Respond(JoinRejected);
    }

    /** The effect's cleanup: only the mounted guard changes (its `call` is still null, so nothing is left). */
    method Teardown()
      requires Valid()
      modifies this
      ensures Valid()
      ensures Model() == Admission.Teardown(old(Model()))
    {
      ResolveInv(Model());
      SetMounted(false);
    }

    // -------------------------------------------------------------------
    // The state updates themselves, one per transition, each made of setter
    // calls.  They need not keep `Valid()` on their own; the handlers above
    // do.  React applies the setters of one callback together, so their
    // order within a callback does not matter: `JoinerHandler`, for one,
    // clears `waitingApproval` before the shared `CallShown` steps.

    method TokenArrived(token: Option<string>)
      requires stage == AwaitingToken
      modifies this
      ensures Model() == Admission.TokenArrived(old(Model()), token)
    {
      if !TokenUsable(token) {
        SetLoading(false);
      }
      SetStage(if !TokenUsable(token) then Settled
               else if cfg.role == Doctor then AwaitingHostJoin
               else AwaitingFirstCheck);
    }

    method HostJoined(ok: bool)
      requires stage == AwaitingHostJoin
      modifies this
      ensures Model() == Admission.HostJoined(old(Model()), ok)
    {
      SetStage(Settled);
      if ok {
        ListenAsHost();
        if mounted {
          CallShown();
        }
      }
    }

    /** `setClient`, `setCall`, `setShowCall(true)`, `setLoading(false)`: the joined call is shown. */
    method CallShown()
      modifies this
      ensures Model() == Admission.CallShown(old(Model()))
    {
      SetClient(true);
      SetCall(true);
      SetShowCall(true);
      SetLoading(false);
    }

    /** `proceedToJoinFlow(count)`. */
    method ProceedToJoinFlow(count: nat)
      modifies this
      ensures Model() == Admission.ProceedToJoinFlow(old(Model()), count)
    {
      if count >= 2 {
        SetShowCall(false);
        SetLoading(false);
        Emit(Redirect(RedirectTarget(cfg)));
      } else {
        Emit(Sent(JoinRequest, Self(cfg)));
        SetWaitingApproval(true);
        ListenAsJoiner();
      }
    }

    method FirstCheck(probe: Probe)
      requires stage == AwaitingFirstCheck
      modifies this
      ensures Model() == Admission.FirstCheck(old(Model()), probe)
    {
      SetStage(Settled);
      if probe.Fetched? && probe.count > 0 {
        ProceedToJoinFlow(probe.count);
      } else {
        if probe.Threw? {
          SetWaitingApproval(false);
        }
        AwaitDoctor();
      }
    }

    /** `setDoctorNotAvailable(true)`, `setShowCall(false)`, `setLoading(false)`, then `setInterval`. */
    method AwaitDoctor()
      modifies this
      ensures Model() == Admission.AwaitDoctor(old(Model()))
    {
      SetDoctorNotAvailable(true);
      CallHidden();
      SetPolling(true);
    }

    /** `setShowCall(false)`, `setLoading(false)`. */
    method CallHidden()
      modifies this
      ensures Model() == Admission.CallHidden(old(Model()))
    {
      SetShowCall(false);
      SetLoading(false);
    }

    /** `clearInterval`, then `setDoctorNotAvailable(false)`. */
    method DoctorArrived()
      modifies this
      ensures Model() == Admission.DoctorArrived(old(Model()))
    {
      SetPolling(false);
      SetDoctorNotAvailable(false);
    }

    method PollTick(probe: Probe)
      requires polling
      modifies this
      ensures Model() == Admission.PollTick(old(Model()), probe)
    {
      if probe.Fetched? && probe.count > 0 {
        DoctorArrived();
        ProceedToJoinFlow(probe.count);
      }
    }

    /** The doctor's `on("custom")` callback. */
    method HostHandler(ev: Incoming, granted: bool)
      modifies this
      ensures Model() == Admission.HostHandler(old(Model()), ev, granted)
    {
      if hostListening && ParseType(ev.typ) == Some(JoinRequest) {
        ShowRequest(ev.sender);
        ShowBrowserNotification(ev.sender, granted);
      }
    }

    /** `setRequestingUser`, `setPopupVisible(true)`. */
    method ShowRequest(sender: Option<User>)
      modifies this
      ensures Model() == Admission.ShowRequest(old(Model()), sender)
    {
      SetRequestingUser(sender);
      SetPopupVisible(true);
    }

    /** `showBrowserNotification`. */
    method ShowBrowserNotification(sender: Option<User>, granted: bool)
      modifies this
      ensures Model() == Notify(old(Model()), sender, granted)
    {
      if granted {
        Emit(Notified(NotificationTitle(sender)));
      }
    }

    /** The patient's `on("custom")` callback, with the outcome of the `join()` it awaits. */
    method JoinerHandler(ev: Incoming, joinOk: bool)
      modifies this
      ensures Model() == Admission.JoinerHandler(old(Model()), ev, joinOk)
    {
      if joinerListening {
        if ParseType(ev.typ) == Some(JoinAccepted) {
          if joinOk && mounted {
            SetWaitingApproval(false);
            CallShown();
          }
        } else if ParseType(ev.typ) == Some(JoinRejected) {
          SetWaitingApproval(false);
          SetRejected(true);
          SetLoading(false);
        }
      }
    }

    /** The shared body of `handleApprove` and `handleReject`. */
    method Respond(kind: EventType)
      modifies this
      ensures Model() == Admission.Respond(old(Model()), kind)
    {
      if hasCall && requestingUser.Some? {
        Emit(Sent(kind, requestingUser.value));
        ClosePopup();
      }
    }

    /** `setPopupVisible(false)`, `setRequestingUser(null)`, `setCountdown(20)`. */
    method ClosePopup()
      modifies this
      ensures Model() == Admission.ClosePopup(old(Model()))
    {
      SetPopupVisible(false);
      SetRequestingUser(None);
      SetCountdown(CountdownStart);
    }

    // -------------------------------------------------------------------
    // The `useState` setters, and the closure variables of the effect.
    // Each changes exactly one component of the state.

    method SetClient(v: bool)
      modifies this
      ensures Model() == old(Model()).(hasClient := v)
    {
      hasClient := v;
    }

    method SetCall(v: bool)
      modifies this
      ensures Model() == old(Model()).(hasCall := v)
    {
      hasCall := v;
    }

    method SetShowCall(v: bool)
      modifies this
      ensures Model() == old(Model()).(showCall := v)
    {
      showCall := v;
    }

    method SetLoading(v: bool)
      modifies this
      ensures Model() == old(Model()).(loading := v)
    {
      loading := v;
    }

    method SetRejected(v: bool)
      modifies this
      ensures Model() == old(Model()).(rejected := v)
    {
      rejected := v;
    }

    method SetWaitingApproval(v: bool)
      modifies this
      ensures Model() == old(Model()).(waitingApproval := v)
    {
      waitingApproval := v;
    }

    method SetPopupVisible(v: bool)
      modifies this
      ensures Model() == old(Model()).(popupVisible := v)
    {
      popupVisible := v;
    }

    method SetRequestingUser(u: Option<User>)
      modifies this
      ensures Model() == old(Model()).(requestingUser := u)
    {
      requestingUser := u;
    }

    method SetCountdown(n: int)
      modifies this
      ensures Model() == old(Model()).(countdown := n)
    {
      countdown := n;
    }

    method SetDoctorNotAvailable(v: bool)
      modifies this
      ensures Model() == old(Model()).(doctorNotAvailable := v)
    {
      doctorNotAvailable := v;
    }

    /** `isMounted`. */
    method SetMounted(v: bool)
      modifies this
      ensures Model() == old(Model()).(mounted := v)
    {
      mounted := v;
    }

    /** Where `setupCall` has got to. */
    method SetStage(st: Stage)
      modifies this
      ensures Model() == old(Model()).(stage := st)
    {
      stage := st;
    }

    /** `setInterval` (true) and `clearInterval` (false) of the polling timer. */
    method SetPolling(v: bool)
      modifies this
      ensures Model() == old(Model()).(polling := v)
    {
      polling := v;
    }

    /** The doctor registers its `on("custom")` handler. */
    method ListenAsHost()
      modifies this
      ensures Model() == old(Model()).(hostListening := true)
    {
      hostListening := true;
    }

    /** The patient registers its `on("custom")` handler. */
    method ListenAsJoiner()
      modifies this
      ensures Model() == old(Model()).(joinerListening := true)
    {
      joinerListening := true;
    }

    /** `sendCustomEvent`, the redirect timer, or a browser notification. */
    method Emit(e: Effect)
      modifies this
      ensures Model() == old(Model()).(log := old(Model()).log + [e])
    {
      log := log + [e];
    }
  }

  /**
   * A doctor's session driven through the class: the call is joined, a
   * request arrives and is approved twice; the second click finds the slot
   * empty, so the log holds exactly one acceptance.
   */
  method DoctorSession(userName: string, meetingId: string, u: User) returns (sent: seq<Effect>)
    ensures sent == [Sent(JoinAccepted, u)]
  {
    var c := new VideoCall(Doctor, userName, meetingId);
    c.OnToken(Some("t"));
    c.OnHostJoin(true);
    ParseTypeName(TypeName(JoinRequest), JoinRequest);
    c.OnCustomEvent(Incoming(TypeName(JoinRequest), Some(u), None), true, false);
    c.HandleApprove();
    c.HandleApprove();
    sent := c.log;
  }
}
