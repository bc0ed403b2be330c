/**
 * Which of the component's screens are rendered for a given state.  The
 * conditions are independent, so several screens can be rendered at once.
 */
module Screens {
  import opened Admission

  datatype Screen =
    | Spinner            // "Loading, please wait..."
    | RejectedNotice     // "Your request was rejected by the doctor."
    | WaitingNotice      // "Waiting for doctor's approval..."
    | DoctorUnavailable  // "The doctor is not available..."
    | CallFull           // "The call is currently full..."
    | JoinPopup          // "<name> wants to join the call", with Approve / Reject
    | LiveCall           // the Stream call UI

  function Visible(s: State): set<Screen> {
    (if s.loading && !s.waitingApproval then {Spinner} else {})
    + (if !s.loading && s.rejected then {RejectedNotice} else {})
    + (if s.waitingApproval then {WaitingNotice} else {})
    + (if s.doctorNotAvailable then {DoctorUnavailable} else {})
    + (if !s.loading && !s.showCall && !s.waitingApproval && !s.rejected && !s.doctorNotAvailable
       then {CallFull} else {})
    + (if s.popupVisible && s.requestingUser.Some? then {JoinPopup} else {})
    + (if !s.loading && s.showCall && s.hasClient && s.hasCall then {LiveCall} else {})
  }

  /** Before the token arrives only the spinner is shown. */
  lemma InitialScreen(cfg: Config)
    ensures Visible(Init(cfg)) == {Spinner}
  {
  }

  /**
   * A missing or empty token ends loading with every other flag still false,
   * which renders the "call is full" notice and nothing else.
   */
  lemma TokenFailureShowsCallFull(cfg: Config, token: Option<string>)
    requires !TokenUsable(token)
    ensures Visible(TokenArrived(Init(cfg), token)) == {CallFull}
  {
  }

  /** A patient never sees the approval popup. */
  lemma PatientNeverSeesPopup(cfg: Config, inputs: seq<Input>)
    requires cfg.role == Patient
    ensures JoinPopup !in Visible(Run(Init(cfg), inputs))
  {
    ReachableInv(cfg, inputs);
  }

  /** While a patient polls, the "doctor not available" notice is the only screen. */
  lemma PollingShowsOnlyUnavailable(cfg: Config, inputs: seq<Input>)
    requires Run(Init(cfg), inputs).polling
    ensures Visible(Run(Init(cfg), inputs)) == {DoctorUnavailable}
  {
    ReachableInv(cfg, inputs);
  }

  /**
   * Once a patient's redirect is scheduled, the "call is full" notice is the
   * only screen, whatever happens afterwards.
   */
  lemma RedirectShowsOnlyCallFull(cfg: Config, inputs: seq<Input>)
    requires cfg.role == Patient && Redirected(Run(Init(cfg), inputs))
    ensures Visible(Run(Init(cfg), inputs)) == {CallFull}
  {
    ReachableInv(cfg, inputs);
  }

  /**
   * While a patient waits for approval the waiting notice is shown, and
   * neither the spinner, "doctor not available" nor "call is full" is.
   */
  lemma WaitingScreen(cfg: Config, inputs: seq<Input>)
    requires Run(Init(cfg), inputs).waitingApproval
    ensures var v := Visible(Run(Init(cfg), inputs));
      WaitingNotice in v && Spinner !in v && DoctorUnavailable !in v && CallFull !in v
  {
    ReachableInv(cfg, inputs);
  }

  /**
   * A rejected patient sees the rejection notice, and neither the spinner,
   * the waiting notice, "doctor not available" nor "call is full".
   */
  lemma RejectedScreen(cfg: Config, inputs: seq<Input>)
    requires cfg.role == Patient && Run(Init(cfg), inputs).rejected
    ensures var v := Visible(Run(Init(cfg), inputs));
      && RejectedNotice in v
      && Spinner !in v && WaitingNotice !in v && DoctorUnavailable !in v && CallFull !in v
  {
    ReachableInv(cfg, inputs);
  }

  /**
   * A doctor holding the call sees the live call and neither the spinner nor
   * "call is full"; the popup is shown exactly when a request with a user is
   * pending and the popup flag is set.
   */
  lemma HostScreen(cfg: Config, inputs: seq<Input>)
    requires cfg.role == Doctor && Run(Init(cfg), inputs).hasCall
    ensures var s := Run(Init(cfg), inputs);
      var v := Visible(s);
      && LiveCall in v && Spinner !in v && CallFull !in v
      && (JoinPopup in v <==> s.popupVisible && s.requestingUser.Some?)
  {
    ReachableInv(cfg, inputs);
  }

  /** A patient sees the live call only once it has sent its join request and registered its handler. */
  lemma PatientLiveCallOnlyAfterRequest(cfg: Config, inputs: seq<Input>)
    requires cfg.role == Patient && LiveCall in Visible(Run(Init(cfg), inputs))
    ensures Requested(Run(Init(cfg), inputs)) && Run(Init(cfg), inputs).joinerListening
  {
    ReachableInv(cfg, inputs);
  }
}
