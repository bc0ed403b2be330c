# Call admission in the VideoCall component

This project models the call-admission logic of the `VideoCall` React
component (`src/components/VideoCall.tsx`). The component is a waiting-room
gate in front of a Stream video call:

- **Identity.** It derives the participant's `userId` from the display name.
- **Token.** It fetches an access token.
- **Doctor.** A doctor creates and joins the call and listens for
  `join-request` custom events. Each request opens a popup with Approve and
  Reject, which answer with `join-accepted` or `join-rejected`.
- **Patient.** A patient checks how many people are in the call:
  - with nobody there, or no call yet, it polls every 5 seconds;
  - with two or more, it schedules a redirect;
  - otherwise it sends one `join-request` and waits for the answer.
- **Screens.** Which screens render follows from the resulting state.

The project has four modules:

- `Identity` (`identity.dfy`): the `userId` normalisation. JavaScript strings
  are sequences of UTF-16 code units, and the regular expression has no `u`
  flag. So every code unit outside `[a-zA-Z0-9]` is *replaced* by `_`, and a
  character outside the Basic Multilingual Plane (an emoji, say), being two
  code units, becomes `__`. The result is then lower-cased. The module proves:
  - that normalisation works character by character;
  - the identifier's length (the name's UTF-16 length) and alphabet;
  - idempotence;
  - collisions: for names within the BMP, exactly when the names agree after
    per-character normalisation. Across planes, "a" plus an emoji collides
    with "a__".
- `Admission` (`admission.dfy`): the state machine as values. The state
  consists of:
  - the ten `useState` fields, with the SDK client and call handle reduced to
    "present" flags;
  - the effect's closure state: the `isMounted` guard, where `setupCall` is
    suspended, whether a polling interval runs, and which `on("custom")`
    handlers are registered;
  - a log of outward effects: custom events sent, the scheduled redirect, and
    browser notifications.

  Each asynchronous continuation, timer tick, incoming event, button click
  and the cleanup is one transition. An incoming custom event carries its
  `custom.type` string, which the handlers compare with the three type names.
  It also carries the notification permission at the moment it arrives,
  since `showBrowserNotification` reads the permission on every call.
  `Step`/`Run` replay any sequence of transitions. `Inv` holds in every
  reachable state. The handshake, polling and teardown properties are lemmas
  about these transitions and about whole runs.
- `Component` (`video_call.dfy`): the component as a class whose fields the
  handlers update in place, one method per handler. Each handler method is
  proved to move the state exactly as its `Admission` transition does and to
  keep `Inv`. It is built from smaller methods, made of the `setX` calls the
  source makes, each proved against the smaller transition it performs.
  React applies the setters of one callback together, so their order within
  a callback is not significant, and the model does not always keep it.
- `Screens` (`screens.dfy`): the rendering conditions, with which screens a
  reachable state can show.

Behaviour of the code worth knowing, each proved:

- **Identifier.** Non-alphanumeric characters of the name are replaced by
  `_`, not removed (`PunctuationIsReplaced`, `AstralCollision`).
- **Token failure.** A missing or empty token ends loading. The remaining
  flags then render the "call is full" notice (`TokenFailureShowsCallFull`).
- **Countdown.** The popup's countdown is never decremented, and nothing
  rejects a request automatically. The countdown reads 20 in every reachable
  state (`CountdownNeverMoves`), and a `join-request` does not reset it.
- **Teardown.**
  - The cleanup only clears `isMounted`. It does not clear the polling
    interval, unregister handlers or leave the call. Its `call` is the null
    captured by the first render (`TeardownSpec`).
  - A poll that outlives teardown still sends the join request
    (`PollOutlivesTeardown`).
  - The patient's handler does not check the guard before marking a
    rejection.
- **Addressee.** The patient's handler ignores whom an acceptance or
  rejection is addressed to (`JoinerIgnoresAddressee`). A second request
  overwrites the pending one (`SecondRequestOverwrites`).

## Model

| member | source | states |
|---|---|---|
| Identity.LowerChar | src/components/VideoCall.tsx:30 | An ASCII capital becomes the lower-case letter 32 code points above it; every other character is unchanged |
| Identity.ReplaceNonAlnum | src/components/VideoCall.tsx:30 | The replacement's length is the name's UTF-16 length, and every character of the result is an ASCII letter, a digit or `_` |
| Identity.ToLower | src/components/VideoCall.tsx:30 | Lower-casing keeps the length |
| Identity.NormalizeUserId | src/components/VideoCall.tsx:30 | Definition of the userId: the replacement, then lower-casing; its properties are the lemmas below |
| Identity.NormalizeUnit | src/components/VideoCall.tsx:30 | Definition of what happens to one BMP code unit: a letter or digit is lower-cased, anything else becomes `_` |
| Identity.NormalizeChar | src/components/VideoCall.tsx:30 | Definition of what happens to one character: one normalised code unit, or `__` for a character outside the BMP (two unmatched surrogates) |
| Identity.ReplaceNonAlnumAppend | src/components/VideoCall.tsx:30 | The replacement of a concatenation is the concatenation of the replacements |
| Identity.ToLowerAppend | src/components/VideoCall.tsx:30 | Lower-casing a concatenation lower-cases each part |
| Identity.ToLowerAt | src/components/VideoCall.tsx:30 | Position i of the lower-cased string is the lower-cased character at i |
| Identity.NormalizeAppend | src/components/VideoCall.tsx:30 | The userId of a concatenation is the concatenation of the userIds: normalisation works character by character |
| Identity.NormalizeSingle | src/components/VideoCall.tsx:30 | A single character normalises to its per-character image |
| Identity.NormalizeAt | src/components/VideoCall.tsx:30 | The userId has the name's UTF-16 length, and the image of name[i] sits at name[i]'s code-unit offset |
| Identity.NormalizeShape | src/components/VideoCall.tsx:30 | Every userId has the name's UTF-16 length and uses only `[a-z0-9_]` |
| Identity.IdIsFixed | src/components/VideoCall.tsx:30 | A string of `[a-z0-9_]` characters is its own userId |
| Identity.NormalizeIdempotent | src/components/VideoCall.tsx:30 | Normalising a userId again yields the same userId |
| Identity.NormalizeBmpAt | src/components/VideoCall.tsx:30 | For a name within the BMP, the userId has the name's length, and position i is name[i] normalised |
| Identity.NormalizeCollision | src/components/VideoCall.tsx:30 | Two BMP names get the same userId if and only if they have equal length and agree position-wise after normalisation |
| Identity.NormalizeCharacterised | src/components/VideoCall.tsx:30 | For a BMP name, a string is its userId if and only if it matches the name's per-unit normalisation position by position |
| Identity.JaneDoe | src/components/VideoCall.tsx:30 | "Jane Doe" gets the userId "jane_doe" |
| Identity.PunctuationIsReplaced | src/components/VideoCall.tsx:30 | "Dr. O'Neil" gets "dr__o_neil": punctuation is replaced, not removed |
| Identity.AstralCollision | src/components/VideoCall.tsx:30 | "a" followed by any character outside the BMP gets "a__", the same userId as the name "a__" |
| Admission.TypeName | src/components/VideoCall.tsx:137-158 | Definition of the three type strings the component sends and compares against |
| Admission.ParseType | src/components/VideoCall.tsx:109-158 | Definition of the handlers' `===` comparisons of a received `custom.type` against the three type strings |
| Admission.ParseTypeName | src/components/VideoCall.tsx:109-158 | A received string is recognised as type t if and only if it is t's wire string; both directions |
| Admission.Init | src/components/VideoCall.tsx:33-42 | Definition of the first render: the useState defaults, mounted, setupCall awaiting its token, no interval or handler, nothing logged |
| Admission.TokenArrived | src/components/VideoCall.tsx:81-95 | Definition of setupCall resuming after getToken: a missing or empty token ends loading and setupCall; otherwise the doctor's join or the patient's first check is awaited |
| Admission.HostJoined | src/components/VideoCall.tsx:95-122 | Definition of the doctor's join settling: a throw ends setupCall; success registers the handler and, only while mounted, stores and shows the call |
| Admission.CallShown | src/components/VideoCall.tsx:117-122 | Definition of the setters that store and show the call and end loading, shared by the doctor's join and the patient's acceptance |
| Admission.NotificationTitle | src/components/VideoCall.tsx:110-113 | Definition of the notification title: the requester's name, or "A patient" when it has none, followed by " wants to join the call" |
| Admission.ShowRequest | src/components/VideoCall.tsx:110-112 | Definition of storing the requester (or none) and opening the popup |
| Admission.Notify | src/components/VideoCall.tsx:44-57 | Definition of showBrowserNotification: one notification when the permission is granted at that moment, nothing otherwise |
| Admission.HostHandler | src/components/VideoCall.tsx:108-115 | Definition of the doctor's handler: before registration, or for any type but "join-request", nothing; otherwise store the sender, open the popup, notify |
| Admission.JoinerHandler | src/components/VideoCall.tsx:143-159 | Definition of the patient's handler: "join-accepted" shows the call if join() succeeded and mounted; "join-rejected" marks the rejection; otherwise nothing |
| Admission.OnCustom | src/components/VideoCall.tsx:108-159 | Definition of a custom event reaching both handlers in turn |
| Admission.ProceedToJoinFlow | src/components/VideoCall.tsx:124-160 | Definition of proceedToJoinFlow: with 2+ participants hide the call and schedule the redirect; otherwise send the join request, wait and register the handler |
| Admission.FirstCheck | src/components/VideoCall.tsx:161-192 | Definition of the first get() settling: somebody there goes to proceedToJoinFlow; an empty call or a throw shows "doctor not available" and starts polling, and the throw also clears waitingApproval |
| Admission.AwaitDoctor | src/components/VideoCall.tsx:166-179 | Definition of the "doctor not available" setters followed by starting the interval |
| Admission.CallHidden | src/components/VideoCall.tsx:128-129 | Definition of hiding the call and ending loading, shared by the redirect branch and the "doctor not available" branches |
| Admission.DoctorArrived | src/components/VideoCall.tsx:174-177 | Definition of clearing the interval and the "doctor not available" notice |
| Admission.PollTick | src/components/VideoCall.tsx:170-205 | Definition of one interval tick: a count above zero stops the poll, hides the notice and runs proceedToJoinFlow; otherwise nothing |
| Admission.Approve | src/components/VideoCall.tsx:60-66 | Definition of handleApprove as the shared response with "join-accepted" |
| Admission.Reject | src/components/VideoCall.tsx:68-74 | Definition of handleReject as the shared response with "join-rejected" |
| Admission.Respond | src/components/VideoCall.tsx:60-74 | Definition of the shared response: nothing without a call or a requester; otherwise send the response to the requester and close the popup |
| Admission.ClosePopup | src/components/VideoCall.tsx:63-65 | Definition of hiding the popup, clearing the request slot and resetting the countdown to 20 |
| Admission.Teardown | src/components/VideoCall.tsx:212-215 | Definition of the cleanup: only the mounted guard is cleared |
| Admission.Step | src/components/VideoCall.tsx:76-216 | Definition of one input: a continuation only where setupCall waits, a tick only while the interval runs, any event or click at any time |
| Admission.Run | src/components/VideoCall.tsx:76-216 | Definition of a run: the inputs applied one after another |
| Admission.InitInv | src/components/VideoCall.tsx:33-42 | The useState defaults, with the effect awaiting its token, satisfy the invariant |
| Admission.TokenInv | src/components/VideoCall.tsx:81-95 | Resuming after the token fetch keeps the invariant |
| Admission.HostJoinInv | src/components/VideoCall.tsx:95-122 | The doctor's join settling (success or throw) keeps the invariant |
| Admission.FirstCheckInv | src/components/VideoCall.tsx:161-192 | The patient's first occupancy check settling keeps the invariant |
| Admission.PollTickInv | src/components/VideoCall.tsx:170-205 | Every polling tick keeps the invariant |
| Admission.ResolveInv | src/components/VideoCall.tsx:60-74 | Approve, reject and teardown keep the invariant |
| Admission.StepInv | src/components/VideoCall.tsx:76-216 | Any input keeps the invariant and the configuration |
| Admission.SetupStepInv | src/components/VideoCall.tsx:79-205 | The continuations of setupCall and the interval ticks keep the invariant and the configuration |
| Admission.ClickStepInv | src/components/VideoCall.tsx:60-74 | Clicks on Approve or Reject and the cleanup keep the invariant and the configuration |
| Admission.ProceedInv | src/components/VideoCall.tsx:124-160 | Running proceedToJoinFlow on a patient that has done nothing yet yields an invariant state (redirected, or requested and listening) |
| Admission.CustomInv | src/components/VideoCall.tsx:108-159 | An incoming custom event, seen by every registered handler, keeps the invariant and the configuration |
| Admission.RunInv | src/components/VideoCall.tsx:76-216 | Any sequence of inputs from an invariant state keeps the invariant and the configuration |
| Admission.ReachableInv | src/components/VideoCall.tsx:76-216 | Every state reachable from the first render satisfies the invariant |
| Admission.ApproveGuard | src/components/VideoCall.tsx:60-74 | Approve (and reject) change the state if and only if a call is held and a requester is pending |
| Admission.ApproveSendsOneAcceptance | src/components/VideoCall.tsx:60-66 | Approving pending user u sends exactly one join-accepted carrying u; it hides the popup, clears the slot and resets the countdown, and nothing else changes |
| Admission.RejectSendsOneRejection | src/components/VideoCall.tsx:68-74 | The same for rejecting, with exactly one join-rejected |
| Admission.HostHandlerIgnoresOthers | src/components/VideoCall.tsx:108-115 | Before registration, and for any type string other than "join-request", the doctor's handler changes nothing |
| Admission.HostHandlerNotifies | src/components/VideoCall.tsx:108-115 | With notifications granted, a join-request stores the sender, opens the popup and shows exactly one notification naming the requester; nothing else changes |
| Admission.HostHandlerSilent | src/components/VideoCall.tsx:44-57 | Without notification permission, the request is stored and the popup opened, and no notification is shown |
| Admission.PermissionReadPerRequest | src/components/VideoCall.tsx:44-57 | The same request is announced or not according to the permission when it arrives, and has the same effect otherwise |
| Admission.AnonymousRequester | src/components/VideoCall.tsx:110 | A request with no user or an empty name is announced as "A patient wants to join the call" |
| Admission.SecondRequestOverwrites | src/components/VideoCall.tsx:111-112 | A second join-request replaces the pending requester, and the popup stays open, whatever the permissions |
| Admission.ProceedToJoinFlowSpec | src/components/VideoCall.tsx:124-160 | With 2+ participants: one redirect to "/"+callId, call hidden, loading off, no request. Otherwise: one join-request with the patient's own id and name, and it waits and listens |
| Admission.FirstCheckOccupied | src/components/VideoCall.tsx:161-183 | A first check that finds someone goes straight to proceedToJoinFlow with that count |
| Admission.FirstCheckUnavailable | src/components/VideoCall.tsx:161-192 | An empty call or a throwing get() shows "doctor not available", ends loading, starts the poll and sends nothing; only the throw clears waitingApproval |
| Admission.PollTickProceeds | src/components/VideoCall.tsx:170-205 | A tick that sees someone stops the poll, hides "doctor not available", then sends the join request (count 1) or schedules the redirect (count 2+) |
| Admission.PollTickIdle | src/components/VideoCall.tsx:192-205 | A tick that sees nobody, or whose get() throws, changes nothing |
| Admission.IdlePollingChangesNothing | src/components/VideoCall.tsx:170-205 | Any number of empty or failing ticks leaves the polling state unchanged |
| Admission.JoinerHandlerSpec | src/components/VideoCall.tsx:143-159 | "join-accepted" shows the call and ends waiting only if join() succeeded and the component is mounted, and otherwise changes nothing. "join-rejected" marks the rejection and ends waiting and loading, nothing else. Other type strings change nothing |
| Admission.JoinerIgnoresAddressee | src/components/VideoCall.tsx:143-159 | The patient's handler reacts identically whoever the decision is addressed to |
| Admission.UnmountedHostJoinShowsNothing | src/components/VideoCall.tsx:117-122 | A doctor join that settles after teardown registers the handler but does not store or show the call |
| Admission.UnmountedAcceptShowsNothing | src/components/VideoCall.tsx:145-152 | After teardown no event, an acceptance included, stores or shows the call |
| Admission.TeardownSpec | src/components/VideoCall.tsx:212-215 | Teardown clears the mounted guard and changes nothing else |
| Admission.TeardownIdempotent | src/components/VideoCall.tsx:212-215 | Tearing down twice is the same as once |
| Admission.PollOutlivesTeardown | src/components/VideoCall.tsx:170-215 | Teardown leaves the poll running; a later tick that finds the doctor still sends the join request and registers the handler while unmounted |
| Admission.PatientEffectsAtMostOnce | src/components/VideoCall.tsx:124-160 | In any run, a patient logs nothing, or exactly one join-request with its normalised identity, or exactly one redirect to "/"+meetingId |
| Admission.DoctorOnlyResponds | src/components/VideoCall.tsx:60-115 | In any run, a doctor only sends join-accepted or join-rejected, or shows notifications |
| Admission.CountdownNeverMoves | src/components/VideoCall.tsx:41 | In every reachable state the countdown is 20 |
| Admission.PollingOnlyBeforeRequest | src/components/VideoCall.tsx:161-205 | Only a patient polls, and only while it has sent nothing, has no handler registered, and shows "doctor not available" |
| Admission.HostStaysLive | src/components/VideoCall.tsx:95-122 | Once a doctor holds the call, it stays stored and shown with loading off, whatever inputs follow |
| Admission.PatientHandshake | src/components/VideoCall.tsx:123-160 | Token, then a first check finding one participant: exactly one join-request with the normalised identity, and waiting. The doctor's acceptance, with a successful join, then shows the call |
| Admission.DoctorHandshake | src/components/VideoCall.tsx:95-122 | Token, then a successful join: the call is shown. A request from u, approved: exactly one acceptance to u, with the slot cleared |
| Screens.Visible | src/components/VideoCall.tsx:261-356 | Definition of the set of rendered screens: one condition per block of the markup, several of which can hold at once |
| Screens.InitialScreen | src/components/VideoCall.tsx:261-292 | The first render shows only the spinner |
| Screens.TokenFailureShowsCallFull | src/components/VideoCall.tsx:313-317 | After a missing or empty token, only the "call is full" notice is shown |
| Screens.PatientNeverSeesPopup | src/components/VideoCall.tsx:319-348 | A patient is never shown the approval popup |
| Screens.PollingShowsOnlyUnavailable | src/components/VideoCall.tsx:306-311 | While polling, "doctor not available" is the only screen |
| Screens.RedirectShowsOnlyCallFull | src/components/VideoCall.tsx:313-317 | Once the redirect is scheduled, "call is full" is the only screen |
| Screens.WaitingScreen | src/components/VideoCall.tsx:300-304 | While waiting for approval, the waiting notice is shown, and not the spinner, "doctor not available" or "call is full" |
| Screens.RejectedScreen | src/components/VideoCall.tsx:294-298 | A rejected patient sees the rejection notice, and not the spinner, the waiting notice, "doctor not available" or "call is full" |
| Screens.HostScreen | src/components/VideoCall.tsx:350-356 | A doctor holding the call sees the live call and not the spinner or "call is full"; the popup shows if and only if a requester is pending and the popup is open |
| Screens.PatientLiveCallOnlyAfterRequest | src/components/VideoCall.tsx:350-356 | A patient sees the live call only after sending its join request and registering its handler |
| Component.VideoCall.constructor | src/components/VideoCall.tsx:28-42 | A new component holds the props, the derived userId and the useState defaults, awaiting its token, and satisfies the invariant |
| Component.VideoCall.OnToken | src/components/VideoCall.tsx:81-95 | Resuming after getToken updates the object exactly as the token transition does and keeps the invariant |
| Component.VideoCall.OnHostJoin | src/components/VideoCall.tsx:95-122 | The doctor's join settling updates the object as HostJoined does and keeps the invariant |
| Component.VideoCall.OnFirstCheck | src/components/VideoCall.tsx:161-192 | The first get() settling updates the object as FirstCheck does and keeps the invariant |
| Component.VideoCall.OnPollTick | src/components/VideoCall.tsx:170-205 | A polling tick updates the object as PollTick does and keeps the invariant |
| Component.VideoCall.OnCustomEvent | src/components/VideoCall.tsx:108-159 | A custom event runs both handlers in turn, as OnCustom does, and keeps the invariant |
| Component.VideoCall.HandleApprove | src/components/VideoCall.tsx:60-66 | handleApprove updates the object as Approve does and keeps the invariant |
| Component.VideoCall.HandleReject | src/components/VideoCall.tsx:68-74 | handleReject updates the object as Reject does and keeps the invariant |
| Component.VideoCall.Teardown | src/components/VideoCall.tsx:212-215 | The cleanup updates the object as Teardown does and keeps the invariant |
| Component.VideoCall.TokenArrived | src/components/VideoCall.tsx:81-95 | setLoading(false) on a missing or empty token, and setupCall moves to its next suspension point by role or ends, as TokenArrived does |
| Component.VideoCall.HostJoined | src/components/VideoCall.tsx:95-122 | The doctor-join steps move the state to HostJoined |
| Component.VideoCall.CallShown | src/components/VideoCall.tsx:117-122 | The setClient/setCall/setShowCall/setLoading sequence stores and shows the call |
| Component.VideoCall.CallHidden | src/components/VideoCall.tsx:128-129 | setShowCall(false), setLoading(false): the call is hidden and loading ends |
| Component.VideoCall.ProceedToJoinFlow | src/components/VideoCall.tsx:124-160 | proceedToJoinFlow's statements move the state to ProceedToJoinFlow |
| Component.VideoCall.FirstCheck | src/components/VideoCall.tsx:161-192 | The first-check statements (try and catch) move the state to FirstCheck |
| Component.VideoCall.AwaitDoctor | src/components/VideoCall.tsx:166-170 | The "doctor not available" setters, plus starting the interval, move the state to AwaitDoctor |
| Component.VideoCall.DoctorArrived | src/components/VideoCall.tsx:174-177 | Clearing the interval and the notice moves the state to DoctorArrived |
| Component.VideoCall.PollTick | src/components/VideoCall.tsx:170-205 | The tick body moves the state to PollTick |
| Component.VideoCall.HostHandler | src/components/VideoCall.tsx:108-115 | The doctor's handler body, with the permission at that moment, moves the state to HostHandler |
| Component.VideoCall.ShowRequest | src/components/VideoCall.tsx:110-112 | Storing the requester and opening the popup moves the state to ShowRequest |
| Component.VideoCall.ShowBrowserNotification | src/components/VideoCall.tsx:44-57 | showBrowserNotification logs one notification exactly when permission is granted at that moment |
| Component.VideoCall.JoinerHandler | src/components/VideoCall.tsx:143-159 | The patient's handler body moves the state to JoinerHandler |
| Component.VideoCall.Respond | src/components/VideoCall.tsx:60-74 | The shared approve/reject body moves the state to Respond |
| Component.VideoCall.ClosePopup | src/components/VideoCall.tsx:63-65 | Hiding the popup, clearing the slot and resetting the countdown moves the state to ClosePopup |
| Component.VideoCall.SetClient | src/components/VideoCall.tsx:33 | setClient changes only the client flag |
| Component.VideoCall.SetCall | src/components/VideoCall.tsx:34 | setCall changes only the call flag |
| Component.VideoCall.SetShowCall | src/components/VideoCall.tsx:35 | setShowCall changes only showCall |
| Component.VideoCall.SetLoading | src/components/VideoCall.tsx:36 | setLoading changes only loading |
| Component.VideoCall.SetRejected | src/components/VideoCall.tsx:37 | setRejected changes only rejected |
| Component.VideoCall.SetWaitingApproval | src/components/VideoCall.tsx:38 | setWaitingApproval changes only waitingApproval |
| Component.VideoCall.SetPopupVisible | src/components/VideoCall.tsx:39 | setPopupVisible changes only popupVisible |
| Component.VideoCall.SetRequestingUser | src/components/VideoCall.tsx:40 | setRequestingUser changes only the request slot |
| Component.VideoCall.SetCountdown | src/components/VideoCall.tsx:41 | setCountdown changes only the countdown |
| Component.VideoCall.SetDoctorNotAvailable | src/components/VideoCall.tsx:42 | setDoctorNotAvailable changes only doctorNotAvailable |
| Component.VideoCall.SetMounted | src/components/VideoCall.tsx:77 | Assigning isMounted changes only the guard |
| Component.VideoCall.SetStage | src/components/VideoCall.tsx:79-96 | Moving setupCall to its next suspension point changes only the stage |
| Component.VideoCall.SetPolling | src/components/VideoCall.tsx:170-175 | Starting or clearing the interval changes only the polling flag |
| Component.VideoCall.ListenAsHost | src/components/VideoCall.tsx:108 | Registering the doctor's handler changes only that registration |
| Component.VideoCall.ListenAsJoiner | src/components/VideoCall.tsx:143 | Registering the patient's handler changes only that registration |
| Component.VideoCall.Emit | src/components/VideoCall.tsx:131-140 | Sending a custom event or scheduling the redirect appends exactly that effect to the log |
| Component.DoctorSession | src/components/VideoCall.tsx:60-66 | A doctor that joins, receives a request from u and clicks Approve twice has sent exactly one acceptance to u |

## Left out

- **Token fetch.** The HTTP request to the token service is not modelled. Its
  outcome (a token, null, or empty) is the input of the token transition.
  `getToken` catches its own errors and returns null.
- **Stream SDK.** The `StreamVideoClient` and call objects are reduced to
  "present" flags. Their effects are abstracted:
  - `join()`'s outcome is a boolean input;
  - `get()`'s outcome is a participant count or a throw;
  - `sendCustomEvent` is an entry in the log.
- **Join options.** The join options (create, 360p recording) are not modelled.
- **Event delivery.** Delivery of custom events is an input.
  Whether the SDK echoes a participant's own events back to it is not
  modelled.
- **A throwing doctor join.** A throw from the doctor's `join()` ends
  `setupCall`. The unhandled rejection itself is not modelled.
- **Malformed custom events.** A received event's type is a string, and a
  missing `custom` payload is modelled as a type string that none of the
  handlers recognises. The doctor's handler (`custom?.type`) then does nothing,
  as in the source. The patient's handler (`custom.type`) throws in the
  source. The model gives that throw the same effect: no state change.
- **The rest of the notification.** The notification's body, icon and
  `onclick` (focus the window and show the popup again) are left out. Only
  its title is logged. Whether a notification may be shown is a boolean
  supplied with each custom event and read when that event is handled. It is
  false both when the Notification API is missing and when permission is not
  granted, since both skip the notification.
- **Timing.** Real timers and async interleavings are not modelled:
  - the 5-second redirect delay and the navigation itself (a scheduled
    redirect is a log entry);
  - the 5-second interval period;
  - overlapping ticks while a tick's `get()` is pending;
  - events arriving while the patient's `join()` is pending.

  Each async callback is one atomic transition.
- **Effect re-runs.** Re-running the effect on a dependency change is not
  modelled. The dependencies are props and fixed for the component's
  lifetime.
- **Logging and markup.** Console logging, the CSS and the JSX markup are not
  modelled. Rendering is reduced to which screens are visible.
- Identity.ReplaceNonAlnum: a name is a string of Unicode scalar values.
  Each character outside the Basic Multilingual Plane counts as the two
  UTF-16 code units JavaScript sees, so it becomes `__`. A JavaScript string
  may also hold an unpaired surrogate; no Dafny string can, so such names are
  not modelled.
- Identity.ToLower: the Unicode lower-casing of `toLowerCase` is modelled
  only on ASCII. After the replacement only ASCII letters, digits and `_`
  remain, and on those the two agree.
- **Other files.** `src/App.tsx`, `src/main.tsx`, `src/components/TestApp.tsx`
  and `MyUILayout` are not part of this model.
