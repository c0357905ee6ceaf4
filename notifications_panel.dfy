/** The notifications settings panel: a permission state the panel keeps,
    detected when it mounts and changed by asking the browser, and what the
    panel shows for each state. The browser's Notification API is a
    parameter: whether it exists, its current permission, and the user's
    answer to a permission prompt. */
module NotificationsPanel {

  /** The panel's `PermissionState`. */
  datatype PermissionState = Default | Granted | Denied | Unsupported

  /** The browser's `NotificationPermission`: "default", "granted", "denied". */
  datatype BrowserPermission = Undecided | Allowed | Blocked

  /** The browser as the panel sees it: whether `window` is defined, and
      whether it has the Notification API with which current permission. */
  datatype Browser = Browser(hasWindow: bool, notificationApi: bool, current: BrowserPermission)

  datatype Toast = NoToast | EnabledToast | UnsupportedToast | BlockedToast

  /** What a permission request shows besides the new state: a toast, and
      whether the "Notifications active" confirmation notification fires. */
  datatype RequestEffects = RequestEffects(toast: Toast, confirmation: bool)

  datatype StatusLabel = Enabled | BlockedLabel | NotSupported | NotYetEnabled

  /** The control under the status line. */
  datatype MainControl = AllSetMessage | BlockedHelp | UnsupportedNote | EnableButton

  /** `result as PermissionState`. */
  function FromBrowser(p: BrowserPermission): (s: PermissionState)
    ensures s != Unsupported
  {
    match p
    case Undecided => Default
    case Allowed => Granted
    case Blocked => Denied
  }

  /** The state after a permission request whose answer is `answer`. */
  function AfterRequest(state: PermissionState, browser: Browser, answer: BrowserPermission): (r: PermissionState)
    ensures !browser.notificationApi ==> r == state
    ensures browser.notificationApi ==> r != Unsupported
    ensures browser.notificationApi ==> (r == Granted <==> answer == Allowed) && (r == Denied <==> answer == Blocked)
  {
    if browser.notificationApi then FromBrowser(answer) else state
  }

  /** `statusBadge()`: the label always agrees with the control shown under it. */
  function Label(state: PermissionState): (r: StatusLabel)
    ensures r == Enabled <==> Control(state) == AllSetMessage
    ensures r == BlockedLabel <==> Control(state) == BlockedHelp
    ensures r == NotSupported <==> Control(state) == UnsupportedNote
    ensures r == NotYetEnabled <==> Control(state) == EnableButton
  {
    match state
    case Granted => Enabled
    case Denied => BlockedLabel
    case Unsupported => NotSupported
    case Default => NotYetEnabled
  }

  /** The chained conditional under the status line: one control per state. */
  function Control(state: PermissionState): (r: MainControl)
    ensures r == AllSetMessage <==> state == Granted
    ensures r == BlockedHelp <==> state == Denied
    ensures r == UnsupportedNote <==> state == Unsupported
    ensures r == EnableButton <==> state == Default
  {
    if state.Granted? then AllSetMessage
    else if state.Denied? then BlockedHelp
    else if state.Unsupported? then UnsupportedNote
    else EnableButton
  }

  /** The disabled "Blocked by browser" button: shown together with the
      blocked help and the "Blocked" label. */
  predicate ShowsBlockedButton(state: PermissionState): (b: bool)
    ensures b <==> Control(state) == BlockedHelp
    ensures b <==> Label(state) == BlockedLabel
  {
    state == Denied
  }

  /** Each state has its own label and its own control, so the panel always
      tells the user which state it is in. */
  lemma LabelAndControlIdentifyState(s: PermissionState, t: PermissionState)
    ensures Label(s) == Label(t) ==> s == t
    ensures Control(s) == Control(t) ==> s == t
  {
  }

  /** The Enable button, the one way to start a request, is offered only
      before the user has decided; the disabled "Blocked by browser" control
      appears exactly when permission is denied. */
  lemma OffersMatchState(s: PermissionState)
    ensures Control(s) == EnableButton <==> s == Default
    ensures ShowsBlockedButton(s) <==> Control(s) == BlockedHelp
  {
  }

  /** A click on the panel: a request happens only through the Enable button. */
  function Click(state: PermissionState, browser: Browser, answer: BrowserPermission): PermissionState {
    if Control(state) == EnableButton then AfterRequest(state, browser, answer) else state
  }

  /** The state after the user clicks through the panel once per answer. */
  function ClickAll(state: PermissionState, browser: Browser, answers: seq<BrowserPermission>): PermissionState
    decreases |answers|
  {
    if answers == [] then state else ClickAll(Click(state, browser, answers[0]), browser, answers[1..])
  }

  /** The first answer that is not "default", if there is one. */
  function FirstDecision(answers: seq<BrowserPermission>): (r: BrowserPermission)
    ensures r != Undecided <==> exists i :: 0 <= i < |answers| && answers[i] != Undecided
    ensures r != Undecided ==> exists i :: 0 <= i < |answers| && answers[i] == r && forall j :: 0 <= j < i ==> answers[j] == Undecided
  {
    if answers == [] then Undecided
    else if answers[0] != Undecided then answers[0]
    else
      var r := FirstDecision(answers[1..]);
      assert forall i :: 1 <= i < |answers| ==> answers[i] == answers[1..][i - 1];
      if r != Undecided then
        var k :| 0 <= k < |answers[1..]| && answers[1..][k] == r && forall j :: 0 <= j < k ==> answers[1..][j] == Undecided;
        assert answers[k + 1] == r;
        r
      else r
  }

  /** Granted, denied and unsupported are final as far as the panel goes:
      from them no sequence of clicks changes the state. From "default" with
      the Notification API, the first decisive answer settles the state for
      good. */
  lemma {:induction false} DecidedStatesAreFinal(state: PermissionState, browser: Browser, answers: seq<BrowserPermission>)
    ensures state != Default ==> ClickAll(state, browser, answers) == state
    ensures state == Default && browser.notificationApi ==> ClickAll(state, browser, answers) == FromBrowser(FirstDecision(answers))
    ensures state == Default && !browser.notificationApi ==> ClickAll(state, browser, answers) == Default
    decreases |answers|
  {
    if answers != [] {
      DecidedStatesAreFinal(Click(state, browser, answers[0]), browser, answers[1..]);
    }
  }

  /** The panel component's permission state. */
  class Panel {
    var permission: PermissionState

    /** `useState<PermissionState>("default")`. */
    constructor ()
      ensures permission == Default
    {
      permission := Default;
    }

    /** The mount effect: nothing without `window`; "unsupported" without the
        Notification API; otherwise the browser's current permission. */
    method Mount(browser: Browser)
      modifies this
      ensures !browser.hasWindow ==> permission == old(permission)
      ensures browser.hasWindow && !browser.notificationApi ==> permission == Unsupported
      ensures browser.hasWindow && browser.notificationApi ==> permission == FromBrowser(browser.current)
    {
      if !browser.hasWindow {
        return;
      }
      if !browser.notificationApi {
        permission := Unsupported;
        return;
      }
      permission := FromBrowser(browser.current);
    }

    /** `requestPermission()`: without the Notification API, an error toast
        and no change; otherwise the state becomes the browser's answer, and
        only a grant fires the confirmation notification. */
    method RequestPermission(browser: Browser, answer: BrowserPermission) returns (effects: RequestEffects)
      modifies this
      ensures permission == AfterRequest(old(permission), browser, answer)
      ensures !browser.notificationApi ==> permission == old(permission) && effects == RequestEffects(UnsupportedToast, false)
      ensures browser.notificationApi ==> permission != Unsupported
      ensures effects.confirmation <==> browser.notificationApi && answer == Allowed
      ensures browser.notificationApi && answer == Allowed ==> effects.toast == EnabledToast
      ensures browser.notificationApi && answer == Blocked ==> effects.toast == BlockedToast
      ensures browser.notificationApi && answer == Undecided ==> effects.toast == NoToast
    {
      if !browser.notificationApi {
        return RequestEffects(UnsupportedToast, false);
      }
      permission := FromBrowser(answer);
      if answer == Allowed {
        effects := RequestEffects(EnabledToast, true);
      } else if answer == Blocked {
        effects := RequestEffects(BlockedToast, false);
      } else {
        effects := RequestEffects(NoToast, false);
      }
    }
  }
}
