/**
 * The screen state machine of App.tsx. The class `App` holds the component's
 * state variables and the shared localStorage; `AppModel` is the value of
 * those variables, and the functions over it say what each handler and each
 * render does, so that lemmas can relate several steps.
 */
module AppRoot {
  import opened Wrappers
  import opened Text
  import opened Browser

  /** The screen selector; App.tsx calls these AppState.SETUP_GOAL, SETUP_LOCK, TRACKING and SUCCESS. */
  datatype AppState = SetupGoal | SetupLock | Tracking | Success

  datatype AppModel = AppModel(
    apiKey: Option<string>,
    isAuthenticated: bool,
    appState: AppState,
    goal: string,
    deadline: Option<int>,
    lockImage: Option<string>,
    isKeyChecked: bool)

  /** The `useState` initial values. */
  const Initial := AppModel(None, false, SetupGoal, "", None, None, false)

  /** The component a render returns; Blank is `null`. */
  datatype Screen =
    | Blank
    | ApiKeySetupScreen
    | LoginScreen
    | GoalSetupScreen
    | LockSetupScreen
    | GoalTrackerScreen
    | SuccessScreen

  /** One render: the screen, whether the Logout button is shown, and whether the safeguard called `handleReset`. */
  datatype Frame = Frame(screen: Screen, logoutButton: bool, resetRequested: bool)

  /** The first mount effect: take a non-empty stored key, then mark the key as checked. */
  function KeyChecked(m: AppModel, stored: Storage): AppModel {
    if Truthy(stored.apiKey) then m.(apiKey := stored.apiKey, isKeyChecked := true)
    else m.(isKeyChecked := true)
  }

  /** The second mount effect: a non-empty session token signs the user in. */
  function SessionChecked(m: AppModel, stored: Storage): AppModel {
    if Truthy(stored.sessionToken) then m.(isAuthenticated := true) else m
  }

  /** The state once both mount effects have run against the stored keys. */
  function Mounted(stored: Storage): AppModel {
    SessionChecked(KeyChecked(Initial, stored), stored)
  }

  function ApiKeyVerified(m: AppModel, key: string): AppModel {
    m.(apiKey := Some(key))
  }

  function ApiKeyInvalidated(m: AppModel): AppModel {
    m.(apiKey := None)
  }

  function LoggedIn(m: AppModel): AppModel {
    m.(isAuthenticated := true)
  }

  function Reset(m: AppModel): AppModel {
    m.(goal := "", deadline := None, lockImage := None, appState := SetupGoal)
  }

  function LoggedOut(m: AppModel): AppModel {
    Reset(m.(isAuthenticated := false))
  }

  function GoalSet(m: AppModel, goal: string, deadline: int): AppModel {
    m.(goal := goal, deadline := Some(deadline), appState := SetupLock)
  }

  function LockSet(m: AppModel, image: string): AppModel {
    m.(lockImage := Some(image), appState := Tracking)
  }

  function GoalSucceeded(m: AppModel): AppModel {
    m.(appState := Success)
  }

  /** `renderContent`: the screen for a signed-in user, or None when the safeguard resets instead. */
  function RenderContent(m: AppModel): (r: Option<Screen>)
    ensures !m.isAuthenticated ==> r == Some(LoginScreen)
    ensures r != Some(Blank) && r != Some(ApiKeySetupScreen)
    ensures r == Some(GoalTrackerScreen) ==> m.goal != "" && m.deadline.Some? && Truthy(m.apiKey)
    ensures r == Some(SuccessScreen) ==> Truthy(m.lockImage)
    ensures r.None? ==> m.isAuthenticated && (m.appState == Tracking || m.appState == Success)
  {
    if !m.isAuthenticated then Some(LoginScreen)
    else
      match m.appState
      case SetupGoal => Some(GoalSetupScreen)
      case SetupLock => Some(LockSetupScreen)
      case Tracking =>
        if m.goal == "" || m.deadline.None? || !Truthy(m.apiKey) then None else Some(GoalTrackerScreen)
      case Success =>
        if !Truthy(m.lockImage) then None else Some(SuccessScreen)
  }

  /** `renderApp`. */
  function RenderApp(m: AppModel): (f: Frame)
    ensures !m.isKeyChecked ==> f == Frame(Blank, false, false)
    ensures m.isKeyChecked && !Truthy(m.apiKey) ==> f == Frame(ApiKeySetupScreen, false, false)
    ensures m.isKeyChecked && Truthy(m.apiKey) && !m.isAuthenticated ==> f == Frame(LoginScreen, false, false)
    ensures f.logoutButton <==> m.isKeyChecked && Truthy(m.apiKey) && m.isAuthenticated
    ensures f.resetRequested ==> f.screen == Blank
  {
    if !m.isKeyChecked then Frame(Blank, false, false)
    else if !Truthy(m.apiKey) then Frame(ApiKeySetupScreen, false, false)
    else
      match RenderContent(m)
      case Some(screen) => Frame(screen, m.isAuthenticated, false)
      case None => Frame(Blank, m.isAuthenticated, true)
  }

  /**
   * The safeguard fires exactly for a signed-in TRACKING state without a goal
   * or deadline, or a SUCCESS state without a lock image. The `!apiKey` test
   * of the TRACKING branch never decides anything: `renderApp` has already
   * shown the key screen when the key is missing.
   */
  lemma SafeguardCondition(m: AppModel)
    ensures RenderApp(m).resetRequested <==>
      && m.isKeyChecked && Truthy(m.apiKey) && m.isAuthenticated
      && ((m.appState == Tracking && (m.goal == "" || m.deadline.None?))
          || (m.appState == Success && !Truthy(m.lockImage)))
  {
  }

  /** After the safeguard's reset the next render shows the goal form. */
  lemma SafeguardRecovers(m: AppModel)
    requires RenderApp(m).resetRequested
    ensures Reset(m).appState == SetupGoal
    ensures RenderApp(Reset(m)) == Frame(GoalSetupScreen, true, false)
  {
  }

  /** Reset forgets the goal whatever state it starts from, so a second reset changes nothing. */
  lemma ResetIdempotent(m: AppModel)
    ensures Reset(Reset(m)) == Reset(m)
    ensures Reset(m).goal == "" && Reset(m).deadline == None && Reset(m).lockImage == None
  {
  }

  /** The data each screen state relies on is present. */
  predicate Consistent(m: AppModel) {
    && (m.appState == SetupLock ==> m.goal != "" && m.deadline.Some?)
    && (m.appState == Tracking ==> m.goal != "" && m.deadline.Some? && Truthy(m.lockImage))
    && (m.appState == Success ==> Truthy(m.lockImage))
  }

  /** The callbacks App.tsx hands to its screens. */
  datatype Event =
    | ApiKeyVerifiedEvent(key: string)
    | InvalidApiKeyEvent
    | LoginSuccessEvent
    | LogoutEvent
    | GoalSetEvent(goal: string, deadline: int)
    | LockSetEvent(image: string)
    | GoalSuccessEvent
    | ResetEvent

  /** The handler each callback runs. */
  function Step(m: AppModel, e: Event): AppModel {
    match e
    case ApiKeyVerifiedEvent(key) => ApiKeyVerified(m, key)
    case InvalidApiKeyEvent => ApiKeyInvalidated(m)
    case LoginSuccessEvent => LoggedIn(m)
    case LogoutEvent => LoggedOut(m)
    case GoalSetEvent(goal, deadline) => GoalSet(m, goal, deadline)
    case LockSetEvent(image) => LockSet(m, image)
    case GoalSuccessEvent => GoalSucceeded(m)
    case ResetEvent => Reset(m)
  }

  /**
   * Whether the current render offers the callback: it is passed to the
   * screen on show (or is the Logout button), with the arguments that screen
   * can produce: ApiKeySetup and GoalSetup refuse blank text, and an encoded
   * lock image is a non-empty data URI.
   */
  predicate Offered(m: AppModel, e: Event) {
    var f := RenderApp(m);
    match e
    case ApiKeyVerifiedEvent(key) => f.screen == ApiKeySetupScreen && !AllWhitespace(key)
    case InvalidApiKeyEvent => f.screen == GoalTrackerScreen
    case LoginSuccessEvent => f.screen == LoginScreen
    case LogoutEvent => f.logoutButton
    case GoalSetEvent(goal, _) => f.screen == GoalSetupScreen && !AllWhitespace(goal)
    case LockSetEvent(image) => f.screen == LockSetupScreen && image != ""
    case GoalSuccessEvent => f.screen == GoalTrackerScreen
    case ResetEvent => f.screen == SuccessScreen
  }

  lemma MountedConsistent(stored: Storage)
    ensures Consistent(Mounted(stored))
  {
  }

  /** Every offered callback keeps the screen data consistent. */
  lemma StepKeepsConsistent(m: AppModel, e: Event)
    requires Consistent(m) && Offered(m, e)
    ensures Consistent(Step(m, e))
  {
    match e
    case GoalSetEvent(goal, _) =>
      assert goal != "";
    case _ =>
  }

  /** In a consistent state the safeguard never fires. */
  lemma ConsistentNeverResets(m: AppModel)
    requires Consistent(m)
    ensures !RenderApp(m).resetRequested
  {
  }

  /** A run of callbacks, each offered by the render of the state it is applied to. */
  predicate OfferedRun(m: AppModel, events: seq<Event>)
    decreases |events|
  {
    events == [] || (Offered(m, events[0]) && OfferedRun(Step(m, events[0]), events[1..]))
  }

  function Run(m: AppModel, events: seq<Event>): AppModel
    decreases |events|
  {
    if events == [] then m else Run(Step(m, events[0]), events[1..])
  }

  /**
   * From any stored keys, after any run of callbacks each of which arrives
   * while the screen that offered it is shown, the state is consistent and
   * the "should not happen" safeguard does not fire. A callback that arrives
   * later can make it fire: see LateGoalSuccessResets and LateLockSetResets.
   */
  lemma {:induction false} SafeguardUnreachable(stored: Storage, events: seq<Event>)
    requires OfferedRun(Mounted(stored), events)
    ensures Consistent(Run(Mounted(stored), events))
    ensures !RenderApp(Run(Mounted(stored), events)).resetRequested
  {
    MountedConsistent(stored);
    RunKeepsConsistent(Mounted(stored), events);
    ConsistentNeverResets(Run(Mounted(stored), events));
  }

  /**
   * A verification that settles after the user logged out: `onGoalSuccess`
   * is no longer offered, yet it still runs, and after signing in again the
   * SUCCESS state has no lock image, so the safeguard resets.
   */
  lemma LateGoalSuccessResets(m: AppModel)
    requires Consistent(m) && m.isKeyChecked && Truthy(m.apiKey) && m.isAuthenticated && m.appState == Tracking
    ensures RenderApp(m).screen == GoalTrackerScreen && Offered(m, LogoutEvent)
    ensures !Offered(LoggedOut(m), GoalSuccessEvent)
    ensures RenderApp(LoggedIn(GoalSucceeded(LoggedOut(m)))).resetRequested
  {
  }

  /**
   * An image encoding that settles after the user logged out: `onLockSet`
   * still runs, and after signing in again the TRACKING state has no goal,
   * so the safeguard resets.
   */
  lemma LateLockSetResets(m: AppModel, image: string)
    requires Consistent(m) && m.isKeyChecked && Truthy(m.apiKey) && m.isAuthenticated && m.appState == SetupLock
    ensures RenderApp(m).screen == LockSetupScreen && Offered(m, LogoutEvent)
    ensures !Offered(LoggedOut(m), LockSetEvent(image))
    ensures RenderApp(LoggedIn(LockSet(LoggedOut(m), image))).resetRequested
  {
  }

  lemma {:induction false} RunKeepsConsistent(m: AppModel, events: seq<Event>)
    requires Consistent(m) && OfferedRun(m, events)
    ensures Consistent(Run(m, events))
    decreases |events|
  {
    if events != [] {
      StepKeepsConsistent(m, events[0]);
      RunKeepsConsistent(Step(m, events[0]), events[1..]);
    }
  }

  /**
   * The life of one goal: with a stored key and no session, the user signs
   * in, sets a goal, locks an image, proves the goal and resets, each
   * callback offered by the screen before it.
   */
  lemma GoalLifecycle(key: string, goal: string, deadline: int, image: string)
    requires key != "" && !AllWhitespace(goal) && image != ""
    ensures var m0 := Mounted(Storage(Some(key), None, None));
            var m1 := LoggedIn(m0);
            var m2 := GoalSet(m1, goal, deadline);
            var m3 := LockSet(m2, image);
            var m4 := GoalSucceeded(m3);
            var m5 := Reset(m4);
            && RenderApp(m0).screen == LoginScreen && Offered(m0, LoginSuccessEvent)
            && RenderApp(m1).screen == GoalSetupScreen && Offered(m1, GoalSetEvent(goal, deadline))
            && RenderApp(m2).screen == LockSetupScreen && Offered(m2, LockSetEvent(image))
            && RenderApp(m3).screen == GoalTrackerScreen && Offered(m3, GoalSuccessEvent)
            && RenderApp(m4).screen == SuccessScreen && Offered(m4, ResetEvent)
            && RenderApp(m5).screen == GoalSetupScreen
  {
    assert goal != "";
  }

  /** The App component: its state variables, and the localStorage it shares with Login. */
  class App {
    var apiKey: Option<string>
    var isAuthenticated: bool
    var appState: AppState
    var goal: string
    var deadline: Option<int>
    var lockImage: Option<string>
    var isKeyChecked: bool
    const storage: LocalStorage

    function Model(): AppModel
      reads this
    {
      AppModel(apiKey, isAuthenticated, appState, goal, deadline, lockImage, isKeyChecked)
    }

    constructor(storage: LocalStorage)
      ensures Model() == Initial && this.storage == storage
    {
      apiKey, isAuthenticated, appState := None, false, SetupGoal;
      goal, deadline, lockImage, isKeyChecked := "", None, None, false;
      this.storage := storage;
    }

    /** The mount effect reading 'apiKey'. */
    method CheckStoredKey()
      modifies this
      ensures Model() == KeyChecked(old(Model()), storage.items)
    {
      var storedApiKey := storage.items.apiKey;
      if Truthy(storedApiKey) {
        apiKey := storedApiKey;
      }
      isKeyChecked := true;
    }

    /** The mount effect reading 'sessionToken'. */
    method CheckSession()
      modifies this
      ensures Model() == SessionChecked(old(Model()), storage.items)
    {
      var session := storage.items.sessionToken;
      if Truthy(session) {
        isAuthenticated := true;
      }
    }

    method HandleApiKeyVerified(newApiKey: string)
      modifies this, storage
      ensures storage.items == old(storage.items).(apiKey := Some(newApiKey))
      ensures Model() == ApiKeyVerified(old(Model()), newApiKey)
    {
      storage.items := storage.items.(apiKey := Some(newApiKey));
      apiKey := Some(newApiKey);
    }

    method HandleInvalidApiKey()
      modifies this, storage
      ensures storage.items == old(storage.items).(apiKey := None)
      ensures Model() == ApiKeyInvalidated(old(Model()))
    {
      storage.items := storage.items.(apiKey := None);
      apiKey := None;
    }

    method HandleLoginSuccess()
      modifies this
      ensures Model() == LoggedIn(old(Model()))
    {
      isAuthenticated := true;
    }

    method HandleLogout()
      modifies this, storage
      ensures storage.items == old(storage.items).(sessionToken := None)
      ensures Model() == LoggedOut(old(Model()))
    {
      storage.items := storage.items.(sessionToken := None);
      isAuthenticated := false;
      HandleReset();
    }

    method HandleGoalSet(newGoal: string, newDeadline: int)
      modifies this
      ensures Model() == GoalSet(old(Model()), newGoal, newDeadline)
    {
      goal := newGoal;
      deadline := Some(newDeadline);
      appState := SetupLock;
    }

    method HandleLockSet(imageBase64: string)
      modifies this
      ensures Model() == LockSet(old(Model()), imageBase64)
    {
      lockImage := Some(imageBase64);
      appState := Tracking;
    }

    method HandleGoalSuccess()
      modifies this
      ensures Model() == GoalSucceeded(old(Model()))
    {
      appState := Success;
    }

    method HandleReset()
      modifies this
      ensures Model() == Reset(old(Model()))
    {
      goal := "";
      deadline := None;
      lockImage := None;
      appState := SetupGoal;
    }

    /** One render of the component; the safeguard's `handleReset()` is its only effect. */
    method Render() returns (frame: Frame)
      modifies this
      ensures frame == RenderApp(old(Model()))
      ensures Model() == if frame.resetRequested then Reset(old(Model())) else old(Model())
    {
      if !isKeyChecked {
        return Frame(Blank, false, false);
      }
      if !Truthy(apiKey) {
        return Frame(ApiKeySetupScreen, false, false);
      }
      var content := RenderContentNow();
      frame := match content
        case Some(screen) => Frame(screen, isAuthenticated, false)
        case None => Frame(Blank, isAuthenticated, true);
    }

    /** `renderContent`, with its safeguard. */
    method RenderContentNow() returns (content: Option<Screen>)
      modifies this
      ensures content == RenderContent(old(Model()))
      ensures Model() == if content.None? then Reset(old(Model())) else old(Model())
      ensures isAuthenticated == old(isAuthenticated)
    {
      if !isAuthenticated {
        return Some(LoginScreen);
      }
      match appState
      case SetupGoal =>
        content := Some(GoalSetupScreen);
      case SetupLock =>
        content := Some(LockSetupScreen);
      case Tracking =>
        if goal == "" || deadline.None? || !Truthy(apiKey) {
          HandleReset();
          content := None;
        } else {
          content := Some(GoalTrackerScreen);
        }
      case Success =>
        if !Truthy(lockImage) {
          HandleReset();
          content := None;
        } else {
          content := Some(SuccessScreen);
        }
    }
  }
}
