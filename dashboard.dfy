/**
 * The dashboard view: a local sign-in flag, the sign-in popup, the search
 * box, the intensity dropdown, and the "Create friction" gate that asks the
 * app to open a conversation only when the user is signed in.
 *
 * Calling the app's navigate callback is modelled as the handler's result:
 * `navigate` is true exactly when the source calls `onNavigateToConversation`.
 */
module Dashboard {
  import opened Wrappers
  import Intensity

  /** The state of one mounted dashboard, as a value. */
  datatype DashState = DashState(
    isSignedIn: bool,
    showSignInPopup: bool,
    searchQuery: string,
    showDropdown: bool,
    intensityLevel: string)

  /** What a handler leaves behind: the next state, and whether it called the navigate callback. */
  datatype Outcome = Outcome(next: DashState, navigate: bool)

  function Initial(): DashState {
    DashState(false, false, "", false, Intensity.DefaultName)
  }

  // ---- handlers, as functions on the value state ----

  function AfterCreateFriction(d: DashState): Outcome {
    if d.isSignedIn then Outcome(d, true)
    else Outcome(d.(showSignInPopup := true), false)
  }

  function AfterSignIn(d: DashState): DashState {
    d.(isSignedIn := true, showSignInPopup := false)
  }

  function AfterLogout(d: DashState): DashState {
    d.(isSignedIn := false)
  }

  /** The popup's X button. */
  function AfterClosePopup(d: DashState): DashState {
    d.(showSignInPopup := false)
  }

  /** A mousedown outside the popup box; the listener exists only while the popup is shown. */
  function AfterMouseDownOutsidePopup(d: DashState): DashState {
    if d.showSignInPopup then d.(showSignInPopup := false) else d
  }

  function AfterSetSearchQuery(d: DashState, text: string): DashState {
    d.(searchQuery := text)
  }

  function AfterToggleDropdown(d: DashState): DashState {
    d.(showDropdown := !d.showDropdown)
  }

  /** A mousedown outside the dropdown; the listener exists only while it is open. */
  function AfterMouseDownOutsideDropdown(d: DashState): DashState {
    if d.showDropdown then d.(showDropdown := false) else d
  }

  function AfterSelectLevel(d: DashState, level: Intensity.Level): DashState {
    d.(intensityLevel := Intensity.Name(level), showDropdown := false)
  }

  /** The entry of the table the selector button shows (`currentLevel`). */
  function CurrentLevelOf(d: DashState): Option<Intensity.LevelInfo> {
    Intensity.Find(Intensity.Table, d.intensityLevel)
  }

  // ---- events and runs ----

  datatype Event =
    | CreateFrictionClicked
    | SignInClicked
    | LogoutClicked
    | PopupCloseClicked
    | MouseDownOutsidePopup
    | QueryTyped(text: string)
    | DropdownClicked
    | MouseDownOutsideDropdown
    | LevelPicked(level: Intensity.Level)

  function Step(d: DashState, e: Event): Outcome {
    match e
    case CreateFrictionClicked => AfterCreateFriction(d)
    case SignInClicked => Outcome(AfterSignIn(d), false)
    case LogoutClicked => Outcome(AfterLogout(d), false)
    case PopupCloseClicked => Outcome(AfterClosePopup(d), false)
    case MouseDownOutsidePopup => Outcome(AfterMouseDownOutsidePopup(d), false)
    case QueryTyped(text) => Outcome(AfterSetSearchQuery(d, text), false)
    case DropdownClicked => Outcome(AfterToggleDropdown(d), false)
    case MouseDownOutsideDropdown => Outcome(AfterMouseDownOutsideDropdown(d), false)
    case LevelPicked(level) => Outcome(AfterSelectLevel(d, level), false)
  }

  /**
   * The dashboard state after a run of events. Navigation is ignored here:
   * a signed-in "Create friction" keeps stepping the same state, although
   * the program unmounts the dashboard at that point; `App.Step` acts on it.
   */
  function Run(d: DashState, events: seq<Event>): DashState
    decreases |events|
  {
    if events == [] then d else Run(Step(d, events[0]).next, events[1..])
  }

  // ---- the invariant of every reachable state ----

  /** The popup is only ever shown to a signed-out user, and the level is one of the five. */
  ghost predicate Invariant(d: DashState) {
    && (d.showSignInPopup ==> !d.isSignedIn)
    && Intensity.IsLevelName(d.intensityLevel)
  }

  lemma InitialInvariant()
    ensures Invariant(Initial())
  {
    Intensity.DefaultIsLevel();
  }

  lemma StepKeepsInvariant(d: DashState, e: Event)
    requires Invariant(d)
    ensures Invariant(Step(d, e).next)
  {
  }

  lemma {:induction false} RunKeepsInvariant(d: DashState, events: seq<Event>)
    requires Invariant(d)
    ensures Invariant(Run(d, events))
    decreases |events|
  {
    if events != [] {
      StepKeepsInvariant(d, events[0]);
      RunKeepsInvariant(Step(d, events[0]).next, events[1..]);
    }
  }

  // ---- the mounted component ----

  /** One mounted dashboard; its handlers update the fields in place. */
  class View {
    var isSignedIn: bool
    var showSignInPopup: bool
    var searchQuery: string
    var showBossModeDropdown: bool
    var intensityLevel: string

    function Model(): DashState
      reads this
    {
      DashState(isSignedIn, showSignInPopup, searchQuery, showBossModeDropdown, intensityLevel)
    }

    ghost predicate Valid()
      reads this
    {
      Invariant(Model())
    }

    /** Mounting: signed out, popup hidden, empty query, dropdown closed, "Stubborn Friend". */
    constructor ()
      ensures Valid() && Model() == Initial()
    {
      isSignedIn := false;
      showSignInPopup := false;
      searchQuery := "";
      showBossModeDropdown := false;
      intensityLevel := Intensity.DefaultName;
      InitialInvariant();
    }

    /** `handleCreateFriction`: navigate when signed in, otherwise raise the sign-in popup. */
    method CreateFriction() returns (navigate: bool)
      requires Valid()
      modifies this
      ensures navigate == old(isSignedIn)
      ensures Valid() && Model() == AfterCreateFriction(old(Model())).next
    {
      if isSignedIn {
        navigate := true;
      } else {
        navigate := false;
        showSignInPopup := true;
      }
    }

    /** `handleSignIn`: signs in and hides the popup; it does not navigate. */
    method SignIn()
      requires Valid()
      modifies this
      ensures Valid() && Model() == AfterSignIn(old(Model()))
    {
      isSignedIn := true;
      showSignInPopup := false;
    }

    /** `handleLogout`. */
    method Logout()
      requires Valid()
      modifies this
      ensures Valid() && Model() == AfterLogout(old(Model()))
    {
      isSignedIn := false;
    }

    method ClosePopup()
      requires Valid()
      modifies this
      ensures Valid() && Model() == AfterClosePopup(old(Model()))
    {
      showSignInPopup := false;
    }

    method MouseDownOutsidePopup()
      requires Valid()
      modifies this
      ensures Valid() && Model() == AfterMouseDownOutsidePopup(old(Model()))
    {
      if showSignInPopup {
        showSignInPopup := false;
      }
    }

    method SetSearchQuery(text: string)
      requires Valid()
      modifies this
      ensures Valid() && Model() == AfterSetSearchQuery(old(Model()), text)
    {
      searchQuery := text;
    }

    method ToggleDropdown()
      requires Valid()
      modifies this
      ensures Valid() && Model() == AfterToggleDropdown(old(Model()))
    {
      showBossModeDropdown := !showBossModeDropdown;
    }

    method MouseDownOutsideDropdown()
      requires Valid()
      modifies this
      ensures Valid() && Model() == AfterMouseDownOutsideDropdown(old(Model()))
    {
      if showBossModeDropdown {
        showBossModeDropdown := false;
      }
    }

    method SelectLevel(level: Intensity.Level)
      requires Valid()
      modifies this
      ensures Valid() && Model() == AfterSelectLevel(old(Model()), level)
    {
      intensityLevel := Intensity.Name(level);
      showBossModeDropdown := false;
    }

    /** The `currentLevel` lookup: on a mounted dashboard it always finds the stored level. */
    method CurrentLevel() returns (info: Intensity.LevelInfo)
      requires Valid()
      ensures Some(info) == CurrentLevelOf(Model())
      ensures info.value == intensityLevel
    {
      var l :| Intensity.Name(l) == intensityLevel;
      Intensity.FindLevel(l);
      info := Intensity.Info(l);
    }
  }

  // ---- properties ----

  /** A fresh dashboard: signed out, no popup, empty query, dropdown closed, "Stubborn Friend". */
  lemma InitialState()
    ensures !Initial().isSignedIn && !Initial().showSignInPopup && Initial().searchQuery == ""
    ensures !Initial().showDropdown && Initial().intensityLevel == "Stubborn Friend"
  {
  }

  /**
   * "Create friction" has exactly two outcomes: signed in, it navigates and
   * changes nothing; signed out, it raises the popup, changes nothing else and
   * does not navigate.
   */
  lemma CreateFrictionGate(d: DashState)
    ensures AfterCreateFriction(d).navigate <==> d.isSignedIn
    ensures d.isSignedIn ==> AfterCreateFriction(d).next == d
    ensures !d.isSignedIn ==> AfterCreateFriction(d).next == d.(showSignInPopup := true)
  {
  }

  /** Only "Create friction" while signed in navigates. */
  lemma OnlySignedInCreateNavigates(d: DashState, e: Event)
    ensures Step(d, e).navigate <==> e == CreateFrictionClicked && d.isSignedIn
  {
  }

  /**
   * Signing in hides the popup and does not navigate; from a signed-out
   * dashboard it takes "Create friction", "Sign in", then a second
   * "Create friction" to leave.
   */
  lemma SignInDoesNotNavigate(d: DashState)
    requires !d.isSignedIn
    ensures !Step(d, CreateFrictionClicked).navigate
    ensures var d1 := Step(d, CreateFrictionClicked).next;
      && d1.showSignInPopup
      && !Step(d1, SignInClicked).navigate
      && !Step(d1, SignInClicked).next.showSignInPopup
      && Step(Step(d1, SignInClicked).next, CreateFrictionClicked).navigate
  {
  }

  /** Logging out clears the flag and nothing else. */
  lemma LogoutOnlySignsOut(d: DashState)
    ensures AfterLogout(d) == d.(isSignedIn := false)
    ensures !Step(d, LogoutClicked).navigate
  {
  }

  /** Both ways of dismissing the popup hide it and keep the sign-in flag. */
  lemma DismissingThePopup(d: DashState)
    ensures !AfterClosePopup(d).showSignInPopup && AfterClosePopup(d) == d.(showSignInPopup := false)
    ensures !AfterMouseDownOutsidePopup(d).showSignInPopup
    ensures AfterMouseDownOutsidePopup(d) == d.(showSignInPopup := false)
  {
  }

  /** The dropdown button is an involution; a mousedown outside closes the dropdown. */
  lemma DropdownToggle(d: DashState)
    ensures AfterToggleDropdown(AfterToggleDropdown(d)) == d
    ensures AfterMouseDownOutsideDropdown(d) == d.(showDropdown := false)
  {
  }

  /** Picking a level stores it and closes the dropdown, and the lookup then finds exactly that level. */
  lemma PickingALevel(d: DashState, level: Intensity.Level)
    ensures AfterSelectLevel(d, level) == d.(intensityLevel := Intensity.Name(level), showDropdown := false)
    ensures CurrentLevelOf(AfterSelectLevel(d, level)) == Some(Intensity.Info(level))
  {
    Intensity.FindLevel(level);
  }

  /** On every reachable dashboard the `currentLevel` lookup succeeds. */
  lemma {:induction false} CurrentLevelAlwaysFound(events: seq<Event>)
    ensures CurrentLevelOf(Run(Initial(), events)).Some?
    ensures CurrentLevelOf(Run(Initial(), events)).value.value == Run(Initial(), events).intensityLevel
  {
    InitialInvariant();
    RunKeepsInvariant(Initial(), events);
    var l :| Intensity.Name(l) == Run(Initial(), events).intensityLevel;
    Intensity.FindLevel(l);
  }
}
