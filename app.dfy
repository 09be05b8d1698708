/**
 * The top-level mode switch. Exactly one view is mounted at a time; switching
 * modes unmounts the other view, whose local state is discarded, and mounts a
 * fresh one. A screen is therefore the mounted view's state, and nothing of
 * the unmounted view survives in it.
 */
module App {
  import Dashboard
  import Conversation

  datatype Mode = DashboardMode | ConversationMode

  /** The mounted view and its state. */
  datatype Screen = OnDashboard(dash: Dashboard.DashState) | InConversation(chat: Conversation.ChatState)

  function ModeOf(s: Screen): Mode {
    match s
    case OnDashboard(_) => DashboardMode
    case InConversation(_) => ConversationMode
  }

  function Initial(): Screen {
    OnDashboard(Dashboard.Initial())
  }

  /** An event reaches the mounted view; `CloseClicked` is the conversation's Close button. */
  datatype Event =
    | DashboardEvent(dashEvent: Dashboard.Event)
    | ConversationEvent(chatEvent: Conversation.Event)
    | CloseClicked

  /** One event. Events addressed to the view that is not mounted cannot occur and change nothing. */
  function Step(s: Screen, e: Event): Screen {
    match s
    case OnDashboard(d) =>
      (match e
       case DashboardEvent(de) =>
         var o := Dashboard.Step(d, de);
         if o.navigate then InConversation(Conversation.Initial()) else OnDashboard(o.next)
       case _ => s)
    case InConversation(c) =>
      (match e
       case ConversationEvent(ce) => InConversation(Conversation.Step(c, ce))
       case CloseClicked => OnDashboard(Dashboard.Initial())
       case _ => s)
  }

  function Run(s: Screen, events: seq<Event>): Screen
    decreases |events|
  {
    if events == [] then s else Run(Step(s, events[0]), events[1..])
  }

  ghost predicate Invariant(s: Screen) {
    match s
    case OnDashboard(d) => Dashboard.Invariant(d)
    case InConversation(c) => Conversation.Invariant(c)
  }

  // ---- the mounted application ----

  /** The `App` component: its `mode` field and the one view it has mounted. */
  class Root {
    var mode: Mode
    var dashboard: Dashboard.View?
    var conversation: Conversation.View?

    ghost predicate Valid()
      reads this, dashboard, conversation
    {
      && (mode == DashboardMode ==> dashboard != null && conversation == null && dashboard.Valid())
      && (mode == ConversationMode ==> conversation != null && dashboard == null && conversation.Valid())
    }

    function Model(): Screen
      reads this, dashboard, conversation
      requires Valid()
    {
      if mode == DashboardMode then OnDashboard(dashboard.Model()) else InConversation(conversation.Model())
    }

    /** The app starts in dashboard mode with a fresh dashboard. */
    constructor ()
      ensures Valid() && mode == DashboardMode && Model() == Initial()
      ensures fresh(dashboard)
    {
      mode := DashboardMode;
      dashboard := new Dashboard.View();
      conversation := null;
    }

    /** The dashboard's navigate callback: conversation mode, with a freshly mounted conversation. */
    method NavigateToConversation()
      requires Valid() && mode == DashboardMode
      modifies this
      ensures Valid() && mode == ConversationMode && Model() == InConversation(Conversation.Initial())
      ensures fresh(conversation)
    {
      mode := ConversationMode;
      dashboard := null;
      conversation := new Conversation.View();
    }

    /** The conversation's close callback: dashboard mode, with a freshly mounted dashboard, whatever the log held. */
    method Close()
      requires Valid() && mode == ConversationMode
      modifies this
      ensures Valid() && mode == DashboardMode && Model() == Step(old(Model()), CloseClicked)
      ensures fresh(dashboard)
    {
      mode := DashboardMode;
      conversation := null;
      dashboard := new Dashboard.View();
    }

    /** "Create friction" on the mounted dashboard, and the navigation it may cause. */
    method CreateFriction() returns (navigated: bool)
      requires Valid() && mode == DashboardMode
      modifies this, dashboard
      ensures navigated == old(dashboard.isSignedIn)
      ensures Valid() && Model() == Step(old(Model()), DashboardEvent(Dashboard.CreateFrictionClicked))
      ensures navigated ==> fresh(conversation)
      ensures !navigated ==> dashboard == old(dashboard)
    {
      navigated := dashboard.CreateFriction();
      if navigated {
        NavigateToConversation();
      }
    }
  }

  /**
   * The dashboard's main path driven through the mounted objects: a first
   * "Create friction" is refused while signed out, signing in on the same
   * dashboard and pressing it again opens the conversation.
   */
  method SignInThenCreate() returns (first: bool, second: bool)
    ensures !first && second
  {
    var root := new Root();
    first := root.CreateFriction();
    root.dashboard.SignIn();
    second := root.CreateFriction();
  }

  // ---- properties ----

  /** The app starts on a signed-out dashboard, and exactly one view is ever mounted. */
  lemma InitialScreen()
    ensures ModeOf(Initial()) == DashboardMode
    ensures Initial().OnDashboard? && !Initial().dash.isSignedIn
  {
  }

  /**
   * The only way into the conversation is "Create friction" on a signed-in
   * dashboard, and it always opens on the one-message seed log with nothing
   * scheduled.
   */
  lemma EnteringConversation(s: Screen, e: Event)
    requires s.OnDashboard?
    ensures Step(s, e).InConversation? <==> e == DashboardEvent(Dashboard.CreateFrictionClicked) && s.dash.isSignedIn
    ensures Step(s, e).InConversation? ==> Step(s, e).chat == Conversation.Initial()
    ensures Step(s, e).InConversation? ==> |Step(s, e).chat.messages| == 1 && Step(s, e).chat.pending == []
  {
    if e.DashboardEvent? {
      Dashboard.OnlySignedInCreateNavigates(s.dash, e.dashEvent);
    }
  }

  /** Close always returns to the dashboard, whatever the log holds, and the dashboard starts signed out again. */
  lemma ClosingConversation(c: Conversation.ChatState)
    ensures Step(InConversation(c), CloseClicked) == OnDashboard(Dashboard.Initial())
    ensures !Step(InConversation(c), CloseClicked).dash.isSignedIn
  {
  }

  /** The only way back to the dashboard is Close. */
  lemma LeavingConversation(s: Screen, e: Event)
    requires s.InConversation?
    ensures Step(s, e).OnDashboard? <==> e == CloseClicked
  {
  }

  /** The mode changes only through the two callbacks. */
  lemma ModeChanges(s: Screen, e: Event)
    ensures ModeOf(Step(s, e)) != ModeOf(s) <==>
      || (s.OnDashboard? && e == DashboardEvent(Dashboard.CreateFrictionClicked) && s.dash.isSignedIn)
      || (s.InConversation? && e == CloseClicked)
  {
    if s.OnDashboard? {
      EnteringConversation(s, e);
    } else {
      LeavingConversation(s, e);
    }
  }

  lemma StepKeepsInvariant(s: Screen, e: Event)
    requires Invariant(s)
    ensures Invariant(Step(s, e))
  {
    match s
    case OnDashboard(d) =>
      if e.DashboardEvent? {
        Dashboard.StepKeepsInvariant(d, e.dashEvent);
        Conversation.InitialInvariant();
      }
    case InConversation(c) =>
      if e.ConversationEvent? {
        Conversation.StepKeepsInvariant(c, e.chatEvent);
      } else if e == CloseClicked {
        Dashboard.InitialInvariant();
      }
  }

  /**
   * Every screen the app can reach satisfies the mounted view's invariant:
   * a shown sign-in popup means signed out, and every scheduled reply
   * follows its user message in the log.
   */
  lemma {:induction false} ReachableScreensAreValid(events: seq<Event>)
    ensures Invariant(Run(Initial(), events))
  {
    Dashboard.InitialInvariant();
    RunKeepsInvariant(Initial(), events);
  }

  lemma {:induction false} RunKeepsInvariant(s: Screen, events: seq<Event>)
    requires Invariant(s)
    ensures Invariant(Run(s, events))
    decreases |events|
  {
    if events != [] {
      StepKeepsInvariant(s, events[0]);
      RunKeepsInvariant(Step(s, events[0]), events[1..]);
    }
  }

  /**
   * Leaving and re-entering the conversation forgets it: after Close, the
   * dashboard is signed out again, so one must sign in and create friction a
   * second time, and the conversation reopens on the seed log with every
   * earlier message and scheduled reply gone.
   */
  lemma ReopenedConversationIsFresh(c: Conversation.ChatState)
    ensures var afterClose := Run(InConversation(c), [CloseClicked, DashboardEvent(Dashboard.CreateFrictionClicked)]);
      afterClose.OnDashboard? && afterClose.dash.showSignInPopup && !afterClose.dash.isSignedIn
    ensures Run(InConversation(c), [CloseClicked, DashboardEvent(Dashboard.CreateFrictionClicked),
                                    DashboardEvent(Dashboard.SignInClicked), DashboardEvent(Dashboard.CreateFrictionClicked)])
            == InConversation(Conversation.Initial())
  {
    var s1 := OnDashboard(Dashboard.Initial());
    var s2 := OnDashboard(Dashboard.Initial().(showSignInPopup := true));
    var s3 := OnDashboard(Dashboard.Initial().(isSignedIn := true));
    assert Step(InConversation(c), CloseClicked) == s1;
    assert Step(s1, DashboardEvent(Dashboard.CreateFrictionClicked)) == s2;
    assert Step(s2, DashboardEvent(Dashboard.SignInClicked)) == s3;
    assert Step(s3, DashboardEvent(Dashboard.CreateFrictionClicked)) == InConversation(Conversation.Initial());
  }
}
