/**
 The view machine shared by the two header-navigation layouts (`Layout` and
 `LayoutOption2`): the current view plus the `hasSearched` latch that decides
 whether the prediction view shows the results/chat split. The layouts'
 classes specify their handlers by `Step` on this state.
 */
module Navigation {

  datatype View = Dashboard | Prediction | History | Settings

  /** The three items of the navigation bar, in display order (settings is a separate button). */
  const NavItems: seq<View> := [Dashboard, Prediction, History]

  datatype NavState = NavState(currentView: View, hasSearched: bool)

  /** Both layouts start on the dashboard with no search run. */
  const Initial: NavState := NavState(Dashboard, false)

  /** The user actions that change the view state. */
  datatype Action =
    | NavItem(target: View)  // a click on a navigation-bar item
    | OpenSettings           // the settings button
    | DashboardShortcut      // the dashboard's "new prediction" callback
    | StartPrediction        // the "start prediction" button

  /** The handlers: what each action does to the view state. */
  function Step(s: NavState, a: Action): NavState {
    match a
    case NavItem(v) => NavState(v, if v != Prediction then false else s.hasSearched)
    case OpenSettings => s.(currentView := Settings)
    case DashboardShortcut => s.(currentView := Prediction)
    case StartPrediction => s.(hasSearched := true)
  }

  /**
   Whether the screen offers the action: nav items are the three listed
   ones, the shortcut lives on the dashboard and the start button in the
   prediction view.
   */
  predicate Offered(s: NavState, a: Action) {
    match a
    case NavItem(v) => v in NavItems
    case OpenSettings => true
    case DashboardShortcut => s.currentView == Dashboard
    case StartPrediction => s.currentView == Prediction
  }

  function Run(s: NavState, acts: seq<Action>): NavState
    decreases |acts|
  {
    if acts == [] then s else Run(Step(s, acts[0]), acts[1..])
  }

  predicate AllOffered(s: NavState, acts: seq<Action>)
    decreases |acts|
  {
    acts == [] || (Offered(s, acts[0]) && AllOffered(Step(s, acts[0]), acts[1..]))
  }

  /**
   A navigation-bar click shows its target and keeps the search latch only
   when the target is the prediction view; the other three actions each
   change one field.
   */
  lemma StepEffects(s: NavState, a: Action)
    ensures a.NavItem? ==> Step(s, a).currentView == a.target
    ensures a.NavItem? ==> (Step(s, a).hasSearched <==> a.target == Prediction && s.hasSearched)
    ensures a.OpenSettings? ==> Step(s, a) == NavState(Settings, s.hasSearched)
    ensures a.DashboardShortcut? ==> Step(s, a) == NavState(Prediction, s.hasSearched)
    ensures a.StartPrediction? ==> Step(s, a) == NavState(s.currentView, true)
  {
  }

  /** The latch is only ever set on a screen that could show it: the prediction view or settings. */
  predicate LatchInvariant(s: NavState) {
    s.hasSearched ==> s.currentView == Prediction || s.currentView == Settings
  }

  lemma StepKeepsLatchInvariant(s: NavState, a: Action)
    requires LatchInvariant(s) && Offered(s, a)
    ensures LatchInvariant(Step(s, a))
  {
  }

  /** Every run of offered actions from a state satisfying the invariant keeps it. */
  lemma {:induction false} RunKeepsLatchInvariant(s: NavState, acts: seq<Action>)
    requires LatchInvariant(s) && AllOffered(s, acts)
    ensures LatchInvariant(Run(s, acts))
    decreases |acts|
  {
    if acts != [] {
      StepKeepsLatchInvariant(s, acts[0]);
      RunKeepsLatchInvariant(Step(s, acts[0]), acts[1..]);
    }
  }

  /** The latch is set at the end of a run only if it was set before or the run pressed "start prediction". */
  lemma {:induction false} LatchNeedsStart(s: NavState, acts: seq<Action>)
    ensures Run(s, acts).hasSearched ==> s.hasSearched || StartPrediction in acts
    decreases |acts|
  {
    if acts != [] {
      LatchNeedsStart(Step(s, acts[0]), acts[1..]);
      if Run(s, acts).hasSearched && !s.hasSearched && Step(s, acts[0]).hasSearched {
        assert acts[0] == StartPrediction;
      }
      assert StartPrediction in acts[1..] ==> StartPrediction in acts;
    }
  }

  /** In particular, from the initial state no results appear before "start prediction" is pressed. */
  lemma ReachableLatch(acts: seq<Action>)
    requires AllOffered(Initial, acts)
    ensures LatchInvariant(Run(Initial, acts))
    ensures Run(Initial, acts).hasSearched ==> StartPrediction in acts
  {
    RunKeepsLatchInvariant(Initial, acts);
    LatchNeedsStart(Initial, acts);
  }

  /** What the main area can show. */
  datatype Panel = DashboardPanel | HistoryPanel | SettingsPanel | PredictionPanel(withResults: bool)

  /**
   The main area: four independent conditionals on the current view, in the
   order the layouts write them; the prediction panel shows the results/chat
   split when the latch is set and the "ready" placeholder otherwise.
   */
  function MainContent(s: NavState): seq<Panel> {
    (if s.currentView == Dashboard then [DashboardPanel] else [])
    + (if s.currentView == History then [HistoryPanel] else [])
    + (if s.currentView == Settings then [SettingsPanel] else [])
    + (if s.currentView == Prediction then [PredictionPanel(s.hasSearched)] else [])
  }

  /** The panel a view stands for, with the latch deciding the prediction split. */
  function PanelOf(v: View, hasSearched: bool): Panel {
    match v
    case Dashboard => DashboardPanel
    case History => HistoryPanel
    case Settings => SettingsPanel
    case Prediction => PredictionPanel(hasSearched)
  }

  /** Exactly one panel renders, and it is the current view's. */
  lemma ExactlyOnePanel(s: NavState)
    ensures |MainContent(s)| == 1
    ensures MainContent(s)[0] == PanelOf(s.currentView, s.hasSearched)
  {
  }

  /** The results/chat split is on screen exactly in the prediction view with the latch set. */
  lemma ResultsShownIff(s: NavState)
    ensures PredictionPanel(true) in MainContent(s) <==> s.currentView == Prediction && s.hasSearched
  {
  }

  /** Going to settings and back to the prediction item keeps the results on screen. */
  lemma SettingsKeepsResults(s: NavState)
    requires s.currentView == Prediction && s.hasSearched
    ensures Run(s, [OpenSettings, NavItem(Prediction)]) == s
    ensures MainContent(Run(s, [OpenSettings, NavItem(Prediction)])) == [PredictionPanel(true)]
  {
    assert [OpenSettings, NavItem(Prediction)][1..] == [NavItem(Prediction)];
  }

  /** Going to the dashboard or history and back to the prediction item shows the placeholder again. */
  lemma NavItemClearsResults(s: NavState, v: View)
    requires v == Dashboard || v == History
    requires s.currentView == Prediction && s.hasSearched
    ensures Run(s, [NavItem(v), NavItem(Prediction)]) == NavState(Prediction, false)
    ensures MainContent(Run(s, [NavItem(v), NavItem(Prediction)])) == [PredictionPanel(false)]
  {
    var mid := Step(s, NavItem(v));
    assert mid == NavState(v, false);
    assert [NavItem(v), NavItem(Prediction)][1..] == [NavItem(Prediction)];
    assert Run(mid, [NavItem(Prediction)]) == Step(mid, NavItem(Prediction));
  }

  /** The dashboard shortcut followed by "start prediction" brings up the results. */
  lemma ShortcutThenStartShowsResults(s: NavState)
    requires s.currentView == Dashboard
    ensures AllOffered(s, [DashboardShortcut, StartPrediction])
    ensures MainContent(Run(s, [DashboardShortcut, StartPrediction])) == [PredictionPanel(true)]
  {
    assert [DashboardShortcut, StartPrediction][1..] == [StartPrediction];
  }

  /** A layout's whole screen: the login form while logged out, otherwise the header and the main area. */
  datatype LayoutScreen = LoginScreen | MainScreen(content: seq<Panel>)

  function ScreenOf(isLoggedIn: bool, s: NavState): (r: LayoutScreen)
    ensures r.LoginScreen? <==> !isLoggedIn
    ensures r.MainScreen? ==> |r.content| == 1 && r.content[0] == PanelOf(s.currentView, s.hasSearched)
  {
    ExactlyOnePanel(s);
    if isLoggedIn then MainScreen(MainContent(s)) else LoginScreen
  }
}
