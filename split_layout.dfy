/**
 `LayoutOption2`: the split-screen layout. It runs the same view machine as
 `Layout`, but the login flag belongs to the application shell and arrives
 as a parameter; its login and logout buttons call the shell back.
 */
module SplitLayout {
  import opened Navigation

  class LayoutOption2 {
    var currentView: View
    var hasSearched: bool

    function Nav(): NavState
      reads this
    {
      NavState(currentView, hasSearched)
    }

    ghost predicate Valid()
      reads this
    {
      LatchInvariant(Nav())
    }

    /** On the dashboard with no search run, whatever the login flag. */
    constructor ()
      ensures Nav() == Initial
      ensures Valid()
    {
      currentView := Dashboard;
      hasSearched := false;
    }

    /** What renders for the shell's login flag. */
    function Rendered(isLoggedIn: bool): LayoutScreen
      reads this
    {
      ScreenOf(isLoggedIn, Nav())
    }

    /** A navigation-bar click. */
    method NavigateTo(v: View)
      requires Valid() && v in NavItems
      modifies this
      ensures Valid()
      ensures Nav() == Step(old(Nav()), NavItem(v))
    {
      currentView := v;
      if v != Prediction {
        hasSearched := false;
      }
    }

    /** The settings button. */
    method OpenSettings()
      requires Valid()
      modifies this
      ensures Valid()
      ensures Nav() == Step(old(Nav()), Action.OpenSettings)
    {
      currentView := Settings;
    }

    /** The dashboard's callback towards a new prediction. */
    method DashboardNavigate()
      requires Valid() && currentView == Dashboard
      modifies this
      ensures Valid()
      ensures Nav() == Step(old(Nav()), DashboardShortcut)
    {
      currentView := Prediction;
    }

    /** The "start prediction" button of the prediction view. */
    method StartPrediction()
      requires Valid() && currentView == Prediction
      modifies this
      ensures Valid()
      ensures Nav() == Step(old(Nav()), Action.StartPrediction)
    {
      hasSearched := true;
    }
  }

  /**
   Settings leaves the latch alone while a navigation-bar item other than
   the prediction one clears it.
   */
  method ExampleNavigation() {
    var layout := new LayoutOption2();
    layout.DashboardNavigate();
    layout.StartPrediction();
    layout.OpenSettings();
    layout.NavigateTo(Prediction);
    assert layout.Rendered(true) == MainScreen([PredictionPanel(true)]);
    layout.NavigateTo(History);
    layout.NavigateTo(Prediction);
    assert layout.Rendered(true) == MainScreen([PredictionPanel(false)]);
    assert layout.Rendered(false) == LoginScreen;
  }
}
