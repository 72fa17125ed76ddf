/**
 `Layout`: the standalone header-navigation layout that keeps its own login
 flag next to the view state.
 */
module MainLayout {
  import opened Navigation
  import opened Auth

  class Layout {
    var isLoggedIn: bool
    var currentView: View
    var hasSearched: bool

    /** The view state the handlers act on. */
    function Nav(): NavState
      reads this
    {
      NavState(currentView, hasSearched)
    }

    ghost predicate Valid()
      reads this
    {
      LatchInvariant(Nav())
    }

    /** Logged out, on the dashboard, no search run. */
    constructor ()
      ensures !isLoggedIn && Nav() == Initial
      ensures Valid()
    {
      isLoggedIn := false;
      currentView := Dashboard;
      hasSearched := false;
    }

    /** What renders: the login form while logged out, the current view's panel otherwise. */
    function Rendered(): LayoutScreen
      reads this
    {
      ScreenOf(isLoggedIn, Nav())
    }

    /** The login form's `onLogin` callback; the view state survives a logout and login. */
    method Login()
      requires Valid() && !isLoggedIn
      modifies this
      ensures Valid()
      ensures isLoggedIn && Nav() == old(Nav())
    {
      isLoggedIn := true;
    }

    /** A submit of the login form shown while logged out; its `onLogin` logs the layout in. */
    method SubmitLogin(form: LoginRegister)
      requires Valid() && !isLoggedIn
      modifies this
      ensures Valid()
      ensures isLoggedIn <==> LoginAccepted(form.loginEmail, form.loginPassword)
      ensures Nav() == old(Nav())
    {
      var callsOnLogin := form.HandleLogin();
      if callsOnLogin {
        Login();
      }
    }

    /** A submit of the registration form, which logs in through the same callback. */
    method SubmitRegister(form: LoginRegister)
      requires Valid() && !isLoggedIn
      modifies this
      ensures Valid()
      ensures isLoggedIn <==> RegisterAccepted(form.registerName, form.registerEmail, form.registerPassword)
      ensures Nav() == old(Nav())
    {
      var callsOnLogin := form.HandleRegister();
      if callsOnLogin {
        Login();
      }
    }

    /** The logout button: only the login flag changes. */
    method Logout()
      requires Valid() && isLoggedIn
      modifies this
      ensures Valid()
      ensures !isLoggedIn && Nav() == old(Nav())
    {
      isLoggedIn := false;
    }

    /** A navigation-bar click. */
    method NavigateTo(v: View)
      requires Valid() && isLoggedIn && v in NavItems
      modifies this
      ensures Valid()
      ensures isLoggedIn && Nav() == Step(old(Nav()), NavItem(v))
    {
      currentView := v;
      if v != Prediction {
        hasSearched := false;
      }
    }

    /** The settings button. */
    method OpenSettings()
      requires Valid() && isLoggedIn
      modifies this
      ensures Valid()
      ensures isLoggedIn && Nav() == Step(old(Nav()), Action.OpenSettings)
    {
      currentView := Settings;
    }

    /** The dashboard's callback towards a new prediction. */
    method DashboardNavigate()
      requires Valid() && isLoggedIn && currentView == Dashboard
      modifies this
      ensures Valid()
      ensures isLoggedIn && Nav() == Step(old(Nav()), DashboardShortcut)
    {
      currentView := Prediction;
    }

    /** The "start prediction" button of the prediction view. */
    method StartPrediction()
      requires Valid() && isLoggedIn && currentView == Prediction
      modifies this
      ensures Valid()
      ensures isLoggedIn && Nav() == Step(old(Nav()), Action.StartPrediction)
    {
      hasSearched := true;
    }
  }

  /**
   A session: an empty login form is refused, a filled one logs in; run a prediction, log out and back in; the results are
   still on screen because logging out only hides the main area.
   */
  method ExampleSession() {
    var layout := new Layout();
    assert layout.Rendered() == LoginScreen;
    var form := new LoginRegister();
    layout.SubmitLogin(form);
    assert layout.Rendered() == LoginScreen;
    form.SetLoginEmail("demo@example.com");
    form.SetLoginPassword("x");
    layout.SubmitLogin(form);
    assert layout.isLoggedIn;
    layout.NavigateTo(Prediction);
    layout.StartPrediction();
    assert layout.Rendered() == MainScreen([PredictionPanel(true)]);
    layout.Logout();
    assert layout.Rendered() == LoginScreen;
    layout.Login();
    assert layout.Rendered() == MainScreen([PredictionPanel(true)]);
  }
}
