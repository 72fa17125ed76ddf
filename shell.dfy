/**
 `App`: the application shell. It shows a chooser of four layouts until one
 is picked, then that layout under a "back to options" button. The login
 flag lives here and is handed to the chosen layout with its setter, so it
 survives switching layouts.
 */
module Shell {
  import opened Wrappers

  /** The four layouts, `LayoutOption1` to `LayoutOption4`. */
  datatype LayoutChoice = TabbedLayout | SplitScreenLayout | WizardLayout | DashboardLayout

  /** The dispatch table from a layout number to its component; other numbers render nothing. */
  function LayoutFor(n: int): Option<LayoutChoice> {
    if n == 1 then Some(TabbedLayout)
    else if n == 2 then Some(SplitScreenLayout)
    else if n == 3 then Some(WizardLayout)
    else if n == 4 then Some(DashboardLayout)
    else None
  }

  /** The number of a layout's chooser card. */
  function LayoutNumber(c: LayoutChoice): int {
    match c
    case TabbedLayout => 1
    case SplitScreenLayout => 2
    case WizardLayout => 3
    case DashboardLayout => 4
  }

  /** The table is defined exactly on the card numbers, and card numbers and layouts correspond one to one. */
  lemma DispatchRoundTrip(n: int, c: LayoutChoice)
    ensures LayoutFor(n).Some? <==> 1 <= n <= 4
    ensures LayoutFor(LayoutNumber(c)) == Some(c)
    ensures LayoutFor(n) == Some(c) ==> n == LayoutNumber(c)
  {
  }

  /** What the shell shows: the chooser, or the back button over a layout that gets the login flag. */
  datatype AppScreen = Chooser | LayoutScreen(layout: LayoutChoice, isLoggedIn: bool)

  class App {
    var selectedLayout: Option<int>
    var isLoggedIn: bool

    ghost predicate Valid()
      reads this
    {
      selectedLayout.Some? ==> 1 <= selectedLayout.value <= 4
    }

    /** The chooser, logged out. */
    constructor ()
      ensures selectedLayout == None && !isLoggedIn
      ensures Valid()
    {
      selectedLayout := None;
      isLoggedIn := false;
    }

    /** The chooser while nothing is picked; otherwise the picked layout with the shared flag. */
    function Rendered(): (r: AppScreen)
      requires Valid()
      reads this
      ensures r.Chooser? <==> selectedLayout.None?
      ensures r.LayoutScreen? ==> LayoutNumber(r.layout) == selectedLayout.value && r.isLoggedIn == isLoggedIn
    {
      match selectedLayout
      case None => Chooser
      case Some(n) => LayoutScreen(LayoutFor(n).value, isLoggedIn)
    }

    /** A card of the chooser. */
    method SelectLayout(n: int)
      requires Valid() && selectedLayout == None && 1 <= n <= 4
      modifies this
      ensures Valid()
      ensures selectedLayout == Some(n) && isLoggedIn == old(isLoggedIn)
    {
      selectedLayout := Some(n);
    }

    /** The back button: back to the chooser, login kept. */
    method BackToOptions()
      requires Valid() && selectedLayout.Some?
      modifies this
      ensures Valid()
      ensures selectedLayout == None && isLoggedIn == old(isLoggedIn)
    {
      selectedLayout := None;
    }

    /** The setter handed to the chosen layout (its login form and logout button call it). */
    method SetIsLoggedIn(value: bool)
      requires Valid() && selectedLayout.Some?
      modifies this
      ensures Valid()
      ensures isLoggedIn == value && selectedLayout == old(selectedLayout)
    {
      isLoggedIn := value;
    }
  }

  /** Logging in inside one layout carries over to the next one picked. */
  method ExampleSwitch() {
    var app := new App();
    assert app.Rendered() == Chooser;
    app.SelectLayout(2);
    assert app.Rendered() == LayoutScreen(SplitScreenLayout, false);
    app.SetIsLoggedIn(true);
    app.BackToOptions();
    app.SelectLayout(3);
    assert app.Rendered() == LayoutScreen(WizardLayout, true);
  }
}
