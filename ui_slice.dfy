/** The UI slice: whether the mobile menu is open and the colour theme. */
module UiSlice {

  datatype Theme = Light | Dark

  datatype Ui = Ui(mobileMenuOpen: bool, theme: Theme)

  const InitialUi: Ui := Ui(false, Light)

  datatype Action = ToggleMobileMenu | SetTheme(theme: Theme)

  function Reduce(st: Ui, a: Action): (r: Ui)
    ensures r.mobileMenuOpen == (if a.ToggleMobileMenu? then !st.mobileMenuOpen else st.mobileMenuOpen)
    ensures r.theme == (if a.SetTheme? then a.theme else st.theme)
  {
    match a
    case ToggleMobileMenu => st.(mobileMenuOpen := !st.mobileMenuOpen)
    case SetTheme(t) => st.(theme := t)
  }

  /** Toggling the menu twice restores the state. */
  lemma ToggleTwiceIsIdentity(st: Ui)
    ensures Reduce(Reduce(st, ToggleMobileMenu), ToggleMobileMenu) == st
  {
  }

  /** Toggling always changes the menu flag, never the theme. */
  lemma ToggleFlipsMenuOnly(st: Ui)
    ensures Reduce(st, ToggleMobileMenu) != st
    ensures Reduce(st, ToggleMobileMenu).theme == st.theme
  {
  }

  class UiState {
    var mobileMenuOpen: bool
    var theme: Theme

    function Value(): Ui
      reads this
    {
      Ui(mobileMenuOpen, theme)
    }

    constructor ()
      ensures Value() == InitialUi
    {
      mobileMenuOpen, theme := false, Light;
    }

    method ToggleMobileMenu()
      modifies this
      ensures Value() == Reduce(old(Value()), Action.ToggleMobileMenu)
    {
      mobileMenuOpen := !mobileMenuOpen;
    }

    method SetTheme(payload: Theme)
      modifies this
      ensures Value() == Reduce(old(Value()), Action.SetTheme(payload))
    {
      theme := payload;
    }
  }
}
