/** The "ui" slice: theme, loading flag, the UI error and two panel flags. */
module UiSlice {
  import opened Wrappers

  datatype Theme = Light | Dark

  /** The theme `toggleTheme` switches to. */
  function OtherTheme(t: Theme): (r: Theme)
    ensures r != t
  {
    if t == Light then Dark else Light
  }

  /** Toggling the theme twice gives back the theme. */
  lemma OtherThemeInvolution(t: Theme)
    ensures OtherTheme(OtherTheme(t)) == t
  {
  }

  /** The value of the slice (the UIState interface). */
  datatype UiState = UiState(
    theme: Theme,
    isLoading: bool,
    error: Option<string>,
    showDeviceList: bool,
    showSettings: bool)

  const InitialState := UiState(Light, false, None, false, false)

  class UiStore {
    var theme: Theme
    var isLoading: bool
    var error: Option<string>
    var showDeviceList: bool
    var showSettings: bool

    function State(): UiState
      reads this
    {
      UiState(theme, isLoading, error, showDeviceList, showSettings)
    }

    /** The store starts from `initialState`. */
    constructor ()
      ensures State() == InitialState
    {
      theme, isLoading, error, showDeviceList, showSettings := Light, false, None, false, false;
    }

    method SetTheme(t: Theme)
      modifies this
      ensures State() == old(State()).(theme := t)
    {
      theme := t;
    }

    method SetLoading(loading: bool)
      modifies this
      ensures State() == old(State()).(isLoading := loading)
    {
      isLoading := loading;
    }

    method SetUiError(e: Option<string>)
      modifies this
      ensures State() == old(State()).(error := e)
    {
      error := e;
    }

    method ClearUiError()
      modifies this
      ensures State() == old(State()).(error := None)
    {
      error := None;
    }

    method SetShowDeviceList(show: bool)
      modifies this
      ensures State() == old(State()).(showDeviceList := show)
    {
      showDeviceList := show;
    }

    method SetShowSettings(show: bool)
      modifies this
      ensures State() == old(State()).(showSettings := show)
    {
      showSettings := show;
    }

    method ToggleTheme()
      modifies this
      ensures State() == old(State()).(theme := OtherTheme(old(theme)))
    {
      theme := OtherTheme(theme);
    }

    /** `resetUIState` returns `initialState`. */
    method ResetUiState()
      modifies this
      ensures State() == InitialState
    {
      theme, isLoading, error, showDeviceList, showSettings := Light, false, None, false, false;
    }
  }
}
