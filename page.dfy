/**
 * The home page: it restores the saved view from `localStorage` once loaded,
 * shows the view selector until a view is chosen, then the chosen content
 * view (chosen by exact string equality) together with the view toggle.
 * Choosing a view, by the selector or by the toggle, also persists it.
 */
module Page {
  import opened Storage
  import ViewToggle

  /** The `localStorage` key of the saved view. */
  const ViewKey: string := "portfolioView"

  /** What the page can render. */
  datatype Component =
    | LoadingPlaceholder
    | Selector
    | TerminalView
    | ParallaxView
    | ShootingGame
    | ToggleButton

  const ContentViews: set<Component> := {TerminalView, ParallaxView, ShootingGame}

  /** The components the page renders for a given `selectedView` and `isLoading`. */
  function Render(selectedView: Option<string>, isLoading: bool): set<Component>
  {
    if isLoading then {LoadingPlaceholder}
    else if !Truthy(selectedView) then {Selector}
    else
      var v := selectedView.value;
      (if v == "terminal" then {TerminalView} else {})
      + (if v == "parallax" then {ParallaxView} else {})
      + (if v == "shooting" then {ShootingGame} else {})
      + {ToggleButton}
  }

  /** The `selectedView` the load effect leaves, given the one before it. */
  function RestoredView(store: Store, current: Option<string>): (r: Option<string>)
    ensures Truthy(GetItem(store, ViewKey)) ==> r == Some(store[ViewKey])
    ensures !Truthy(GetItem(store, ViewKey)) ==> r == current
  {
    var savedView := GetItem(store, ViewKey);
    if Truthy(savedView) then savedView else current
  }

  class Home {
    var selectedView: Option<string>
    var isLoading: bool

    constructor ()
      ensures selectedView == None && isLoading
    {
      selectedView := None;
      isLoading := true;
    }

    function Rendered(): set<Component>
      reads this
    {
      Render(selectedView, isLoading)
    }

    /** The mount effect: restore a saved view, then stop loading. */
    method LoadEffect(store: Store)
      modifies this
      ensures selectedView == RestoredView(store, old(selectedView))
      ensures !isLoading
    {
      var savedView := GetItem(store, ViewKey);
      if Truthy(savedView) {
        selectedView := savedView;
      }
      isLoading := false;
    }

    /** `handleViewSelect(view)`: select the view and persist it. */
    method HandleViewSelect(view: string, store: Store) returns (newStore: Store)
      modifies this`selectedView
      ensures selectedView == Some(view)
      ensures newStore == SetItem(store, ViewKey, view)
    {
      selectedView := Some(view);
      newStore := SetItem(store, ViewKey, view);
    }

    /** A click on the view toggle, which is rendered with `onToggle={handleViewSelect}`. */
    method HandleToggleClick(store: Store) returns (newStore: Store)
      requires ToggleButton in Rendered()
      modifies this`selectedView
      ensures selectedView == Some(ViewToggle.Toggle(old(selectedView).value))
      ensures newStore == SetItem(store, ViewKey, selectedView.value)
    {
      var calls := ViewToggle.OnClick(selectedView.value);
      newStore := HandleViewSelect(calls[0], store);
    }
  }

  // ---------------------------------------------------------------------
  // Properties
  // ---------------------------------------------------------------------

  /** While loading, only the placeholder renders; without a view, only the selector. */
  lemma PlaceholderAndSelector(selectedView: Option<string>)
    ensures Render(selectedView, true) == {LoadingPlaceholder}
    ensures !Truthy(selectedView) ==> Render(selectedView, false) == {Selector}
    ensures Render(None, false) * ContentViews == {}
  {
  }

  /**
   * Once loaded with a view, the toggle renders, and each content view
   * renders exactly when the view string equals its name.
   */
  lemma ContentByStringEquality(v: string)
    requires v != ""
    ensures ToggleButton in Render(Some(v), false) && Selector !in Render(Some(v), false)
    ensures TerminalView in Render(Some(v), false) <==> v == "terminal"
    ensures ParallaxView in Render(Some(v), false) <==> v == "parallax"
    ensures ShootingGame in Render(Some(v), false) <==> v == "shooting"
  {
  }

  /** At most one content view renders, in every state. */
  lemma AtMostOneContentView(selectedView: Option<string>, isLoading: bool)
    ensures |Render(selectedView, isLoading) * ContentViews| <= 1
  {
    var r := Render(selectedView, isLoading) * ContentViews;
    if !isLoading && Truthy(selectedView) {
      var v := selectedView.value;
      if v == "terminal" {
        assert r == {TerminalView};
      } else if v == "parallax" {
        assert r == {ParallaxView};
      } else if v == "shooting" {
        assert r == {ShootingGame};
      } else {
        assert r == {};
      }
    } else {
      assert r == {};
    }
  }

  /** The selector's "three" renders no content view, only the toggle. */
  lemma ThreeRendersOnlyToggle()
    ensures Render(Some("three"), false) == {ToggleButton}
  {
  }

  /**
   * A selected view survives a reload: restoring after `handleViewSelect(v)`
   * gives back `v`, unless `v` is the empty string, which `getItem` returns
   * but the truthiness test discards.
   */
  lemma SelectThenRestore(store: Store, v: string, current: Option<string>)
    ensures v != "" ==> RestoredView(SetItem(store, ViewKey, v), current) == Some(v)
    ensures v == "" ==> RestoredView(SetItem(store, ViewKey, v), current) == current
  {
  }
}
