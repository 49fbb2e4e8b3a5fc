/**
 * The view toggle button: a click switches between the terminal and the
 * parallax view by passing the new view to its `onToggle` callback, and its
 * icon names the view a click leads to.
 */
module ViewToggle {

  datatype Icon = Mountains | TerminalIcon

  /** `toggleView`'s `newView`. */
  function Toggle(currentView: string): (newView: string)
    ensures newView == "terminal" || newView == "parallax"
    ensures newView == "parallax" <==> currentView == "terminal"
  {
    if currentView == "terminal" then "parallax" else "terminal"
  }

  /** The arguments of the `onToggle` calls one click makes, in order. */
  function OnClick(currentView: string): (calls: seq<string>)
    ensures |calls| == 1 && calls[0] == Toggle(currentView)
  {
    [Toggle(currentView)]
  }

  /** The icon the button shows. */
  function IconFor(currentView: string): Icon
  {
    if currentView == "terminal" then Mountains else TerminalIcon
  }

  /** From the terminal a click leads to the parallax view, from anything else to the terminal. */
  lemma ToggleTargets()
    ensures Toggle("terminal") == "parallax"
    ensures Toggle("parallax") == "terminal"
    ensures Toggle("shooting") == "terminal"
    ensures Toggle("three") == "terminal"
  {
  }

  /** On the two toggled views, toggling twice returns the original view. */
  lemma ToggleTwice(v: string)
    requires v == "terminal" || v == "parallax"
    ensures Toggle(Toggle(v)) == v
  {
  }

  /** The mountains icon shows exactly on the terminal view, that is when a click leads to the parallax view. */
  lemma IconShowsDestination(v: string)
    ensures IconFor(v) == Mountains <==> v == "terminal"
    ensures IconFor(v) == Mountains <==> Toggle(v) == "parallax"
  {
  }
}
