/** The layout reducer: the editor pane is shown (`full`) or hidden (`viz`). */
module Layout {

  const Full := "full"
  const Viz := "viz"
  const Toggle := "TOGGLE"

  /** The pane layout after `event`: only `TOGGLE` changes it, and only between the two known layouts. */
  function LayoutReducer(state: string, event: string): (r: string)
    ensures r != state ==> event == Toggle && ((state == Full && r == Viz) || (state == Viz && r == Full))
  {
    if state == Full then (if event == Toggle then Viz else state)
    else if state == Viz then (if event == Toggle then Full else state)
    else state
  }

  /** `TOGGLE` swaps the two layouts; any other layout string is left as it is. */
  lemma ToggleSwaps(state: string)
    ensures state == Full ==> LayoutReducer(state, Toggle) == Viz
    ensures state == Viz ==> LayoutReducer(state, Toggle) == Full
    ensures state != Full && state != Viz ==> LayoutReducer(state, Toggle) == state
  {
  }

  /** Toggling twice restores every state. */
  lemma ToggleTwice(state: string)
    ensures LayoutReducer(LayoutReducer(state, Toggle), Toggle) == state
  {
  }

  /** Every other event leaves the layout unchanged. */
  lemma OtherEventsIgnored(state: string, event: string)
    requires event != Toggle
    ensures LayoutReducer(state, event) == state
  {
  }
}
