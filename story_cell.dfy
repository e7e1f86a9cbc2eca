/**
 * The reactor behind one story in the explore strip: a selected flag that
 * each tap flips.
 */
module StoryCell {
  import opened Reactor

  datatype State = State(isSelected: bool)

  const InitialState: State := State(false)

  datatype Action = CellSelected

  datatype Mutation = SetSelected(isSelected: bool)

  /** A tap asks for the opposite of the current selection. */
  function Mutate(action: Action, current: State): (ms: seq<Mutation>)
    ensures |ms| == 1 && ms[0].isSelected != current.isSelected
  {
    match action
    case CellSelected => [SetSelected(!current.isSelected)]
  }

  /** Sets the flag to the mutation's value whatever it was before. */
  function Reduce(s: State, m: Mutation): (r: State)
    ensures r.isSelected == m.isSelected
  {
    match m
    case SetSelected(isSelected) => s.(isSelected := isSelected)
  }

  /** The state after the reactor handles one action: the flag is flipped. */
  function Step(s: State, action: Action): (r: State)
    ensures r.isSelected == !s.isSelected
  {
    FoldOne(Reduce, s, Mutate(action, s)[0]);
    Fold(Reduce, s, Mutate(action, s))
  }

  lemma InitiallyUnselected()
    ensures !InitialState.isSelected
  {
  }

  /** Two taps restore the original state. */
  lemma TapTwiceRestores(s: State)
    ensures Step(Step(s, CellSelected), CellSelected) == s
  {
  }

  /** Setting the flag twice to the same value is setting it once. */
  lemma SetSelectedIdempotent(s: State, b: bool)
    ensures Reduce(Reduce(s, SetSelected(b)), SetSelected(b)) == Reduce(s, SetSelected(b))
  {
  }
}
