/**
 * The explore screen's reactor: a strip of user stories that starts with the
 * "all tips" entry and grows as stories are loaded, the image shown on the
 * sort button, and the name of the selected story.
 *
 * Images are modelled by tags: the design-system assets by name, the system
 * images of the placeholder stories by their system name.
 */
module Explore {
  import opened Reactor

  /** The sort options offered on the explore and profile screens. */
  datatype SortOptions = Latest | Views | Likes

  datatype ImageAsset = EveryTipLogoStory | SortImageLatest | SortImageViews | SortImageLikes

  datatype Image = Asset(asset: ImageAsset) | SystemImage(name: string)

  datatype DummyStory = DummyStory(userName: string, userProfileImage: Image)

  /** The name of the story that stands for every user's tips. */
  const AllTips: string := "전체팁"

  datatype State = State(
    stories: seq<DummyStory>,
    sortButtonImage: Image,
    selectedUserName: Option<string>)

  const InitialState: State := State(
    [DummyStory(AllTips, Asset(EveryTipLogoStory))],
    Asset(SortImageLatest),
    Some(AllTips))

  datatype Action =
    | SortButtonTapped(option: SortOptions)
    | ViewDidLoad
    | StoryCellTapped(selectedUserName: string)

  datatype Mutation =
    | SetStory(stories: seq<DummyStory>)
    | SetSortImage(image: Image)
    | SetSelectedUserName(name: string)

  /** The sort-button image for each option: its own sort asset. */
  function SortImage(option: SortOptions): (image: Image)
    ensures image.Asset? && image.asset != EveryTipLogoStory
  {
    match option
    case Latest => Asset(SortImageLatest)
    case Views => Asset(SortImageViews)
    case Likes => Asset(SortImageLikes)
  }

  /** Distinct options show distinct images. */
  lemma SortImageInjective(a: SortOptions, b: SortOptions)
    requires SortImage(a) == SortImage(b)
    ensures a == b
  {
  }

  /**
   * The mutations an action produces. `loaded` is what the story use case
   * delivers; it always succeeds.
   */
  function Mutate(action: Action, loaded: seq<DummyStory>): (ms: seq<Mutation>)
    ensures |ms| == 1
  {
    match action
    case SortButtonTapped(option) => [SetSortImage(SortImage(option))]
    case ViewDidLoad => [SetStory(loaded)]
    case StoryCellTapped(name) => [SetSelectedUserName(name)]
  }

  /**
   * One mutation: loaded stories are appended behind the ones already
   * shown; the other two replace their field. Nothing else changes.
   */
  function Reduce(s: State, m: Mutation): (r: State)
    ensures m.SetStory? ==> r.stories == s.stories + m.stories
    ensures !m.SetStory? ==> r.stories == s.stories
    ensures !m.SetSortImage? ==> r.sortButtonImage == s.sortButtonImage
    ensures m.SetSortImage? ==> r.sortButtonImage == m.image
    ensures !m.SetSelectedUserName? ==> r.selectedUserName == s.selectedUserName
    ensures m.SetSelectedUserName? ==> r.selectedUserName == Some(m.name)
  {
    match m
    case SetSortImage(image) => s.(sortButtonImage := image)
    case SetStory(stories) => s.(stories := s.stories + stories)
    case SetSelectedUserName(name) => s.(selectedUserName := Some(name))
  }

  /** The state after the reactor handles one action. */
  function Step(s: State, action: Action, loaded: seq<DummyStory>): (r: State)
    ensures s.stories <= r.stories
    ensures r.stories == if action.ViewDidLoad? then s.stories + loaded else s.stories
    ensures action.SortButtonTapped? ==> r.sortButtonImage == SortImage(action.option)
    ensures !action.SortButtonTapped? ==> r.sortButtonImage == s.sortButtonImage
    ensures action.StoryCellTapped? ==> r.selectedUserName == Some(action.selectedUserName)
    ensures !action.StoryCellTapped? ==> r.selectedUserName == s.selectedUserName
  {
    var ms := Mutate(action, loaded);
    assert ms == [ms[0]];
    FoldOne(Reduce, s, ms[0]);
    Fold(Reduce, s, ms)
  }

  lemma StepIsReduce(s: State, action: Action, loaded: seq<DummyStory>)
    ensures Step(s, action, loaded) == Reduce(s, Mutate(action, loaded)[0])
  {
    var ms := Mutate(action, loaded);
    assert ms == [ms[0]];
    FoldOne(Reduce, s, ms[0]);
  }

  /** The first screen shows one story, "all tips", selected, with the latest-first image. */
  lemma InitialStateShowsAllTips()
    ensures |InitialState.stories| == 1
    ensures InitialState.stories[0].userName == AllTips
    ensures InitialState.selectedUserName == Some(AllTips)
    ensures InitialState.sortButtonImage == SortImage(Latest)
  {
  }

  /**
   * Stories only ever grow at the end: whatever mutations are folded, the
   * stories shown before stay a prefix of the stories shown after.
   */
  lemma {:induction false} StoriesOnlyGrow(s: State, ms: seq<Mutation>)
    ensures s.stories <= Fold(Reduce, s, ms).stories
    decreases |ms|
  {
    if ms != [] {
      StoriesOnlyGrow(Reduce(s, ms[0]), ms[1..]);
    }
  }

  /** Loading twice shows the loaded stories twice: nothing is de-duplicated. */
  lemma ViewDidLoadTwice(s: State, loaded: seq<DummyStory>)
    ensures Step(Step(s, ViewDidLoad, loaded), ViewDidLoad, loaded).stories == s.stories + loaded + loaded
    ensures |Step(Step(s, ViewDidLoad, loaded), ViewDidLoad, loaded).stories| == |s.stories| + 2 * |loaded|
  {
    StepIsReduce(s, ViewDidLoad, loaded);
    StepIsReduce(Step(s, ViewDidLoad, loaded), ViewDidLoad, loaded);
  }

  /** Tapping a story selects its name and leaves the stories and the sort image as they were. */
  lemma StoryCellTappedSelects(s: State, name: string, loaded: seq<DummyStory>)
    ensures Step(s, StoryCellTapped(name), loaded) == s.(selectedUserName := Some(name))
  {
    StepIsReduce(s, StoryCellTapped(name), loaded);
  }

  /** Choosing a sort option shows that option's image and changes nothing else. */
  lemma SortButtonShowsImage(s: State, option: SortOptions, loaded: seq<DummyStory>)
    ensures Step(s, SortButtonTapped(option), loaded) == s.(sortButtonImage := SortImage(option))
  {
    StepIsReduce(s, SortButtonTapped(option), loaded);
  }
}
