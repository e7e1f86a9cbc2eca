/**
 * The reactor behind another user's profile screen: the profile, the user's
 * tips and their sort order, the tip selected for the detail screen, and the
 * one-shot signals and toasts it raises. Subscribing toggles the
 * subscription on the server; blocking adds the user to the shared block
 * list.
 *
 * The results of the server calls (tips, profile, subscription toggle,
 * report) are inputs, and so is the order in which the two loads of the
 * first screen complete. A failed call ends the action's mutations at that
 * point. Pulse fields are plain fields.
 */
module UserProfileScreen {
  import opened Reactor
  import opened TipSort
  import Explore
  import BlockList

  /** A tip; the model only needs to tell tips apart. */
  datatype Tip = Tip(id: int)

  /** A user's profile; the model only reads whether the viewer follows the user. */
  datatype UserProfile = UserProfile(id: int, isFollowing: bool)

  const ProfileUnavailable: string := "유저 정보를 얻어오는데에 실패했어요."
  const Unsubscribed: string := "구독이 해제되었어요."
  const Subscribed: string := "구독을 추가햇어요."
  const Reported: string := "유저 신고가 접수되었습니다."
  const AlreadyBlocked: string := "이미 차단한 사용자예요."
  const BlockedNotice: string := "사용자를 차단했어요. 더 이상 이 사용자의 콘텐츠가 표시되지 않아요."

  datatype State = State(
    userProfile: Option<UserProfile>,
    tips: seq<Tip>,
    sortOption: Explore.SortOptions,
    selectedTip: Option<Tip>,
    pushSignal: bool,
    toastMessage: Option<string>,
    ellipsisSignal: bool)

  const InitialState: State := State(None, [], Explore.Latest, None, false, None, false)

  datatype Action =
    | ViewDidLoad
    | SubscribeButtonTapped
    | SortButtonTapped(option: Explore.SortOptions)
    | ItemSelected(tip: Tip)
    | ProfileEllipsisButtonTapped
    | ReportUser
    | BlockUser

  datatype Mutation =
    | SetUserProfile(profile: UserProfile)
    | SetTips(tips: seq<Tip>)
    | SetSortedTips(sortedTips: seq<Tip>)
    | SetSortOption(option: Explore.SortOptions)
    | SetSelectedTip(tip: Tip)
    | SetPushSignal(flag: bool)
    | SetToast(message: string)
    | SetEllipsisSignal(signal: bool)

  /** The fields of the state, to say which one a mutation writes. */
  datatype Field = ProfileField | TipsField | SortOptionField | SelectedTipField | PushField | ToastField | EllipsisField

  function Target(m: Mutation): Field
  {
    match m
    case SetUserProfile(_) => ProfileField
    case SetTips(_) => TipsField
    case SetSortedTips(_) => TipsField
    case SetSortOption(_) => SortOptionField
    case SetSelectedTip(_) => SelectedTipField
    case SetPushSignal(_) => PushField
    case SetToast(_) => ToastField
    case SetEllipsisSignal(_) => EllipsisField
  }

  /** `a` and `b` agree on every field but `f`. */
  predicate SameExcept(a: State, b: State, f: Field)
  {
    && (f != ProfileField ==> a.userProfile == b.userProfile)
    && (f != TipsField ==> a.tips == b.tips)
    && (f != SortOptionField ==> a.sortOption == b.sortOption)
    && (f != SelectedTipField ==> a.selectedTip == b.selectedTip)
    && (f != PushField ==> a.pushSignal == b.pushSignal)
    && (f != ToastField ==> a.toastMessage == b.toastMessage)
    && (f != EllipsisField ==> a.ellipsisSignal == b.ellipsisSignal)
  }

  /** `a` and `b` agree on the field `f`. */
  predicate SameAt(a: State, b: State, f: Field)
  {
    match f
    case ProfileField => a.userProfile == b.userProfile
    case TipsField => a.tips == b.tips
    case SortOptionField => a.sortOption == b.sortOption
    case SelectedTipField => a.selectedTip == b.selectedTip
    case PushField => a.pushSignal == b.pushSignal
    case ToastField => a.toastMessage == b.toastMessage
    case EllipsisField => a.ellipsisSignal == b.ellipsisSignal
  }

  /**
   * One mutation writes the one field it names and leaves every other
   * field as it was; both tip mutations replace the whole list.
   */
  function Reduce(s: State, m: Mutation): (r: State)
    ensures SameExcept(s, r, Target(m))
    ensures m.SetUserProfile? ==> r.userProfile == Some(m.profile)
    ensures m.SetTips? ==> r.tips == m.tips
    ensures m.SetSortedTips? ==> r.tips == m.sortedTips
    ensures m.SetSortOption? ==> r.sortOption == m.option
    ensures m.SetSelectedTip? ==> r.selectedTip == Some(m.tip)
    ensures m.SetPushSignal? ==> r.pushSignal == m.flag
    ensures m.SetToast? ==> r.toastMessage == Some(m.message)
    ensures m.SetEllipsisSignal? ==> r.ellipsisSignal == m.signal
  {
    match m
    case SetUserProfile(profile) => s.(userProfile := Some(profile))
    case SetTips(tips) => s.(tips := tips)
    case SetSortedTips(sortedTips) => s.(tips := sortedTips)
    case SetSortOption(option) => s.(sortOption := option)
    case SetSelectedTip(tip) => s.(selectedTip := Some(tip))
    case SetPushSignal(flag) => s.(pushSignal := flag)
    case SetToast(message) => s.(toastMessage := Some(message))
    case SetEllipsisSignal(signal) => s.(ellipsisSignal := signal)
  }

  /** Folding mutations that write only fields of `fs` leaves every other field as it was. */
  lemma {:induction false} FoldWrites(s: State, ms: seq<Mutation>, fs: set<Field>)
    requires forall i :: 0 <= i < |ms| ==> Target(ms[i]) in fs
    ensures forall f :: f !in fs ==> SameAt(s, Fold(Reduce, s, ms), f)
    decreases |ms|
  {
    if ms != [] {
      var next := Reduce(s, ms[0]);
      assert forall i :: 0 <= i < |ms[1..]| ==> Target(ms[1..][i]) in fs by {
        forall i | 0 <= i < |ms[1..]| ensures Target(ms[1..][i]) in fs {
          assert ms[1..][i] == ms[i + 1];
        }
      }
      FoldWrites(next, ms[1..], fs);
      forall f | f !in fs ensures SameAt(s, Fold(Reduce, s, ms), f) {
        assert Target(ms[0]) != f;
        assert SameAt(s, next, f);
      }
    }
  }

  /** What the server calls made while handling one action return (None: the call failed). */
  datatype Services = Services(
    fetchedTips: Option<seq<Tip>>,
    fetchedProfile: Option<UserProfile>,
    tipsFirst: bool,
    toggleSucceeded: bool,
    reportSucceeded: bool)

  /**
   * What handling an action produces: its mutations, and whether it asked
   * the server to toggle the subscription and whether it blocks the user.
   */
  datatype Response = Response(mutations: seq<Mutation>, togglesSubscription: bool, blocksUser: bool)

  /** The mutations of asynchronous results delivered before the first failure. */
  function UntilFailure(results: seq<Option<Mutation>>): (ms: seq<Mutation>)
    ensures |ms| <= |results|
    ensures forall i :: 0 <= i < |ms| ==> results[i] == Some(ms[i])
    ensures |ms| < |results| ==> results[|ms|].None?
  {
    if results == [] || results[0].None? then []
    else [results[0].value] + UntilFailure(results[1..])
  }

  /** The two loads of the first screen, in the order they complete. */
  function LoadResults(services: Services): seq<Option<Mutation>>
  {
    var tips := if services.fetchedTips.Some? then Some(SetTips(services.fetchedTips.value)) else None;
    var profile := if services.fetchedProfile.Some? then Some(SetUserProfile(services.fetchedProfile.value)) else None;
    if services.tipsFirst then [tips, profile] else [profile, tips]
  }

  /**
   * The reactor's mutate: `current` is the state when the action arrives,
   * `alreadyBlocked` whether the block list holds this user, and `order`
   * the comparator of each sort option.
   */
  function Mutate(
    action: Action,
    current: State,
    services: Services,
    alreadyBlocked: bool,
    order: Explore.SortOptions -> ((Tip, Tip) -> bool)): (r: Response)
    requires action.SortButtonTapped? ==> StrictWeakOrder(order(action.option))
    ensures r.togglesSubscription <==> action.SubscribeButtonTapped? && current.userProfile.Some?
    ensures r.blocksUser <==> action.BlockUser? && !alreadyBlocked
    ensures |r.mutations| <= 2
  {
    match action
    case ViewDidLoad =>
      Response(UntilFailure(LoadResults(services)), false, false)
    case SubscribeButtonTapped =>
      if current.userProfile.None? then
        Response([SetToast(ProfileUnavailable)], false, false)
      else
        var toast := if current.userProfile.value.isFollowing then Unsubscribed else Subscribed;
        var ms := if services.toggleSucceeded && services.fetchedProfile.Some?
                  then [SetUserProfile(services.fetchedProfile.value), SetToast(toast)]
                  else [];
        Response(ms, true, false)
    case SortButtonTapped(option) =>
      Response([SetSortedTips(Sort(current.tips, order(option))), SetSortOption(option)], false, false)
    case ItemSelected(tip) =>
      Response([SetSelectedTip(tip), SetPushSignal(true)], false, false)
    case ProfileEllipsisButtonTapped =>
      Response([SetEllipsisSignal(true)], false, false)
    case ReportUser =>
      Response(if services.reportSucceeded then [SetToast(Reported)] else [], false, false)
    case BlockUser =>
      if alreadyBlocked then Response([SetToast(AlreadyBlocked)], false, false)
      else Response([SetToast(BlockedNotice)], false, true)
  }

  /** The fields an action's mutations may write. */
  function Writes(action: Action): set<Field>
  {
    match action
    case ViewDidLoad => {ProfileField, TipsField}
    case SubscribeButtonTapped => {ProfileField, ToastField}
    case SortButtonTapped(_) => {TipsField, SortOptionField}
    case ItemSelected(_) => {SelectedTipField, PushField}
    case ProfileEllipsisButtonTapped => {EllipsisField}
    case ReportUser => {ToastField}
    case BlockUser => {ToastField}
  }

  /** Every mutation an action emits writes one of the action's fields. */
  lemma MutateWrites(
    action: Action,
    current: State,
    services: Services,
    alreadyBlocked: bool,
    order: Explore.SortOptions -> ((Tip, Tip) -> bool))
    requires action.SortButtonTapped? ==> StrictWeakOrder(order(action.option))
    ensures var ms := Mutate(action, current, services, alreadyBlocked, order).mutations;
      forall i :: 0 <= i < |ms| ==> Target(ms[i]) in Writes(action)
  {
    var ms := Mutate(action, current, services, alreadyBlocked, order).mutations;
    if action.ViewDidLoad? {
      var results := LoadResults(services);
      assert forall i :: 0 <= i < |ms| ==> results[i] == Some(ms[i]);
    }
  }

  /** The state after handling an action: its mutations folded, in order. */
  function Step(
    s: State,
    action: Action,
    services: Services,
    alreadyBlocked: bool,
    order: Explore.SortOptions -> ((Tip, Tip) -> bool)): (r: State)
    requires action.SortButtonTapped? ==> StrictWeakOrder(order(action.option))
    ensures action.SortButtonTapped? ==>
      && r.sortOption == action.option
      && SortedBy(r.tips, order(action.option))
      && multiset(r.tips) == multiset(s.tips)
    ensures !action.SortButtonTapped? ==> r.sortOption == s.sortOption
    ensures !action.ViewDidLoad? && !action.SortButtonTapped? ==> r.tips == s.tips
    ensures !action.ViewDidLoad? && !action.SubscribeButtonTapped? ==> r.userProfile == s.userProfile
    ensures action.ViewDidLoad? ==> r.toastMessage == s.toastMessage && r.selectedTip == s.selectedTip
  {
    var ms := Mutate(action, s, services, alreadyBlocked, order).mutations;
    MutateWrites(action, s, services, alreadyBlocked, order);
    FoldWrites(s, ms, Writes(action));
    var r := Fold(Reduce, s, ms);
    assert SortOptionField !in Writes(action) ==> SameAt(s, r, SortOptionField);
    assert TipsField !in Writes(action) ==> SameAt(s, r, TipsField);
    assert ProfileField !in Writes(action) ==> SameAt(s, r, ProfileField);
    assert ToastField !in Writes(action) ==> SameAt(s, r, ToastField);
    assert SelectedTipField !in Writes(action) ==> SameAt(s, r, SelectedTipField);
    if action.SortButtonTapped? then
      FoldTwo(Reduce, s, ms[0], ms[1]);
      r
    else
      r
  }

  /** The screen starts with no profile, no tips, latest first, nothing selected and no signal raised. */
  lemma InitialStateIsEmpty()
    ensures InitialState.userProfile.None? && InitialState.tips == []
    ensures InitialState.sortOption == Explore.Latest && InitialState.selectedTip.None?
    ensures !InitialState.pushSignal && InitialState.toastMessage.None? && !InitialState.ellipsisSignal
  {
  }

  /** Mutations that write different fields can be folded in either order. */
  lemma ReduceCommutes(s: State, m1: Mutation, m2: Mutation)
    requires Target(m1) != Target(m2)
    ensures Reduce(Reduce(s, m1), m2) == Reduce(Reduce(s, m2), m1)
  {
  }

  /**
   * When both loads of the first screen succeed, the tips and the profile
   * land in different fields, so the state is the same whichever load
   * completes first.
   */
  lemma LoadOrderIrrelevant(s: State, services: Services, alreadyBlocked: bool, order: Explore.SortOptions -> ((Tip, Tip) -> bool))
    requires services.fetchedTips.Some? && services.fetchedProfile.Some?
    ensures Step(s, ViewDidLoad, services.(tipsFirst := true), alreadyBlocked, order)
         == Step(s, ViewDidLoad, services.(tipsFirst := false), alreadyBlocked, order)
    ensures Step(s, ViewDidLoad, services, alreadyBlocked, order)
         == s.(tips := services.fetchedTips.value, userProfile := services.fetchedProfile)
  {
    var t := SetTips(services.fetchedTips.value);
    var p := SetUserProfile(services.fetchedProfile.value);
    assert UntilFailure([Some(t), Some(p)]) == [t, p] by {
      assert [Some(t), Some(p)][1..] == [Some(p)];
      assert [Some(p)][1..] == [];
    }
    assert UntilFailure([Some(p), Some(t)]) == [p, t] by {
      assert [Some(p), Some(t)][1..] == [Some(t)];
      assert [Some(t)][1..] == [];
    }
    FoldTwo(Reduce, s, t, p);
    FoldTwo(Reduce, s, p, t);
    ReduceCommutes(s, t, p);
  }

  /**
   * Choosing a sort option first replaces the tips by a reordering of the
   * current tips sorted by that option's comparator, with the old option
   * still shown, and only then records the option.
   */
  lemma SortThenRecordOption(
    s: State, option: Explore.SortOptions, services: Services, alreadyBlocked: bool,
    order: Explore.SortOptions -> ((Tip, Tip) -> bool))
    requires StrictWeakOrder(order(option))
    ensures var ms := Mutate(SortButtonTapped(option), s, services, alreadyBlocked, order).mutations;
      && |ms| == 2
      && var mid := Reduce(s, ms[0]);
      && multiset(mid.tips) == multiset(s.tips)
      && SortedBy(mid.tips, order(option))
      && mid == s.(tips := mid.tips)
      && Step(s, SortButtonTapped(option), services, alreadyBlocked, order) == mid.(sortOption := option)
  {
    var ms := Mutate(SortButtonTapped(option), s, services, alreadyBlocked, order).mutations;
    FoldTwo(Reduce, s, ms[0], ms[1]);
  }

  /** Selecting a tip records it strictly before the push signal is raised. */
  lemma SelectThenPush(
    s: State, tip: Tip, services: Services, alreadyBlocked: bool,
    order: Explore.SortOptions -> ((Tip, Tip) -> bool))
    ensures var ms := Mutate(ItemSelected(tip), s, services, alreadyBlocked, order).mutations;
      && |ms| == 2
      && Reduce(s, ms[0]) == s.(selectedTip := Some(tip))
      && Step(s, ItemSelected(tip), services, alreadyBlocked, order) == s.(selectedTip := Some(tip), pushSignal := true)
  {
    var ms := Mutate(ItemSelected(tip), s, services, alreadyBlocked, order).mutations;
    FoldTwo(Reduce, s, ms[0], ms[1]);
  }

  /** Subscribing before the profile is loaded only shows a toast and toggles nothing. */
  lemma SubscribeWithoutProfile(
    s: State, services: Services, alreadyBlocked: bool,
    order: Explore.SortOptions -> ((Tip, Tip) -> bool))
    requires s.userProfile.None?
    ensures var r := Mutate(SubscribeButtonTapped, s, services, alreadyBlocked, order);
      && r.mutations == [SetToast(ProfileUnavailable)]
      && !r.togglesSubscription
    ensures Step(s, SubscribeButtonTapped, services, alreadyBlocked, order) == s.(toastMessage := Some(ProfileUnavailable))
  {
    FoldOne(Reduce, s, SetToast(ProfileUnavailable));
  }

  /**
   * Subscribing with a loaded profile toggles the subscription; once the
   * toggle and the refetch succeed, the refetched profile is shown first
   * and then a toast chosen by whether the user was followed BEFORE the
   * toggle, whatever the refetched profile says.
   */
  lemma SubscribeToastFromOldProfile(
    s: State, services: Services, alreadyBlocked: bool,
    order: Explore.SortOptions -> ((Tip, Tip) -> bool))
    requires s.userProfile.Some? && services.toggleSucceeded && services.fetchedProfile.Some?
    ensures var r := Mutate(SubscribeButtonTapped, s, services, alreadyBlocked, order);
      && r.togglesSubscription
      && |r.mutations| == 2
      && Reduce(s, r.mutations[0]) == s.(userProfile := services.fetchedProfile)
    ensures Step(s, SubscribeButtonTapped, services, alreadyBlocked, order)
         == s.(userProfile := services.fetchedProfile,
               toastMessage := Some(if s.userProfile.value.isFollowing then Unsubscribed else Subscribed))
  {
    var r := Mutate(SubscribeButtonTapped, s, services, alreadyBlocked, order);
    FoldTwo(Reduce, s, r.mutations[0], r.mutations[1]);
  }

  /** A failed toggle or refetch still asked for the toggle, but changes no state. */
  lemma SubscribeFailureChangesNothing(
    s: State, services: Services, alreadyBlocked: bool,
    order: Explore.SortOptions -> ((Tip, Tip) -> bool))
    requires s.userProfile.Some? && !(services.toggleSucceeded && services.fetchedProfile.Some?)
    ensures Mutate(SubscribeButtonTapped, s, services, alreadyBlocked, order).togglesSubscription
    ensures Step(s, SubscribeButtonTapped, services, alreadyBlocked, order) == s
  {
  }

  /**
   * Blocking a user who is already blocked only says so; otherwise the user
   * is added to the block list and the confirmation is shown.
   */
  lemma BlockUserBranches(
    s: State, services: Services, alreadyBlocked: bool,
    order: Explore.SortOptions -> ((Tip, Tip) -> bool))
    ensures var r := Mutate(BlockUser, s, services, alreadyBlocked, order);
      && r.blocksUser == !alreadyBlocked
      && r.mutations == [SetToast(if alreadyBlocked then AlreadyBlocked else BlockedNotice)]
    ensures Step(s, BlockUser, services, alreadyBlocked, order)
         == s.(toastMessage := Some(if alreadyBlocked then AlreadyBlocked else BlockedNotice))
  {
    FoldOne(Reduce, s, SetToast(if alreadyBlocked then AlreadyBlocked else BlockedNotice));
  }

  /** A successful report shows its toast; a failed one changes nothing. */
  lemma ReportUserToast(
    s: State, services: Services, alreadyBlocked: bool,
    order: Explore.SortOptions -> ((Tip, Tip) -> bool))
    ensures Step(s, ReportUser, services, alreadyBlocked, order)
         == if services.reportSucceeded then s.(toastMessage := Some(Reported)) else s
  {
    if services.reportSucceeded {
      FoldOne(Reduce, s, SetToast(Reported));
    }
  }

  /** The reactor of one profile screen, holding the current state and the shared block list. */
  class UserProfileReactor {
    const userID: int
    const blocks: BlockList.BlockManager
    var currentState: State

    constructor (userID: int, blocks: BlockList.BlockManager)
      ensures this.userID == userID && this.blocks == blocks
      ensures currentState == InitialState
    {
      this.userID := userID;
      this.blocks := blocks;
      currentState := InitialState;
    }

    /**
     * Handles one action: computes its mutations from the current state,
     * adds the user to the block list when the action blocks, and folds the
     * mutations into the current state.
     */
    method Dispatch(action: Action, services: Services, order: Explore.SortOptions -> ((Tip, Tip) -> bool))
      returns (ms: seq<Mutation>)
      requires action.SortButtonTapped? ==> StrictWeakOrder(order(action.option))
      modifies this, blocks
      ensures ms == Mutate(action, old(currentState), services, userID in old(blocks.BlockedUserIds()), order).mutations
      ensures currentState == Fold(Reduce, old(currentState), ms)
      ensures blocks.BlockedUserIds()
           == if action.BlockUser? then old(blocks.BlockedUserIds()) + {userID} else old(blocks.BlockedUserIds())
      ensures !(action.BlockUser? && userID !in old(blocks.BlockedUserIds())) ==> blocks.defaults == old(blocks.defaults)
      ensures action.BlockUser? && userID !in old(blocks.BlockedUserIds()) ==>
        blocks.defaults.Keys == old(blocks.defaults).Keys + {BlockList.Key}
      ensures forall k :: k in old(blocks.defaults) && k != BlockList.Key ==>
        k in blocks.defaults && blocks.defaults[k] == old(blocks.defaults)[k]
    {
      var alreadyBlocked := false;
      if action.BlockUser? {
        alreadyBlocked := blocks.IsBlocked(userID);
      }
      var r := Mutate(action, currentState, services, alreadyBlocked, order);
      if r.blocksUser {
        blocks.Block(userID);
      }
      ms := r.mutations;
      currentState := Fold(Reduce, currentState, ms);
    }
  }
}
