/**
 * The reactor behind the signed-in user's own page: the profile card, the
 * rows of the settings table, and the toasts and navigation signals it
 * raises. Logging out deletes the stored tokens and rebuilds the rows.
 *
 * The keychain is reduced to the two tokens it may hold; the fetched
 * profile is an input (None: the fetch failed); the app version is a
 * parameter. Pulse fields are plain fields.
 */
module MyInfo {
  import opened Reactor

  /** The rows of the settings table. */
  datatype InfoTableViewItem = SetSubscribe | SetCategories | Agreement | Version(version: string) | Login | Logout

  /** The row's label; it depends only on the kind of row. */
  function Title(item: InfoTableViewItem): (title: string)
    ensures title != ""
    ensures title == "버전 정보" <==> item.Version?
  {
    match item
    case SetSubscribe => "구독 설정"
    case SetCategories => "관심사 설정"
    case Agreement => "이용약관"
    case Version(_) => "버전 정보"
    case Login => "로그인"
    case Logout => "로그아웃"
  }

  /** The version row is titled the same whatever the version; other kinds of rows have other titles. */
  lemma TitleDependsOnKind(a: InfoTableViewItem, b: InfoTableViewItem)
    ensures a.Version? && b.Version? ==> Title(a) == Title(b)
    ensures Title(a) == Title(b) ==> a == b || (a.Version? && b.Version?)
  {
  }

  datatype MyProfile = MyProfile(
    id: int,
    status: int,
    nickName: string,
    profileImageURL: Option<string>,
    email: string,
    registeredDate: string,
    tipCount: int,
    savedTipCount: int,
    subscriberCount: int)

  /** The profile shown when no profile can be fetched. */
  const GuestProfile: MyProfile := MyProfile(0, 0, "게스트", None, "everytip", "00", 0, 0, 0)

  datatype NavigationSignal = Agreement | Logout | UserContents | SetCategories | EditProfile | SetSubscribe | Login

  datatype State = State(
    myProfile: MyProfile,
    items: seq<InfoTableViewItem>,
    toastMessage: Option<string>,
    navigationSignal: Option<NavigationSignal>,
    logoutConfirmSignal: bool)

  datatype Action =
    | Refresh
    | ApplyGuestProfile
    | AgreementCellTapped
    | LogoutCellTapped
    | LogoutConfirmTapped
    | EditProfileButtonTapped
    | SetCategoryButtonTapped
    | SetSubscribeButtonTapped
    | LoginCellTapped

  datatype Mutation =
    | SetMyProfileData(profile: MyProfile)
    | SetToast(message: string)
    | SetItems(items: seq<InfoTableViewItem>)
    | SetLogoutCellSignal
    | SetAgreementCellSignal
    | SetEditProfileSignal
    | SetCategorySignal
    | SetSubscribeSignal
    | SetLoginCellSignal
    | SetLogoutConfirmSignal(signal: bool)

  const LoggedOutToast: string := "로그아웃 되었어요"
  const NotLoggedInToast: string := "로그인이 되어있지않아요."

  /**
   * The table's rows: the four fixed rows in order, then the logout row for
   * a signed-in user and the login row otherwise.
   */
  function MakeItems(appVersion: string, loggedIn: bool): (items: seq<InfoTableViewItem>)
    ensures |items| == 5
    ensures items[..4] == [InfoTableViewItem.SetSubscribe, InfoTableViewItem.SetCategories, InfoTableViewItem.Agreement, Version(appVersion)]
    ensures InfoTableViewItem.Logout in items <==> loggedIn
    ensures InfoTableViewItem.Login in items <==> !loggedIn
    ensures items[4] == if loggedIn then InfoTableViewItem.Logout else InfoTableViewItem.Login
  {
    var base := [InfoTableViewItem.SetSubscribe, InfoTableViewItem.SetCategories, InfoTableViewItem.Agreement, Version(appVersion)];
    if loggedIn then base + [InfoTableViewItem.Logout] else base + [InfoTableViewItem.Login]
  }

  /** The first state: the guest profile with rows built for the login status at that moment. */
  function InitialState(appVersion: string, loggedIn: bool): (s: State)
    ensures s.myProfile == GuestProfile
    ensures Version(appVersion) in s.items
    ensures InfoTableViewItem.Logout in s.items <==> loggedIn
    ensures s.toastMessage.None? && s.navigationSignal.None? && !s.logoutConfirmSignal
  {
    State(GuestProfile, MakeItems(appVersion, loggedIn), None, None, false)
  }

  /** The screen a navigation mutation asks for, if it is one. */
  function NavigationTarget(m: Mutation): Option<NavigationSignal>
  {
    match m
    case SetAgreementCellSignal => Some(NavigationSignal.Agreement)
    case SetLogoutCellSignal => Some(NavigationSignal.Logout)
    case SetEditProfileSignal => Some(NavigationSignal.EditProfile)
    case SetCategorySignal => Some(NavigationSignal.SetCategories)
    case SetSubscribeSignal => Some(NavigationSignal.SetSubscribe)
    case SetLoginCellSignal => Some(NavigationSignal.Login)
    case _ => None
  }

  /** Different navigation mutations ask for different screens. */
  lemma NavigationTargetInjective(m1: Mutation, m2: Mutation)
    requires NavigationTarget(m1).Some? && NavigationTarget(m1) == NavigationTarget(m2)
    ensures m1 == m2
  {
  }

  /**
   * One mutation writes its one field: a navigation mutation sets the
   * matching navigation signal, the others their own field; every other
   * field is left as it was.
   */
  function Reduce(s: State, m: Mutation): (r: State)
    ensures m.SetMyProfileData? ==> r == s.(myProfile := m.profile)
    ensures m.SetToast? ==> r == s.(toastMessage := Some(m.message))
    ensures m.SetItems? ==> r == s.(items := m.items)
    ensures m.SetLogoutConfirmSignal? ==> r == s.(logoutConfirmSignal := m.signal)
    ensures NavigationTarget(m).Some? ==> r == s.(navigationSignal := NavigationTarget(m))
  {
    match m
    case SetMyProfileData(profile) => s.(myProfile := profile)
    case SetToast(message) => s.(toastMessage := Some(message))
    case SetLogoutConfirmSignal(signal) => s.(logoutConfirmSignal := signal)
    case SetItems(items) => s.(items := items)
    case _ => s.(navigationSignal := NavigationTarget(m))
  }

  /**
   * The mutations of an action, given the fetched profile and the login
   * status when the action arrives. Logging out a signed-in user rebuilds
   * the rows for a signed-out user: the tokens are deleted first.
   */
  function Respond(action: Action, fetched: Option<MyProfile>, appVersion: string, loggedIn: bool): (ms: seq<Mutation>)
    ensures 1 <= |ms| <= 4
    ensures ms[0].SetMyProfileData? <==> action.Refresh? || action.ApplyGuestProfile? || (action.LogoutConfirmTapped? && loggedIn)
    ensures SetLogoutConfirmSignal(true) in ms <==> action.LogoutConfirmTapped? && loggedIn
    ensures forall i :: 0 <= i < |ms| && ms[i].SetItems? ==>
      ms[i].items == MakeItems(appVersion, loggedIn && !action.LogoutConfirmTapped?)
    ensures |ms| == 1 <==> NavigationTarget(ms[0]).Some? || ms[0].SetToast?
  {
    match action
    case Refresh =>
      [SetMyProfileData(if fetched.Some? then fetched.value else GuestProfile), SetItems(MakeItems(appVersion, loggedIn))]
    case ApplyGuestProfile =>
      [SetMyProfileData(GuestProfile), SetItems(MakeItems(appVersion, loggedIn))]
    case LogoutConfirmTapped =>
      if loggedIn then
        [SetMyProfileData(GuestProfile), SetItems(MakeItems(appVersion, false)), SetToast(LoggedOutToast), SetLogoutConfirmSignal(true)]
      else
        [SetToast(NotLoggedInToast)]
    case LogoutCellTapped => [SetLogoutCellSignal]
    case AgreementCellTapped => [SetAgreementCellSignal]
    case EditProfileButtonTapped => [SetEditProfileSignal]
    case SetCategoryButtonTapped => [SetCategorySignal]
    case SetSubscribeButtonTapped => [SetSubscribeSignal]
    case LoginCellTapped => [SetLoginCellSignal]
  }

  /**
   * Refreshing shows the fetched profile, or the guest profile when the
   * fetch failed, and rebuilds the rows either way.
   */
  lemma RefreshFallsBackToGuest(s: State, fetched: Option<MyProfile>, appVersion: string, loggedIn: bool)
    ensures Fold(Reduce, s, Respond(Action.Refresh, fetched, appVersion, loggedIn))
         == s.(myProfile := if fetched.Some? then fetched.value else GuestProfile,
               items := MakeItems(appVersion, loggedIn))
  {
    var ms := Respond(Action.Refresh, fetched, appVersion, loggedIn);
    FoldTwo(Reduce, s, ms[0], ms[1]);
  }

  /** Applying the guest profile gives the profile and rows of the initial state. */
  lemma GuestProfileMatchesInitial(s: State, fetched: Option<MyProfile>, appVersion: string, loggedIn: bool)
    ensures var r := Fold(Reduce, s, Respond(ApplyGuestProfile, fetched, appVersion, loggedIn));
      && r.myProfile == InitialState(appVersion, loggedIn).myProfile == GuestProfile
      && r.items == InitialState(appVersion, loggedIn).items
      && r == s.(myProfile := GuestProfile, items := MakeItems(appVersion, loggedIn))
  {
    var ms := Respond(ApplyGuestProfile, fetched, appVersion, loggedIn);
    FoldTwo(Reduce, s, ms[0], ms[1]);
  }

  /**
   * Logging out a signed-in user shows, in order, the guest profile, rows
   * ending in the login row, the logged-out toast and the confirmation
   * signal; the navigation signal is untouched.
   */
  lemma LogoutWhileLoggedIn(s: State, fetched: Option<MyProfile>, appVersion: string)
    ensures var r := Fold(Reduce, s, Respond(LogoutConfirmTapped, fetched, appVersion, true));
      && r.myProfile == GuestProfile
      && |r.items| == 5
      && r.items[4] == InfoTableViewItem.Login
      && InfoTableViewItem.Logout !in r.items
      && r.toastMessage == Some(LoggedOutToast)
      && r.logoutConfirmSignal
      && r.navigationSignal == s.navigationSignal
    ensures var ms := Respond(LogoutConfirmTapped, fetched, appVersion, true);
      && |ms| == 4
      && Fold(Reduce, s, ms[..1]) == s.(myProfile := GuestProfile)
      && Fold(Reduce, s, ms[..2]) == Fold(Reduce, s, ms[..1]).(items := MakeItems(appVersion, false))
      && Fold(Reduce, s, ms[..3]) == Fold(Reduce, s, ms[..2]).(toastMessage := Some(LoggedOutToast))
      && Fold(Reduce, s, ms) == Fold(Reduce, s, ms[..3]).(logoutConfirmSignal := true)
  {
    var ms := Respond(LogoutConfirmTapped, fetched, appVersion, true);
    assert ms[..1] == [ms[0]];
    FoldOne(Reduce, s, ms[0]);
    FoldStep(s, ms, 1);
    FoldStep(s, ms, 2);
    FoldStep(s, ms, 3);
    assert ms[..4] == ms;
  }

  /** Folding one more mutation of a list reduces the fold of the prefix by it. */
  lemma FoldStep(s: State, ms: seq<Mutation>, k: nat)
    requires k < |ms|
    ensures Fold(Reduce, s, ms[..k + 1]) == Reduce(Fold(Reduce, s, ms[..k]), ms[k])
  {
    assert ms[..k + 1] == ms[..k] + [ms[k]];
    FoldAppend(Reduce, s, ms[..k], [ms[k]]);
    FoldOne(Reduce, Fold(Reduce, s, ms[..k]), ms[k]);
  }

  /** Logging out without being signed in only shows a toast. */
  lemma LogoutWhileLoggedOut(s: State, fetched: Option<MyProfile>, appVersion: string)
    ensures Fold(Reduce, s, Respond(LogoutConfirmTapped, fetched, appVersion, false)) == s.(toastMessage := Some(NotLoggedInToast))
  {
    FoldOne(Reduce, s, SetToast(NotLoggedInToast));
  }

  /** Each navigation action raises its own navigation signal and changes nothing else. */
  lemma NavigationActions(s: State, action: Action, fetched: Option<MyProfile>, appVersion: string, loggedIn: bool)
    requires !(action.Refresh? || action.ApplyGuestProfile? || action.LogoutConfirmTapped?)
    ensures var ms := Respond(action, fetched, appVersion, loggedIn);
      && |ms| == 1
      && NavigationTarget(ms[0]).Some?
      && Fold(Reduce, s, ms) == s.(navigationSignal := NavigationTarget(ms[0]))
    ensures var target := NavigationTarget(Respond(action, fetched, appVersion, loggedIn)[0]);
      && (action.LogoutCellTapped? ==> target == Some(NavigationSignal.Logout))
      && (action.AgreementCellTapped? ==> target == Some(NavigationSignal.Agreement))
      && (action.EditProfileButtonTapped? ==> target == Some(NavigationSignal.EditProfile))
      && (action.SetCategoryButtonTapped? ==> target == Some(NavigationSignal.SetCategories))
      && (action.SetSubscribeButtonTapped? ==> target == Some(NavigationSignal.SetSubscribe))
      && (action.LoginCellTapped? ==> target == Some(NavigationSignal.Login))
  {
    var ms := Respond(action, fetched, appVersion, loggedIn);
    FoldOne(Reduce, s, ms[0]);
  }

  datatype TokenType = Access | Refresh

  /** The keychain holding the access and refresh tokens. */
  class TokenKeyChain {
    var accessToken: Option<string>
    var refreshToken: Option<string>

    constructor (accessToken: Option<string>, refreshToken: Option<string>)
      ensures this.accessToken == accessToken && this.refreshToken == refreshToken
    {
      this.accessToken := accessToken;
      this.refreshToken := refreshToken;
    }

    /** Signed in while some token is stored. */
    predicate IsLoggedIn()
      reads this
    {
      accessToken.Some? || refreshToken.Some?
    }

    method DeleteToken(kind: TokenType)
      modifies this
      ensures kind.Access? ==> accessToken.None? && refreshToken == old(refreshToken)
      ensures kind.Refresh? ==> refreshToken.None? && accessToken == old(accessToken)
    {
      match kind
      case Access => accessToken := None;
      case Refresh => refreshToken := None;
    }
  }

  /** The reactor of the page, with its keychain, the app version and the current state. */
  class MyInfoReactor {
    const tokenManager: TokenKeyChain
    const appVersion: string
    var currentState: State

    constructor (tokenManager: TokenKeyChain, appVersion: string)
      ensures this.tokenManager == tokenManager && this.appVersion == appVersion
      ensures currentState == InitialState(appVersion, tokenManager.IsLoggedIn())
    {
      this.tokenManager := tokenManager;
      this.appVersion := appVersion;
      currentState := InitialState(appVersion, tokenManager.IsLoggedIn());
    }

    function Items(): (items: seq<InfoTableViewItem>)
      reads this, tokenManager
      ensures items == MakeItems(appVersion, tokenManager.IsLoggedIn())
    {
      MakeItems(appVersion, tokenManager.IsLoggedIn())
    }

    /**
     * The reactor's mutate. Logging out a signed-in user deletes both
     * tokens before it builds the rows, so the rows end in the login row;
     * otherwise the keychain is untouched.
     */
    method Mutate(action: Action, fetched: Option<MyProfile>) returns (ms: seq<Mutation>)
      modifies tokenManager
      ensures ms == Respond(action, fetched, appVersion, old(tokenManager.IsLoggedIn()))
      ensures action.LogoutConfirmTapped? && old(tokenManager.IsLoggedIn()) ==>
        tokenManager.accessToken.None? && tokenManager.refreshToken.None?
      ensures !(action.LogoutConfirmTapped? && old(tokenManager.IsLoggedIn())) ==>
        tokenManager.accessToken == old(tokenManager.accessToken) && tokenManager.refreshToken == old(tokenManager.refreshToken)
    {
      match action
      case Refresh =>
        var profile := if fetched.Some? then fetched.value else GuestProfile;
        ms := [SetMyProfileData(profile), SetItems(Items())];
      case LogoutCellTapped =>
        ms := [SetLogoutCellSignal];
      case LogoutConfirmTapped =>
        if tokenManager.IsLoggedIn() {
          tokenManager.DeleteToken(TokenType.Access);
          tokenManager.DeleteToken(TokenType.Refresh);
          ms := [SetMyProfileData(GuestProfile), SetItems(Items()), SetToast(LoggedOutToast), SetLogoutConfirmSignal(true)];
        } else {
          ms := [SetToast(NotLoggedInToast)];
        }
      case AgreementCellTapped =>
        ms := [SetAgreementCellSignal];
      case EditProfileButtonTapped =>
        ms := [SetEditProfileSignal];
      case SetCategoryButtonTapped =>
        ms := [SetCategorySignal];
      case SetSubscribeButtonTapped =>
        ms := [SetSubscribeSignal];
      case LoginCellTapped =>
        ms := [SetLoginCellSignal];
      case ApplyGuestProfile =>
        ms := [SetMyProfileData(GuestProfile), SetItems(Items())];
    }

    /** Handles one action: its mutations folded into the current state. */
    method Dispatch(action: Action, fetched: Option<MyProfile>)
      modifies this, tokenManager
      ensures currentState == Fold(Reduce, old(currentState), Respond(action, fetched, appVersion, old(tokenManager.IsLoggedIn())))
      ensures action.LogoutConfirmTapped? && old(tokenManager.IsLoggedIn()) ==>
        tokenManager.accessToken.None? && tokenManager.refreshToken.None? && !tokenManager.IsLoggedIn()
      ensures !(action.LogoutConfirmTapped? && old(tokenManager.IsLoggedIn())) ==>
        tokenManager.accessToken == old(tokenManager.accessToken) && tokenManager.refreshToken == old(tokenManager.refreshToken)
    {
      var ms := Mutate(action, fetched);
      currentState := Fold(Reduce, currentState, ms);
    }
  }
}
