# EveryTip screen logic in Dafny

A model of the sequential logic behind several screens of the EveryTip iOS
app, with proofs about it.

- **Block list.** The app keeps a set of blocked user ids in the device's
  key-value storage. It writes the set as an array and reads it back as a set.
  `BlockManager` has the getter, the setter, `block`, `unblock` and `isBlocked`.
- **Reactors.** A screen's reactor turns a user action into an ordered list of
  mutations. Its reducer copies the state and writes one field. The state
  after an action is the reducer folded over that list (`Reactor.Fold`). The
  model covers four reactors:
  - the profile screen of another user (`UserProfileScreen`);
  - the user's own page (`MyInfo`);
  - the explore screen's story strip (`Explore`);
  - one story cell (`StoryCell`).
- **Auth request descriptor** (`AuthTargets`). The HTTP method, path, body
  parameters and headers of the four authentication requests.
- **Sign-in response mapping** (`AccountDTOs`). The envelope's payload is
  copied into the domain account. The payload fields have a JSON key table.

Some things the reactors use are inputs to the model. These are the results
of server calls (a value, or `None` for a failure), the completion order of
the two concurrent loads of the profile screen, the comparator of each sort
option, the app version string and the list of placeholder stories. The
keychain is a small class holding the two tokens. The key-value storage is an
in-memory map. Images are tags.

Three things the code does not do, and the model does not do either:

- The profile screen does not catch server errors. A failed call ends the
  action's mutations at that point and no error toast is produced. The own
  page's refresh does catch its error and falls back to the guest profile.
- One-shot ("pulse") fields are modelled as plain fields. Nothing resets them
  after they are read.
- No core reactor filters tips by the block list.

## Model

| member | source | states |
|---|---|---|
| `Reactor.FoldAppend` | EveryTip/Targets/EveryTipPresentation/Sources/MyInfo/MyInfoReactor.swift:146-151 | Folding a concatenated mutation list equals folding the first part and then the second |
| `BlockList.Decode` | EveryTip/Targets/EveryTipPresentation/Sources/BlockedList/BlockManager.swift:14-18 | A missing stored value, or one that is not an integer array, reads as the empty set; an integer array reads as the set of exactly its elements |
| `BlockList.ElementsCardinality` | EveryTip/Targets/EveryTipPresentation/Sources/BlockedList/BlockManager.swift:16-17 | Reading an array back never yields more ids than entries, and yields exactly as many iff no id repeats (duplicates collapse, nothing else is lost) |
| `BlockList.WriteThenRead` | EveryTip/Targets/EveryTipPresentation/Sources/BlockedList/BlockManager.swift:14-21 | Any array holding exactly the elements of a set reads back as that set |
| `BlockList.ArrayFrom` | EveryTip/Targets/EveryTipPresentation/Sources/BlockedList/BlockManager.swift:19-21 | Converting the set to an array gives an array with exactly the set's elements, each once, in some order |
| `BlockList.BlockManager.BlockedUserIds` | EveryTip/Targets/EveryTipPresentation/Sources/BlockedList/BlockManager.swift:14-18 | The getter reads an absent or non-integer-array value as the empty set and an integer array as the set of its elements |
| `BlockList.BlockManager.SetBlockedUserIds` | EveryTip/Targets/EveryTipPresentation/Sources/BlockedList/BlockManager.swift:19-21 | After the setter, the getter returns the set written; the key holds a repeat-free integer array; every other stored key is unchanged |
| `BlockList.BlockManager.Block` | EveryTip/Targets/EveryTipPresentation/Sources/BlockedList/BlockManager.swift:24-28 | The blocked set becomes old set plus the id: the id is blocked afterwards, no other id changes membership, and blocking an already blocked id changes nothing (idempotent); the key is stored and every other stored key keeps its value |
| `BlockList.BlockManager.Unblock` | EveryTip/Targets/EveryTipPresentation/Sources/BlockedList/BlockManager.swift:30-34 | The blocked set becomes old set minus the id: the id is not blocked afterwards, no other id changes membership, and unblocking an id that is not blocked changes nothing (idempotent); the key is stored and every other stored key keeps its value |
| `BlockList.BlockManager.IsBlocked` | EveryTip/Targets/EveryTipPresentation/Sources/BlockedList/BlockManager.swift:36-38 | Answers whether the id is in the stored set, and modifies nothing |
| `BlockList.BlockThenUnblock` | EveryTip/Targets/EveryTipPresentation/Sources/BlockedList/BlockManager.swift:24-38 | Client view of the manager: blocking an id, blocking it again and unblocking it leaves the old blocked set minus that id; in between the id reads as blocked and another id's answer never changes |
| `TipSort.Sort` | EveryTip/Targets/EveryTipPresentation/Sources/UserProfile/UserProfileReactor.swift:101-102 | For a strict weak order comparator, the sorted tips are a permutation of the input in which no tip comes before an earlier one, and tips the comparator cannot tell apart keep their input order (stable) |
| `TipSort.InsertStable` | EveryTip/Targets/EveryTipPresentation/Sources/UserProfile/UserProfileReactor.swift:102 | Inserting a tip into a sorted list keeps the order of the tips equivalent to any given one, with the inserted tip in front of its equivalents |
| `UserProfileScreen.InitialStateIsEmpty` | EveryTip/Targets/EveryTipPresentation/Sources/UserProfile/UserProfileReactor.swift:39-49 | The screen starts with no profile, no tips, sort option latest, no selected tip, and no signal or toast raised |
| `UserProfileScreen.Reduce` | EveryTip/Targets/EveryTipPresentation/Sources/UserProfile/UserProfileReactor.swift:134-162 | Each mutation writes only the field it names, with its payload; both tip mutations replace the whole list; every other field is unchanged |
| `UserProfileScreen.ReduceCommutes` | EveryTip/Targets/EveryTipPresentation/Sources/UserProfile/UserProfileReactor.swift:134-162 | Two mutations that write different fields give the same state in either order |
| `UserProfileScreen.UntilFailure` | EveryTip/Targets/EveryTipPresentation/Sources/UserProfile/UserProfileReactor.swift:79-82 | Of results delivered in completion order, the emitted mutations are exactly those before the first failure |
| `UserProfileScreen.Mutate` | EveryTip/Targets/EveryTipPresentation/Sources/UserProfile/UserProfileReactor.swift:66-132 | The subscription is toggled iff the action is subscribe and a profile is loaded; the user is added to the block list iff the action is block and the user is not blocked yet; at most two mutations |
| `UserProfileScreen.MutateWrites` | EveryTip/Targets/EveryTipPresentation/Sources/UserProfile/UserProfileReactor.swift:66-132 | Each action writes only its own fields: loading writes profile and tips, subscribing profile and toast, sorting tips and option, selecting the tip and push signal, the ellipsis its signal, report and block the toast |
| `UserProfileScreen.FoldWrites` | EveryTip/Targets/EveryTipPresentation/Sources/UserProfile/UserProfileReactor.swift:134-162 | Folding mutations that write only some fields leaves every other field as it was |
| `UserProfileScreen.Step` | EveryTip/Targets/EveryTipPresentation/Sources/UserProfile/UserProfileReactor.swift:66-162 | Only sorting changes the sort option, and then the tips become a sorted permutation; only loading and sorting change the tips; only loading and subscribing change the profile; loading never sets a toast, even when a call fails |
| `UserProfileScreen.LoadOrderIrrelevant` | EveryTip/Targets/EveryTipPresentation/Sources/UserProfile/UserProfileReactor.swift:68-82 | When both loads succeed, the final state is the same whichever completes first: fetched tips and fetched profile, nothing else changed |
| `UserProfileScreen.SortThenRecordOption` | EveryTip/Targets/EveryTipPresentation/Sources/UserProfile/UserProfileReactor.swift:101-106 | Sorting first sets the tips to a sorted permutation of the current tips while the old option stays; only the second mutation records the new option |
| `UserProfileScreen.SelectThenPush` | EveryTip/Targets/EveryTipPresentation/Sources/UserProfile/UserProfileReactor.swift:108-112 | The selected tip is set in the first step with the push signal untouched; the push signal is raised in the second |
| `UserProfileScreen.SubscribeWithoutProfile` | EveryTip/Targets/EveryTipPresentation/Sources/UserProfile/UserProfileReactor.swift:84-88 | With no profile loaded, subscribing emits only the "failed to get user info" toast and asks for no toggle |
| `UserProfileScreen.SubscribeToastFromOldProfile` | EveryTip/Targets/EveryTipPresentation/Sources/UserProfile/UserProfileReactor.swift:84-99 | With a profile loaded and both calls succeeding: toggle requested; the refetched profile is set first; then the toast chosen by the following flag from before the toggle |
| `UserProfileScreen.SubscribeFailureChangesNothing` | EveryTip/Targets/EveryTipPresentation/Sources/UserProfile/UserProfileReactor.swift:92-99 | A failed toggle or refetch still asked for the toggle but leaves the state unchanged |
| `UserProfileScreen.ReportUserToast` | EveryTip/Targets/EveryTipPresentation/Sources/UserProfile/UserProfileReactor.swift:115-118 | A successful report shows the report toast; a failed one changes nothing |
| `UserProfileScreen.BlockUserBranches` | EveryTip/Targets/EveryTipPresentation/Sources/UserProfile/UserProfileReactor.swift:119-130 | An already-blocked user gets only the "already blocked" toast and no insertion; otherwise the user is inserted and the confirmation toast is shown |
| `UserProfileScreen.UserProfileReactor.constructor` | EveryTip/Targets/EveryTipPresentation/Sources/UserProfile/UserProfileReactor.swift:49-64 | A new reactor holds the initial state, its user id and the shared block list |
| `UserProfileScreen.UserProfileReactor.Dispatch` | EveryTip/Targets/EveryTipPresentation/Sources/UserProfile/UserProfileReactor.swift:66-162 | Emits the mutations of Mutate for the current state and block-list membership, folds them into the state, and adds the user id to the block list exactly for the block action (leaving it unchanged otherwise); storage is written only when a not-yet-blocked user is blocked, and then only under the block-list key |
| `MyInfo.TitleDependsOnKind` | EveryTip/Targets/EveryTipPresentation/Sources/MyInfo/MyInfoReactor.swift:27-42 | Every version row has the same title whatever the version; two rows with the same title are equal or are both version rows |
| `MyInfo.Title` | EveryTip/Targets/EveryTipPresentation/Sources/MyInfo/MyInfoReactor.swift:27-42 | Every row has a non-empty title, and the version title belongs to version rows only |
| `MyInfo.MakeItems` | EveryTip/Targets/EveryTipPresentation/Sources/MyInfo/MyInfoReactor.swift:226-239 | Exactly five rows: subscribe, categories, agreement, version(appVersion), then logout if signed in and login otherwise; logout is present iff signed in and login iff not, so exactly one of them |
| `MyInfo.InitialState` | EveryTip/Targets/EveryTipPresentation/Sources/MyInfo/MyInfoReactor.swift:93-97 | The page starts with the guest profile, a version row, a logout row exactly when signed in, and no toast or signal |
| `MyInfo.Reduce` | EveryTip/Targets/EveryTipPresentation/Sources/MyInfo/MyInfoReactor.swift:180-216 | Each mutation writes only its field; each navigation mutation sets the navigation signal to its matching screen |
| `MyInfo.NavigationTargetInjective` | EveryTip/Targets/EveryTipPresentation/Sources/MyInfo/MyInfoReactor.swift:193-209 | Different navigation mutations set different navigation signals |
| `MyInfo.Respond` | EveryTip/Targets/EveryTipPresentation/Sources/MyInfo/MyInfoReactor.swift:119-177 | One to four mutations; the profile is written first exactly for refresh, guest profile and logout while signed in; the confirmation signal exactly for logout while signed in; rebuilt rows reflect the login status after the action; a single mutation is a toast or a navigation signal |
| `MyInfo.RefreshFallsBackToGuest` | EveryTip/Targets/EveryTipPresentation/Sources/MyInfo/MyInfoReactor.swift:121-137 | Refresh shows the fetched profile, or the guest profile when the fetch failed, and rebuilds the rows in both cases |
| `MyInfo.GuestProfileMatchesInitial` | EveryTip/Targets/EveryTipPresentation/Sources/MyInfo/MyInfoReactor.swift:171-175 | Applying the guest profile gives the initial state's profile (id 0, "게스트", zero counts) and freshly built rows, nothing else changed |
| `MyInfo.LogoutWhileLoggedIn` | EveryTip/Targets/EveryTipPresentation/Sources/MyInfo/MyInfoReactor.swift:142-151 | Logging out while signed in passes through four states in order: the guest profile is set, then the rows are rebuilt for a signed-out user, then the logged-out toast is set, then the confirmation signal is raised; the end state has rows ending in login with no logout row, and navigation is untouched |
| `MyInfo.LogoutWhileLoggedOut` | EveryTip/Targets/EveryTipPresentation/Sources/MyInfo/MyInfoReactor.swift:152-154 | Logging out while signed out only sets the "not logged in" toast |
| `MyInfo.NavigationActions` | EveryTip/Targets/EveryTipPresentation/Sources/MyInfo/MyInfoReactor.swift:139-169 | Each tap action emits one navigation mutation that sets the signal for its own screen (logout cell to logout, agreement to agreement, edit profile, categories, subscribe, login cell to login), and only the navigation signal changes |
| `MyInfo.TokenKeyChain.DeleteToken` | EveryTip/Targets/EveryTipPresentation/Sources/MyInfo/MyInfoReactor.swift:144-145 | Deleting one token clears it and leaves the other |
| `MyInfo.MyInfoReactor.constructor` | EveryTip/Targets/EveryTipPresentation/Sources/MyInfo/MyInfoReactor.swift:93-97 | The initial state is the guest profile with rows built for the login status at creation |
| `MyInfo.MyInfoReactor.Mutate` | EveryTip/Targets/EveryTipPresentation/Sources/MyInfo/MyInfoReactor.swift:119-177 | Emits the mutations of Respond for the login status when the action arrives. Logout while signed in deletes both tokens before the rows are rebuilt. Every other action leaves the tokens alone |
| `MyInfo.MyInfoReactor.Dispatch` | EveryTip/Targets/EveryTipPresentation/Sources/MyInfo/MyInfoReactor.swift:119-216 | The new state is the reducer folded over the action's mutations; logout while signed in leaves both tokens deleted and the user signed out, and every other action leaves the tokens as they were |
| `StoryCell.InitiallyUnselected` | EveryTip/Targets/EveryTipPresentation/Sources/Explore/StoryCellReactor.swift:24-28 | A story cell starts unselected |
| `StoryCell.Mutate` | EveryTip/Targets/EveryTipPresentation/Sources/Explore/StoryCellReactor.swift:30-35 | A tap emits one mutation carrying the negation of the current flag |
| `StoryCell.Reduce` | EveryTip/Targets/EveryTipPresentation/Sources/Explore/StoryCellReactor.swift:37-47 | The flag becomes the mutation's value whatever it was |
| `StoryCell.Step` | EveryTip/Targets/EveryTipPresentation/Sources/Explore/StoryCellReactor.swift:30-47 | Handling a tap flips the selected flag |
| `StoryCell.TapTwiceRestores` | EveryTip/Targets/EveryTipPresentation/Sources/Explore/StoryCellReactor.swift:30-47 | Two taps restore the original state |
| `StoryCell.SetSelectedIdempotent` | EveryTip/Targets/EveryTipPresentation/Sources/Explore/StoryCellReactor.swift:37-47 | Applying the same set mutation twice equals applying it once |
| `Explore.InitialStateShowsAllTips` | EveryTip/Targets/EveryTipPresentation/Sources/Explore/ExploreReactor.swift:29-39 | The strip starts with exactly one story, "전체팁", which is selected, and the latest-first sort image |
| `Explore.SortImage` | EveryTip/Targets/EveryTipPresentation/Sources/Explore/ExploreReactor.swift:53-65 | Every option shows a sort asset, never the story logo |
| `Explore.SortImageInjective` | EveryTip/Targets/EveryTipPresentation/Sources/Explore/ExploreReactor.swift:53-65 | Distinct sort options show distinct images (latest, views, likes map one-to-one) |
| `Explore.Mutate` | EveryTip/Targets/EveryTipPresentation/Sources/Explore/ExploreReactor.swift:50-76 | Every action emits exactly one mutation |
| `Explore.Reduce` | EveryTip/Targets/EveryTipPresentation/Sources/Explore/ExploreReactor.swift:78-90 | Loaded stories are appended after the old ones; the other mutations replace only their own field |
| `Explore.Step` | EveryTip/Targets/EveryTipPresentation/Sources/Explore/ExploreReactor.swift:50-90 | Old stories stay a prefix: loading appends exactly the loaded stories and nothing else touches them; only sorting changes the image, to the option's; only a story tap changes the selected name |
| `Explore.StoriesOnlyGrow` | EveryTip/Targets/EveryTipPresentation/Sources/Explore/ExploreReactor.swift:84-85 | Over any sequence of mutations, the old stories stay a prefix of the new ones |
| `Explore.ViewDidLoadTwice` | EveryTip/Targets/EveryTipPresentation/Sources/Explore/ExploreReactor.swift:67-85 | Two loads append the loaded list twice, with no de-duplication |
| `Explore.StoryCellTappedSelects` | EveryTip/Targets/EveryTipPresentation/Sources/Explore/ExploreReactor.swift:73-87 | Tapping a story selects its name and changes nothing else |
| `Explore.SortButtonShowsImage` | EveryTip/Targets/EveryTipPresentation/Sources/Explore/ExploreReactor.swift:53-83 | Choosing an option shows that option's image and changes nothing else |
| `AuthTargets.Method` | EveryTip/Targets/EveryTipData/Sources/Services/APIs/Auth/AuthTarget.swift:21-32 | The agreements and code-check requests are GET, the login and code-request ones are POST |
| `AuthTargets.Path` | EveryTip/Targets/EveryTipData/Sources/Services/APIs/Auth/AuthTarget.swift:34-45 | Every path starts with "/auth/". The code check's path is "/auth/verification?code=" followed by the code exactly as given, with no escaping |
| `AuthTargets.PathsDistinguishRequests` | EveryTip/Targets/EveryTipData/Sources/Services/APIs/Auth/AuthTarget.swift:34-45 | Equal paths mean the same kind of request, and for the code check the same code |
| `AuthTargets.Parameters` | EveryTip/Targets/EveryTipData/Sources/Services/APIs/Auth/AuthTarget.swift:47-58 | A body is present exactly for POST requests; the login body has exactly the keys email and password and the code request exactly email, each bound to the input unchanged |
| `AuthTargets.Headers` | EveryTip/Targets/EveryTipData/Sources/Services/APIs/Auth/AuthTarget.swift:60-71 | Headers are present exactly when a body is, and then are exactly the JSON content type |
| `AccountDTOs.JsonKeyInjective` | EveryTip/Targets/EveryTipData/Sources/Services/DTO/Auth/AccountDTO.swift:24-29 | Distinct payload fields are decoded from distinct JSON keys |
| `AccountDTOs.JsonKey` | EveryTip/Targets/EveryTipData/Sources/Services/DTO/Auth/AccountDTO.swift:24-29 | Every field is read from a non-empty snake_case key (lower-case letters and underscores) |
| `AccountDTOs.ToDomain` | EveryTip/Targets/EveryTipData/Sources/Services/DTO/Auth/AccountDTO.swift:34-43 | No account iff the payload is absent; otherwise each account field equals the payload field of the same name |
| `AccountDTOs.ToDomainIgnoresEnvelope` | EveryTip/Targets/EveryTipData/Sources/Services/DTO/Auth/AccountDTO.swift:13-15 | The envelope's code and message never change the result |
| `AccountDTOs.ToDomainInjectiveOnPayload` | EveryTip/Targets/EveryTipData/Sources/Services/DTO/Auth/AccountDTO.swift:34-43 | Equal accounts come from equal payloads: the mapping drops nothing |

## Left out

- View controllers, cells, coordinators and navigation wiring are layout and
  screen transitions.
- ReactorKit and RxSwift scheduling are library behaviour. This covers
  interleaving beyond the completion order of the two loads, `@Pulse`
  delivery, dispose bags and cancellation. What the library does with an
  error that ends an action's mutations is also left out.
- `[weak self]` branches that run after a reactor is deallocated are left
  out. These are the "unknown error" toast of blocking and the
  "try again later" toast of refreshing. The model's reactors are alive
  while they handle an action.
- The server calls (tips, profiles, subscription toggle, report, own
  profile) are foreign calls. Their results are inputs. `reportUser` takes
  no user id in the source, and the model passes it none.
- The keychain manager is not part of this model. The model takes "signed
  in" to mean that some token is stored, so deleting both tokens signs the
  user out.
- The reactor reads the app version from the bundle. In the model it is a
  parameter.
- MyInfo's initial state is lazy in the source. The model builds it when the
  reactor is created.
- MyInfo's refresh builds its rows when the fetch completes. The model uses
  the login status at dispatch, and nothing changes the status in between.
- `SortOptions.toTipOrder()` is not part of this model. Each option's
  comparator is a parameter. The model requires it to be a strict weak
  order, which Swift's `sorted(by:)` demands of its callers.
- `UserProfile` and `Tip` are domain types that are not part of this model.
  Only the following flag (taken as a plain boolean) and the tip identity
  are modelled.
- Images, asset lookup and the story logo's alignment insets become tags.
  The logo asset `everyTipLogo_story` is referenced by ExploreReactor.swift
  but is missing from the asset enum in UIImage+.swift. The model keeps it
  as a tag.
- The placeholder stories are a parameter of the explore model.
- JSON decoding itself is library behaviour. Only the key table and the
  mapping to the domain account are modelled.
- Filtering fetched tips by the block list is not done by any core reactor.
