# Honest Cash client: decision logic and state updates

A Dafny model of the pieces of the Honest Cash web client that decide or
update something, leaving out the user interface, framework wiring and HTTP
glue around them:

- **AuthReducer** (`auth_reducer.dfy`): the authentication slice of the store.
  It is a pure `(state, action) → state` function over a six-field record.
  The store's initial state is declared in a file that is not part of this
  model, so it is the parameter `init` and nothing is assumed about it.
  `Run` folds the reducer over a sequence of dispatched actions, the way the
  store applies it. The lemmas about `Run` show that a logout or any other
  state-independent action erases history. They also show that, when the initial state
  is unauthenticated, the store only becomes authenticated through a
  successful login or signup, and that it then holds that action's token.
- **WelcomeErrors** (`welcome_errors.dfy`): the error-description resolver.
  It uses the fixed code→message table, the JavaScript `table[code] || desc ||
  code` chain (empty strings fall through) and the `'Unknown error'` fallback.
  The input is a datatype of the shapes the code tells apart. Null or undefined
  input is excluded by a precondition, because the code throws on it. The
  result is an `Option`, because the code returns `undefined` for a coded
  error or wrapper whose code is undefined and whose description is not a
  non-empty string; an empty code with no usable description gives `""`.
  `GetErrorDesc` states exactly when `undefined` comes back.
- **BrowserStorage** (`browser_storage.dfy`): browser storage as a class over
  a `map<string, string>`.
- **Http** (`http.dfy`): the shape of a POST request.
- **AuthServices** (`auth_service.dfy`): token storage and the login and signup
  request bodies. `getToken` reads the key `"token"`, while `setToken` and
  `unsetToken` write and remove `"HC_USER_TOKEN"`. The model proves that
  neither write is ever visible to `getToken`. The password hash is kept
  symbolically, as the arguments it is computed from.
- **WalletServices** (`wallet_service.dfy`): the setup branch selection.
  `SetupPath` returns the one wallet-library call made, if any, with its
  arguments. The class also covers the mnemonic read, write and removal, all
  guarded by the browser flag. The mnemonic found in storage is captured once,
  in the constructor.
- **FollowUnfollow** (`follow_unfollow.dfy`): the follow/unfollow button
  controller. Initialisation derives the two button flags and the visibility
  from the bindings. `follow` toggles the shared user's flag and calls the
  service only when visible. `unfollow` clears the flag and always calls the
  service. Each click method returns the service call it makes.
- **EditorEffects** (`editor_effects.dfy`): each effect becomes a function from
  what the editor-service calls answer to the calls made and the actions
  emitted. The `ofType` filter between saving and publishing is kept as a
  function of its own. It is what drops the save-failure action, so a failed
  save emits nothing at all.

In the two save-and-publish flows, a failed property save does not surface as any action. The code builds a
save-failure action, but the `ofType(…SAVE_SUCCESS)` filter that follows drops
it (`StorySaveAndPublishOutcome`, `CommentSaveAndPublishOutcome`). Wallet setup
does not always pick a path either. With no payload, and with the token or the
saved mnemonic missing, no derivation call is made and the wallet stays
undefined (`SetupPath`).

## Model

| member | source | states |
|---|---|---|
| AuthReducer.Reduce | honestcash-v2/src/app/core/store/auth/auth.reducer.ts:6-77 | one step: a login or signup success authenticates with its token; the state-keeping actions keep authentication and token; every other action takes them from the initial state |
| AuthReducer.Reducer | honestcash-v2/src/app/core/store/auth/auth.reducer.ts:5 | an undefined incoming state is treated as the initial state |
| AuthReducer.LogInStartsLoading | honestcash-v2/src/app/core/store/auth/auth.reducer.ts:7-32 | LOGIN raises `isLoading` and takes each of the other five fields from the initial state, whatever the previous state; SIGNUP gives the same |
| AuthReducer.LogInSuccessAuthenticates | honestcash-v2/src/app/core/store/auth/auth.reducer.ts:13-20 | LOGIN_SUCCESS authenticates with the payload's token, clears `isLoading`; the other fields are the initial ones |
| AuthReducer.SignUpSuccessAuthenticates | honestcash-v2/src/app/core/store/auth/auth.reducer.ts:33-39 | SIGNUP_SUCCESS authenticates with the payload's token but leaves `isLoading` at its initial value |
| AuthReducer.FailureRecordsError | honestcash-v2/src/app/core/store/auth/auth.reducer.ts:21-63 | each of the four failure actions yields the initial state with only `errorMessage` replaced by the payload |
| AuthReducer.ResetPasswordSuccessMarksOnly | honestcash-v2/src/app/core/store/auth/auth.reducer.ts:46-51 | RESET_PASSWORD_SUCCESS raises `newPasswordSet`, keeps every other field of the current state, and is idempotent |
| AuthReducer.ResetPasswordRequestSuccessMarks | honestcash-v2/src/app/core/store/auth/auth.reducer.ts:64-70 | RESET_PASSWORD_REQUEST_SUCCESS clears the error, raises `newPasswordRequested` and takes the other four fields from the initial state |
| AuthReducer.LogOutAndUnhandled | honestcash-v2/src/app/core/store/auth/auth.reducer.ts:71-76 | LOGOUT yields exactly the initial state from any state; any other action leaves the state unchanged, so with no state yet it yields the initial state |
| AuthReducer.ResultIndependentOfState | honestcash-v2/src/app/core/store/auth/auth.reducer.ts:7-73 | for every handled action other than RESET_PASSWORD_SUCCESS the next state does not depend on the current one |
| AuthReducer.RunAppliesInOrder | honestcash-v2/src/app/core/store/auth/auth.reducer.ts:5-77 | `Run`, the store applying the reducer to each dispatched action in order: no action leaves the state as it is, and a new action acts on the state the earlier ones left |
| AuthReducer.RunConcat | honestcash-v2/src/app/core/store/auth/auth.reducer.ts:5-77 | dispatching two sequences one after the other is dispatching their concatenation |
| AuthReducer.RunForgetsHistory | honestcash-v2/src/app/core/store/auth/auth.reducer.ts:7-73 | once a state-independent action is dispatched, the earlier state no longer matters |
| AuthReducer.RunEndingInLogOut | honestcash-v2/src/app/core/store/auth/auth.reducer.ts:71-73 | any history ending in LOGOUT leaves the initial state |
| AuthReducer.AuthenticatedOnlyBySuccess | honestcash-v2/src/app/core/store/auth/auth.reducer.ts:13-39 | starting unauthenticated, an authenticated store was authenticated by a LOGIN_SUCCESS or SIGNUP_SUCCESS whose token it holds |
| AuthReducer.RunKeepsToken | honestcash-v2/src/app/core/store/auth/auth.reducer.ts:46-51 | actions that keep the current state never change its token |
| WelcomeErrors.ErrorMessagesTable | honestcash-v2/src/app/modules/welcome/helpers/welcome-error.handler.ts:5-16 | the table has exactly the ten codes; only the three credential codes share the credentials message, EMAIL_EXISTS has its own, the rest map to themselves |
| WelcomeErrors.Lookup | honestcash-v2/src/app/modules/welcome/helpers/welcome-error.handler.ts:24-26 | the table read finds a message iff the code is defined and a table key, and that message is the non-empty table entry |
| WelcomeErrors.DescribeCoded | honestcash-v2/src/app/modules/welcome/helpers/welcome-error.handler.ts:23-26 | the table message for a known code, else a non-empty `desc`, else the code itself |
| WelcomeErrors.GetErrorDesc | honestcash-v2/src/app/modules/welcome/helpers/welcome-error.handler.ts:20-30 | null/undefined input is outside the domain; any other shape yields 'Unknown error'; the result is undefined exactly for a coded error or wrapper with no code and no usable `desc` |
| WelcomeErrors.TextReturnedUnchanged | honestcash-v2/src/app/modules/welcome/helpers/welcome-error.handler.ts:21-22 | a string input is returned as it is |
| WelcomeErrors.WrappedAgreesWithCoded | honestcash-v2/src/app/modules/welcome/helpers/welcome-error.handler.ts:23-26 | a wrapper is described exactly as the coded error in its `.error` |
| WelcomeErrors.KnownCodeYieldsTableMessage | honestcash-v2/src/app/modules/welcome/helpers/welcome-error.handler.ts:5-16 | a code in the table yields its non-empty table message, whatever `desc` says, bare or wrapped |
| WelcomeErrors.UnknownCodeFallsBack | honestcash-v2/src/app/modules/welcome/helpers/welcome-error.handler.ts:23-24 | an unknown code yields a truthy `desc`, otherwise the code |
| WelcomeErrors.CredentialErrorsIndistinguishable | honestcash-v2/src/app/modules/welcome/helpers/welcome-error.handler.ts:6-15 | USER_NOT_FOUND, EMAIL_NOT_FOUND and WRONG_PASSWORD give one and the same message |
| BrowserStorage.Get | honestcash-v2/src/app/core/services/auth.service.ts:45 | `getItem` finds a value iff the key is stored, and it is the stored value |
| BrowserStorage.Storage.GetItem | honestcash-v2/src/app/core/services/wallet.service.ts:87 | reads what `Get` answers on the current contents |
| BrowserStorage.Storage.SetItem | honestcash-v2/src/app/core/services/wallet.service.ts:93 | the contents become the old ones with the key set to the value |
| BrowserStorage.Storage.RemoveItem | honestcash-v2/src/app/core/services/wallet.service.ts:100 | the contents become the old ones without the key |
| AuthServices.LogIn | honestcash-v2/src/app/core/services/auth.service.ts:56-62 | POST to `/login` carrying the e-mail and the password hashed with that e-mail, never the raw password |
| AuthServices.SignUp | honestcash-v2/src/app/core/services/auth.service.ts:64-75 | POST to `/signup/email` carrying username, e-mail, captcha and the hashed password |
| AuthServices.SignUpAndLogInSendSameHash | honestcash-v2/src/app/core/services/auth.service.ts:59-72 | signup and login send the same password value for the same form |
| AuthServices.AuthService.GetToken | honestcash-v2/src/app/core/services/auth.service.ts:44-46 | the token is read from the key `"token"` |
| AuthServices.AuthService.SetToken | honestcash-v2/src/app/core/services/auth.service.ts:48-50 | stores the token under `HC_USER_TOKEN`, no other key changes, and `GetToken` is unaffected |
| AuthServices.AuthService.UnsetToken | honestcash-v2/src/app/core/services/auth.service.ts:52-54 | removes only `HC_USER_TOKEN`, and `GetToken` is unaffected |
| AuthServices.SetThenUnsetToken | honestcash-v2/src/app/core/services/auth.service.ts:48-54 | set then unset leaves the storage as it was minus any earlier `HC_USER_TOKEN` entry |
| AuthServices.TokenKeysDiffer | honestcash-v2/src/app/core/services/auth.service.ts:32-54 | what the read key holds survives both the write and the removal of the other key |
| WalletServices.SetupPath | honestcash-v2/src/app/core/services/wallet.service.ts:43-83 | a payload with a wallet decrypts the server mnemonic with the payload password; without a wallet a new wallet is generated from it; without a payload the local mnemonic is decrypted iff token and mnemonic are both truthy, otherwise no call is made |
| WalletServices.SetupPathByOrigin | honestcash-v2/src/app/core/services/wallet.service.ts:48-69 | each derivation call is chosen exactly under its own condition (both directions) |
| WalletServices.ReadMnemonic | honestcash-v2/src/app/core/services/wallet.service.ts:85-89 | off-browser nothing is found; in a browser something is found iff the mnemonic key is stored, and it is the value stored under `HC_BCH_MNEMONIC` |
| WalletServices.SetThenUnsetForgetsMnemonic | honestcash-v2/src/app/core/services/wallet.service.ts:91-102 | after a write the mnemonic reads back (browser only); after a write and a removal nothing is found |
| WalletServices.WalletService.constructor | honestcash-v2/src/app/core/services/wallet.service.ts:32-41 | captures the platform flag and the mnemonic stored at that moment |
| WalletServices.WalletService.SetupWallet | honestcash-v2/src/app/core/services/wallet.service.ts:43-83 | the derivation call is `SetupPath` of the payload, the token and the captured mnemonic |
| WalletServices.WalletService.GetWalletMnemonic | honestcash-v2/src/app/core/services/wallet.service.ts:85-89 | answers `ReadMnemonic` of the platform flag and the current storage |
| WalletServices.WalletService.SetWallet | honestcash-v2/src/app/core/services/wallet.service.ts:91-96 | writes the plaintext mnemonic under `HC_BCH_MNEMONIC` in a browser only (storage untouched otherwise) and posts the encrypted mnemonic |
| WalletServices.WalletService.UnsetWallet | honestcash-v2/src/app/core/services/wallet.service.ts:98-102 | removes only `HC_BCH_MNEMONIC`, in a browser only |
| WalletServices.StorageChangesDoNotAffectSetup | honestcash-v2/src/app/core/services/wallet.service.ts:29-40 | set and unset do not change the setup path on the same instance, and leave no mnemonic to read |
| FollowUnfollow.IndexOf | src/app/components/follow-unfollow-button/follow-unfollow-button.component.ts:60 | `indexOf`: -1 iff absent, otherwise the first position holding the id |
| FollowUnfollow.AlreadyFollowing | src/app/components/follow-unfollow-button/follow-unfollow-button.component.ts:59-61 | true iff the id is in the list |
| FollowUnfollow.ShowUnfollow | src/app/components/follow-unfollow-button/follow-unfollow-button.component.ts:47-49 | with its flag: the user is followed; with no flag: shown unless the follow flag is set |
| FollowUnfollow.ShowFollow | src/app/components/follow-unfollow-button/follow-unfollow-button.component.ts:51-53 | with its flag: the user is not followed; with no flag: shown unless the unfollow flag is set |
| FollowUnfollow.IsVisible | src/app/components/follow-unfollow-button/follow-unfollow-button.component.ts:54-56 | visible iff a logged-in user exists whose id is defined and differs from the displayed user's |
| FollowUnfollow.ButtonsShown | src/app/components/follow-unfollow-button/follow-unfollow-button.component.ts:47-53 | neither flag: both buttons shown; both flags: exactly one shown |
| FollowUnfollow.SingleFlagShowsOnlyItsButton | src/app/components/follow-unfollow-button/follow-unfollow-button.component.ts:47-53 | with one flag set, the other button is hidden |
| FollowUnfollow.FollowUnfollowButtonController.constructor | src/app/components/follow-unfollow-button/follow-unfollow-button.component.ts:27-33 | building the controller leaves it initialised as `NgOnInit` states |
| FollowUnfollow.FollowUnfollowButtonController.NgOnInit | src/app/components/follow-unfollow-button/follow-unfollow-button.component.ts:41-57 | the list defaults to empty; both flags and the visibility are the derived values |
| FollowUnfollow.FollowUnfollowButtonController.CheckAlreadyFollowing | src/app/components/follow-unfollow-button/follow-unfollow-button.component.ts:59-61 | true iff the id is in the controller's list |
| FollowUnfollow.FollowUnfollowButtonController.OnClick | src/app/components/follow-unfollow-button/follow-unfollow-button.component.ts:63-76 | "follow" follows, "unfollow" unfollows, anything else changes nothing and calls nothing |
| FollowUnfollow.FollowUnfollowButtonController.Follow | src/app/components/follow-unfollow-button/follow-unfollow-button.component.ts:78-84 | toggles `alreadyFollowing`; calls `followProfile` with the user's id only when visible |
| FollowUnfollow.FollowUnfollowButtonController.Unfollow | src/app/components/follow-unfollow-button/follow-unfollow-button.component.ts:86-92 | clears `alreadyFollowing` and calls `unfollowProfile` regardless of visibility |
| FollowUnfollow.FollowTwiceRestores | src/app/components/follow-unfollow-button/follow-unfollow-button.component.ts:78-84 | following twice restores `alreadyFollowing` |
| EditorEffects.TypeOf | honestcash-v2/src/app/store/editor/editor.effects.ts:104-132 | the save-success, comment-save-success and publish tags each belong to exactly one action case |
| EditorEffects.OfType | honestcash-v2/src/app/store/editor/editor.effects.ts:104 | the filter's result holds only actions of the given type, each taken from the input, and every input action of that type appears in it |
| EditorEffects.OfTypeConcat | honestcash-v2/src/app/store/editor/editor.effects.ts:104 | filtering keeps order: the filter of a concatenation is the concatenation of the filters |
| EditorEffects.OfTypeSingle | honestcash-v2/src/app/store/editor/editor.effects.ts:127 | one action passes iff it has the filter's type; with OfTypeConcat this fixes order and multiplicity |
| EditorEffects.DraftLoad | honestcash-v2/src/app/store/editor/editor.effects.ts:43-52 | one draft load without query; answer mapped to DraftLoadSuccess/Failure |
| EditorEffects.StoryLoad | honestcash-v2/src/app/store/editor/editor.effects.ts:54-64 | one draft load with `{postId}`; answer mapped to StoryLoadSuccess/Failure |
| EditorEffects.ParentStoryLoad | honestcash-v2/src/app/store/editor/editor.effects.ts:66-76 | one draft load with `{parentPostId}`; answer mapped to ParentStoryLoadSuccess/Failure |
| EditorEffects.StoryLocalLoad | honestcash-v2/src/app/store/editor/editor.effects.ts:78-87 | a local read emits LocalLoadSuccess; a failing read ends the stream with that read's error instead, so LocalLoadFailure is never emitted |
| EditorEffects.FirstFailure | honestcash-v2/src/app/store/editor/editor.effects.ts:93-101 | the joined saves fail iff some save fails, reporting one of the failures |
| EditorEffects.SavedProperties | honestcash-v2/src/app/store/editor/editor.effects.ts:94-121 | a story saves each of the three properties exactly once; a comment saves only body and title |
| EditorEffects.SaveStage | honestcash-v2/src/app/store/editor/editor.effects.ts:93-101 | the joined saves produce the flow's save-success action iff every save succeeded |
| EditorEffects.PublishStage | honestcash-v2/src/app/store/editor/editor.effects.ts:106-134 | a publish answer becomes a publish success carrying the answered post, a failure becomes a publish failure carrying the error |
| EditorEffects.SaveAndPublish | honestcash-v2/src/app/store/editor/editor.effects.ts:89-135 | at most one action is emitted, and it is the publish answer's action |
| EditorEffects.StorySaveAndPublishOutcome | honestcash-v2/src/app/store/editor/editor.effects.ts:89-112 | the three properties are each saved once for the post; all succeed ⇒ that post is published and PublishSuccess/Failure emitted; any failure ⇒ no publish, nothing emitted |
| EditorEffects.CommentSaveAndPublishOutcome | honestcash-v2/src/app/store/editor/editor.effects.ts:114-135 | only body and title are saved; publish iff that save succeeds, answer mapped to the story publish actions; failure ⇒ nothing emitted |
| EditorEffects.SaveStagePassesFilter | honestcash-v2/src/app/store/editor/editor.effects.ts:100-105 | the success filter lets the save action through iff all saves succeeded, and it carries the post |
| EditorEffects.SaveAndPublishEmitsOnlyPublishActions | honestcash-v2/src/app/store/editor/editor.effects.ts:104-111 | no save success or failure action ever reaches the store from these effects |
| EditorEffects.StoryPropertyChange | honestcash-v2/src/app/store/editor/editor.effects.ts:137-142 | only a local save; no action is dispatched |
| EditorEffects.StoryPropertySave | honestcash-v2/src/app/store/editor/editor.effects.ts:144-155 | one save of the given property; success ⇒ PropertySaveSuccess, failure ⇒ PropertySaveFailure |

## Left out

- The initial auth state (`auth.state`) is not part of this model. It is a parameter `init` of every reducer function.
- The auth actions file is not part of this model. Failure payloads, typed `any` there, are modelled as strings. Action types the reducer does not handle are one `Unhandled` case.
- WalletServices.WalletService.SetupWallet: the code wraps the setup in `defer`, so the path is chosen and `getToken()` is read each time the stream is subscribed, not when the method is called; the model makes one choice per call. The `logger.info` messages on the payload paths are not modelled.
- `AuthenticationService.getToken`, which wallet setup calls, belongs to a service that is not part of this model. Its answer is the parameter `token` of `SetupPath`. It is not the `AuthService.getToken` modelled here.
- The wallet library (`WalletUtils`) and the password hash (`CryptoUtils`) are foreign code. Each call is kept as a tagged value naming the routine and its arguments. A rejected derivation promise (an error in the setup stream) is not modelled.
- The HTTP client is not modelled. Requests are returned as values (`Http.Request`) and responses are inputs to the editor-effect functions.
- The platform check is not modelled. Whether the code runs in a browser is a constructor argument.
- Real browser storage is modelled as a map (see the BrowserStorage module).
- WelcomeErrors.GetErrorDesc: looks the code up only among the table's own keys. A code such as `"toString"` would read an inherited object property, which is not modelled.
- WelcomeErrors.GetErrorDesc: codes and descriptions are strings or undefined. Numeric codes are not modelled.
- FollowUnfollow: the displayed user is assumed present. Without it the code throws in `follow` and `unfollow` and whenever a flag or a logged-in user makes it read `user.id`.
- FollowUnfollow: flags, `isVisible` and `alreadyFollowing` are modelled by their truthiness. Toggling an undefined `alreadyFollowing` gives `true`, like `false` does.
- FollowUnfollow: `NaN` ids are not modelled.
- FollowUnfollow: the relations service is not modelled. Each click method returns the call it makes.
- The editor actions file is not part of this model. `TypeOf` assumes that each action class carries the type tag of its own name, and that the save-success actions of both flows carry the post as `payload`. The dropped save failure depends on both.
- EditorEffects: RxJS scheduling is not modelled: `switchMap` cancellation, `concatMap` queueing, concurrent `forkJoin` subscription and `share`. Each effect is modelled for one triggering action, and its leading `ofType` is the choice of function.
- EditorEffects.FirstFailure: reports the first failure in argument order. Which failure `forkJoin` reports really depends on response timing. The emitted actions are the same either way, because the failure action is filtered out.
- EditorEffects: posts carry only a few of their fields. The editor service's behaviour (what a save or a load does on the server) is not modelled.
- `AuthService.resetPassword`, `changePassword`, `getMe`, `getStatus` and `setup` are not modelled. They are request wrappers without decisions, and `setup` is empty.
- The other files of the repository (UI components, routing and dependency-injection modules, the post service, test specifications, type-only files) are not part of this model.
