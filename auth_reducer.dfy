/** The authentication slice of the application store: a pure state machine
    from (state, action) to the next state.

    The store's initial state is declared in a file that is not part of this
    model, so every function takes it as the parameter `init`; nothing is
    assumed about its fields. */
module AuthReducer {
  import opened Wrappers

  datatype State = State(
    isLoading: bool,
    token: Option<string>,
    isAuthenticated: bool,
    errorMessage: Option<string>,
    newPasswordSet: bool,
    newPasswordRequested: bool
  )

  /** The actions the reducer distinguishes, with their payloads. Every other
      action type the store may dispatch is `Unhandled`. */
  datatype Action =
    | LogIn
    | LogInSuccess(token: Option<string>)
    | LogInFailure(error: string)
    | SignUp
    | SignUpSuccess(token: Option<string>)
    | SignUpFailure(error: string)
    | ResetPasswordSuccess
    | ResetPasswordFailure(error: string)
    | ResetPasswordRequestFailure(error: string)
    | ResetPasswordRequestSuccess
    | LogOut
    | Unhandled(kind: string)

  /** The four failure actions, each of which records its payload as the error. */
  predicate IsFailure(a: Action) {
    a.LogInFailure? || a.SignUpFailure? || a.ResetPasswordFailure? || a.ResetPasswordRequestFailure?
  }

  /** The actions whose result is computed from the current state rather than
      rebuilt from the initial state. */
  predicate KeepsState(a: Action) {
    a.ResetPasswordSuccess? || a.Unhandled?
  }

  /** One step of the reducer. Only a login or signup success can make the
      store authenticated from scratch: with any other action, authentication
      and the token are those of the current state (for the state-keeping
      actions) or of the initial state (for the others). */
  function Reduce(init: State, state: State, action: Action): (r: State)
    ensures action.LogInSuccess? || action.SignUpSuccess? ==> r.isAuthenticated && r.token == action.token
    ensures KeepsState(action) ==> r.isAuthenticated == state.isAuthenticated && r.token == state.token
    ensures !KeepsState(action) && !action.LogInSuccess? && !action.SignUpSuccess? ==>
              r.isAuthenticated == init.isAuthenticated && r.token == init.token
  {
    match action
    case LogIn => init.(isLoading := true)
    case LogInSuccess(t) => init.(isLoading := false, token := t, isAuthenticated := true)
    case LogInFailure(e) => init.(errorMessage := Some(e))
    case SignUp => init.(isLoading := true)
    case SignUpSuccess(t) => init.(token := t, isAuthenticated := true)
    case SignUpFailure(e) => init.(errorMessage := Some(e))
    case ResetPasswordSuccess => state.(newPasswordSet := true)
    case ResetPasswordFailure(e) => init.(errorMessage := Some(e))
    case ResetPasswordRequestFailure(e) => init.(errorMessage := Some(e))
    case ResetPasswordRequestSuccess => init.(errorMessage := None, newPasswordRequested := true)
    case LogOut => init
    case Unhandled(_) => state
  }

  /** The reducer as the store calls it: an undefined state stands for the
      initial state (the default parameter). */
  function Reducer(init: State, state: Option<State>, action: Action): (r: State)
    ensures state.None? ==> r == Reduce(init, init, action)
    ensures state.Some? ==> r == Reduce(init, state.value, action)
  {
    Reduce(init, state.GetOr(init), action)
  }

  /** The state the store holds after dispatching `actions`, in order, from `state`. */
  function Run(init: State, state: State, actions: seq<Action>): State
    decreases |actions|
  {
    if |actions| == 0 then state else Run(init, Reduce(init, state, actions[0]), actions[1..])
  }

  // ---------------------------------------------------------------------
  // One action at a time

  /** Logging in or signing up starts from the initial state with only the
      loading flag raised, whatever the previous state was. */
  lemma LogInStartsLoading(init: State, state: State)
    ensures var r := Reduce(init, state, LogIn);
      && r.isLoading
      && r.token == init.token
      && r.isAuthenticated == init.isAuthenticated
      && r.errorMessage == init.errorMessage
      && r.newPasswordSet == init.newPasswordSet
      && r.newPasswordRequested == init.newPasswordRequested
    ensures Reduce(init, state, SignUp) == Reduce(init, state, LogIn)
  {
  }

  /** A successful login authenticates with the returned token and clears
      the loading flag; every other field is the initial one. */
  lemma LogInSuccessAuthenticates(init: State, state: State, t: Option<string>)
    ensures var r := Reduce(init, state, LogInSuccess(t));
      && r.isAuthenticated && r.token == t && !r.isLoading
      && r.errorMessage == init.errorMessage
      && r.newPasswordSet == init.newPasswordSet
      && r.newPasswordRequested == init.newPasswordRequested
  {
  }

  /** A successful signup authenticates with the returned token, but leaves
      the loading flag at its initial value (it is not cleared as on login). */
  lemma SignUpSuccessAuthenticates(init: State, state: State, t: Option<string>)
    ensures var r := Reduce(init, state, SignUpSuccess(t));
      && r.isAuthenticated && r.token == t
      && r.isLoading == init.isLoading
      && r.errorMessage == init.errorMessage
      && r.newPasswordSet == init.newPasswordSet
      && r.newPasswordRequested == init.newPasswordRequested
  {
  }

  /** Each failure action yields the initial state with only the error replaced. */
  lemma FailureRecordsError(init: State, state: State, a: Action)
    requires IsFailure(a)
    ensures Reduce(init, state, a) == init.(errorMessage := Some(a.error))
  {
  }

  /** A successful password reset raises `newPasswordSet` and keeps every
      other field of the current state; doing it twice is the same as once. */
  lemma ResetPasswordSuccessMarksOnly(init: State, state: State)
    ensures var r := Reduce(init, state, ResetPasswordSuccess);
      && r.newPasswordSet
      && r.isLoading == state.isLoading
      && r.token == state.token
      && r.isAuthenticated == state.isAuthenticated
      && r.errorMessage == state.errorMessage
      && r.newPasswordRequested == state.newPasswordRequested
    ensures Reduce(init, Reduce(init, state, ResetPasswordSuccess), ResetPasswordSuccess)
         == Reduce(init, state, ResetPasswordSuccess)
  {
  }

  /** A successful reset request clears the error and raises `newPasswordRequested`. */
  lemma ResetPasswordRequestSuccessMarks(init: State, state: State)
    ensures var r := Reduce(init, state, ResetPasswordRequestSuccess);
      && r.errorMessage.None?
      && r.newPasswordRequested
      && r.isLoading == init.isLoading
      && r.token == init.token
      && r.isAuthenticated == init.isAuthenticated
      && r.newPasswordSet == init.newPasswordSet
  {
  }

  /** Logout returns exactly the initial state, from whatever state; an
      unrecognised action returns the current state unchanged, so with no
      state yet the store answers the initial state. */
  lemma LogOutAndUnhandled(init: State, state: State, kind: string)
    ensures Reduce(init, state, LogOut) == init
    ensures Run(init, state, [Unhandled(kind)]) == state
    ensures Reducer(init, None, Unhandled(kind)) == init
  {
  }

  /** For every action except a successful password reset and an unrecognised
      one, the next state does not depend on the current state. */
  lemma ResultIndependentOfState(init: State, s1: State, s2: State, a: Action)
    requires !KeepsState(a)
    ensures Reduce(init, s1, a) == Reduce(init, s2, a)
  {
  }

  // ---------------------------------------------------------------------
  // Sequences of dispatched actions

  /** Dispatching `xs` and then `ys` is dispatching `xs + ys`. */
  lemma {:induction false} RunConcat(init: State, state: State, xs: seq<Action>, ys: seq<Action>)
    ensures Run(init, state, xs + ys) == Run(init, Run(init, state, xs), ys)
    decreases |xs|
  {
    if |xs| == 0 {
      assert xs + ys == ys;
    } else {
      assert (xs + ys)[0] == xs[0];
      assert (xs + ys)[1..] == xs[1..] + ys;
      RunConcat(init, Reduce(init, state, xs[0]), xs[1..], ys);
    }
  }

  /** Once any state-independent action has been dispatched, the state the
      store started from no longer matters. */
  lemma {:induction false} RunForgetsHistory(init: State, s1: State, s2: State, actions: seq<Action>, k: nat)
    requires k < |actions| && !KeepsState(actions[k])
    ensures Run(init, s1, actions) == Run(init, s2, actions)
    decreases k
  {
    if k == 0 {
      assert Reduce(init, s1, actions[0]) == Reduce(init, s2, actions[0]);
    } else {
      RunForgetsHistory(init, Reduce(init, s1, actions[0]), Reduce(init, s2, actions[0]), actions[1..], k - 1);
    }
  }

  /** The store applies the reducer to each dispatched action in order: with
      no action the state stays as it is, and a newly dispatched action acts
      on the state the earlier ones left. */
  lemma RunAppliesInOrder(init: State, state: State, actions: seq<Action>, a: Action)
    ensures Run(init, state, []) == state
    ensures Run(init, state, actions + [a]) == Reduce(init, Run(init, state, actions), a)
  {
    RunConcat(init, state, actions, [a]);
  }

  /** Whatever happened before, a logout leaves the store in its initial state. */
  lemma RunEndingInLogOut(init: State, state: State, actions: seq<Action>)
    ensures Run(init, state, actions + [LogOut]) == init
  {
    RunAppliesInOrder(init, state, actions, LogOut);
  }

  /** The store only becomes authenticated through a successful login or
      signup: if neither the initial nor the starting state is authenticated,
      an authenticated outcome names an action that produced it, and the
      token held is the one that action carried. */
  lemma {:induction false} AuthenticatedOnlyBySuccess(init: State, state: State, actions: seq<Action>)
    requires !init.isAuthenticated && !state.isAuthenticated
    requires Run(init, state, actions).isAuthenticated
    ensures exists k :: 0 <= k < |actions| && (actions[k].LogInSuccess? || actions[k].SignUpSuccess?)
                        && actions[k].token == Run(init, state, actions).token
    decreases |actions|
  {
    var a := actions[0];
    var next := Reduce(init, state, a);
    if next.isAuthenticated {
      assert a.LogInSuccess? || a.SignUpSuccess?;
      var rest := actions[1..];
      if k :| 0 <= k < |rest| && !KeepsState(rest[k]) {
        // A later reset rebuilds the state, so the token comes from after it.
        RunForgetsHistory(init, next, init, rest, k);
        AuthenticatedOnlyBySuccess(init, init, rest);
        var j :| 0 <= j < |rest| && (rest[j].LogInSuccess? || rest[j].SignUpSuccess?)
                 && rest[j].token == Run(init, init, rest).token;
        assert actions[j + 1] == rest[j];
      } else {
        RunKeepsToken(init, next, rest);
        assert actions[0] == a;
      }
    } else {
      AuthenticatedOnlyBySuccess(init, next, actions[1..]);
      var j :| 0 <= j < |actions[1..]| && (actions[1..][j].LogInSuccess? || actions[1..][j].SignUpSuccess?)
               && actions[1..][j].token == Run(init, next, actions[1..]).token;
      assert actions[j + 1] == actions[1..][j];
    }
  }

  /** Actions that keep the current state never change the token. */
  lemma {:induction false} RunKeepsToken(init: State, state: State, actions: seq<Action>)
    requires forall k :: 0 <= k < |actions| ==> KeepsState(actions[k])
    ensures Run(init, state, actions).token == state.token
    decreases |actions|
  {
    if |actions| > 0 {
      RunKeepsToken(init, Reduce(init, state, actions[0]), actions[1..]);
    }
  }
}
