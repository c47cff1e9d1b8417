/** src/store/slices/userSlice.js: the authentication state and its three
    reducers. `setUser` stores a deep copy of its payload; on values that
    is the payload itself. */
module UserSlice {
  import opened Results

  datatype AuthState<U, E> = AuthState(
    user: Option<U>,
    isAuthenticated: bool,
    loading: bool,
    error: Option<E>)

  datatype Action<U, E> =
    | SetUser(user: Option<U>)
    | ClearUser
    | SetError(error: Option<E>)

  function InitialState<U, E>(): (s: AuthState<U, E>)
    ensures s.user.None? && !s.isAuthenticated && !s.loading && s.error.None?
  {
    AuthState(None, false, false, None)
  }

  /** The slice's reducer. */
  function Reduce<U, E>(s: AuthState<U, E>, a: Action<U, E>): (r: AuthState<U, E>)
    ensures a.SetUser? ==> r.user == a.user && r.isAuthenticated && !r.loading && r.error.None?
    ensures a.ClearUser? ==> r == InitialState()
    ensures a.SetError? ==> r.error == a.error && !r.loading
                            && r.user == s.user && r.isAuthenticated == s.isAuthenticated
  {
    match a
    case SetUser(u) => s.(user := u, isAuthenticated := true, loading := false, error := None)
    case ClearUser => s.(user := None, isAuthenticated := false, loading := false, error := None)
    case SetError(e) => s.(error := e, loading := false)
  }

  /** The state after a sequence of dispatched actions. */
  function Dispatch<U, E>(s: AuthState<U, E>, actions: seq<Action<U, E>>): AuthState<U, E>
    decreases |actions|
  {
    if |actions| == 0 then s else Dispatch(Reduce(s, actions[0]), actions[1..])
  }

  /** Clearing twice is clearing once. */
  lemma ClearUserIdempotent<U, E>(s: AuthState<U, E>)
    ensures Reduce(Reduce(s, ClearUser), ClearUser) == Reduce(s, ClearUser)
  {
  }

  /** No reducer sets `loading`, and only an authenticated state holds a user. */
  predicate Consistent<U, E>(s: AuthState<U, E>) {
    !s.loading && (!s.isAuthenticated ==> s.user.None?)
  }

  lemma {:induction false} DispatchKeepsConsistent<U, E>(s: AuthState<U, E>, actions: seq<Action<U, E>>)
    requires Consistent(s)
    ensures Consistent(Dispatch(s, actions))
    decreases |actions|
  {
    if |actions| > 0 {
      DispatchKeepsConsistent(Reduce(s, actions[0]), actions[1..]);
    }
  }

  /** The most recent `setUser` or `clearUser` among `actions`, if any. */
  function LastSession<U, E>(actions: seq<Action<U, E>>): Option<Action<U, E>>
    decreases |actions|
  {
    if |actions| == 0 then None
    else if !actions[|actions| - 1].SetError? then Some(actions[|actions| - 1])
    else LastSession(actions[..|actions| - 1])
  }

  lemma DispatchSnoc<U, E>(s: AuthState<U, E>, actions: seq<Action<U, E>>, a: Action<U, E>)
    ensures Dispatch(s, actions + [a]) == Reduce(Dispatch(s, actions), a)
    decreases |actions|
  {
    if |actions| > 0 {
      assert (actions + [a])[1..] == actions[1..] + [a];
      DispatchSnoc(Reduce(s, actions[0]), actions[1..], a);
    }
  }

  /** From the initial state, the user is authenticated exactly when the
      latest of `setUser` / `clearUser` was a `setUser`; `setError` never
      changes it. */
  lemma {:induction false} AuthenticatedIffLastWasSetUser<U, E>(actions: seq<Action<U, E>>)
    ensures Dispatch(InitialState<U, E>(), actions).isAuthenticated <==>
              (LastSession(actions).Some? && LastSession(actions).value.SetUser?)
    decreases |actions|
  {
    if |actions| > 0 {
      var init, last := actions[..|actions| - 1], actions[|actions| - 1];
      assert actions == init + [last];
      DispatchSnoc(InitialState<U, E>(), init, last);
      AuthenticatedIffLastWasSetUser(init);
    }
  }

  /** Every reachable state has `loading` false, and no user unless authenticated. */
  lemma ReachableConsistent<U, E>(actions: seq<Action<U, E>>)
    ensures !Dispatch(InitialState<U, E>(), actions).loading
    ensures !Dispatch(InitialState<U, E>(), actions).isAuthenticated ==> Dispatch(InitialState<U, E>(), actions).user.None?
  {
    DispatchKeepsConsistent(InitialState<U, E>(), actions);
  }
}
