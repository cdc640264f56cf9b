/** The session store: the signed-in user, whether there is one, and
    whether the app is still finding out.

    Each action awaits one API call; the model takes what that call
    yields as a parameter and returns the error the action re-raises,
    if any. */
module UserModel {
  import opened Wrappers
  import opened ApiTypes

  /** The app's user: every field of the API user, plus the class room's id
      and name copied to the two fields older screens read. */
  datatype User = User(profile: ApiUser, classId: Option<string>, className: Option<string>)

  /** `mapApiUserToUser`. */
  function MapApiUserToUser(u: ApiUser): (r: User)
    ensures r.profile == u
    ensures u.classRoom.None? ==> r.classId.None? && r.className.None?
    ensures u.classRoom.Some? ==> r.classId == Some(u.classRoom.value.id) && r.className == Some(u.classRoom.value.name)
  {
    match u.classRoom
    case None => User(u, None, None)
    case Some(room) => User(u, Some(room.id), Some(room.name))
  }

  /** Mapping loses nothing: two API users map to the same user only if
      they are the same. */
  lemma MapApiUserToUserInjective(a: ApiUser, b: ApiUser)
    requires MapApiUserToUser(a) == MapApiUserToUser(b)
    ensures a == b
  {
    assert MapApiUserToUser(a).profile == a;
  }

  /** A 401 from the backend: the only failure that ends the session. */
  predicate IsUnauthorized(e: Thrown) {
    e.RequestError? && e.status == 401
  }

  class AuthStore {
    var user: Option<User>
    var isAuthenticated: bool
    var isLoading: bool

    /** Signed in exactly when a user is known. */
    ghost predicate Valid()
      reads this
    {
      isAuthenticated == user.Some?
    }

    /** Before `initializeAuth` runs: nobody, and still loading. */
    constructor()
      ensures Valid()
      ensures user == None && !isAuthenticated && isLoading
    {
      user := None;
      isAuthenticated := false;
      isLoading := true;
    }

    method SetUser(u: Option<User>)
      modifies this`user, this`isAuthenticated
      ensures Valid()
      ensures user == u
    {
      user := u;
      isAuthenticated := u.Some?;
    }

    method SetLoading(loading: bool)
      modifies this`isLoading
      ensures isLoading == loading
    {
      isLoading := loading;
    }

    /** `login`, given what `apiClient.login` yields. */
    method Login(outcome: Result<AuthResponse, Thrown>) returns (rethrown: Option<Thrown>)
      modifies this
      ensures Valid() && !isLoading
      ensures outcome.Success? ==> user == Some(MapApiUserToUser(outcome.value.user)) && rethrown.None?
      ensures outcome.Failure? ==> user.None? && rethrown == Some(outcome.error)
    {
      match outcome {
        case Success(auth) =>
          user := Some(MapApiUserToUser(auth.user));
          isAuthenticated := true;
          isLoading := false;
          rethrown := None;
        case Failure(e) =>
          user := None;
          isAuthenticated := false;
          isLoading := false;
          rethrown := Some(e);
      }
    }

    /** `logout`: whatever the server call did, the session ends. */
    method Logout()
      modifies this
      ensures Valid()
      ensures user.None? && !isAuthenticated && !isLoading
    {
      user := None;
      isAuthenticated := false;
      isLoading := false;
    }

    /** `refreshUserData`, given what `getMe` yields: a 401 ends the
        session; any other failure leaves it as it was; every failure is
        re-raised; `isLoading` is never touched. */
    method RefreshUserData(me: Result<ApiUser, Thrown>) returns (rethrown: Option<Thrown>)
      requires Valid()
      modifies this`user, this`isAuthenticated
      ensures Valid()
      ensures me.Success? ==> user == Some(MapApiUserToUser(me.value)) && rethrown.None?
      ensures me.Failure? ==> rethrown == Some(me.error)
      ensures me.Failure? && IsUnauthorized(me.error) ==> user.None?
      ensures me.Failure? && !IsUnauthorized(me.error) ==> user == old(user) && isAuthenticated == old(isAuthenticated)
    {
      match me {
        case Success(u) =>
          user := Some(MapApiUserToUser(u));
          isAuthenticated := true;
          rethrown := None;
        case Failure(e) =>
          if IsUnauthorized(e) {
            user := None;
            isAuthenticated := false;
          }
          rethrown := Some(e);
      }
    }

    /** `initializeAuth`, given whether a token is stored and what `getMe`
        yields when it is asked; `getMe` is only consulted with a token.
        The ghost result is `isLoading` while the calls are awaited. */
    method InitializeAuth(hasToken: bool, me: Result<ApiUser, Thrown>) returns (ghost loadingDuring: bool)
      modifies this
      ensures Valid() && !isLoading && loadingDuring
      ensures isAuthenticated <==> hasToken && me.Success?
      ensures hasToken && me.Success? ==> user == Some(MapApiUserToUser(me.value))
    {
      isLoading := true;
      loadingDuring := isLoading;
      if hasToken {
        match me {
          case Success(u) =>
            user := Some(MapApiUserToUser(u));
            isAuthenticated := true;
            isLoading := false;
          case Failure(_) =>
            // the catch block
            user := None;
            isAuthenticated := false;
            isLoading := false;
        }
      } else {
        user := None;
        isAuthenticated := false;
        isLoading := false;
      }
    }
  }
}
