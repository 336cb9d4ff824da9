/** The auth slice of the client store: the signed-in user, the session token and the
    loading and error flags. Each reducer is a case of `Reduce`, and the store class
    applies it to its fields. The token read from browser storage at start-up is a
    parameter, and the token writes back to storage are left out. */
module AuthSlice {
  import opened Wrappers
  import Js

  datatype User = User(id: string, email: string, firstName: string, lastName: string,
    avatar: Option<string>, role: string, permissions: seq<string>, preferences: Js.Value)

  /** `Partial<User>`: the fields the payload carries. */
  datatype UserPatch = UserPatch(id: Option<string>, email: Option<string>, firstName: Option<string>,
    lastName: Option<string>, avatar: Option<Option<string>>, role: Option<string>,
    permissions: Option<seq<string>>, preferences: Option<Js.Value>)

  function Pick<T>(patch: Option<T>, current: T): (r: T)
    ensures patch.Some? ==> r == patch.value
    ensures patch.None? ==> r == current
  {
    if patch.Some? then patch.value else current
  }

  /** `{ ...user, ...patch }`. */
  function Patched(u: User, p: UserPatch): User {
    User(Pick(p.id, u.id), Pick(p.email, u.email), Pick(p.firstName, u.firstName), Pick(p.lastName, u.lastName),
      Pick(p.avatar, u.avatar), Pick(p.role, u.role), Pick(p.permissions, u.permissions),
      Pick(p.preferences, u.preferences))
  }

  const EMPTY_PATCH := UserPatch(None, None, None, None, None, None, None, None)

  /** The patch overrides exactly the fields it carries: an empty patch changes nothing,
      and patching with a user's own fields gives that user. */
  lemma PatchedProps(u: User, p: UserPatch, v: User)
    ensures Patched(u, EMPTY_PATCH) == u
    ensures Patched(u, UserPatch(Some(v.id), Some(v.email), Some(v.firstName), Some(v.lastName),
      Some(v.avatar), Some(v.role), Some(v.permissions), Some(v.preferences))) == v
    ensures p.email.None? ==> Patched(u, p).email == u.email
    ensures p.email.Some? ==> Patched(u, p).email == p.email.value
    ensures Patched(Patched(u, p), p) == Patched(u, p)
  {
  }

  datatype Auth = Auth(user: Option<User>, token: Option<string>, isAuthenticated: bool, isLoading: bool,
    error: Option<string>)

  /** `initialState`, with the stored token. */
  function Initial(storedToken: Option<string>): Auth {
    Auth(None, storedToken, false, false, None)
  }

  datatype Action =
    | LoginStart
    | LoginSuccess(user: User, token: string)
    | LoginFailure(message: string)
    | Logout
    | UpdateUser(patch: UserPatch)
    | ClearError
    | SetLoading(loading: bool)

  /** The reducers. */
  function Reduce(s: Auth, a: Action): Auth {
    match a
    case LoginStart => s.(isLoading := true, error := None)
    case LoginSuccess(u, t) => s.(isLoading := false, isAuthenticated := true, user := Some(u), token := Some(t), error := None)
    case LoginFailure(m) => s.(isLoading := false, isAuthenticated := false, user := None, token := None, error := Some(m))
    case Logout => s.(user := None, token := None, isAuthenticated := false, error := None)
    case UpdateUser(p) => if s.user.Some? then s.(user := Some(Patched(s.user.value, p))) else s
    case ClearError => s.(error := None)
    case SetLoading(b) => s.(isLoading := b)
  }

  /** Being authenticated means a user is present. */
  predicate Consistent(s: Auth) {
    s.isAuthenticated ==> s.user.Some?
  }

  /** What each reducer promises: a login success signs the user in with the token and
      clears loading and the error; a failure signs out and records the error; a logout
      signs out and clears the error but keeps the loading flag; a user update touches
      only the user, and only when there is one. */
  lemma ReduceProps(s: Auth, a: Action)
    ensures a.LoginStart? ==> Reduce(s, a) == s.(isLoading := true, error := None)
    ensures a.LoginSuccess? ==> var r := Reduce(s, a);
      r.isAuthenticated && r.user == Some(a.user) && r.token == Some(a.token) && !r.isLoading && r.error.None?
    ensures a.LoginFailure? ==> var r := Reduce(s, a);
      !r.isAuthenticated && r.user.None? && r.token.None? && !r.isLoading && r.error == Some(a.message)
    ensures a.Logout? ==> var r := Reduce(s, a);
      !r.isAuthenticated && r.user.None? && r.token.None? && r.error.None? && r.isLoading == s.isLoading
    ensures a.UpdateUser? ==> Reduce(s, a).(user := s.user) == s
    ensures a.UpdateUser? && s.user.None? ==> Reduce(s, a) == s
    ensures a.UpdateUser? && s.user.Some? ==> Reduce(s, a).user == Some(Patched(s.user.value, a.patch))
  {
  }

  /** Every reducer keeps the state consistent. */
  lemma ReduceConsistent(s: Auth, a: Action)
    requires Consistent(s)
    ensures Consistent(Reduce(s, a))
  {
  }

  /** The state after a run of actions. */
  function ReduceAll(s: Auth, actions: seq<Action>): Auth
    decreases |actions|
  {
    if actions == [] then s else ReduceAll(Reduce(s, actions[0]), actions[1..])
  }

  /** Every state the store can reach from its initial state is consistent. */
  lemma {:induction false} ReachableConsistent(storedToken: Option<string>, actions: seq<Action>)
    ensures Consistent(ReduceAll(Initial(storedToken), actions))
  {
    AllConsistent(Initial(storedToken), actions);
  }

  lemma {:induction false} AllConsistent(s: Auth, actions: seq<Action>)
    requires Consistent(s)
    ensures Consistent(ReduceAll(s, actions))
    decreases |actions|
  {
    if actions != [] {
      ReduceConsistent(s, actions[0]);
      AllConsistent(Reduce(s, actions[0]), actions[1..]);
    }
  }

  class AuthStore {
    var user: Option<User>
    var token: Option<string>
    var isAuthenticated: bool
    var isLoading: bool
    var error: Option<string>

    function State(): Auth
      reads this
    {
      Auth(user, token, isAuthenticated, isLoading, error)
    }

    ghost predicate Valid()
      reads this
    {
      Consistent(State())
    }

    constructor(storedToken: Option<string>)
      ensures State() == Initial(storedToken) && Valid()
    {
      user, token, isAuthenticated, isLoading, error := None, storedToken, false, false, None;
    }

    method LoginStart()
      requires Valid()
      modifies this
      ensures Valid() && State() == Reduce(old(State()), Action.LoginStart)
    {
      isLoading := true;
      error := None;
    }

    method LoginSuccess(u: User, t: string)
      requires Valid()
      modifies this
      ensures Valid() && State() == Reduce(old(State()), Action.LoginSuccess(u, t))
    {
      isLoading := false;
      isAuthenticated := true;
      user := Some(u);
      token := Some(t);
      error := None;
    }

    method LoginFailure(message: string)
      requires Valid()
      modifies this
      ensures Valid() && State() == Reduce(old(State()), Action.LoginFailure(message))
    {
      isLoading := false;
      isAuthenticated := false;
      user := None;
      token := None;
      error := Some(message);
    }

    method Logout()
      requires Valid()
      modifies this
      ensures Valid() && State() == Reduce(old(State()), Action.Logout)
    {
      user := None;
      token := None;
      isAuthenticated := false;
      error := None;
    }

    method UpdateUser(p: UserPatch)
      requires Valid()
      modifies this
      ensures Valid() && State() == Reduce(old(State()), Action.UpdateUser(p))
    {
      if user.Some? {
        user := Some(Patched(user.value, p));
      }
    }

    method ClearError()
      requires Valid()
      modifies this
      ensures Valid() && State() == Reduce(old(State()), Action.ClearError)
    {
      error := None;
    }

    method SetLoading(b: bool)
      requires Valid()
      modifies this
      ensures Valid() && State() == Reduce(old(State()), Action.SetLoading(b))
    {
      isLoading := b;
    }
  }
}
