/**
 * The application shell (App.tsx): the route table that decides, from the
 * path and the signed-in user, which page renders or where the router
 * redirects, and the `user` / `loading` state kept in step with local storage.
 *
 * Local storage is a map from keys to users: the JSON round trip of
 * `JSON.stringify` / `JSON.parse` is taken to be the identity, so a stored
 * value is the user record itself.
 */
module App {
  import opened Wrappers
  import opened Users

  /** The four routed pages. */
  datatype Page = LandingPage | AuthPage | VerificationPage | StorefrontPage

  /** What a route's `element` is: a page, or a `<Navigate to=...>`. */
  datatype Element = Render(page: Page) | Redirect(to: string)

  /** What the shell shows: the spinner while loading, then the routed element. */
  datatype Screen = Spinner | Routed(element: Element)

  /** The storage key the signed-in user is kept under. */
  const UserKey := "brandabeware_user"

  /** The `<Routes>` table: paths match exactly; every other path falls through to `*`. */
  function Route(path: string, user: Option<User>): Element {
    if path == "/" then Render(LandingPage)
    else if path == "/auth" then
      if user.Some? then Redirect("/store") else Render(AuthPage)
    else if path == "/verify" then
      if user.None? then Redirect("/auth")
      else if user.value.isVerified then Redirect("/store")
      else Render(VerificationPage)
    else if path == "/store" then
      if user.Some? then Render(StorefrontPage) else Redirect("/auth")
    else Redirect("/")
  }

  /** The user stored under the key, if any. */
  function Stored(storage: map<string, User>): Option<User> {
    if UserKey in storage then Some(storage[UserKey]) else None
  }

  // ---------------------------------------------------------------------
  // The decision table

  lemma LandingAlwaysRenders(user: Option<User>)
    ensures Route("/", user) == Render(LandingPage)
  {
  }

  lemma AuthRoute(user: Option<User>)
    ensures Route("/auth", user) == if user.Some? then Redirect("/store") else Render(AuthPage)
  {
  }

  lemma VerifyRoute(user: Option<User>)
    ensures user.None? ==> Route("/verify", user) == Redirect("/auth")
    ensures user.Some? && user.value.isVerified ==> Route("/verify", user) == Redirect("/store")
    ensures user.Some? && !user.value.isVerified ==> Route("/verify", user) == Render(VerificationPage)
  {
  }

  lemma StoreRoute(user: Option<User>)
    ensures Route("/store", user) == if user.Some? then Render(StorefrontPage) else Redirect("/auth")
  {
  }

  lemma UnknownPathGoesHome(path: string, user: Option<User>)
    requires path !in {"/", "/auth", "/verify", "/store"}
    ensures Route(path, user) == Redirect("/")
  {
  }

  /**
   * Each page renders exactly when its guard holds: the storefront only for a
   * signed-in user, verification only for an unverified one, the form only
   * for a signed-out visitor; and each page is rendered at its own path only.
   */
  lemma RenderConditions(path: string, user: Option<User>)
    ensures Route(path, user) == Render(StorefrontPage) <==> path == "/store" && user.Some?
    ensures Route(path, user) == Render(VerificationPage) <==> path == "/verify" && user.Some? && !user.value.isVerified
    ensures Route(path, user) == Render(AuthPage) <==> path == "/auth" && user.None?
    ensures Route(path, user) == Render(LandingPage) <==> path == "/"
  {
  }

  /** A redirect always lands on a route that renders: no chain of two redirects, and no loop. */
  lemma RedirectSettles(path: string, user: Option<User>)
    ensures Route(path, user).Redirect? ==> Route(Route(path, user).to, user).Render?
    ensures Route(path, user).Redirect? ==> Route(path, user).to != path
  {
  }

  // ---------------------------------------------------------------------
  // The shell's state and its steps

  datatype ShellState = ShellState(storage: map<string, User>, user: Option<User>, loading: bool, location: string)

  /** The mount effect: the stored user, if the key is present, becomes the user; loading ends either way. */
  function Mount(s: ShellState): ShellState {
    var loaded := if UserKey in s.storage then s.(user := Some(s.storage[UserKey])) else s;
    loaded.(loading := false)
  }

  /** `handleLogout`: drops the key, clears the user and navigates home. */
  function Logout(s: ShellState): ShellState {
    s.(storage := s.storage - {UserKey}, user := None, location := "/")
  }

  /** `handleUpdateUser`: stores a user under the key, or removes the key for null; the argument becomes the user. */
  function UpdateUser(s: ShellState, updated: Option<User>): ShellState {
    var storage := if updated.Some? then s.storage[UserKey := updated.value] else s.storage - {UserKey};
    s.(storage := storage, user := updated)
  }

  /** A `<Navigate>` element replaces the location with its target. */
  function Follow(s: ShellState): ShellState {
    match Route(s.location, s.user)
    case Redirect(to) => s.(location := to)
    case Render(_) => s
  }

  function Show(s: ShellState): Screen {
    if s.loading then Spinner else Routed(Route(s.location, s.user))
  }

  /** The spinner shows exactly while loading; after the mount effect the routed element shows. */
  lemma SpinnerWhileLoading(s: ShellState)
    ensures Show(s) == Spinner <==> s.loading
    ensures Show(Mount(s)) == Routed(Route(s.location, Mount(s).user))
  {
  }

  /** Once loaded, the user in memory is the one in storage. */
  predicate Synced(s: ShellState) {
    !s.loading ==> s.user == Stored(s.storage)
  }

  /** The mount effect loads the user iff the key is present, touches nothing else, and leaves the shell synced. */
  lemma MountLoadsIffPresent(s: ShellState)
    ensures Mount(s).user.Some? <==> UserKey in s.storage || s.user.Some?
    ensures UserKey in s.storage ==> Mount(s).user == Some(s.storage[UserKey])
    ensures !Mount(s).loading && Mount(s).storage == s.storage && Mount(s).location == s.location
    ensures s.user.None? ==> Synced(Mount(s))
  {
  }

  lemma LogoutEffect(s: ShellState)
    ensures UserKey !in Logout(s).storage
    ensures forall k :: k in s.storage && k != UserKey ==> k in Logout(s).storage && Logout(s).storage[k] == s.storage[k]
    ensures Logout(s).user.None? && Logout(s).location == "/"
    ensures Synced(Logout(s))
    ensures !s.loading ==> Show(Logout(s)) == Routed(Render(LandingPage))
  {
  }

  /** After `handleUpdateUser(u)` the key holds exactly `u`, other keys are kept, and the shell is synced. */
  lemma UpdateUserEffect(s: ShellState, updated: Option<User>)
    ensures Stored(UpdateUser(s, updated).storage) == updated
    ensures UpdateUser(s, updated).user == updated
    ensures forall k :: k in s.storage && k != UserKey ==> k in UpdateUser(s, updated).storage && UpdateUser(s, updated).storage[k] == s.storage[k]
    ensures forall k :: k in UpdateUser(s, updated).storage && k != UserKey ==> k in s.storage
    ensures Synced(UpdateUser(s, updated))
  {
  }

  /** Following a redirect reaches a rendered page in one step. */
  lemma FollowRenders(s: ShellState)
    ensures Route(Follow(s).location, Follow(s).user).Render?
    ensures Follow(s).user == s.user && Follow(s).storage == s.storage
  {
    RedirectSettles(s.location, s.user);
  }

  /** The page a freshly signed-up (unverified) user sees at each path, once redirects are followed. */
  lemma NewUserJourney(s: ShellState, u: User)
    requires !u.isVerified
    ensures var t := UpdateUser(s, Some(u));
      && Follow(t.(location := "/auth")).location == "/store"
      && Route("/verify", t.user) == Render(VerificationPage)
      && Route("/store", t.user) == Render(StorefrontPage)
  {
  }

  // ---------------------------------------------------------------------
  // The component

  class Shell {
    var storage: map<string, User>
    var user: Option<User>
    var loading: bool
    var location: string

    function State(): ShellState
      reads this
    {
      ShellState(storage, user, loading, location)
    }

    /** The first render: no user, the spinner, at the browser's current path. */
    constructor(saved: map<string, User>, path: string)
      ensures State() == ShellState(saved, None, true, path)
      ensures Show(State()) == Spinner
    {
      storage := saved;
      user := None;
      loading := true;
      location := path;
    }

    method OnMount()
      modifies this
      ensures State() == Mount(old(State()))
    {
      if UserKey in storage {
        user := Some(storage[UserKey]);
      }
      loading := false;
    }

    method HandleLogout()
      modifies this
      ensures State() == Logout(old(State()))
    {
      storage := storage - {UserKey};
      user := None;
      location := "/";
    }

    method HandleUpdateUser(updated: Option<User>)
      modifies this
      ensures State() == UpdateUser(old(State()), updated)
    {
      if updated.Some? {
        storage := storage[UserKey := updated.value];
      } else {
        storage := storage - {UserKey};
      }
      user := updated;
    }

    /** The router acting on a `<Navigate>` element in the rendered tree. */
    method FollowRedirect()
      modifies this
      ensures State() == Follow(old(State()))
    {
      var element := Route(location, user);
      if element.Redirect? {
        location := element.to;
      }
    }
  }
}
