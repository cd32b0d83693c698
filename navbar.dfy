/** The navigation bar (src/components/Navbar.jsx): it reads the stored session once on mount,
    shows links by whether a session was found and by the stored role, greets the user by
    name, and logs out through the auth service. */
module NavbarComponent {
  import opened JsValue
  import opened Browser
  import opened AuthApi
  import opened Session

  datatype Link = HomeLink | ClubsLink | DashboardLink

  /** The links of both the desktop and the mobile menu, in order. */
  function VisibleLinks(isAuthenticated: bool, user: Value): (ls: seq<Link>)
    ensures |ls| >= 1 && ls[0] == HomeLink
    ensures ClubsLink in ls <==> isAuthenticated
    ensures DashboardLink in ls <==> isAuthenticated && StrictEq(Get(user, "role"), Str("admin"))
  {
    [HomeLink]
    + (if isAuthenticated then [ClubsLink] else [])
    + (if isAuthenticated && StrictEq(Get(user, "role"), Str("admin")) then [DashboardLink] else [])
  }

  /** The right-hand side: a greeting with a logout button, or the login and signup links. */
  datatype AuthArea = Greeting(name: Value) | GuestLinks

  /** `user?.name || "User"` is the name greeted. */
  function Area(isAuthenticated: bool, user: Value): (a: AuthArea)
    ensures a.Greeting? <==> isAuthenticated
    ensures a.Greeting? ==> Truthy(a.name)
    ensures a.Greeting? && Truthy(Get(user, "name")) ==> a.name == Get(user, "name")
  {
    if isAuthenticated then Greeting(Or(Get(user, "name"), Str("User"))) else GuestLinks
  }

  /** Whether the mount effect finds a session: a truthy token and some stored user text. */
  predicate FindsSession(storage: map<string, Value>) {
    HasToken(storage) && "user" in storage
  }

  /** The user the bar holds after mounting from its initial state. */
  function MountedUser(storage: map<string, Value>): Value {
    if FindsSession(storage) && storage["user"] != Undefined then storage["user"] else Null
  }

  /** The links shown after mounting from the initial state on `storage`. */
  function MountedLinks(storage: map<string, Value>): seq<Link> {
    VisibleLinks(FindsSession(storage), MountedUser(storage))
  }

  /** The bar offers the club list exactly when the club list's own gate would not send the
      user to the login page, and offers the dashboard only to a session the admin gate and
      the member gate both let in. */
  lemma MountedLinksMatchGates(storage: map<string, Value>)
    ensures ClubsLink in MountedLinks(storage) <==> SessionGate(storage) != ToLogin
    ensures DashboardLink in MountedLinks(storage) ==> AdminGate(storage) == Pass && SessionGate(storage) == Pass
  {
    if DashboardLink in MountedLinks(storage) {
      assert FindsSession(storage) && StrictEq(Get(MountedUser(storage), "role"), Str("admin"));
      assert Get(MountedUser(storage), "role") != Undefined;
      assert MountedUser(storage) == storage["user"];
    }
  }

  /** After logout only the home link is left, and the login and signup links return. */
  lemma SignedOutShowsHomeOnly(storage: map<string, Value>)
    ensures MountedLinks(SignedOut(storage)) == [HomeLink]
    ensures Area(FindsSession(SignedOut(storage)), MountedUser(SignedOut(storage))) == GuestLinks
  {
  }

  class Navbar {
    const env: Env
    var isAuthenticated: bool
    var user: Value

    constructor (env: Env)
      ensures this.env == env && !isAuthenticated && user == Null
    {
      this.env := env;
      isAuthenticated := false;
      user := Null;
    }

    /** The mount effect: with a session, the bar becomes authenticated and then parses the
        stored user; a stored `undefined` throws after the first update. */
    method Mount() returns (threw: bool)
      modifies this
      ensures threw <==> FindsSession(env.storage) && env.storage["user"] == Undefined
      ensures isAuthenticated == (old(isAuthenticated) || FindsSession(env.storage))
      ensures user == (if FindsSession(env.storage) && !threw then env.storage["user"] else old(user))
    {
      threw := false;
      var token := env.GetItem("token");
      if Truthy(token) && "user" in env.storage {
        isAuthenticated := true;
        if env.storage["user"] == Undefined {
          threw := true;
        } else {
          user := env.storage["user"];
        }
      }
    }

    /** The logo goes home. */
    method HandleLogoClick()
      modifies env
      ensures env.storage == old(env.storage)
      ensures env.effects == old(env.effects) + [Navigated("/")]
    {
      env.Navigate("/");
    }

    /** `handleLogout`: the auth service's logout, then the bar forgets the session. */
    method HandleLogout(fault: LogoutFault)
      modifies this, env
      ensures env.storage == old(env.storage) - {"token", "user"}
      ensures env.effects == old(env.effects) + LogoutEffects(fault)
      ensures !isAuthenticated && user == Null
      ensures VisibleLinks(isAuthenticated, user) == [HomeLink]
    {
      Logout(env, fault);
      isAuthenticated := false;
      user := Null;
    }
  }
}
