/** The auth operations (src/services/operations/authAPI.js): signup, login, logout and the
    profile probe, each a fixed sequence of toasts, one request, session-storage writes and
    navigation. */
module AuthApi {
  import opened JsValue
  import opened Http
  import opened Toasts
  import opened Browser
  import opened Endpoints
  import opened ApiConnector

  /** The delay before signup's navigation to the login page. */
  const SignupDelayMs: nat := 1000

  /** `response?.data?.success || response?.success`: signup accepts either response shape. */
  predicate SignupSucceeded(response: Value) {
    Truthy(Or(Get(Get(response, "data"), "success"), Get(response, "success")))
  }

  /** Where login sends a signed-in user: the admin dashboard exactly when the role is
      the string "admin", the club list otherwise. */
  function LandingPath(user: Value): (path: string)
    ensures path == "/admin/dashboard" <==> StrictEq(Get(user, "role"), Str("admin"))
    ensures path == "/admin/dashboard" || path == "/clubs"
  {
    if StrictEq(Get(user, "role"), Str("admin")) then "/admin/dashboard" else "/clubs"
  }

  /** signup posts the form with the transport's default headers. */
  function SignupRequest(formData: Value): (r: Request)
    ensures r.verb == POST && r.url == SignupApi()
    ensures r.headers == map["Content-Type" := JsonContentType]
    ensures formData != Undefined ==> r.data == formData
  {
    BuildRequest(POST, SignupApi(), formData, Undefined, Undefined)
  }

  /** login posts the form with an explicit JSON content type. */
  function LoginRequest(formData: Value): (r: Request)
    ensures r.verb == POST && r.url == LoginApi()
    ensures r.headers == map["Content-Type" := JsonContentType]
    ensures formData != Undefined ==> r.data == formData
  {
    BuildRequest(POST, LoginApi(), formData, Obj(map["Content-Type" := Str("application/json")]), Undefined)
  }

  /** getProfile is a bare GET: empty body and parameters, and no Authorization header. */
  function ProfileRequest(): (r: Request)
    ensures r.verb == GET && r.url == ProfileApi() && r.withCredentials
    ensures "Authorization" !in r.headers && r.headers == map["Content-Type" := JsonContentType]
    ensures r.data == EmptyObject && r.params == EmptyObject
  {
    BuildRequest(GET, ProfileApi(), Undefined, Undefined, Undefined)
  }

  /** What signup does once its request settles as `c`: the loading toast, the request, the
      dismissal, then either the success toast and the deferred move to the login page, or
      an error toast. */
  function SignupEffects(formData: Value, c: Completion): seq<Effect> {
    [Shown(LoadingToast(Str("Creating your account..."))), Sent(SignupRequest(formData))] + SignupSettled(c)
  }

  /** What signup does once its request has settled as `c`. */
  function SignupSettled(c: Completion): seq<Effect> {
    [Dismissed]
    + (if c.Resolved? && SignupSucceeded(c.value) then
         [Shown(SignupSuccess), NavigationScheduled("/login", SignupDelayMs)]
       else if c.Resolved? then [Shown(SignupError(Str(SignupErrorDefault)))]
       else [Shown(SignupError(CaughtMessage(c.thrown, SignupErrorDefault)))])
  }

  /** `signup(formData, navigate)`: session storage is never touched. */
  method Signup(env: Env, formData: Value, outcome: AxiosOutcome)
    modifies env
    ensures env.storage == old(env.storage)
    ensures env.effects == old(env.effects) + SignupEffects(formData, Settle(outcome))
  {
    env.Show(LoadingToast(Str("Creating your account...")));
    var c := Call(env, POST, SignupApi(), formData, Undefined, Undefined, outcome);
    ghost var sent := env.effects;
    assert sent == old(env.effects) + [Shown(LoadingToast(Str("Creating your account..."))), Sent(SignupRequest(formData))];
    ConcludeSignup(env, c);
    AppendAssoc(old(env.effects), [Shown(LoadingToast(Str("Creating your account..."))), Sent(SignupRequest(formData))],
                SignupSettled(c));
  }

  /** The part of signup after the awaited request. */
  method ConcludeSignup(env: Env, c: Completion)
    modifies env
    ensures env.storage == old(env.storage)
    ensures env.effects == old(env.effects) + SignupSettled(c)
  {
    if c.Resolved? {
      if SignupSucceeded(c.value) {
        env.Dismiss();
        env.Show(SignupSuccess);
        env.NavigateLater("/login", SignupDelayMs);
      } else {
        env.Dismiss();
        env.Show(SignupError(Str(SignupErrorDefault)));
      }
    } else {
      env.Dismiss();
      var message := CaughtMessage(c.thrown, SignupErrorDefault);
      env.Show(SignupError(message));
    }
  }

  /** Signup writes nothing to storage, and it moves to the login page (after 1000 ms)
      exactly when the response reports success; otherwise it shows one error toast. */
  lemma SignupNavigatesOnlyOnSuccess(formData: Value, c: Completion)
    ensures forall e :: e in SignupEffects(formData, c) ==> !e.Stored? && !e.Removed? && !e.Navigated?
    ensures NavigationScheduled("/login", 1000) in SignupEffects(formData, c)
        <==> c.Resolved? && SignupSucceeded(c.value)
    ensures !(c.Resolved? && SignupSucceeded(c.value)) ==>
      ShownToasts(SignupEffects(formData, c))
        == [LoadingToast(Str("Creating your account...")),
            SignupError(if c.Resolved? then Str(SignupErrorDefault) else CaughtMessage(c.thrown, SignupErrorDefault))]
  {
    var head := [Shown(LoadingToast(Str("Creating your account..."))), Sent(SignupRequest(formData)), Dismissed];
    var e := SignupEffects(formData, c);
    assert e == [head[0], head[1]] + SignupSettled(c);
    ShownToastsAppend(head, e[3..]);
    assert e == head + e[3..];
    ShownToastsAppend(head[..1], head[1..]);
    assert head == head[..1] + head[1..];
    assert ShownToasts(head[1..]) == [];
  }

  /** What login does after a response with a truthy `success`: it announces success,
      stores the token and then the user, and navigates by role; a response whose `user` is
      missing makes `response.user.role` throw after both writes, which login's own catch
      turns into the login error toast. */
  function SignInEffects(response: Value): seq<Effect> {
    var user := Get(response, "user");
    [Shown(LoginSuccess), Stored("token", Str(TemplateText(Get(response, "token")))), Stored("user", user)]
    + (if AccessThrows(user) then [Shown(LoginError(Str(LoginErrorDefault)))] else [Navigated(LandingPath(user))])
  }

  /** What login does once its request settles as `c`. The loading toast is never
      dismissed. */
  function LoginEffects(formData: Value, c: Completion): seq<Effect> {
    [Shown(LoadingToast(Str("Signing you in..."))), Sent(LoginRequest(formData))] + LoginSettled(c)
  }

  /** What login does once its request has settled as `c`. */
  function LoginSettled(c: Completion): seq<Effect> {
    if c.Rejected? then [Shown(LoginError(CaughtMessage(c.thrown, LoginErrorDefault)))]
    else if !Truthy(Get(c.value, "success")) then []
    else SignInEffects(c.value)
  }

  /** The storage login leaves once its request settles as `c`. */
  function LoginStorage(storage: map<string, Value>, c: Completion): map<string, Value> {
    if c.Resolved? && Truthy(Get(c.value, "success")) then
      storage["token" := Str(TemplateText(Get(c.value, "token")))]["user" := Get(c.value, "user")]
    else storage
  }

  /** `login(formData, navigate)` */
  method Login(env: Env, formData: Value, outcome: AxiosOutcome)
    modifies env
    ensures env.storage == LoginStorage(old(env.storage), Settle(outcome))
    ensures env.effects == old(env.effects) + LoginEffects(formData, Settle(outcome))
  {
    env.Show(LoadingToast(Str("Signing you in...")));
    var c := Call(env, POST, LoginApi(), formData, Obj(map["Content-Type" := Str("application/json")]),
                  Undefined, outcome);
    ghost var sent := env.effects;
    assert sent == old(env.effects) + [Shown(LoadingToast(Str("Signing you in..."))), Sent(LoginRequest(formData))];
    ConcludeLogin(env, c);
    AppendAssoc(old(env.effects), [Shown(LoadingToast(Str("Signing you in..."))), Sent(LoginRequest(formData))],
                LoginSettled(c));
  }

  /** The part of login after the awaited request. */
  method ConcludeLogin(env: Env, c: Completion)
    modifies env
    ensures env.storage == LoginStorage(old(env.storage), c)
    ensures env.effects == old(env.effects) + LoginSettled(c)
  {
    if c.Rejected? {
      var message := CaughtMessage(c.thrown, LoginErrorDefault);
      env.Show(LoginError(message));
    } else if Truthy(Get(c.value, "success")) {
      SignIn(env, c.value);
    }
  }

  /** The body of login's `if (response?.success)`. */
  method SignIn(env: Env, response: Value)
    modifies env
    ensures env.storage == old(env.storage)["token" := Str(TemplateText(Get(response, "token")))]
                                           ["user" := Get(response, "user")]
    ensures env.effects == old(env.effects) + SignInEffects(response)
  {
    env.Show(LoginSuccess);
    env.SetItem("token", Str(TemplateText(Get(response, "token"))));
    env.SetItem("user", Get(response, "user"));
    var user := Get(response, "user");
    if AccessThrows(user) {
      // `response.user.role` throws a TypeError, caught by the surrounding try.
      var message := CaughtMessage(TypeErrorValue, LoginErrorDefault);
      env.Show(LoginError(message));
    } else {
      env.Navigate(LandingPath(user));
    }
  }

  /** A successful login stores the response's token (as text) and then its user, and only
      after both writes navigates: to the admin dashboard exactly for the role "admin". */
  lemma LoginStoresThenNavigates(storage: map<string, Value>, formData: Value, c: Completion)
    requires c.Resolved? && Truthy(Get(c.value, "success"))
    ensures var user := Get(c.value, "user");
      LoginStorage(storage, c) == SignedIn(storage, Get(c.value, "token"), user)
      && LoginEffects(formData, c)[3] == Stored("token", Str(TemplateText(Get(c.value, "token"))))
      && LoginEffects(formData, c)[4] == Stored("user", user)
      && (!AccessThrows(user) ==> LoginEffects(formData, c)[5] == Navigated(LandingPath(user))
                                  && |LoginEffects(formData, c)| == 6)
      && (forall i :: 0 <= i < 5 ==> !LoginEffects(formData, c)[i].Navigated?)
  {
  }

  /** A failed login request leaves storage alone, navigates nowhere and shows exactly one
      toast after the loading toast: the login error with the caught message or the
      fallback. */
  lemma LoginFailureShowsOneError(storage: map<string, Value>, formData: Value, c: Completion)
    requires c.Rejected?
    ensures LoginStorage(storage, c) == storage
    ensures ShownToasts(LoginEffects(formData, c))
         == [LoadingToast(Str("Signing you in...")), LoginError(CaughtMessage(c.thrown, LoginErrorDefault))]
    ensures forall e :: e in LoginEffects(formData, c) ==> !e.Stored? && !e.Navigated?
  {
    var head := [Shown(LoadingToast(Str("Signing you in..."))), Sent(LoginRequest(formData))];
    ShownToastsAppend(head, [Shown(LoginError(CaughtMessage(c.thrown, LoginErrorDefault)))]);
  }

  /** A response with a falsy `success` writes nothing, shows nothing beyond the loading
      toast and navigates nowhere. */
  lemma LoginUnsuccessfulIsSilent(storage: map<string, Value>, formData: Value, c: Completion)
    requires c.Resolved? && !Truthy(Get(c.value, "success"))
    ensures LoginStorage(storage, c) == storage
    ensures ShownToasts(LoginEffects(formData, c)) == [LoadingToast(Str("Signing you in..."))]
    ensures forall e :: e in LoginEffects(formData, c) ==> !e.Stored? && !e.Navigated?
  {
    var head := [Shown(LoadingToast(Str("Signing you in..."))), Sent(LoginRequest(formData))];
    assert LoginEffects(formData, c) == head;
    ShownToastsAppend(head[..1], head[1..]);
    assert head == head[..1] + head[1..];
  }

  /** Which step of logout's try block throws, if any. The steps of its catch block are
      taken not to throw. */
  datatype LogoutFault = NoFault | TokenRemovalFails | UserRemovalFails | ToastFails | NavigationFails

  /** The effects of logout for each fault: the try block up to the failing step, then the
      catch block's removals and navigation. */
  function LogoutEffects(fault: LogoutFault): seq<Effect> {
    var recovery := [Removed("token"), Removed("user"), Navigated("/")];
    match fault
    case NoFault => [Removed("token"), Removed("user"), Shown(LogoutSuccess), Navigated("/")]
    case TokenRemovalFails => recovery
    case UserRemovalFails => [Removed("token")] + recovery
    case ToastFails => [Removed("token"), Removed("user")] + recovery
    case NavigationFails => [Removed("token"), Removed("user"), Shown(LogoutSuccess)] + recovery
  }

  /** Whichever step throws, both keys are removed and the last effect is the navigation
      home; the success toast appears exactly when the toast step itself ran. Nothing else
      is shown, written or visited. */
  lemma LogoutShape(fault: LogoutFault)
    ensures var e := LogoutEffects(fault);
      && Removed("token") in e && Removed("user") in e
      && |e| >= 3 && e[|e| - 1] == Navigated("/")
      && (Shown(LogoutSuccess) in e <==> fault == NoFault || fault == NavigationFails)
      && forall i :: 0 <= i < |e| ==> e[i].Removed? || e[i] == Shown(LogoutSuccess) || e[i] == Navigated("/")
  {
  }

  /** `logout(navigate)`: whichever step throws, both session keys end up removed and the
      last effect is the navigation home; running it again changes nothing in storage. */
  method Logout(env: Env, fault: LogoutFault)
    modifies env
    ensures env.storage == old(env.storage) - {"token", "user"}
    ensures env.effects == old(env.effects) + LogoutEffects(fault)
  {
    match fault
    case NoFault =>
      env.RemoveItem("token");
      env.RemoveItem("user");
      env.Show(LogoutSuccess);
      env.Navigate("/");
    case TokenRemovalFails =>
      Recover(env);
    case UserRemovalFails =>
      env.RemoveItem("token");
      Recover(env);
    case ToastFails =>
      env.RemoveItem("token");
      env.RemoveItem("user");
      Recover(env);
    case NavigationFails =>
      env.RemoveItem("token");
      env.RemoveItem("user");
      env.Show(LogoutSuccess);
      Recover(env);
  }

  /** Logout's catch block: remove both keys again and go home. */
  method Recover(env: Env)
    modifies env
    ensures env.storage == old(env.storage) - {"token", "user"}
    ensures env.effects == old(env.effects) + [Removed("token"), Removed("user"), Navigated("/")]
  {
    env.RemoveItem("token");
    env.RemoveItem("user");
    env.Navigate("/");
  }

  /** `getProfile()`: one bare GET, no toast, no storage change; it settles as the transport does. */
  method GetProfile(env: Env, outcome: AxiosOutcome) returns (c: Completion)
    modifies env
    ensures env.storage == old(env.storage)
    ensures env.effects == old(env.effects) + [Sent(ProfileRequest())]
    ensures c == Settle(outcome)
  {
    c := Call(env, GET, ProfileApi(), Undefined, Undefined, Undefined, outcome);
  }

  /** The storage login leaves behind: the token as text (`setItem` converts it with
      `String`) and the user record; every other key is kept. */
  function SignedIn(storage: map<string, Value>, token: Value, user: Value): (s: map<string, Value>)
    ensures s.Keys == storage.Keys + {"token", "user"}
    ensures s["token"] == Str(TemplateText(token)) && s["user"] == user
    ensures forall k :: k in storage && k != "token" && k != "user" ==> s[k] == storage[k]
  {
    storage["token" := Str(TemplateText(token))]["user" := user]
  }

  /** The storage logout leaves behind: both session keys gone, every other key kept. */
  function SignedOut(storage: map<string, Value>): (s: map<string, Value>)
    ensures "token" !in s && "user" !in s
    ensures forall k :: k in storage && k != "token" && k != "user" ==> k in s && s[k] == storage[k]
  {
    storage - {"token", "user"}
  }

  /** Logging out twice leaves the same storage as logging out once. */
  lemma SignedOutIdempotent(storage: map<string, Value>)
    ensures SignedOut(SignedOut(storage)) == SignedOut(storage)
  {
  }

  /** A thrown TypeError carries no response, so login's catch shows the fallback text. */
  lemma TypeErrorShowsLoginFallback()
    ensures CaughtMessage(TypeErrorValue, LoginErrorDefault) == Str(LoginErrorDefault)
  {
  }
}
