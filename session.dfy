/** The page gates that read the stored session on mount: the member pages want a token and a
    user, the admin pages want a user whose role is "admin" and never look at the token. */
module Session {
  import opened JsValue
  import opened Toasts
  import opened Browser
  import opened AuthApi

  /** What a gate decides: let the page load, redirect with a toast, or throw while reading
      the stored user (which aborts the page's effect with no toast and no navigation). */
  datatype Gate = Pass | ToLogin | ToClubs | Throws

  /** `localStorage.getItem("token")` is truthy. */
  predicate HasToken(storage: map<string, Value>) {
    Truthy(Item(storage, "token"))
  }

  /** `JSON.parse(localStorage.getItem("user"))` on a stored user: the serialised text of
      `undefined` does not parse. Any stored user text is non-empty, so truthy. */
  function ParsedUser(storage: map<string, Value>): (u: Option<Value>)
    requires "user" in storage
    ensures u.None? <==> storage["user"] == Undefined
    ensures u.Some? ==> u.value == storage["user"]
  {
    if storage["user"].Undefined? then None else Some(storage["user"])
  }

  /** The gate of the club list and club details pages. */
  function SessionGate(storage: map<string, Value>): (g: Gate)
    ensures g == ToLogin <==> !HasToken(storage) || "user" !in storage
    ensures g == Pass <==> HasToken(storage) && "user" in storage && storage["user"] != Undefined
    ensures g != ToClubs
  {
    if !HasToken(storage) || "user" !in storage then ToLogin
    else if ParsedUser(storage).None? then Throws
    else Pass
  }

  /** The gate of the create-club and edit-club pages: `user.role !== "admin"` sends a
      signed-in non-admin to the club list, and throws on a stored null. */
  function AdminGate(storage: map<string, Value>): (g: Gate)
    ensures g == ToLogin <==> "user" !in storage
    ensures g == Pass <==> "user" in storage && StrictEq(Get(storage["user"], "role"), Str("admin"))
    ensures g == Throws <==> "user" in storage && AccessThrows(storage["user"])
  {
    if "user" !in storage then ToLogin
    else
      var user := ParsedUser(storage);
      if user.None? || user.value.Null? then Throws
      else if !StrictEq(Get(user.value, "role"), Str("admin")) then ToClubs
      else Pass
  }

  /** What a gate shows and where it goes. */
  function GateEffects(g: Gate): seq<Effect> {
    match g
    case ToLogin => [Shown(LoginRequired), Navigated("/login")]
    case ToClubs => [Shown(AdminRequired), Navigated("/clubs")]
    case _ => []
  }

  /** The admin gate does not depend on the token: it decides the same with any token or none. */
  lemma AdminGateIgnoresToken(storage: map<string, Value>, token: Value)
    ensures AdminGate(storage["token" := token]) == AdminGate(storage)
    ensures AdminGate(storage - {"token"}) == AdminGate(storage)
  {
    assert "user" in storage["token" := token] <==> "user" in storage;
    assert "user" in storage - {"token"} <==> "user" in storage;
  }

  /** After a successful login every gate on the landing page lets the user in: an admin
      passes the admin gate, and anyone whose token has non-empty text passes the member
      gate. */
  lemma LandingPageAdmits(storage: map<string, Value>, token: Value, user: Value)
    requires !AccessThrows(user)
    ensures LandingPath(user) == "/admin/dashboard" ==> AdminGate(SignedIn(storage, token, user)) == Pass
    ensures TemplateText(token) != "" ==> SessionGate(SignedIn(storage, token, user)) == Pass
  {
    var s := SignedIn(storage, token, user);
    assert Item(s, "token") == Str(TemplateText(token));
  }

  /** After logout every gate sends the user to the login page. */
  lemma SignedOutGates(storage: map<string, Value>)
    ensures SessionGate(SignedOut(storage)) == ToLogin
    ensures AdminGate(SignedOut(storage)) == ToLogin
  {
  }

  /** The admin gate is stricter than the member gate on the user: whenever it lets someone
      in, the member gate does not throw on the same user. */
  lemma AdminPassParses(storage: map<string, Value>)
    requires AdminGate(storage) == Pass
    ensures "user" in storage && ParsedUser(storage).Some?
    ensures SessionGate(storage) == Pass || !HasToken(storage)
  {
  }
}
