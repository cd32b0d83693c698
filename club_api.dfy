/** The club service (src/services/operations/clubAPI.js): nine operations, each one request
    carrying the caller's token as a Bearer credential. The four reads are silent unless
    they fail; the five changes show a loading toast and then one success or error toast.
    Every operation settles exactly as the transport does, re-throwing what it caught. */
module ClubApi {
  import opened JsValue
  import opened Http
  import opened Toasts
  import opened Browser
  import opened Endpoints
  import opened ApiConnector

  const MultipartContentType: Value := Str("multipart/form-data")

  /** `Bearer ${token}`: the credential text, built from whatever the caller holds (the
      stored token, or null when there is none). */
  function Bearer(token: Value): (h: Value)
    ensures h.Str? && |h.s| == 7 + |TemplateText(token)|
    ensures h.s[..7] == "Bearer " && h.s[7..] == TemplateText(token)
  {
    Str("Bearer " + TemplateText(token))
  }

  /** Different token texts give different credentials. */
  lemma BearerInjective(a: string, b: string)
    requires Bearer(Str(a)) == Bearer(Str(b))
    ensures a == b
  {
    PrefixCancels("Bearer ", a, b);
  }

  /** Without a stored token the operations still send a credential: the text "Bearer null". */
  lemma BearerWithoutToken()
    ensures Bearer(Null) == Str("Bearer null")
  {
  }

  /** The nine operations with their arguments (the token is passed separately). */
  datatype Operation =
    | Create(formData: Value)
    | AllClubs
    | MyClubs
    | Members(clubId: string)
    | ById(clubId: string)
    | Join(clubId: string)
    | Leave(clubId: string)
    | Update(clubId: string, updateData: Value)
    | Delete(clubId: string)

  /** The reads show no loading or success toast. */
  predicate IsRead(op: Operation) {
    op.AllClubs? || op.MyClubs? || op.Members? || op.ById?
  }

  function Verb(op: Operation): HttpMethod {
    match op
    case Create(_) => POST
    case Join(_) => POST
    case Leave(_) => POST
    case Update(_, _) => PUT
    case Delete(_) => DELETE
    case _ => GET
  }

  function Url(op: Operation): string {
    match op
    case Create(_) => CreateClubApi()
    case AllClubs => GetAllClubsApi()
    case MyClubs => GetMyClubsApi()
    case Members(id) => GetClubMembersApi(id)
    case ById(id) => GetClubByIdApi(id)
    case Join(id) => JoinClubApi(id)
    case Leave(id) => LeaveClubApi(id)
    case Update(id, _) => UpdateClubApi(id)
    case Delete(id) => DeleteClubApi(id)
  }

  /** The body argument: the form for create and update, an explicit null for the reads and
      an empty object for join, leave and delete. */
  function Body(op: Operation): Value {
    match op
    case Create(formData) => formData
    case Update(_, updateData) => updateData
    case Join(_) => EmptyObject
    case Leave(_) => EmptyObject
    case Delete(_) => EmptyObject
    case _ => Null
  }

  /** The headers argument: the credential, plus a multipart content type for the two
      operations that upload a form. */
  function Headers(op: Operation, token: Value): Value {
    if op.Create? || op.Update? then
      Obj(map["Authorization" := Bearer(token), "Content-Type" := MultipartContentType])
    else
      Obj(map["Authorization" := Bearer(token)])
  }

  /** The request an operation hands to the transport; it never passes query parameters. */
  function OperationRequest(op: Operation, token: Value): Request {
    BuildRequest(Verb(op), Url(op), Body(op), Headers(op, token), Undefined)
  }

  function FetchLabel(op: Operation): string
    requires IsRead(op)
  {
    match op
    case AllClubs => "clubs"
    case MyClubs => "your clubs"
    case Members(_) => "club members"
    case ById(_) => "club"
  }

  function LoadingText(op: Operation): string
    requires !IsRead(op)
  {
    match op
    case Create(_) => "Creating club..."
    case Join(_) => "Joining club..."
    case Leave(_) => "Leaving club..."
    case Update(_, _) => "Updating club..."
    case Delete(_) => "Deleting club..."
  }

  function SuccessOf(op: Operation): Toast
    requires !IsRead(op)
  {
    match op
    case Create(_) => CreateSuccess
    case Join(_) => JoinSuccess
    case Leave(_) => LeaveSuccess
    case Update(_, _) => UpdateSuccess
    case Delete(_) => DeleteSuccess
  }

  /** The fallback text each change shows when the caught value carries no message. */
  function ErrorDefault(op: Operation): string
    requires !IsRead(op)
  {
    match op
    case Create(_) => CreateErrorDefault
    case Join(_) => JoinErrorDefault
    case Leave(_) => LeaveErrorDefault
    case Update(_, _) => UpdateErrorDefault
    case Delete(_) => DeleteErrorDefault
  }

  function FailureOf(op: Operation, caught: Value): Toast
    requires !IsRead(op)
  {
    var message := CaughtMessage(caught, ErrorDefault(op));
    match op
    case Create(_) => CreateError(message)
    case Join(_) => JoinError(message)
    case Leave(_) => LeaveError(message)
    case Update(_, _) => UpdateError(message)
    case Delete(_) => DeleteError(message)
  }

  /** What an operation does, given how its call settled. */
  function OperationEffects(op: Operation, token: Value, c: Completion): seq<Effect> {
    var sent := Sent(OperationRequest(op, token));
    if IsRead(op) then
      [sent] + (if c.Rejected? then [Shown(FetchError(FetchLabel(op)))] else [])
    else
      [Shown(LoadingToast(Str(LoadingText(op)))), sent,
       Shown(if c.Resolved? then SuccessOf(op) else FailureOf(op, c.thrown))]
  }

  /** How a page's `try` around an awaited read ends: it throws when the read rejects, and
      also when the read returns null or undefined, because the page then reads a field of
      the response with a plain `.`. */
  predicate ReadFails(c: Completion) {
    c.Rejected? || AccessThrows(c.value)
  }

  /** The shared shape of the nine operations: the loading toast of a change, the call, then
      the outcome's toast; the completion is the transport's own, so a failure re-throws the
      value the transport threw. */
  method Perform(env: Env, op: Operation, token: Value, outcome: AxiosOutcome) returns (c: Completion)
    modifies env
    ensures env.storage == old(env.storage)
    ensures env.effects == old(env.effects) + OperationEffects(op, token, c)
    ensures c == Settle(outcome)
  {
    if !IsRead(op) {
      env.Show(LoadingToast(Str(LoadingText(op))));
    }
    c := Call(env, Verb(op), Url(op), Body(op), Headers(op, token), Undefined, outcome);
    if c.Resolved? {
      if !IsRead(op) {
        env.Show(SuccessOf(op));
      }
    } else if IsRead(op) {
      env.Show(FetchError(FetchLabel(op)));
    } else {
      env.Show(FailureOf(op, c.thrown));
    }
  }

  method CreateClub(env: Env, formData: Value, token: Value, outcome: AxiosOutcome) returns (c: Completion)
    modifies env
    ensures env.storage == old(env.storage)
    ensures env.effects == old(env.effects) + OperationEffects(Create(formData), token, c)
    ensures c == Settle(outcome)
  {
    c := Perform(env, Create(formData), token, outcome);
  }

  method GetAllClubs(env: Env, token: Value, outcome: AxiosOutcome) returns (c: Completion)
    modifies env
    ensures env.storage == old(env.storage)
    ensures env.effects == old(env.effects) + OperationEffects(AllClubs, token, c)
    ensures c == Settle(outcome)
  {
    c := Perform(env, AllClubs, token, outcome);
  }

  method GetMyClubs(env: Env, token: Value, outcome: AxiosOutcome) returns (c: Completion)
    modifies env
    ensures env.storage == old(env.storage)
    ensures env.effects == old(env.effects) + OperationEffects(MyClubs, token, c)
    ensures c == Settle(outcome)
  {
    c := Perform(env, MyClubs, token, outcome);
  }

  method GetClubMembers(env: Env, clubId: string, token: Value, outcome: AxiosOutcome) returns (c: Completion)
    modifies env
    ensures env.storage == old(env.storage)
    ensures env.effects == old(env.effects) + OperationEffects(Members(clubId), token, c)
    ensures c == Settle(outcome)
  {
    c := Perform(env, Members(clubId), token, outcome);
  }

  method GetClubById(env: Env, clubId: string, token: Value, outcome: AxiosOutcome) returns (c: Completion)
    modifies env
    ensures env.storage == old(env.storage)
    ensures env.effects == old(env.effects) + OperationEffects(ById(clubId), token, c)
    ensures c == Settle(outcome)
  {
    c := Perform(env, ById(clubId), token, outcome);
  }

  method JoinClub(env: Env, clubId: string, token: Value, outcome: AxiosOutcome) returns (c: Completion)
    modifies env
    ensures env.storage == old(env.storage)
    ensures env.effects == old(env.effects) + OperationEffects(Join(clubId), token, c)
    ensures c == Settle(outcome)
  {
    c := Perform(env, Join(clubId), token, outcome);
  }

  method LeaveClub(env: Env, clubId: string, token: Value, outcome: AxiosOutcome) returns (c: Completion)
    modifies env
    ensures env.storage == old(env.storage)
    ensures env.effects == old(env.effects) + OperationEffects(Leave(clubId), token, c)
    ensures c == Settle(outcome)
  {
    c := Perform(env, Leave(clubId), token, outcome);
  }

  method UpdateClub(env: Env, clubId: string, updateData: Value, token: Value, outcome: AxiosOutcome)
    returns (c: Completion)
    modifies env
    ensures env.storage == old(env.storage)
    ensures env.effects == old(env.effects) + OperationEffects(Update(clubId, updateData), token, c)
    ensures c == Settle(outcome)
  {
    c := Perform(env, Update(clubId, updateData), token, outcome);
  }

  method DeleteClub(env: Env, clubId: string, token: Value, outcome: AxiosOutcome) returns (c: Completion)
    modifies env
    ensures env.storage == old(env.storage)
    ensures env.effects == old(env.effects) + OperationEffects(Delete(clubId), token, c)
    ensures c == Settle(outcome)
  {
    c := Perform(env, Delete(clubId), token, outcome);
  }

  /** Every request carries exactly the caller's token as a Bearer credential, sends
      credentials, and uses multipart encoding exactly for create and update. */
  lemma RequestHeaders(op: Operation, token: Value)
    ensures var r := OperationRequest(op, token);
      && r.withCredentials
      && r.headers.Keys == {"Authorization", "Content-Type"}
      && r.headers["Authorization"] == Bearer(token)
      && r.headers["Content-Type"] == (if op.Create? || op.Update? then MultipartContentType else JsonContentType)
  {
    var h := Headers(op, token);
    assert Spread(h) == h.fields;
  }

  /** The method, URL and body of each operation. The reads forward an explicit null body;
      join, leave and delete send an empty object; delete addresses the same URL as the
      by-id read. */
  lemma RequestRoutes(op: Operation, token: Value)
    ensures var r := OperationRequest(op, token);
      match op
      case Create(formData) => r.verb == POST && r.url == CreateClubApi() && (formData != Undefined ==> r.data == formData)
      case AllClubs => r.verb == GET && r.url == GetAllClubsApi() && r.data == Null
      case MyClubs => r.verb == GET && r.url == GetMyClubsApi() && r.data == Null
      case Members(id) => r.verb == GET && r.url == GetClubMembersApi(id) && r.data == Null
      case ById(id) => r.verb == GET && r.url == GetClubByIdApi(id) && r.data == Null
      case Join(id) => r.verb == POST && r.url == JoinClubApi(id) && r.data == EmptyObject
      case Leave(id) => r.verb == POST && r.url == LeaveClubApi(id) && r.data == EmptyObject
      case Update(id, data) => r.verb == PUT && r.url == UpdateClubApi(id) && (data != Undefined ==> r.data == data)
      case Delete(id) => r.verb == DELETE && r.url == GetClubByIdApi(id) && r.data == EmptyObject
  {
  }

  /** A read shows nothing when it succeeds and exactly the fetch error with its own label
      when it fails. */
  lemma ReadToasts(op: Operation, token: Value, c: Completion)
    requires IsRead(op)
    ensures ShownToasts(OperationEffects(op, token, c))
         == (if c.Rejected? then [FetchError(FetchLabel(op))] else [])
  {
    var sent := [Sent(OperationRequest(op, token))];
    if c.Rejected? {
      ShownToastsAppend(sent, [Shown(FetchError(FetchLabel(op)))]);
    } else {
      assert OperationEffects(op, token, c) == sent + [];
    }
  }

  /** A change shows its loading toast and then exactly one more toast: its success toast
      when the call resolves, its error toast when it rejects. */
  lemma ChangeToasts(op: Operation, token: Value, c: Completion)
    requires !IsRead(op)
    ensures ShownToasts(OperationEffects(op, token, c))
         == [LoadingToast(Str(LoadingText(op))),
             if c.Resolved? then SuccessOf(op) else FailureOf(op, c.thrown)]
    ensures c.Resolved? ==> SuccessOf(op).kind == Success
    ensures c.Rejected? ==> FailureOf(op, c.thrown).kind == Error
  {
    var e := OperationEffects(op, token, c);
    ShownToastsAppend(e[..1], e[1..]);
    assert e == e[..1] + e[1..];
    ShownToastsAppend(e[1..2], e[2..]);
    assert e[1..] == e[1..2] + e[2..];
  }

  /** The four reads are told apart by their error toast alone. */
  lemma FetchErrorsDistinct(a: Operation, b: Operation)
    requires IsRead(a) && IsRead(b)
    requires FetchError(FetchLabel(a)) == FetchError(FetchLabel(b))
    ensures a.AllClubs? == b.AllClubs? && a.MyClubs? == b.MyClubs? && a.Members? == b.Members?
  {
    FetchErrorInjective(FetchLabel(a), FetchLabel(b));
  }

  /** A change whose request fails with the backend body `{message}` shows its fallback text,
      never the backend's message: the body is what the transport throws, and the change looks
      for the message under a `response.data` the body does not have. */
  lemma BackendMessageNotShown(op: Operation, token: Value, message: Value)
    requires !IsRead(op)
    ensures var body := Obj(map["message" := message]);
      var c := Settle(Failed(Obj(map["response" := Obj(map["data" := body])])));
      c == Rejected(body)
      && OperationEffects(op, token, c)[2] == Shown(Toast(Error, Str(ErrorDefault(op))))
  {
    var body := Obj(map["message" := message]);
    var error := Obj(map["response" := Obj(map["data" := body])]);
    BackendMessageLost(error, ErrorDefault(op));
    assert ResponseData(error) == body;
  }
}
