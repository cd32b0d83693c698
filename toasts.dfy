/** The client's notification vocabulary (src/utils/toastMessages.js): every helper produces
    exactly one toast, of a fixed kind, whose text is fixed, taken from the caller with a
    fixed fallback, or built from a template. */
module Toasts {
  import opened JsValue

  /** `toast.success`, `toast.error`, `toast.loading`, or plain `toast` with an icon. */
  datatype Kind = Success | Error | Loading | Plain(icon: string)

  datatype Toast = Toast(kind: Kind, text: Value)

  /** Fallback texts of the helpers that take a message. */
  const SignupErrorDefault := "Signup failed. Please try again."
  const LoginErrorDefault := "Login failed. Please check your credentials."
  const CreateErrorDefault := "Failed to create club. Please try again."
  const UpdateErrorDefault := "Failed to update club. Please try again."
  const DeleteErrorDefault := "Failed to delete club. Please try again."
  const JoinErrorDefault := "Failed to join club. Please try again."
  const LeaveErrorDefault := "Failed to leave club. Please try again."
  const LoadingDefault := "Loading..."

  /** An error toast that shows `message` when it is truthy and `fallback` otherwise;
      with a non-empty fallback the shown text is never empty. */
  function ErrorOr(message: Value, fallback: string): (t: Toast)
    ensures t.kind == Error
    ensures Truthy(message) ==> t.text == message
    ensures !Truthy(message) ==> t.text == Str(fallback)
    ensures fallback != "" ==> Truthy(t.text)
  {
    Toast(Error, Or(message, Str(fallback)))
  }

  // authToasts
  const SignupSuccess := Toast(Success, Str("Account created successfully! Please login."))
  function SignupError(message: Value): Toast { ErrorOr(message, SignupErrorDefault) }
  const LoginSuccess := Toast(Success, Str("Login successful! Welcome back!"))
  function LoginError(message: Value): Toast { ErrorOr(message, LoginErrorDefault) }
  const LogoutSuccess := Toast(Success, Str("Logged out successfully!"))
  const SessionExpired := Toast(Error, Str("Session expired. Please login again."))

  // clubToasts
  const CreateSuccess := Toast(Success, Str("Club created successfully!"))
  function CreateError(message: Value): Toast { ErrorOr(message, CreateErrorDefault) }
  const UpdateSuccess := Toast(Success, Str("Club updated successfully!"))
  function UpdateError(message: Value): Toast { ErrorOr(message, UpdateErrorDefault) }
  const DeleteSuccess := Toast(Success, Str("Club deleted successfully!"))
  function DeleteError(message: Value): Toast { ErrorOr(message, DeleteErrorDefault) }
  const JoinSuccess := Toast(Success, Str("Successfully joined the club!"))
  function JoinError(message: Value): Toast { ErrorOr(message, JoinErrorDefault) }
  const LeaveSuccess := Toast(Success, Str("Successfully left the club!"))
  function LeaveError(message: Value): Toast { ErrorOr(message, LeaveErrorDefault) }

  /** `fetchError(type)`: the template "Failed to fetch <type>. Please try again.". */
  function FetchError(kind: string): (t: Toast)
    ensures t.kind == Error && t.text.Str?
    ensures |t.text.s| == 16 + |kind| + 19
    ensures t.text.s[..16] == "Failed to fetch " && t.text.s[16..16 + |kind|] == kind
    ensures t.text.s[16 + |kind|..] == ". Please try again."
  {
    Toast(Error, Str("Failed to fetch " + kind + ". Please try again."))
  }

  // validationToasts
  const RequiredFields := Toast(Error, Str("Please fill in all required fields"))
  const InvalidEmail := Toast(Error, Str("Please enter a valid email address"))
  const PasswordTooShort := Toast(Error, Str("Password must be at least 6 characters long"))
  const NameTooShort := Toast(Error, Str("Name must be at least 2 characters long"))

  /** `invalidInput(field)`: the template "Please enter a valid <field>". */
  function InvalidInput(field: string): (t: Toast)
    ensures t.kind == Error && t.text.Str?
    ensures |t.text.s| == 21 + |field|
    ensures t.text.s[..21] == "Please enter a valid " && t.text.s[21..] == field
  {
    Toast(Error, Str("Please enter a valid " + field))
  }

  // generalToasts
  /** `generalToasts.loading(message)`: a loading toast, "Loading..." when no message is given. */
  function LoadingToast(message: Value): (t: Toast)
    ensures t.kind == Loading
    ensures Truthy(message) ==> t.text == message
    ensures !Truthy(message) ==> t.text == Str(LoadingDefault)
  {
    Toast(Loading, Or(message, Str(LoadingDefault)))
  }
  function SuccessToast(message: Value): Toast { Toast(Success, message) }
  function ErrorToast(message: Value): Toast { Toast(Error, message) }
  function InfoToast(message: Value): Toast { Toast(Plain("\U{2139}\U{FE0F}"), message) }
  function WarningToast(message: Value): Toast { Toast(Plain("\U{26A0}\U{FE0F}"), message) }

  // networkToasts
  const ConnectionError := Toast(Error, Str("Connection error. Please check your internet connection."))
  const ServerError := Toast(Error, Str("Server error. Please try again later."))
  const TimeoutError := Toast(Error, Str("Request timeout. Please try again."))

  // permissionToasts
  const Unauthorized := Toast(Error, Str("You are not authorized to perform this action."))
  const AdminRequired := Toast(Error, Str("Admin privileges required for this action."))
  const LoginRequired := Toast(Error, Str("Please login to perform this action."))

  /** Different fetch labels give different toasts, so the four read operations of the club
      service are told apart by their error toast alone. */
  lemma FetchErrorInjective(a: string, b: string)
    requires FetchError(a) == FetchError(b)
    ensures a == b
  {
    var ta, tb := FetchError(a).text.s, FetchError(b).text.s;
    assert |a| == |ta| - 35 == |tb| - 35 == |b|;
    assert a == ta[16..16 + |a|] == tb[16..16 + |b|] == b;
  }

  /** An empty-string message is falsy, so every message-taking error helper falls back to
      its default text for it. */
  lemma EmptyMessageGivesDefault()
    ensures SignupError(Str("")).text == Str(SignupErrorDefault)
    ensures LoginError(Str("")).text == Str(LoginErrorDefault)
    ensures CreateError(Str("")).text == Str(CreateErrorDefault)
    ensures UpdateError(Str("")).text == Str(UpdateErrorDefault)
    ensures DeleteError(Str("")).text == Str(DeleteErrorDefault)
    ensures JoinError(Str("")).text == Str(JoinErrorDefault)
    ensures LeaveError(Str("")).text == Str(LeaveErrorDefault)
  {
  }

  /** The club-name length rule's label yields the message quoted for a two-letter club name. */
  lemma ShortClubNameMessage()
    ensures InvalidInput("club name (minimum 3 characters)").text
         == Str("Please enter a valid club name (minimum 3 characters)")
  {
    assert "Please enter a valid " + "club name (minimum 3 characters)"
        == "Please enter a valid club name (minimum 3 characters)";
  }
}
