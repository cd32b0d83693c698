/** The form validators of the login, signup, create-club and edit-club pages: each is a
    fixed-order list of rules, and only the first rule that fails is reported. */
module Validation {
  import opened JsValue
  import opened Toasts

  /** The reason a form is refused; each has exactly one toast. */
  datatype Problem = MissingFields | BadEmail | ShortPassword | ShortName | BadInput(field: string)

  function ProblemToast(p: Problem): (t: Toast)
    ensures t.kind == Error
  {
    match p
    case MissingFields => RequiredFields
    case BadEmail => InvalidEmail
    case ShortPassword => PasswordTooShort
    case ShortName => NameTooShort
    case BadInput(field) => InvalidInput(field)
  }

  /** One rule: whether it holds, and what is reported when it does not. */
  datatype Rule = Rule(holds: bool, problem: Problem)

  /** The problem of the first failing rule, none when every rule holds. */
  function FirstFailure(rules: seq<Rule>): (r: Option<Problem>)
    ensures r.None? <==> forall i :: 0 <= i < |rules| ==> rules[i].holds
    ensures forall i :: 0 <= i < |rules| && !rules[i].holds && (forall j :: 0 <= j < i ==> rules[j].holds)
                        ==> r == Some(rules[i].problem)
  {
    if rules == [] then None
    else if !rules[0].holds then Some(rules[0].problem)
    else
      assert forall i :: 1 <= i < |rules| ==> rules[i] == rules[1..][i - 1];
      FirstFailure(rules[1..])
  }

  /** `s.includes("@")` */
  predicate HasAt(s: string) {
    '@' in s
  }

  /** Login's rules: both fields given, then an `@` in the email, then six UTF-16 code units
      of password. Nothing is trimmed. */
  function LoginRules(email: string, password: string): seq<Rule> {
    [Rule(email != "" && password != "", MissingFields),
     Rule(HasAt(email), BadEmail),
     Rule(Utf16Length(password) >= 6, ShortPassword)]
  }

  /** `validateForm` of the login page. */
  function LoginProblem(email: string, password: string): (p: Option<Problem>)
    ensures p == FirstFailure(LoginRules(email, password))
    ensures p.None? <==> email != "" && password != "" && HasAt(email) && Utf16Length(password) >= 6
  {
    if email == "" || password == "" then Some(MissingFields)
    else if !HasAt(email) then Some(BadEmail)
    else if Utf16Length(password) < 6 then
      assert LoginRules(email, password)[2].problem == ShortPassword;
      Some(ShortPassword)
    else None
  }

  /** Signup's rules: all three fields given (untrimmed), then a name of at least two
      UTF-16 code units once trimmed, then the email and password rules of login. The role is not
      checked. */
  function SignupRules(name: string, email: string, password: string): seq<Rule> {
    [Rule(name != "" && email != "" && password != "", MissingFields),
     Rule(Utf16Length(Trim(name)) >= 2, ShortName),
     Rule(HasAt(email), BadEmail),
     Rule(Utf16Length(password) >= 6, ShortPassword)]
  }

  /** `validateForm` of the signup page. */
  function SignupProblem(name: string, email: string, password: string): (p: Option<Problem>)
    ensures p == FirstFailure(SignupRules(name, email, password))
    ensures p.None? <==> name != "" && email != "" && password != "" && Utf16Length(Trim(name)) >= 2
                         && HasAt(email) && Utf16Length(password) >= 6
  {
    if name == "" || email == "" || password == "" then Some(MissingFields)
    else if Utf16Length(Trim(name)) < 2 then Some(ShortName)
    else if !HasAt(email) then
      assert SignupRules(name, email, password)[2].problem == BadEmail;
      Some(BadEmail)
    else if Utf16Length(password) < 6 then
      assert SignupRules(name, email, password)[3].problem == ShortPassword;
      Some(ShortPassword)
    else None
  }

  const ClubNameLabel := "club name (minimum 3 characters)"
  const DescriptionLabel := "description (minimum 10 characters)"

  /** The club form's rules, shared by the create and edit pages: a name and a description
      given once trimmed and of at least 3 and 10 UTF-16 code units once trimmed, then some
      category. The category is not checked against the list the form offers. */
  function ClubRules(name: string, description: string, category: string): seq<Rule> {
    [Rule(Trim(name) != "", MissingFields),
     Rule(Utf16Length(Trim(name)) >= 3, BadInput(ClubNameLabel)),
     Rule(Trim(description) != "", MissingFields),
     Rule(Utf16Length(Trim(description)) >= 10, BadInput(DescriptionLabel)),
     Rule(category != "", MissingFields)]
  }

  /** `validateForm` of the create-club and edit-club pages. */
  function ClubProblem(name: string, description: string, category: string): (p: Option<Problem>)
    ensures p == FirstFailure(ClubRules(name, description, category))
    ensures p.None? <==> Utf16Length(Trim(name)) >= 3 && Utf16Length(Trim(description)) >= 10 && category != ""
  {
    if Trim(name) == "" then Some(MissingFields)
    else if Utf16Length(Trim(name)) < 3 then Some(BadInput(ClubNameLabel))
    else if Trim(description) == "" then
      assert ClubRules(name, description, category)[2].problem == MissingFields;
      Some(MissingFields)
    else if Utf16Length(Trim(description)) < 10 then
      assert ClubRules(name, description, category)[3].problem == BadInput(DescriptionLabel);
      Some(BadInput(DescriptionLabel))
    else if category == "" then
      assert ClubRules(name, description, category)[4].problem == MissingFields;
      Some(MissingFields)
    else None
  }

  /** Login does not trim: six spaces are an acceptable password. */
  lemma SpacePasswordAccepted(email: string)
    requires HasAt(email)
    ensures LoginProblem(email, "      ") == None
  {
  }

  /** The password rule counts UTF-16 code units: three emoji are six units long and pass,
      while three characters of the Basic Multilingual Plane do not. */
  lemma AstralPasswordAccepted(email: string)
    requires HasAt(email)
    ensures |"\U{1F600}\U{1F600}\U{1F600}"| == 3
    ensures LoginProblem(email, "\U{1F600}\U{1F600}\U{1F600}") == None
    ensures LoginProblem(email, "abc") == Some(ShortPassword)
  {
    var emoji := "\U{1F600}\U{1F600}\U{1F600}";
    assert forall i :: 0 <= i < |emoji| ==> IsAstral(emoji[i]);
  }

  /** A signup name of white space only is present, so it passes the first rule and is
      refused as too short. */
  lemma BlankNameTooShort(name: string, email: string, password: string)
    requires name != "" && email != "" && password != ""
    requires forall i :: 0 <= i < |name| ==> IsWhiteSpace(name[i])
    ensures SignupProblem(name, email, password) == Some(ShortName)
  {
    TrimEmptyIffBlank(name);
  }

  /** A club name of white space only is reported as a missing field, before its length. */
  lemma BlankClubNameMissing(name: string, description: string, category: string)
    requires forall i :: 0 <= i < |name| ==> IsWhiteSpace(name[i])
    ensures ClubProblem(name, description, category) == Some(MissingFields)
  {
    TrimEmptyIffBlank(name);
  }

  /** Any non-empty category passes, listed or not. */
  lemma AnyCategoryAccepted(name: string, description: string, category: string)
    requires Utf16Length(Trim(name)) >= 3 && Utf16Length(Trim(description)) >= 10 && category != ""
    ensures ClubProblem(name, description, category) == None
  {
  }

  /** Padding a valid club name with spaces does not change the verdict. */
  lemma PaddedClubNameSame(name: string, description: string, category: string)
    requires name != [] ==> !IsWhiteSpace(name[0]) && !IsWhiteSpace(name[|name| - 1])
    ensures ClubProblem(" " + name + " ", description, category) == ClubProblem(name, description, category)
  {
    TrimUnpadded(name);
    TrimPadded(name);
  }

  /** Trimming removes one surrounding space on each side of an unpadded text. */
  lemma TrimPadded(s: string)
    requires s != [] ==> !IsWhiteSpace(s[0]) && !IsWhiteSpace(s[|s| - 1])
    ensures Trim(" " + s + " ") == s
  {
    var p := " " + s + " ";
    if s == [] {
      TrimEmptyIffBlank(p);
    } else {
      assert p[1..] == s + " ";
      assert LeadingSpace(p) == 1 + LeadingSpace(s + " ");
      assert (s + " ")[0] == s[0];
      assert LeadingSpace(p) == 1;
      var rest := p[1..];
      assert rest[..|rest| - 1] == s;
      assert TrailingSpace(rest) == 1 + TrailingSpace(s);
      assert TrailingSpace(s) == 0;
    }
  }
}
