/** The signup page (src/pages/Signup.jsx): a four-field form whose role defaults to
    "member", its validator and the submit handler around the signup operation. */
module SignupPage {
  import opened JsValue
  import opened Http
  import opened Browser
  import opened ApiConnector
  import opened AuthApi
  import opened Validation

  class Page {
    const env: Env
    var formData: map<string, string>
    var isLoading: bool

    /** The three fields the validator reads are present. */
    predicate Valid()
      reads this
    {
      "name" in formData && "email" in formData && "password" in formData
    }

    constructor (env: Env)
      ensures this.env == env && Valid()
      ensures formData == map["name" := "", "email" := "", "password" := "", "role" := "member"]
      ensures !isLoading
    {
      this.env := env;
      formData := map["name" := "", "email" := "", "password" := "", "role" := "member"];
      isLoading := false;
    }

    /** `handleChange`: replaces the named field and keeps the others. */
    method HandleChange(name: string, value: string)
      modifies this
      ensures formData == old(formData)[name := value] && isLoading == old(isLoading)
      ensures old(Valid()) ==> Valid()
    {
      formData := formData[name := value];
    }

    /** `validateForm`: reports the first failing rule with its toast; the role is never
        looked at. */
    method ValidateForm() returns (ok: bool)
      requires Valid()
      modifies env
      ensures var p := SignupProblem(formData["name"], formData["email"], formData["password"]);
        ok == p.None?
        && env.effects == old(env.effects) + (if ok then [] else [Shown(ProblemToast(p.value))])
      ensures env.storage == old(env.storage)
    {
      var p := SignupProblem(formData["name"], formData["email"], formData["password"]);
      ok := p.None?;
      if !ok {
        env.Show(ProblemToast(p.value));
      }
    }

    /** `handleSubmit`: an invalid form never reaches signup; a valid one runs it with
        `isLoading` raised and lowers the flag afterwards. Storage is never touched. */
    method HandleSubmit(outcome: AxiosOutcome) returns (ghost loadingDuringCall: bool)
      requires Valid()
      modifies this, env
      ensures formData == old(formData) && Valid()
      ensures env.storage == old(env.storage)
      ensures var p := SignupProblem(formData["name"], formData["email"], formData["password"]);
        if p.Some? then
          env.effects == old(env.effects) + [Shown(ProblemToast(p.value))]
          && isLoading == old(isLoading) && !loadingDuringCall
        else
          env.effects == old(env.effects) + SignupEffects(TextObject(formData), Settle(outcome))
          && !isLoading && loadingDuringCall
    {
      var ok := ValidateForm();
      if !ok {
        loadingDuringCall := false;
        return;
      }
      isLoading := true;
      loadingDuringCall := isLoading;
      Signup(env, TextObject(formData), outcome);
      isLoading := false;
    }
  }
}
