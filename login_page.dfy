/** The login page (src/pages/Login.jsx): a two-field form, its validator and the submit
    handler that brackets the login operation with the `isLoading` flag. */
module LoginPage {
  import opened JsValue
  import opened Http
  import opened Browser
  import opened ApiConnector
  import opened AuthApi
  import opened Validation

  class Page {
    const env: Env
    var formData: map<string, string>
    var isLoading: bool

    /** Both fields the validator reads are present. */
    predicate Valid()
      reads this
    {
      "email" in formData && "password" in formData
    }

    constructor (env: Env)
      ensures this.env == env && Valid()
      ensures formData == map["email" := "", "password" := ""] && !isLoading
    {
      this.env := env;
      formData := map["email" := "", "password" := ""];
      isLoading := false;
    }

    /** `handleChange`: replaces the named field and keeps the others. */
    method HandleChange(name: string, value: string)
      modifies this
      ensures formData == old(formData)[name := value] && isLoading == old(isLoading)
      ensures old(Valid()) ==> Valid()
    {
      formData := formData[name := value];
    }

    /** `validateForm`: reports the first failing rule with its toast. */
    method ValidateForm() returns (ok: bool)
      requires Valid()
      modifies env
      ensures var p := LoginProblem(formData["email"], formData["password"]);
        ok == p.None?
        && env.effects == old(env.effects) + (if ok then [] else [Shown(ProblemToast(p.value))])
      ensures env.storage == old(env.storage)
    {
      var p := LoginProblem(formData["email"], formData["password"]);
      ok := p.None?;
      if !ok {
        env.Show(ProblemToast(p.value));
      }
    }

    /** `handleSubmit`: an invalid form stops after its toast, before `isLoading` changes and
        before login runs; a valid one runs login with `isLoading` raised (as
        `loadingDuringCall` records) and lowered again whatever login does. */
    method HandleSubmit(outcome: AxiosOutcome) returns (ghost loadingDuringCall: bool)
      requires Valid()
      modifies this, env
      ensures formData == old(formData) && Valid()
      ensures var p := LoginProblem(formData["email"], formData["password"]);
        if p.Some? then
          env.storage == old(env.storage)
          && env.effects == old(env.effects) + [Shown(ProblemToast(p.value))]
          && isLoading == old(isLoading) && !loadingDuringCall
        else
          env.storage == LoginStorage(old(env.storage), Settle(outcome))
          && env.effects == old(env.effects) + LoginEffects(TextObject(formData), Settle(outcome))
          && !isLoading && loadingDuringCall
    {
      var ok := ValidateForm();
      if !ok {
        loadingDuringCall := false;
        return;
      }
      assert env.effects == old(env.effects);
      loadingDuringCall := Submit(outcome);
    }

    /** The valid branch of `handleSubmit`: login runs with `isLoading` raised. */
    method Submit(outcome: AxiosOutcome) returns (ghost loadingDuringCall: bool)
      modifies this, env
      ensures formData == old(formData) && !isLoading && loadingDuringCall
      ensures env.storage == LoginStorage(old(env.storage), Settle(outcome))
      ensures env.effects == old(env.effects) + LoginEffects(TextObject(formData), Settle(outcome))
    {
      isLoading := true;
      loadingDuringCall := isLoading;
      Login(env, TextObject(formData), outcome);
      isLoading := false;
    }
  }
}
