/** The create-club page (src/pages/admin/CreateClub.jsx): the admin gate run on mount, the
    club form with its optional image, and the submit handler around the create operation. */
module CreateClubPage {
  import opened JsValue
  import opened Http
  import opened Toasts
  import opened Browser
  import opened ApiConnector
  import opened ClubApi
  import opened Validation
  import opened Session
  import opened ClubForm

  class Page {
    const env: Env
    var formData: map<string, string>
    var imageFile: Value
    var isLoading: bool
    var previewUrl: string

    /** The three fields the validator reads are present. */
    predicate Valid()
      reads this
    {
      "name" in formData && "description" in formData && "category" in formData
    }

    constructor (env: Env)
      ensures this.env == env && Valid()
      ensures formData == map["name" := "", "description" := "", "category" := ""]
      ensures imageFile == Null && !isLoading && previewUrl == ""
    {
      this.env := env;
      formData := map["name" := "", "description" := "", "category" := ""];
      imageFile := Null;
      isLoading := false;
      previewUrl := "";
    }

    /** The mount effect: the admin gate, which reads the stored user and never the token. */
    method Mount()
      modifies env
      ensures env.storage == old(env.storage)
      ensures env.effects == old(env.effects) + GateEffects(AdminGate(old(env.storage)))
    {
      var gate := AdminGate(env.storage);
      if gate == ToLogin {
        env.Show(LoginRequired);
        env.Navigate("/login");
      } else if gate == ToClubs {
        env.Show(AdminRequired);
        env.Navigate("/clubs");
      }
    }

    /** `handleInputChange`: replaces the named field and keeps the others. */
    method HandleInputChange(name: string, value: string)
      modifies this
      ensures formData == old(formData)[name := value]
      ensures imageFile == old(imageFile) && isLoading == old(isLoading) && previewUrl == old(previewUrl)
      ensures old(Valid()) ==> Valid()
    {
      formData := formData[name := value];
    }

    /** `handleImageChange` with the first picked file (undefined when none) and the preview
        URL the browser would create for it: a missing file changes nothing. */
    method HandleImageChange(file: Value, objectUrl: string)
      modifies this
      ensures Truthy(file) ==> imageFile == file && previewUrl == objectUrl
      ensures !Truthy(file) ==> imageFile == old(imageFile) && previewUrl == old(previewUrl)
      ensures formData == old(formData) && isLoading == old(isLoading)
    {
      if Truthy(file) {
        imageFile := file;
        previewUrl := objectUrl;
      }
    }

    /** `validateForm`: reports the first failing rule with its toast. */
    method ValidateForm() returns (ok: bool)
      requires Valid()
      modifies env
      ensures var p := ClubProblem(formData["name"], formData["description"], formData["category"]);
        ok == p.None?
        && env.effects == old(env.effects) + (if ok then [] else [Shown(ProblemToast(p.value))])
      ensures env.storage == old(env.storage)
    {
      var p := ClubProblem(formData["name"], formData["description"], formData["category"]);
      ok := p.None?;
      if !ok {
        env.Show(ProblemToast(p.value));
      }
    }

    /** `handleSubmit`: an invalid form never reaches the service; a valid one submits the
        payload with the stored token and moves to the dashboard only when the creation
        resolves. `isLoading` is lowered on both outcomes. */
    method HandleSubmit(outcome: AxiosOutcome) returns (ghost loadingDuringCall: bool)
      requires Valid()
      modifies this, env
      ensures formData == old(formData) && imageFile == old(imageFile) && previewUrl == old(previewUrl)
      ensures env.storage == old(env.storage)
      ensures var p := ClubProblem(formData["name"], formData["description"], formData["category"]);
        if p.Some? then
          env.effects == old(env.effects) + [Shown(ProblemToast(p.value))]
          && isLoading == old(isLoading) && !loadingDuringCall
        else
          var payload := ClubPayload(formData["name"], formData["description"], formData["category"], imageFile);
          var c := Settle(outcome);
          env.effects == old(env.effects) + OperationEffects(Create(payload), Item(old(env.storage), "token"), c)
                         + (if c.Resolved? then [Navigated("/admin/dashboard")] else [])
          && !isLoading && loadingDuringCall
    {
      var ok := ValidateForm();
      if !ok {
        loadingDuringCall := false;
        return;
      }
      assert env.effects == old(env.effects);
      loadingDuringCall := Submit(outcome);
    }

    /** The valid branch of `handleSubmit`: `isLoading` is raised around the awaited call,
        and the dashboard follows only a resolved call. */
    method Submit(outcome: AxiosOutcome) returns (ghost loadingDuringCall: bool)
      requires Valid()
      modifies this, env
      ensures formData == old(formData) && imageFile == old(imageFile) && previewUrl == old(previewUrl)
      ensures env.storage == old(env.storage) && !isLoading && loadingDuringCall
      ensures var c := Settle(outcome);
        env.effects == old(env.effects) + OperationEffects(Create(ClubPayload(formData["name"], formData["description"], formData["category"], imageFile)), Item(old(env.storage), "token"), c)
                       + (if c.Resolved? then [Navigated("/admin/dashboard")] else [])
    {
      isLoading := true;
      loadingDuringCall := isLoading;
      var token := env.GetItem("token");
      var payload := BuildPayload(formData["name"], formData["description"], formData["category"], imageFile);
      ghost var request := Create(payload);
      assert request == Create(ClubPayload(formData["name"], formData["description"], formData["category"], imageFile));
      Send(payload, token, outcome);
      isLoading := false;
    }

    /** The awaited call of `handleSubmit` and the move to the dashboard that follows success. */
    method Send(payload: Value, token: Value, outcome: AxiosOutcome)
      modifies env
      ensures env.storage == old(env.storage)
      ensures var c := Settle(outcome);
        env.effects == old(env.effects) + OperationEffects(Create(payload), token, c)
                       + (if c.Resolved? then [Navigated("/admin/dashboard")] else [])
    {
      var c := CreateClub(env, payload, token, outcome);
      if c.Resolved? {
        env.Navigate("/admin/dashboard");
      }
    }
  }
}
