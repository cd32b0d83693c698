/** The edit-club page (src/pages/admin/EditClub.jsx): the admin gate and the fetch that fills
    the form on mount, the club form with its optional new image, and the submit handler
    around the update operation. */
module EditClubPage {
  import opened JsValue
  import opened Http
  import opened Toasts
  import opened Browser
  import opened ApiConnector
  import opened ClubApi
  import opened Validation
  import opened Session
  import opened ClubForm

  /** Whether the fetch found a club to fill the form with. */
  predicate Loaded(c: Completion) {
    !ReadFails(c) && Truthy(Get(c.value, "club"))
  }

  /** The form filled from a fetched club: each text field, or empty when missing. */
  function FormOf(club: Value): map<string, string> {
    map["name" := FieldText(Get(club, "name")), "description" := FieldText(Get(club, "description")),
        "category" := FieldText(Get(club, "category"))]
  }

  /** What `fetchClubData` does once the read settles as `c`: the read's own effects, then,
      when there is no club to show, a toast and the move back to the dashboard. */
  function FetchEffects(clubId: string, token: Value, c: Completion): seq<Effect> {
    OperationEffects(ById(clubId), token, c) + AfterFetch(c)
  }

  /** What the page itself adds once the read has settled. */
  function AfterFetch(c: Completion): seq<Effect> {
    if ReadFails(c) then [Shown(ErrorToast(Str("Failed to fetch club data"))), Navigated("/admin/dashboard")]
    else if !Truthy(Get(c.value, "club")) then [Shown(ErrorToast(Str("Club not found"))), Navigated("/admin/dashboard")]
    else []
  }

  /** A failed fetch is reported twice, by the service and by the page, and sends the admin
      back to the dashboard. */
  lemma FetchFailureToasts(clubId: string, token: Value, c: Completion)
    requires c.Rejected?
    ensures ShownToasts(FetchEffects(clubId, token, c))
         == [FetchError("club"), ErrorToast(Str("Failed to fetch club data"))]
  {
    var read := OperationEffects(ById(clubId), token, c);
    FailedFetchPageToast(c);
    ReadToasts(ById(clubId), token, c);
    assert FetchLabel(ById(clubId)) == "club";
    ShownToastsAppend(read, AfterFetch(c));
  }

  /** The page's own part of a failed fetch shows one toast. */
  lemma FailedFetchPageToast(c: Completion)
    requires c.Rejected?
    ensures ShownToasts(AfterFetch(c)) == [ErrorToast(Str("Failed to fetch club data"))]
  {
    var t := ErrorToast(Str("Failed to fetch club data"));
    var back := Navigated("/admin/dashboard");
    assert AfterFetch(c) == [Shown(t)] + [back];
    ShownToastsOne(Shown(t));
    ShownToastsOne(back);
    ShownToastsAppend([Shown(t)], [back]);
  }

  /** A club that was found adds nothing to the read's own effects; without one the admin is
      sent back to the dashboard, with a toast of its own when the read itself succeeded. */
  lemma FetchFoundOrBack(clubId: string, token: Value, c: Completion)
    ensures !Loaded(c) <==> Navigated("/admin/dashboard") in FetchEffects(clubId, token, c)
    ensures Loaded(c) ==> FetchEffects(clubId, token, c) == [Sent(OperationRequest(ById(clubId), token))]
    ensures !ReadFails(c) && !Loaded(c) ==>
      FetchEffects(clubId, token, c) == [Sent(OperationRequest(ById(clubId), token)),
                                         Shown(ErrorToast(Str("Club not found"))), Navigated("/admin/dashboard")]
  {
  }

  class Page {
    const env: Env
    const clubId: string
    var formData: map<string, string>
    var imageFile: Value
    var isLoading: bool
    var previewUrl: string
    var currentImage: string
    var fetchingClub: bool

    /** The three fields the validator reads are present. */
    predicate Valid()
      reads this
    {
      "name" in formData && "description" in formData && "category" in formData
    }

    constructor (env: Env, clubId: string)
      ensures this.env == env && this.clubId == clubId && Valid()
      ensures formData == map["name" := "", "description" := "", "category" := ""]
      ensures imageFile == Null && !isLoading && previewUrl == "" && currentImage == "" && fetchingClub
    {
      this.env := env;
      this.clubId := clubId;
      formData := map["name" := "", "description" := "", "category" := ""];
      imageFile := Null;
      isLoading := false;
      previewUrl := "";
      currentImage := "";
      fetchingClub := true;
    }

    /** The mount effect: the admin gate, and the fetch only once the gate lets the admin in. */
    method Mount(outcome: AxiosOutcome)
      requires Valid()
      modifies this, env
      ensures env.storage == old(env.storage) && Valid()
      ensures imageFile == old(imageFile) && isLoading == old(isLoading)
      ensures var gate := AdminGate(old(env.storage));
        if gate != Pass then
          env.effects == old(env.effects) + GateEffects(gate)
          && formData == old(formData) && currentImage == old(currentImage) && previewUrl == old(previewUrl)
          && fetchingClub == old(fetchingClub)
        else
          var c := Settle(outcome);
          env.effects == old(env.effects) + FetchEffects(clubId, Item(old(env.storage), "token"), c)
          && !fetchingClub
          && (Loaded(c) ==> formData == FormOf(Get(c.value, "club"))
                            && currentImage == FieldText(Get(Get(c.value, "club"), "image"))
                            && previewUrl == currentImage)
          && (!Loaded(c) ==> formData == old(formData) && currentImage == old(currentImage)
                             && previewUrl == old(previewUrl))
    {
      var gate := AdminGate(env.storage);
      if gate == ToLogin {
        env.Show(LoginRequired);
        env.Navigate("/login");
      } else if gate == ToClubs {
        env.Show(AdminRequired);
        env.Navigate("/clubs");
      } else if gate == Pass {
        FetchClubData(outcome);
      }
    }

    /** `fetchClubData`: reads the club with the stored token and fills the form from it;
        without a club it toasts and returns to the dashboard. `fetchingClub` is lowered on
        every path. */
    method FetchClubData(outcome: AxiosOutcome)
      requires Valid()
      modifies this, env
      ensures env.storage == old(env.storage) && Valid()
      ensures imageFile == old(imageFile) && isLoading == old(isLoading) && !fetchingClub
      ensures var c := Settle(outcome);
        env.effects == old(env.effects) + FetchEffects(clubId, Item(old(env.storage), "token"), c)
        && (Loaded(c) ==> formData == FormOf(Get(c.value, "club"))
                          && currentImage == FieldText(Get(Get(c.value, "club"), "image"))
                          && previewUrl == currentImage)
        && (!Loaded(c) ==> formData == old(formData) && currentImage == old(currentImage)
                           && previewUrl == old(previewUrl))
    {
      var token := env.GetItem("token");
      var c := GetClubById(env, clubId, token, outcome);
      Receive(c);
      AppendAssoc(old(env.effects), OperationEffects(ById(clubId), token, c), AfterFetch(c));
    }

    /** The part of `fetchClubData` after the awaited read: fill the form from the club, or
        toast and leave for the dashboard; lower `fetchingClub` either way. */
    method Receive(c: Completion)
      requires Valid()
      modifies this, env
      ensures env.storage == old(env.storage) && Valid()
      ensures env.effects == old(env.effects) + AfterFetch(c)
      ensures imageFile == old(imageFile) && isLoading == old(isLoading) && !fetchingClub
      ensures Loaded(c) ==> formData == FormOf(Get(c.value, "club"))
                            && currentImage == FieldText(Get(Get(c.value, "club"), "image"))
                            && previewUrl == currentImage
      ensures !Loaded(c) ==> formData == old(formData) && currentImage == old(currentImage)
                             && previewUrl == old(previewUrl)
    {
      if ReadFails(c) {
        env.Show(ErrorToast(Str("Failed to fetch club data")));
        env.Navigate("/admin/dashboard");
      } else {
        var club := Get(c.value, "club");
        if !Truthy(club) {
          env.Show(ErrorToast(Str("Club not found")));
          env.Navigate("/admin/dashboard");
        } else {
          formData := FormOf(club);
          currentImage := FieldText(Get(club, "image"));
          previewUrl := FieldText(Get(club, "image"));
        }
      }
      fetchingClub := false;
    }

    /** `handleInputChange`: replaces the named field and keeps the others. */
    method HandleInputChange(name: string, value: string)
      modifies this
      ensures formData == old(formData)[name := value]
      ensures imageFile == old(imageFile) && isLoading == old(isLoading) && previewUrl == old(previewUrl)
      ensures currentImage == old(currentImage) && fetchingClub == old(fetchingClub)
      ensures old(Valid()) ==> Valid()
    {
      formData := formData[name := value];
    }

    /** `handleImageChange`: a picked file replaces the preview; a missing file changes
        nothing. The current image is kept either way. */
    method HandleImageChange(file: Value, objectUrl: string)
      modifies this
      ensures Truthy(file) ==> imageFile == file && previewUrl == objectUrl
      ensures !Truthy(file) ==> imageFile == old(imageFile) && previewUrl == old(previewUrl)
      ensures formData == old(formData) && isLoading == old(isLoading)
      ensures currentImage == old(currentImage) && fetchingClub == old(fetchingClub)
    {
      if Truthy(file) {
        imageFile := file;
        previewUrl := objectUrl;
      }
    }

    /** `validateForm`: the same rules, order and messages as the create page. */
    method ValidateForm() returns (ok: bool)
      requires Valid()
      modifies env
      ensures var p := ClubProblem(formData["name"], formData["description"], formData["category"]);
        ok == p.None?
        && env.effects == old(env.effects) + (if ok then [] else [Shown(ProblemToast(p.value))])
      ensures env.storage == old(env.storage)
    {
      var p := ClubProblem(formData["name"], formData["description"], formData["category"]);
      ok := p.None?;
      if !ok {
        env.Show(ProblemToast(p.value));
      }
    }

    /** `handleSubmit`: like the create page's, with the update operation on this club; a new
        image is sent only when one was picked. */
    method HandleSubmit(outcome: AxiosOutcome) returns (ghost loadingDuringCall: bool)
      requires Valid()
      modifies this, env
      ensures formData == old(formData) && imageFile == old(imageFile) && previewUrl == old(previewUrl)
      ensures currentImage == old(currentImage) && fetchingClub == old(fetchingClub)
      ensures env.storage == old(env.storage)
      ensures var p := ClubProblem(formData["name"], formData["description"], formData["category"]);
        if p.Some? then
          env.effects == old(env.effects) + [Shown(ProblemToast(p.value))]
          && isLoading == old(isLoading) && !loadingDuringCall
        else
          var payload := ClubPayload(formData["name"], formData["description"], formData["category"], imageFile);
          var c := Settle(outcome);
          env.effects == old(env.effects) + OperationEffects(Update(clubId, payload), Item(old(env.storage), "token"), c)
                         + (if c.Resolved? then [Navigated("/admin/dashboard")] else [])
          && !isLoading && loadingDuringCall
    {
      var ok := ValidateForm();
      if !ok {
        loadingDuringCall := false;
        return;
      }
      assert env.effects == old(env.effects);
      loadingDuringCall := Submit(outcome);
    }

    /** The valid branch of `handleSubmit`: `isLoading` is raised around the awaited call,
        and the dashboard follows only a resolved call. */
    method Submit(outcome: AxiosOutcome) returns (ghost loadingDuringCall: bool)
      requires Valid()
      modifies this, env
      ensures formData == old(formData) && imageFile == old(imageFile) && previewUrl == old(previewUrl)
      ensures currentImage == old(currentImage) && fetchingClub == old(fetchingClub)
      ensures env.storage == old(env.storage) && !isLoading && loadingDuringCall
      ensures var c := Settle(outcome);
        env.effects == old(env.effects) + OperationEffects(Update(clubId, ClubPayload(formData["name"], formData["description"], formData["category"], imageFile)), Item(old(env.storage), "token"), c)
                       + (if c.Resolved? then [Navigated("/admin/dashboard")] else [])
    {
      isLoading := true;
      loadingDuringCall := isLoading;
      var token := env.GetItem("token");
      var payload := BuildPayload(formData["name"], formData["description"], formData["category"], imageFile);
      ghost var request := Update(clubId, payload);
      assert request == Update(clubId, ClubPayload(formData["name"], formData["description"], formData["category"], imageFile));
      Send(payload, token, outcome);
      isLoading := false;
    }

    /** The awaited call of `handleSubmit` and the move to the dashboard that follows success. */
    method Send(payload: Value, token: Value, outcome: AxiosOutcome)
      modifies env
      ensures env.storage == old(env.storage)
      ensures var c := Settle(outcome);
        env.effects == old(env.effects) + OperationEffects(Update(clubId, payload), token, c)
                       + (if c.Resolved? then [Navigated("/admin/dashboard")] else [])
    {
      var c := UpdateClub(env, clubId, payload, token, outcome);
      if c.Resolved? {
        env.Navigate("/admin/dashboard");
      }
    }
  }
}
