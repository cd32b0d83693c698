/** The admin dashboard (src/pages/admin/AdminDashboard.jsx): the list fetch on mount, the
    statistics over the fetched list, the delete handler and the card buttons. The page
    itself checks neither token nor role. */
module AdminDashboardPage {
  import opened JsValue
  import opened Http
  import opened Toasts
  import opened Browser
  import opened ApiConnector
  import opened ClubApi
  import opened ClubView
  import ClubsPage

  const FetchFailedText := "Failed to fetch clubs"
  const DeleteFailedText := "Failed to delete club"

  /** What the dashboard's `fetchClubs` shows: the read's own effects, then its toast when the
      read failed. */
  function DashboardListEffects(token: Value, c: Completion): seq<Effect> {
    OperationEffects(AllClubs, token, c) + if ReadFails(c) then [Shown(ErrorToast(Str(FetchFailedText)))] else []
  }

  /** What `handleDelete` does once the delete settles as `c`, with `refetch` the outcome of
      the list fetch it starts on success. */
  function DeleteEffects(clubId: string, token: Value, c: Completion, refetch: Completion): seq<Effect> {
    OperationEffects(Delete(clubId), token, c)
    + if c.Resolved? then [Shown(SuccessToast(Str("Club deleted successfully!")))] + DashboardListEffects(token, refetch)
      else [Shown(ErrorToast(Str(DeleteFailedText)))]
  }

  /** A successful delete congratulates twice, with the same toast from the service and the
      page, before whatever the refresh shows. */
  lemma DeleteSuccessToasts(clubId: string, token: Value, c: Completion, refetch: Completion)
    requires c.Resolved?
    ensures ShownToasts(DeleteEffects(clubId, token, c, refetch))
         == [LoadingToast(Str("Deleting club...")), DeleteSuccess, DeleteSuccess]
            + ShownToasts(DashboardListEffects(token, refetch))
  {
    var call := OperationEffects(Delete(clubId), token, c);
    var list := DashboardListEffects(token, refetch);
    var loading := LoadingToast(Str("Deleting club..."));
    SuccessfulDeleteSplits(clubId, token, c, refetch);
    assert ShownToasts(call) == [loading, DeleteSuccess] by {
      ChangeToasts(Delete(clubId), token, c);
    }
    assert ShownToasts(call + ([Shown(DeleteSuccess)] + list)) == [loading, DeleteSuccess] + [DeleteSuccess] + ShownToasts(list) by {
      ToastsThenMore(call, [Shown(DeleteSuccess)], list, [loading, DeleteSuccess], [DeleteSuccess]);
    }
    assert [loading, DeleteSuccess] + [DeleteSuccess] == [loading, DeleteSuccess, DeleteSuccess];
  }

  /** The effects of a successful delete: the call's, the page's toast, then the refresh. */
  lemma SuccessfulDeleteSplits(clubId: string, token: Value, c: Completion, refetch: Completion)
    requires c.Resolved?
    ensures DeleteEffects(clubId, token, c, refetch)
         == OperationEffects(Delete(clubId), token, c) + ([Shown(DeleteSuccess)] + DashboardListEffects(token, refetch))
  {
  }

  lemma ToastsThenMore(call: seq<Effect>, done: seq<Effect>, list: seq<Effect>, a: seq<Toast>, b: seq<Toast>)
    requires ShownToasts(call) == a && ShownToasts(done) == b
    ensures ShownToasts(call + (done + list)) == a + b + ShownToasts(list)
  {
    ShownToastsAppend(done, list);
    ShownToastsAppend(call, done + list);
  }

  /** A failed delete reports twice: the service's toast, then the page's shorter fixed text,
      whatever the caught value says. */
  lemma DeleteFailureToasts(clubId: string, token: Value, c: Completion, refetch: Completion)
    requires c.Rejected?
    ensures ShownToasts(DeleteEffects(clubId, token, c, refetch))
         == [LoadingToast(Str("Deleting club...")), DeleteError(CaughtMessage(c.thrown, DeleteErrorDefault)),
             ErrorToast(Str(DeleteFailedText))]
  {
    var call := OperationEffects(Delete(clubId), token, c);
    assert ShownToasts(call) == [LoadingToast(Str("Deleting club...")), DeleteError(CaughtMessage(c.thrown, DeleteErrorDefault))] by {
      ChangeToasts(Delete(clubId), token, c);
    }
    ShownToastsAppend(call, [Shown(ErrorToast(Str(DeleteFailedText)))]);
  }

  /** The page sends its reads and deletes whatever the storage holds: with no stored token
      the credential is "Bearer null". */
  lemma DashboardSendsWithoutToken(storage: map<string, Value>, c: Completion)
    requires "token" !in storage
    ensures DashboardListEffects(Item(storage, "token"), c)[0].request.headers["Authorization"] == Str("Bearer null")
  {
  }

  class Page {
    const env: Env
    var clubs: Value
    var loading: bool

    constructor (env: Env)
      ensures this.env == env && clubs == Arr([]) && loading
    {
      this.env := env;
      clubs := Arr([]);
      loading := true;
    }

    /** The cards and statistics are drawn from the fetched list. */
    function Cards(): seq<Value>
      reads this
    {
      if clubs.Arr? then clubs.elems else []
    }

    /** The three statistic tiles: clubs, members, and clubs with at least one member. */
    function Statistics(): (s: (nat, nat, nat))
      reads this
      ensures s.2 <= s.0 && s.2 <= s.1
      ensures s.1 == 0 <==> s.2 == 0
    {
      ActiveClubsBounded(Cards());
      NoMembersNoActiveClubs(Cards());
      (|Cards()|, TotalMembers(Cards()), ActiveClubs(Cards()))
    }

    /** The mount effect: fetch the list. */
    method Mount(outcome: AxiosOutcome)
      modifies this, env
      ensures env.storage == old(env.storage)
      ensures var c := Settle(outcome);
        env.effects == old(env.effects) + DashboardListEffects(Item(old(env.storage), "token"), c)
        && clubs == ClubsPage.ListAfter(old(clubs), c) && !loading
    {
      FetchClubs(outcome);
    }

    /** `fetchClubs`: reads the list with the stored token; a failure keeps the old list and
        toasts. Loading ends on every path. */
    method FetchClubs(outcome: AxiosOutcome)
      modifies this, env
      ensures env.storage == old(env.storage)
      ensures var c := Settle(outcome);
        env.effects == old(env.effects) + DashboardListEffects(Item(old(env.storage), "token"), c)
        && clubs == ClubsPage.ListAfter(old(clubs), c) && !loading
    {
      var token := env.GetItem("token");
      var c := GetAllClubs(env, token, outcome);
      if ReadFails(c) {
        env.Show(ErrorToast(Str(FetchFailedText)));
        AppendAssoc(old(env.effects), OperationEffects(AllClubs, token, c), [Shown(ErrorToast(Str(FetchFailedText)))]);
      } else {
        clubs := Or(Get(c.value, "clubs"), Arr([]));
      }
      loading := false;
    }

    /** `handleDelete`: deletes with the stored token; success toasts and refreshes the list,
        failure toasts the page's own text. There is no confirmation step. */
    method HandleDelete(clubId: Value, outcome: AxiosOutcome, refetch: AxiosOutcome)
      modifies this, env
      ensures env.storage == old(env.storage)
      ensures var c := Settle(outcome);
        env.effects == old(env.effects)
                       + DeleteEffects(TemplateText(clubId), Item(old(env.storage), "token"), c, Settle(refetch))
        && (c.Resolved? ==> clubs == ClubsPage.ListAfter(old(clubs), Settle(refetch)) && !loading)
        && (c.Rejected? ==> clubs == old(clubs) && loading == old(loading))
    {
      var token := env.GetItem("token");
      var c := DeleteClub(env, TemplateText(clubId), token, outcome);
      ghost var called := OperationEffects(Delete(TemplateText(clubId)), token, c);
      if c.Resolved? {
        env.Show(SuccessToast(Str("Club deleted successfully!")));
        ghost var congratulated := [Shown(SuccessToast(Str("Club deleted successfully!")))];
        AppendAssoc(old(env.effects), called, congratulated);
        FetchClubs(refetch);
        AppendAssoc(old(env.effects), called + congratulated, DashboardListEffects(token, Settle(refetch)));
        AppendAssoc(called, congratulated, DashboardListEffects(token, Settle(refetch)));
      } else {
        env.Show(ErrorToast(Str(DeleteFailedText)));
        AppendAssoc(old(env.effects), called, [Shown(ErrorToast(Str(DeleteFailedText)))]);
      }
    }

    /** The "Create Club" buttons. */
    method HandleCreate()
      modifies env
      ensures env.storage == old(env.storage)
      ensures env.effects == old(env.effects) + [Navigated("/admin/create-club")]
    {
      env.Navigate("/admin/create-club");
    }

    /** A card's "Edit" button. */
    method HandleEdit(club: Value)
      modifies env
      ensures env.storage == old(env.storage)
      ensures env.effects == old(env.effects) + [Navigated("/admin/edit-club/" + TemplateText(Get(club, "_id")))]
    {
      env.Navigate("/admin/edit-club/" + TemplateText(Get(club, "_id")));
    }

    /** A card's "View" button. */
    method HandleView(club: Value)
      modifies env
      ensures env.storage == old(env.storage)
      ensures env.effects == old(env.effects) + [Navigated("/clubs/" + TemplateText(Get(club, "_id")))]
    {
      env.Navigate("/clubs/" + TemplateText(Get(club, "_id")));
    }
  }
}
