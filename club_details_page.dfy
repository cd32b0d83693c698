/** The club details page (src/pages/ClubDetails.jsx): the member gate and the fetch of one
    club on mount, the join and leave handlers guarded by a flag each, and the membership
    and creator tests that choose the buttons. */
module ClubDetailsPage {
  import opened JsValue
  import opened Http
  import opened Toasts
  import opened Browser
  import opened ApiConnector
  import opened ClubApi
  import opened Session
  import opened ClubView

  const FetchFailedText := "Failed to fetch club details"

  /** `setClub(response.club)` when the read can be used; the club kept otherwise. */
  function ClubAfter(club: Value, c: Completion): (v: Value)
    ensures ReadFails(c) ==> v == club
    ensures !ReadFails(c) ==> v == Get(c.value, "club")
  {
    if ReadFails(c) then club else Get(c.value, "club")
  }

  /** What `fetchClubDetails` does: the read's own effects, then, when it failed, the page's
      toast and the move back to the list. */
  function DetailEffects(clubId: string, token: Value, c: Completion): seq<Effect> {
    OperationEffects(ById(clubId), token, c)
    + if ReadFails(c) then [Shown(ErrorToast(Str(FetchFailedText))), Navigated("/clubs")] else []
  }

  /** What a join or leave does: the call's own effects, then the fetch on success. A failure
      adds nothing: the page only logs it. */
  function ActionEffects(op: Operation, token: Value, c: Completion, refetch: Completion): seq<Effect>
    requires op.Join? || op.Leave?
  {
    OperationEffects(op, token, c) + if c.Resolved? then DetailEffects(op.clubId, token, refetch) else []
  }

  /** A failed join or leave adds nothing to the call's own effects: it shows only the
      service's two toasts and stays on the page. */
  lemma FailedActionStays(op: Operation, token: Value, thrown: Value, refetch: Completion)
    requires op.Join? || op.Leave?
    ensures ShownToasts(ActionEffects(op, token, Rejected(thrown), refetch))
         == [LoadingToast(Str(LoadingText(op))), FailureOf(op, thrown)]
    ensures forall e <- ActionEffects(op, token, Rejected(thrown), refetch) :: !e.Navigated?
  {
    var e := ActionEffects(op, token, Rejected(thrown), refetch);
    assert e == OperationEffects(op, token, Rejected(thrown));
    ChangeToasts(op, token, Rejected(thrown));
    assert e == [Shown(LoadingToast(Str(LoadingText(op)))), Sent(OperationRequest(op, token)), Shown(FailureOf(op, thrown))];
  }

  /** The edit button follows the creator test, but the edit page admits by role: a creator
      whose stored role is not "admin" is sent on to the club list. */
  lemma CreatorWithoutRoleBounced(storage: map<string, Value>, club: Value)
    requires "user" in storage && storage["user"].Obj?
    requires IsUserCreator(club, storage["user"])
    requires Get(storage["user"], "role") != Str("admin")
    ensures AdminGate(storage) == ToClubs
  {
  }

  class Page {
    const env: Env
    const clubId: string
    var club: Value
    var user: Value
    var loading: bool
    var joiningClub: bool
    var leavingClub: bool

    constructor (env: Env, clubId: string)
      ensures this.env == env && this.clubId == clubId
      ensures club == Null && user == Null && loading && !joiningClub && !leavingClub
    {
      this.env := env;
      this.clubId := clubId;
      club := Null;
      user := Null;
      loading := true;
      joiningClub := false;
      leavingClub := false;
    }

    /** `isUserMember()`: `None` where the call throws. Before the club is loaded nobody is a
        member. */
    function IsMember(): (r: Option<bool>)
      reads this
      ensures r == IsUserMember(club, user)
      ensures club == Null ==> r == Some(false)
    {
      IsUserMember(club, user)
    }

    /** `isUserCreator()`: shows the edit buttons. Before the club is loaded, a user without
        an id passes it. */
    predicate IsCreator()
      reads this
      ensures IsCreator() <==> IsUserCreator(club, user)
      ensures club == Null ==> (IsCreator() <==> Get(user, "_id") == Undefined)
    {
      IsUserCreator(club, user)
    }

    /** The mount effect: the member gate; once it passes, the stored user is kept and the
        club is fetched. A stored user that does not parse aborts the effect. */
    method Mount(outcome: AxiosOutcome)
      modifies this, env
      ensures env.storage == old(env.storage)
      ensures joiningClub == old(joiningClub) && leavingClub == old(leavingClub)
      ensures var gate := SessionGate(old(env.storage));
        if gate != Pass then
          env.effects == old(env.effects) + GateEffects(gate)
          && club == old(club) && loading == old(loading) && user == old(user)
        else
          var c := Settle(outcome);
          user == old(env.storage)["user"]
          && env.effects == old(env.effects) + DetailEffects(clubId, Item(old(env.storage), "token"), c)
          && club == ClubAfter(old(club), c) && !loading
    {
      var gate := SessionGate(env.storage);
      if gate == ToLogin {
        env.Show(LoginRequired);
        env.Navigate("/login");
      } else if gate == Pass {
        user := env.storage["user"];
        FetchClubDetails(outcome);
      }
    }

    /** `fetchClubDetails`: reads the club with the stored token; a failure toasts and goes
        back to the list. Loading ends on every path. */
    method FetchClubDetails(outcome: AxiosOutcome)
      modifies this, env
      ensures env.storage == old(env.storage)
      ensures user == old(user) && joiningClub == old(joiningClub) && leavingClub == old(leavingClub)
      ensures var c := Settle(outcome);
        env.effects == old(env.effects) + DetailEffects(clubId, Item(old(env.storage), "token"), c)
        && club == ClubAfter(old(club), c) && !loading
    {
      var token := env.GetItem("token");
      var c := GetClubById(env, clubId, token, outcome);
      if ReadFails(c) {
        env.Show(ErrorToast(Str(FetchFailedText)));
        env.Navigate("/clubs");
        AppendAssoc(old(env.effects), OperationEffects(ById(clubId), token, c),
                    [Shown(ErrorToast(Str(FetchFailedText))), Navigated("/clubs")]);
      } else {
        club := Get(c.value, "club");
      }
      loading := false;
    }

    /** `handleJoinClub`: ignored while a join is in flight; the flag is raised for the call
        and lowered afterwards. */
    method HandleJoinClub(outcome: AxiosOutcome, refetch: AxiosOutcome) returns (ghost joiningDuringCall: bool)
      modifies this, env
      ensures env.storage == old(env.storage)
      ensures user == old(user) && leavingClub == old(leavingClub)
      ensures old(joiningClub) ==>
        env.effects == old(env.effects) && joiningClub && club == old(club) && loading == old(loading)
      ensures !old(joiningClub) ==>
        var c := Settle(outcome);
        env.effects == old(env.effects)
                       + ActionEffects(Join(clubId), Item(old(env.storage), "token"), c, Settle(refetch))
        && !joiningClub && joiningDuringCall
        && (c.Resolved? ==> club == ClubAfter(old(club), Settle(refetch)) && !loading)
        && (c.Rejected? ==> club == old(club) && loading == old(loading))
    {
      if joiningClub {
        joiningDuringCall := true;
        return;
      }
      joiningClub := true;
      joiningDuringCall := joiningClub;
      RunAction(Join(clubId), outcome, refetch);
      joiningClub := false;
    }

    /** `handleLeaveClub`: the same, with its own flag and the leave operation. */
    method HandleLeaveClub(outcome: AxiosOutcome, refetch: AxiosOutcome) returns (ghost leavingDuringCall: bool)
      modifies this, env
      ensures env.storage == old(env.storage)
      ensures user == old(user) && joiningClub == old(joiningClub)
      ensures old(leavingClub) ==>
        env.effects == old(env.effects) && leavingClub && club == old(club) && loading == old(loading)
      ensures !old(leavingClub) ==>
        var c := Settle(outcome);
        env.effects == old(env.effects)
                       + ActionEffects(Leave(clubId), Item(old(env.storage), "token"), c, Settle(refetch))
        && !leavingClub && leavingDuringCall
        && (c.Resolved? ==> club == ClubAfter(old(club), Settle(refetch)) && !loading)
        && (c.Rejected? ==> club == old(club) && loading == old(loading))
    {
      if leavingClub {
        leavingDuringCall := true;
        return;
      }
      leavingClub := true;
      leavingDuringCall := leavingClub;
      RunAction(Leave(clubId), outcome, refetch);
      leavingClub := false;
    }

    /** The `try` shared by the two handlers: the call with the stored token, then the fetch
        on success. */
    method RunAction(op: Operation, outcome: AxiosOutcome, refetch: AxiosOutcome)
      requires (op.Join? || op.Leave?) && op.clubId == clubId
      modifies this, env
      ensures env.storage == old(env.storage)
      ensures user == old(user) && joiningClub == old(joiningClub) && leavingClub == old(leavingClub)
      ensures var c := Settle(outcome);
        env.effects == old(env.effects) + ActionEffects(op, Item(old(env.storage), "token"), c, Settle(refetch))
        && (c.Resolved? ==> club == ClubAfter(old(club), Settle(refetch)) && !loading)
        && (c.Rejected? ==> club == old(club) && loading == old(loading))
    {
      var token := env.GetItem("token");
      var c := Perform(env, op, token, outcome);
      if c.Resolved? {
        FetchClubDetails(refetch);
        AppendAssoc(old(env.effects), OperationEffects(op, token, c), DetailEffects(clubId, token, Settle(refetch)));
      }
    }

    /** The edit buttons shown to the creator. */
    method HandleEdit()
      modifies env
      ensures env.storage == old(env.storage)
      ensures env.effects == old(env.effects) + [Navigated("/admin/edit-club/" + TemplateText(Get(club, "_id")))]
    {
      env.Navigate("/admin/edit-club/" + TemplateText(Get(club, "_id")));
    }
  }
}
