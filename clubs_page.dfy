/** The club list page (src/pages/Clubs.jsx): the member gate and the list fetch on mount, and
    the join and leave handlers, each guarded against a second click while its call is in
    flight and followed by a fresh fetch of the list once the call succeeds. */
module ClubsPage {
  import opened JsValue
  import opened Http
  import opened Toasts
  import opened Browser
  import opened ApiConnector
  import opened ClubApi
  import opened Session

  const FetchFailedText := "Failed to fetch clubs. Please try again."
  const JoinFailedText := "Failed to join club. Please try again."
  const LeaveFailedText := "Failed to leave club. Please try again."

  /** `setClubs(response.clubs || [])` when the read can be used; the list kept otherwise. */
  function ListAfter(clubs: Value, c: Completion): (l: Value)
    ensures ReadFails(c) ==> l == clubs
    ensures !ReadFails(c) ==> Truthy(l)
    ensures !ReadFails(c) && Truthy(Get(c.value, "clubs")) ==> l == Get(c.value, "clubs")
    ensures !ReadFails(c) && !Truthy(Get(c.value, "clubs")) ==> l == Arr([])
  {
    if ReadFails(c) then clubs else Or(Get(c.value, "clubs"), Arr([]))
  }

  /** What `fetchClubs` shows: the read's own effects, then the page's toast when it failed. */
  function ListEffects(token: Value, c: Completion): seq<Effect> {
    OperationEffects(AllClubs, token, c) + if ReadFails(c) then [Shown(ErrorToast(Str(FetchFailedText)))] else []
  }

  /** What a join or leave shows once its call settles as `c`, with `refetch` the outcome of
      the list fetch that follows success: the call's own effects, then either that fetch or
      the page's own error toast. */
  function ActionEffects(op: Operation, token: Value, c: Completion, refetch: Completion, failText: string): seq<Effect>
    requires op.Join? || op.Leave?
  {
    OperationEffects(op, token, c)
    + if c.Resolved? then ListEffects(token, refetch) else [Shown(ErrorToast(CaughtMessage(c.thrown, failText)))]
  }

  /** A failed join is reported twice with the same toast: the page's fallback text is the
      service's, and both read the message from the same place. */
  lemma JoinFailureToastTwice(id: string, token: Value, thrown: Value, refetch: Completion)
    ensures var t := ErrorToast(CaughtMessage(thrown, JoinFailedText));
      ShownToasts(ActionEffects(Join(id), token, Rejected(thrown), refetch, JoinFailedText))
        == [LoadingToast(Str("Joining club...")), t, t]
  {
    var c := Rejected(thrown);
    var call := OperationEffects(Join(id), token, c);
    var m := CaughtMessage(thrown, JoinFailedText);
    assert JoinError(m) == ErrorToast(m);
    var tail := [Shown(ErrorToast(m))];
    assert ActionEffects(Join(id), token, c, refetch, JoinFailedText) == call + tail;
    assert ShownToasts(call) == [LoadingToast(Str("Joining club...")), ErrorToast(m)] by {
      ShownToastsAppend(call[..1], call[1..]);
      assert call == call[..1] + call[1..];
      ShownToastsAppend(call[1..2], call[2..]);
      assert call[1..] == call[1..2] + call[2..];
    }
    ShownToastsAppend(call, tail);
  }

  /** The list is read again exactly when the join or leave call succeeded. */
  lemma RefetchOnlyOnSuccess(op: Operation, token: Value, c: Completion, refetch: Completion, failText: string)
    requires op.Join? || op.Leave?
    ensures Sent(OperationRequest(AllClubs, token)) in ActionEffects(op, token, c, refetch, failText) <==> c.Resolved?
  {
    var e := ActionEffects(op, token, c, refetch, failText);
    var call := OperationEffects(op, token, c);
    var list := Sent(OperationRequest(AllClubs, token));
    if c.Resolved? {
      var more := ListEffects(token, refetch);
      assert e == call + more && more[0] == list;
      assert e[|call|] == list;
    } else {
      assert OperationRequest(op, token).verb == POST;
      assert list !in call;
    }
  }

  class Page {
    const env: Env
    var clubs: Value
    var loading: bool
    var user: Value
    var joiningClub: Value
    var leavingClub: Value

    constructor (env: Env)
      ensures this.env == env && clubs == Arr([]) && loading && user == Null
      ensures joiningClub == Null && leavingClub == Null
    {
      this.env := env;
      clubs := Arr([]);
      loading := true;
      user := Null;
      joiningClub := Null;
      leavingClub := Null;
    }

    /** The mount effect: the member gate; once it passes, the stored user is kept and the
        list is fetched. A stored user that does not parse aborts the effect. */
    method Mount(outcome: AxiosOutcome)
      modifies this, env
      ensures env.storage == old(env.storage)
      ensures joiningClub == old(joiningClub) && leavingClub == old(leavingClub)
      ensures var gate := SessionGate(old(env.storage));
        if gate != Pass then
          env.effects == old(env.effects) + GateEffects(gate)
          && clubs == old(clubs) && loading == old(loading) && user == old(user)
        else
          var c := Settle(outcome);
          user == old(env.storage)["user"]
          && env.effects == old(env.effects) + ListEffects(Item(old(env.storage), "token"), c)
          && clubs == ListAfter(old(clubs), c) && !loading
    {
      var gate := SessionGate(env.storage);
      if gate == ToLogin {
        env.Show(LoginRequired);
        env.Navigate("/login");
      } else if gate == Pass {
        user := env.storage["user"];
        FetchClubs(outcome);
      }
    }

    /** `fetchClubs`: reads the list with the stored token; a failure keeps the old list and
        toasts. Loading ends on every path. */
    method FetchClubs(outcome: AxiosOutcome)
      modifies this, env
      ensures env.storage == old(env.storage)
      ensures user == old(user) && joiningClub == old(joiningClub) && leavingClub == old(leavingClub)
      ensures var c := Settle(outcome);
        env.effects == old(env.effects) + ListEffects(Item(old(env.storage), "token"), c)
        && clubs == ListAfter(old(clubs), c) && !loading
    {
      var token := env.GetItem("token");
      var c := GetAllClubs(env, token, outcome);
      if ReadFails(c) {
        env.Show(ErrorToast(Str(FetchFailedText)));
      } else {
        clubs := Or(Get(c.value, "clubs"), Arr([]));
      }
      loading := false;
    }

    /** `handleJoinClub`: ignored while a join is in flight; otherwise the club is marked as
        joining for the duration of the call and cleared afterwards. */
    method HandleJoinClub(clubId: Value, outcome: AxiosOutcome, refetch: AxiosOutcome)
      returns (ghost joiningDuringCall: Value)
      modifies this, env
      ensures env.storage == old(env.storage)
      ensures user == old(user) && leavingClub == old(leavingClub)
      ensures Truthy(old(joiningClub)) ==>
        env.effects == old(env.effects) && joiningClub == old(joiningClub)
        && clubs == old(clubs) && loading == old(loading)
      ensures !Truthy(old(joiningClub)) ==>
        var c := Settle(outcome);
        var token := Item(old(env.storage), "token");
        env.effects == old(env.effects)
                       + ActionEffects(Join(TemplateText(clubId)), token, c, Settle(refetch), JoinFailedText)
        && joiningClub == Null && joiningDuringCall == clubId
        && (c.Resolved? ==> clubs == ListAfter(old(clubs), Settle(refetch)) && !loading)
        && (c.Rejected? ==> clubs == old(clubs) && loading == old(loading))
    {
      if Truthy(joiningClub) {
        joiningDuringCall := joiningClub;
        return;
      }
      joiningClub := clubId;
      joiningDuringCall := joiningClub;
      RunAction(Join(TemplateText(clubId)), JoinFailedText, outcome, refetch);
      joiningClub := Null;
    }

    /** `handleLeaveClub`: the same, with its own guard and the leave operation. */
    method HandleLeaveClub(clubId: Value, outcome: AxiosOutcome, refetch: AxiosOutcome)
      returns (ghost leavingDuringCall: Value)
      modifies this, env
      ensures env.storage == old(env.storage)
      ensures user == old(user) && joiningClub == old(joiningClub)
      ensures Truthy(old(leavingClub)) ==>
        env.effects == old(env.effects) && leavingClub == old(leavingClub)
        && clubs == old(clubs) && loading == old(loading)
      ensures !Truthy(old(leavingClub)) ==>
        var c := Settle(outcome);
        var token := Item(old(env.storage), "token");
        env.effects == old(env.effects)
                       + ActionEffects(Leave(TemplateText(clubId)), token, c, Settle(refetch), LeaveFailedText)
        && leavingClub == Null && leavingDuringCall == clubId
        && (c.Resolved? ==> clubs == ListAfter(old(clubs), Settle(refetch)) && !loading)
        && (c.Rejected? ==> clubs == old(clubs) && loading == old(loading))
    {
      if Truthy(leavingClub) {
        leavingDuringCall := leavingClub;
        return;
      }
      leavingClub := clubId;
      leavingDuringCall := leavingClub;
      RunAction(Leave(TemplateText(clubId)), LeaveFailedText, outcome, refetch);
      leavingClub := Null;
    }

    /** The `try`/`catch` shared by the two handlers: the call with the stored token, then
        the list fetch on success, or the page's toast with the caught message. */
    method RunAction(op: Operation, failText: string, outcome: AxiosOutcome, refetch: AxiosOutcome)
      requires op.Join? || op.Leave?
      modifies this, env
      ensures env.storage == old(env.storage)
      ensures user == old(user) && joiningClub == old(joiningClub) && leavingClub == old(leavingClub)
      ensures var c := Settle(outcome);
        env.effects == old(env.effects)
                       + ActionEffects(op, Item(old(env.storage), "token"), c, Settle(refetch), failText)
        && (c.Resolved? ==> clubs == ListAfter(old(clubs), Settle(refetch)) && !loading)
        && (c.Rejected? ==> clubs == old(clubs) && loading == old(loading))
    {
      var token := env.GetItem("token");
      var c := Perform(env, op, token, outcome);
      if c.Resolved? {
        FetchClubs(refetch);
        AppendAssoc(old(env.effects), OperationEffects(op, token, c), ListEffects(token, Settle(refetch)));
      } else {
        env.Show(ErrorToast(CaughtMessage(c.thrown, failText)));
        AppendAssoc(old(env.effects), OperationEffects(op, token, c), [Shown(ErrorToast(CaughtMessage(c.thrown, failText)))]);
      }
    }

    /** The "View" button of a card. */
    method HandleView(club: Value)
      modifies env
      ensures env.storage == old(env.storage)
      ensures env.effects == old(env.effects) + [Navigated("/clubs/" + TemplateText(Get(club, "_id")))]
    {
      env.Navigate("/clubs/" + TemplateText(Get(club, "_id")));
    }
  }
}
