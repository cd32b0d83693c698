/** The pure view helpers of the club pages and the admin dashboard: membership and
    ownership tests against an id-or-object member list, the category colour table, the
    card gradients, and the dashboard's statistics. */
module ClubView {
  import opened JsValue

  /** `m._id === id || m === id`: a member (or creator) entry is either a populated object
      carrying `_id` or the bare id itself. Only a primitive id can match, and `undefined` is
      matched by every entry that carries no `_id`. */
  predicate RefersTo(m: Value, id: Value)
    ensures RefersTo(m, id) <==>
      (IsPrimitive(id) &&
       (m == id || (m.Obj? && "_id" in m.fields && m.fields["_id"] == id)
        || (id == Undefined && !(m.Obj? && "_id" in m.fields))))
  {
    StrictEq(Get(m, "_id"), id) || StrictEq(m, id)
  }

  /** Whether some entry refers to `id`, comparing every entry: the answer of `some` when no
      entry throws. */
  function AnyRefersTo(members: seq<Value>, id: Value): (b: bool)
    ensures b <==> exists i :: 0 <= i < |members| && RefersTo(members[i], id)
  {
    if members == [] then false
    else
      assert forall i :: 1 <= i < |members| ==> members[i] == members[1..][i - 1];
      RefersTo(members[0], id) || AnyRefersTo(members[1..], id)
  }

  /** `members.some(m => m._id === id || m === id)`, entry by entry: `m._id` throws on a null
      or undefined entry, so the call answers true at the first match, throws (`None`) at a
      null or undefined entry met before any match, and answers false otherwise. */
  function SomeRefersTo(members: seq<Value>, id: Value): (r: Option<bool>)
    ensures r == Some(true) <==> exists i :: 0 <= i < |members| && RefersTo(members[i], id)
                                     && forall j :: 0 <= j <= i ==> !AccessThrows(members[j])
    ensures r == Some(false) <==> forall i :: 0 <= i < |members| ==> !AccessThrows(members[i]) && !RefersTo(members[i], id)
    ensures r.Some? ==> r.value == AnyRefersTo(members, id)
  {
    if members == [] then Some(false)
    else if AccessThrows(members[0]) then None
    else if RefersTo(members[0], id) then Some(true)
    else
      var rest := members[1..];
      assert forall i :: 1 <= i < |members| ==> members[i] == rest[i - 1];
      var r := SomeRefersTo(rest, id);
      if r != Some(true) then r
      else
        var k :| 0 <= k < |rest| && RefersTo(rest[k], id) && forall j :: 0 <= j <= k ==> !AccessThrows(rest[j]);
        assert forall j :: 0 <= j <= k + 1 ==> !AccessThrows(members[j]);
        r
  }

  /** `club?.members?.some(...)` against `user?._id`. Without a member list the user is not
      a member; a member list that is not an array has no `some` to call, and a null or
      undefined entry met before a match throws (`None` in both cases). */
  function IsUserMember(club: Value, user: Value): (r: Option<bool>)
    ensures var ms := Get(club, "members");
      r == Some(true) <==> ms.Arr? && exists i :: 0 <= i < |ms.elems| && RefersTo(ms.elems[i], Get(user, "_id"))
                                          && forall j :: 0 <= j <= i ==> !AccessThrows(ms.elems[j])
    ensures var ms := Get(club, "members");
      r == Some(false) <==>
        (AccessThrows(ms)
         || (ms.Arr? && forall i :: 0 <= i < |ms.elems| ==> !AccessThrows(ms.elems[i]) && !RefersTo(ms.elems[i], Get(user, "_id"))))
  {
    var members := Get(club, "members");
    if AccessThrows(members) then Some(false)
    else if members.Arr? then SomeRefersTo(members.elems, Get(user, "_id"))
    else None
  }

  /** `club?.createdBy?._id === user?._id || club?.createdBy === user?._id`: the creator entry
      is recognised as a member entry is. A user without an id counts as the creator of every
      club whose creator carries no id. */
  predicate IsUserCreator(club: Value, user: Value)
    ensures IsUserCreator(club, user) <==> RefersTo(Get(club, "createdBy"), Get(user, "_id"))
    ensures Get(user, "_id") == Undefined ==>
      (IsUserCreator(club, user) <==> !HasId(Get(club, "createdBy")))
  {
    StrictEq(Get(Get(club, "createdBy"), "_id"), Get(user, "_id")) || StrictEq(Get(club, "createdBy"), Get(user, "_id"))
  }

  /** An object carrying a defined `_id`. */
  predicate HasId(v: Value) {
    v.Obj? && "_id" in v.fields && v.fields["_id"] != Undefined
  }

  /** A user whose id is a string is a member exactly when some entry is that id or an
      object carrying it, and no entry before it is null or undefined. */
  lemma MemberByStringId(club: Value, user: Value, id: string)
    requires Get(user, "_id") == Str(id)
    requires Get(club, "members").Arr?
    ensures var ms := Get(club, "members").elems;
      IsUserMember(club, user) == Some(true) <==>
        exists i :: 0 <= i < |ms| && (Get(ms[i], "_id") == Str(id) || ms[i] == Str(id))
                    && forall j :: 0 <= j < i ==> !AccessThrows(ms[j])
  {
    var ms := Get(club, "members").elems;
    assert forall i :: 0 <= i < |ms| ==> (RefersTo(ms[i], Str(id)) <==> Get(ms[i], "_id") == Str(id) || ms[i] == Str(id));
    assert forall i :: 0 <= i < |ms| && RefersTo(ms[i], Str(id)) ==> !AccessThrows(ms[i]);
  }

  /** The order of the entries decides between an answer and a throw: a match before a null
      entry answers true, a null entry before the match throws. */
  lemma NullEntryOrder(user: Value, id: string)
    requires Get(user, "_id") == Str(id)
    ensures IsUserMember(Obj(map["members" := Arr([Str(id), Null])]), user) == Some(true)
    ensures IsUserMember(Obj(map["members" := Arr([Null, Str(id)])]), user) == None
  {
    var found := [Str(id), Null];
    var hidden := [Null, Str(id)];
    assert Get(Obj(map["members" := Arr(found)]), "members") == Arr(found);
    assert Get(Obj(map["members" := Arr(hidden)]), "members") == Arr(hidden);
    assert RefersTo(found[0], Str(id));
  }

  /** Without a user id, `undefined === undefined` makes every member entry that is an object
      without `_id` count as the current user. */
  lemma MissingIdMatchesAnonymousEntry(user: Value)
    requires Get(user, "_id") == Undefined
    ensures IsUserMember(Obj(map["members" := Arr([Obj(map[])])]), user) == Some(true)
  {
    var members := [Obj(map[])];
    assert RefersTo(members[0], Undefined);
    assert Get(Obj(map["members" := Arr(members)]), "members") == Arr(members);
  }

  /** Creator and member entries are recognised by the same comparison: the creator entry,
      listed alone as the members, makes the creator a member (unless that entry is null or
      undefined, on which `some` throws). */
  lemma CreatorIsMemberOfOwnList(club: Value, user: Value)
    requires IsUserCreator(club, user)
    ensures IsUserMember(Obj(map["members" := Arr([Get(club, "createdBy")])]), user)
         == if AccessThrows(Get(club, "createdBy")) then None else Some(true)
  {
    var members := [Get(club, "createdBy")];
    assert RefersTo(members[0], Get(user, "_id"));
    assert Get(Obj(map["members" := Arr(members)]), "members") == Arr(members);
  }

  /** The fourteen categories the club forms offer. */
  const ClubCategories: seq<string> := ["Technology", "Music", "Art", "Dance", "Literature",
    "Photography", "Drama", "Science", "Sports", "Gaming", "Business", "Coding", "Cultural", "Others"]

  /** The colour table shared by the club details page and the admin dashboard. */
  const CategoryColors: map<string, string> := map[
    "Technology" := "bg-blue-500", "Music" := "bg-purple-500", "Art" := "bg-pink-500",
    "Dance" := "bg-red-500", "Literature" := "bg-yellow-500", "Photography" := "bg-indigo-500",
    "Drama" := "bg-orange-500", "Science" := "bg-green-500", "Sports" := "bg-cyan-500",
    "Gaming" := "bg-violet-500", "Business" := "bg-emerald-500", "Coding" := "bg-slate-500",
    "Cultural" := "bg-amber-500", "Others" := "bg-gray-500"]

  const DefaultColor := "bg-gray-500"

  /** `colors[category] || "bg-gray-500"`: the category is looked up by its text. */
  function CategoryColor(category: Value): (c: string)
    ensures c == DefaultColor || c in CategoryColors.Values
  {
    var key := TemplateText(category);
    if key in CategoryColors then CategoryColors[key] else DefaultColor
  }

  /** Every category the forms offer has its own entry, so the default is reached only by
      categories the forms do not offer (and "Others", which shares its colour). */
  lemma OfferedCategoriesColoured()
    ensures |ClubCategories| == 14
    ensures forall i :: 0 <= i < |ClubCategories| ==> ClubCategories[i] in CategoryColors
    ensures forall k :: k in CategoryColors ==> k in ClubCategories
  {
  }

  /** An unknown category looks exactly like "Others". */
  lemma UnknownCategoryLikeOthers(category: Value)
    requires TemplateText(category) !in CategoryColors
    ensures CategoryColor(category) == CategoryColor(Str("Others")) == DefaultColor
  {
  }

  /** Colours are looked up by text, so a category and its text get the same colour. */
  lemma ColorByText(category: Value)
    ensures CategoryColor(category) == CategoryColor(Str(TemplateText(category)))
  {
  }

  /** The eight card gradients of the dashboard. */
  const Gradients: seq<string> := [
    "from-purple-500 via-pink-500 to-red-500",
    "from-blue-500 via-cyan-500 to-teal-500",
    "from-green-500 via-emerald-500 to-teal-500",
    "from-orange-500 via-red-500 to-pink-500",
    "from-indigo-500 via-purple-500 to-pink-500",
    "from-yellow-500 via-orange-500 to-red-500",
    "from-pink-500 via-rose-500 to-red-500",
    "from-cyan-500 via-blue-500 to-indigo-500"]

  /** `gradients[index % gradients.length]` for a card's position in the list. */
  function GradientClass(index: nat): (g: string)
    ensures g in Gradients
  {
    Gradients[index % |Gradients|]
  }

  /** Cards eight positions apart share a gradient: the palette repeats after its eighth
      entry. */
  lemma GradientsCycle(index: nat)
    ensures GradientClass(index + 8) == GradientClass(index)
    ensures GradientClass(index) == Gradients[index % 8]
  {
    assert (index + 8) % 8 == index % 8;
  }

  /** `club.members?.length || 0`: the length of the member list (a string counts its
      UTF-16 code units), 0 when there is none. A club counts members exactly when its
      member list is a non-empty array or text. */
  function MemberCount(club: Value): (c: nat)
    ensures var ms := Get(club, "members");
      c > 0 <==> (ms.Arr? && ms.elems != []) || (ms.Str? && ms.s != [])
    ensures var ms := Get(club, "members");
      ms.Arr? ==> c == |ms.elems|
  {
    var members := Get(club, "members");
    if members.Arr? then |members.elems| else if members.Str? then Utf16Length(members.s) else 0
  }

  /** "Total Members": `clubs.reduce((total, club) => total + (club.members?.length || 0), 0)`.
      No club counts more than the total, and the total is 0 exactly when every club counts 0. */
  function TotalMembers(clubs: seq<Value>): (t: nat)
    ensures forall i :: 0 <= i < |clubs| ==> MemberCount(clubs[i]) <= t
    ensures t == 0 <==> forall i :: 0 <= i < |clubs| ==> MemberCount(clubs[i]) == 0
  {
    if clubs == [] then 0
    else
      var front := clubs[..|clubs| - 1];
      assert forall i :: 0 <= i < |front| ==> front[i] == clubs[i];
      TotalMembers(front) + MemberCount(clubs[|clubs| - 1])
  }

  /** "Active Clubs": `clubs.filter(club => club.members?.length > 0).length`. There are no
      more active clubs than clubs, and an active club has a positive member count. */
  function ActiveClubs(clubs: seq<Value>): (a: nat)
    ensures a <= |clubs|
    ensures a > 0 ==> exists i :: 0 <= i < |clubs| && MemberCount(clubs[i]) > 0
  {
    if clubs == [] then 0
    else
      var front := clubs[..|clubs| - 1];
      assert forall i :: 0 <= i < |front| ==> front[i] == clubs[i];
      ActiveClubs(front) + (if MemberCount(clubs[|clubs| - 1]) > 0 then 1 else 0)
  }

  /** Active clubs never outnumber clubs, nor members. */
  lemma {:induction false} ActiveClubsBounded(clubs: seq<Value>)
    ensures ActiveClubs(clubs) <= |clubs|
    ensures ActiveClubs(clubs) <= TotalMembers(clubs)
  {
    if clubs != [] {
      ActiveClubsBounded(clubs[..|clubs| - 1]);
    }
  }

  /** There are no members exactly when there is no active club. */
  lemma {:induction false} NoMembersNoActiveClubs(clubs: seq<Value>)
    ensures TotalMembers(clubs) == 0 <==> ActiveClubs(clubs) == 0
  {
    if clubs != [] {
      NoMembersNoActiveClubs(clubs[..|clubs| - 1]);
    }
  }

  /** Active clubs are the clubs with a positive member count. */
  lemma {:induction false} ActiveClubsCountsNonEmpty(clubs: seq<Value>)
    ensures ActiveClubs(clubs) == |ActiveIndices(clubs)|
  {
    if clubs != [] {
      var n := |clubs| - 1;
      ActiveClubsCountsNonEmpty(clubs[..n]);
      ActiveIndicesSnoc(clubs);
    }
  }

  /** The positions of the clubs with a positive member count. */
  function ActiveIndices(clubs: seq<Value>): set<int> {
    set i | 0 <= i < |clubs| && MemberCount(clubs[i]) > 0
  }

  lemma ActiveIndicesSnoc(clubs: seq<Value>)
    requires clubs != []
    ensures var n := |clubs| - 1;
      ActiveIndices(clubs) == ActiveIndices(clubs[..n]) + (if MemberCount(clubs[n]) > 0 then {n} else {})
    ensures |clubs| - 1 !in ActiveIndices(clubs[..|clubs| - 1])
  {
    var n := |clubs| - 1;
    assert forall i :: 0 <= i < n ==> clubs[..n][i] == clubs[i];
  }

  /** The totals are sums over the list: appending a club adds its own count. */
  lemma {:induction false} TotalsAppend(clubs: seq<Value>, more: seq<Value>)
    ensures TotalMembers(clubs + more) == TotalMembers(clubs) + TotalMembers(more)
    ensures ActiveClubs(clubs + more) == ActiveClubs(clubs) + ActiveClubs(more)
    decreases |more|
  {
    if more == [] {
      assert clubs + more == clubs;
    } else {
      var n := |more| - 1;
      assert (clubs + more)[..|clubs + more| - 1] == clubs + more[..n];
      assert (clubs + more)[|clubs + more| - 1] == more[n];
      TotalsAppend(clubs, more[..n]);
    }
  }
}
