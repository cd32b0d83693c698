/** The endpoint registry (src/services/apis.js): six fixed URLs and five URL builders
    parameterised by a club id, all rooted at the configured base URL. */
module Endpoints {

  /** `import.meta.env.VITE_BASE_URL`, fixed when the client is built; its value is unknown
      here, so every property below holds whatever it is. */
  const BaseUrl: string

  function SignupApi(): string { BaseUrl + "/auth/signup" }
  function LoginApi(): string { BaseUrl + "/auth/login" }
  function ProfileApi(): string { BaseUrl + "/auth/profile" }
  function CreateClubApi(): string { BaseUrl + "/clubs/create" }
  function GetAllClubsApi(): string { BaseUrl + "/clubs/all" }
  function GetMyClubsApi(): string { BaseUrl + "/clubs/my-clubs" }

  /** `${BASE_URL}/clubs/${clubId}`: starts with the base URL and ends with the id. */
  function GetClubByIdApi(clubId: string): (url: string)
    ensures BaseUrl <= url
    ensures |url| == |BaseUrl| + 7 + |clubId| && url[|url| - |clubId|..] == clubId
  {
    BaseUrl + "/clubs/" + clubId
  }

  /** `${BASE_URL}/clubs/members/${clubId}` */
  function GetClubMembersApi(clubId: string): (url: string)
    ensures BaseUrl <= url
    ensures |url| == |BaseUrl| + 15 + |clubId| && url[|url| - |clubId|..] == clubId
  {
    BaseUrl + "/clubs/members/" + clubId
  }

  /** `${BASE_URL}/clubs/join/${clubId}` */
  function JoinClubApi(clubId: string): (url: string)
    ensures BaseUrl <= url
    ensures |url| == |BaseUrl| + 12 + |clubId| && url[|url| - |clubId|..] == clubId
  {
    BaseUrl + "/clubs/join/" + clubId
  }

  /** `${BASE_URL}/clubs/leave/${clubId}` */
  function LeaveClubApi(clubId: string): (url: string)
    ensures BaseUrl <= url
    ensures |url| == |BaseUrl| + 13 + |clubId| && url[|url| - |clubId|..] == clubId
  {
    BaseUrl + "/clubs/leave/" + clubId
  }

  /** `${BASE_URL}/clubs/update/${clubId}` */
  function UpdateClubApi(clubId: string): (url: string)
    ensures BaseUrl <= url
    ensures |url| == |BaseUrl| + 14 + |clubId| && url[|url| - |clubId|..] == clubId
  {
    BaseUrl + "/clubs/update/" + clubId
  }

  /** `${BASE_URL}/clubs/${clubId}`: the same template as GET_CLUB_BY_ID_API. */
  function DeleteClubApi(clubId: string): (url: string)
    ensures url == GetClubByIdApi(clubId)
  {
    BaseUrl + "/clubs/" + clubId
  }

  /** Two URLs with the same prefix are equal only when the rest is equal. */
  lemma PrefixCancels(prefix: string, x: string, y: string)
    requires prefix + x == prefix + y
    ensures x == y
  {
    assert x == (prefix + x)[|prefix|..];
    assert y == (prefix + y)[|prefix|..];
  }

  /** Every registry entry starts with the base URL. */
  lemma AllUrlsStartWithBase(clubId: string)
    ensures BaseUrl <= SignupApi() && BaseUrl <= LoginApi() && BaseUrl <= ProfileApi()
    ensures BaseUrl <= CreateClubApi() && BaseUrl <= GetAllClubsApi() && BaseUrl <= GetMyClubsApi()
    ensures BaseUrl <= GetClubByIdApi(clubId) && BaseUrl <= GetClubMembersApi(clubId)
    ensures BaseUrl <= JoinClubApi(clubId) && BaseUrl <= LeaveClubApi(clubId)
    ensures BaseUrl <= UpdateClubApi(clubId) && BaseUrl <= DeleteClubApi(clubId)
  {
  }

  /** Each builder is injective in the club id: different clubs get different URLs. */
  lemma {:induction false} BuildersInjective(a: string, b: string)
    ensures GetClubByIdApi(a) == GetClubByIdApi(b) ==> a == b
    ensures GetClubMembersApi(a) == GetClubMembersApi(b) ==> a == b
    ensures JoinClubApi(a) == JoinClubApi(b) ==> a == b
    ensures LeaveClubApi(a) == LeaveClubApi(b) ==> a == b
    ensures UpdateClubApi(a) == UpdateClubApi(b) ==> a == b
    ensures DeleteClubApi(a) == DeleteClubApi(b) ==> a == b
  {
    if GetClubByIdApi(a) == GetClubByIdApi(b) {
      PrefixCancels(BaseUrl + "/clubs/", a, b);
    }
    if GetClubMembersApi(a) == GetClubMembersApi(b) {
      PrefixCancels(BaseUrl + "/clubs/members/", a, b);
    }
    if JoinClubApi(a) == JoinClubApi(b) {
      PrefixCancels(BaseUrl + "/clubs/join/", a, b);
    }
    if LeaveClubApi(a) == LeaveClubApi(b) {
      PrefixCancels(BaseUrl + "/clubs/leave/", a, b);
    }
    if UpdateClubApi(a) == UpdateClubApi(b) {
      PrefixCancels(BaseUrl + "/clubs/update/", a, b);
    }
  }

  /** The six fixed URLs, in the order the registry lists them. */
  function FixedUrls(): seq<string>
  {
    [SignupApi(), LoginApi(), ProfileApi(), CreateClubApi(), GetAllClubsApi(), GetMyClubsApi()]
  }

  /** The six fixed URLs are pairwise distinct. */
  lemma FixedUrlsDistinct()
    ensures |FixedUrls()| == 6
    ensures forall i, j :: 0 <= i < j < |FixedUrls()| ==> FixedUrls()[i] != FixedUrls()[j]
  {
    var paths := ["/auth/signup", "/auth/login", "/auth/profile", "/clubs/create", "/clubs/all", "/clubs/my-clubs"];
    forall i, j | 0 <= i < j < 6
      ensures FixedUrls()[i] != FixedUrls()[j]
    {
      assert FixedUrls()[i] == BaseUrl + paths[i] && FixedUrls()[j] == BaseUrl + paths[j];
      assert paths[i] != paths[j] by {
        assert |paths[i]| != |paths[j]| || paths[i][1] != paths[j][1] || paths[i][8] != paths[j][8];
      }
      if BaseUrl + paths[i] == BaseUrl + paths[j] {
        PrefixCancels(BaseUrl, paths[i], paths[j]);
      }
    }
  }

  /** The by-id template shares the `/clubs/` prefix with three fixed routes, so the ids
      "all", "my-clubs" and "create" address those routes instead of a club. */
  lemma ByIdShadowsFixedRoutes()
    ensures GetClubByIdApi("all") == GetAllClubsApi()
    ensures GetClubByIdApi("my-clubs") == GetMyClubsApi()
    ensures GetClubByIdApi("create") == CreateClubApi()
  {
    assert "/clubs/" + "all" == "/clubs/all";
    assert "/clubs/" + "my-clubs" == "/clubs/my-clubs";
    assert "/clubs/" + "create" == "/clubs/create";
  }
}
