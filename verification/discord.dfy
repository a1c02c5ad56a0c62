/** The Discord adapter (server/discord.ts): the authorize URL, the mapping
    from the provider's HTTP answers to results, and the role check. The
    HTTP exchanges themselves are not modelled: each operation takes the
    status, the parsed body and the body text of the answer it received. */
module Discord {
  import opened Wrappers
  import UrlSearchParams

  datatype DiscordUser = DiscordUser(
    id: string,
    username: string,
    discriminator: string,
    avatar: Option<string>,
    globalName: Option<string>)

  datatype TokenResponse = TokenResponse(
    accessToken: string,
    tokenType: string,
    expiresIn: int,
    refreshToken: string,
    scope: string)

  datatype GuildMember = GuildMember(roles: seq<string>, nick: Option<string>, joinedAt: string)

  /** An answer of the provider: its status, its body parsed as T, and its
      raw text. */
  datatype HttpResponse<T> = HttpResponse(status: int, body: T, text: string)

  /** `response.ok`: a 2xx status. */
  predicate IsOk(status: int)
  {
    200 <= status <= 299
  }

  const AuthorizeEndpoint := "https://discord.com/api/oauth2/authorize?"
  const OAuthScope := "identify guilds.members.read"

  /** The query parameters of the authorize URL, in order. */
  function AuthParams(clientId: string, redirectUri: string): seq<(string, string)>
  {
    [("client_id", clientId), ("redirect_uri", redirectUri),
     ("response_type", "code"), ("scope", OAuthScope)]
  }

  /** getDiscordAuthUrl: the authorize endpoint followed by the serialized
      parameters; reading the query back yields the client id, the given
      redirect URI, response_type=code and the two scopes. */
  function GetDiscordAuthUrl(clientId: string, redirectUri: string): (url: string)
    ensures |AuthorizeEndpoint| <= |url| && url[..|AuthorizeEndpoint|] == AuthorizeEndpoint
    ensures UrlSearchParams.IsAscii(clientId) && UrlSearchParams.IsAscii(redirectUri) ==>
      UrlSearchParams.Parse(url[|AuthorizeEndpoint|..]) ==
        [("client_id", clientId), ("redirect_uri", redirectUri),
         ("response_type", "code"), ("scope", "identify guilds.members.read")]
  {
    var query := UrlSearchParams.Serialize(AuthParams(clientId, redirectUri));
    AuthQueryRoundTrip(clientId, redirectUri);
    assert (AuthorizeEndpoint + query)[|AuthorizeEndpoint|..] == query;
    AuthorizeEndpoint + query
  }

  lemma AuthQueryRoundTrip(clientId: string, redirectUri: string)
    ensures UrlSearchParams.IsAscii(clientId) && UrlSearchParams.IsAscii(redirectUri) ==>
      UrlSearchParams.Parse(UrlSearchParams.Serialize(AuthParams(clientId, redirectUri)))
        == AuthParams(clientId, redirectUri)
  {
    if UrlSearchParams.IsAscii(clientId) && UrlSearchParams.IsAscii(redirectUri) {
      var ps := AuthParams(clientId, redirectUri);
      assert UrlSearchParams.IsAscii(ps[0].0) by { assert ps[0].0 == "client_id"; }
      assert UrlSearchParams.IsAscii(ps[1].0) by { assert ps[1].0 == "redirect_uri"; }
      assert UrlSearchParams.IsAscii(ps[2].0) && UrlSearchParams.IsAscii(ps[2].1);
      assert UrlSearchParams.IsAscii(ps[3].0) && UrlSearchParams.IsAscii(ps[3].1);
      UrlSearchParams.ParseSerialize(ps);
    }
  }

  /** exchangeCodeForToken: any non-2xx answer is an error carrying the
      provider's text; otherwise the body is the token. */
  function ExchangeCodeForToken(response: HttpResponse<TokenResponse>): (r: Result<TokenResponse, string>)
    ensures r.Success? <==> IsOk(response.status)
    ensures r.Success? ==> r.value == response.body
    ensures r.Failure? ==> r.error == "Failed to exchange code for token: " + response.text
  {
    if !IsOk(response.status) then Failure("Failed to exchange code for token: " + response.text)
    else Success(response.body)
  }

  /** getDiscordUser: any non-2xx answer is an error; otherwise the body is
      the profile. */
  function GetDiscordUser(response: HttpResponse<DiscordUser>): (r: Result<DiscordUser, string>)
    ensures r.Success? <==> IsOk(response.status)
    ensures r.Success? ==> r.value == response.body
    ensures r.Failure? ==> r.error == "Failed to fetch Discord user"
  {
    if !IsOk(response.status) then Failure("Failed to fetch Discord user")
    else Success(response.body)
  }

  /** The three outcomes getGuildMember tells apart: a member, "not a member"
      (404), and any other failure (logged with the provider's text). */
  datatype Membership = IsMember(member: GuildMember) | NotMember | LookupFailed(detail: string)

  function ClassifyGuildResponse(response: HttpResponse<GuildMember>): (m: Membership)
    ensures response.status == 404 ==> m == NotMember
    ensures m.IsMember? <==> IsOk(response.status)
    ensures m.IsMember? ==> m.member == response.body
    ensures m.LookupFailed? ==> m.detail == response.text && !IsOk(response.status)
  {
    if response.status == 404 then NotMember
    else if !IsOk(response.status) then LookupFailed(response.text)
    else IsMember(response.body)
  }

  /** getGuildMember: both failures collapse to null; it never fails. */
  function GetGuildMember(response: HttpResponse<GuildMember>): (r: Option<GuildMember>)
    ensures r.Some? <==> IsOk(response.status)
    ensures r.Some? ==> r.value == response.body
  {
    match ClassifyGuildResponse(response)
    case IsMember(m) => Some(m)
    case NotMember => None
    case LookupFailed(_) => None
  }

  /** Array.prototype.includes on a list of role ids. */
  function Includes(roles: seq<string>, roleId: string): (r: bool)
    ensures r <==> roleId in roles
  {
    if roles == [] then false else roles[0] == roleId || Includes(roles[1..], roleId)
  }

  /** hasRequiredRole: false without a member, otherwise membership of the
      role id in the member's roles. */
  function HasRequiredRole(member: Option<GuildMember>, roleId: string): (r: bool)
    ensures member.None? ==> !r
    ensures member.Some? ==> (r <==> roleId in member.value.roles)
  {
    match member
    case None => false
    case Some(m) => Includes(m.roles, roleId)
  }

  /** Whatever goes wrong when fetching the membership, the outcome is
      "no role". */
  lemma FailedMembershipMeansNoRole(response: HttpResponse<GuildMember>, roleId: string)
    requires !IsOk(response.status)
    ensures !HasRequiredRole(GetGuildMember(response), roleId)
  {
  }

  /** With a 2xx answer, the role flag is exactly membership of the role id
      in the returned roles. */
  lemma MemberRoleDecides(response: HttpResponse<GuildMember>, roleId: string)
    requires IsOk(response.status)
    ensures HasRequiredRole(GetGuildMember(response), roleId) <==> roleId in response.body.roles
  {
  }
}
