/** The HTTP handlers of server/routes.ts that decide something: the OAuth
    callback, `/api/auth/me`, logout, the feedback list, and the guard chains
    of POST, PATCH and DELETE on `/api/feedbacks`. One `Api` object holds the
    store and the caller's session; each handler runs as one step.

    What the handlers receive from the outside is passed in: the query and
    body of the request, the provider's answers, the generated feedback id,
    the current time and whether saving the session succeeded. A handler
    returns the status and JSON body it sends, or the redirect target. */
module Routes {
  import opened Wrappers
  import opened Schema
  import opened Discord
  import opened Storage

  datatype ReplyBody =
    | Message(text: string)
    | ValidationFailed(text: string, errors: seq<Issue>)
    | Row(feedback: Feedback)
    | Deleted

  datatype Reply = Reply(status: int, body: ReplyBody)

  /** `!req.session.userId` is false only for a non-empty id. */
  predicate SignedIn(session: Option<string>)
  {
    session.Some? && session.value != ""
  }

  /** The signed-in caller's row, if the session names one that exists. */
  function SessionUser(session: Option<string>, users: seq<User>): (r: Option<User>)
    ensures r.Some? ==> SignedIn(session) && r.value in users && r.value.id == session.value
    ensures r.None? <==> !SignedIn(session) || session.value !in UserIds(users)
  {
    if SignedIn(session) then GetUser(users, session.value) else None
  }

  /** `rating || null`: an absent rating and 0 are both stored as null. */
  function StoredRating(rating: Option<int>): (r: Option<int>)
    ensures r.None? <==> rating.None? || rating.value == 0
    ensures r.Some? ==> r == rating
  {
    match rating
    case None => None
    case Some(n) => if n == 0 then None else Some(n)
  }

  /** Owner or administrator. */
  predicate MayModify(user: User, feedback: Feedback)
  {
    feedback.userId == user.id || user.isAdmin
  }

  // ---------------------------------------------------------------------
  // Login

  /** A query-string value: absent, one string, or several (an array). */
  datatype QueryParam = Missing | Single(s: string) | Repeated(values: seq<string>)

  predicate Truthy(q: QueryParam)
  {
    (q.Single? && q.s != "") || q.Repeated?
  }

  function JoinWithCommas(values: seq<string>): string
  {
    if values == [] then ""
    else if |values| == 1 then values[0]
    else values[0] + "," + JoinWithCommas(values[1..])
  }

  /** How a query value reads inside a template string. */
  function QueryText(q: QueryParam): string
  {
    match q
    case Missing => "undefined"
    case Single(s) => s
    case Repeated(values) => JoinWithCommas(values)
  }

  const CallbackPath := "/api/auth/discord/callback"

  /** The redirect URI the server registers: its own base URL followed by
      the callback path (the base URL itself comes from request headers). */
  function CallbackUri(baseUrl: string): (r: string)
    ensures |r| == |baseUrl| + |CallbackPath| && r[..|baseUrl|] == baseUrl && r[|baseUrl|..] == CallbackPath
  {
    baseUrl + CallbackPath
  }

  /** `/api/auth/discord` redirects to the authorize URL built for the
      callback of this server. */
  function AuthStartTarget(clientId: string, baseUrl: string): string
  {
    GetDiscordAuthUrl(clientId, CallbackUri(baseUrl))
  }

  /** The authorize URL of the login start carries this server's callback
      as redirect_uri, next to the client id, response_type=code and the
      two scopes. */
  lemma AuthStartRedirectsHere(clientId: string, baseUrl: string)
    requires AsciiAuthInputs(clientId, baseUrl)
    ensures var url := AuthStartTarget(clientId, baseUrl);
      |AuthorizeEndpoint| <= |url| &&
      UrlSearchParams.Parse(url[|AuthorizeEndpoint|..]) ==
        [("client_id", clientId), ("redirect_uri", baseUrl + "/api/auth/discord/callback"),
         ("response_type", "code"), ("scope", "identify guilds.members.read")]
  {
    AsciiCallback(baseUrl);
    var redirect := CallbackUri(baseUrl);
    var url := GetDiscordAuthUrl(clientId, redirect);
    assert UrlSearchParams.Parse(url[|AuthorizeEndpoint|..]) ==
        [("client_id", clientId), ("redirect_uri", redirect),
         ("response_type", "code"), ("scope", "identify guilds.members.read")];
  }

  predicate AsciiAuthInputs(clientId: string, baseUrl: string)
  {
    UrlSearchParams.IsAscii(clientId) && UrlSearchParams.IsAscii(baseUrl)
  }

  lemma AsciiCallback(baseUrl: string)
    ensures UrlSearchParams.IsAscii(baseUrl) ==> UrlSearchParams.IsAscii(CallbackUri(baseUrl))
  {
    if UrlSearchParams.IsAscii(baseUrl) {
      var r := CallbackUri(baseUrl);
      forall i | 0 <= i < |r| ensures (r[i] as int) < 128 {
        if i >= |baseUrl| { assert r[i] == CallbackPath[i - |baseUrl|]; }
      }
    }
  }

  /** `global_name || username`. */
  function DisplayName(u: DiscordUser): (name: string)
    ensures u.globalName.Some? && u.globalName.value != "" ==> name == u.globalName.value
    ensures u.globalName.None? || u.globalName.value == "" ==> name == u.username
  {
    if u.globalName.Some? && u.globalName.value != "" then u.globalName.value else u.username
  }

  /** The columns a returning user's row is refreshed with at login. */
  function LoginPatch(u: DiscordUser, hasRole: bool): UserPatch
  {
    UserPatch(Some(DisplayName(u)), Some(Some(u.discriminator)), Some(u.avatar), Some(hasRole), None)
  }

  /** The row a first login creates: its id is the Discord id. */
  function LoginInsert(u: DiscordUser, hasRole: bool): InsertUser
  {
    InsertUser(u.id, u.id, DisplayName(u), Some(u.discriminator), u.avatar, Some(hasRole), None)
  }

  /** The callback gets as far as storing the user: no provider error, a
      usable code, and both the token exchange and the profile fetch
      succeeded. */
  predicate ReachesUpsert(code: QueryParam, error: QueryParam,
                          token: HttpResponse<TokenResponse>, profile: HttpResponse<DiscordUser>)
  {
    && !Truthy(error)
    && code.Single? && code.s != ""
    && ExchangeCodeForToken(token).Success?
    && GetDiscordUser(profile).Success?
  }

  // ---------------------------------------------------------------------
  // Feedback list

  /** The list query as parsed: every parameter optional. */
  datatype ListQuery = ListQuery(
    sortBy: Option<string>, sortOrder: Option<string>, rating: Option<int>,
    page: Option<int>, limit: Option<int>)

  datatype ListOptions = ListOptions(
    sortBy: Option<string>, sortOrder: Option<string>, ratingFilter: Option<int>,
    page: int, limit: int)

  /** The options the list handler builds: page 1 and limit 10 unless
      given; the other parameters are passed on as they are. */
  function ListOptionsOf(q: ListQuery): (o: ListOptions)
    ensures q.page.None? ==> o.page == 1
    ensures q.limit.None? ==> o.limit == 10
    ensures q.page.Some? ==> o.page == q.page.value
    ensures q.limit.Some? ==> o.limit == q.limit.value
    ensures o.ratingFilter == q.rating && o.sortBy == q.sortBy && o.sortOrder == q.sortOrder
  {
    ListOptions(q.sortBy, q.sortOrder, q.rating, q.page.GetOr(1), q.limit.GetOr(10))
  }

  // ---------------------------------------------------------------------

  class Api {
    const db: DatabaseStorage
    /** `req.session.userId` of the caller. */
    var sessionUserId: Option<string>

    constructor (db: DatabaseStorage)
      ensures this.db == db && sessionUserId == None
    {
      this.db := db;
      sessionUserId := None;
    }

    /** GET /api/auth/discord/callback. A provider error, a missing code and
        any failure before the user is stored end in `/?error=<reason>` with
        nothing changed. Otherwise the user is refreshed (found by Discord
        id) or created (with id = Discord id), with the name, avatar and a
        freshly computed role flag; then the session names that user, unless
        saving the session fails. */
    method DiscordCallback(code: QueryParam, error: QueryParam,
                           token: HttpResponse<TokenResponse>, profile: HttpResponse<DiscordUser>,
                           member: HttpResponse<GuildMember>, roleId: string,
                           now: int, sessionSaved: bool)
      returns (target: string)
      requires db.Valid()
      modifies this, db
      ensures db.Valid()
      ensures db.feedbacks == old(db.feedbacks)
      ensures Truthy(error) ==> target == "/?error=" + QueryText(error)
      ensures !Truthy(error) && !(code.Single? && code.s != "") ==> target == "/?error=no_code"
      ensures !Truthy(error) && code.Single? && code.s != ""
              && (ExchangeCodeForToken(token).Failure? || GetDiscordUser(profile).Failure?)
              ==> target == "/?error=auth_failed"
      ensures !ReachesUpsert(code, error, token, profile) ==>
              db.users == old(db.users) && sessionUserId == old(sessionUserId)
      ensures ReachesUpsert(code, error, token, profile) ==>
        var d := profile.body;
        var hasRole := HasRequiredRole(GetGuildMember(member), roleId);
        var existing := GetUserByDiscordId(old(db.users), d.id);
        if existing.Some? then
          && db.users == PatchUsers(old(db.users), existing.value.id, LoginPatch(d, hasRole))
          && target == (if sessionSaved then "/" else "/?error=session_error")
          && sessionUserId == (if sessionSaved then Some(existing.value.id) else old(sessionUserId))
        else if d.id in UserIds(old(db.users)) then
          && db.users == old(db.users)
          && target == "/?error=auth_failed"
          && sessionUserId == old(sessionUserId)
        else
          && db.users == old(db.users) + [UserRow(LoginInsert(d, hasRole), now)]
          && target == (if sessionSaved then "/" else "/?error=session_error")
          && sessionUserId == (if sessionSaved then Some(d.id) else old(sessionUserId))
      ensures target == "/" ==>
        && sessionUserId.Some?
        && var u := GetUser(db.users, sessionUserId.value);
        && u.Some?
        && u.value.discordId == profile.body.id
        && u.value.username == DisplayName(profile.body)
        && u.value.avatar == profile.body.avatar
        && u.value.hasClientRole == HasRequiredRole(GetGuildMember(member), roleId)
    {
      if Truthy(error) {
        return "/?error=" + QueryText(error);
      }
      if !(code.Single? && code.s != "") {
        return "/?error=no_code";
      }
      var tokenResult := ExchangeCodeForToken(token);
      if tokenResult.Failure? {
        return "/?error=auth_failed";
      }
      var profileResult := GetDiscordUser(profile);
      if profileResult.Failure? {
        return "/?error=auth_failed";
      }
      var discordUser := profileResult.value;
      var hasRole := HasRequiredRole(GetGuildMember(member), roleId);
      var existing := GetUserByDiscordId(db.users, discordUser.id);
      var user: User;
      if existing.Some? {
        var updated := db.UpdateUser(existing.value.id, LoginPatch(discordUser, hasRole));
        user := updated.value;
      } else {
        var created := db.CreateUser(LoginInsert(discordUser, hasRole), now);
        if created.Failure? {
          return "/?error=auth_failed";
        }
        user := created.value;
      }
      assert user in db.users;
      var k :| 0 <= k < |db.users| && db.users[k] == user;
      GetUserFindsTheRow(db.users, k);
      if !sessionSaved {
        return "/?error=session_error";
      }
      sessionUserId := Some(user.id);
      target := "/";
    }

    /** GET /api/auth/me: signed out without a session; a session whose user
        is gone is destroyed; otherwise the user. */
    method AuthMe() returns (r: AuthResponse)
      modifies this
      ensures r.authenticated <==> r.user.Some?
      ensures !SignedIn(old(sessionUserId)) ==> r == AuthResponse(false, None) && sessionUserId == old(sessionUserId)
      ensures SignedIn(old(sessionUserId)) && old(sessionUserId).value !in UserIds(db.users) ==>
              r == AuthResponse(false, None) && sessionUserId == None
      ensures SignedIn(old(sessionUserId)) && old(sessionUserId).value in UserIds(db.users) ==>
              r == AuthResponse(true, GetUser(db.users, old(sessionUserId).value)) && sessionUserId == old(sessionUserId)
    {
      if !SignedIn(sessionUserId) {
        return AuthResponse(false, None);
      }
      var user := GetUser(db.users, sessionUserId.value);
      if user.None? {
        sessionUserId := None;
        return AuthResponse(false, None);
      }
      r := AuthResponse(true, user);
    }

    /** GET /api/auth/logout: the session is destroyed. */
    method Logout() returns (target: string)
      modifies this
      ensures sessionUserId == None && target == "/"
    {
      sessionUserId := None;
      target := "/";
    }

    /** GET /api/feedbacks: every feedback with its author, newest first,
        whatever the query asks (the storage call ignores its options). */
    method ListFeedbacks(q: ListQuery) returns (r: seq<FeedbackWithUser>)
      requires db.Valid()
      ensures r == GetFeedbacks(db.feedbacks, db.users)
      ensures |r| == |db.feedbacks|
      ensures NewestFirstJoined(r)
      ensures forall f :: f in db.feedbacks ==> FeedbackWithUser(f, GetUser(db.users, f.userId).value) in r
    {
      var options := ListOptionsOf(q);
      r := GetFeedbacks(db.feedbacks, db.users);
    }

    /** POST /api/feedbacks: 401 without a session, 403 unless the user
        exists and holds the client role, 400 for an invalid payload, then
        the row is created (500 if the store refuses it) and returned with
        201. Only a 201 writes anything. */
    method PostFeedback(body: RequestBody, newId: string, now: int) returns (reply: Reply)
      requires db.Valid()
      modifies db
      ensures db.Valid()
      ensures db.users == old(db.users)
      ensures !SignedIn(sessionUserId) ==> reply == Reply(401, Message("Unauthorized"))
      ensures SignedIn(sessionUserId) &&
              (SessionUser(sessionUserId, db.users).None? || !SessionUser(sessionUserId, db.users).value.hasClientRole)
              ==> reply == Reply(403, Message("Forbidden - requires Client role"))
      ensures SessionUser(sessionUserId, db.users).Some? && SessionUser(sessionUserId, db.users).value.hasClientRole
              && ParseFeedbackFormAsWritten(body).Failure?
              ==> reply == Reply(400, ValidationFailed("Invalid feedback data", ParseFeedbackFormAsWritten(body).error))
      ensures SessionUser(sessionUserId, db.users).Some? && SessionUser(sessionUserId, db.users).value.hasClientRole
              && ParseFeedbackFormAsWritten(body).Success? && newId in FeedbackIds(old(db.feedbacks))
              ==> reply == Reply(500, Message("Failed to create feedback"))
      ensures reply.status != 201 ==> db.feedbacks == old(db.feedbacks)
      ensures reply.status == 201 <==>
              && SessionUser(sessionUserId, db.users).Some? && SessionUser(sessionUserId, db.users).value.hasClientRole
              && ParseFeedbackFormAsWritten(body).Success? && newId !in FeedbackIds(old(db.feedbacks))
      ensures reply.status == 201 ==>
        var form := ParseFeedbackFormAsWritten(body).value;
        var row := Feedback(newId, sessionUserId.value, form.content, StoredRating(form.rating), now, None);
        reply == Reply(201, Row(row)) && db.feedbacks == InsertNewestFirst(old(db.feedbacks), row)
    {
      if !SignedIn(sessionUserId) {
        return Reply(401, Message("Unauthorized"));
      }
      var user := GetUser(db.users, sessionUserId.value);
      if user.None? || !user.value.hasClientRole {
        return Reply(403, Message("Forbidden - requires Client role"));
      }
      var parsed := ParseFeedbackFormAsWritten(body);
      if parsed.Failure? {
        return Reply(400, ValidationFailed("Invalid feedback data", parsed.error));
      }
      var created := db.CreateFeedback(
        InsertFeedback(user.value.id, parsed.value.content, StoredRating(parsed.value.rating)), newId, now);
      if created.Failure? {
        return Reply(500, Message("Failed to create feedback"));
      }
      reply := Reply(201, Row(created.value));
    }

    /** PATCH /api/feedbacks/:id: 401 without a session, 404 when the
        feedback does not exist (checked before the caller is loaded), 401
        when the caller's row is gone, 403 unless owner or admin, 400 for an
        invalid payload (checked after ownership), then content and rating
        are replaced and the row returned. Only a 200 writes anything. */
    method PatchFeedback(id: string, body: RequestBody) returns (reply: Reply)
      requires db.Valid()
      modifies db
      ensures db.Valid()
      ensures db.users == old(db.users)
      ensures !SignedIn(sessionUserId) ==> reply == Reply(401, Message("Unauthorized"))
      ensures SignedIn(sessionUserId) && id !in FeedbackIds(old(db.feedbacks))
              ==> reply == Reply(404, Message("Feedback not found"))
      ensures SignedIn(sessionUserId) && id in FeedbackIds(old(db.feedbacks))
              && SessionUser(sessionUserId, db.users).None?
              ==> reply == Reply(401, Message("User not found"))
      ensures id in FeedbackIds(old(db.feedbacks)) && SessionUser(sessionUserId, db.users).Some?
              && !MayModify(SessionUser(sessionUserId, db.users).value, GetFeedback(old(db.feedbacks), id).value)
              ==> reply == Reply(403, Message("Cannot edit other users' feedback"))
      ensures id in FeedbackIds(old(db.feedbacks)) && SessionUser(sessionUserId, db.users).Some?
              && MayModify(SessionUser(sessionUserId, db.users).value, GetFeedback(old(db.feedbacks), id).value)
              && ParseFeedbackFormAsWritten(body).Failure?
              ==> reply == Reply(400, ValidationFailed("Invalid feedback data", ParseFeedbackFormAsWritten(body).error))
      ensures reply.status != 200 ==> db.feedbacks == old(db.feedbacks)
      ensures reply.status == 200 <==>
              && id in FeedbackIds(old(db.feedbacks)) && SessionUser(sessionUserId, db.users).Some?
              && MayModify(SessionUser(sessionUserId, db.users).value, GetFeedback(old(db.feedbacks), id).value)
              && ParseFeedbackFormAsWritten(body).Success?
      ensures reply.status == 200 ==>
        var form := ParseFeedbackFormAsWritten(body).value;
        && db.feedbacks == ReplaceFeedback(old(db.feedbacks), id, form.content, StoredRating(form.rating))
        && reply == Reply(200, Row(GetFeedback(old(db.feedbacks), id).value.(content := form.content, rating := StoredRating(form.rating))))
    {
      if !SignedIn(sessionUserId) {
        return Reply(401, Message("Unauthorized"));
      }
      var feedback := GetFeedback(db.feedbacks, id);
      if feedback.None? {
        return Reply(404, Message("Feedback not found"));
      }
      var user := GetUser(db.users, sessionUserId.value);
      if user.None? {
        return Reply(401, Message("User not found"));
      }
      if feedback.value.userId != user.value.id && !user.value.isAdmin {
        return Reply(403, Message("Cannot edit other users' feedback"));
      }
      var parsed := ParseFeedbackFormAsWritten(body);
      if parsed.Failure? {
        return Reply(400, ValidationFailed("Invalid feedback data", parsed.error));
      }
      var updated := db.UpdateFeedback(id, parsed.value.content, StoredRating(parsed.value.rating));
      reply := Reply(200, Row(updated.value));
    }

    /** DELETE /api/feedbacks/:id: the same guards as PATCH without the
        payload; on success exactly that row is gone and every other row
        stays, in order. Only a 200 writes anything. */
    method DeleteFeedback(id: string) returns (reply: Reply)
      requires db.Valid()
      modifies db
      ensures db.Valid()
      ensures db.users == old(db.users)
      ensures !SignedIn(sessionUserId) ==> reply == Reply(401, Message("Unauthorized"))
      ensures SignedIn(sessionUserId) && id !in FeedbackIds(old(db.feedbacks))
              ==> reply == Reply(404, Message("Feedback not found"))
      ensures SignedIn(sessionUserId) && id in FeedbackIds(old(db.feedbacks))
              && SessionUser(sessionUserId, db.users).None?
              ==> reply == Reply(401, Message("User not found"))
      ensures id in FeedbackIds(old(db.feedbacks)) && SessionUser(sessionUserId, db.users).Some?
              && !MayModify(SessionUser(sessionUserId, db.users).value, GetFeedback(old(db.feedbacks), id).value)
              ==> reply == Reply(403, Message("Cannot delete other users' feedback"))
      ensures reply.status != 200 ==> db.feedbacks == old(db.feedbacks)
      ensures reply.status == 200 <==>
              && id in FeedbackIds(old(db.feedbacks)) && SessionUser(sessionUserId, db.users).Some?
              && MayModify(SessionUser(sessionUserId, db.users).value, GetFeedback(old(db.feedbacks), id).value)
      ensures reply.status == 200 ==>
              && reply == Reply(200, Deleted)
              && db.feedbacks == RemoveFeedback(old(db.feedbacks), id)
              && |db.feedbacks| == |old(db.feedbacks)| - 1
              && FeedbackIds(db.feedbacks) == FeedbackIds(old(db.feedbacks)) - {id}
              && forall f :: f in db.feedbacks <==> f in old(db.feedbacks) && f.id != id
    {
      if !SignedIn(sessionUserId) {
        return Reply(401, Message("Unauthorized"));
      }
      var feedback := GetFeedback(db.feedbacks, id);
      if feedback.None? {
        return Reply(404, Message("Feedback not found"));
      }
      var user := GetUser(db.users, sessionUserId.value);
      if user.None? {
        return Reply(401, Message("User not found"));
      }
      if feedback.value.userId != user.value.id && !user.value.isAdmin {
        return Reply(403, Message("Cannot delete other users' feedback"));
      }
      RemoveKeepsUniqueIds(db.feedbacks, id);
      RemovedIds(db.feedbacks, id);
      var removed := db.DeleteFeedback(id);
      reply := Reply(200, Deleted);
    }
  }
}
