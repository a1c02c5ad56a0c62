/** Row shapes of the `users` and `feedbacks` tables, the joined projection
    `FeedbackWithUser`, the `/api/auth/me` response shape, and the
    `feedbackFormSchema` payload validator (shared/schema.ts). */
module Schema {
  import opened Wrappers

  /** A row of `users`. `id` is the primary key and `discordId` is unique
      (both enforced by the table; see Storage.UniqueUserKeys). Timestamps
      are milliseconds since the epoch. */
  datatype User = User(
    id: string,
    discordId: string,
    username: string,
    discriminator: Option<string>,
    avatar: Option<string>,
    hasClientRole: bool,
    isAdmin: bool,
    createdAt: int)

  /** The insert shape of `users`: `createdAt` is set by the table and the
      two flags may be left out. */
  datatype InsertUser = InsertUser(
    id: string,
    discordId: string,
    username: string,
    discriminator: Option<string>,
    avatar: Option<string>,
    hasClientRole: Option<bool>,
    isAdmin: Option<bool>)

  /** The row the table stores for an insert at time `now`: the flags
      default to false and `createdAt` defaults to now. */
  function UserRow(u: InsertUser, now: int): (r: User)
    ensures r.id == u.id && r.discordId == u.discordId && r.username == u.username
    ensures r.discriminator == u.discriminator && r.avatar == u.avatar
    ensures r.hasClientRole <==> u.hasClientRole == Some(true)
    ensures r.isAdmin <==> u.isAdmin == Some(true)
    ensures r.createdAt == now
  {
    User(u.id, u.discordId, u.username, u.discriminator, u.avatar,
         u.hasClientRole.GetOr(false), u.isAdmin.GetOr(false), now)
  }

  /** A row of `feedbacks`. `userId` and `content` are NOT NULL, so they are
      plain values; `rating` and `updatedAt` are nullable. */
  datatype Feedback = Feedback(
    id: string,
    userId: string,
    content: string,
    rating: Option<int>,
    createdAt: int,
    updatedAt: Option<int>)

  /** The insert shape of `feedbacks`: `id` and `createdAt` are generated. */
  datatype InsertFeedback = InsertFeedback(userId: string, content: string, rating: Option<int>)

  /** The row the table stores for an insert with generated id `id` at time
      `now`: never updated yet. */
  function FeedbackRow(f: InsertFeedback, id: string, now: int): (r: Feedback)
    ensures r.id == id && r.userId == f.userId && r.content == f.content && r.rating == f.rating
    ensures r.createdAt == now && r.updatedAt == None
  {
    Feedback(id, f.userId, f.content, f.rating, now, None)
  }

  /** A feedback row together with exactly one user. */
  datatype FeedbackWithUser = FeedbackWithUser(feedback: Feedback, user: User)

  /** The JSON answer of `/api/auth/me`. */
  datatype AuthResponse = AuthResponse(authenticated: bool, user: Option<User>)

  // ---------------------------------------------------------------------
  // feedbackFormSchema

  /** A JSON value as the request body parser delivers it. Numbers are
      integers in this model. */
  datatype JsonValue = JNull | JBool(b: bool) | JNumber(n: int) | JString(s: string) | JArray | JObject

  /** A request body: a JSON object (only the two keys the schema reads
      matter; other keys are stripped) or anything else. */
  datatype RequestBody = ObjectBody(content: Option<JsonValue>, rating: Option<JsonValue>) | OtherBody

  datatype IssueCode = InvalidType(expected: string) | TooSmall(minimum: int) | TooBig(maximum: int)

  /** One validation error: the path of the offending field, what failed,
      and the schema's own message where it declares one. */
  datatype Issue = Issue(path: seq<string>, code: IssueCode, message: Option<string>)

  /** The parsed payload. */
  datatype FeedbackForm = FeedbackForm(content: string, rating: Option<int>)

  const ContentMin := 10
  const ContentMax := 500
  const RatingMin := 1
  const RatingMax := 5
  const ContentTooShort := "Opinia musi mieć co najmniej 10 znaków"
  const ContentTooLong := "Opinia może mieć maksymalnie 500 znaków"

  function ContentIssues(v: Option<JsonValue>): seq<Issue>
  {
    match v
    case Some(JString(s)) =>
      (if |s| < ContentMin then [Issue(["content"], TooSmall(ContentMin), Some(ContentTooShort))] else [])
      + (if |s| > ContentMax then [Issue(["content"], TooBig(ContentMax), Some(ContentTooLong))] else [])
    case _ => [Issue(["content"], InvalidType("string"), None)]
  }

  /** `nullAllowed` distinguishes the schema as written (`.optional()` only,
      so a JSON null is a type error) from the corrected one. */
  function RatingIssues(v: Option<JsonValue>, nullAllowed: bool): seq<Issue>
  {
    match v
    case None => []
    case Some(JNull) => if nullAllowed then [] else [Issue(["rating"], InvalidType("number"), None)]
    case Some(JNumber(n)) =>
      (if n < RatingMin then [Issue(["rating"], TooSmall(RatingMin), None)] else [])
      + (if n > RatingMax then [Issue(["rating"], TooBig(RatingMax), None)] else [])
    case Some(_) => [Issue(["rating"], InvalidType("number"), None)]
  }

  /** Object-schema parsing: every field is checked and all issues are
      collected, content's before rating's. */
  function SafeParse(body: RequestBody, nullAllowed: bool): Result<FeedbackForm, seq<Issue>>
  {
    match body
    case OtherBody => Failure([Issue([], InvalidType("object"), None)])
    case ObjectBody(content, rating) =>
      var issues := ContentIssues(content) + RatingIssues(rating, nullAllowed);
      if issues != [] then Failure(issues)
      else Success(FeedbackForm(content.value.s,
                                if rating.Some? && rating.value.JNumber? then Some(rating.value.n) else None))
  }

  /** feedbackFormSchema.safeParse as written: content must be a string of
      10 to 500 characters; rating may be absent, and when present must be a
      number from 1 to 5 (a null is rejected). */
  function ParseFeedbackFormAsWritten(body: RequestBody): (r: Result<FeedbackForm, seq<Issue>>)
    ensures r.Success? <==>
      && body.ObjectBody?
      && body.content.Some? && body.content.value.JString?
      && 10 <= |body.content.value.s| <= 500
      && (body.rating.None? || (body.rating.value.JNumber? && 1 <= body.rating.value.n <= 5))
    ensures r.Success? ==> r.value.content == body.content.value.s
    ensures r.Success? ==> r.value.rating == if body.rating.None? then None else Some(body.rating.value.n)
    ensures r.Failure? ==> |r.error| > 0
  {
    SafeParse(body, false)
  }

  /** The validator as evidently intended: like ParseFeedbackFormAsWritten,
      except that a null rating means "no rating", which is what the submit
      form sends. The handlers use the validator as written. */
  function ParseFeedbackForm(body: RequestBody): (r: Result<FeedbackForm, seq<Issue>>)
    ensures r.Success? <==>
      && body.ObjectBody?
      && body.content.Some? && body.content.value.JString?
      && 10 <= |body.content.value.s| <= 500
      && (body.rating.None? || body.rating == Some(JNull)
          || (body.rating.value.JNumber? && 1 <= body.rating.value.n <= 5))
    ensures r.Success? ==> r.value.content == body.content.value.s
    ensures r.Success? ==> r.value.rating == if body.rating.Some? && body.rating.value.JNumber? then Some(body.rating.value.n) else None
    ensures r.Success? ==> r.value.rating.None? || 1 <= r.value.rating.value <= 5
    ensures r.Failure? ==> |r.error| > 0
    ensures !(body.ObjectBody? && body.rating == Some(JNull)) ==> r == ParseFeedbackFormAsWritten(body)
  {
    SafeParse(body, true)
  }

  /** The length boundaries: 9 and 501 are rejected, 10 and 500 accepted,
      whatever the (valid) rating. */
  lemma ContentLengthBoundaries(s: string, rating: Option<JsonValue>)
    requires rating.None? || (rating.value.JNumber? && 1 <= rating.value.n <= 5)
    ensures |s| == 9 || |s| == 501 ==> ParseFeedbackForm(ObjectBody(Some(JString(s)), rating)).Failure?
    ensures |s| == 10 || |s| == 500 ==> ParseFeedbackForm(ObjectBody(Some(JString(s)), rating)).Success?
  {
  }

  /** For an object body, both validators report their issues only at the
      paths of the two fields, `content` and `rating`. */
  lemma FailureNamesTheFields(body: RequestBody)
    requires body.ObjectBody?
    ensures var r := ParseFeedbackFormAsWritten(body);
      r.Failure? ==> forall i :: 0 <= i < |r.error| ==> r.error[i].path == ["content"] || r.error[i].path == ["rating"]
    ensures var r := ParseFeedbackForm(body);
      r.Failure? ==> forall i :: 0 <= i < |r.error| ==> r.error[i].path == ["content"] || r.error[i].path == ["rating"]
  {
  }
}
