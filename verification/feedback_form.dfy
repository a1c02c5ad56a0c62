/** The feedback submit form (client/src/components/feedback-form.tsx): the
    star state, the text, the pending flag of the request, the rating
    normalisation on submit and on sending, and the reset after success. */
module FeedbackFormClient {
  import opened Wrappers
  import opened Schema
  import StarRating
  import Storage
  import Routes

  /** onSubmit: a chosen star is kept, 0 (no star) becomes "no rating". */
  function SubmitRating(stars: int): (r: Option<int>)
    ensures r.Some? <==> stars > 0
    ensures r.Some? ==> r.value == stars
  {
    if stars > 0 then Some(stars) else None
  }

  /** mutationFn: the JSON object sent, `{content, rating: rating || null}`.
      The content goes out unchanged; a missing rating goes out as null. */
  function RequestBodyOf(content: string, rating: Option<int>): (body: RequestBody)
    ensures body.ObjectBody? && body.content == Some(JString(content))
    ensures rating.None? || rating.value == 0 ==> body.rating == Some(JNull)
    ensures rating.Some? && rating.value != 0 ==> body.rating == Some(JNumber(rating.value))
  {
    ObjectBody(Some(JString(content)),
               if rating.Some? && rating.value != 0 then Some(JNumber(rating.value)) else Some(JNull))
  }

  /** The check the form runs before sending: the schema applied to the
      form's own fields, whose rating field is never set. */
  predicate ClientAccepts(content: string)
  {
    ParseFeedbackFormAsWritten(ObjectBody(Some(JString(content)), None)).Success?
  }

  lemma ClientAcceptsExactly(content: string)
    ensures ClientAccepts(content) <==> ContentMin <= |content| <= ContentMax
  {
  }

  // ---------------------------------------------------------------------
  // The character counter

  function DigitChar(d: int): char
    requires 0 <= d < 10
  {
    ('0' as int + d) as char
  }

  /** A natural number in decimal, as a text node renders it. */
  function Decimal(n: nat): (s: string)
    ensures |s| > 0
    ensures forall i :: 0 <= i < |s| ==> '0' <= s[i] <= '9'
    ensures s[0] == '0' ==> n == 0 && s == "0"
  {
    if n < 10 then [DigitChar(n)] else Decimal(n / 10) + [DigitChar(n % 10)]
  }

  function DecimalValue(s: string): int
  {
    if s == [] then 0 else DecimalValue(s[..|s| - 1]) * 10 + (s[|s| - 1] as int - '0' as int)
  }

  lemma {:induction false} DecimalRoundTrip(n: nat)
    ensures DecimalValue(Decimal(n)) == n
  {
    if n >= 10 {
      var s := Decimal(n);
      assert s[..|s| - 1] == Decimal(n / 10);
      DecimalRoundTrip(n / 10);
    }
  }

  /** `{contentLength}/500`. */
  function CounterText(content: string): (text: string)
    ensures exists k :: && 0 < k < |text| && text[k] == '/'
                        && (forall i :: 0 <= i < k ==> '0' <= text[i] <= '9')
                        && (text[0] == '0' ==> k == 1)
                        && DecimalValue(text[..k]) == |content|
                        && text[k + 1..] == "500"
  {
    var count := Decimal(|content|);
    DecimalRoundTrip(|content|);
    var text := count + "/" + Decimal(ContentMax);
    assert text[..|count|] == count;
    assert forall i :: 0 <= i < |count| ==> text[i] == count[i];
    assert Decimal(ContentMax) == "500";
    assert text[|count| + 1..] == "500";
    text
  }

  // ---------------------------------------------------------------------

  class FeedbackFormState {
    /** The `rating` state: 0 means no star chosen. */
    var rating: int
    /** The content field. */
    var content: string
    /** `mutation.isPending`. */
    var pending: bool

    ghost predicate Valid()
      reads this
    {
      0 <= rating <= 5
    }

    constructor ()
      ensures Valid() && rating == 0 && content == "" && !pending
    {
      rating := 0;
      content := "";
      pending := false;
    }

    /** The submit button is disabled while a request is in flight. */
    function SubmitDisabled(): (disabled: bool)
      reads this
      ensures disabled <==> pending
    {
      pending
    }

    /** Typing into the content field. */
    method Type(text: string)
      modifies this
      ensures content == text && rating == old(rating) && pending == old(pending)
    {
      content := text;
    }

    /** A click on star `value`: the control reports the toggled rating and
        the form stores it. */
    method ClickStar(value: int)
      requires Valid() && 1 <= value <= 5
      modifies this
      ensures Valid()
      ensures rating == StarRating.HandleClick(value, old(rating), false, true).value
      ensures content == old(content) && pending == old(pending)
    {
      var reported := StarRating.HandleClick(value, rating, false, true);
      rating := reported.value;
    }

    /** Submitting: nothing is sent while a request is pending or when the
        content fails the form's own check; otherwise the request body
        carries the content and the normalised rating, and the form waits. */
    method Submit() returns (request: Option<RequestBody>)
      requires Valid()
      modifies this
      ensures Valid()
      ensures content == old(content) && rating == old(rating)
      ensures request.Some? <==> !old(pending) && ClientAccepts(content)
      ensures request.Some? ==> request.value == RequestBodyOf(content, SubmitRating(rating)) && pending
      ensures request.None? ==> pending == old(pending)
    {
      if pending || !ClientAccepts(content) {
        return None;
      }
      pending := true;
      request := Some(RequestBodyOf(content, SubmitRating(rating)));
    }

    /** onSuccess: the form is reset to its defaults and the stars cleared. */
    method OnSuccess()
      modifies this
      ensures Valid() && content == "" && rating == 0 && !pending
    {
      content := "";
      rating := 0;
      pending := false;
    }

    /** onError: only the pending state ends; what was typed stays. */
    method OnError()
      requires Valid()
      modifies this
      ensures Valid() && content == old(content) && rating == old(rating) && !pending
    {
      pending := false;
    }
  }

  // ---------------------------------------------------------------------
  // What the server makes of what the form sends

  /** With the schema as written, a submission without a star is rejected
      whatever the content: the form sends a null rating and the schema only
      allows the rating to be absent. */
  lemma UnratedSubmissionRejectedAsWritten(content: string)
    ensures ParseFeedbackFormAsWritten(RequestBodyOf(content, SubmitRating(0))).Failure?
  {
  }

  /** End to end, with the handler as written: a signed-in user holding the
      client role who submits the form without choosing a star gets 400, and
      nothing is stored. */
  method UnratedPostGets400(api: Routes.Api, content: string, newId: string, now: int)
    returns (reply: Routes.Reply)
    requires api.db.Valid()
    requires Routes.SessionUser(api.sessionUserId, api.db.users).Some?
    requires Routes.SessionUser(api.sessionUserId, api.db.users).value.hasClientRole
    modifies api.db
    ensures reply.status == 400 && reply.body.ValidationFailed?
    ensures api.db.feedbacks == old(api.db.feedbacks)
  {
    UnratedSubmissionRejectedAsWritten(content);
    reply := api.PostFeedback(RequestBodyOf(content, SubmitRating(0)), newId, now);
  }

  /** The same for an edit: the owner (or an administrator) sending an
      unrated form for an existing feedback gets 400 and the row stays. */
  method UnratedPatchGets400(api: Routes.Api, id: string, content: string) returns (reply: Routes.Reply)
    requires api.db.Valid()
    requires id in Storage.FeedbackIds(api.db.feedbacks)
    requires Routes.SessionUser(api.sessionUserId, api.db.users).Some?
    requires Routes.MayModify(Routes.SessionUser(api.sessionUserId, api.db.users).value,
                              Storage.GetFeedback(api.db.feedbacks, id).value)
    modifies api.db
    ensures reply.status == 400 && reply.body.ValidationFailed?
    ensures api.db.feedbacks == old(api.db.feedbacks)
  {
    UnratedSubmissionRejectedAsWritten(content);
    reply := api.PatchFeedback(id, RequestBodyOf(content, SubmitRating(0)));
  }

  /** With the corrected schema, everything the form sends is accepted: for
      every star state from 0 to 5 and every content the form lets through,
      the server parses the content unchanged and stores the chosen star, or
      null when none was chosen. */
  lemma EverySubmissionAccepted(content: string, stars: int)
    requires ClientAccepts(content) && 0 <= stars <= 5
    ensures var parsed := ParseFeedbackForm(RequestBodyOf(content, SubmitRating(stars)));
      && parsed.Success?
      && parsed.value.content == content
      && Routes.StoredRating(parsed.value.rating) == SubmitRating(stars)
  {
    ClientAcceptsExactly(content);
  }
}
