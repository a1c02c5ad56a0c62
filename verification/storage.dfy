/** The storage layer (server/storage.ts): the `users` and `feedbacks` tables
    as sequences of rows held by DatabaseStorage. The read queries are
    functions of the rows; the writes are methods that replace the rows.

    `feedbacks` is kept in the order every query of the source asks for,
    newest `createdAt` first, so the reads can hand rows out in table order.
    The table constraints (primary keys, the unique `discord_id`, the foreign
    key from `feedbacks.user_id` to `users.id`) are part of Valid(), and a
    write that would break one fails with a DbError instead, as the database
    does. */
module Storage {
  import opened Wrappers
  import opened Schema

  datatype DbError = UniqueViolation(column: string) | ForeignKeyViolation(column: string)

  // ---------------------------------------------------------------------
  // Table constraints

  function UserIds(rows: seq<User>): set<string>
  {
    set u | u in rows :: u.id
  }

  function DiscordIds(rows: seq<User>): set<string>
  {
    set u | u in rows :: u.discordId
  }

  function FeedbackIds(rows: seq<Feedback>): set<string>
  {
    set f | f in rows :: f.id
  }

  /** Primary key `id` and unique `discord_id`. */
  ghost predicate UniqueUserKeys(rows: seq<User>)
  {
    forall i, j :: 0 <= i < j < |rows| ==> rows[i].id != rows[j].id && rows[i].discordId != rows[j].discordId
  }

  ghost predicate UniqueFeedbackIds(rows: seq<Feedback>)
  {
    forall i, j :: 0 <= i < j < |rows| ==> rows[i].id != rows[j].id
  }

  /** `ORDER BY created_at DESC`. */
  ghost predicate NewestFirst(rows: seq<Feedback>)
  {
    forall i, j :: 0 <= i < j < |rows| ==> rows[i].createdAt >= rows[j].createdAt
  }

  ghost predicate NewestFirstJoined(rows: seq<FeedbackWithUser>)
  {
    forall i, j :: 0 <= i < j < |rows| ==> rows[i].feedback.createdAt >= rows[j].feedback.createdAt
  }

  /** Every feedback row references an existing user. */
  ghost predicate ReferencesExist(feedbacks: seq<Feedback>, users: seq<User>)
  {
    forall f :: f in feedbacks ==> f.userId in UserIds(users)
  }

  // ---------------------------------------------------------------------
  // Reads

  /** getUser: the row whose primary key is `id`, or nothing. */
  function GetUser(rows: seq<User>, id: string): (r: Option<User>)
    ensures r.Some? ==> r.value in rows && r.value.id == id
    ensures r.None? <==> id !in UserIds(rows)
  {
    if rows == [] then None
    else if rows[0].id == id then Some(rows[0])
    else GetUser(rows[1..], id)
  }

  /** getUserByDiscordId: the row whose `discordId` is `discordId`, or nothing. */
  function GetUserByDiscordId(rows: seq<User>, discordId: string): (r: Option<User>)
    ensures r.Some? ==> r.value in rows && r.value.discordId == discordId
    ensures r.None? <==> discordId !in DiscordIds(rows)
  {
    if rows == [] then None
    else if rows[0].discordId == discordId then Some(rows[0])
    else GetUserByDiscordId(rows[1..], discordId)
  }

  /** Under the key constraints a lookup finds the one row with that key. */
  lemma GetUserFindsTheRow(rows: seq<User>, k: nat)
    requires UniqueUserKeys(rows) && k < |rows|
    ensures GetUser(rows, rows[k].id) == Some(rows[k])
    ensures GetUserByDiscordId(rows, rows[k].discordId) == Some(rows[k])
  {
    var u := GetUser(rows, rows[k].id).value;
    var i :| 0 <= i < |rows| && rows[i] == u;
    assert i == k;
    var v := GetUserByDiscordId(rows, rows[k].discordId).value;
    var j :| 0 <= j < |rows| && rows[j] == v;
    assert j == k;
  }

  /** The feedback row with that id, or nothing (the lookup the routes call
      `getFeedback`). */
  function GetFeedback(rows: seq<Feedback>, id: string): (r: Option<Feedback>)
    ensures r.Some? ==> r.value in rows && r.value.id == id
    ensures r.None? <==> id !in FeedbackIds(rows)
  {
    if rows == [] then None
    else if rows[0].id == id then Some(rows[0])
    else GetFeedback(rows[1..], id)
  }

  /** getFeedbacksByUserId: exactly the rows of that user, each as often as
      the table holds it, in table order. */
  function GetFeedbacksByUserId(rows: seq<Feedback>, userId: string): (r: seq<Feedback>)
    ensures |r| <= |rows|
    ensures forall f :: f in r <==> f in rows && f.userId == userId
    ensures NewestFirst(rows) ==> NewestFirst(r)
  {
    if rows == [] then []
    else
      var rest := GetFeedbacksByUserId(rows[1..], userId);
      assert forall f :: f in rows <==> f == rows[0] || f in rows[1..];
      if rows[0].userId == userId then [rows[0]] + rest else rest
  }

  /** Each row of that user is returned as often as the table holds it, and
      no row of another user is. */
  lemma {:induction false} ByUserIdCount(rows: seq<Feedback>, userId: string, f: Feedback)
    ensures multiset(GetFeedbacksByUserId(rows, userId))[f] ==
      if f.userId == userId then multiset(rows)[f] else 0
  {
    if rows != [] {
      ByUserIdCount(rows[1..], userId, f);
      assert rows == [rows[0]] + rows[1..];
    }
  }

  /** One row of `feedbacks LEFT JOIN users`: the user is null when the
      referenced row is missing. */
  datatype JoinedRow = JoinedRow(feedbacks: Feedback, users: Option<User>)

  function LeftJoin(feedbacks: seq<Feedback>, users: seq<User>): (r: seq<JoinedRow>)
    ensures |r| == |feedbacks|
    ensures forall i :: 0 <= i < |r| ==> r[i] == JoinedRow(feedbacks[i], GetUser(users, feedbacks[i].userId))
  {
    seq(|feedbacks|, i requires 0 <= i < |feedbacks| => JoinedRow(feedbacks[i], GetUser(users, feedbacks[i].userId)))
  }

  /** The post-processing of getFeedbacks: rows whose user is null are
      dropped, each other row becomes the feedback together with its user. */
  function DropOrphans(rows: seq<JoinedRow>): (r: seq<FeedbackWithUser>)
    ensures |r| <= |rows|
    ensures forall i :: 0 <= i < |rows| && rows[i].users.Some? ==>
      FeedbackWithUser(rows[i].feedbacks, rows[i].users.value) in r
    ensures forall x :: x in r ==> JoinedRow(x.feedback, Some(x.user)) in rows
    ensures (forall i :: 0 <= i < |rows| ==> rows[i].users.Some?) ==> |r| == |rows|
  {
    if rows == [] then []
    else
      var rest := DropOrphans(rows[1..]);
      assert forall i :: 1 <= i < |rows| ==> rows[i] == rows[1..][i - 1];
      if rows[0].users.Some? then [FeedbackWithUser(rows[0].feedbacks, rows[0].users.value)] + rest
      else rest
  }

  /** A feedback with its user occurs in the result exactly as often as the
      joined row pairing them. */
  lemma {:induction false} DropOrphansCount(rows: seq<JoinedRow>, x: FeedbackWithUser)
    ensures multiset(DropOrphans(rows))[x] == multiset(rows)[JoinedRow(x.feedback, Some(x.user))]
  {
    if rows != [] {
      DropOrphansCount(rows[1..], x);
      assert rows == [rows[0]] + rows[1..];
    }
  }

  /** Dropping rows keeps the order of the rows that stay. */
  lemma {:induction false} DropOrphansKeepsOrder(rows: seq<JoinedRow>)
    requires forall i, j :: 0 <= i < j < |rows| ==> rows[i].feedbacks.createdAt >= rows[j].feedbacks.createdAt
    ensures NewestFirstJoined(DropOrphans(rows))
  {
    if rows != [] {
      DropOrphansKeepsOrder(rows[1..]);
      var rest := DropOrphans(rows[1..]);
      forall x | x in rest
        ensures x.feedback.createdAt <= rows[0].feedbacks.createdAt
      {
        var k :| 0 <= k < |rows[1..]| && rows[1..][k] == JoinedRow(x.feedback, Some(x.user));
        assert rows[k + 1] == rows[1..][k];
      }
    }
  }

  /** How often `y` occurs in a non-empty sequence: once more than in its
      tail when it is the head. */
  lemma CountHead<T>(s: seq<T>, y: T)
    requires s != []
    ensures multiset(s)[y] == (if s[0] == y then 1 else 0) + multiset(s[1..])[y]
  {
    assert s == [s[0]] + s[1..];
  }

  /** Past its first row, the left join of a table is the join of the rest. */
  lemma LeftJoinTail(feedbacks: seq<Feedback>, users: seq<User>)
    requires feedbacks != []
    ensures LeftJoin(feedbacks, users)[1..] == LeftJoin(feedbacks[1..], users)
  {
    var joined := LeftJoin(feedbacks, users);
    var rest := LeftJoin(feedbacks[1..], users);
    forall i | 0 <= i < |rest| ensures joined[1..][i] == rest[i] {
      assert feedbacks[1..][i] == feedbacks[i + 1];
    }
  }

  /** Each feedback row occurs in the left join as often as in the table,
      paired with the user the join finds for it. */
  lemma {:induction false} LeftJoinCount(feedbacks: seq<Feedback>, users: seq<User>, f: Feedback, u: User)
    ensures multiset(LeftJoin(feedbacks, users))[JoinedRow(f, Some(u))] ==
      if GetUser(users, f.userId) == Some(u) then multiset(feedbacks)[f] else 0
  {
    if feedbacks != [] {
      LeftJoinCount(feedbacks[1..], users, f, u);
      LeftJoinTail(feedbacks, users);
      CountHead(LeftJoin(feedbacks, users), JoinedRow(f, Some(u)));
      CountHead(feedbacks, f);
    }
  }

  /** getFeedbacks: the joined rows that have a user, newest first, each
      feedback as often as the table holds it; when every feedback
      references an existing user, nothing is dropped. */
  function GetFeedbacks(feedbacks: seq<Feedback>, users: seq<User>): (r: seq<FeedbackWithUser>)
    ensures |r| <= |feedbacks|
    ensures forall x :: x in r ==> x.feedback in feedbacks && GetUser(users, x.feedback.userId) == Some(x.user)
    ensures forall f :: f in feedbacks && f.userId in UserIds(users) ==>
      FeedbackWithUser(f, GetUser(users, f.userId).value) in r
    ensures NewestFirst(feedbacks) ==> NewestFirstJoined(r)
    ensures ReferencesExist(feedbacks, users) ==> |r| == |feedbacks|
  {
    JoinFacts(feedbacks, users);
    DropOrphans(LeftJoin(feedbacks, users))
  }

  /** A feedback with a user occurs in getFeedbacks as often as the feedback
      occurs in its table when that user is the one the join finds for it,
      and not at all otherwise: no row is duplicated or lost. */
  lemma GetFeedbacksCount(feedbacks: seq<Feedback>, users: seq<User>, x: FeedbackWithUser)
    ensures multiset(GetFeedbacks(feedbacks, users))[x] ==
      if GetUser(users, x.feedback.userId) == Some(x.user) then multiset(feedbacks)[x.feedback] else 0
  {
    DropOrphansCount(LeftJoin(feedbacks, users), x);
    LeftJoinCount(feedbacks, users, x.feedback, x.user);
  }

  lemma JoinFacts(feedbacks: seq<Feedback>, users: seq<User>)
    ensures var r := DropOrphans(LeftJoin(feedbacks, users));
      && (forall x :: x in r ==> x.feedback in feedbacks && GetUser(users, x.feedback.userId) == Some(x.user))
      && (forall f :: f in feedbacks && f.userId in UserIds(users) ==>
            FeedbackWithUser(f, GetUser(users, f.userId).value) in r)
      && (NewestFirst(feedbacks) ==> NewestFirstJoined(r))
      && (ReferencesExist(feedbacks, users) ==> |r| == |feedbacks|)
  {
    var joined := LeftJoin(feedbacks, users);
    var r := DropOrphans(joined);
    forall x | x in r
      ensures x.feedback in feedbacks && GetUser(users, x.feedback.userId) == Some(x.user)
    {
      var k :| 0 <= k < |joined| && joined[k] == JoinedRow(x.feedback, Some(x.user));
    }
    forall f | f in feedbacks && f.userId in UserIds(users)
      ensures FeedbackWithUser(f, GetUser(users, f.userId).value) in r
    {
      var k :| 0 <= k < |feedbacks| && feedbacks[k] == f;
      assert joined[k].users.Some?;
    }
    if NewestFirst(feedbacks) {
      DropOrphansKeepsOrder(joined);
    }
    if ReferencesExist(feedbacks, users) {
      forall i | 0 <= i < |joined| ensures joined[i].users.Some? {
        assert feedbacks[i] in feedbacks;
      }
    }
  }

  // ---------------------------------------------------------------------
  // Writes, as functions of the rows

  /** `Partial<InsertUser>` as updateUser receives it: None leaves a column
      alone; Some(None) sets a nullable column to null. */
  datatype UserPatch = UserPatch(
    username: Option<string>,
    discriminator: Option<Option<string>>,
    avatar: Option<Option<string>>,
    hasClientRole: Option<bool>,
    isAdmin: Option<bool>)

  /** `SET` with the supplied columns only. */
  function ApplyPatch(u: User, p: UserPatch): (r: User)
    ensures r.id == u.id && r.discordId == u.discordId && r.createdAt == u.createdAt
    ensures r.username == p.username.GetOr(u.username)
    ensures r.discriminator == p.discriminator.GetOr(u.discriminator)
    ensures r.avatar == p.avatar.GetOr(u.avatar)
    ensures r.hasClientRole == p.hasClientRole.GetOr(u.hasClientRole)
    ensures r.isAdmin == p.isAdmin.GetOr(u.isAdmin)
  {
    u.(username := p.username.GetOr(u.username),
       discriminator := p.discriminator.GetOr(u.discriminator),
       avatar := p.avatar.GetOr(u.avatar),
       hasClientRole := p.hasClientRole.GetOr(u.hasClientRole),
       isAdmin := p.isAdmin.GetOr(u.isAdmin))
  }

  /** In a newest-first table, the first row is at least as new as any row. */
  lemma HeadIsNewest(rows: seq<Feedback>, x: Feedback)
    requires NewestFirst(rows) && x in rows
    ensures x.createdAt <= rows[0].createdAt
  {
    var k :| 0 <= k < |rows| && rows[k] == x;
  }

  /** With unique ids, no later row shares the first row's id. */
  lemma HeadIdIsUnique(rows: seq<Feedback>, x: Feedback)
    requires UniqueFeedbackIds(rows) && |rows| > 0 && x in rows[1..]
    ensures x.id != rows[0].id
  {
    var k :| 0 <= k < |rows[1..]| && rows[1..][k] == x;
    assert rows[k + 1] == x;
  }

  lemma TailKeepsInvariants(rows: seq<Feedback>)
    requires |rows| > 0
    ensures NewestFirst(rows) ==> NewestFirst(rows[1..])
    ensures UniqueFeedbackIds(rows) ==> UniqueFeedbackIds(rows[1..]) && rows[0].id !in FeedbackIds(rows[1..])
    ensures forall x :: x in rows <==> x == rows[0] || x in rows[1..]
  {
    assert rows == [rows[0]] + rows[1..];
    if UniqueFeedbackIds(rows) {
      forall x | x in rows[1..] ensures x.id != rows[0].id {
        HeadIdIsUnique(rows, x);
      }
    }
  }

  /** Places a new row after every strictly newer row, so the table stays
      newest first. */
  function InsertNewestFirst(rows: seq<Feedback>, f: Feedback): (r: seq<Feedback>)
    ensures |r| == |rows| + 1
    ensures forall x :: x in r <==> x in rows || x == f
  {
    if rows == [] || f.createdAt >= rows[0].createdAt then [f] + rows
    else
      TailKeepsInvariants(rows);
      [rows[0]] + InsertNewestFirst(rows[1..], f)
  }

  lemma InsertedIds(rows: seq<Feedback>, f: Feedback)
    ensures FeedbackIds(InsertNewestFirst(rows, f)) == FeedbackIds(rows) + {f.id}
  {
  }

  lemma {:induction false} InsertKeepsOrder(rows: seq<Feedback>, f: Feedback)
    requires NewestFirst(rows)
    ensures NewestFirst(InsertNewestFirst(rows, f))
  {
    if rows != [] && f.createdAt < rows[0].createdAt {
      TailKeepsInvariants(rows);
      InsertKeepsOrder(rows[1..], f);
      var rest := InsertNewestFirst(rows[1..], f);
      forall x | x in rest ensures x.createdAt <= rows[0].createdAt {
        if x != f { HeadIsNewest(rows, x); }
      }
    } else if rows != [] {
      forall x | x in rows ensures x.createdAt <= f.createdAt {
        HeadIsNewest(rows, x);
      }
    }
  }

  lemma {:induction false} InsertKeepsUniqueIds(rows: seq<Feedback>, f: Feedback)
    requires UniqueFeedbackIds(rows) && f.id !in FeedbackIds(rows)
    ensures UniqueFeedbackIds(InsertNewestFirst(rows, f))
  {
    if rows != [] && f.createdAt < rows[0].createdAt {
      TailKeepsInvariants(rows);
      InsertKeepsUniqueIds(rows[1..], f);
    } else {
      var r := [f] + rows;
      forall i, j | 0 <= i < j < |r| ensures r[i].id != r[j].id {
        if i == 0 { assert r[j] in rows; }
      }
    }
  }

  /** Removes the row with that id and keeps every other row, in order. */
  function RemoveFeedback(rows: seq<Feedback>, id: string): (r: seq<Feedback>)
    ensures |r| <= |rows|
    ensures forall x :: x in r <==> x in rows && x.id != id
    ensures id !in FeedbackIds(rows) ==> r == rows
  {
    if rows == [] then []
    else
      TailKeepsInvariants(rows);
      if rows[0].id == id then RemoveFeedback(rows[1..], id)
      else [rows[0]] + RemoveFeedback(rows[1..], id)
  }

  lemma RemovedIds(rows: seq<Feedback>, id: string)
    ensures FeedbackIds(RemoveFeedback(rows, id)) == FeedbackIds(rows) - {id}
  {
  }

  /** A row at least as new as every row of a newest-first table can go in
      front of it. */
  lemma PrependNewest(f: Feedback, rest: seq<Feedback>)
    requires NewestFirst(rest)
    requires forall x :: x in rest ==> x.createdAt <= f.createdAt
    ensures NewestFirst([f] + rest)
  {
    var r := [f] + rest;
    forall i, j | 0 <= i < j < |r| ensures r[i].createdAt >= r[j].createdAt {
      if i == 0 {
        assert r[j] == rest[j - 1] && rest[j - 1] in rest;
      } else {
        assert r[i] == rest[i - 1] && r[j] == rest[j - 1];
      }
    }
  }

  lemma {:induction false} RemoveKeepsOrder(rows: seq<Feedback>, id: string)
    requires NewestFirst(rows)
    ensures NewestFirst(RemoveFeedback(rows, id))
  {
    if rows != [] {
      TailKeepsInvariants(rows);
      RemoveKeepsOrder(rows[1..], id);
      var rest := RemoveFeedback(rows[1..], id);
      if rows[0].id != id {
        forall x | x in rest ensures x.createdAt <= rows[0].createdAt {
          HeadIsNewest(rows, x);
        }
        PrependNewest(rows[0], rest);
      }
    }
  }

  lemma {:induction false} RemoveKeepsUniqueIds(rows: seq<Feedback>, id: string)
    requires UniqueFeedbackIds(rows)
    ensures UniqueFeedbackIds(RemoveFeedback(rows, id))
    ensures id in FeedbackIds(rows) ==> |RemoveFeedback(rows, id)| == |rows| - 1
  {
    if rows != [] {
      TailKeepsInvariants(rows);
      RemoveKeepsUniqueIds(rows[1..], id);
      if rows[0].id != id {
        var r := RemoveFeedback(rows, id);
        forall i, j | 0 <= i < j < |r| ensures r[i].id != r[j].id {
          if i == 0 { assert r[j] in RemoveFeedback(rows[1..], id); }
        }
      }
    }
  }

  /** Replaces content and rating of the row with that id. */
  function ReplaceFeedback(rows: seq<Feedback>, id: string, content: string, rating: Option<int>): (r: seq<Feedback>)
    ensures |r| == |rows|
    ensures forall k :: 0 <= k < |r| ==>
      r[k] == if rows[k].id == id then rows[k].(content := content, rating := rating) else rows[k]
  {
    seq(|rows|, k requires 0 <= k < |rows| =>
      if rows[k].id == id then rows[k].(content := content, rating := rating) else rows[k])
  }

  function PatchUsers(rows: seq<User>, id: string, patch: UserPatch): (r: seq<User>)
    ensures |r| == |rows|
    ensures forall k :: 0 <= k < |r| ==> r[k] == if rows[k].id == id then ApplyPatch(rows[k], patch) else rows[k]
  {
    seq(|rows|, k requires 0 <= k < |rows| => if rows[k].id == id then ApplyPatch(rows[k], patch) else rows[k])
  }

  /** Patching keeps every key, so the constraints keep holding. */
  lemma PatchKeepsKeys(rows: seq<User>, id: string, patch: UserPatch)
    ensures UserIds(PatchUsers(rows, id, patch)) == UserIds(rows)
    ensures UniqueUserKeys(rows) ==> UniqueUserKeys(PatchUsers(rows, id, patch))
  {
    var r := PatchUsers(rows, id, patch);
    forall x | x in UserIds(r) ensures x in UserIds(rows) {
      var u :| u in r && u.id == x;
      var k :| 0 <= k < |r| && r[k] == u;
      assert rows[k] in rows;
    }
    forall x | x in UserIds(rows) ensures x in UserIds(r) {
      var u :| u in rows && u.id == x;
      var k :| 0 <= k < |rows| && rows[k] == u;
      assert r[k] in r;
    }
  }

  /** Replacing content and rating keeps ids, owners and timestamps, so the
      constraints keep holding. */
  lemma ReplaceKeepsInvariants(rows: seq<Feedback>, users: seq<User>, id: string, content: string, rating: Option<int>)
    ensures FeedbackIds(ReplaceFeedback(rows, id, content, rating)) == FeedbackIds(rows)
    ensures NewestFirst(rows) ==> NewestFirst(ReplaceFeedback(rows, id, content, rating))
    ensures UniqueFeedbackIds(rows) ==> UniqueFeedbackIds(ReplaceFeedback(rows, id, content, rating))
    ensures ReferencesExist(rows, users) ==> ReferencesExist(ReplaceFeedback(rows, id, content, rating), users)
  {
    var r := ReplaceFeedback(rows, id, content, rating);
    forall x | x in FeedbackIds(r) ensures x in FeedbackIds(rows) {
      var f :| f in r && f.id == x;
      var k :| 0 <= k < |r| && r[k] == f;
      assert rows[k] in rows;
    }
    forall x | x in FeedbackIds(rows) ensures x in FeedbackIds(r) {
      var f :| f in rows && f.id == x;
      var k :| 0 <= k < |rows| && rows[k] == f;
      assert r[k] in r;
    }
    if ReferencesExist(rows, users) {
      forall f | f in r ensures f.userId in UserIds(users) {
        var k :| 0 <= k < |r| && r[k] == f;
        assert rows[k] in rows;
      }
    }
  }

  // ---------------------------------------------------------------------
  // The store

  class DatabaseStorage {
    var users: seq<User>
    var feedbacks: seq<Feedback>

    ghost predicate Valid()
      reads this
    {
      && UniqueUserKeys(users)
      && UniqueFeedbackIds(feedbacks)
      && NewestFirst(feedbacks)
      && ReferencesExist(feedbacks, users)
    }

    constructor ()
      ensures Valid() && users == [] && feedbacks == []
    {
      users := [];
      feedbacks := [];
    }

    /** createUser: inserts one row, with the column defaults, unless its
        id or discord id is taken. */
    method CreateUser(u: InsertUser, now: int) returns (r: Result<User, DbError>)
      requires Valid()
      modifies this
      ensures Valid()
      ensures feedbacks == old(feedbacks)
      ensures r.Success? <==> u.id !in UserIds(old(users)) && u.discordId !in DiscordIds(old(users))
      ensures r.Success? ==> r.value == UserRow(u, now) && users == old(users) + [r.value]
      ensures r.Failure? ==> users == old(users)
      ensures r.Failure? ==>
        r.error == if u.id in UserIds(old(users)) then UniqueViolation("id") else UniqueViolation("discord_id")
    {
      if GetUser(users, u.id).Some? {
        r := Failure(UniqueViolation("id"));
      } else if GetUserByDiscordId(users, u.discordId).Some? {
        r := Failure(UniqueViolation("discord_id"));
      } else {
        var row := UserRow(u, now);
        forall i | 0 <= i < |users| ensures users[i].id != row.id && users[i].discordId != row.discordId {
          assert users[i] in users;
        }
        assert UserIds(users + [row]) == UserIds(users) + {row.id};
        users := users + [row];
        r := Success(row);
      }
    }

    /** updateUser: overwrites the supplied columns of the row with that id
        and returns it; nothing when there is no such row. */
    method UpdateUser(id: string, patch: UserPatch) returns (r: Option<User>)
      requires Valid()
      modifies this
      ensures Valid()
      ensures feedbacks == old(feedbacks)
      ensures r.None? <==> id !in UserIds(old(users))
      ensures r.None? ==> users == old(users)
      ensures r.Some? ==> r.value == ApplyPatch(GetUser(old(users), id).value, patch) && r.value in users
      ensures users == PatchUsers(old(users), id, patch)
    {
      var found := GetUser(users, id);
      PatchKeepsKeys(users, id, patch);
      var patched := PatchUsers(users, id, patch);
      if found.None? {
        assert patched == users by {
          forall k | 0 <= k < |users| ensures patched[k] == users[k] {
            assert users[k] in users;
          }
        }
        r := None;
      } else {
        var k :| 0 <= k < |users| && users[k] == found.value;
        assert patched[k] == ApplyPatch(found.value, patch);
        r := Some(ApplyPatch(found.value, patch));
      }
      users := patched;
    }

    /** createFeedback: inserts one row with the generated id and the
        current time, unless the id is taken or the user does not exist. */
    method CreateFeedback(f: InsertFeedback, id: string, now: int) returns (r: Result<Feedback, DbError>)
      requires Valid()
      modifies this
      ensures Valid()
      ensures users == old(users)
      ensures r.Success? <==> id !in FeedbackIds(old(feedbacks)) && f.userId in UserIds(users)
      ensures r.Success? ==> r.value == FeedbackRow(f, id, now)
      ensures r.Success? ==> feedbacks == InsertNewestFirst(old(feedbacks), r.value)
      ensures r.Failure? ==> feedbacks == old(feedbacks)
    {
      if GetFeedback(feedbacks, id).Some? {
        r := Failure(UniqueViolation("id"));
      } else if GetUser(users, f.userId).None? {
        r := Failure(ForeignKeyViolation("user_id"));
      } else {
        var row := FeedbackRow(f, id, now);
        InsertKeepsOrder(feedbacks, row);
        InsertKeepsUniqueIds(feedbacks, row);
        feedbacks := InsertNewestFirst(feedbacks, row);
        r := Success(row);
      }
    }

    /** Replaces content and rating of the row with that id and returns the
        new row; nothing when there is no such row. */
    method UpdateFeedback(id: string, content: string, rating: Option<int>) returns (r: Option<Feedback>)
      requires Valid()
      modifies this
      ensures Valid()
      ensures users == old(users)
      ensures r.None? <==> id !in FeedbackIds(old(feedbacks))
      ensures r.None? ==> feedbacks == old(feedbacks)
      ensures r.Some? ==> r.value == GetFeedback(old(feedbacks), id).value.(content := content, rating := rating)
      ensures feedbacks == ReplaceFeedback(old(feedbacks), id, content, rating)
    {
      var found := GetFeedback(feedbacks, id);
      ReplaceKeepsInvariants(feedbacks, users, id, content, rating);
      var replaced := ReplaceFeedback(feedbacks, id, content, rating);
      if found.None? {
        assert replaced == feedbacks by {
          forall k | 0 <= k < |feedbacks| ensures replaced[k] == feedbacks[k] {
            assert feedbacks[k] in feedbacks;
          }
        }
        r := None;
      } else {
        r := Some(found.value.(content := content, rating := rating));
      }
      feedbacks := replaced;
    }

    /** Removes the row with that id, if any, and says whether it did. */
    method DeleteFeedback(id: string) returns (removed: bool)
      requires Valid()
      modifies this
      ensures Valid()
      ensures users == old(users)
      ensures removed <==> id in FeedbackIds(old(feedbacks))
      ensures feedbacks == RemoveFeedback(old(feedbacks), id)
    {
      removed := GetFeedback(feedbacks, id).Some?;
      RemoveKeepsOrder(feedbacks, id);
      RemoveKeepsUniqueIds(feedbacks, id);
      feedbacks := RemoveFeedback(feedbacks, id);
    }
  }
}
