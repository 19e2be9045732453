/**
  The request handler of server.js over its four module-level collections.
  Each handler is one atomic step on a Store; generated ids and the clock are
  parameters (`id`, `now`), and a parsed JSON body stands for the request stream.
 */
module Server {
  import opened Records
  import opened Seqs
  import opened Queries
  import Routing

  /** `recommendations.find(r => r.id === recId)`, as the index of the first match. */
  function FindRecommendation(recommendations: seq<Recommendation>, recId: Id): (found: Option<nat>)
    ensures found.Some? ==> found.value < |recommendations| && recommendations[found.value].id == recId
    ensures found.Some? ==> forall j :: 0 <= j < found.value ==> recommendations[j].id != recId
    ensures found.None? ==> forall j :: 0 <= j < |recommendations| ==> recommendations[j].id != recId
  {
    if recommendations == [] then None
    else if recommendations[0].id == recId then Some(0)
    else match FindRecommendation(recommendations[1..], recId)
      case None => None
      case Some(k) => Some(k + 1)
  }

  /** `find` by id sees only the ids, so a store whose ids are unchanged finds the same index. */
  lemma FindRecommendationSameIds(recommendations: seq<Recommendation>, updated: seq<Recommendation>, recId: Id)
    requires |updated| == |recommendations|
    requires forall k :: 0 <= k < |recommendations| ==> updated[k].id == recommendations[k].id
    ensures FindRecommendation(updated, recId) == FindRecommendation(recommendations, recId)
  {
    var a, b := FindRecommendation(recommendations, recId), FindRecommendation(updated, recId);
    if a.Some? && b.Some? {
      assert !(a.value < b.value) && !(b.value < a.value);
    }
  }

  /** `if (!rec.likes.includes(userId)) rec.likes.push(userId)`: a set insert on a list. */
  function WithLike(likes: seq<Id>, userId: Id): (r: seq<Id>)
    ensures forall v :: v in r <==> v in likes || v == userId
    ensures likes <= r && |r| <= |likes| + 1
    ensures userId in likes ==> r == likes
    ensures NoDup(likes) ==> NoDup(r)
  {
    if userId in likes then likes else likes + [userId]
  }

  /** Liking twice is liking once. */
  lemma WithLikeIdempotent(likes: seq<Id>, userId: Id)
    ensures WithLike(WithLike(likes, userId), userId) == WithLike(likes, userId)
  {
  }

  /** The user the create-user handler builds, optional fields defaulted. */
  function NewUser(body: Body, id: Id, now: Timestamp): (user: User)
    requires Present(body.name) && Present(body.email)
    ensures user.id == id && user.createdAt == now
    ensures user.name != "" && user.email != ""
  {
    User(id, body.name.value, body.email.value, body.profilePic.GetOr(""), body.bio.GetOr(""),
         body.favoriteGenres.GetOr([]), now)
  }

  /** The recommendation the create-recommendation handler builds: no likes, no comments. */
  function NewRecommendation(body: Body, id: Id, now: Timestamp): (rec: Recommendation)
    requires Present(body.userId) && Present(body.title) && Present(body.mediaType)
    ensures rec.id == id && rec.createdAt == now && rec.likes == [] && rec.comments == []
    ensures rec.userId != "" && rec.title != "" && rec.mediaType != ""
    ensures rec.releaseYear != Some(0) && rec.rating != Some(0)
  {
    Recommendation(
      id, body.userId.value, body.title.value, body.mediaType.value,
      OrNull(body.releaseYear), body.cast.GetOr([]), body.director.GetOr(""),
      body.genres.GetOr([]), body.languages.GetOr([]), body.duration.GetOr(""),
      body.platform.GetOr([]), OrNull(body.rating), body.reviewText.GetOr(""),
      body.spoilerFlag.GetOr(false), body.imageUrl.GetOr(""), now, [], [])
  }

  /** The ids of `comments`, in order. */
  function CommentIds(comments: seq<Comment>): (ids: seq<Id>)
    ensures |ids| == |comments|
  {
    if comments == [] then [] else [comments[0].id] + CommentIds(comments[1..])
  }

  /** The ids of all comments on all recommendations, recommendation by recommendation. */
  function AllCommentIds(recommendations: seq<Recommendation>): seq<Id> {
    if recommendations == [] then []
    else CommentIds(recommendations[0].comments) + AllCommentIds(recommendations[1..])
  }

  lemma {:induction false} CommentIdsAppend(comments: seq<Comment>, c: Comment)
    ensures CommentIds(comments + [c]) == CommentIds(comments) + [c.id]
  {
    if comments != [] {
      assert (comments + [c])[1..] == comments[1..] + [c];
      CommentIdsAppend(comments[1..], c);
    }
  }

  lemma {:induction false} AllCommentIdsAppend(a: seq<Recommendation>, b: seq<Recommendation>)
    ensures AllCommentIds(a + b) == AllCommentIds(a) + AllCommentIds(b)
  {
    if a == [] {
      assert a + b == b;
    } else {
      assert (a + b)[1..] == a[1..] + b;
      AllCommentIdsAppend(a[1..], b);
    }
  }

  /** Replacing one recommendation replaces its comment ids and keeps the others around them. */
  lemma AllCommentIdsUpdate(recommendations: seq<Recommendation>, i: nat, r: Recommendation)
    requires i < |recommendations|
    ensures AllCommentIds(recommendations[i := r])
         == AllCommentIds(recommendations[..i]) + CommentIds(r.comments) + AllCommentIds(recommendations[i + 1..])
  {
    var before, after := recommendations[..i], recommendations[i + 1..];
    assert recommendations[i := r] == before + ([r] + after);
    AllCommentIdsAppend(before, [r] + after);
    AllCommentIdsAppend([r], after);
    assert AllCommentIds([r]) == CommentIds(r.comments) + AllCommentIds([]);
  }

  /** A change to one recommendation that leaves its comments alone leaves all comment ids alone. */
  lemma AllCommentIdsKeep(recommendations: seq<Recommendation>, i: nat, r: Recommendation)
    requires i < |recommendations| && r.comments == recommendations[i].comments
    ensures AllCommentIds(recommendations[i := r]) == AllCommentIds(recommendations)
  {
    AllCommentIdsUpdate(recommendations, i, r);
    AllCommentIdsUpdate(recommendations, i, recommendations[i]);
    assert recommendations[i := recommendations[i]] == recommendations;
  }

  /** Appending a comment with an unused id to one recommendation keeps all comment ids distinct. */
  lemma CommentKeepsIdsDistinct(recommendations: seq<Recommendation>, i: nat, comment: Comment)
    requires i < |recommendations| && NoDup(AllCommentIds(recommendations))
    requires comment.id !in AllCommentIds(recommendations)
    ensures NoDup(AllCommentIds(recommendations[i := recommendations[i].(comments := recommendations[i].comments + [comment])]))
  {
    var r := recommendations[i];
    var before, after := AllCommentIds(recommendations[..i]), AllCommentIds(recommendations[i + 1..]);
    AllCommentIdsUpdate(recommendations, i, r);
    assert recommendations[i := r] == recommendations;
    AllCommentIdsUpdate(recommendations, i, r.(comments := r.comments + [comment]));
    CommentIdsAppend(r.comments, comment);
    NoDupInsert(before + CommentIds(r.comments), after, comment.id);
    assert before + (CommentIds(r.comments) + [comment.id]) + after
        == before + CommentIds(r.comments) + [comment.id] + after;
  }

  class Store {
    var users: seq<User>
    var recommendations: seq<Recommendation>
    var friendships: seq<Friendship>
    var watchlists: seq<WatchlistEntry>

    /** The invariants the handlers keep. */
    ghost predicate Valid()
      reads this
    {
      && (forall i, j :: 0 <= i < j < |users| ==> users[i].id != users[j].id)
      && (forall i, j :: 0 <= i < j < |recommendations| ==> recommendations[i].id != recommendations[j].id)
      && (forall i, j :: 0 <= i < j < |watchlists| ==> watchlists[i].id != watchlists[j].id)
      && NoDup(AllCommentIds(recommendations))
      && (forall i :: 0 <= i < |recommendations| ==> NoDup(recommendations[i].likes))
      && Reciprocal(friendships)
    }

    /** `randomUUID()` never repeats: `id` is used by no entity yet. */
    ghost predicate FreshId(id: Id)
      reads this
    {
      && (forall i :: 0 <= i < |users| ==> users[i].id != id)
      && (forall i :: 0 <= i < |recommendations| ==> recommendations[i].id != id)
      && (forall i :: 0 <= i < |watchlists| ==> watchlists[i].id != id)
      && id !in AllCommentIds(recommendations)
    }

    /** Process start: four empty collections. */
    constructor ()
      ensures Valid()
      ensures users == [] && recommendations == [] && friendships == [] && watchlists == []
    {
      users, recommendations, friendships, watchlists := [], [], [], [];
    }

    // Each handler's outcome as a relation between the store before and after
    // the request and the response; the handler and `Handle` both promise it.

    /** POST /users: 400 with nothing changed, or one defaulted user appended and returned. */
    twostate predicate CreateUserOutcome(body: Body, id: Id, now: Timestamp, res: Response)
      reads this
    {
      && recommendations == old(recommendations) && friendships == old(friendships)
      && watchlists == old(watchlists)
      && (!Present(body.name) || !Present(body.email) ==>
            res == Failure(BAD_REQUEST, "name and email required") && users == old(users))
      && (Present(body.name) && Present(body.email) ==>
            && users == old(users) + [NewUser(body, id, now)]
            && res == Response(CREATED, UserCreated(NewUser(body, id, now))))
    }

    /** POST /friends: 400 with nothing changed, or the edge and its reverse appended. */
    twostate predicate AddFriendOutcome(body: Body, res: Response)
      reads this
    {
      && users == old(users) && recommendations == old(recommendations)
      && watchlists == old(watchlists)
      && (!Present(body.userId) || !Present(body.friendId) ==>
            res == Failure(BAD_REQUEST, "userId and friendId required") && friendships == old(friendships))
      && (Present(body.userId) && Present(body.friendId) ==>
            && friendships == old(friendships)
                 + [Friendship(body.userId.value, body.friendId.value), Friendship(body.friendId.value, body.userId.value)]
            && res == Response(CREATED, FriendsStatus("friends")))
    }

    /** POST /recommendations: 400 with nothing changed, or one defaulted recommendation appended and returned. */
    twostate predicate CreateRecommendationOutcome(body: Body, id: Id, now: Timestamp, res: Response)
      reads this
    {
      && users == old(users) && friendships == old(friendships)
      && watchlists == old(watchlists)
      && (!Present(body.userId) || !Present(body.title) || !Present(body.mediaType) ==>
            res == Failure(BAD_REQUEST, "userId, title, type required") && recommendations == old(recommendations))
      && (Present(body.userId) && Present(body.title) && Present(body.mediaType) ==>
            && recommendations == old(recommendations) + [NewRecommendation(body, id, now)]
            && res == Response(CREATED, RecommendationCreated(NewRecommendation(body, id, now))))
    }

    /**
      POST /recommendations/<recId>/like: 400 or 404 with nothing changed, or the
      user added to the likes of the first recommendation with id `recId`.
     */
    twostate predicate LikeOutcome(recId: Id, body: Body, res: Response)
      reads this
    {
      && users == old(users) && friendships == old(friendships)
      && watchlists == old(watchlists)
      && (!Present(body.userId) ==>
            res == Failure(BAD_REQUEST, "userId required") && recommendations == old(recommendations))
      && (Present(body.userId) && FindRecommendation(old(recommendations), recId).None? ==>
            res == Failure(NOT_FOUND, "not found") && recommendations == old(recommendations))
      && (Present(body.userId) && FindRecommendation(old(recommendations), recId).Some? ==>
            var i := FindRecommendation(old(recommendations), recId).value;
            var likes := WithLike(old(recommendations)[i].likes, body.userId.value);
            && recommendations == old(recommendations)[i := old(recommendations)[i].(likes := likes)]
            && res == Response(OK, LikeCount(|likes|)))
    }

    /**
      POST /recommendations/<recId>/comment: 400 or 404 with nothing changed, or one
      comment appended to the first recommendation with id `recId`.
     */
    twostate predicate CommentOutcome(recId: Id, body: Body, id: Id, now: Timestamp, res: Response)
      reads this
    {
      && users == old(users) && friendships == old(friendships)
      && watchlists == old(watchlists)
      && (!Present(body.userId) || !Present(body.text) ==>
            res == Failure(BAD_REQUEST, "userId and text required") && recommendations == old(recommendations))
      && (Present(body.userId) && Present(body.text) && FindRecommendation(old(recommendations), recId).None? ==>
            res == Failure(NOT_FOUND, "not found") && recommendations == old(recommendations))
      && (Present(body.userId) && Present(body.text) && FindRecommendation(old(recommendations), recId).Some? ==>
            var i := FindRecommendation(old(recommendations), recId).value;
            var comment := Comment(id, body.userId.value, body.text.value, now);
            && recommendations == old(recommendations)[i := old(recommendations)[i].(comments := old(recommendations)[i].comments + [comment])]
            && res == Response(CREATED, CommentCreated(comment)))
    }

    /** GET /feed: 400, or 200 with the requester's feed. */
    predicate FeedOutcome(userId: Option<string>, res: Response)
      reads this
    {
      && (!Present(userId) ==> res == Failure(BAD_REQUEST, "userId required"))
      && (Present(userId) ==> res == Response(OK, RecommendationList(FeedOf(recommendations, friendships, userId.value))))
    }

    /** POST /watchlist: 400 with nothing changed, or one planned entry appended and returned. */
    twostate predicate AddToWatchlistOutcome(body: Body, id: Id, res: Response)
      reads this
    {
      && users == old(users) && recommendations == old(recommendations)
      && friendships == old(friendships)
      && (!Present(body.userId) || !Present(body.recId) ==>
            res == Failure(BAD_REQUEST, "userId and recId required") && watchlists == old(watchlists))
      && (Present(body.userId) && Present(body.recId) ==>
            var entry := WatchlistEntry(id, body.userId.value, body.recId.value, PLANNED, None);
            && watchlists == old(watchlists) + [entry]
            && res == Response(CREATED, EntryCreated(entry)))
    }

    /** GET /watchlist: 400, or 200 with the user's entries. */
    predicate WatchlistOutcome(userId: Option<string>, res: Response)
      reads this
    {
      && (!Present(userId) ==> res == Failure(BAD_REQUEST, "userId required"))
      && (Present(userId) ==> res == Response(OK, EntryList(WatchlistOf(watchlists, userId.value))))
    }

    /** POST /users */
    method PostUser(body: Body, id: Id, now: Timestamp) returns (res: Response)
      requires Valid() && FreshId(id)
      modifies this
      ensures Valid()
      ensures res.status >= BAD_REQUEST ==> unchanged(this)
      ensures CreateUserOutcome(body, id, now, res)
    {
      if !Present(body.name) || !Present(body.email) {
        return Failure(BAD_REQUEST, "name and email required");
      }
      var user := NewUser(body, id, now);
      users := users + [user];
      res := Response(CREATED, UserCreated(user));
    }

    /** POST /friends: two reciprocal edges, with no existence or duplicate check. */
    method PostFriends(body: Body) returns (res: Response)
      requires Valid()
      modifies this
      ensures Valid()
      ensures res.status >= BAD_REQUEST ==> unchanged(this)
      ensures AddFriendOutcome(body, res)
    {
      if !Present(body.userId) || !Present(body.friendId) {
        return Failure(BAD_REQUEST, "userId and friendId required");
      }
      var edge := Friendship(body.userId.value, body.friendId.value);
      ReciprocalAppend(friendships, edge);
      friendships := friendships + [edge];
      friendships := friendships + [Friendship(body.friendId.value, body.userId.value)];
      res := Response(CREATED, FriendsStatus("friends"));
    }

    /** POST /recommendations */
    method PostRecommendation(body: Body, id: Id, now: Timestamp) returns (res: Response)
      requires Valid() && FreshId(id)
      modifies this
      ensures Valid()
      ensures res.status >= BAD_REQUEST ==> unchanged(this)
      ensures CreateRecommendationOutcome(body, id, now, res)
    {
      if !Present(body.userId) || !Present(body.title) || !Present(body.mediaType) {
        return Failure(BAD_REQUEST, "userId, title, type required");
      }
      var rec := NewRecommendation(body, id, now);
      AllCommentIdsAppend(recommendations, [rec]);
      recommendations := recommendations + [rec];
      res := Response(CREATED, RecommendationCreated(rec));
    }

    /** POST /recommendations/<recId>/like */
    method PostLike(recId: Id, body: Body) returns (res: Response)
      requires Valid()
      modifies this
      ensures Valid()
      ensures res.status >= BAD_REQUEST ==> unchanged(this)
      ensures LikeOutcome(recId, body, res)
    {
      if !Present(body.userId) {
        return Failure(BAD_REQUEST, "userId required");
      }
      var found := FindRecommendation(recommendations, recId);
      if found.None? {
        return Failure(NOT_FOUND, "not found");
      }
      var i := found.value;
      var rec := recommendations[i];
      var likes := WithLike(rec.likes, body.userId.value);
      AllCommentIdsKeep(recommendations, i, rec.(likes := likes));
      recommendations := recommendations[i := rec.(likes := likes)];
      res := Response(OK, LikeCount(|likes|));
    }

    /** POST /recommendations/<recId>/comment */
    method PostComment(recId: Id, body: Body, id: Id, now: Timestamp) returns (res: Response)
      requires Valid() && FreshId(id)
      modifies this
      ensures Valid()
      ensures res.status >= BAD_REQUEST ==> unchanged(this)
      ensures CommentOutcome(recId, body, id, now, res)
    {
      if !Present(body.userId) || !Present(body.text) {
        return Failure(BAD_REQUEST, "userId and text required");
      }
      var found := FindRecommendation(recommendations, recId);
      if found.None? {
        return Failure(NOT_FOUND, "not found");
      }
      var i := found.value;
      var rec := recommendations[i];
      var comment := Comment(id, body.userId.value, body.text.value, now);
      CommentKeepsIdsDistinct(recommendations, i, comment);
      recommendations := recommendations[i := rec.(comments := rec.comments + [comment])];
      res := Response(CREATED, CommentCreated(comment));
    }

    /** GET /feed?userId=<userId> */
    method GetFeed(userId: Option<string>) returns (res: Response)
      ensures !Present(userId) ==> res == Failure(BAD_REQUEST, "userId required")
      ensures Present(userId) ==>
        res == Response(OK, RecommendationList(FeedOf(recommendations, friendships, userId.value)))
    {
      if !Present(userId) {
        return Failure(BAD_REQUEST, "userId required");
      }
      res := Response(OK, RecommendationList(FeedOf(recommendations, friendships, userId.value)));
    }

    /** POST /watchlist: no check that the user or the recommendation exists. */
    method PostWatchlist(body: Body, id: Id) returns (res: Response)
      requires Valid() && FreshId(id)
      modifies this
      ensures Valid()
      ensures res.status >= BAD_REQUEST ==> unchanged(this)
      ensures AddToWatchlistOutcome(body, id, res)
    {
      if !Present(body.userId) || !Present(body.recId) {
        return Failure(BAD_REQUEST, "userId and recId required");
      }
      var entry := WatchlistEntry(id, body.userId.value, body.recId.value, PLANNED, None);
      watchlists := watchlists + [entry];
      res := Response(CREATED, EntryCreated(entry));
    }

    /** GET /watchlist?userId=<userId> */
    method GetWatchlist(userId: Option<string>) returns (res: Response)
      ensures !Present(userId) ==> res == Failure(BAD_REQUEST, "userId required")
      ensures Present(userId) ==> res == Response(OK, EntryList(WatchlistOf(watchlists, userId.value)))
    {
      if !Present(userId) {
        return Failure(BAD_REQUEST, "userId required");
      }
      res := Response(OK, EntryList(WatchlistOf(watchlists, userId.value)));
    }

    /**
      The request handler: routes on method and pathname, then runs the handler
      of the route, with the like and comment routes' `recId` taken from the path.
      `query` is the `userId` query parameter; `id` and `now` are what
      `randomUUID()` and `new Date()` would return during this request.
     */
    method Handle(verb: string, pathname: string, query: Option<string>, body: Body, id: Id, now: Timestamp)
      returns (res: Response)
      requires Valid() && FreshId(id)
      modifies this
      ensures Valid()
      ensures res.status >= BAD_REQUEST ==> unchanged(this)
      ensures verb != "POST" ==> unchanged(this)
      ensures Routing.RouteOf(verb, pathname) == Routing.CreateUser ==> CreateUserOutcome(body, id, now, res)
      ensures Routing.RouteOf(verb, pathname) == Routing.AddFriend ==> AddFriendOutcome(body, res)
      ensures Routing.RouteOf(verb, pathname) == Routing.CreateRecommendation ==>
        CreateRecommendationOutcome(body, id, now, res)
      ensures Routing.RouteOf(verb, pathname).LikeRecommendation? ==>
        LikeOutcome(Routing.RouteOf(verb, pathname).recId, body, res)
      ensures Routing.RouteOf(verb, pathname).CommentOnRecommendation? ==>
        CommentOutcome(Routing.RouteOf(verb, pathname).recId, body, id, now, res)
      ensures Routing.RouteOf(verb, pathname) == Routing.ReadFeed ==> FeedOutcome(query, res)
      ensures Routing.RouteOf(verb, pathname) == Routing.AddToWatchlist ==> AddToWatchlistOutcome(body, id, res)
      ensures Routing.RouteOf(verb, pathname) == Routing.ReadWatchlist ==> WatchlistOutcome(query, res)
      ensures Routing.RouteOf(verb, pathname) == Routing.Unmatched ==>
        res == Failure(NOT_FOUND, "Not found") && unchanged(this)
      ensures users != old(users) ==> Routing.RouteOf(verb, pathname) == Routing.CreateUser
      ensures friendships != old(friendships) ==> Routing.RouteOf(verb, pathname) == Routing.AddFriend
      ensures watchlists != old(watchlists) ==> Routing.RouteOf(verb, pathname) == Routing.AddToWatchlist
      ensures recommendations != old(recommendations) ==>
        Routing.RouteOf(verb, pathname).CreateRecommendation?
        || Routing.RouteOf(verb, pathname).LikeRecommendation?
        || Routing.RouteOf(verb, pathname).CommentOnRecommendation?
    {
      match Routing.RouteOf(verb, pathname)
      case CreateUser => res := PostUser(body, id, now);
      case AddFriend => res := PostFriends(body);
      case CreateRecommendation => res := PostRecommendation(body, id, now);
      case LikeRecommendation(recId) => res := PostLike(recId, body);
      case CommentOnRecommendation(recId) => res := PostComment(recId, body, id, now);
      case ReadFeed => res := GetFeed(query);
      case AddToWatchlist => res := PostWatchlist(body, id);
      case ReadWatchlist => res := GetWatchlist(query);
      case Unmatched => res := Failure(NOT_FOUND, "Not found");
    }
  }

  /**
    A like sent to the URL of a recommendation whose id is one path segment
    reaches that recommendation: 404 when no recommendation has the id,
    otherwise the liker is among the likes of the recommendation with that id.
   */
  method LikeViaUrl(store: Store, recId: Id, userId: string, id: Id, now: Timestamp) returns (res: Response)
    requires store.Valid() && store.FreshId(id)
    requires Routing.Segment(recId) && userId != ""
    modifies store
    ensures store.Valid()
    ensures FindRecommendation(old(store.recommendations), recId).None? ==>
      res == Failure(NOT_FOUND, "not found") && unchanged(store)
    ensures FindRecommendation(old(store.recommendations), recId).Some? ==>
      var i := FindRecommendation(old(store.recommendations), recId).value;
      && res.status == OK && i < |store.recommendations|
      && store.recommendations[i].id == recId && userId in store.recommendations[i].likes
  {
    Routing.LikeAndCommentUrls(recId);
    res := store.Handle("POST", "/recommendations/" + recId + "/like", None, EMPTY_BODY.(userId := Some(userId)), id, now);
  }

  /**
    Liking twice is liking once: the same like sent twice leaves the store as
    one like does, and the second response repeats the first.
   */
  method LikeTwice(store: Store, recId: Id, body: Body) returns (first: Response, second: Response)
    requires store.Valid()
    modifies store
    ensures store.Valid()
    ensures store.LikeOutcome(recId, body, first)
    ensures second == first
  {
    first := store.PostLike(recId, body);
    ghost var once := store.recommendations;
    if Present(body.userId) && FindRecommendation(old(store.recommendations), recId).Some? {
      var i := FindRecommendation(old(store.recommendations), recId).value;
      FindRecommendationSameIds(old(store.recommendations), once, recId);
      WithLikeIdempotent(old(store.recommendations)[i].likes, body.userId.value);
      assert once[i := once[i].(likes := WithLike(once[i].likes, body.userId.value))] == once;
    }
    second := store.PostLike(recId, body);
  }

  /** Alice and Bob sign up and become friends. */
  method AliceAndBobBefriend(store: Store, aliceId: Id, bobId: Id, now: Timestamp)
    requires store.Valid()
    requires store.users == [] && store.recommendations == [] && store.friendships == [] && store.watchlists == []
    requires aliceId != "" && bobId != "" && aliceId != bobId
    modifies store
    ensures store.Valid()
    ensures |store.users| == 2 && store.users[0].id == aliceId && store.users[1].id == bobId
    ensures store.friendships == [Friendship(aliceId, bobId), Friendship(bobId, aliceId)]
    ensures store.recommendations == [] && store.watchlists == []
  {
    var alice := EMPTY_BODY.(name := Some("Alice"), email := Some("alice@example.com"));
    var bob := EMPTY_BODY.(name := Some("Bob"), email := Some("bob@example.com"));
    var _ := store.PostUser(alice, aliceId, now);
    assert store.users == [NewUser(alice, aliceId, now)];
    var _ := store.PostUser(bob, bobId, now);
    var _ := store.PostFriends(EMPTY_BODY.(userId := Some(aliceId), friendId := Some(bobId)));
  }

  /** Alice recommends "Inception" on Netflix, rated 5. */
  method AliceRecommendsInception(store: Store, aliceId: Id, recId: Id, now: Timestamp)
    returns (rec: Recommendation)
    requires store.Valid() && store.recommendations == [] && store.watchlists == []
    requires aliceId != "" && store.FreshId(recId)
    modifies store
    ensures store.Valid()
    ensures rec.id == recId && rec.userId == aliceId && rec.likes == [] && rec.comments == []
    ensures store.users == old(store.users) && store.friendships == old(store.friendships)
    ensures store.recommendations == [rec] && store.watchlists == []
  {
    var inception := EMPTY_BODY.(userId := Some(aliceId), title := Some("Inception"), mediaType := Some("Movie"),
                                 platform := Some(["Netflix"]), rating := Some(5));
    var _ := store.PostRecommendation(inception, recId, now);
    rec := NewRecommendation(inception, recId, now);
  }

  /** Bob's feed holds exactly the one recommendation of his friend Alice. */
  method BobReadsFeed(store: Store, rec: Recommendation, aliceId: Id, bobId: Id) returns (feed: Response)
    requires bobId != "" && rec.userId == aliceId
    requires store.recommendations == [rec]
    requires store.friendships == [Friendship(aliceId, bobId), Friendship(bobId, aliceId)]
    ensures feed == Response(OK, RecommendationList([rec]))
  {
    FriendsOnlyRecommendation(rec, aliceId, bobId);
    feed := store.GetFeed(Some(bobId));
  }

  /** Bob likes and comments on the only recommendation, then adds it to his watchlist. */
  method BobReacts(store: Store, rec: Recommendation, bobId: Id, commentId: Id, entryId: Id, now: Timestamp)
    returns (like: Response, comment: Response)
    requires store.Valid() && store.recommendations == [rec] && store.watchlists == []
    requires rec.likes == [] && rec.comments == [] && bobId != "" && rec.id != ""
    requires store.FreshId(commentId) && store.FreshId(entryId) && commentId != entryId
    modifies store
    ensures store.watchlists == [WatchlistEntry(entryId, bobId, rec.id, PLANNED, None)]
    ensures like == Response(OK, LikeCount(1))
    ensures comment == Response(CREATED, CommentCreated(Comment(commentId, bobId, "Great!", now)))
  {
    assert FindRecommendation(store.recommendations, rec.id) == Some(0);
    assert WithLike(rec.likes, bobId) == [bobId];
    like := store.PostLike(rec.id, EMPTY_BODY.(userId := Some(bobId)));
    var liked := rec.(likes := [bobId]);
    assert store.recommendations == [liked];
    assert store.FreshId(commentId) && store.FreshId(entryId);
    assert FindRecommendation(store.recommendations, rec.id) == Some(0);
    comment := store.PostComment(rec.id, EMPTY_BODY.(userId := Some(bobId), text := Some("Great!")), commentId, now);
    assert |store.recommendations| == 1;
    assert store.recommendations[0].comments == [Comment(commentId, bobId, "Great!", now)];
    assert store.FreshId(entryId);
    var _ := store.PostWatchlist(EMPTY_BODY.(userId := Some(bobId), recId := Some(rec.id)), entryId);
  }

  /**
    The end-to-end run the repository's test script drives over HTTP: Alice and
    Bob sign up and become friends, Alice recommends "Inception", Bob finds it
    as the only item of his feed, likes it, comments on it and adds it to his
    watchlist, which then holds exactly that one entry.
   */
  method AliceAndBob(aliceId: Id, bobId: Id, recId: Id, commentId: Id, entryId: Id, now: Timestamp)
    returns (feed: Response, like: Response, comment: Response, watchlist: Response)
    requires aliceId != "" && bobId != "" && recId != ""
    requires aliceId != bobId && aliceId != recId && aliceId != commentId && aliceId != entryId
    requires bobId != recId && bobId != commentId && bobId != entryId
    requires recId != commentId && recId != entryId && commentId != entryId
    ensures feed.status == OK && feed.payload.RecommendationList?
    ensures |feed.payload.recommendations| == 1 && feed.payload.recommendations[0].id == recId
    ensures like == Response(OK, LikeCount(1))
    ensures comment == Response(CREATED, CommentCreated(Comment(commentId, bobId, "Great!", now)))
    ensures watchlist == Response(OK, EntryList([WatchlistEntry(entryId, bobId, recId, PLANNED, None)]))
  {
    var store := new Store();
    AliceAndBobBefriend(store, aliceId, bobId, now);
    FreshInScenario(store, aliceId, bobId, recId);
    var rec := AliceRecommendsInception(store, aliceId, recId, now);
    FreshInScenario(store, aliceId, bobId, commentId);
    FreshInScenario(store, aliceId, bobId, entryId);
    feed := BobReadsFeed(store, rec, aliceId, bobId);
    like, comment := BobReacts(store, rec, bobId, commentId, entryId, now);
    OwnEntry(WatchlistEntry(entryId, bobId, recId, PLANNED, None));
    watchlist := store.GetWatchlist(Some(bobId));
  }

  /** While the store holds two users, comment-free recommendations and no watchlist entry, an id none of them uses is fresh. */
  lemma FreshInScenario(store: Store, aliceId: Id, bobId: Id, x: Id)
    requires |store.users| == 2 && store.users[0].id == aliceId && store.users[1].id == bobId
    requires store.watchlists == [] && x != aliceId && x != bobId
    requires forall i :: 0 <= i < |store.recommendations| ==>
               store.recommendations[i].id != x && store.recommendations[i].comments == []
    ensures store.FreshId(x)
  {
    NoComments(store.recommendations);
  }

  /** Recommendations without comments have no comment ids. */
  lemma {:induction false} NoComments(recommendations: seq<Recommendation>)
    requires forall i :: 0 <= i < |recommendations| ==> recommendations[i].comments == []
    ensures AllCommentIds(recommendations) == []
  {
    if recommendations != [] {
      NoComments(recommendations[1..]);
    }
  }

  /** A friend's only recommendation is the whole of the feed. */
  lemma FriendsOnlyRecommendation(rec: Recommendation, aliceId: Id, bobId: Id)
    requires rec.userId == aliceId
    ensures FeedOf([rec], [Friendship(aliceId, bobId), Friendship(bobId, aliceId)], bobId) == [rec]
  {
    var friendships := [Friendship(aliceId, bobId), Friendship(bobId, aliceId)];
    FeedMembers([rec], friendships, bobId, rec);
    FilterAll([rec], VisibleTo(friendships, bobId));
    assert SortNewestFirst([rec]) == [rec];
  }

  /** A watchlist of one entry is the whole of its owner's watchlist. */
  lemma OwnEntry(entry: WatchlistEntry)
    ensures WatchlistOf([entry], entry.userId) == [entry]
  {
    FilterAll([entry], OwnedBy(entry.userId));
  }
}
