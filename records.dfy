/**
  The entities of the ReelShare server, the parsed request body a handler
  receives, and the response it sends back.
 */
module Records {

  datatype Option<+T> = None | Some(value: T) {
    /** The value, or `default` when there is none (JavaScript's `x || default` for objects). */
    function GetOr(default: T): T {
      match this
      case Some(v) => v
      case None => default
    }
  }

  /** Generated identifiers (random UUIDs in the server) and user-supplied references to them. */
  type Id = string

  /** A creation time; the server stamps ISO dates, compared as instants, so a number stands for one. */
  type Timestamp = nat

  /**
    A required string field passes the server's `!body.x` test only when it is
    present and not the empty string (the two falsy strings a JSON body can carry).
   */
  predicate Present(field: Option<string>)
    ensures Present(field) <==> field.GetOr("") != ""
  {
    field.Some? && field.value != ""
  }

  /** `x || null` on a number: a missing value and a zero both become null. */
  function OrNull(n: Option<int>): (r: Option<int>)
    ensures r.Some? <==> n.Some? && n.value != 0
    ensures r.Some? ==> r == n
  {
    if n == Some(0) then None else n
  }

  datatype User = User(
    id: Id,
    name: string,
    email: string,
    profilePic: string,
    bio: string,
    favoriteGenres: seq<string>,
    createdAt: Timestamp)

  /** One directed edge: `userId1` counts `userId2` as a friend. */
  datatype Friendship = Friendship(userId1: Id, userId2: Id)

  datatype Comment = Comment(id: Id, userId: Id, text: string, createdAt: Timestamp)

  /** `mediaType` is the JSON field `type`. */
  datatype Recommendation = Recommendation(
    id: Id,
    userId: Id,
    title: string,
    mediaType: string,
    releaseYear: Option<int>,
    cast: seq<string>,
    director: string,
    genres: seq<string>,
    languages: seq<string>,
    duration: string,
    platform: seq<string>,
    rating: Option<int>,
    reviewText: string,
    spoilerFlag: bool,
    imageUrl: string,
    createdAt: Timestamp,
    likes: seq<Id>,
    comments: seq<Comment>)

  /** `watchedDate` is JSON null (None) for every entry the server creates. */
  datatype WatchlistEntry = WatchlistEntry(
    id: Id,
    userId: Id,
    recId: Id,
    status: string,
    watchedDate: Option<string>)

  const PLANNED := "planned"

  /**
    The already-parsed JSON request body: every field any handler reads, each
    possibly absent. An empty request body parses to EMPTY_BODY.
   */
  datatype Body = Body(
    name: Option<string>,
    email: Option<string>,
    profilePic: Option<string>,
    bio: Option<string>,
    favoriteGenres: Option<seq<string>>,
    userId: Option<string>,
    friendId: Option<string>,
    title: Option<string>,
    mediaType: Option<string>,
    releaseYear: Option<int>,
    cast: Option<seq<string>>,
    director: Option<string>,
    genres: Option<seq<string>>,
    languages: Option<seq<string>>,
    duration: Option<string>,
    platform: Option<seq<string>>,
    rating: Option<int>,
    reviewText: Option<string>,
    spoilerFlag: Option<bool>,
    imageUrl: Option<string>,
    text: Option<string>,
    recId: Option<string>)

  const EMPTY_BODY := Body(
    None, None, None, None, None, None, None, None, None, None, None,
    None, None, None, None, None, None, None, None, None, None, None)

  /** The JSON value a handler sends. */
  datatype Payload =
    | UserCreated(user: User)
    | FriendsStatus(status: string)
    | RecommendationCreated(recommendation: Recommendation)
    | LikeCount(likes: nat)
    | CommentCreated(comment: Comment)
    | RecommendationList(recommendations: seq<Recommendation>)
    | EntryCreated(entry: WatchlistEntry)
    | EntryList(entries: seq<WatchlistEntry>)
    | Error(message: string)

  datatype Response = Response(status: nat, payload: Payload)

  const OK := 200
  const CREATED := 201
  const BAD_REQUEST := 400
  const NOT_FOUND := 404

  /** An error response with the given status and `{error: message}` body. */
  function Failure(status: nat, message: string): Response {
    Response(status, Error(message))
  }
}
