/**
  Request routing in server.js: exact method and pathname comparisons, the two
  regular-expression routes `^/recommendations/[^/]+/(like|comment)$` whose
  recommendation id is segment 2 of `pathname.split('/')`, and the fallback.
 */
module Routing {
  import opened Records

  const SLASH := '/'
  const RECOMMENDATIONS_PREFIX := "/recommendations/"

  /** JavaScript's `s.split(sep)` for a one-character separator. */
  function Split(s: string, sep: char): (parts: seq<string>)
    ensures |parts| >= 1
    ensures forall i :: 0 <= i < |parts| ==> sep !in parts[i]
    decreases |s|
  {
    if s == [] then [""]
    else
      var rest := Split(s[1..], sep);
      if s[0] == sep then [""] + rest
      else [[s[0]] + rest[0]] + rest[1..]
  }

  /** JavaScript's `parts.join(sep)`: the partner of Split. */
  function Join(parts: seq<string>, sep: char): string
    requires |parts| >= 1
  {
    if |parts| == 1 then parts[0] else parts[0] + [sep] + Join(parts[1..], sep)
  }

  /** Joining the pieces of a split gives back the string. */
  lemma {:induction false} JoinSplit(s: string, sep: char)
    ensures Join(Split(s, sep), sep) == s
    decreases |s|
  {
    if s != [] {
      var rest := Split(s[1..], sep);
      JoinSplit(s[1..], sep);
      if s[0] == sep {
        assert Split(s, sep)[1..] == rest;
      } else if |rest| > 1 {
        assert Split(s, sep)[1..] == rest[1..];
        assert Join(rest, sep) == rest[0] + [sep] + Join(rest[1..], sep);
        assert s == [s[0]] + s[1..];
      } else {
        assert s == [s[0]] + s[1..];
      }
    }
  }

  /** A string without the separator splits into itself alone. */
  lemma {:induction false} SplitWithoutSeparator(a: string, sep: char)
    requires sep !in a
    ensures Split(a, sep) == [a]
    decreases |a|
  {
    if a != [] {
      SplitWithoutSeparator(a[1..], sep);
      assert a == [a[0]] + a[1..];
    }
  }

  /** A separator-free head followed by the separator is split off as the first piece. */
  lemma {:induction false} SplitCons(a: string, sep: char, b: string)
    requires sep !in a
    ensures Split(a + [sep] + b, sep) == [a] + Split(b, sep)
    decreases |a|
  {
    var s := a + [sep] + b;
    if a == [] {
      assert s[1..] == b;
    } else {
      assert s[1..] == a[1..] + [sep] + b;
      SplitCons(a[1..], sep, b);
      assert a == [a[0]] + a[1..];
    }
  }

  /** Splitting a join of separator-free pieces gives back the pieces. */
  lemma {:induction false} SplitJoin(parts: seq<string>, sep: char)
    requires |parts| >= 1
    requires forall i :: 0 <= i < |parts| ==> sep !in parts[i]
    ensures Split(Join(parts, sep), sep) == parts
    decreases |parts|
  {
    if |parts| == 1 {
      SplitWithoutSeparator(parts[0], sep);
    } else {
      SplitJoin(parts[1..], sep);
      SplitCons(parts[0], sep, Join(parts[1..], sep));
    }
  }

  /** A path segment that `[^/]+` matches. */
  predicate Segment(s: string) {
    s != "" && SLASH !in s
  }

  /** The middle of a path that starts with RECOMMENDATIONS_PREFIX and ends with `"/" + action`. */
  function Middle(path: string, action: string): string
    requires |RECOMMENDATIONS_PREFIX| + 1 + |action| <= |path|
  {
    path[|RECOMMENDATIONS_PREFIX|..|path| - 1 - |action|]
  }

  /** The regular-expression test `^\/recommendations\/[^\/]+\/<action>$`. */
  predicate MatchesActionPath(path: string, action: string)
    ensures MatchesActionPath(path, action) ==>
      |RECOMMENDATIONS_PREFIX| + 1 + |action| < |path| && Segment(Middle(path, action))
  {
    && |RECOMMENDATIONS_PREFIX| + 1 + |action| < |path|
    && path[..|RECOMMENDATIONS_PREFIX|] == RECOMMENDATIONS_PREFIX
    && path[|path| - 1 - |action|..] == "/" + action
    && SLASH !in Middle(path, action)
  }

  /** The path a like or comment request for recommendation `recId` is sent to. */
  function ActionPath(recId: Id, action: string): string {
    RECOMMENDATIONS_PREFIX + recId + "/" + action
  }

  /** The regular expression accepts exactly the paths ActionPath builds from one segment. */
  lemma ActionPathMatches(recId: Id, action: string)
    requires Segment(recId)
    ensures MatchesActionPath(ActionPath(recId, action), action)
    ensures Middle(ActionPath(recId, action), action) == recId
  {
  }

  /** A path the regular expression accepts is ActionPath of its middle segment. */
  lemma MatchedActionPath(path: string, action: string)
    requires MatchesActionPath(path, action)
    ensures Segment(Middle(path, action))
    ensures path == ActionPath(Middle(path, action), action)
  {
  }

  /**
    On a matching path, segment 2 of `pathname.split('/')` is the segment the
    regular expression matched.
   */
  lemma {:induction false} SplitActionPath(path: string, action: string)
    requires MatchesActionPath(path, action)
    requires SLASH !in action
    ensures |Split(path, SLASH)| == 4
    ensures Split(path, SLASH)[2] == Middle(path, action)
  {
    var seg := Middle(path, action);
    MatchedActionPath(path, action);
    var parts := ["", "recommendations", seg, action];
    assert Join(parts[2..], SLASH) == seg + "/" + action;
    assert Join(parts[1..], SLASH) == "recommendations" + "/" + (seg + "/" + action);
    assert path == Join(parts, SLASH);
    SplitJoin(parts, SLASH);
  }

  /** The handler a request reaches, with the recommendation id the path carries. */
  datatype Route =
    | CreateUser
    | AddFriend
    | CreateRecommendation
    | LikeRecommendation(recId: Id)
    | CommentOnRecommendation(recId: Id)
    | ReadFeed
    | AddToWatchlist
    | ReadWatchlist
    | Unmatched

  /** The chain of `if` tests at the top of the request handler, in source order. */
  function RouteOf(verb: string, pathname: string): (r: Route)
    ensures r.LikeRecommendation? ==>
      verb == "POST" && MatchesActionPath(pathname, "like") && r.recId == Middle(pathname, "like")
    ensures r.CommentOnRecommendation? ==>
      verb == "POST" && MatchesActionPath(pathname, "comment") && r.recId == Middle(pathname, "comment")
    ensures r.LikeRecommendation? || r.CommentOnRecommendation? ==> Segment(r.recId)
  {
    if verb == "POST" && pathname == "/users" then CreateUser
    else if verb == "POST" && pathname == "/friends" then AddFriend
    else if verb == "POST" && pathname == "/recommendations" then CreateRecommendation
    else if verb == "POST" && MatchesActionPath(pathname, "like") then
      SplitActionPath(pathname, "like");
      LikeRecommendation(Split(pathname, SLASH)[2])
    else if verb == "POST" && MatchesActionPath(pathname, "comment") then
      SplitActionPath(pathname, "comment");
      CommentOnRecommendation(Split(pathname, SLASH)[2])
    else if verb == "GET" && pathname == "/feed" then ReadFeed
    else if verb == "POST" && pathname == "/watchlist" then AddToWatchlist
    else if verb == "GET" && pathname == "/watchlist" then ReadWatchlist
    else Unmatched
  }

  /** The routes a request can be sent to; a like or comment needs a one-segment id. */
  predicate Addressable(r: Route) {
    match r
    case LikeRecommendation(recId) => Segment(recId)
    case CommentOnRecommendation(recId) => Segment(recId)
    case Unmatched => false
    case _ => true
  }

  /** The method and pathname of a request for route `r`: the partner of RouteOf. */
  function RequestFor(r: Route): (string, string)
    requires Addressable(r)
  {
    match r
    case CreateUser => ("POST", "/users")
    case AddFriend => ("POST", "/friends")
    case CreateRecommendation => ("POST", "/recommendations")
    case LikeRecommendation(recId) => ("POST", ActionPath(recId, "like"))
    case CommentOnRecommendation(recId) => ("POST", ActionPath(recId, "comment"))
    case ReadFeed => ("GET", "/feed")
    case AddToWatchlist => ("POST", "/watchlist")
    case ReadWatchlist => ("GET", "/watchlist")
  }

  /** A like path is none of the fixed paths and reaches the like handler with its id. */
  lemma LikePathRoute(recId: Id)
    requires Segment(recId)
    ensures RouteOf("POST", ActionPath(recId, "like")) == LikeRecommendation(recId)
  {
    var p := ActionPath(recId, "like");
    ActionPathMatches(recId, "like");
    SplitActionPath(p, "like");
    assert p[1] == 'r' && |p| > |"/recommendations"|;
  }

  /** A comment path is none of the fixed paths, no like path, and reaches the comment handler with its id. */
  lemma CommentPathRoute(recId: Id)
    requires Segment(recId)
    ensures RouteOf("POST", ActionPath(recId, "comment")) == CommentOnRecommendation(recId)
  {
    var p := ActionPath(recId, "comment");
    ActionPathMatches(recId, "comment");
    SplitActionPath(p, "comment");
    assert p[1] == 'r' && |p| > |"/recommendations"|;
    assert p[|p| - 1] == 't';
    assert !MatchesActionPath(p, "like");
  }

  /** Every addressable route is reached by its own request, with the id taken from the path. */
  lemma RouteOfRequestFor(r: Route)
    requires Addressable(r)
    ensures RouteOf(RequestFor(r).0, RequestFor(r).1) == r
  {
    match r
    case LikeRecommendation(recId) => LikePathRoute(recId);
    case CommentOnRecommendation(recId) => CommentPathRoute(recId);
    case _ =>
  }

  /** The like and comment URLs of a recommendation whose id is one path segment reach their handlers with that id. */
  lemma LikeAndCommentUrls(recId: Id)
    requires Segment(recId)
    ensures RouteOf("POST", "/recommendations/" + recId + "/like") == LikeRecommendation(recId)
    ensures RouteOf("POST", "/recommendations/" + recId + "/comment") == CommentOnRecommendation(recId)
  {
    RouteOfRequestFor(LikeRecommendation(recId));
    RouteOfRequestFor(CommentOnRecommendation(recId));
    assert "/" + "like" == "/like";
    assert "/" + "comment" == "/comment";
    assert ActionPath(recId, "like") == "/recommendations/" + recId + "/like";
    assert ActionPath(recId, "comment") == "/recommendations/" + recId + "/comment";
  }

  /** A request that reaches a handler is exactly that handler's request; anything else is Unmatched. */
  lemma RequestForRouteOf(verb: string, pathname: string)
    requires RouteOf(verb, pathname) != Unmatched
    ensures Addressable(RouteOf(verb, pathname))
    ensures RequestFor(RouteOf(verb, pathname)) == (verb, pathname)
  {
    if !(verb == "POST" && pathname in ["/users", "/friends", "/recommendations", "/watchlist"])
      && !(verb == "GET" && pathname in ["/feed", "/watchlist"])
    {
      if MatchesActionPath(pathname, "like") {
        SplitActionPath(pathname, "like");
        MatchedActionPath(pathname, "like");
      } else {
        SplitActionPath(pathname, "comment");
        MatchedActionPath(pathname, "comment");
      }
    }
  }
}
