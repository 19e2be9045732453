# ReelShare server store, in Dafny

ReelShare is a small HTTP/JSON service for sharing film and series
recommendations. Its request handler in `server.js` keeps four in-memory
collections: users, recommendations, friendship edges and watchlist entries.
Eight routes read or append to them: create user, add friend, create a
recommendation, like it, comment on it, read a feed, add to a watchlist and
read a watchlist. Any other request gets a 404.

The model has five modules:

- `Records`: the entities and the already-parsed JSON body (`Body`, one
  `Option` per field the handlers read). Also JavaScript's falsiness test on
  a required string (`Present`: absent or `""` fails) and the response a
  handler sends.
- `Seqs`: the `Array.prototype.filter` the two read handlers use, with its
  membership, multiplicity, append and order lemmas.
- `Routing`: `pathname.split('/')` and its inverse `join`, the regular
  expression test of the like and comment routes, and the `if` chain that
  picks a handler (`RouteOf`). `RequestFor` is its inverse.
- `Queries`: the feed and the watchlist read as functions of the current
  collections. The feed's comparator sort is modelled as a stable
  newest-first insertion sort. The friendship pairing the feed relies on
  lives here too.
- `Server`: class `Store`, one field per collection and one method per
  handler. It also has the dispatcher `Handle` and the end-to-end scenario of
  `test.js`. Each handler's outcome is a predicate over the store before and
  after the request (`LikeOutcome`, ...), which both the handler and `Handle`
  ensure. A writing handler's outcome states its complete new state and its
  response, and that an error response changes nothing. Each writing handler
  keeps `Valid()`. `Valid()` covers
  unique ids, duplicate-free likes and friendships stored in reciprocal
  pairs. Each read handler is a method without a `modifies` clause, so it
  cannot change the store.

Generated ids (`randomUUID()`) and the clock (`new Date()`) are method
parameters (`id`, `now`). A precondition says each id is fresh. A timestamp
is a natural number, so the feed comparator's subtraction of two `Date`s
becomes a comparison of numbers.

## Model

| member | source | states |
|---|---|---|
| Records.Present | server.js:36-126 | the `!body.x` / `!userId` test: a field passes exactly when it reads as a non-empty string once a missing field is taken as `""` |
| Records.OrNull | server.js:66 | the null default of a numeric field: the result is null exactly when the value is missing or zero, and otherwise it is the value |
| Seqs.Filter | server.js:127 | the kept elements all pass the test and are no more than the input |
| Seqs.FilterMembers | server.js:127 | an element is kept exactly when it is in the input and passes the test |
| Seqs.FilterCount | server.js:111 | a kept element occurs as often as in the input; a rejected one does not occur |
| Seqs.FilterAppend | server.js:127 | filtering a concatenation is concatenating the filtered parts |
| Seqs.FilterSubsequence | server.js:127 | the filter keeps the input order |
| Seqs.FilterAll | server.js:111 | when every element passes, the filter returns its input |
| Seqs.FilterCons | server.js:111 | filtering an element followed by the rest gives the element if it passes, then the filtered rest |
| Seqs.FilterSwap | server.js:112 | two adjacent elements that do not both pass can trade places without changing the filter |
| Seqs.FilterDropHead | server.js:112 | sequences with a common head that filter alike also filter alike without it |
| Seqs.NoDupInsert | server.js:101-102 | an element found in neither part can go between them without creating a duplicate |
| Seqs.NoDupCounts | server.js:111 | in a sequence without duplicates every value occurs at most once |
| Seqs.CountsNoDup | server.js:111 | a sequence in which every value occurs at most once has no duplicates |
| Routing.Split | server.js:86 | `split('/')` returns at least one piece and no piece contains the separator |
| Routing.JoinSplit | server.js:86 | joining the pieces of a split gives back the string |
| Routing.SplitJoin | server.js:86 | splitting a join of separator-free pieces gives back the pieces |
| Routing.SplitWithoutSeparator | server.js:86 | a string without the separator splits into itself |
| Routing.SplitCons | server.js:86 | a separator-free head before the separator is split off as the first piece |
| Routing.MatchesActionPath | server.js:85 | the like regular expression `^\/recommendations\/[^\/]+\/like$` (and its comment twin, server.js:95): an accepted path is long enough and what lies between the prefix and `/<action>` is one non-empty segment without `/` |
| Routing.ActionPathMatches | server.js:85 | the like/comment regular expression accepts `/recommendations/<seg>/<action>` for every non-empty `seg` without `/`, and the matched segment is `seg` |
| Routing.MatchedActionPath | server.js:85 | every path the regular expression accepts is `/recommendations/<seg>/<action>` for a non-empty `seg` without `/` |
| Routing.SplitActionPath | server.js:85-86 | on an accepted path, `split('/')` has four pieces and piece 2 is the matched segment |
| Routing.RouteOf | server.js:34-131 | the `if` chain: the like and comment routes are reached only by POST on a path the regular expression accepts, and the `recId` they carry, `split('/')[2]`, is the segment the expression matched |
| Routing.RouteOfRequestFor | server.js:34-129 | every route is reached by its own method and path, and the like and comment routes carry the id from the path |
| Routing.RequestForRouteOf | server.js:34-131 | a request that reaches a handler is exactly that handler's request; every other request falls through |
| Routing.LikeAndCommentUrls | server.js:85-86 | `/recommendations/<id>/like` and `/recommendations/<id>/comment` reach the like and comment handlers with `recId == id` |
| Queries.ReciprocalAppend | server.js:53-54 | appending an edge and then its reverse keeps the store in reciprocal pairs, so its length stays even |
| Queries.ReverseEdgePresent | server.js:53-54 | in a store of reciprocal pairs the reverse of every edge is present |
| Queries.FriendIds | server.js:109 | `v` is among the friend ids of `u` exactly when the edge `(u, v)` is stored |
| Queries.FriendIdsSymmetric | server.js:109 | with reciprocal pairs, `v` is a friend of `u` exactly when `u` is a friend of `v` |
| Queries.VisibleTo | server.js:111 | the feed's filter keeps a recommendation exactly when it is the requester's or its author is the `userId2` of an edge from the requester |
| Queries.InsertNewest | server.js:112 | inserting into a newest-first sequence keeps it newest first and adds exactly the new element |
| Queries.SortNewestFirst | server.js:112 | the sort returns a newest-first permutation of its input |
| Queries.InsertNewestStable | server.js:112 | insertion puts the new element ahead of existing elements with the same timestamp |
| Queries.SortNewestFirstStable | server.js:112 | the sort is stable: elements with equal timestamps keep their input order |
| Queries.NewestFirstUnique | server.js:112 | two newest-first sequences with the same elements per timestamp, in the same order, are equal |
| Queries.NewestFirstCons | server.js:112 | an element no older than the head of a newest-first sequence can go in front of it |
| Queries.SameHead | server.js:112 | two newest-first sequences with the same per-timestamp subsequences start with the same element |
| Queries.InsertOldest | server.js:112 | an element older than everything in a newest-first sequence is inserted at its end |
| Queries.SortCreatedInOrder | server.js:112 | recommendations listed in creation order, with distinct timestamps, sort into reverse order |
| Queries.FeedOf | server.js:109-112 | the feed is newest first and a permutation of the store's recommendations by the requester or a friend |
| Queries.FeedMembers | server.js:109-111 | a recommendation is in the feed exactly when it is in the store and by the requester or by the `userId2` of an edge from the requester |
| Queries.FeedCount | server.js:109-111 | the feed holds each visible recommendation as often as the store does and no other |
| Queries.FeedNoDup | server.js:109-112 | a store holding each recommendation once (as distinct ids ensure) gives a feed without repeats |
| Queries.FeedTiesInStoreOrder | server.js:112 | recommendations with equal `createdAt` appear in the feed in store order |
| Queries.FeedUnique | server.js:109-112 | the feed is the only newest-first arrangement of the visible recommendations that keeps ties in store order |
| Queries.FeedLatestFirst | server.js:110-112 | when the recommendations the requester can see were created one after another, the feed is those recommendations latest first (R1, R2, R3 come back as R3, R2, R1), whatever else the store holds |
| Queries.FriendsSeeEachOther | server.js:53-54 | after a friend request, each user's recommendations are in the other's feed |
| Queries.WatchlistOf | server.js:127 | every returned entry belongs to the requested user |
| Queries.WatchlistMembers | server.js:127 | an entry is returned exactly when it is stored and belongs to the requested user |
| Queries.WatchlistInInsertionOrder | server.js:127 | the returned entries are a subsequence of the store, in insertion order |
| Queries.WatchlistAfterAdd | server.js:120 | an added entry is appended at the end of its owner's watchlist; every other user's watchlist is unchanged |
| Server.FindRecommendation | server.js:89 | `find` returns the first recommendation with the id, or none when no recommendation has it |
| Server.NewUser | server.js:37-45 | the created user carries the fresh id and the request time, and its name and email are non-empty |
| Server.NewRecommendation | server.js:61-80 | the created recommendation carries the fresh id and the request time, has no likes and no comments, has non-empty userId, title and type, and never stores a zero `releaseYear` or `rating` (`\|\| null`) |
| Server.WithLike | server.js:91 | afterwards the user is among the likes; an existing like leaves the list unchanged; otherwise it is appended; duplicate-freedom is kept |
| Server.WithLikeIdempotent | server.js:91 | liking twice is liking once |
| Server.FindRecommendationSameIds | server.js:89 | `find` by id gives the same index in any store with the same ids in the same places |
| Server.LikeTwice | server.js:85-93 | the same like request sent twice has the outcome of one like, and the second response repeats the first |
| Server.AllCommentIdsUpdate | server.js:102 | replacing one recommendation replaces its comment ids and keeps the others around them |
| Server.AllCommentIdsKeep | server.js:91 | a like, which leaves the comments alone, leaves all comment ids alone |
| Server.CommentKeepsIdsDistinct | server.js:101-102 | appending a comment with an unused id keeps the ids of all comments distinct |
| Server.Store.constructor | server.js:5-8 | the server starts with four empty collections |
| Server.Store.PostUser | server.js:34-48 | a missing or empty name or email gives 400 `name and email required` with nothing changed; otherwise one user is appended (profilePic and bio default to `""`, favoriteGenres to `[]`), returned with 201, and the other collections are unchanged |
| Server.Store.PostFriends | server.js:50-56 | a missing userId or friendId gives 400 with nothing changed; otherwise the edges `(userId, friendId)` then `(friendId, userId)` are appended, with no existence or duplicate check, and the pairing invariant is kept |
| Server.Store.PostRecommendation | server.js:58-83 | a missing userId, title or type gives 400 with nothing changed; otherwise one recommendation with defaulted optional fields and no likes or comments is appended and returned with 201 |
| Server.Store.PostLike | server.js:85-93 | a missing userId gives 400, an unknown id gives 404 `not found`, both with nothing changed; otherwise only the first matching recommendation's likes change, by a set insert, and 200 carries the new likes count |
| Server.Store.PostComment | server.js:95-104 | a missing userId or text gives 400, an unknown id gives 404, both with nothing changed; otherwise one comment is appended to the end of the first matching recommendation's comments and returned with 201, and nothing else changes |
| Server.Store.GetFeed | server.js:106-114 | a missing or empty userId gives 400; otherwise 200 with the feed of the current store; the store is not modified |
| Server.Store.PostWatchlist | server.js:116-122 | a missing userId or recId gives 400 with nothing changed; otherwise one entry with status `planned` and a null watchedDate is appended, with no existence check, and returned with 201 |
| Server.Store.GetWatchlist | server.js:124-129 | a missing or empty userId gives 400; otherwise 200 with the user's entries in insertion order; the store is not modified |
| Server.Store.Handle | server.js:30-131 | each route's request has exactly the outcome of its handler (the same outcome predicate the handler ensures: `CreateUserOutcome`, `AddFriendOutcome`, `CreateRecommendationOutcome`, `LikeOutcome` and `CommentOutcome` on the `recId` taken from the path, `FeedOutcome`, `AddToWatchlistOutcome`, `WatchlistOutcome`); an unmatched request gives 404 `Not found` and changes nothing; any error or non-POST request changes nothing; each collection changes only under its own routes; the store invariant is kept |
| Server.LikeViaUrl | server.js:85-93 | a like POSTed to `/recommendations/<recId>/like` with a userId gives 404 when no recommendation has that id, and otherwise 200 with the user among the likes of the recommendation with id `recId` |
| Server.AliceAndBobBefriend | test.js:7-25 | after two sign-ups and a friend request, the store holds the two users and one reciprocal pair of edges |
| Server.AliceRecommendsInception | test.js:27-38 | Alice's recommendation is appended with no likes or comments and is the only one in the store |
| Server.BobReadsFeed | test.js:40-42 | Bob's feed holds exactly his friend's one recommendation |
| Server.FriendsOnlyRecommendation | test.js:40-42 | a friend's only recommendation is the whole of the feed |
| Server.OwnEntry | test.js:62-64 | a watchlist of one entry is the whole of its owner's watchlist |
| Server.BobReacts | test.js:44-60 | Bob's like returns a count of 1, his comment is returned with 201, and his watchlist holds one planned entry |
| Server.AliceAndBob | test.js:7-64 | Bob's feed holds exactly Alice's one recommendation, the like count is 1, the comment is created, and Bob's watchlist holds exactly one planned entry for that recommendation |

## Left out

- The HTTP layer is not modelled: `send`, `writeHead`/`end`, `server.listen`, `module.exports`, and `url.parse` of the request URL (server.js:10-13, 30-32, 134-138). `Handle` receives the method, the pathname and the `userId` query value directly.
- `parseBody` is not modelled (server.js:15-28). That covers reading the request stream, `JSON.parse`, and the unhandled rejection when the JSON is malformed. Handlers receive an already-parsed `Body`, and an empty body is `EMPTY_BODY`.
- `randomUUID()` and `new Date().toISOString()` are not modelled: their values come in as parameters. Fresh ids are a precondition. Timestamps are natural numbers with no ISO-string format.
- Request interleaving at `await parseBody` is not modelled: each handler is one atomic step.
- Dynamic JSON typing is not modelled. Each field has one type: strings, string lists, integers for `releaseYear` and `rating`, and a boolean for `spoilerFlag`. So a non-string `userId`, a number where a string or list is expected, a `NaN` or fractional number, or a `false` list field get no model. `NewRecommendation` models `|| null` on the two numbers (zero becomes null). `|| false` and `|| []` are modelled only for values of the right type.
- A repeated `userId` query parameter is not modelled. `url.parse` turns it into an array, but here the query value is a single string.
- Server.Store.PostLike and Server.Store.PostComment do not capture aliasing. The source pushes onto the found recommendation object in place. The model replaces that element of the sequence with an updated value. Nothing in the source can observe the difference, because each response is serialized before the next request runs.
