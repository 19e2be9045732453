/**
  The two read handlers of server.js as functions of the current collections:
  the feed (own and friends' recommendations, newest first) and a user's
  watchlist, together with the friendship facts the feed relies on.
 */
module Queries {
  import opened Records
  import opened Seqs

  // ---------------------------------------------------------------------------
  // Friendships
  // ---------------------------------------------------------------------------

  /** The same edge pointing the other way. */
  function Reversed(f: Friendship): Friendship {
    Friendship(f.userId2, f.userId1)
  }

  /**
    How the friend handler stores friendships: a sequence of pairs, each an
    edge followed by its reverse.
   */
  ghost predicate Reciprocal(friendships: seq<Friendship>) {
    && |friendships| % 2 == 0
    && forall i :: 0 <= i < |friendships| && i % 2 == 0 ==> friendships[i + 1] == Reversed(friendships[i])
  }

  /** Appending one pair keeps the pairing. */
  lemma ReciprocalAppend(friendships: seq<Friendship>, f: Friendship)
    requires Reciprocal(friendships)
    ensures Reciprocal(friendships + [f, Reversed(f)])
  {
  }

  /** In a reciprocal store the reverse of every edge is present. */
  lemma ReverseEdgePresent(friendships: seq<Friendship>, f: Friendship)
    requires Reciprocal(friendships)
    requires f in friendships
    ensures Reversed(f) in friendships
  {
    var i :| 0 <= i < |friendships| && friendships[i] == f;
    if i % 2 == 0 {
      assert friendships[i + 1] == Reversed(f);
    } else {
      assert friendships[i] == Reversed(friendships[i - 1]);
    }
  }

  /** `friendships.filter(f => f.userId1 === userId).map(f => f.userId2)`. */
  function FriendIds(friendships: seq<Friendship>, userId: Id): (ids: seq<Id>)
    ensures |ids| <= |friendships|
    ensures forall v :: v in ids <==> Friendship(userId, v) in friendships
  {
    if friendships == [] then []
    else
      var f := friendships[0];
      (if f.userId1 == userId then [f.userId2] else []) + FriendIds(friendships[1..], userId)
  }

  /** Friendship as the feed sees it is symmetric once friendships are stored in pairs. */
  lemma FriendIdsSymmetric(friendships: seq<Friendship>, u: Id, v: Id)
    requires Reciprocal(friendships)
    ensures v in FriendIds(friendships, u) <==> u in FriendIds(friendships, v)
  {
    if v in FriendIds(friendships, u) {
      ReverseEdgePresent(friendships, Friendship(u, v));
    }
    if u in FriendIds(friendships, v) {
      ReverseEdgePresent(friendships, Friendship(v, u));
    }
  }

  // ---------------------------------------------------------------------------
  // Feed
  // ---------------------------------------------------------------------------

  /** The feed's filter: the requester's own recommendations and those of the requester's friends. */
  function VisibleTo(friendships: seq<Friendship>, userId: Id): (visible: Recommendation -> bool)
    ensures forall r :: visible(r) <==> r.userId == userId || Friendship(userId, r.userId) in friendships
  {
    var friendIds := FriendIds(friendships, userId);
    (r: Recommendation) => r.userId == userId || r.userId in friendIds
  }

  /** Ordered by `createdAt`, most recent first. */
  ghost predicate NewestFirst(s: seq<Recommendation>) {
    forall i, j :: 0 <= i < j < |s| ==> s[i].createdAt >= s[j].createdAt
  }

  /** An element no older than the head of a newest-first sequence can go in front of it. */
  lemma NewestFirstCons(y: Recommendation, s: seq<Recommendation>)
    requires NewestFirst(s)
    requires s != [] ==> y.createdAt >= s[0].createdAt
    ensures NewestFirst([y] + s)
  {
    var r := [y] + s;
    forall i, j | 0 <= i < j < |r|
      ensures r[i].createdAt >= r[j].createdAt
    {
      if i == 0 {
        assert r[j] == s[j - 1];
        assert s[0].createdAt >= s[j - 1].createdAt;
      } else {
        assert r[i] == s[i - 1] && r[j] == s[j - 1];
      }
    }
  }

  /** Recommendations created at instant `t`: the classes a stable sort must keep in order. */
  function CreatedAt(t: Timestamp): Recommendation -> bool {
    (r: Recommendation) => r.createdAt == t
  }

  /**
    Inserts `x` into a newest-first sequence ahead of every element that is not
    newer than `x`, so that elements already present with `x`'s timestamp stay behind it.
   */
  function InsertNewest(x: Recommendation, s: seq<Recommendation>): (r: seq<Recommendation>)
    requires NewestFirst(s)
    ensures NewestFirst(r)
    ensures multiset(r) == multiset(s) + multiset{x}
    ensures r != [] && (r[0] == x || (s != [] && r[0] == s[0]))
  {
    if s == [] then [x]
    else if s[0].createdAt <= x.createdAt then NewestFirstCons(x, s); [x] + s
    else
      var rest := InsertNewest(x, s[1..]);
      assert s == [s[0]] + s[1..];
      // rest's head, x or s[1], is not newer than s[0]
      NewestFirstCons(s[0], rest);
      [s[0]] + rest
  }

  /**
    The comparator `(a, b) => new Date(b.createdAt) - new Date(a.createdAt)`
    under JavaScript's stable `Array.prototype.sort`: newest first, ties in
    their original order.
   */
  function SortNewestFirst(s: seq<Recommendation>): (r: seq<Recommendation>)
    ensures NewestFirst(r)
    ensures multiset(r) == multiset(s)
  {
    if s == [] then []
    else
      assert s == [s[0]] + s[1..];
      InsertNewest(s[0], SortNewestFirst(s[1..]))
  }

  /** Inserting keeps every timestamp's elements in the order "x first, then the rest". */
  lemma {:induction false} InsertNewestStable(x: Recommendation, s: seq<Recommendation>, t: Timestamp)
    requires NewestFirst(s)
    ensures Filter(InsertNewest(x, s), CreatedAt(t)) == Filter([x] + s, CreatedAt(t))
  {
    if s != [] && s[0].createdAt > x.createdAt {
      var keep := CreatedAt(t);
      var y, rest := s[0], InsertNewest(x, s[1..]);
      assert InsertNewest(x, s) == [y] + rest;
      assert s == [y] + s[1..];
      // by induction, rest filters like [x] + s[1..] ...
      InsertNewestStable(x, s[1..], t);
      FilterCons(y, rest, keep);
      FilterCons(y, [x] + s[1..], keep);
      // ... and x, y have different timestamps, so they can trade places
      FilterSwap(x, y, s[1..], keep);
    } else {
      assert InsertNewest(x, s) == [x] + s;
    }
  }

  /** The sort is stable: for every timestamp, the elements created then keep their input order. */
  lemma {:induction false} SortNewestFirstStable(s: seq<Recommendation>, t: Timestamp)
    ensures Filter(SortNewestFirst(s), CreatedAt(t)) == Filter(s, CreatedAt(t))
  {
    if s != [] {
      SortNewestFirstStable(s[1..], t);
      InsertNewestStable(s[0], SortNewestFirst(s[1..]), t);
      FilterAppend([s[0]], SortNewestFirst(s[1..]), CreatedAt(t));
      FilterAppend([s[0]], s[1..], CreatedAt(t));
      assert s == [s[0]] + s[1..];
    }
  }

  /** In a newest-first sequence that holds `x`, the head is no older than `x`. */
  lemma HeadNotOlder(r: seq<Recommendation>, x: Recommendation)
    requires NewestFirst(r) && x in r
    ensures r[0].createdAt >= x.createdAt
  {
    var k :| 0 <= k < |r| && r[k] == x;
    if k > 0 {
      assert r[0].createdAt >= r[k].createdAt;
    }
  }

  /** A head of one sequence that the other holds at the same timestamp is no newer than the other's head. */
  lemma HeadInOther(r1: seq<Recommendation>, r2: seq<Recommendation>)
    requires r1 != [] && r2 != [] && NewestFirst(r2)
    requires Filter(r1, CreatedAt(r1[0].createdAt)) == Filter(r2, CreatedAt(r1[0].createdAt))
    ensures r2[0].createdAt >= r1[0].createdAt
  {
    FilterMembers(r1, CreatedAt(r1[0].createdAt), r1[0]);
    FilterMembers(r2, CreatedAt(r1[0].createdAt), r1[0]);
    HeadNotOlder(r2, r1[0]);
  }

  /** Two newest-first sequences with the same per-timestamp subsequences start with the same element. */
  lemma SameHead(r1: seq<Recommendation>, r2: seq<Recommendation>)
    requires r1 != [] && r2 != [] && NewestFirst(r1) && NewestFirst(r2)
    requires forall t: Timestamp :: Filter(r1, CreatedAt(t)) == Filter(r2, CreatedAt(t))
    ensures r1[0] == r2[0]
  {
    var t := r1[0].createdAt;
    var same := Filter(r1, CreatedAt(t));
    assert same == Filter(r2, CreatedAt(t));
    HeadInOther(r1, r2);
    assert Filter(r2, CreatedAt(r2[0].createdAt)) == Filter(r1, CreatedAt(r2[0].createdAt));
    HeadInOther(r2, r1);
    // both heads were created at t, so both lead the subsequence `same`
    assert r1 == [r1[0]] + r1[1..] && r2 == [r2[0]] + r2[1..];
    FilterKeptHead(r1[0], r1[1..], CreatedAt(t));
    FilterKeptHead(r2[0], r2[1..], CreatedAt(t));
  }

  /** Removing a common head keeps the per-timestamp subsequences equal. */
  lemma SameTails(r1: seq<Recommendation>, r2: seq<Recommendation>, t: Timestamp)
    requires r1 != [] && r2 != [] && r1[0] == r2[0]
    requires Filter(r1, CreatedAt(t)) == Filter(r2, CreatedAt(t))
    ensures Filter(r1[1..], CreatedAt(t)) == Filter(r2[1..], CreatedAt(t))
  {
    assert r1 == [r1[0]] + r1[1..] && r2 == [r1[0]] + r2[1..];
    FilterDropHead(r1[0], r1[1..], r2[1..], CreatedAt(t));
  }

  /**
    Newest-first order together with the order inside each timestamp fixes a
    sequence completely: two such sequences with the same per-timestamp
    subsequences are equal.
   */
  lemma {:induction false} NewestFirstUnique(r1: seq<Recommendation>, r2: seq<Recommendation>)
    requires NewestFirst(r1) && NewestFirst(r2)
    requires forall t: Timestamp :: Filter(r1, CreatedAt(t)) == Filter(r2, CreatedAt(t))
    ensures r1 == r2
    decreases |r1|
  {
    if r1 == [] || r2 == [] {
      if r1 != [] {
        FilterMembers(r1, CreatedAt(r1[0].createdAt), r1[0]);
      } else if r2 != [] {
        FilterMembers(r2, CreatedAt(r2[0].createdAt), r2[0]);
      }
    } else {
      SameHead(r1, r2);
      forall t: Timestamp
        ensures Filter(r1[1..], CreatedAt(t)) == Filter(r2[1..], CreatedAt(t))
      {
        SameTails(r1, r2, t);
      }
      NewestFirstUnique(r1[1..], r2[1..]);
      assert r1 == [r1[0]] + r1[1..] && r2 == [r2[0]] + r2[1..];
    }
  }

  /** GET /feed: the requester's and friends' recommendations, newest first. */
  function FeedOf(recommendations: seq<Recommendation>, friendships: seq<Friendship>, userId: Id)
    : (feed: seq<Recommendation>)
    ensures NewestFirst(feed)
    ensures multiset(feed) == multiset(Filter(recommendations, VisibleTo(friendships, userId)))
  {
    SortNewestFirst(Filter(recommendations, VisibleTo(friendships, userId)))
  }

  /** Who the feed shows: the requester's recommendations and those of the userId2 of the requester's edges. */
  lemma FeedMembers(recommendations: seq<Recommendation>, friendships: seq<Friendship>, userId: Id, r: Recommendation)
    ensures r in FeedOf(recommendations, friendships, userId)
        <==> r in recommendations && (r.userId == userId || Friendship(userId, r.userId) in friendships)
  {
    var visible := Filter(recommendations, VisibleTo(friendships, userId));
    var feed := FeedOf(recommendations, friendships, userId);
    FilterMembers(recommendations, VisibleTo(friendships, userId), r);
    assert r in feed <==> r in multiset(feed);
    assert r in visible <==> r in multiset(visible);
  }

  /** The feed holds each visible recommendation as many times as the store does (once when ids are unique). */
  lemma FeedCount(recommendations: seq<Recommendation>, friendships: seq<Friendship>, userId: Id, r: Recommendation)
    ensures multiset(FeedOf(recommendations, friendships, userId))[r]
         == if r.userId == userId || Friendship(userId, r.userId) in friendships
            then multiset(recommendations)[r] else 0
  {
    FilterCount(recommendations, VisibleTo(friendships, userId), r);
  }

  /** A store that holds each recommendation once (as distinct ids ensure) shows each at most once in a feed. */
  lemma FeedNoDup(recommendations: seq<Recommendation>, friendships: seq<Friendship>, userId: Id)
    requires NoDup(recommendations)
    ensures NoDup(FeedOf(recommendations, friendships, userId))
  {
    var feed := FeedOf(recommendations, friendships, userId);
    forall r
      ensures multiset(feed)[r] <= 1
    {
      FeedCount(recommendations, friendships, userId, r);
      NoDupCounts(recommendations, r);
    }
    CountsNoDup(feed);
  }

  /** Recommendations created at the same instant appear in the feed in store (insertion) order. */
  lemma FeedTiesInStoreOrder(recommendations: seq<Recommendation>, friendships: seq<Friendship>, userId: Id, t: Timestamp)
    ensures Filter(FeedOf(recommendations, friendships, userId), CreatedAt(t))
         == Filter(Filter(recommendations, VisibleTo(friendships, userId)), CreatedAt(t))
  {
    SortNewestFirstStable(Filter(recommendations, VisibleTo(friendships, userId)), t);
  }

  /**
    The feed is the only newest-first arrangement of the visible recommendations
    that keeps recommendations with equal timestamps in store order.
   */
  lemma FeedUnique(recommendations: seq<Recommendation>, friendships: seq<Friendship>, userId: Id, r: seq<Recommendation>)
    requires NewestFirst(r)
    requires forall t: Timestamp ::
      Filter(r, CreatedAt(t)) == Filter(Filter(recommendations, VisibleTo(friendships, userId)), CreatedAt(t))
    ensures r == FeedOf(recommendations, friendships, userId)
  {
    forall t: Timestamp
      ensures Filter(r, CreatedAt(t)) == Filter(FeedOf(recommendations, friendships, userId), CreatedAt(t))
    {
      FeedTiesInStoreOrder(recommendations, friendships, userId, t);
    }
    NewestFirstUnique(r, FeedOf(recommendations, friendships, userId));
  }

  /** Recommendations in the order they were created, no two at the same instant. */
  ghost predicate CreatedInOrder(s: seq<Recommendation>) {
    forall i, j :: 0 <= i < j < |s| ==> s[i].createdAt < s[j].createdAt
  }

  /** An element older than every element of a newest-first sequence is inserted at its end. */
  lemma {:induction false} InsertOldest(x: Recommendation, s: seq<Recommendation>)
    requires NewestFirst(s)
    requires forall i :: 0 <= i < |s| ==> x.createdAt < s[i].createdAt
    ensures InsertNewest(x, s) == s + [x]
  {
    if s != [] {
      InsertOldest(x, s[1..]);
      assert s + [x] == [s[0]] + (s[1..] + [x]);
    }
  }

  /** Sorting recommendations listed in creation order, with distinct timestamps, reverses them. */
  lemma {:induction false} SortCreatedInOrder(s: seq<Recommendation>)
    requires CreatedInOrder(s)
    ensures SortNewestFirst(s) == Reverse(s)
  {
    if s != [] {
      var sorted := SortNewestFirst(s[1..]);
      SortCreatedInOrder(s[1..]);
      forall i | 0 <= i < |sorted|
        ensures s[0].createdAt < sorted[i].createdAt
      {
        assert sorted[i] in multiset(s[1..]);
        var j :| 0 <= j < |s[1..]| && s[1..][j] == sorted[i];
        assert s[j + 1] == sorted[i];
      }
      InsertOldest(s[0], sorted);
    }
  }

  /**
    Recommendations the requester can see, created one after another, reach the
    feed latest first: R1, R2, R3 come back as R3, R2, R1, whatever else the
    store holds between them.
   */
  lemma FeedLatestFirst(recommendations: seq<Recommendation>, friendships: seq<Friendship>, u: Id)
    requires CreatedInOrder(Filter(recommendations, VisibleTo(friendships, u)))
    ensures FeedOf(recommendations, friendships, u) == Reverse(Filter(recommendations, VisibleTo(friendships, u)))
  {
    SortCreatedInOrder(Filter(recommendations, VisibleTo(friendships, u)));
  }

  /** After a friend request between `u` and `v`, each sees the other's recommendations. */
  lemma FriendsSeeEachOther(recommendations: seq<Recommendation>, friendships: seq<Friendship>, u: Id, v: Id, r: Recommendation)
    requires Reciprocal(friendships)
    requires Friendship(u, v) in friendships
    requires r in recommendations && r.userId == u
    ensures r in FeedOf(recommendations, friendships, v)
  {
    ReverseEdgePresent(friendships, Friendship(u, v));
    FeedMembers(recommendations, friendships, v, r);
  }

  // ---------------------------------------------------------------------------
  // Watchlist
  // ---------------------------------------------------------------------------

  /** The watchlist filter `w => w.userId === userId`. */
  function OwnedBy(userId: Id): WatchlistEntry -> bool {
    (w: WatchlistEntry) => w.userId == userId
  }

  /** GET /watchlist: the entries of `userId`. */
  function WatchlistOf(watchlists: seq<WatchlistEntry>, userId: Id): (entries: seq<WatchlistEntry>)
    ensures |entries| <= |watchlists|
    ensures forall i :: 0 <= i < |entries| ==> entries[i].userId == userId
  {
    Filter(watchlists, OwnedBy(userId))
  }

  /** The watchlist holds exactly the entries that were added for `userId`. */
  lemma WatchlistMembers(watchlists: seq<WatchlistEntry>, userId: Id, e: WatchlistEntry)
    ensures e in WatchlistOf(watchlists, userId) <==> e in watchlists && e.userId == userId
  {
    FilterMembers(watchlists, OwnedBy(userId), e);
  }

  /** The entries come in insertion order. */
  lemma WatchlistInInsertionOrder(watchlists: seq<WatchlistEntry>, userId: Id)
    ensures Subsequence(WatchlistOf(watchlists, userId), watchlists)
  {
    FilterSubsequence(watchlists, OwnedBy(userId));
  }

  /** Adding an entry adds it at the end of its owner's watchlist and leaves every other watchlist alone. */
  lemma WatchlistAfterAdd(watchlists: seq<WatchlistEntry>, entry: WatchlistEntry, userId: Id)
    ensures WatchlistOf(watchlists + [entry], userId)
         == WatchlistOf(watchlists, userId) + if entry.userId == userId then [entry] else []
  {
    FilterAppend(watchlists, [entry], OwnedBy(userId));
  }
}
