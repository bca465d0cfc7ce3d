/**
 * The in-memory artist catalogue: artist records with their ratings and
 * followers, and the store that owns them (src/models/artist.model.ts).
 *
 * The store's state is one ordered sequence of records. Every store operation
 * is specified by a function on that sequence (IndexOf, Page, CreatedStore,
 * UpdatedStore, DeletedStore, RatedStore, FollowedStore); the methods of the
 * class ArtistStore are proved against those functions, and the lemmas state
 * what the operations promise about them.
 */
module ArtistModel {

  import opened Paging

  datatype Option<T> = None | Some(value: T)

  /** A date, as milliseconds since the epoch; the store never inspects it. */
  type Timestamp = int

  /** One user's rating of an artist. */
  datatype Rating = Rating(userId: string, value: int, date: Timestamp)

  datatype Artist = Artist(
    id: string,
    name: string,
    stageName: string,
    imageUrl: string,
    recordLabel: string,
    publisher: string,
    careerStartDate: Timestamp,
    ratings: seq<Rating>,
    followers: seq<string>,
    averageRating: real)

  /** What `create` receives: an Artist without the fields the store manages. */
  datatype ArtistFields = ArtistFields(
    name: string,
    stageName: string,
    imageUrl: string,
    recordLabel: string,
    publisher: string,
    careerStartDate: Timestamp)

  /**
   * What `update` receives: a partial Artist. `None` is a key the update does
   * not carry, `Some(v)` a key it carries with value `v`. Every key of Artist
   * may be present, the managed ones included.
   */
  datatype ArtistUpdate = ArtistUpdate(
    id: Option<string>,
    name: Option<string>,
    stageName: Option<string>,
    imageUrl: Option<string>,
    recordLabel: Option<string>,
    publisher: Option<string>,
    careerStartDate: Option<Timestamp>,
    ratings: Option<seq<Rating>>,
    followers: Option<seq<string>>,
    averageRating: Option<real>)

  // ---------------------------------------------------------------------
  // Ratings and their average
  // ---------------------------------------------------------------------

  /** The sum of the rating values, accumulated from the front as `reduce` does. */
  function Sum(rs: seq<Rating>): (total: int)
  {
    if |rs| == 0 then 0 else Sum(rs[..|rs| - 1]) + rs[|rs| - 1].value
  }

  /** calculateAverageRating: 0 for no ratings, else the arithmetic mean. */
  function AverageRating(rs: seq<Rating>): (avg: real)
    ensures |rs| == 0 ==> avg == 0.0
    ensures |rs| > 0 ==> avg * (|rs| as real) == Sum(rs) as real
  {
    if |rs| == 0 then 0.0 else Sum(rs) as real / (|rs| as real)
  }

  predicate HasRated(rs: seq<Rating>, userId: string)
  {
    exists k :: 0 <= k < |rs| && rs[k].userId == userId
  }

  /** At most one rating per user. */
  predicate DistinctRaters(rs: seq<Rating>)
  {
    forall i, j :: 0 <= i < j < |rs| ==> rs[i].userId != rs[j].userId
  }

  /**
   * Every rating value lies in 1..5. The model requires this of addRating; the
   * HTTP layer's own check (`rating < 1 || rating > 5`) is weaker.
   */
  predicate RatingsInRange(rs: seq<Rating>)
  {
    forall k :: 0 <= k < |rs| ==> 1 <= rs[k].value <= 5
  }

  predicate DistinctFollowers(fs: seq<string>)
  {
    forall i, j :: 0 <= i < j < |fs| ==> fs[i] != fs[j]
  }

  lemma SumAppend(rs: seq<Rating>, r: Rating)
    ensures Sum(rs + [r]) == Sum(rs) + r.value
  {
  }

  lemma {:induction false} SumBounds(rs: seq<Rating>, lo: int, hi: int)
    requires forall k :: 0 <= k < |rs| ==> lo <= rs[k].value <= hi
    ensures |rs| * lo <= Sum(rs) <= |rs| * hi
  {
    if |rs| > 0 {
      var n := |rs| - 1;
      SumBounds(rs[..n], lo, hi);
      assert Sum(rs) == Sum(rs[..n]) + rs[n].value;
      assert (n + 1) * lo == n * lo + lo && (n + 1) * hi == n * hi + hi;
    }
  }

  /** A quotient by a positive count of a total between n*lo and n*hi lies in lo..hi. */
  lemma QuotientBounds(x: real, n: real, lo: real, hi: real)
    requires n > 0.0 && n * lo <= x <= n * hi
    ensures lo <= x / n <= hi
  {
  }

  lemma CastProduct(a: int, b: int)
    ensures (a * b) as real == a as real * b as real
  {
  }

  /** The mean of values that all lie in lo..hi lies in lo..hi. */
  lemma AverageInRange(rs: seq<Rating>, lo: int, hi: int)
    requires |rs| > 0
    requires forall k :: 0 <= k < |rs| ==> lo <= rs[k].value <= hi
    ensures lo as real <= AverageRating(rs) <= hi as real
  {
    var n, total := |rs|, Sum(rs);
    SumBounds(rs, lo, hi);
    assert n * lo <= total <= n * hi;
    CastProduct(n, lo);
    CastProduct(n, hi);
    QuotientBounds(total as real, n as real, lo as real, hi as real);
    assert AverageRating(rs) == total as real / n as real;
  }

  /** Adding one rating gives the mean of the old values and the new one. */
  lemma AverageAfterAppend(rs: seq<Rating>, r: Rating)
    ensures AverageRating(rs + [r]) == (Sum(rs) + r.value) as real / ((|rs| + 1) as real)
  {
    var t := rs + [r];
    SumAppend(rs, r);
    var total, n := Sum(t), |t|;
    assert total == Sum(rs) + r.value && n == |rs| + 1;
    assert AverageRating(t) == total as real / n as real;
  }

  // ---------------------------------------------------------------------
  // Record invariants
  // ---------------------------------------------------------------------

  /**
   * What create, addRating and followArtist keep true of a record: one rating
   * and one follow per user, rating values in 1..5, and the cached average
   * equal to the mean of the ratings.
   */
  predicate Consistent(a: Artist)
  {
    && DistinctRaters(a.ratings)
    && RatingsInRange(a.ratings)
    && DistinctFollowers(a.followers)
    && a.averageRating == AverageRating(a.ratings)
  }

  predicate AllConsistent(s: seq<Artist>)
  {
    forall k :: 0 <= k < |s| ==> Consistent(s[k])
  }

  predicate IdsUnique(s: seq<Artist>)
  {
    forall i, j :: 0 <= i < j < |s| ==> s[i].id != s[j].id
  }

  predicate StoreInvariant(s: seq<Artist>)
  {
    IdsUnique(s) && AllConsistent(s)
  }

  /** A consistent record's cached average is 0 (no ratings) or lies in 1..5. */
  lemma ConsistentAverage(a: Artist)
    requires Consistent(a)
    ensures |a.ratings| == 0 ==> a.averageRating == 0.0
    ensures |a.ratings| > 0 ==> 1.0 <= a.averageRating <= 5.0
  {
    if |a.ratings| > 0 {
      AverageInRange(a.ratings, 1, 5);
    }
  }

  // ---------------------------------------------------------------------
  // Lookup by id (findIndex / find)
  // ---------------------------------------------------------------------

  /** The position of the first record with this id, or -1 when there is none. */
  function IndexOf(s: seq<Artist>, id: string): (r: int)
    ensures -1 <= r < |s|
    ensures r >= 0 ==> s[r].id == id && forall j :: 0 <= j < r ==> s[j].id != id
    ensures r == -1 ==> forall j :: 0 <= j < |s| ==> s[j].id != id
  {
    if |s| == 0 then -1
    else if s[0].id == id then 0
    else
      var k := IndexOf(s[1..], id);
      if k == -1 then -1 else k + 1
  }

  /** Two stores with the same ids in the same order find an id at the same place. */
  lemma SameIdsSameIndex(s: seq<Artist>, t: seq<Artist>, id: string)
    requires |s| == |t|
    requires forall j :: 0 <= j < |s| ==> s[j].id == t[j].id
    ensures IndexOf(s, id) == IndexOf(t, id)
  {
  }

  // ---------------------------------------------------------------------
  // getAll
  // ---------------------------------------------------------------------

  /** Every record is on exactly the page its position says, at the offset it says. */
  lemma OnItsPage(s: seq<Artist>, limit: int, j: int)
    requires limit >= 1 && 0 <= j < |s|
    ensures j % limit < |Page(s, j / limit + 1, limit)|
    ensures Page(s, j / limit + 1, limit)[j % limit] == s[j]
  {
  }

  // ---------------------------------------------------------------------
  // create
  // ---------------------------------------------------------------------

  /** The record create builds: the caller's fields, the given id, nothing rated or followed. */
  function NewArtist(f: ArtistFields, id: string): (a: Artist)
    ensures Consistent(a) && a.id == id
    ensures a.ratings == [] && a.followers == [] && a.averageRating == 0.0
    ensures a.name == f.name && a.stageName == f.stageName && a.imageUrl == f.imageUrl
    ensures a.recordLabel == f.recordLabel && a.publisher == f.publisher
    ensures a.careerStartDate == f.careerStartDate
  {
    Artist(id, f.name, f.stageName, f.imageUrl, f.recordLabel, f.publisher, f.careerStartDate,
           [], [], 0.0)
  }

  predicate IsFreshId(s: seq<Artist>, id: string)
  {
    forall k :: 0 <= k < |s| ==> s[k].id != id
  }

  function CreatedStore(s: seq<Artist>, f: ArtistFields, id: string): (r: seq<Artist>)
    ensures |r| == |s| + 1 && r[..|s|] == s
    ensures r[|s|] == NewArtist(f, id)
  {
    s + [NewArtist(f, id)]
  }

  /** A created record is found by its fresh id, at the end of the store. */
  lemma CreateThenFind(s: seq<Artist>, f: ArtistFields, id: string)
    requires IsFreshId(s, id)
    ensures IndexOf(CreatedStore(s, f, id), id) == |s|
  {
    var r := CreatedStore(s, f, id);
    assert r[|s|].id == id;
  }

  lemma CreatePreservesInvariant(s: seq<Artist>, f: ArtistFields, id: string)
    requires StoreInvariant(s) && IsFreshId(s, id)
    ensures StoreInvariant(CreatedStore(s, f, id))
  {
  }

  // ---------------------------------------------------------------------
  // update
  // ---------------------------------------------------------------------

  /** `{ ...a, ...u }`: each key the update carries replaces the record's value. */
  function Merge(a: Artist, u: ArtistUpdate): (merged: Artist)
  {
    Artist(
      if u.id.Some? then u.id.value else a.id,
      if u.name.Some? then u.name.value else a.name,
      if u.stageName.Some? then u.stageName.value else a.stageName,
      if u.imageUrl.Some? then u.imageUrl.value else a.imageUrl,
      if u.recordLabel.Some? then u.recordLabel.value else a.recordLabel,
      if u.publisher.Some? then u.publisher.value else a.publisher,
      if u.careerStartDate.Some? then u.careerStartDate.value else a.careerStartDate,
      if u.ratings.Some? then u.ratings.value else a.ratings,
      if u.followers.Some? then u.followers.value else a.followers,
      if u.averageRating.Some? then u.averageRating.value else a.averageRating)
  }

  /** An update that carries none of the keys the store manages. */
  predicate Guarded(u: ArtistUpdate)
  {
    u.id.None? && u.ratings.None? && u.followers.None? && u.averageRating.None?
  }

  function UpdatedStore(s: seq<Artist>, id: string, u: ArtistUpdate): (r: seq<Artist>)
    ensures |r| == |s|
    ensures IndexOf(s, id) == -1 ==> r == s
    ensures IndexOf(s, id) >= 0 ==>
      r[IndexOf(s, id)] == Merge(s[IndexOf(s, id)], u) &&
      forall j :: 0 <= j < |s| && j != IndexOf(s, id) ==> r[j] == s[j]
  {
    var i := IndexOf(s, id);
    if i == -1 then s else s[i := Merge(s[i], u)]
  }

  /** Merging the same update twice is merging it once. */
  lemma MergeIdempotent(a: Artist, u: ArtistUpdate)
    ensures Merge(Merge(a, u), u) == Merge(a, u)
  {
  }

  /** An update that touches no managed key keeps the store invariant. */
  lemma GuardedUpdatePreservesInvariant(s: seq<Artist>, id: string, u: ArtistUpdate)
    requires StoreInvariant(s) && Guarded(u)
    ensures StoreInvariant(UpdatedStore(s, id, u))
  {
  }

  /** Nothing guards `id`: an update can give one record another record's id. */
  lemma UpdateCanDuplicateIds(a: Artist, b: Artist)
    requires Consistent(a) && Consistent(b) && a.id != b.id
    ensures StoreInvariant([a, b])
    ensures !IdsUnique(UpdatedStore([a, b], b.id,
              ArtistUpdate(Some(a.id), None, None, None, None, None, None, None, None, None)))
  {
    var s := [a, b];
    assert IndexOf(s, b.id) == 1;
    var r := UpdatedStore(s, b.id,
               ArtistUpdate(Some(a.id), None, None, None, None, None, None, None, None, None));
    assert r[0].id == r[1].id;
  }

  /** Nothing guards `averageRating`: an update can make the cached average wrong. */
  lemma UpdateCanBreakAverage(a: Artist, x: real)
    requires Consistent(a) && x != a.averageRating
    ensures !AllConsistent(UpdatedStore([a], a.id,
              ArtistUpdate(None, None, None, None, None, None, None, None, None, Some(x))))
  {
  }

  // ---------------------------------------------------------------------
  // delete
  // ---------------------------------------------------------------------

  /** `splice(index, 1)` at the first record with this id, if there is one. */
  function DeletedStore(s: seq<Artist>, id: string): (r: seq<Artist>)
    ensures IndexOf(s, id) == -1 ==> r == s
    ensures IndexOf(s, id) >= 0 ==>
      |r| == |s| - 1 && multiset(r) + multiset{s[IndexOf(s, id)]} == multiset(s)
  {
    var i := IndexOf(s, id);
    if i == -1 then s
    else
      assert s == s[..i] + [s[i]] + s[i + 1..];
      s[..i] + s[i + 1..]
  }

  /** Deletion keeps the other records in their relative order. */
  lemma DeleteKeepsOrder(s: seq<Artist>, id: string, k: int)
    requires IndexOf(s, id) >= 0 && 0 <= k < |s| - 1
    ensures DeletedStore(s, id)[k] == if k < IndexOf(s, id) then s[k] else s[k + 1]
  {
  }

  /** With unique ids, a deleted record is gone: findById misses and a second delete fails. */
  lemma DeleteThenAbsent(s: seq<Artist>, id: string)
    requires IdsUnique(s)
    ensures IndexOf(DeletedStore(s, id), id) == -1
  {
  }

  lemma DeletePreservesInvariant(s: seq<Artist>, id: string)
    requires StoreInvariant(s)
    ensures StoreInvariant(DeletedStore(s, id))
  {
  }

  // ---------------------------------------------------------------------
  // addRating
  // ---------------------------------------------------------------------

  /** addRating succeeds exactly when the artist exists and the user has not rated it. */
  predicate RatingAccepted(s: seq<Artist>, artistId: string, userId: string)
  {
    var i := IndexOf(s, artistId);
    i >= 0 && !HasRated(s[i].ratings, userId)
  }

  /** The record with one more rating and its average recomputed. */
  function Rated(a: Artist, userId: string, value: int, date: Timestamp): (rated: Artist)
  {
    var rs := a.ratings + [Rating(userId, value, date)];
    a.(ratings := rs, averageRating := AverageRating(rs))
  }

  function RatedStore(s: seq<Artist>, artistId: string, userId: string, value: int,
                      date: Timestamp): (r: seq<Artist>)
    ensures |r| == |s| && forall j :: 0 <= j < |s| ==> r[j].id == s[j].id
    ensures !RatingAccepted(s, artistId, userId) ==> r == s
    ensures RatingAccepted(s, artistId, userId) ==>
      forall j :: 0 <= j < |s| && j != IndexOf(s, artistId) ==> r[j] == s[j]
  {
    if RatingAccepted(s, artistId, userId) then
      var i := IndexOf(s, artistId);
      s[i := Rated(s[i], userId, value, date)]
    else s
  }

  /** An accepted rating is appended, counted once, and folded into the mean. */
  lemma RatingRecorded(s: seq<Artist>, artistId: string, userId: string, value: int,
                       date: Timestamp)
    requires RatingAccepted(s, artistId, userId)
    ensures var i := IndexOf(s, artistId);
            var a := RatedStore(s, artistId, userId, value, date)[i];
            && a.ratings == s[i].ratings + [Rating(userId, value, date)]
            && |a.ratings| == |s[i].ratings| + 1
            && a.followers == s[i].followers
            && a.averageRating == (Sum(s[i].ratings) + value) as real / ((|s[i].ratings| + 1) as real)
            && a == s[i].(ratings := a.ratings, averageRating := a.averageRating)
  {
    var i := IndexOf(s, artistId);
    assert RatedStore(s, artistId, userId, value, date)[i] == Rated(s[i], userId, value, date);
    AverageAfterAppend(s[i].ratings, Rating(userId, value, date));
  }

  /** The same user's second rating of the same artist is rejected and changes nothing. */
  lemma SecondRatingRejected(s: seq<Artist>, artistId: string, userId: string,
                             v1: int, d1: Timestamp, v2: int, d2: Timestamp)
    requires RatingAccepted(s, artistId, userId)
    ensures var t := RatedStore(s, artistId, userId, v1, d1);
            !RatingAccepted(t, artistId, userId) && RatedStore(t, artistId, userId, v2, d2) == t
  {
  }

  lemma RatingPreservesInvariant(s: seq<Artist>, artistId: string, userId: string,
                                 value: int, date: Timestamp)
    requires 1 <= value <= 5 && StoreInvariant(s)
    ensures StoreInvariant(RatedStore(s, artistId, userId, value, date))
  {
  }

  /** Rating a fresh artist 3 by u1, then 5 by u1 (rejected), then 5 by u2 gives 3.0, 3.0, 4.0. */
  lemma RatingExample(a: Artist, d1: Timestamp, d2: Timestamp, d3: Timestamp)
    requires Consistent(a) && a.ratings == []
    ensures var s1 := RatedStore([a], a.id, "u1", 3, d1);
            var s2 := RatedStore(s1, a.id, "u1", 5, d2);
            var s3 := RatedStore(s2, a.id, "u2", 5, d3);
            && s1[0].averageRating == 3.0
            && s2 == s1
            && s3[0].averageRating == 4.0 && |s3[0].ratings| == 2
  {
  }

  // ---------------------------------------------------------------------
  // followArtist
  // ---------------------------------------------------------------------

  /** followArtist succeeds exactly when the artist exists and the user does not follow it yet. */
  predicate FollowAccepted(s: seq<Artist>, artistId: string, userId: string)
  {
    var i := IndexOf(s, artistId);
    i >= 0 && userId !in s[i].followers
  }

  function FollowedStore(s: seq<Artist>, artistId: string, userId: string): (r: seq<Artist>)
    ensures |r| == |s| && forall j :: 0 <= j < |s| ==> r[j].id == s[j].id
    ensures !FollowAccepted(s, artistId, userId) ==> r == s
    ensures FollowAccepted(s, artistId, userId) ==>
      forall j :: 0 <= j < |s| && j != IndexOf(s, artistId) ==> r[j] == s[j]
  {
    if FollowAccepted(s, artistId, userId) then
      var i := IndexOf(s, artistId);
      s[i := s[i].(followers := s[i].followers + [userId])]
    else s
  }

  /** An accepted follow appends exactly this user after the earlier followers, and touches nothing else. */
  lemma FollowRecorded(s: seq<Artist>, artistId: string, userId: string)
    requires FollowAccepted(s, artistId, userId)
    ensures var i := IndexOf(s, artistId);
            var a := FollowedStore(s, artistId, userId)[i];
            && a.followers == s[i].followers + [userId]
            && |a.followers| == |s[i].followers| + 1
            && userId in a.followers
            && a == s[i].(followers := a.followers)
  {
  }

  /** Following twice: the first call is accepted, the second rejected and changes nothing. */
  lemma SecondFollowRejected(s: seq<Artist>, artistId: string, userId: string)
    requires FollowAccepted(s, artistId, userId)
    ensures var t := FollowedStore(s, artistId, userId);
            !FollowAccepted(t, artistId, userId) && FollowedStore(t, artistId, userId) == t
  {
  }

  lemma FollowPreservesInvariant(s: seq<Artist>, artistId: string, userId: string)
    requires StoreInvariant(s)
    ensures StoreInvariant(FollowedStore(s, artistId, userId))
  {
  }

  // ---------------------------------------------------------------------
  // The store
  // ---------------------------------------------------------------------

  /** The artist store: one ordered collection of records, changed in place. */
  class ArtistStore {
    var artists: seq<Artist>

    constructor ()
      ensures artists == []
    {
      artists := [];
    }

    /** `findIndex(a => a.id === id)`: a front-to-back scan. */
    method FindIndex(id: string) returns (index: int)
      ensures index == IndexOf(artists, id)
    {
      index := 0;
      while index < |artists|
        invariant 0 <= index <= |artists|
        invariant forall j :: 0 <= j < index ==> artists[j].id != id
      {
        if artists[index].id == id {
          return;
        }
        index := index + 1;
      }
      index := -1;
    }

    method GetAll(page: int, limit: int) returns (items: seq<Artist>, total: int)
      requires page >= 1 && limit >= 1
      ensures items == Page(artists, page, limit)
      ensures (page - 1) * limit >= |artists| ==> items == []
      ensures total == |artists|
    {
      items := Page(artists, page, limit);
      total := |artists|;
    }

    /** Appends a new record with the given fresh id; `id` stands for `crypto.randomUUID()`. */
    method Create(fields: ArtistFields, id: string) returns (created: Artist)
      requires IsFreshId(artists, id)
      modifies this
      ensures created == NewArtist(fields, id)
      ensures artists == CreatedStore(old(artists), fields, id)
      ensures IndexOf(artists, id) == |old(artists)|
      ensures StoreInvariant(old(artists)) ==> StoreInvariant(artists)
    {
      created := NewArtist(fields, id);
      CreateThenFind(artists, fields, id);
      if StoreInvariant(artists) {
        CreatePreservesInvariant(artists, fields, id);
      }
      artists := artists + [created];
    }

    method Update(id: string, updates: ArtistUpdate) returns (result: Option<Artist>)
      modifies this
      ensures artists == UpdatedStore(old(artists), id, updates)
      ensures result.None? <==> IndexOf(old(artists), id) == -1
      ensures result.Some? ==> result.value == artists[IndexOf(old(artists), id)]
      ensures Guarded(updates) && StoreInvariant(old(artists)) ==> StoreInvariant(artists)
    {
      if Guarded(updates) && StoreInvariant(artists) {
        GuardedUpdatePreservesInvariant(artists, id, updates);
      }
      var index := FindIndex(id);
      if index == -1 {
        return None;
      }
      artists := artists[index := Merge(artists[index], updates)];
      result := Some(artists[index]);
    }

    method Delete(id: string) returns (deleted: bool)
      modifies this
      ensures deleted <==> IndexOf(old(artists), id) >= 0
      ensures artists == DeletedStore(old(artists), id)
      ensures IdsUnique(old(artists)) ==> IndexOf(artists, id) == -1
      ensures StoreInvariant(old(artists)) ==> StoreInvariant(artists)
    {
      if IdsUnique(artists) {
        DeleteThenAbsent(artists, id);
      }
      if StoreInvariant(artists) {
        DeletePreservesInvariant(artists, id);
      }
      var index := FindIndex(id);
      if index == -1 {
        return false;
      }
      artists := artists[..index] + artists[index + 1..];
      deleted := true;
    }

    method FindById(id: string) returns (found: Option<Artist>)
      ensures found.Some? <==> exists j :: 0 <= j < |artists| && artists[j].id == id
      ensures found.Some? ==> found.value == artists[IndexOf(artists, id)] && found.value.id == id
    {
      var index := FindIndex(id);
      if index == -1 {
        return None;
      }
      found := Some(artists[index]);
    }

    /**
     * `date` stands for `new Date()`. The model requires a value in 1..5; the HTTP
     * layer's check is weaker and lets fractional, missing and non-numeric values through.
     */
    method AddRating(artistId: string, userId: string, value: int, date: Timestamp)
      returns (result: Option<Artist>)
      requires 1 <= value <= 5
      modifies this
      ensures result.Some? <==> RatingAccepted(old(artists), artistId, userId)
      ensures artists == RatedStore(old(artists), artistId, userId, value, date)
      ensures result.Some? ==> result.value == artists[IndexOf(old(artists), artistId)]
      ensures StoreInvariant(old(artists)) ==> StoreInvariant(artists)
    {
      if StoreInvariant(artists) {
        RatingPreservesInvariant(artists, artistId, userId, value, date);
      }
      var index := FindIndex(artistId);
      if index == -1 {
        return None;
      }
      var artist := artists[index];
      if HasRated(artist.ratings, userId) {
        return None;
      }
      var ratings := artist.ratings + [Rating(userId, value, date)];
      artist := artist.(ratings := ratings, averageRating := AverageRating(ratings));
      artists := artists[index := artist];
      result := Some(artist);
    }

    method FollowArtist(artistId: string, userId: string) returns (ok: bool)
      modifies this
      ensures ok <==> FollowAccepted(old(artists), artistId, userId)
      ensures artists == FollowedStore(old(artists), artistId, userId)
      ensures StoreInvariant(old(artists)) ==> StoreInvariant(artists)
    {
      if StoreInvariant(artists) {
        FollowPreservesInvariant(artists, artistId, userId);
      }
      var index := FindIndex(artistId);
      if index == -1 {
        return false;
      }
      var artist := artists[index];
      if userId !in artist.followers {
        artists := artists[index := artist.(followers := artist.followers + [userId])];
        return true;
      }
      return false;
    }
  }
}
