# Artist store model

A Dafny model of the in-memory artist catalogue of an Express back end:
`ArtistStore` in `src/models/artist.model.ts`. The store holds one ordered
collection of artist records. Each record carries caller-supplied attributes
(name, stage name, image URL, label, publisher, career start date) and three
fields the store manages: the ratings (one per user, value 1–5), the followers
(one follow per user) and the cached average rating.

`paging.dfy` holds the module `Paging`, with the page window `Page` that
`getAll` returns. `artist_model.dfy` holds the module `ArtistModel`, which
imports it:

- datatypes `Rating`, `Artist`, `ArtistFields` (what `create` receives) and
  `ArtistUpdate` (a partial record, where `None` is a key the update does not
  carry);
- specification functions on the collection (`seq<Artist>`): `IndexOf`
  (`findIndex`), `CreatedStore`, `UpdatedStore`,
  `DeletedStore`, `RatedStore`, `FollowedStore`, and `AverageRating`
  (`calculateAverageRating`);
- the record invariant `Consistent` and the store invariant
  `StoreInvariant`. `Consistent` says a record has one rating per user,
  rating values in 1..5, one follow per user, and a cached average equal to the
  mean. `StoreInvariant` says every record is consistent and the ids are unique;
- lemmas on those functions: the second rating and the second follow by a user
  are rejected; create, delete, addRating, followArtist and a guarded update
  keep the invariant; an unguarded update can break it; with unique ids, a
  deleted id is no longer found; each record sits on the page its position
  gives; a consistent record's average is 0 when unrated and lies in 1..5
  once rated;
- the class `ArtistStore`, whose field `artists: seq<Artist>` the methods
  reassign in place. Each method's `ensures` equates the new collection with
  the specification function applied to the old one, and states what it
  returns. The `findIndex` scan is a `while` loop (`FindIndex`) that every
  lookup goes through.

The source generates ids with `crypto.randomUUID()` and dates with
`new Date()`. Here both are parameters: `Create` takes the id and requires it
to be fresh, and `AddRating` takes the date.

Three behaviours of the code are modelled as written:

- Nothing in `update` guards `id`, `ratings`, `followers` or
  `averageRating`: it spreads every key of the update over the record
  (`src/models/artist.model.ts:49`). `UpdateCanDuplicateIds` and
  `UpdateCanBreakAverage` show the consequence. `GuardedUpdatePreservesInvariant`
  shows that an update carrying none of those keys keeps the invariant.
- `create` does not check the image reference; the HTTP handler does
  (`src/controllers/artist.controller.ts:7-11`), so `Create` takes any image URL.
- Followers are an array, and `followArtist` refuses duplicates with
  `includes`; the model keeps a sequence and `DistinctFollowers`.

## Model

| member | source | states |
|---|---|---|
| `ArtistModel.AverageRating` | src/models/artist.model.ts:95-99 | 0 for no ratings; otherwise the average times the count equals the sum of the values (the arithmetic mean) |
| `ArtistModel.SumAppend` | src/models/artist.model.ts:97 | appending a rating adds exactly its value to the sum |
| `ArtistModel.SumBounds` | src/models/artist.model.ts:97 | if every value lies in lo..hi, the sum of n values lies in n*lo..n*hi |
| `ArtistModel.AverageInRange` | src/models/artist.model.ts:95-99 | the mean of a non-empty list of values in lo..hi lies in lo..hi |
| `ArtistModel.AverageAfterAppend` | src/models/artist.model.ts:76-79 | after one more rating the average is (old sum + new value) / (old count + 1) |
| `ArtistModel.ConsistentAverage` | src/models/artist.model.ts:79 | a consistent record's cached average is 0 when unrated, else in 1..5 |
| `ArtistModel.IndexOf` | src/models/artist.model.ts:46 | the position of the first record with the id, or -1 exactly when no record has it |
| `ArtistModel.SameIdsSameIndex` | src/models/artist.model.ts:61-63 | stores with the same ids in the same order give the same lookup result |
| `Paging.Page` | src/models/artist.model.ts:24-31 | the page has min(limit, max(0, N - (page-1)*limit)) records, and its k-th record is record (page-1)*limit + k |
| `ArtistModel.OnItsPage` | src/models/artist.model.ts:25-28 | record j appears on page j / limit + 1 at offset j % limit |
| `ArtistModel.NewArtist` | src/models/artist.model.ts:34-40 | a new record has the given id, the caller's name, stage name, image, label, publisher and career date, no ratings, no followers, average 0, and is consistent |
| `ArtistModel.CreatedStore` | src/models/artist.model.ts:41 | create grows the store by one, leaves every earlier record where it was, and the last record is the new one (caller's fields, fresh id, no ratings or followers, average 0) |
| `ArtistModel.CreateThenFind` | src/models/artist.model.ts:33-43 | with a fresh id, the new record is found by that id, at the end |
| `ArtistModel.CreatePreservesInvariant` | src/models/artist.model.ts:33-43 | create with a fresh id keeps ids unique and every record consistent |
| `ArtistModel.UpdatedStore` | src/models/artist.model.ts:45-51 | an unknown id leaves the store unchanged; otherwise only the first match is replaced by the merged record; the length is unchanged |
| `ArtistModel.MergeIdempotent` | src/models/artist.model.ts:49 | merging the same update twice equals merging it once |
| `ArtistModel.GuardedUpdatePreservesInvariant` | src/models/artist.model.ts:49 | an update carrying none of id, ratings, followers, averageRating keeps the store invariant |
| `ArtistModel.UpdateCanDuplicateIds` | src/models/artist.model.ts:49 | from a valid two-record store, an update carrying the other record's id leaves two records with one id |
| `ArtistModel.UpdateCanBreakAverage` | src/models/artist.model.ts:49 | an update carrying averageRating can leave the cached average different from the mean |
| `ArtistModel.DeletedStore` | src/models/artist.model.ts:53-59 | an unknown id leaves the store unchanged; otherwise exactly one occurrence of the first match leaves the store (multiset) and the length drops by one |
| `ArtistModel.DeleteKeepsOrder` | src/models/artist.model.ts:57 | the remaining records keep their relative order |
| `ArtistModel.DeleteThenAbsent` | src/models/artist.model.ts:53-59 | with unique ids, the id is no longer found after delete, so findById misses and a second delete returns false |
| `ArtistModel.DeletePreservesInvariant` | src/models/artist.model.ts:53-59 | delete keeps ids unique and every record consistent |
| `ArtistModel.RatedStore` | src/models/artist.model.ts:65-82 | a rejected rating changes nothing; an accepted one changes only the rated record; ids and length never change |
| `ArtistModel.RatingRecorded` | src/models/artist.model.ts:76-79 | an accepted rating is appended as {userId, value, date}, the count grows by one, the new average is the new sum over the new count, and every other field of the record is unchanged |
| `ArtistModel.SecondRatingRejected` | src/models/artist.model.ts:70-73 | after a user's accepted rating, the same user's next rating of that artist is rejected and changes nothing |
| `ArtistModel.RatingPreservesInvariant` | src/models/artist.model.ts:65-82 | a rating with a value in 1..5 keeps ratings one per user, values in range, the average equal to the mean, and ids unique |
| `ArtistModel.RatingExample` | src/models/artist.model.ts:65-82 | ratings 3 by u1, 5 by u1, 5 by u2 on an unrated artist give 3.0, then no change, then 4.0 over two ratings |
| `ArtistModel.FollowedStore` | src/models/artist.model.ts:84-93 | a rejected follow changes nothing; an accepted one changes only the followed record; ids and length never change |
| `ArtistModel.FollowRecorded` | src/models/artist.model.ts:88-90 | an accepted follow appends the user after the earlier followers (all kept, in order), grows the follower count by exactly one, and changes no other field |
| `ArtistModel.SecondFollowRejected` | src/models/artist.model.ts:88-92 | following twice: the first call is accepted, the second is rejected and changes nothing |
| `ArtistModel.FollowPreservesInvariant` | src/models/artist.model.ts:84-93 | a follow keeps followers one per user and ids unique |
| `ArtistModel.ArtistStore.constructor` | src/models/artist.model.ts:22 | the store starts empty |
| `ArtistModel.ArtistStore.FindIndex` | src/models/artist.model.ts:46 | the linear scan returns IndexOf: the first matching position, or -1 |
| `ArtistModel.ArtistStore.GetAll` | src/models/artist.model.ts:24-31 | returns the page window and total = N; an out-of-range page is empty; the store is unchanged |
| `ArtistModel.ArtistStore.Create` | src/models/artist.model.ts:33-43 | appends the new record, returns it, makes it findable by its id, and keeps the store invariant |
| `ArtistModel.ArtistStore.Update` | src/models/artist.model.ts:45-51 | returns None exactly when the id is unknown; otherwise returns the merged record now stored at the first match; the new store is UpdatedStore |
| `ArtistModel.ArtistStore.Delete` | src/models/artist.model.ts:53-59 | returns true exactly when the id is found; the new store is DeletedStore; with unique ids the id is gone; keeps the invariant |
| `ArtistModel.ArtistStore.FindById` | src/models/artist.model.ts:61-63 | returns a record exactly when some record has the id, and then the first such record |
| `ArtistModel.ArtistStore.AddRating` | src/models/artist.model.ts:65-82 | returns the updated record exactly when the artist exists and the user has not rated it, else None with no change; the new store is RatedStore; keeps the invariant |
| `ArtistModel.ArtistStore.FollowArtist` | src/models/artist.model.ts:84-93 | returns true exactly when the artist exists and the user does not follow it; the new store is FollowedStore; keeps the invariant |

## Left out

- The HTTP handlers (`src/controllers/artist.controller.ts`), server bootstrap (`src/main.ts`, `src/index.ts`), file upload and JSON shaping: request glue outside the store. Their only effects on the store are the preconditions noted below and the count fields `followersCount`/`ratingsCount`, which are lengths of `followers`/`ratings`.
- `ArtistStore.GetAll` requires `page >= 1` and `limit >= 1`. The handler's `parseInt(...) || default` lets a negative number through, and JS `slice` then counts from the end; that case is not modelled.
- `ArtistStore.AddRating` requires an integer value in 1..5. The handler's test `rating < 1 || rating > 5` lets more through: a fractional rating such as 2.5, a missing `rating` (undefined), a non-numeric one (NaN, which makes the average NaN) and a numeric string such as "3" (which `reduce` concatenates). None of these is modelled.
- A missing `userId` reaches `addRating` and `followArtist` as undefined; the model's user ids are always strings, so that case is not modelled.
- `ArtistStore.Create` requires a fresh id in place of `crypto.randomUUID()`. A UUID collision is not modelled. The rating date is likewise a parameter in place of `new Date()`.
- The source's `artists` is a static field; the model uses one instance of the class for that single collection.
- JS object aliasing is not tracked. `addRating` and `followArtist` mutate the object `findById` returned, and `update` swaps in a new object. The model stores values, so a reference a caller kept is not modelled.
- `averageRating` is a JS `number` computed in floating point and declared optional. The model keeps it as an exact `real` that is always present.
- Request bodies are untyped JSON. Extra keys in the body passed to `create`, and update values of the wrong type (or an update setting `averageRating` to nothing), are not modelled. An update carries exactly Artist's keys with their declared types.
- Dates (`careerStartDate`, rating dates) are opaque integers; the store never reads them.
- Concurrency: the source runs on one thread and every operation is synchronous, so the model has no interleaving.
