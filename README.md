# Cloudant event store, modelled in Dafny

This project models the event-store facade of a conference-event chat
assistant. The facade is the class `CloudantEventStore` in
`CloudantEventStore.js`, which wraps a hosted document database. It has four parts:

- **Provisioning (`init`).** It opens the database and looks up the design
  document `_design/search`. When none is found, it inserts one that declares
  four full-text indexes: `by_topic`, `by_speaker`, `by_music_topic` and
  `by_music_artist`. Any error is logged and swallowed.
- **Query builders.** There are five: by topic, by speaker, suggested, music
  by topic and music by artist. Each picks an index and interpolates the
  search term, verbatim, into a query string.
- **Result shaping (`findEvents`).** It walks the ranked rows the search
  returns and keeps at most `count` documents. A count of zero or less means
  no limit.
- **Lookup by id (`getEventsForIds`).** It returns the stored documents whose
  `_id` is in a list of ids.

How the model is built:

- **The database** is an abstract value: a map from `_id` to document
  (module `Store`). It is held in a field of the class
  `EventStore.CloudantEventStore`, which `Init` updates.
- **Server behaviour** is a `Fault` parameter of each request. The server can
  answer normally, fail with an error, or send a body that lacks the expected
  field.
- **`Store.Find`** stands in for the client's `db.find`. It rejects on a server
  error. When healthy, it answers with the documents `Store.Matching` selects.
  On a malformed body, it answers without `docs`.
- **Search ranking** belongs to the store. It is a function parameter
  `search` that maps a search request to a reply.
- **The design document** is declarative data (module `Documents`): one
  `Rule` per `index(...)` call of each index function. A rule records the event
  text it reads, the search field, the boost, and whether the call sits inside
  the `if (doc.music)` guard.

Modules:

- `Documents` (documents.dfy): documents and the design-document data.
- `Store` (store.dfy): the abstract database with find and insert.
- `Queries` (queries.dfy): the query strings, a reference definition
  `AnyOf`, and a decoder `TermOf`.
- `EventStore` (event_store.dfy): settled-promise outcomes, result shaping,
  the effect of `init`, and the class.

Notes on the code's behaviour:

- When a search reply has no `rows`, or a find reply has no `docs`, the
  promise resolves with `undefined`, not with an empty list. The model
  returns `Resolved(None)`.
- The `by_music_topic` index function calls its `artist` rule outside the
  music guard (CloudantEventStore.js:40). So the speakers of events that are
  not music events are indexed as artists there. The data keeps this as
  written, and `Documents.MusicTopicFeedsAnyArtist` states it.
- `init`'s returned promise, when it inserts, passes on the insert's
  response. The model has `Init` return nothing.

## Model

| member | source | states |
|---|---|---|
| `Documents.SearchDesignDoc` | CloudantEventStore.js:30-46 | the inserted document has id `_design/search` and exactly the four index names as keys |
| `Documents.DeclaredBoosts` | CloudantEventStore.js:33-44 | the declared boosts: topic name 2, description 1, track 2, tag 10; speaker unboosted; music topic has the same four boosts plus artist 5; music artist unboosted |
| `Documents.MusicArtistSkipsNonMusic` | CloudantEventStore.js:43 | no rule of `by_music_artist` indexes an event that is not a music event |
| `Documents.MusicTopicFeedsAnyArtist` | CloudantEventStore.js:40 | `by_music_topic` indexes the speakers of a non-music event as `artist`, while its topic rules skip that event |
| `Store.Matching` | CloudantEventStore.js:24 | a selector picks exactly the stored documents whose `_id` it selects (both the every-selected and the only-selected direction) |
| `Store.Insert` | CloudantEventStore.js:47 | an insert succeeds exactly when the server does not fail and the `_id` is free; it then adds only that document and keeps the rest |
| `Store.FindByIdNonEmpty` | CloudantEventStore.js:24-26 | looking up one `_id` finds a document exactly when that id is stored |
| `Store.NoIdsNoDocs` | CloudantEventStore.js:142-145 | an empty id list finds nothing |
| `Store.IdInConcat` | CloudantEventStore.js:142-145 | looking up two id lists together finds the union of what each finds |
| `Store.MissingIdAddsNothing` | CloudantEventStore.js:142-145 | an id with no stored document adds nothing to the result |
| `Queries.IndexFields` | CloudantEventStore.js:32-44 | the search fields each index declares, in order |
| `Queries.TopicClauses` | CloudantEventStore.js:62 | the topic query is exactly `name:T OR description:T OR track:T OR tag:T`, the `AnyOf` of those four fields |
| `Queries.MusicTopicClauses` | CloudantEventStore.js:92 | `MusicTopicQuery(T)` is the topic query followed by ` OR artist:T`, and it equals the `AnyOf` of the five music-topic fields |
| `Queries.QueriesFollowIndexes` | CloudantEventStore.js:61-104 | each query asks for the term in exactly the fields, and in the order, that its index declares |
| `Queries.TermOfAnyOf` | CloudantEventStore.js:62 | round trip: the term is read back from any query over a non-empty field list |
| `Queries.QueriesDetermineTerm` | CloudantEventStore.js:61-104 | each of the four term queries determines its term |
| `Queries.SpeakerTermInjectsClause` | CloudantEventStore.js:73 | an unescaped term `t OR tag:u` turns the speaker query into a two-clause query |
| `EventStore.Limit` | CloudantEventStore.js:118-127 | the result is a prefix of the documents, of length `min(n, count)` for a positive count and `n` otherwise |
| `EventStore.LimitExact` | CloudantEventStore.js:121-122 | a count of zero or less keeps every document; a positive count up to `n` keeps exactly the first `count` |
| `EventStore.LimitMonotone` | CloudantEventStore.js:121 | a smaller positive count gives a prefix of a larger count's result |
| `EventStore.Shape` | CloudantEventStore.js:115-133 | a search rejects exactly when the store does, resolves with nothing exactly when `rows` is missing, and otherwise resolves with a prefix of the row documents |
| `EventStore.InitKeepsExisting` | CloudantEventStore.js:24-28 | an existing design document is never overwritten |
| `EventStore.InitTouchesOnlyDesign` | CloudantEventStore.js:24-47 | `init` adds, removes or changes no document other than the design document |
| `EventStore.InitProvisions` | CloudantEventStore.js:29-47 | when no request fails, the design document is present afterwards, and if it was absent it is the one with the four indexes |
| `EventStore.InitIdempotent` | CloudantEventStore.js:24-52 | after an `init` that provisioned, a second `init` changes nothing, whatever its faults |
| `EventStore.InitOrderIrrelevant` | CloudantEventStore.js:24-52 | two `init` calls leave the same database in either order |
| `EventStore.AtMostOneDesignDoc` | CloudantEventStore.js:24-47 | after `init` at most one document has the design id, and exactly one when its requests succeed |
| `EventStore.CloudantEventStore.constructor` | CloudantEventStore.js:10-14 | a new store keeps the database name and holds no open database |
| `EventStore.CloudantEventStore.Init` | CloudantEventStore.js:20-53 | opens the database; the new contents are `InitEffect` of the old ones, so failed requests leave the store unchanged and nothing escapes as an error |
| `EventStore.CloudantEventStore.FindEvents` | CloudantEventStore.js:114-134 | the loop, with its counter starting at -1, settles exactly as `Shape` of the store's reply with the same count |
| `EventStore.CloudantEventStore.FindEventsByTopic` | CloudantEventStore.js:61-64 | searches design doc `search`, index `by_topic`, with the topic query, and passes `count` through unchanged |
| `EventStore.CloudantEventStore.FindEventsBySpeaker` | CloudantEventStore.js:72-74 | searches index `by_speaker` with `speaker:T`, and passes `count` through unchanged |
| `EventStore.CloudantEventStore.FindSuggestedEvents` | CloudantEventStore.js:81-83 | searches index `by_speaker` with the constant `*:*`, and takes no term |
| `EventStore.CloudantEventStore.FindMusicEventsByTopic` | CloudantEventStore.js:91-94 | searches index `by_music_topic` with the five-clause music topic query |
| `EventStore.CloudantEventStore.FindMusicEventsByArtist` | CloudantEventStore.js:102-104 | searches index `by_music_artist` with `artist:T` |
| `EventStore.CloudantEventStore.GetEventsForIds` | CloudantEventStore.js:141-154 | rejects exactly on a server error and resolves with nothing on a body without `docs`; otherwise gives exactly the stored documents whose `_id` is in `ids` (none for an empty list) |

## Left out

- The client `public/js/app.js` as a whole: websocket, timers, DOM and map rendering.
- Promise sequencing and `console.log`. Each operation settles in one step as a `Settled` value, and logging has no effect.
- The Cloudant client (`cloudant.db.use`, `db.find`, `db.search`, `db.insert`). It is replaced by the abstract map, the `Fault` parameters and the `search` function. The model does not cover other databases on the server, or writers other than this class.
- Relevance ranking and the index functions' JavaScript bodies. Only the declared rules are modelled, and `Feeds` covers only the guard each rule sits under.
- Escaping of search terms, because the code does none.
- EventStore.CloudantEventStore.GetEventsForIds: returns a set, because the order in which the store lists found documents is the store's own.
- EventStore.CloudantEventStore.Init: returns nothing, although on insert the JavaScript promise resolves with the insert's response.
- Calling a query before `init` throws a TypeError in the code (`this.db` is null). The methods require `connected` instead.
- The server's cap on find results. A find without `limit` answers at most 25 documents. `GetEventsForIds` returns every matching document, so it promises more than the server delivers when more than 25 of the ids are stored.
- A `count` that is not an integer. The model's count is an `int`.
