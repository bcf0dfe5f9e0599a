# Notes and scores: a verified model of two in-memory CRUD stores

The system is a small REST API with two independent in-memory collections.

- The **notes** store (`/api/v1/notes`) keeps an ordered list of `{id, text}` records, seeded with one note.
- The **score** store (`/api/v1/score`) keeps an ordered list of `{id, note, score}` records, seeded with twenty entries.

Each store answers four requests:

- list, optionally filtered by a case-insensitive substring query;
- create, which appends a record with a fresh id;
- update by id;
- delete by id.

The model keeps each store's list as a `seq` field of a class. List is a function that reads the class. Create, Update and Delete are methods that reassign the field and return a `Reply`. A `Reply` carries the HTTP status together with either the record or the error message.

Files:

- `wrappers.dfy`: `Option`, used for the optional query and for a lookup's result.
- `http.dfy`: the `Reply` datatype and the status codes 200, 201, 400 and 404.
- `seqs.dfy`: the array operations the handlers are built from. These are `filter` (`Filter`), `find` (`FirstIndex`) and `map` (`Map`), each with lemmas about what it keeps, drops and preserves.
- `text.dfy`: the search test `text.toLowerCase().includes(query.toLowerCase())`. `Contains` is proved equal to "the needle occurs at some offset".
- `notes.dfy`: the notes store (`Notes.NoteStore`).
- `scores.dfy`: the score store (`Scores.ScoreStore`).
- `scenarios.dfy`: concrete request sequences against freshly seeded stores, with the replies and listings they must produce.

Every store method requires and ensures `Valid()`, the store invariant. It says that ids are unique and that every record meets the request schema's bounds:

- a note's text has 6 to 300 characters;
- a score entry's note has 4 to 100 characters and its score lies in 1..12.

Create and Update keep this invariant because their arguments are required to meet the same bounds. The web framework's validator enforces those bounds before a handler runs.

The two stores differ in ways the model keeps:

- **Missing id.** The notes store replies 404 `NotFound`. The score store replies 400 `Score does not exist`.
- **What Update returns.** The notes Update returns the note after its text was overwritten. The score Update returns the entry as it was *before* the update, while the stored entry holds the new note and score. `Scenarios.UpdateRepliesWithPreviousEntry` shows this on a concrete store.
- **How Update finds its target.** The notes Update overwrites only the first note with the id (`find`, then assignment). The score Update gives the new values to every entry with the id (`map`).
- **Delete.** Both Deletes remove every record with the id (`filter`) and return the first one found.

With unique ids, which `Valid()` guarantees, each Update and Delete touches exactly one record. The ensures clauses state this directly: `old(notes)[i := Note(id, text)]` for an update, and `old(notes)[..i] + old(notes)[i + 1..]` for a delete.

## Model

| member | source | states |
|---|---|---|
| `Notes.NoteStore.constructor` | index.js:25-30 | The store starts with exactly one note, with text "First note", and the store invariant holds. |
| `Notes.NoteStore.List` | index.js:92-102 | With no query, the result is the stored list itself. With a query, every returned note is stored and matches the query ignoring case, and every stored note that matches is returned. In both cases the result is an order-preserving subsequence of the store. It is a function, so listing cannot change the store. |
| `Notes.NoteStore.Create` | index.js:116-125 | Appends exactly `Note(id, text)` at the end; the earlier notes are unchanged and the length grows by one. Replies 200 with that note. Id uniqueness and the text bounds still hold, given a fresh id. |
| `Notes.NoteStore.Update` | index.js:140-155 | It fails exactly when no note has the id; it then replies 404 `NotFound` and the store is unchanged. Otherwise only the first note with that id changes, to the new text. Its id and position, the length and every other note are unchanged, and the reply is 200 with the updated note. |
| `Notes.NoteStore.Delete` | index.js:169-183 | It fails exactly when no note has the id; it then replies 404 `NotFound` and the store is unchanged. Otherwise the store becomes the old list with every note of that id filtered out, which equals the old list with position `i` removed. The reply is 200 with the removed note. In both cases no note with that id remains. |
| `Notes.ListAfterCreate` | index.js:99-122 | Listing after an append gives the earlier listing, followed by the new note exactly when its text matches the query. |
| `Scores.ScoreStore.constructor` | score/index.js:4-10 | The store starts with the twenty given entries, and the invariant holds (unique ids, notes of 4 to 100 characters, scores in 1..12). |
| `Scores.ScoreStore.List` | score/index.js:73-81 | With no query, the result is the stored list. With a query, exactly the stored entries whose note contains the query ignoring case are returned, as an order-preserving subsequence. |
| `Scores.ScoreStore.Create` | score/index.js:95-105 | Appends exactly `Score(id, note, score)` at the end with everything earlier unchanged, and replies 201 with it. The bounds invariant and id uniqueness still hold. |
| `Scores.ScoreStore.Update` | score/index.js:120-140 | It fails exactly when no entry has the id; it then replies 400 `Score does not exist` and the store is unchanged. Otherwise the store is the `map` that revises the entries with that id, which equals the old list with only entry `i` given the new note and score. The reply is 200 with the entry as it was before the update. |
| `Scores.ScoreStore.Delete` | score/index.js:154-164 | It fails exactly when no entry has the id; it then replies 400 `Score does not exist` and nothing changes. Otherwise the entries with that id are filtered out, which equals removing position `i`, and the reply is 200 with the removed entry. No entry with that id remains. |
| `Scores.UpdateRevisesOne` | score/index.js:127-137 | With unique ids, the update's `map` equals replacing only the entry found. That entry's id is kept, and the length, order and all other entries are unchanged. |
| `Scores.ListAfterCreate` | score/index.js:78-102 | Listing after an append gives the earlier listing, followed by the new entry exactly when its note matches the query. |
| `Seqs.Filter` | index.js:99-101 | `filter` returns no more elements than it was given, and its result is an order-preserving subsequence of its input. |
| `Seqs.FilterMembers` | index.js:99-101 | Every element `filter` keeps was in the input and passes the test. Every input element that passes the test is kept. |
| `Seqs.FilterConcat` | score/index.js:78-80 | Filtering a concatenation gives the concatenation of the filtered parts. |
| `Seqs.FilterKeepsAll` | index.js:180 | A filter that every element passes returns its input unchanged. |
| `Seqs.FilterDropsHead` | index.js:180 | Filtering `[x] + after`, when only `x` fails the test, gives `after`. |
| `Seqs.FilterDropsOne` | index.js:180 | Filtering `before + [x] + after`, when only `x` fails the test, gives `before + after`. |
| `Seqs.FilterDropsOnly` | score/index.js:161 | When only position `i` fails the test, `filter` removes exactly position `i`, so the length drops by one. |
| `Seqs.FilterOutKey` | index.js:172-182 | With distinct keys (the stores' unique ids), filtering out the key found at position `i` removes exactly that record. The survivors keep their order, the length drops by exactly one, and the keys stay distinct. Both stores' Delete (index.js:180, score/index.js:161) rely on it. |
| `Seqs.SubsequenceOfItself` | index.js:95-96 | A list is an order-preserving subsequence of itself, so the unfiltered listing satisfies the same ordering promise as the filtered one. |
| `Seqs.FirstIndex` | index.js:144 | `find` returns the first position whose element passes the test. It returns nothing exactly when no element passes. |
| `Seqs.Map` | score/index.js:127-137 | `map` keeps the length and applies the callback at every position. |
| `Text.ContainsIff` | index.js:100 | The left-to-right scan that models `includes` is true exactly when the needle occurs at some offset of the text. |
| `Text.LowerIdempotent` | index.js:100 | Lower-casing an already lower-cased string changes nothing. |
| `Text.QueryCaseIrrelevant` | score/index.js:79 | A query matches exactly when its lower-cased form matches, so the case of the query never changes the result. |
| `Text.IncludesItself` | index.js:100 | Every text matches a query equal to itself. |
| `Scenarios.HelloWorldMatchesHello` | index.js:99-101 | The query "hello" matches the text "Hello world". |
| `Scenarios.CreateThenSearchNote` | index.js:92-125 | Posting the note "Hello world" replies 200 with that note, and a search for "hello" then lists it. |
| `Scenarios.UnknownNote` | index.js:140-183 | Updating or deleting an id that was never issued replies 404 `NotFound` both times, and the store still holds only its seed note. |
| `Scenarios.Seed` | score/index.js:4-10 | A seed of twenty entries with distinct ids, notes of 4 to 100 characters and scores in 1..12 exists. |
| `Scenarios.CreateThenSearchScore` | score/index.js:73-105 | Posting `{"Soup", 5}` replies 201 with that entry, and a search for "soup" then lists it. |
| `Scenarios.UpdateRepliesWithPreviousEntry` | score/index.js:120-140 | After a score update, the reply body is the old entry and the listing shows the new note and score; the two differ. |
| `Scenarios.UnknownScore` | score/index.js:154-164 | Deleting an id that was never issued replies 400 `Score does not exist`, and the store is unchanged. |

## Left out

- Server bootstrap, CORS, Swagger, the multipart plugin and `listen` (index.js:9-20, 193-199) are framework plumbing and carry no logic.
- Schema registration and TypeBox composition are left out. The length and range constraints they declare are modelled as `requires` on the store methods and on `List`, because the framework's validator rejects violating requests with a 400 before any handler runs. That generic validation-error reply is not modelled.
- `crypto.randomUUID()` is a foreign call. The new id is a parameter of `Create`, and `IdUnused` requires it to be absent from the store. The seed note's id is a constructor parameter.
- The `faker` seeding of the score store is random and external. The constructor takes any twenty entries that satisfy the invariant.
- `toLowerCase` is modelled as an ASCII mapping that lower-cases only `A`-`Z`. Unicode case mapping is not modelled.
- `Type.Number` also admits non-integer scores. Floating point is not modelled: `score` is an `int` in 1..12, matching the integer seeds.
- HTTP `reply` objects are replaced by the `Reply` datatype. JSON serialisation is not modelled.
- The notes Update changes a shared object in place, so in the source an earlier holder of that same object also sees the new text. The model works on values, so this aliasing is not captured. The stored list and the reply are exact.
- Request logging is not modelled.
- Concurrency is not modelled, because each request runs to completion before the next begins.
