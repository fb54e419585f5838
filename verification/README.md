# MongoDB quad store — a Dafny model

This project models the core of `module.persistence.mongodb`, a persistence
adapter that keeps RDF quads (subject, predicate, object, graph) in the
`quads` collection of a MongoDB database. The core has two parts:

- **The term validator** (`validSubject`, `validPredicate`, `validObject`,
  `validGraph`, `validQuad`). These are total predicates that say which RDF/JS
  term kinds may stand in each position of a quad.
- **The quad store engine** (class `MongoDBStore`). Its operations are `size`,
  `match`, `add`, `delete`, `deleteMatches` and `has`. Each operation first
  validates its input. An invalid input raises a `TypeError` before the
  collection is touched. After that, the operation works on the collection
  with exact-document upserts, find-and-deletes, counts and partial-filter
  finds, and it emits `added` and `deleted` notifications.

Layout, one module per file:

| file | module | contents |
|---|---|---|
| `wrappers.dfy` | `Wrappers` | `Option` (an absent value) and `Result` (a call that may throw) |
| `terms.dfy` | `Terms` | `Term` (NamedNode, BlankNode, Literal, DefaultGraph), `Quad`, and `Value`, which is any value a caller may pass, falsy values (`undefined`, `null`, `false`, `0`, `""`) included |
| `validation.dfy` | `Validation` | the five validators and the kinds each position admits |
| `documents.dfy` | `Documents` | stored documents, `_quadToDoc`/`_docToQuad`, find filters and the collection's `find` |
| `changes.dfy` | `Changes` | what a batch of per-document writes does; the notification log and its replay |
| `store.dfy` | `QuadStore` | the error values, pattern validation, the filter builder, and class `MongoDBStore` |
| `scenarios.dfy` | `StoreScenarios` | client code: idempotence, and the repository's integration test and example script, derived from the contracts alone |

The collection is the field `docs: set<QuadDoc>`. The class has two ghost
fields: `initial`, the collection when the store was opened, and `events`,
every notification emitted since. The object invariant `Valid()` says two
things. First, only documents of valid quads are stored. Second, replaying
`events` on `initial` gives `docs`, where every `added` quad was new and every
`deleted` quad was present when its notification was emitted. Every public
operation that changes the store (`Add`, `Delete`, `DeleteMatches`) preserves
`Valid()`.

A pattern argument of `match` and `deleteMatches` is a `Value`. As in the
source, a falsy argument, whether omitted, `null`, `false`, `0` or `""`, adds
no clause and is not validated. Only a truthy argument is checked against its
position and becomes a clause of the filter.

`add` and `delete` are specified with `FirstOccurrences(stored, docs,
present)`. This function lists the positions of a batch whose document occurs
there for the first time and is absent (`add`) or present (`delete`) in the
collection. For `add` these are the `result.upserted` indices. Lemmas about
this function give the counts, the idempotence results and the exact
notification sets.

## Model

| member | source | states |
|---|---|---|
| `Validation.ValidSubject` | src/MongoDBStore.js:269-271 | true exactly for NamedNode and BlankNode terms; false for literals, the default graph, quads and non-terms |
| `Validation.ValidPredicate` | src/MongoDBStore.js:273-275 | true exactly for NamedNode terms |
| `Validation.ValidObject` | src/MongoDBStore.js:277-279 | true exactly for NamedNode, Literal and BlankNode terms |
| `Validation.ValidGraph` | src/MongoDBStore.js:281-283 | true exactly for the DefaultGraph and NamedNode terms |
| `Validation.ValidQuad` | src/MongoDBStore.js:285-291 | true iff the value is quad-shaped and each of its four terms has a kind its position admits; false for any other value |
| `Validation.LiteralOnlyAsObject` | src/MongoDBStore.js:269-283 | a literal is a valid object, and never a valid subject, predicate or graph |
| `Validation.NamedNodeFitsEverywhere` | src/MongoDBStore.js:269-283 | a term is valid in all four positions iff it is a named node |
| `Validation.NonTermsRejected` | src/MongoDBStore.js:269-283 | a quad or a non-term value is valid in no position |
| `Documents.QuadToDoc` | src/MongoDBStore.js:7-13 | `_docToQuad` inverts `_quadToDoc` |
| `Documents.DocRoundTrip` | src/MongoDBStore.js:7-13 | `_quadToDoc` inverts `_docToQuad` |
| `Documents.Docs` | src/MongoDBStore.js:106-115 | the batch's documents, position by position, each standing for the quad at that position |
| `Documents.ExactQuery` | src/MongoDBStore.js:107-112 | a whole document used as a filter matches that document and no other |
| `Documents.FindExact` | src/MongoDBStore.js:157 | finding by a whole document yields that document when it is stored and nothing otherwise |
| `Documents.FindEmpty` | src/MongoDBStore.js:56-79 | the empty filter finds the whole collection |
| `Changes.FirstOccurrences` | src/MongoDBStore.js:116-120 | every reported upsert or deletion index is a position of the batch |
| `Changes.FirstOccurrencesOrdered` | src/MongoDBStore.js:116-120 | the indices increase, and each marks the first occurrence in the batch of a document that was absent (add) or present (delete) |
| `Changes.FirstOccurrencesCount` | src/MongoDBStore.js:122 | the number of indices is the number of distinct batch documents not stored before (add) or stored before (delete) |
| `Changes.FirstOccurrencesPick` | src/MongoDBStore.js:118-120 | the documents at the indices are exactly the distinct new (add) or stored (delete) documents of the batch |
| `Changes.UpsertAgainCreatesNothing` | src/MongoDBStore.js:108-113 | once a batch has been upserted, upserting it again reports no index |
| `Changes.DeleteAgainRemovesNothing` | src/MongoDBStore.js:156-166 | once a batch has been deleted, deleting it again reports no index |
| `Changes.ReplayFirstOccurrences` | src/MongoDBStore.js:116-120 | replaying the notifications of an add or delete batch on the old collection gives old ∪ batch or old \ batch, and each notification is a real change |
| `Changes.ReplayRemoveAll` | src/MongoDBStore.js:231-234 | one `deleted` notification per distinct stored document replays to the collection without those documents |
| `Changes.ReplayCounts` | src/MongoDBStore.js:118-122 | a log that replays successfully changes the collection size by the number of `added` minus the number of `deleted` notifications |
| `QuadStore.QuadsOf` | src/MongoDBStore.js:99-100 | a validated batch consists of quads, one per element, in order |
| `QuadStore.BatchDocsValid` | src/MongoDBStore.js:99-100 | every document written for a validated batch is the document of a valid quad |
| `QuadStore.BuildFindQuery` | src/MongoDBStore.js:56-72 | fails iff some truthy pattern argument is invalid for its position, with the TypeError message of the first such argument; otherwise the filter matches exactly the documents that agree with every truthy argument, and falsy arguments constrain nothing |
| `QuadStore.CountFound` | src/MongoDBStore.js:160-168 | the counter equals the number of find-and-deletes that found a document, which is the number of distinct batch documents that were stored |
| `QuadStore.QueueDeletes` | src/MongoDBStore.js:222-229 | the queued deletes name each document the cursor delivers exactly once |
| `QuadStore.MongoDBStore.constructor` | src/MongoDBStore.js:19-30 | a store on a collection of valid documents satisfies the invariant, with an empty notification log |
| `QuadStore.MongoDBStore.Size` | src/MongoDBStore.js:35-46 | the number of stored quads, which equals the opening size plus the `added` notifications minus the `deleted` ones |
| `QuadStore.MongoDBStore.Match` | src/MongoDBStore.js:55-91 | TypeError iff a truthy argument is invalid for its position, naming the first one; otherwise exactly the stored quads that agree with every truthy argument, with falsy arguments constraining nothing; the store is unchanged |
| `QuadStore.MongoDBStore.BulkUpsert` | src/MongoDBStore.js:106-116 | the collection becomes old ∪ batch, and the upserted indices are those of the batch's first occurrences of new documents |
| `QuadStore.MongoDBStore.FindOneAndDeleteEach` | src/MongoDBStore.js:155-158 | the collection becomes old \ batch; a probe finds a document iff it is the first occurrence of a stored document |
| `QuadStore.MongoDBStore.BulkDelete` | src/MongoDBStore.js:231 | deleting distinct stored documents by identity removes exactly them, and the removal count is their number |
| `QuadStore.MongoDBStore.Emit` | src/MongoDBStore.js:118-120 | appends one notification per document, in order, carrying its quad |
| `QuadStore.MongoDBStore.Add` | src/MongoDBStore.js:97-127 | on an invalid batch: TypeError, with the collection and the log unchanged; otherwise the collection becomes old ∪ batch, the result is the number of distinct batch quads not stored before, and exactly those quads get one `added` notification each, so the log grows by the result; the invariant is kept |
| `QuadStore.MongoDBStore.Delete` | src/MongoDBStore.js:146-173 | on an invalid batch: TypeError, with nothing changed; otherwise the collection becomes old \ batch, the result is the number of distinct batch quads that were stored, and exactly those quads get one `deleted` notification each, so the log grows by the result |
| `QuadStore.MongoDBStore.DeleteMatches` | src/MongoDBStore.js:195-241 | TypeError iff a truthy argument is invalid, with nothing changed; otherwise it removes exactly the documents `match` would return and no others, returns their number, and emits one `deleted` notification for each |
| `QuadStore.MongoDBStore.Has` | src/MongoDBStore.js:247-265 | TypeError on an invalid batch; otherwise true iff every quad of the batch is stored, so true for an empty batch |
| `StoreScenarios.AddTwice` | test/DataStoreFactoryInterface.test.js:57-62 | adding a batch a second time returns 0 and changes nothing; the first call's notifications number its result |
| `StoreScenarios.DeleteTwice` | test/DataStoreFactoryInterface.test.js:75-78 | deleting a batch a second time returns 0 and changes nothing |
| `StoreScenarios.RejectsLiteralPredicate` | src/MongoDBStore.js:99-100 | a batch with a literal predicate fails with the add TypeError and leaves the store unchanged |
| `StoreScenarios.AddOne` | test/DataStoreFactoryInterface.test.js:57-62 | adding one valid quad returns 1 if it was new and 0 otherwise |
| `StoreScenarios.DeleteOne` | test/DataStoreFactoryInterface.test.js:75-78 | deleting one valid quad returns 1 if it was stored and 0 otherwise |
| `StoreScenarios.HasOne` | test/DataStoreFactoryInterface.test.js:80-83 | `has` of one valid quad is true iff it is stored |
| `StoreScenarios.AddEachOnce` | test/DataStoreFactoryInterface.test.js:57-62 | on an empty collection, the test's add sequence stores exactly its two quads |
| `StoreScenarios.MatchBySubject` | test/DataStoreFactoryInterface.test.js:64-73 | matching by the shared subject returns both quads, and the size is 2 |
| `StoreScenarios.DeleteEachOnce` | test/DataStoreFactoryInterface.test.js:75-95 | the test's delete, has and match sequence ends with an empty collection |
| `StoreScenarios.ExampleAdd` | lab/MongoDBStore.example.js:19-37 | adding the example's three new quads returns 3 |
| `StoreScenarios.ExampleMatchAndDelete` | lab/MongoDBStore.example.js:38-39 | matching by ex:hello returns its two quads; `deleteMatches(null, rdfs:label)` removes the two label quads and returns 2, leaving the ex:lorem quad |
| `StoreScenarios.ExampleDeleteAll` | lab/MongoDBStore.example.js:40 | deleting the three quads then returns 1 and empties the collection |
| `StoreScenarios.MatchFalsy` | src/MongoDBStore.js:56-72 | a falsy subject such as `match(false)` is skipped and not validated, so the match returns every stored quad |
| `StoreScenarios.DeleteMatchesFalsy` | src/MongoDBStore.js:196-212 | `deleteMatches(0)` deletes every stored quad and returns their number |

## Left out

- The connection: `MongoClient.connect` and the lazy swap from a pending promise to the database handle (src/MongoDBStore.js:19-30) are I/O and async state. The store is modelled as already connected to a collection whose documents are valid quads.
- Storage failures and the `error` notification: the model has no failing storage call, so it never takes the `catch` branches or emits `error`. Validation errors are `Failure(TypeError(...))` results. The message includes the `module.persistence.mongodb : ` prefix that `_assert` adds (src/util.js:4-10).
- Concurrency: `delete` and `has` issue their per-quad requests through `Promise.all`. The model runs them in batch order. When a batch repeats a quad, the model counts and notifies its first occurrence. Concurrent requests may pick any occurrence, so the order of the notifications may differ from the model's: `delete([a, b, a])` may announce b before a. The count and the set of notified quads are the same.
- `QuadStore.MongoDBStore.Delete`: its `events` clause fixes the notification order to the order of first occurrences in the batch. The source promises only which quads are announced, not their order; see the Concurrency line above.
- Racing `add` calls: the collection is a set, so duplicate documents cannot exist. In MongoDB, a unique index prevents them. `MongoDBStore.js` does not create it, so the model assumes one on all four fields (subject, predicate, object, graph). The index described in test/DataStoreFactoryInterface.test.js:26-30 is unique on subject, predicate and object only. Under that index, adding a quad that differs from a stored one only in its graph makes `bulkWrite` fail with a duplicate-key error, while the model's `Add` stores it and returns 1.
- `QuadStore.MongoDBStore.DeleteMatches`: the model has no other writer, so it does not model the window between the `find` (src/MongoDBStore.js:219-229) and the `bulkWrite` (231). If another client deletes a matched quad in that window, the source still announces that quad as `deleted` (232-234). It returns `result.nRemoved` (236), which is then smaller than the number of `deleted` notifications. The model's `r.value == |matched|`, the invariant's claim that every `deleted` quad was present, and `BulkDelete`'s requirement that the queued documents are stored all hold only without such a writer.
- `_id`: `deleteMatches` deletes by the storage identifier `_id`. The model uses the document itself as its identity, which is sound because stored documents are distinct.
- `bulkWrite` with an empty operation list, as in `add([])` or in `deleteMatches` with no match: the model returns 0. MongoDB's driver may reject an empty bulk write instead, and that library behaviour is not modelled.
- `QuadStore.MongoDBStore.Size`: the source calls `estimatedDocumentCount`. The model returns the exact number of stored documents, so it does not model an estimate that differs from the exact count.
- `addStream`/`deleteStream` (src/MongoDBStore.js:133-186): these buffer a Node stream and delegate to `add`/`delete`. A stream is not modelled.
- The single-quad argument form: `add`, `delete` and `has` accept a quad or an iterable of quads (src/MongoDBStore.js:99). The model takes a sequence, so a single quad is a one-element batch. Arguments that are neither a quad nor an iterable are not modelled: `add(null)` and `add()` throw a TypeError from `Array.from` without the module's message, and `add(5)` becomes an empty batch.
- The term model's `fromQuad` and `dataset()` (module.persistence) are not part of this model. Dataset results are modelled as sets of quads. `_docToQuad` is modelled as rebuilding the quad field by field.
- Term kinds outside the four named ones (RDF/JS `Variable`, or a quad used as a term) cannot appear inside a `Quad`. As arguments to the validators they appear only as `QuadValue` or `OtherValue`, and every position rejects them.
- Falsy arguments: `FalsyValue` stands for every falsy JavaScript value. The store only tests their truthiness, so the model does not tell them apart.
- `src/MongoDBStoreFactory.js` and `src/module.persistence.mongodb.js` are thin constructors and are not part of this model.
