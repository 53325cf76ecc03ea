# Adrestia client layer, modelled in Dafny

Adrestia is a gateway that forwards CRUD and lock operations on scene objects
to the CLyman document store over ZeroMQ. This project models its client layer:

- **Instance health tracking and selection** (`ServiceManager`). Three
  expire-after-write caches of instance URI strings: the blacklist (60
  entries), greylist (50) and redlist (40). `findService` scans the
  discovered instances once, in rotation order from a random start, and
  returns the first one whose trimmed URI is on neither the blacklist nor
  the redlist. `reportFailure` blacklists an instance already on the
  greylist. Any other instance goes onto the greylist and the redlist.
  Modules `Health` (the cache) and `ServiceDiscovery` (the class).
- **The CLyman connector** (`ClymanConnector`). Each verb wraps one document
  into a one-record envelope with its operation code: create 0, update 1,
  get 2, destroy 3, query 4, lock 5, unlock 6. It sends the envelope and
  returns the decoded reply verbatim. When no reply is obtained it returns a
  sentinel envelope with error code 120. Module `Clyman`.
- **The envelope record** (`ObjectList`). It has six fields, each with a
  getter and a setter. Module `Envelopes`. Java `null` is `None` of
  `JavaValues.Option`.
- **The object controller's decision logic** (`ObjectController`). The success
  test is `numRecords > 0 && errorCode == 100`. The other decisions are
  query-then-create-or-update, delete-only-if-found and lock/unlock after a
  lookup. Module `ObjectApi`. The DAO is a function from a call to its
  answer. Each handler returns its reply together with the DAO calls it
  made, in order.

Time is an explicit `now` argument. Each cache maps a key to the time of its
last write. A key is visible while `now - write time < duration`, and writing
a key again restarts its clock. A write first drops expired entries. If the
key is not live and the cache is full, the write then evicts one of the
oldest-written live entries.

The model follows the code on these points:

- The redlist blocks selection, just as the blacklist does
  (`ServiceManager.java:153-154`).
- `lock`/`unlock` put the owner into the document's ordinary `owner` field
  (`ClymanConnector.java:103-108`).
- The sentinel counts one record but carries an empty document array
  (`ClymanConnector.java:63-65`).
- `reportFailure` before the first `findService` dereferences a null cache
  outside its `try` block (`ServiceManager.java:189`). The model returns
  `raised == true` and leaves the state unchanged.
- A handler reads `documents[0]` after a success test that looks only at
  `numRecords` and `errorCode`. A successful reply without documents
  therefore raises an exception, which the model reports as `Reply.Fault`.

## Model

| member | source | states |
|---|---|---|
| `Envelopes.ObjectList.constructor` | src/main/java/adrestia/model/obj3/ObjectList.java:53-62 | the six-argument constructor stores each argument in its own field |
| `Envelopes.ObjectList.Empty` | src/main/java/adrestia/model/obj3/ObjectList.java:46-48 | the no-argument constructor leaves Java's defaults: zeros and nulls |
| `Envelopes.ObjectList.GetMsgType` | src/main/java/adrestia/model/obj3/ObjectList.java:69-71 | returns the message type held, unchanged |
| `Envelopes.ObjectList.GetNumRecords` | src/main/java/adrestia/model/obj3/ObjectList.java:78-80 | returns the record count held, unchanged |
| `Envelopes.ObjectList.GetDocuments` | src/main/java/adrestia/model/obj3/ObjectList.java:87-89 | returns the document array held, unchanged |
| `Envelopes.ObjectList.GetErrorCode` | src/main/java/adrestia/model/obj3/ObjectList.java:96-98 | returns the error code held, unchanged |
| `Envelopes.ObjectList.GetErrorMessage` | src/main/java/adrestia/model/obj3/ObjectList.java:105-107 | returns the error message held, unchanged |
| `Envelopes.ObjectList.GetTransactionId` | src/main/java/adrestia/model/obj3/ObjectList.java:114-116 | returns the transaction id held, unchanged |
| `Envelopes.ObjectList.SetMsgType` | src/main/java/adrestia/model/obj3/ObjectList.java:123-125 | changes the message type and leaves the other five fields unchanged |
| `Envelopes.ObjectList.SetNumRecords` | src/main/java/adrestia/model/obj3/ObjectList.java:132-134 | changes the record count and leaves the other five fields unchanged |
| `Envelopes.ObjectList.SetDocuments` | src/main/java/adrestia/model/obj3/ObjectList.java:141-143 | changes the documents only; in particular the record count stays as it was |
| `Envelopes.ObjectList.SetErrorCode` | src/main/java/adrestia/model/obj3/ObjectList.java:150-152 | changes the error code and leaves the other five fields unchanged |
| `Envelopes.ObjectList.SetErrorMessage` | src/main/java/adrestia/model/obj3/ObjectList.java:159-161 | changes the error message and leaves the other five fields unchanged |
| `Envelopes.ObjectList.SetTransactionId` | src/main/java/adrestia/model/obj3/ObjectList.java:168-170 | changes the transaction id and leaves the other five fields unchanged |
| `Envelopes.CountNotTiedToDocuments` | src/main/java/adrestia/model/obj3/ObjectList.java:141-143 | a record built with one document and then given an empty array counts one record and holds none, so `numRecords == |documents|` is not an invariant |
| `Clyman.Transaction` | src/main/java/adrestia/dao/obj3/ClymanConnector.java:61-87 | never throws; a reply that was encoded, sent, answered non-null and decoded is returned verbatim; on every other path the result is the sentinel (request's message type, 1 record, no documents, code 120, "Error Processing Request", empty transaction id) |
| `Clyman.Sentinel` | src/main/java/adrestia/dao/obj3/ClymanConnector.java:63-65 | the fallback envelope keeps the request's message type, claims 1 record while holding an empty document array, and carries code 120, "Error Processing Request" and an empty transaction id |
| `Clyman.BuildObjectList` | src/main/java/adrestia/dao/obj3/ClymanConnector.java:90-93 | the request envelope has the given message type, 1 record, exactly the given document, code 100, an empty message and an empty transaction id |
| `Clyman.CrudTransaction` | src/main/java/adrestia/dao/obj3/ClymanConnector.java:96-101 | a decoded reply to the one-record envelope around the document is returned as it is; without one the result is the sentinel for the given message type |
| `Clyman.LockTransaction` | src/main/java/adrestia/dao/obj3/ClymanConnector.java:103-108 | the document sent holds only the given key and owner, every other field null |
| `Clyman.Create` | src/main/java/adrestia/dao/obj3/ClymanConnector.java:114-116 | sends the one-record envelope with code 0 holding exactly the input document, count 1, code 100, empty message and transaction id |
| `Clyman.Update` | src/main/java/adrestia/dao/obj3/ClymanConnector.java:122-124 | the same envelope with code 1 |
| `Clyman.Get` | src/main/java/adrestia/dao/obj3/ClymanConnector.java:130-134 | sends code 2 with a fresh document carrying only the key |
| `Clyman.Destroy` | src/main/java/adrestia/dao/obj3/ClymanConnector.java:140-144 | sends code 3 with a fresh document carrying only the key |
| `Clyman.Query` | src/main/java/adrestia/dao/obj3/ClymanConnector.java:150-152 | sends code 4 with the filter document |
| `Clyman.Lock` | src/main/java/adrestia/dao/obj3/ClymanConnector.java:158-160 | sends code 5 with a fresh document whose key is the document key and whose owner is the owner key |
| `Clyman.Unlock` | src/main/java/adrestia/dao/obj3/ClymanConnector.java:166-168 | sends code 6 with a fresh document whose key is the document key and whose owner is the owner key |
| `Clyman.OpCode` | src/main/java/adrestia/dao/obj3/ClymanConnector.java:113-168 | every verb's operation code lies in 0..6 |
| `Clyman.OpCodesDistinguishVerbs` | src/main/java/adrestia/dao/obj3/ClymanConnector.java:113-168 | two calls with the same operation code are calls of the same verb |
| `Clyman.PerformIsCrudTransaction` | src/main/java/adrestia/dao/obj3/ClymanConnector.java:113-168 | for every backend, each verb is `crudTransaction` of the one document it sends under the operation code of the table |
| `Clyman.UnreachableYieldsSentinel` | src/main/java/adrestia/dao/obj3/ClymanConnector.java:61-87 | when the transport throws or answers null to every message, each verb returns the sentinel for its own operation code |
| `ObjectApi.IsSuccessResponse` | src/main/java/adrestia/controller/obj3/ObjectController.java:85-91 | true exactly when `numRecords > 0` and `errorCode == 100` |
| `ObjectApi.Respond` | src/main/java/adrestia/controller/obj3/ObjectController.java:110-118 | the first document is returned only from a success, under the translation of code 100; a failure gives an empty document with 416; a success without documents raises |
| `ObjectApi.SaveObject` | src/main/java/adrestia/controller/obj3/ObjectController.java:68-73 | calls `update` exactly when the document exists and `create` otherwise, passing the document through |
| `ObjectApi.NamedQuery` | src/main/java/adrestia/controller/obj3/ObjectController.java:76-82 | the lookup document carries only the object name and the scene |
| `ObjectApi.SavedDocument` | src/main/java/adrestia/controller/obj3/ObjectController.java:145-163 | name and scene always come from the path; the key is replaced only after a successful lookup whose first key is non-null and non-empty; other fields are kept |
| `ObjectApi.GetObject` | src/main/java/adrestia/controller/obj3/ObjectController.java:97-126 | one name/scene query, answered through the shared response rule |
| `ObjectApi.UpdateObject` | src/main/java/adrestia/controller/obj3/ObjectController.java:136-182 | queries first; the object exists exactly when the query succeeds, and then `update` is called, otherwise `create`, with the saved document; a success without documents raises before saving |
| `ObjectApi.DeleteObject` | src/main/java/adrestia/controller/obj3/ObjectController.java:191-236 | `destroy` is called exactly when the query succeeds and its first key is non-empty, with that key; a failed query gives 500; a succeeded query with an empty key gives 200 with no destroy |
| `ObjectApi.QueryFilter` | src/main/java/adrestia/controller/obj3/ObjectController.java:253-263 | the filter always sets the scene and sets type, subtype and owner only for non-empty parameters |
| `ObjectApi.QueryObject` | src/main/java/adrestia/controller/obj3/ObjectController.java:243-283 | one query with that filter, answered through the shared response rule |
| `ObjectApi.LockTransaction` | src/main/java/adrestia/controller/obj3/ObjectController.java:285-327 | after a successful lookup calls `lock` when locking and `unlock` otherwise, with the first document's key and the owner; calls neither when the lookup fails (416) |
| `ObjectApi.LockObject` | src/main/java/adrestia/controller/obj3/ObjectController.java:333-340 | the lock flow: the second call, when made, is `lock`; the reply is `lockTransaction`'s: 416 with an empty document after a failed lookup, an exception after a success with no documents, and otherwise the reply built from the `lock` answer |
| `ObjectApi.UnlockObject` | src/main/java/adrestia/controller/obj3/ObjectController.java:346-353 | the unlock flow: the second call, when made, is `unlock`; the reply is `lockTransaction`'s: 416 with an empty document after a failed lookup, an exception after a success with no documents, and otherwise the reply built from the `unlock` answer |
| `ObjectApi.SentinelIsNotSuccess` | src/main/java/adrestia/dao/obj3/ClymanConnector.java:63-65 | the sentinel never passes the success test, since 120 is not 100 |
| `ObjectApi.UnreachableBackendRejectsEveryCall` | src/main/java/adrestia/controller/obj3/ObjectController.java:110-118 | wired to the connector over a transport that never answers, every DAO answer fails the success test and leads to an empty document with 416 |
| `Health.Unexpired` | src/main/java/adrestia/dao/service/ServiceManager.java:101-114 | the entries kept are exactly the keys written less than the duration ago, with their write times |
| `Health.OldestExists` | src/main/java/adrestia/dao/service/ServiceManager.java:101-114 | a non-empty cache always has an oldest-written entry to evict |
| `Health.PutStaysWithinCapacity` | src/main/java/adrestia/dao/service/ServiceManager.java:101-114 | a write never takes a cache past its maximum size |
| `Health.PutEffect` | src/main/java/adrestia/dao/service/ServiceManager.java:101-114 | after a write the key is visible exactly until its duration has passed since this write; no other key's write time changes; at most one other live key is dropped, an oldest-written one, and only when the cache is full |
| `Health.ExpiringCache.constructor` | src/main/java/adrestia/dao/service/ServiceManager.java:101-104 | a new cache is empty, with the given duration and maximum size |
| `Health.ExpiringCache.Put` | src/main/java/adrestia/dao/service/ServiceManager.java:179-183 | a write keeps the size bound and leaves the cache as described by the write rule |
| `ServiceDiscovery.TrimStartDropsLeadingBlanks` | src/main/java/adrestia/dao/service/ServiceManager.java:147 | the leading part removed by `trim` holds only characters up to ' ', and the kept part does not start with one |
| `ServiceDiscovery.TrimEndDropsTrailingBlanks` | src/main/java/adrestia/dao/service/ServiceManager.java:176 | the trailing part removed by `trim` holds only characters up to ' ', and the kept part does not end with one |
| `ServiceDiscovery.BlockedKeys` | src/main/java/adrestia/dao/service/ServiceManager.java:153-154 | a key is blocked exactly when it is live on the blacklist or on the redlist |
| `ServiceDiscovery.FailureKeepsCapacities` | src/main/java/adrestia/dao/service/ServiceManager.java:175-184 | recording a failure keeps the caches within 60, 50 and 40 entries |
| `ServiceDiscovery.IsolatedFailureBlocksUntilRedlistExpires` | src/main/java/adrestia/dao/service/ServiceManager.java:180-183 | a failure of a key not on the greylist leaves the blacklist unchanged; the key is then skipped exactly while its new redlist entry lives, unless it was blacklisted already |
| `ServiceDiscovery.SecondFailureBlacklists` | src/main/java/adrestia/dao/service/ServiceManager.java:176-179 | a second failure while the first failure's greylist entry lives blacklists the key and leaves the greylist and redlist unchanged; the key is skipped until the blacklist duration has passed |
| `ServiceDiscovery.Rotated` | src/main/java/adrestia/dao/service/ServiceManager.java:141-144 | for `start < n`, `i + start` wrapped once lies in `[0, n)` |
| `ServiceDiscovery.StepOf` | src/main/java/adrestia/dao/service/ServiceManager.java:138-144 | the step at which the scan reads a given index lies in `[0, n)` |
| `ServiceDiscovery.RotationVisitsEveryIndexOnce` | src/main/java/adrestia/dao/service/ServiceManager.java:138-144 | distinct steps read distinct indices, and every index is read |
| `ServiceDiscovery.FirstUnblockedIndex` | src/main/java/adrestia/dao/service/ServiceManager.java:139-160 | the position of the first unblocked element: everything before it is blocked |
| `ServiceDiscovery.Rotation` | src/main/java/adrestia/dao/service/ServiceManager.java:138-144 | step `i` of the scan reads element `i` of the list rotated to begin at `start` |
| `ServiceDiscovery.ScanFromIsFirstUnblocked` | src/main/java/adrestia/dao/service/ServiceManager.java:139-160 | the remainder of the scan from any step returns the first unblocked instance of the rest of the rotation |
| `ServiceDiscovery.SelectIsFirstUnblockedInRotation` | src/main/java/adrestia/dao/service/ServiceManager.java:139-164 | the instance chosen is the first unblocked one in rotation order from `start` |
| `ServiceDiscovery.SelectSkipsExactlyBlocked` | src/main/java/adrestia/dao/service/ServiceManager.java:153-164 | a returned instance is in the list and not blocked; null is returned exactly when every instance is blocked, and in particular for an empty list |
| `ServiceDiscovery.ServiceManager.constructor` | src/main/java/adrestia/dao/service/ServiceManager.java:93-98 | a new manager has the configured durations and no caches yet |
| `ServiceDiscovery.ServiceManager.InitializeCaches` | src/main/java/adrestia/dao/service/ServiceManager.java:100-115 | three fresh, distinct, empty caches with the configured durations and sizes 60, 50 and 40 |
| `ServiceDiscovery.ServiceManager.ScanInstances` | src/main/java/adrestia/dao/service/ServiceManager.java:138-160 | the loop returns the first instance in rotation order whose trimmed URI is on neither the blacklist nor the redlist, and null if there is none |
| `ServiceDiscovery.ServiceManager.FindService` | src/main/java/adrestia/dao/service/ServiceManager.java:118-165 | creates three fresh, empty caches on first use and otherwise leaves them unchanged; a discovery exception propagates; a null list gives null; a list gives the selection |
| `ServiceDiscovery.ServiceManager.ReportFailure` | src/main/java/adrestia/dao/service/ServiceManager.java:172-192 | raises exactly when the caches do not exist yet; a null instance otherwise changes nothing, its exception being caught; otherwise blacklists a greylisted key, or else greylists and redlists it, leaving the cache not written unchanged |
| `ServiceDiscovery.ServiceManager.FindClyman` | src/main/java/adrestia/dao/service/ServiceManager.java:214-222 | looks up "Clyman"; an exception gives null; fresh, empty caches are created on first use, and later calls keep the same cache objects and contents |
| `ServiceDiscovery.ServiceManager.FindCrazyIvan` | src/main/java/adrestia/dao/service/ServiceManager.java:199-207 | looks up "Ivan"; an exception gives null; fresh, empty caches are created on first use, and later calls keep the same cache objects and contents |

## Left out

- `ZmqConnection.send` (retry count, timeout, socket handling) is not part of this model. It is the `send` field of `Clyman.Backend`: it returns a reply string, returns null, or throws. The configured timeout, retry count and the "Clyman" label are not modelled.
- Jackson JSON encoding and decoding, and the wire field names, are library behaviour. They are the `encode` and `decode` fields of `Clyman.Backend`, and each may throw. Jackson's `readValue` returns null for the reply text `null` (ClymanConnector.java:81); the model's `decode` always yields an envelope or throws, so a null result of `transaction`, and the NullPointerException it then raises in every handler's `isSuccessResponse`, are not modelled.
- The Consul `DiscoveryClient` and `utils.getRandomInt` are external. Discovery is a function from a service name to a returned list, null or an exception. The random start index is an argument that the caller must keep below the list size.
- Spring wiring, `@Value` configuration, logging, `ResponseEntity` and `HttpHeaders` are not modelled. `utils.translateDvsError` is the uninterpreted `translate` argument.
- `ObjectDocument` is reduced to `Envelopes.Document`: key, name, type, subtype, owner, scene and assets. Its floating-point transform arrays are omitted. A fresh `ObjectDocument` is taken to hold only nulls.
- The handlers change the request-body document in place. The model treats that document as a value, because nothing else reads it afterwards, so aliasing of it is not modelled.
- Null elements inside a discovered list or a document array, and instances whose URI is null, are not modelled.
- Java `int`/`long` widths are not modelled. The layer stores these values without arithmetic, apart from `i + startIndex`, which stays below twice the list size.
- Negative configured durations are not modelled. Guava rejects them with an exception, and the constructor of `ServiceDiscovery.ServiceManager` requires them to be non-negative.
- Concurrent access to the shared caches is not modelled, nor is any other concurrency.
- `src/main/java/adrestia/model/scene/Transform.java` (plain floating-point accessors) and the integration test against a live backend are not modelled.
- Health.ExpiringCache.Put: evicts exactly one oldest-written live entry, and only when the live entries reach the maximum size. Guava evicts approximately, by recency of use, and may evict a little before the bound is reached. Reads in the model never clean up expired entries.
- ServiceDiscovery.ServiceManager.ScanInstances: the Java loop sits inside `findService`. The model moves it into its own read-only method without changing its steps.
