# Settings-sync store client, modelled in Dafny

This project models the client that VS Code's settings sync uses to talk to its
remote store, together with the data contracts the sync engine shares.

The store holds one text blob per key, and each blob has a revision marker, its
`ref`. The client, `UserDataSyncStoreService`, has two operations:

- `read(key, oldValue)` sends a GET with `If-None-Match: oldValue.ref`. A
  `304 Not Modified` reply means "keep the cached value" (RFC 7232, sections 3.2 and 4.1).
- `write(key, data, ref)` sends a POST with `If-Match: ref`. A `412 Precondition Failed`
  reply becomes a `UserDataSyncStoreError` with the code `Rejected` (RFC 7232 sections 3.1 and 4.2).

In both cases the response's `etag` becomes the new ref. A missing or empty `etag` is an error.

Files:

- `wrappers.dfy`: `Option` (a TypeScript `T | null`) and `Result` (a value, or the error a
  promise is rejected with).
- `user_data_sync.dfy` (module `UserDataSync`) holds the shared types:
  - `IUserData`;
  - the store error and its code enum;
  - `SyncSource` and `SyncStatus`, with the runtime values of both enums and parsers that invert them;
  - the `CONTEXT_SYNC_STATE` key;
  - `ISyncExtension`;
  - the result shape of `ISettingsMergeService.merge`.
- `user_data_sync_store_service.dfy` (module `UserDataSyncStoreService`):
  - the requests `read` and `write` build, as functions (`ReadRequest`, `WriteRequest`);
  - how each response is classified, as functions (`ReadResult`, `WriteResult`);
  - the class `UserDataSyncStoreService`, with its configured store URL and its
    `loggedIn` field. Its methods `Read` and `Write` build the header map step by step, as the
    source does, and are proved against those functions.
- `reference_store.dfy` (module `ReferenceStore`): a reference server modelled on RFC 7232.
  It is not part of the client. Lemmas apply the client's own request builders and classifiers
  against it and prove what a caller can rely on:
  - a read returns the current revision;
  - a write is accepted exactly when its ref is current;
  - a read after a write returns what was written;
  - two writers that present the ref they read cannot both win (a write with a null or empty
    ref claims no revision, so it always succeeds and replaces what is stored);
  - over any sequence of calls, every change to the store is an accepted write the client was
    told about.

The HTTP round trip is a parameter (`transport: Request -> Result<Response, string>`); a rejected request carries its error's message. A reply carries the outcome of reading its body as text (`asText`). The URL that
`joinPath(URI.parse(storeUrl), key)` produces is kept abstract: it is the pair `Url(storeUrl, key)`.

The null result of `read`: on `304` the source returns `oldValue!`. When the caller
supplied no old value, that is `null`, although `read` is declared to return an `IUserData`. The model
keeps this case: `read`'s result is `Result<Option<UserData>, SyncError>`, and `ReadResult`
states that `Success(None)` comes back exactly on a 304 with no old value. `ReadReturnsCurrent`
shows that this cannot happen against the reference server. Like a server that follows RFC 7232, it sends 304
only in reply to a conditional GET, and `read` sends `If-None-Match` only when it has an old value.

## Model

| member | source | states |
|---|---|---|
| `UserDataSync.ParseCode` | src/vs/platform/userDataSync/common/userDataSync.ts:16-19 | the error code enum has exactly the two values `Rejected` and `Unknown`; a string parses to a code exactly when it is that code's runtime value |
| `UserDataSync.SourceValue` | src/vs/platform/userDataSync/common/userDataSync.ts:51-54 | every `SyncSource` is numbered 1 or 2 |
| `UserDataSync.ParseSource` | src/vs/platform/userDataSync/common/userDataSync.ts:51-54 | `Settings = 1` and `Extensions = 2`, and no other number names a source; number and source determine each other |
| `UserDataSync.ParseStatus` | src/vs/platform/userDataSync/common/userDataSync.ts:56-61 | `SyncStatus` has exactly four values, `uninitialized`, `idle`, `syncing` and `hasConflicts`; string and status determine each other |
| `UserDataSync.ContextSyncStateDefault` | src/vs/platform/userDataSync/common/userDataSync.ts:92 | the `syncStatus` context key defaults to the value of `Uninitialized` |
| `UserDataSyncStoreService.ReadRequest` | src/vs/platform/userDataSync/common/userDataSyncStoreService.ts:45-51 | `read` GETs storeUrl/key with no body; its only header is `If-None-Match: oldValue.ref`, present exactly when an old value is supplied |
| `UserDataSyncStoreService.ReadResult` | src/vs/platform/userDataSync/common/userDataSyncStoreService.ts:53-63 | on 304 `read` returns the old value unchanged, with no etag check and no body read. On any other status it fails with the uncoded "Server did not return the ref" when the etag is missing or empty, before reading the body. Otherwise it returns `{ref: etag, content: body}`, or fails with the reason reading the body was rejected with. It fails exactly when the status is not 304 and either the etag is falsy or the body read is rejected. The result is null exactly on a 304 with no old value |
| `UserDataSyncStoreService.ReadNeverRejected` | src/vs/platform/userDataSync/common/userDataSyncStoreService.ts:53-63 | no failure of `read` carries an error code |
| `UserDataSyncStoreService.WriteRequest` | src/vs/platform/userDataSync/common/userDataSyncStoreService.ts:71-77 | `write` POSTs `data` to the same URL `read` uses, always with `Content-Type: text/plain`; `If-Match: ref` is added exactly when `ref` is neither null nor empty, and no other header is sent |
| `UserDataSyncStoreService.WriteEmptyRefIsUnconditional` | src/vs/platform/userDataSync/common/userDataSyncStoreService.ts:73-75 | an empty `ref` yields the same request as a null one, with no `If-Match` |
| `UserDataSyncStoreService.WriteResult` | src/vs/platform/userDataSync/common/userDataSyncStoreService.ts:79-88 | `write` fails with `UserDataSyncStoreError("New data exists", Rejected)` exactly on 412, and that is the only coded failure. It succeeds exactly when the status is not 412 and the etag is non-empty, and then returns that etag as the new ref. Otherwise it fails with the uncoded "Server did not return the ref" |
| `UserDataSyncStoreService.UserDataSyncStoreService.constructor` | src/vs/platform/userDataSync/common/userDataSyncStoreService.ts:20-32 | the client keeps the configured store URL and starts logged out |
| `UserDataSyncStoreService.UserDataSyncStoreService.Read` | src/vs/platform/userDataSync/common/userDataSyncStoreService.ts:40-64 | a request is issued exactly when the client is enabled, that is, when the store URL is set and non-empty. When disabled, `read` fails with "No settings sync store url configured.". When enabled, it issues `ReadRequest`; a rejected request fails `read` with that error, and a reply yields `ReadResult` of it |
| `UserDataSyncStoreService.UserDataSyncStoreService.Write` | src/vs/platform/userDataSync/common/userDataSyncStoreService.ts:66-89 | a request is issued exactly when the client is enabled. When disabled, `write` fails with "No settings sync store url configured.". When enabled, it issues `WriteRequest`; a rejected request fails `write` with that error, and a reply yields `WriteResult` of it |
| `ReferenceStore.ReadReturnsCurrent` | src/vs/platform/userDataSync/common/userDataSyncStoreService.ts:40-64 | against the reference store, `read` always succeeds with the current ref and never returns null. It returns the old value exactly when that value's ref is current, and otherwise the current content |
| `ReferenceStore.WriteAcceptedIffRefCurrent` | src/vs/platform/userDataSync/common/userDataSyncStoreService.ts:66-89 | against that store, `write` is accepted exactly when its ref is null, empty or current. An accepted write stores the data under a new ref, which it returns. A rejected write comes back `Rejected` and changes nothing |
| `ReferenceStore.ReadAfterWrite` | src/vs/platform/userDataSync/common/userDataSync.ts:41-42 | after an accepted write, a fresh read returns the written data under the returned ref, and a cached read with that value gets it back unchanged |
| `ReferenceStore.NoLostUpdate` | src/vs/platform/userDataSync/common/userDataSyncStoreService.ts:73-82 | two writers that read the same revision cannot both win: the second write is `Rejected` and the first one's data stays |
| `ReferenceStore.UnconditionalWriteOverwrites` | src/vs/platform/userDataSync/common/userDataSyncStoreService.ts:73-75 | a write whose ref is null or empty sends no `If-Match`, so two such writes in a row both succeed and the second one's data is what the store holds |
| `ReferenceStore.StepEffect` | src/vs/platform/userDataSync/common/userDataSync.ts:41-42 | one read or write changes a key's entry only when it is a write to that key that the client saw accepted |
| `ReferenceStore.RunAccountsForEveryChange` | src/vs/platform/userDataSync/common/userDataSync.ts:41-42 | over any sequence of reads and writes, a key's revision advances once per accepted write to it, so every accepted write is counted, and its content is the data of the last one |

## Left out

- The HTTP transport (`requestService.request`), `asText` and cancellation are foreign calls. The reply is a parameter: either the message of the error the request was rejected with, or a response that carries the outcome of `asText` on it.
- UserDataSyncStoreService.ReadResult: which statuses make `asText` reject, and with what reason, is decided in vs/platform/request/common/request.ts, which is not part of this model. The reply simply carries that outcome, so "read fails exactly when…" holds relative to the outcome supplied, not to a status range. `asText` rejects with a reason, and a failed request rejects with an `Error`; both are modelled as a plain error carrying the message.
- `joinPath` and `URI.parse` are not modelled. The URL is the pair of store URL and key, so only "same key, same URL" is captured, not the string produced.
- `etag` header values that are arrays of strings are not modelled; a header is a single string.
- `login`, `logout` and the `onDidChangeLoggedIn` emitter are not modelled. The two methods have empty bodies, and the emitter is event plumbing. `loggedIn` is modelled as a field that starts false and that nothing changes.
- The merge algorithm, the synchroniser state machine, the sync orchestrator, retries and conflict tracking are not modelled. userDataSync.ts declares only their interface types (`ISynchroniser`, `IUserDataSyncService`, `ISettingsMergeService`). Those types appear as the datatypes `SyncServiceView`, `MergeResult` and `SettingsMerge`, with nothing to prove about them.
- `ReferenceStore` is a reference server, not behaviour of the client. It treats a key that was never written as revision 0 with null content, and accepts an `If-Match` naming that revision's tag, where RFC 7232 section 3.1 would reject any `If-Match` on a key with no current representation. It applies a write without `If-Match` unconditionally.
