# NWScript language server: session coordinator

This project models the session coordinator of the NWScript language server.
In the repository this is the class `ServerManger` in
`server/src/ServerManager/ServerManager.ts`; the model calls it `ServerManager`.

- **Start-up.** `initialize` loads the tokenizer grammar, registers the
  language-feature providers and attaches the live-document handlers. `up`
  registers the workspace provider, registers the configuration-change
  callback when the client can be asked for its configuration, loads the
  configuration, sets `configLoaded` and flushes the documents waiting for it.
- **Document events.** The will-save, did-save and did-open handlers update
  the documents collection and request diagnostics, each guarded by the
  tokenizer or the diagnostics provider being set.
- **Configuration merge.** `loadConfig` destructures four sub-sections
  (`completion`, `hovering`, `formatter`, `compiler`) out of the fetched
  object. It spreads the remaining options onto the top level, and each
  sub-section onto its previous value.

The model has four modules:

- `Wrappers` holds `Option`, used for the nullable fields and for an awaited
  call that may reject.
- `Configuration` holds the configuration and the merge. The merge is stated
  twice. `Merge` works on a structured `Config` and `Update`. `LoadFlat`
  applies the source's object spreads, one assignment at a time, to the
  configuration seen as one JavaScript object. `LoadFlatAgrees` proves the
  two equal. The lemmas beside them give the algebra of the merge: what each
  key ends up as, absent sections, idempotence, sequencing and commutation.
- `Trace` holds the log of calls the coordinator makes into its
  collaborators: the ordering rules it keeps, and the projections onto
  `publish` requests and `processDocumentsWaitingForPublish` calls.
- `Session` holds the class `ServerManager`. Its fields are `config`,
  `configLoaded`, `tokenizer`, `diagnosticsProvider`, the documents
  collection (a `map<Uri, Tokens>`) and whether the handlers and the
  configuration callback are attached. A ghost `trace` holds the call log.
  `Valid()` is the session invariant:
  - the log is ordered;
  - nothing is published while the handlers are missing;
  - nothing is flushed before the configuration is loaded;
  - handlers exist only together with a tokenizer.

  Every state-changing method keeps `Valid()` and states its whole new state.

Inputs and collaborators:

- The JavaScript `await`s finish one after another, in program order.
- The grammar that `Tokenizer.loadGrammar` resolves to is a parameter of
  `Initialize` (`None` when the promise rejects). A tokenizer is any function
  from the text to its tokens.
- What `DiagnosticsProvider.register` returns is also a parameter of
  `Initialize`, and may be no instance. The source forces its type with a
  cast but does not check it, and every later use of the provider is guarded.
- The object `getConfiguration` resolves to is a parameter of `Up`,
  `LoadConfig` and `ConfigurationChanged`. It is `None` when `loadConfig`
  rejects: when the fetch rejects, and also when it resolves to `null` or
  `undefined`, because the destructuring then throws.
- The log records who asked for a load: `up` or the configuration-change
  callback. Only `up`'s own load may be followed by setting `configLoaded`.
- `getSupportsWorkspaceConfiguration()` is a constructor parameter.
- The live-documents transport delivering an event is a call of `WillSave`,
  `DidSave` or `DidOpen`. Before `initialize` has attached the handlers, such
  a call does nothing, because in the source no handler exists yet.

## Model

| member | source | states |
|---|---|---|
| `Configuration.SectionOfPut` | server/src/ServerManager/ServerManager.ts:110-112 | destructuring a key gives back the sub-section last stored under it, and storing none leaves what destructuring gave before |
| `Configuration.FromRecordSpec` | server/src/ServerManager/ServerManager.ts:110-112 | `rest` holds every fetched key except the four sub-section keys, each with its fetched value; each sub-section is the fetched object under its key, if there is one |
| `Configuration.FromRecordToRecord` | server/src/ServerManager/ServerManager.ts:110-112 | reassembling an update whose options avoid the sub-section keys, then destructuring it, gives the same update back |
| `Configuration.MergeSectionSpec` | server/src/ServerManager/ServerManager.ts:114-117 | a merged sub-section has the keys of the previous value and of the update; a key takes the update's value where the update sets it, otherwise its previous value; an absent update changes nothing |
| `Configuration.MergeSpec` | server/src/ServerManager/ServerManager.ts:113-117 | the top level gains the keys of `rest`, which override and leave every other option alone; each sub-section is merged from its own previous value and its own update only |
| `Configuration.LoadKeepsWellFormed` | server/src/ServerManager/ServerManager.ts:113 | spreading `rest` at the top level never adds a sub-section key to the options |
| `Configuration.LoadFlatAgrees` | server/src/ServerManager/ServerManager.ts:109-118 | the source's spreads, applied one assignment at a time to the configuration as one object, give the same object as the structured merge |
| `Configuration.AssignmentsIndependent` | server/src/ServerManager/ServerManager.ts:114-117 | the four sub-section assignments, done in sequence, equal one simultaneous update that reads every sub-section before any is written |
| `Configuration.AbsentSectionUnchanged` | server/src/ServerManager/ServerManager.ts:110-117 | a load whose fetched object has no object under a sub-section's key leaves that sub-section as it was |
| `Configuration.MergeIdempotent` | server/src/ServerManager/ServerManager.ts:109-118 | applying the same update twice gives the same configuration as applying it once |
| `Configuration.MergeThen` | server/src/ServerManager/ServerManager.ts:109-118 | two loads in a row give the same configuration as one load of the combined update, in which the later update wins |
| `Configuration.LaterLoadWins` | server/src/ServerManager/ServerManager.ts:109-118 | after loads L1 then L2, a sub-section key has L2's value where L2 sets it, otherwise L1's value, otherwise its earlier value |
| `Configuration.DisjointUpdatesCommute` | server/src/ServerManager/ServerManager.ts:109-118 | two updates that touch disjoint keys give the same configuration in either order |
| `Configuration.StrictAndWarningsSurvive` | server/src/ServerManager/ServerManager.ts:117 | when L1 reports `compiler.strict` and L2 reports `compiler.warnings`, both values are in the compiler section afterwards |
| `Trace.PublishesSpec` | server/src/ServerManager/ServerManager.ts:93-105 | the publish log has at most one uri per step, and holds exactly the uris of the publish requests |
| `Trace.FlushesSpec` | server/src/ServerManager/ServerManager.ts:71 | the flush count is at most the length of the log, and it is zero exactly when the log holds no flush |
| `Trace.PublishesAppend` | server/src/ServerManager/ServerManager.ts:93-105 | the publish log of two logs joined is the two publish logs joined |
| `Trace.FlushesAppend` | server/src/ServerManager/ServerManager.ts:71 | the flush count of two logs joined is the sum of their counts |
| `Trace.OrderedSnoc` | server/src/ServerManager/ServerManager.ts:46-72 | appending a step keeps the log ordered if and only if the step's required predecessor is the last step so far |
| `Trace.Snoc` | server/src/ServerManager/ServerManager.ts:46-72 | appending a step with its predecessor in place keeps the log ordered; only a publish request adds to the publish log, and only a flush adds to the flush count |
| `Trace.FlushFollowsLoad` | server/src/ServerManager/ServerManager.ts:69-71 | in an ordered log, every flush comes straight after `configLoaded` was set, which comes straight after `up`'s own load, never after a reload from the change callback |
| `Trace.SubscribeFollowsGrammar` | server/src/ServerManager/ServerManager.ts:47-49 | in an ordered log, the handlers are attached straight after the providers are registered, which comes straight after the tokenizer is set |
| `Session.ServerManager.constructor` | server/src/ServerManager/ServerManager.ts:24-44 | a new session has the default configuration, `configLoaded` false, no tokenizer, no diagnostics provider, no documents, no handlers and an empty log |
| `Session.ServerManager.Initialize` | server/src/ServerManager/ServerManager.ts:46-52 | on a loaded grammar it sets the tokenizer, then keeps the diagnostics provider's registration result, then attaches the handlers, in that order, calling `publish` and flushing nothing; when loading rejects, nothing changes |
| `Session.ServerManager.RegisterProviders` | server/src/ServerManager/ServerManager.ts:76-84 | runs only after the tokenizer is set, and keeps whatever the diagnostics provider's registration returns |
| `Session.ServerManager.RegisterLiveDocumentsEvents` | server/src/ServerManager/ServerManager.ts:86-107 | runs only after the providers are registered, and attaches the handlers without publishing or flushing |
| `Session.ServerManager.Up` | server/src/ServerManager/ServerManager.ts:60-72 | registers the workspace provider; registers the configuration callback when, and only when, the client supports it; performs exactly one load; sets `configLoaded` only after that load succeeds and never clears it; flushes once, after that, when a diagnostics provider exists; calls `publish` for no uri |
| `Session.ServerManager.RegisterWorkspace` | server/src/ServerManager/ServerManager.ts:61-67 | logs the workspace registration, then the callback registration exactly when the client supports it |
| `Session.ServerManager.MarkLoaded` | server/src/ServerManager/ServerManager.ts:70-71 | right after `up`'s own load, sets `configLoaded` and then flushes once if a diagnostics provider exists |
| `Session.ServerManager.LoadConfig` | server/src/ServerManager/ServerManager.ts:109-118 | the five assignments, done one after another, leave the configuration equal to the merge of the destructured fetch, and the log records one load by the given caller; a rejected load changes nothing |
| `Session.ServerManager.ConfigurationChanged` | server/src/ServerManager/ServerManager.ts:64-66 | a configuration change reloads the configuration only when the callback was registered, logs that load as the callback's, and leaves `configLoaded` alone |
| `Session.ServerManager.WillSave` | server/src/ServerManager/ServerManager.ts:87-91 | with the tokenizer set, exactly the saved uri's entry becomes the tokens of the saved text and no other entry changes; otherwise the documents are unchanged |
| `Session.ServerManager.DidSave` | server/src/ServerManager/ServerManager.ts:93 | appends exactly one publish request for the uri when the diagnostics provider is set, and leaves the documents alone |
| `Session.ServerManager.DidOpen` | server/src/ServerManager/ServerManager.ts:95-106 | creates the uri's entry from the full text only when the tokenizer is set, then appends exactly one publish request when the diagnostics provider is set |
| `Session.ServerManager.Publish` | server/src/ServerManager/ServerManager.ts:93-105 | a handler's publish request adds the uri to the publish log exactly when the provider is set |
| `Session.OpenAroundInitialize` | server/src/ServerManager/ServerManager.ts:46-106 | a document opened before `initialize` creates no entry and is not published; opened after a successful `initialize`, it is tokenized with the loaded grammar and published exactly once when the diagnostics provider's registration returned an instance |
| `Session.ChangeAfterUp` | server/src/ServerManager/ServerManager.ts:60-72 | after `up`, the configuration is the defaults merged with the fetch; a later change is merged only when the client supports pulling the configuration |

## Left out

- The connection, the logger and the transport of `getConfiguration` are I/O. The fetched object is a parameter instead.
- The tokenizer's grammar and tokenization are not part of this model. A tokenizer is an arbitrary function from text to tokens, and the token shape is a placeholder.
- `DocumentsCollection.createDocuments` and `updateDocument` are not part of this model. Both are modelled as replacing the uri's entry with the tokens of the current text. The workspace file system they receive is never inspected.
- `LiveDocumentsManager` and `CapabilitiesHandler` are not part of this model. Event delivery is a method call, and the capability query is a constructor parameter.
- The diagnostics provider's `publish` and `processDocumentsWaitingForPublish`, and the list `documentsWaitingForPublish` (line 30), live in code outside this model. Only the calls are recorded, in the ghost log. Nothing is claimed about deferral, de-duplication or draining.
- The registrations of the other providers (lines 61, 77-82) are wiring. They appear only as steps in the log.
- Async interleaving is not modelled: every `await` finishes in program order. The configuration callback's `loadConfig` (lines 64-66) is not awaited in the source; in the model it runs as one call. Overlapping reloads are not modelled.
- `getCapabilities` (lines 54-58) is a plain accessor and `down` (line 74) does nothing; neither is modelled.
- `Session.ServerManager.Initialize` requires that the handlers are not yet attached. A second successful `initialize` would attach a second set of handlers in `LiveDocumentsManager`, which is not part of this model.
- A sub-section that the client reports as an array or a string is treated as absent. JavaScript would spread its indices or characters into the sub-section.
- A rejection of `ConfigurationProvider.register` (line 64) is not modelled. The model takes the registration as always succeeding.
- JSON numbers are integers in the model, and the configuration's default values are a constructor parameter: `defaultServerConfiguration` is not part of this model.
