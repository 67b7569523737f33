# The js-ipfs add pipeline, modelled in Dafny

This project models `addAsyncIterator`, the internal function behind every
`ipfs.add` call in js-ipfs (`src/core/components/files-regular/add-async-iterator.js`).
It takes the caller's input (a Buffer, a string, an array or other iterable
of Buffers, strings, `{path, content}` records, browser Files or pull-stream
sources) and the caller's options. It then runs a fixed chain of stages and
yields one `{path, hash, size}` result per imported node:

1. **Option resolution.** The defaults, the caller's options and the parsed
   chunker are merged, and the CID version is forced to 1 when a hash
   algorithm is named.
2. **The progress closure.** It keeps a running total of the byte counts the
   importer reports and passes each new total to the caller's callback.
3. **Source wrapping.** A lone Buffer or string becomes a one-item source.
4. **`validateInput`.** Each item is checked by `validateAddInput`.
5. **`normalizeInput` / `normalizeContent`.** Each item becomes a
   `{path, content}` entry. With `wrapWithDirectory`, an entry without a
   path is an error.
6. **The importer.** It is a collaborator.
7. **`prepareFile`.** It computes the result's path, hash and size, and has
   an `onlyHash` shortcut.
8. **`preloadFile` and `pinFile`.** They decide, per result, whether to call
   `_preload` and `pin.add`.

Modules, one per file:

- `AddValues` (`values.dfy`): the values that flow through the pipeline.
  - An `Emitted<T>` is what a stage yields: a sequence of items followed by
    the error it threw, if any.
  - `Call` is one call on the node's collaborators: `object.get`,
    `_preload` or `pin.add`.
- `Resolution` (`resolution.dfy`): option resolution, as pure functions.
- `Progress` (`progress.dfy`): the progress closure.
  - It is a class `ProgressCounter` whose `Report` method updates the
    captured total in place.
  - `RunningTotals` is the function the class is proved against.
- `Normalization` (`normalization.dfy`): source wrapping, `validateInput` and
  `normalizeInput`. Each stage has two parts:
  - a recursive specification function (`ValidateStage`, `NormalizeStage`);
  - the `for await` loop as a method with invariants, proved equal to that
    function.
- `Preparation` (`preparation.dfy`) and `Policies` (`policies.dfy`): the
  specification functions of `prepareFile`, `preloadFile` and `pinFile`, with
  their properties and one-step lemmas for the loops.
- `Pipeline` (`pipeline.dfy`):
  - `Add` composes the whole add as a function.
  - `Ipfs` is a class standing for the IPFS node (`self`). Its constant
    `env` holds the collaborators:
    - `parseChunkerString`, `validateAddInput` and the importer, as
      functions;
    - the CID encoder `toBaseEncodedString`;
    - what `object.get` can fetch, as a map;
    - the hashes `pin.add` refuses, as a set.
  - `Ipfs` also has a ghost call log. The stage loops (`PrepareFile`,
    `PreloadFile`, `PinFile`) and `AddAsyncIterator` are its methods. Each
    is proved to yield what the specification functions yield and to append
    their calls to the log.

Two behaviours of the code are worth stating outright:

- `prepareFile` takes the hash from the CID the importer yielded (line 134).
  The `toV1()` at lines 153-155 only reassigns a local that is never read
  again. So `prepareFile` never applies `cidVersion` itself, and the hash is
  always the encoding of the importer's CID
  (`Preparation.PrepareIgnoresCidVersion`, `Preparation.PrepareResults`).
  The importer does receive the resolved options, `cidVersion` included
  (lines 56 and 126), so the CIDs it yields may depend on it.
- `pinFile` (lines 195-197) does not read `wrapWithDirectory`. So under
  wrapping, every top-level entry whose path has no `/` is pinned as well as
  the wrapping directory (`Policies.PinIgnoresWrap`, `Pipeline.PinnedIff`).
  Preloading does follow the wrapping rule: only the directory, with the
  empty path, is preloaded.

The importer is a collaborator the model does not define. The lemmas about
how errors reach the caller (`Pipeline.InputErrorEndsAdd`,
`Pipeline.AbortedInputFailsAdd`, `Pipeline.FailingSourceFailsAdd`) assume one thing of it
(`Pipeline.ImporterPassesErrors`): when its input ends with an error, it
re-throws that error after the nodes it has yielded. For a source that
cannot be iterated at all, the importer is not called: nothing is yielded or
reported and the add ends with `NotIterable`.

With FileReader support (`supportsFileReader`), `normalizeContent` as written
calls `kindOf` and `streamFromFileReader` (lines 83-84), and the module defines
neither name (lines 3-11). Such an add therefore fails at its first valid item
(see "## Findings"). The rest of the model uses the evidently intended
`Normalization.NormalizeContent`, in which a browser File becomes a reader
stream.

## Model

| member | source | states |
|---|---|---|
| Resolution.MergeOptions | src/core/components/files-regular/add-async-iterator.js:20-29 | The caller's keys override the default shard split threshold: 1000 under experimental sharding, unbounded otherwise. The parsed chunker and its options override the caller's chunker keys. Every other option passes through. |
| Resolution.Resolve | src/core/components/files-regular/add-async-iterator.js:18-34 | The resolved `cidVersion` is forced to 1 when a non-empty `hashAlg` is given, and is the caller's value otherwise. The threshold defaults as in the merge. `chunker`/`chunkerOptions` always come from `parseChunkerString`. |
| Progress.RunningTotals | src/core/components/files-regular/add-async-iterator.js:36-44 | The callback receives one value per progress call, and the last value is the sum of all byte counts so far. |
| Progress.RunningTotalsArePrefixSums | src/core/components/files-regular/add-async-iterator.js:36-44 | The i-th value the callback receives is the sum of the first i+1 byte counts. |
| Progress.RunningTotalsNondecreasing | src/core/components/files-regular/add-async-iterator.js:36-44 | With non-negative byte counts, the reported totals never decrease. |
| Progress.ProgressCounter.constructor | src/core/components/files-regular/add-async-iterator.js:36-38 | The captured total starts at 0 and nothing has been reported. |
| Progress.ProgressCounter.Report | src/core/components/files-regular/add-async-iterator.js:39-42 | `progress(bytes)` adds `bytes` to the total and passes the new total to the callback when one was given. It keeps the invariant that the total is the sum of all counts seen and the reports are their running totals. |
| Progress.ProgressCounter.ReportAll | src/core/components/files-regular/add-async-iterator.js:39-44 | A run of progress calls keeps that invariant and records the counts in order. |
| Normalization.WrapSource | src/core/components/files-regular/add-async-iterator.js:46-50 | A Buffer or a string becomes a one-item source. Arrays and iterables are iterated as they are, and an iterable that throws while it is read ends the stream after its elements with `SourceFailed`. Anything else cannot be iterated: the stream is empty and ends with `NotIterable` (`Pipeline.Add` carries this to the whole add). |
| Normalization.ValidateStage | src/core/components/files-regular/add-async-iterator.js:72-80 | The stage yields a prefix of its input in which every item is valid. If it stops early, the next item is invalid and the error is `InvalidInput`; otherwise the upstream error passes on. |
| Normalization.ValidateInput | src/core/components/files-regular/add-async-iterator.js:72-80 | The `for await` loop yields exactly what `ValidateStage` describes. |
| Normalization.NormalizeContent | src/core/components/files-regular/add-async-iterator.js:82-101 | The intended behaviour (see "## Findings"). The checks run in the source's order: file with FileReader support → reader stream, pull source → async iterator, string → bytes, non-empty array whose first element is not an array → wrapped in an array. Anything else is returned unchanged, and a value returned unchanged never needs conversion. |
| Normalization.NormalizeItem | src/core/components/files-regular/add-async-iterator.js:105-113 | An item with truthy `content` keeps its path and gets its content normalized. Any other item becomes `{path: '', content: normalizeContent(item)}`. |
| Normalization.NormalizeStage | src/core/components/files-regular/add-async-iterator.js:103-122 | The stage never yields more entries than items. With wrapping, every yielded entry has a path, and an early stop means the next item normalizes to a pathless entry and raises "must provide a path". Otherwise the upstream error passes on. |
| Normalization.NormalizedInOrder | src/core/components/files-regular/add-async-iterator.js:103-122 | Each yielded entry is the normalization of the item at the same position. |
| Normalization.FirstPathlessAborts | src/core/components/files-regular/add-async-iterator.js:115-119 | With wrapping, when item k is the first to normalize to a pathless entry, exactly the entries of items 0..k-1 are yielded, and the stream ends with the "must provide a path" error. |
| Normalization.NormalizeContentAsWritten | src/core/components/files-regular/add-async-iterator.js:82-85 | As written, it throws on every call with FileReader support, because `kindOf` is undefined. Without that support it agrees with `NormalizeContent`. |
| Normalization.NormalizeStageAsWritten | src/core/components/files-regular/add-async-iterator.js:103-122 | `normalizeInput` as written: with FileReader support, a non-empty input yields no entry and ends with `ReferenceError`. |
| Normalization.AsWrittenWithoutFileReader | src/core/components/files-regular/add-async-iterator.js:82-122 | Without FileReader support, the stage as written is exactly `NormalizeStage`. |
| Normalization.FileReaderDropsEveryItem | src/core/components/files-regular/add-async-iterator.js:83 | With FileReader support and any non-empty input, the stage as written yields nothing. The intended stage without wrapping yields one entry per item, e.g. `{'', Buffer('x')}` for the source `'x'`. |
| Normalization.NormalizeInput | src/core/components/files-regular/add-async-iterator.js:103-122 | The `for await` loop yields exactly what `NormalizeStage` describes. |
| Preparation.ResultPath | src/core/components/files-regular/add-async-iterator.js:135-139 | The result path is the node's path when non-empty. Otherwise it is `''` under wrapping and the hash without it. |
| Preparation.PrepareStage | src/core/components/files-regular/add-async-iterator.js:130-170 | With `onlyHash`, `object.get` is never called and at most one result is yielded. Every call the stage makes is an `object.get`. |
| Preparation.PrepareFetches | src/core/components/files-regular/add-async-iterator.js:151 | Without `onlyHash`, `object.get` is called with `preload: false` for the nodes in order, once each, up to and including the first node that cannot be fetched. |
| Preparation.PrepareResults | src/core/components/files-regular/add-async-iterator.js:130-170 | With `onlyHash`, the first node's `{path, hash, fileSize}` is yielded and the stage ends. Otherwise each node before the first missing one yields `{path, hash, size}`, where size is `StoredSize`: the raw block's length or the node's `size` (lines 157-161). A missing node ends the stream with `ObjectNotFound`, and if none is missing the upstream error passes on. |
| Preparation.PrepareStep | src/core/components/files-regular/add-async-iterator.js:132-167 | One iteration of the loop: the node either ends the stage (`onlyHash` answer, failed fetch) or appends its result and its fetch in front of the rest. |
| Preparation.PrepareOneToOne | src/core/components/files-regular/add-async-iterator.js:151-167 | Without `onlyHash`, and with every node fetchable, there is exactly one result and one `object.get` per node, in order. Each result carries the node's hash, path and stored size. |
| Preparation.PrepareIgnoresCidVersion | src/core/components/files-regular/add-async-iterator.js:133-155 | The requested CID version never changes what the stage yields or calls. |
| Policies.IsRootFile | src/core/components/files-regular/add-async-iterator.js:175-177 | Under wrapping, only the empty path is a root. Otherwise a path is a root exactly when it has no `/`. |
| Policies.PreloadStage | src/core/components/files-regular/add-async-iterator.js:172-188 | Every result passes through unchanged. The selection is `ShouldPreload` (`shouldPreload`, line 179). At most one `_preload` per result, and none with `onlyHash` or `preload: false`. |
| Policies.PreloadStep | src/core/components/files-regular/add-async-iterator.js:174-185 | One iteration of the loop: `_preload(hash)` for this result when it should be preloaded, followed by the rest's calls. |
| Policies.PreloadCalledIff | src/core/components/files-regular/add-async-iterator.js:175-185 | `_preload(h)` is called if and only if some result with hash h is a root, the add is not `onlyHash` and `preload` is not false. |
| Policies.PinStage | src/core/components/files-regular/add-async-iterator.js:190-206 | The selection is `ShouldPin`, with `PinRequested` for `'pin' in opts ? opts.pin : true` (lines 195-197). The stage yields no more results than it received and makes at most one call per result. Every call is a `pin.add` with `preload: false`, and there are none with `onlyHash` or a `hashAlg`. |
| Policies.PinPassesPrefix | src/core/components/files-regular/add-async-iterator.js:190-206 | Results pass through unchanged and in order up to the first refused pin, which ends the stream with `PinFailed`. With no refused pin, the upstream error passes on. |
| Policies.PinStep | src/core/components/files-regular/add-async-iterator.js:192-203 | One iteration of the loop: a selected result is pinned, and either ends the stream (refused) or passes on. An unselected result passes on without a call. |
| Policies.PinIgnoresWrap | src/core/components/files-regular/add-async-iterator.js:195-197 | The pin stage is the same whatever `wrapWithDirectory` is. |
| Policies.PinCalledIff | src/core/components/files-regular/add-async-iterator.js:195-203 | `pin.add(h, {preload: false})` is called if and only if some result the stage reached has hash h, `pin` is not false, its path has no `/`, and the add has neither `onlyHash` nor a `hashAlg`. |
| Pipeline.Add | src/core/components/files-regular/add-async-iterator.js:17-69 | The whole add. A source that is not a Buffer, a string or iterable ends the add with `NotIterable`: no result, no `object.get`/`_preload`/`pin.add` call, nothing reported. With `onlyHash`, none of `object.get`, `_preload` and `pin.add` is called, and at most one result is yielded (the importer, `validateAddInput` and `parseChunkerString` still run). With a `hashAlg`, nothing is pinned. The callback receives the running totals of the importer's byte counts, and nothing is reported without a callback. |
| Pipeline.Import | src/core/components/files-regular/add-async-iterator.js:124-128 | For an iterable source, `doImport` hands the normalized entries and the resolved options (with any forced `cidVersion`) to the importer, and its nodes and byte counts are what the importer returns. For a source that cannot be iterated, the first stage throws before any entry is produced: nothing is yielded or reported and `NotIterable` passes on. When the importer re-throws its input's error, so does this stage. |
| Pipeline.InputErrorEndsAdd | src/core/components/files-regular/add-async-iterator.js:52-60 | Without `onlyHash`, and with an importer that re-throws its input's error, an add whose importer input ends with an error ends with an error for the caller: that same error, or an `ObjectNotFound` or `PinFailed` raised later. |
| Pipeline.FailingSourceFailsAdd | src/core/components/files-regular/add-async-iterator.js:52-60 | Without `onlyHash`, and with an importer that re-throws its input's error, a source iterable that throws while it is read makes the whole add end with an error, whatever it yielded before. |
| Pipeline.AbortedInputFailsAdd | src/core/components/files-regular/add-async-iterator.js:72-122 | Without `onlyHash`, and with an importer that re-throws its input's error, an item `validateAddInput` rejects, or a pathless item under `wrapWithDirectory`, makes the whole add end with an error. |
| Pipeline.FileReaderAddFailsAsWritten | src/core/components/files-regular/add-async-iterator.js:52-60 | As written, under FileReader support and without `onlyHash`, an add with at least one valid item hands the importer no entry and `ReferenceError`. The add then ends with an error, under the importer hypothesis. |
| Pipeline.WrapFeedsOnlyPaths | src/core/components/files-regular/add-async-iterator.js:52-60 | With wrapping, the importer is never fed a pathless entry. When some item normalizes to one, the importer's input stops before it with the "must provide a path" error. |
| Pipeline.OneResultPerNode | src/core/components/files-regular/add-async-iterator.js:52-60 | Without `onlyHash`, when every node can be fetched and no pin is refused, the caller receives exactly one result per imported node, in order, with that node's hash, path and size. |
| Pipeline.PreloadedIff | src/core/components/files-regular/add-async-iterator.js:52-60 | Over the whole add, `_preload(h)` is called if and only if a prepared result with hash h is a root under the wrapping rule, the add is not `onlyHash` and `preload` is not false. |
| Pipeline.PinnedIff | src/core/components/files-regular/add-async-iterator.js:52-60 | Over the whole add, `pin.add(h, {preload: false})` is called if and only if a result the pin stage reached has hash h, `pin` is not false, its path has no `/`, and the add has neither `onlyHash` nor a `hashAlg`. |
| Pipeline.Ipfs.PrepareFile | src/core/components/files-regular/add-async-iterator.js:130-170 | The `for await` loop yields what `PrepareStage` yields and appends its calls to the node's log. It includes the early `return` under `onlyHash` and the dead `toV1()` upgrade. |
| Pipeline.Ipfs.PreloadFile | src/core/components/files-regular/add-async-iterator.js:172-188 | The loop yields its input unchanged and appends the `_preload` calls of `PreloadStage` to the log. |
| Pipeline.Ipfs.PinFile | src/core/components/files-regular/add-async-iterator.js:190-206 | The loop yields what `PinStage` yields and appends its `pin.add` calls to the log. |
| Pipeline.Ipfs.RunImporter | src/core/components/files-regular/add-async-iterator.js:36-44 | The importer runs with the progress closure installed, and the callback receives the running totals of the counts it reports; it receives nothing when no callback was given. |
| Pipeline.Ipfs.ResolveOptions | src/core/components/files-regular/add-async-iterator.js:20-34 | The options it builds are exactly `Resolve`'s: the parsed chunker and the sharding default are merged under the caller's keys, and a custom hash algorithm forces CID version 1. |
| Pipeline.Ipfs.ReadInput | src/core/components/files-regular/add-async-iterator.js:53-55 | The entries handed to the importer are those of `ValidateStage` followed by `NormalizeStage` on the wrapped source. |
| Pipeline.Ipfs.Publish | src/core/components/files-regular/add-async-iterator.js:57-59 | Chaining `prepareFile`, `preloadFile` and `pinFile` yields what `PinStage` yields after `PreloadStage` and `PrepareStage`, and appends their calls to the log in that order. |
| Pipeline.Ipfs.AddAsyncIterator | src/core/components/files-regular/add-async-iterator.js:17-69 | It resolves the options, forcing the CID version in place. It stops with `NotIterable` when the source cannot be iterated; otherwise it runs validate, normalize, import, prepare, preload and pin. It yields the results of `Add`, reports its progress values, and appends exactly `Add`'s calls to the log. |


## Findings

| source | as written | input that shows it | evidently intended | confidence | as-written member | corrected member |
|---|---|---|---|---|---|---|
| src/core/components/files-regular/add-async-iterator.js:83-84 | With `supportsFileReader` true, `normalizeContent` calls `kindOf(content)`. Neither `kindOf` nor `streamFromFileReader` is imported or defined (lines 3-11), so every call throws a `ReferenceError`. | Any add in a FileReader environment whose first item passes validation, e.g. the source `'x'` | A browser File becomes a FileReader stream, and every other content is converted as without FileReader support | high; not executed | Normalization.FileReaderDropsEveryItem | Normalization.NormalizeContent |

## Left out

- The GC read lock (lines 62-68) is not modelled. Its only purpose is exclusion against a concurrent garbage collection. The model assumes it is released on every exit.
- Laziness and interleaving are not modelled: the stages are composed eagerly, one after the other.
  - The log lists all `object.get` calls first, then all `_preload` calls, then all `pin.add` calls. The real generators interleave them item by item.
  - When a later stage throws (a refused pin), the log still holds the earlier stages' calls for the items after the failure. The lazy pipeline would never have pulled those items.
  - After the `onlyHash` return, the importer is not stopped early.
- Pipeline.Ipfs.PreloadFile: `_preload` is not awaited in the source, and its failures are not modelled.
- A missing or `null` options argument (line 18 turns any falsy value into `{}`) is a `CallerOptions` with every key absent.
- An option key present with the value `undefined` is not modelled. `None` means the key is absent. In the source, `pin: undefined` is present, so `'pin' in opts` holds and nothing is pinned (line 195). `shardSplitThreshold: undefined` overrides the default in `Object.assign` (lines 22-29). The model treats both as absent.
- `normalizeInput` overwrites the caller's `data.content` in place (line 107). The model works on values. It does not capture that the caller's records are mutated, or that one record object passed twice shares a single converted stream.
- With `onlyHash`, an error after the first node is not modelled as reaching the caller: `prepareFile` returns after that node, so an aborted input is only proved to fail the add without `onlyHash`.
- `parseChunkerString` is a total function of the chunker string. `./utils` is not part of this model, so a malformed chunker string that makes it throw is not modelled.
- `validateAddInput` is a predicate: an item it rejects throws `InvalidInput`. The wording of its messages is not modelled.
- The importer (`ipfs-unixfs-importer` over `ipfs._ipld`) is a collaborator function. Given the entries and the resolved options, it returns the nodes it yields (and the error it ends with) and the byte counts it reports through `opts.progress`. Chunking, DAG building and sharding are not modelled, and the importer's reaction to the other options it receives is part of that function.
- Pipeline.Ipfs.PrepareFile: `object.get` failures of any kind are modelled as a CID missing from the store. The log records only the CID and `preload: false`, not the rest of the options object handed to `object.get`.
- `FileReader` streaming, the pull-stream to async-iterator adapter, `Buffer.from` (UTF-8), CID string encoding and `toV1()` are treated as opaque values: the content constructors and the `encode` collaborator.
- JavaScript truthiness is modelled only as far as the value shapes allow: the empty string is the only falsy `content`. `0`, `false` and `null` contents have no counterpart.
- `Infinity` as a shard split threshold is the `Unbounded` case of `Limit`. No floating point is modelled.
- `src/core/components/files-regular/add.js` and `src/core/runtime/add-from-fs-nodejs.js` are thin wrappers (callback and collect-all adapters, a filesystem walk) and are not part of this model.
- Debug logging (`ipfs:add`) is not modelled.
