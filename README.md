# TIAMAT image cache, view state and configuration — a Dafny model

TIAMAT is an iOS catalog browser. This project models three pieces of its core:

- **The local image repository** (`DefaultImageLocalRepository`). It keeps an in-memory tier keyed by a URL's absolute string, in front of an optional disk tier. The disk tier is absent for the repository's whole life when the disk store's initialiser throws. A read tries memory first. On a miss it reads disk and promotes the hit into memory. A save writes memory unconditionally, then tries disk; with no disk tier the disk write does nothing. Module `TieredCache` gives each step as a function on the two tiers (`Tiers`). `ImageLocalRepository.DefaultImageLocalRepository` is the class that does the same steps in place on its `memoryCache` and `diskCache` fields, and each method's `ensures` ties its new state and result to the matching function. The lemmas about traces of calls (`Run` over a `seq<Op>`) prove the round trips.
- **The view-state machine** (`ViewState` and the `ViewStatePresenting` helpers). `ViewState` has three cases: `Idle(content)`, `Loading(previous)` and `Error(error, previous)`. The presenter queries are `IsLoading`, `HasError`, `CurrentContent`, `IsEmpty` and `Count`. `Presenter.UpdateState` replaces the state. The load pattern from the `ViewState` documentation is `StartLoad`, `FinishLoad` and `Load`, performed in place by `Presenter.LoadData`. `LoadAll` models repeated loads.
- **Configuration lookup** (`Configuration.value(for:in:)` and `ConfigurationConstant`). The Info.plist dictionary is a `map<string, PlistValue>`. The generic lookup takes, as parameters, the test "the object already is a `T`" and the conversion `T(string)`. It is instantiated for `String` (what `ConfigurationConstant.value(in:)` uses) and for `Int`.

Images and errors are opaque. `Image` is a type parameter of the repository. The error that ends a load is the type parameter `E` of `ViewState`.

The whole model is sequential. Each actor method is one atomic step. The outcome of every I/O the source performs is an explicit parameter: the disk store's initialiser is the constructor's `diskInit`, the error a disk write throws is `fault`, and the result of a fetch is `fetched`/`outcome`.

## Model

| member | source | states |
|---|---|---|
| `ImageLocalRepository.DefaultImageLocalRepository.constructor` | TIAMAT/Source/Domain/Repositories/Implementations/DefaultImageLocalRepository.swift:11-18 | The memory tier starts empty. The disk tier is whatever the disk store's initialiser yields, or `None` when it throws. |
| `ImageLocalRepository.DefaultImageLocalRepository.GetImage` | TIAMAT/Source/Domain/Repositories/Implementations/DefaultImageLocalRepository.swift:26-36 | The new tiers and the result are exactly those of `TieredCache.Get` on the old tiers. |
| `ImageLocalRepository.DefaultImageLocalRepository.SaveImage` | TIAMAT/Source/Domain/Repositories/Implementations/DefaultImageLocalRepository.swift:39-42 | The new tiers and the outcome are exactly those of `TieredCache.Save` (memory first, then disk). |
| `ImageLocalRepository.DefaultImageLocalRepository.SaveImageToMemoryCache` | TIAMAT/Source/Domain/Repositories/Implementations/DefaultImageLocalRepository.swift:45-47 | The new tiers are `TieredCache.SaveToMemory` of the old tiers. |
| `ImageLocalRepository.DefaultImageLocalRepository.SaveImageToDisk` | TIAMAT/Source/Domain/Repositories/Implementations/DefaultImageLocalRepository.swift:55-57 | The new tiers and the outcome are `TieredCache.SaveToDisk` of the old tiers. |
| `ImageLocalRepository.DefaultImageLocalRepository.ImageFromDiskCache` | TIAMAT/Source/Domain/Repositories/Implementations/DefaultImageLocalRepository.swift:60-66 | With no disk tier: `ImageNotFound`. Otherwise the image on disk under the URL's absolute string, or `ImageNotFound` when there is none. |
| `ImageLocalRepository.DefaultImageLocalRepository.MemoryCachedImage` | TIAMAT/Source/Domain/Repositories/Implementations/DefaultImageLocalRepository.swift:69-76 | Succeeds iff the memory tier holds the key, returning that entry. Otherwise fails with `ImageNotFound`. |
| `ImageLocalRepository.DefaultImageLocalRepository.Evict` | TIAMAT/Source/Domain/Repositories/Implementations/DefaultImageLocalRepository.swift:6 | The memory tier loses the given keys (an explicit stand-in for memory-pressure eviction). Nothing else changes. |
| `ImageLocalRepository.SaveThenRead` | TIAMAT/Source/Domain/Repositories/Implementations/DefaultImageLocalRepository.swift:26-42 | On any repository, a save of an image followed by a read of the same URL returns that image, whatever the disk write does. |
| `TieredCache.Get` | TIAMAT/Source/Domain/Repositories/Implementations/DefaultImageLocalRepository.swift:26-36 | A memory hit is returned and nothing changes. A memory miss with a disk hit returns the disk image, and memory then maps the key to it. The read fails iff both tiers miss (or there is no disk tier), and then with `ImageNotFound` and no change. The disk tier never changes, and no memory entry other than this key's changes. |
| `TieredCache.Save` | TIAMAT/Source/Domain/Repositories/Implementations/DefaultImageLocalRepository.swift:39-42 | Memory always maps the key to the image afterwards, even when the disk write throws. Other memory entries are unchanged. With no disk tier the save passes. It fails iff a disk tier exists and its write throws, and then the disk is unchanged. On a pass the disk maps the same key to the image. |
| `TieredCache.SaveToMemory` | TIAMAT/Source/Domain/Repositories/Implementations/DefaultImageLocalRepository.swift:45-47 | Memory maps the key to the image. Its key set gains only this key, and all other entries and the disk tier are unchanged. |
| `TieredCache.SaveToDisk` | TIAMAT/Source/Domain/Repositories/Implementations/DefaultImageLocalRepository.swift:55-57 | With no disk tier it is a no-op that passes. It fails iff the disk write throws, and then nothing changes. Otherwise the disk maps the key to the image. Memory never changes. |
| `TieredCache.Evict` | TIAMAT/Source/Domain/Repositories/Implementations/DefaultImageLocalRepository.swift:6 | Memory keys shrink by the evicted set. The surviving entries and the disk tier are unchanged. |
| `TieredCache.Run` | TIAMAT/Source/Domain/Repositories/Implementations/DefaultImageLocalRepository.swift:7-17 | After any sequence of calls, the disk tier is absent iff it was absent at the start: it is fixed at construction. |
| `TieredCache.RunKeepsMemoryEntry` | TIAMAT/Source/Domain/Repositories/Implementations/DefaultImageLocalRepository.swift:45-47 | A memory entry survives every call that neither saves under its key nor evicts it. |
| `TieredCache.RunKeepsDiskEntry` | TIAMAT/Source/Domain/Repositories/Implementations/DefaultImageLocalRepository.swift:55-65 | A disk entry, together with memory agreeing with it, survives every call that does not save under its key, evictions included. |
| `TieredCache.SaveThenGet` | TIAMAT/Source/Domain/Repositories/Implementations/DefaultImageLocalRepository.swift:26-47 | Round trip: after a save of an image, any calls that neither save under nor evict that key leave a read returning the image, whether or not the disk write threw. |
| `TieredCache.DurableSaveThenGet` | TIAMAT/Source/Domain/Repositories/Implementations/DefaultImageLocalRepository.swift:39-70 | With a disk tier and a disk write that passes, a later read returns the image even after the memory tier dropped the key. Both tiers use the same key. Only another save under that key changes the answer. |
| `TieredCache.MemoryOnlyDegradation` | TIAMAT/Source/Domain/Repositories/Implementations/DefaultImageLocalRepository.swift:55-63 | Without a disk tier, after any calls: there is still no disk tier, every save passes, and a read fails iff memory lacks the key. |
| `ViewStatePresenting.IsLoading` | TIAMAT/Source/Core/Common/ViewStatePresenting.swift:15-18 | True iff the state is `Loading`. Never true together with `HasError`. |
| `ViewStatePresenting.HasError` | TIAMAT/Source/Core/Common/ViewStatePresenting.swift:44-47 | True iff the state is `Error`. |
| `ViewStatePresenting.CurrentContent` | TIAMAT/Source/Core/Common/ViewStatePresenting.swift:24-33 | `Idle(c)` shows `c` (never nil). `Loading` and `Error` show their previous content. Nil content implies a loading or error state. |
| `ViewStatePresenting.IsEmpty` | TIAMAT/Source/Core/Common/ViewStatePresenting.swift:55 | True with no current content. Otherwise true iff the content has no elements. |
| `ViewStatePresenting.Count` | TIAMAT/Source/Core/Common/ViewStatePresenting.swift:58 | 0 with no current content, otherwise the content's length. It is 0 iff `IsEmpty`. |
| `ViewStatePresenting.Presenter.constructor` | TIAMAT/Source/Core/Common/ViewStatePresenting.swift:7-10 | A presenter holds the given state. |
| `ViewStatePresenting.Presenter.UpdateState` | TIAMAT/Source/Core/Common/ViewStatePresenting.swift:38-40 | The state afterwards is the new state. |
| `ViewStatePresenting.StartLoad` | TIAMAT/Source/Core/Common/ViewState.swift:10 | Entering `Loading(previous: currentContent)` is loading, not an error, and keeps the current content. |
| `ViewStatePresenting.FinishLoad` | TIAMAT/Source/Core/Common/ViewState.swift:12-16 | Success gives `Idle(items)`, showing `items`. Failure gives an `Error` carrying the error and the content shown while loading. Neither is loading. |
| `ViewStatePresenting.Load` | TIAMAT/Source/Core/Common/ViewState.swift:9-17 | A whole load ends in `Idle(items)` on success. On failure it ends in `Error(e, previous)`, where `previous` is the content shown before the load started. |
| `ViewStatePresenting.Presenter.LoadData` | TIAMAT/Source/Core/Common/ViewState.swift:9-17 | The two in-place assignments of the load pattern leave the state equal to `Load` of the old state. |
| `ViewStatePresenting.LastLoaded` | TIAMAT/Source/Core/Common/ViewState.swift:12-16 | Nil iff every load failed. Otherwise the items of a successful load after which every load failed: the last successful one. |
| `ViewStatePresenting.LoadAll` | TIAMAT/Source/Core/Common/ViewState.swift:9-17 | After a series of loads, the content shown is that of the last successful load, or the content shown before if every load failed. After at least one load the state is not loading, and it is an error iff the last load failed. |
| `Configuration.Key` | TIAMAT/Source/Application/Configuration.swift:78-89 | A constant's key maps back to that same constant under `ConstantFor`. |
| `Configuration.KeyInjective` | TIAMAT/Source/Application/Configuration.swift:78-89 | Two constants share a key iff they are the same constant. A key that `ConstantFor` recognises is the key of the constant it names. |
| `Configuration.ConstantFor` | TIAMAT/Source/Application/Configuration.swift:78-89 | Recognises exactly the four keys `API_BASE_URL`, `CONTENT_PATH`, `EMPTY_CONTENT_PATH` and `MALFORMED_CONTENT_PATH`, naming `ApiBaseURL`, `ContentPath`, `EmptyContentPath` and `MalformedContentPath` in that order. |
| `Configuration.Value` | TIAMAT/Source/Application/Configuration.swift:140-154 | `MissingKey` iff the key is absent. An object that already is a `T` is returned unchanged. Otherwise a string is converted, and a failed conversion is `InvalidValue`. A present key never gives `MissingKey`. Every value returned comes from the stored object. |
| `Configuration.AsString` | TIAMAT/Source/Application/Configuration.swift:146 | With `String` as the requested type, the cast succeeds iff the stored object is a string. |
| `Configuration.AsInt` | TIAMAT/Source/Application/Configuration.swift:146 | With `Int` as the requested type, the cast succeeds iff the stored object is a number. |
| `Configuration.StringValue` | TIAMAT/Source/Application/Configuration.swift:140-154 | For `String`: a missing key is `MissingKey`, a stored string is returned as it is, and any other object is `InvalidValue`. |
| `Configuration.IntValue` | TIAMAT/Source/Application/Configuration.swift:140-154 | For `Int`: a missing key is `MissingKey` and a stored number is returned. A stored string gives its parsed value, or `InvalidValue` if it does not parse. Any other object is `InvalidValue`. |
| `Configuration.ConstantValue` | TIAMAT/Source/Application/Configuration.swift:96-105 | Release behaviour: the string stored under the constant's key, or `""` when the key is missing or the object is not a string. |

## Left out

- Actor isolation and `async`/`await`: each repository method is one sequential atomic step. Interleavings of concurrent callers are not modelled.
- The warning printed when the disk store's initialiser throws: console output is not modelled. Only its effect, a missing disk tier, is.
- `@MainActor` on `updateState` and `@Published` on `state`: the execution context and observers are not modelled. `Presenter` holds the state in a plain field.
- NSCache's own eviction is non-deterministic. It is stood in for by the explicit `Evict`, and no property assumes a memory entry survives an eviction of its key.
- The disk store's internals are not part of this model (file naming, image encoding and decoding, the cache directory). The disk tier is a map from the key to the image stored under it.
- `ImageFromDiskCache`: a disk read fails only with `ImageNotFound`, on a missing key. The read errors the disk store may throw (`FileReadError`, `Deserialization`), which `getImage` would propagate unchanged, are not modelled.
- `SaveImageToDisk`: the error a disk write throws is modelled as an `ImageError` passed in as `fault`. A failed write leaves the disk tier unchanged, so a partial write is not modelled.
- Images are compared by value equality. `UIImage` object identity is not modelled.
- `ConstantValue`: only the release build is modelled. The DEBUG build stops the process with `fatalError` where the release build returns `""`.
- `Configuration.Value`: Info.plist objects are limited to strings, integers and "anything else". The Swift casts `as T` and the `T(string)` initialisers are parameters, so conversion rules such as the parsing of `Int(String)` are not modelled.
- The fetch-or-create use case (`FetchImageUseCase.swift`) and the per-item load controller are not part of this model. The same goes for networking, the catalog repository, dependency wiring and all UIKit views and controllers.
