# Borilla: a model of the playback session bookkeeping

Borilla is a small browser-audio layer. It sets up an audio context, repairing
it once when iOS starts it at the wrong sample rate. It fetches and decodes a
fixed set of named assets into a name -> buffer table. It plays assets under
decimal string handles and tracks every playing source until its
end-of-playback callback removes it.

This project models the bookkeeping around the platform audio API:

- the handle counter shared by every session (`Borilla.SourceIdGenerator`);
- the session itself (`Borilla.Borilla`), with its options, context, table
  and registry of playing sources;
- the pure parts: the sample-rate repair branch (`ContextBootstrap`), the
  table build (`AssetLoader`) and the option merge (`Options`);
- the decimal rendering of handles (`Decimal`).

The platform stays abstract. A decoded buffer and a context's identity are
opaque types. A context shows only its sample rate. A buffer source node shows
only the buffer and loop flag the library sets on it. Environment inputs are
parameters:

- `Host`: whether a `window` exists, and whether the platform string names an
  iPad or iPhone. The library's iOS flag is the conjunction of the two
  (`Host.IsIos`). The library detects these once when it loads, so each
  session holds one fixed `Host`, and the default `isIos` option is that flag;
- `ContextFactory`: the stream of contexts that successive `new AudioContext()` calls yield;
- `decode`: fetch-and-decode of a URL, as a function that may fail.

The end-of-playback callback is `Borilla.OnEnded(id)`, which a caller may
invoke at any time.

Some of the code's behaviour is easy to misread. The model follows the code as written:

- `fetchLimit` is stored, but the fetches are never wrapped in the limiter. The
  model keeps the value and claims no bound on fetches in flight.
- `createAudioContext` reads the module-level iOS flag, not the session's
  `isIos` option. `Initialize` reads the session's fixed `Host`, and the
  session's `isIos` option plays no part in it.
- There is no dedicated "no playback capability" error. With no context,
  `initialize` returns normally and leaves the table unset, so `play` then
  fails with "Undefined audio buffer" before a handle is minted. Because the
  environment is fixed, a session never has a table without a context. So
  `play` never reaches `ctx.createBufferSource` on an undefined context, and
  the session invariant records this.
- A failed `initialize` leaves the table as it was before the call. That is
  "unset" on a fresh session. The context is replaced whatever happens.

## Model

| member | source | states |
|---|---|---|
| Decimal.DecimalString | src/index.ts:102 | a handle `String(n)` is a non-empty string of decimal digits with no leading zero |
| Decimal.ParseDecimalString | src/index.ts:99-106 | reading a handle back as a decimal number gives the counter value it was minted from |
| Decimal.DecimalStringInjective | src/index.ts:99-106 | two counter values give the same handle exactly when they are equal |
| Borilla.SourceIdGenerator.constructor | src/index.ts:99-100 | the shared counter starts at 0 |
| Borilla.SourceIdGenerator.GenerateSourceId | src/index.ts:101-105 | returns the decimal string of the current counter value and advances the counter by exactly one; the handle was not issued before and is issued afterwards |
| AudioPlatform.BufferSource.constructor | src/index.ts:90 | a node fresh from the context has no buffer and does not loop |
| AudioPlatform.CreateBufferSource | src/index.ts:89-97 | a fresh node of the given context, bound to the given buffer, whose loop flag is true exactly when `loop` was passed as true |
| ContextBootstrap.CreateAudioContext | src/index.ts:11-32 | no context exactly outside a browser; a replacement exactly on iOS when the first context's rate differs from the desired rate; at most two contexts are built, and context i built is the factory's i-th; the one returned is the last built; the one closed is the first |
| ContextBootstrap.RepairIsOneShot | src/index.ts:21-28 | when the repair fires, exactly two contexts are built and the second is returned whatever its own sample rate: no check, no retry |
| ContextBootstrap.NonIosKeepsFirst | src/index.ts:21-31 | in a browser off iOS the first context is kept, whatever its rate |
| ContextBootstrap.KeptOnIosHasDesiredRate | src/index.ts:21-31 | on iOS a context that is kept already runs at the desired rate |
| AssetLoader.DecodeAll | src/index.ts:126-127 | the awaited results exist exactly when every asset decodes; they are then index-aligned with the entries, result i being the decode of entry i's URL |
| AssetLoader.Zip | src/index.ts:128-131 | the reduce binds exactly the entries' names, entry i's name to result i |
| AssetLoader.BuildTable | src/index.ts:126-131 | a table exists exactly when every decode succeeds; its key set is then the configured names, each bound to the decode of its own URL |
| AssetLoader.OneFailureLosesTable | src/index.ts:127 | one failing asset leaves no table at all: there is no partial table |
| Options.MergeRight | src/index.ts:111 | each supplied field overrides the default; each missing field takes the default |
| Options.MergeNothingKeepsDefaults | src/index.ts:110-111 | constructing with no options gives the defaults |
| Options.MergeEverythingIgnoresDefaults | src/index.ts:111 | with every field supplied the defaults play no part |
| Options.MergeRightIdempotent | src/index.ts:111 | merging the same options twice is the same as merging them once |
| Borilla.Borilla.constructor | src/index.ts:110-117 | the session holds the merged options, with the default iOS flag being the library's `IS_IOS` (an iOS platform inside a browser); it has no context, no table and an empty registry, and it keeps the session invariant |
| Borilla.Borilla.Initialize | src/index.ts:119-132 | the context is what the repair branch returns for the session's host, with the default rate 44100; with no context (outside a browser) it returns normally and the table stays unset; otherwise it succeeds exactly when every asset decodes, and then the table's keys are exactly the configured names, each bound to the decode of its own URL; on failure the table is left as it was |
| Borilla.Borilla.Play | src/index.ts:134-149 | fails exactly when there is no table or the name is missing from it; on failure the registry and the shared counter are unchanged; on success it returns the decimal string of the old counter value and advances the counter by one; the handle was not a key before; the registry is the old one plus that single entry; the entry is a fresh node of the context, bound to the name's buffer, looping exactly when asked (by default it does not loop) |
| Borilla.Borilla.OnEnded | src/index.ts:142-146 | removes exactly the key `id`, leaving every other entry unchanged; for an absent key it is a no-op, so firing it twice is the same as firing it once |
| Borilla.PlayAll | src/index.ts:99-106 | over any sequence of plays on any sessions sharing the counter, the handles of the successful plays are pairwise distinct and all issued |
| Borilla.PlayMany | tests/tests.ts:27-39 | n plays of one name either all succeed or the first fails; the returned handles are pairwise distinct, new to the registry, and all registered |

## Left out

- Network fetch and the platform decoder (`fetchAndDecode`): they are I/O and foreign calls, represented only by the `decode` function, which may fail. The model does not capture which rejection `Promise.all` reports first.
- Creating and closing contexts, the silent priming buffer, `connect`, `disconnect` and `start`: these are platform side effects. Only the branch decision is kept, and `CreateBufferSource` does not record the connection to the destination.
- The `fetchLimit` concurrency bound: the code stores a limiter but never applies it, and concurrency is out of scope. No in-flight bound is claimed.
- The `navigator.platform` regex behind the iOS flag: this is environment input, so it becomes the `Host` parameter.
- The unused callback-style `decodeAudioData` helper and the unused `sourceIdCounter` field: no code path reaches them.
- When `onended` fires: this is real-time playback, so `OnEnded` may be invoked at any time. The model does not capture that a looping source never ends on its own.
- Options whose value is an explicit `undefined`: `mergeRight` copies them over the defaults, but the model has only "supplied" and "missing".
- The constructor's `TypeError` from the concurrency limiter for a `fetchLimit` that is not a positive whole number or `Infinity`: the `FetchLimit` type admits only valid values.
- Names that coincide with properties inherited from `Object.prototype` (`"toString"`, for example): the source's table lookup would find them even though they were never configured. The model's table holds only the configured names.
- Borilla.SourceIdGenerator.GenerateSourceId: the counter is an unbounded natural. The JavaScript number stops growing at 2^53, where handles would repeat. That limit is not modelled.
- Aliasing and outside writes to the session's public fields. `mergeRight` is shallow, so the session shares the caller's `audioUrls` object instead of copying it; the model holds `audioUrls` as a fixed value. Later changes to the caller's `audioUrls` object, and writes from outside the class to `ctx`, `audioUrls`, `audioBuffers` or `activeSources`, are outside the model. The session invariant (`Borilla.Borilla.Valid`) assumes none of them happens: the registry holds only minted handles, the table's keys are the configured names, and a table implies a context.
- The logging and DOM wiring in tests/tests.ts: there is nothing to state about them. Only the repeated-play pattern is kept, as `PlayMany`.
