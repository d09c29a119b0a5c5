# Deflate facility, modelled in Dafny

This project models the bookkeeping of the `bfx-facs-deflate` facility
(`index.js`): the compression options it keeps at start, how it merges them
with per-call parameters for gzip streams and zip archives, how it turns a
list of `{ stream, data }` entries into archive appends, how
`streamToBuffer` collects a stream into one buffer, and what shape of result
`createBuffGzip` and `createBuffZip` return. The compression itself (the
gzip transform, the zip container) belongs to foreign libraries and is kept
abstract: a stream is described by where it comes from (`Streams.Stream`),
and the archive by the appends made to it and whether it was finalized
(`Streams.ZipArchive`).

Modules, one per concern of the file:

- `Values` — the JavaScript values in option bags and metadata, object
  spread `{ ...v }` (objects give their properties, strings their indexed
  characters, everything else nothing), lodash `pick` with flat keys, and
  the decimal spelling of integers used in template literals and index keys.
- `Config` — the nine-key allow-list kept at start, the gzip merge and the
  three-tier zip merge (built-in `level: 9` < facility params < per-call
  `zlib`).
- `Streams` — the abstract stream description and the archive as an
  append log with a finalized flag.
- `Buffering` — `streamToBuffer` as a class whose three handlers share a
  chunk list and a settlement; `Settle` is its specification over a
  sequence of stream events, with the first end or error deciding the
  outcome.
- `Entries` — the specification of `createZip`'s loop: one append per
  entry, in order, numbered from 1.
- `Facility` — the `DeflateFacility` class with its `params` field and the
  four public operations, proved against the functions above. Each
  promise records, in the ghost constant `sourceFinalized`, whether its
  stream was an already finalized archive at the moment its handlers were
  attached; `CreateBuffZip` promises that this is false for the archive it
  buffers and that the archive is finalized afterwards, which holds only
  because the archive is subscribed to before it is finalized. A ghost
  list of subscribed streams records which streams were buffered, in order.

In three places the code's behaviour is easy to misread; the model follows
the code:

- The default entry name `file_<n>` is applied only when an entry has no
  `data` at all (a destructuring default, `index.js:87`). An entry whose
  `data` object lacks `name` is appended without a name
  (`Entries.SuppliedDataKeepsNoName`).
- The `data` handler stays attached after the promise settles, so chunks
  arriving after end or error are still pushed onto the list; they never
  change the outcome (`Buffering.RunSettledIsFinal`).
- Before `_start` runs, `this.params` is undefined, and spreading undefined
  gives no properties; the model starts `params` as the empty map, so the
  operations behave the same way before start.

## Model

| member | source | states |
|---|---|---|
| Values.Decimal | index.js:87 | the spelling of a number is a non-empty digit string with no leading zero except for 0 itself |
| Values.DecimalRoundTrip | index.js:87 | reading the decimal spelling of n back gives n, so distinct counters spell differently |
| Values.StringEntries | index.js:76 | every property a string spreads to is named by a string of decimal digits |
| Values.StringEntriesAt | index.js:76 | spreading a string yields exactly one property per index, named by its decimal spelling and holding that character |
| Values.Spread | index.js:76 | `{ ...v }` copies an object's own properties, a string's indexed characters, and nothing for undefined, null, booleans and numbers |
| Values.Pick | index.js:92-102 | the picked object has exactly the listed keys present in the input, with unchanged values |
| Config.FacilityParams | index.js:25-38 | every kept key is one of the nine allow-listed names and present in the options with the same value; every allow-listed key present in the options is kept |
| Config.GzipOptions | index.js:62-65 | the gzip options hold the facility and per-call keys; a per-call key takes its per-call value, any other facility key keeps its facility value |
| Config.GzipDefaults | index.js:61-65 | with the default empty per-call params the gzip transform gets exactly the facility params |
| Config.ZlibOverride | index.js:76 | a missing `zlib` contributes nothing, a `zlib` object contributes its own properties, a `zlib` string contributes its indexed characters, and undefined, null, booleans and numbers contribute nothing |
| Config.ZlibOptions | index.js:73-78 | the zlib sub-options hold `level` plus the facility and per-call zlib keys; per-call zlib beats facility, facility beats the default, and `level` is 9 when neither sets it |
| Config.ZipOptions | index.js:71-79 | the archiver options are the per-call params unchanged except that `zlib` is replaced by the merged sub-options |
| Config.ZipLevel | index.js:71-79 | for a started facility, the archive level is the per-call `zlib.level`, else the facility's `level` option, else 9 |
| Config.FacilityParamsNested | index.js:71-79 | a facility key the caller did not pass reaches the archiver only inside `zlib`, never at the top level |
| Streams.ZipArchive.constructor | index.js:80 | a new archive holds its options, no appends, and is not finalized |
| Streams.ZipArchive.Append | index.js:90-103 | an append adds exactly one (stream, metadata) pair at the end and leaves the rest unchanged |
| Streams.ZipArchive.Finalize | index.js:132 | finalizing marks the archive finalized and changes no append |
| Buffering.Concat | index.js:53 | joining no chunks gives no bytes, joining one chunk gives that chunk, and every chunk fits in the result |
| Buffering.ConcatAppend | index.js:53 | joining two chunk lists in sequence is joining each and concatenating the results |
| Buffering.Step | index.js:49-57 | no event changes a settlement once made |
| Buffering.Run | index.js:48-58 | received chunks only accumulate; a settlement changes only from pending, to resolved only through an end event and to rejected only through that error event |
| Buffering.Settle | index.js:48-58 | the promise resolves only if the stream emitted end, and rejects with an error only if the stream emitted that error |
| Buffering.RunAppend | index.js:48-58 | delivering two event sequences one after the other is delivering their concatenation |
| Buffering.RunSettledIsFinal | index.js:52-57 | once the promise has settled, any further events leave the settlement unchanged |
| Buffering.DataOnly | index.js:49-51 | data events append their chunks in arrival order and never settle the promise |
| Buffering.PendingWithoutSignal | index.js:48-58 | a stream that sends only data leaves the promise pending |
| Buffering.ResolvesWithConcat | index.js:52-54 | chunks c1..cn followed by end resolve the promise to c1 through cn joined in arrival order, whatever follows |
| Buffering.RejectsWithError | index.js:55-57 | chunks followed by an error reject the promise with that error, discarding the chunks, whatever follows |
| Buffering.SettleIsFinal | index.js:48-58 | a settled promise keeps its outcome whatever events the stream emits later |
| Buffering.ChunkingInvariance | index.js:46-54 | how the bytes are split into chunks does not change the buffer the promise resolves to |
| Buffering.StreamBuffer.constructor | index.js:46-48 | a new promise starts with no chunks and pending, and notes whether its source was an already finalized archive |
| Buffering.StreamBuffer.OnData | index.js:49-51 | the data handler appends the chunk, even after settlement, and never settles |
| Buffering.StreamBuffer.OnEnd | index.js:52-54 | the end handler resolves with the joined chunks unless already settled |
| Buffering.StreamBuffer.OnError | index.js:55-57 | the error handler rejects with the error unless already settled |
| Buffering.BufferEvents | index.js:45-58 | delivering a stream's events to a fresh promise leaves it settled exactly as the specification says |
| Entries.DefaultName | index.js:87 | the default name is `file_` followed by the decimal spelling of the entry's position, with no leading zero, which reads back as that position |
| Entries.DefaultNamesDistinct | index.js:87 | entries at different positions get different default names |
| Entries.EntryMetadata | index.js:87-103 | appended metadata has only the six allowed keys; absent data gives exactly `{ name: file_<n> }`; present data gives its allowed keys with unchanged values |
| Entries.Appends | index.js:82-106 | one append per entry, each carrying the stream of the entry at the same position |
| Entries.AppendsInOrder | index.js:82-106 | there is exactly one append per entry, in input order, and the i-th carries entry i's stream and metadata numbered i + 1 |
| Entries.DefaultNaming | index.js:82-106 | entry i without data is named `file_<i+1>`, the counter advancing for entries with data too |
| Entries.SuppliedDataKeepsNoName | index.js:84-103 | an entry whose data object has no name is appended with no name |
| Facility.DeflateFacility.constructor | index.js:10-17 | a new facility keeps its options and has no compression params yet |
| Facility.DeflateFacility.Start | index.js:24-41 | after start the params are the allow-listed part of the options |
| Facility.DeflateFacility.CreateGzip | index.js:61-68 | the result is the input stream piped into a gzip transform configured with the merged gzip options |
| Facility.DeflateFacility.StreamToBuffer | index.js:45-58 | a fresh pending promise bound to the stream, noting whether the stream was an already finalized archive when subscribed, recorded as one subscription |
| Facility.DeflateFacility.CreateZip | index.js:70-109 | a fresh unfinalized archive with the merged zip options and exactly the appends the entry specification gives, counting from 1 |
| Facility.DeflateFacility.CreateBuffGzip | index.js:111-121 | one fresh pending promise buffering the gzip stream when on and the input stream unchanged when off |
| Facility.DeflateFacility.CreateBuffZip | index.js:123-140 | on: exactly one promise, buffering an archive of all entries that is finalized on return but was not yet finalized when the promise attached its handlers; off: one promise per entry, in order, each buffering that entry's own stream; all promises are distinct objects |

## Left out

- The gzip and DEFLATE encoding (`zlib.createGzip`) and the zip container format (`archiver('zip', …)`) belong to foreign libraries; the model keeps a gzip stream as its input and options, and an archive as its append log.
- Piping (`readStream.pipe`), backpressure and event-loop timing are stream plumbing; only the sequence of events delivered to `streamToBuffer` is modelled, and the ghost list of subscribed streams records only the facility's own subscriptions, not those made by `pipe`.
- The lifecycle scaffolding (the base class, `async.series`, `super._start`, `_stop`, `init`, the `name` and `_hasConf` fields) carries no compression logic.
- Values.Pick: lodash path keys and inherited properties are not modelled; keys are flat own properties.
- Values.Spread: arrays, functions and other exotic objects are not values of the model, and numbers are integers rather than floating point. Strings are sequences of Unicode characters, not UTF-16 code units, so a string holding a character outside the Basic Multilingual Plane spreads to fewer properties than in JavaScript (one per character instead of one per code unit).
- Values.StringEntriesAt: indexes Unicode characters, not UTF-16 code units, so a character outside the Basic Multilingual Plane gives one property where JavaScript gives two (its surrogate halves).
- Buffering.Step: the error handler is attached with `once`, so after the first error no error listener is left; a second error event then makes the event emitter throw that error as an uncaught exception. The model treats a second error as a no-op (the settlement is unaffected either way) and does not model the throw.
- Facility.DeflateFacility.StreamToBuffer: a missing stream (undefined or null) is not modelled; in JavaScript `stream.on` then throws inside the promise executor and the promise is rejected at once with a TypeError, whereas the model always takes a stream and returns a pending promise.
- Buffering.StreamBuffer.OnEnd: chunks are bytes only; a stream with an encoding set emits string chunks, on which `Buffer.concat` throws inside the end handler and the promise stays pending. This case is not modelled.
- Facility.DeflateFacility.CreateGzip: the gzip library validates its options and throws synchronously on out-of-range values (for instance `level: 42`); the model always returns the gzip stream.
- Facility.DeflateFacility.CreateBuffGzip: inherits the synchronous throw on invalid gzip options and the immediate rejection on a missing stream, neither of which is modelled. The switch is a plain boolean: the default `isGzipOn = true` for an omitted argument and the truthiness test on non-boolean values are taken as already resolved by the caller.
- Facility.DeflateFacility.CreateBuffZip: the switch is a plain boolean, likewise standing for the default `isZipOn = true` and the truthiness test; with the switch off, an entry without a stream gets an immediately rejected promise in JavaScript, which is not modelled.
- Errors raised by the archiving library itself (for instance appending after finalize, or invalid options) are not modelled, since its code is not part of this model.
- Entries that are `null` or `undefined` make the destructuring throw, and other non-object entries (numbers, strings, booleans) destructure to an undefined `stream` and `data`; the model only takes entries with a stream and an optional `data` value. Per-call params that are not objects are not modelled; omitted `readStreams` and `params` arguments are the same as passing the defaults `[]` and `{}`.
