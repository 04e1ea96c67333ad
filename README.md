# Active-record models and file metadata dispatch, in Dafny

This project models two small client-side components of a web administration
application and proves what they promise.

- **The model factory** (`modelize(namespace, fields)` in `app/models/Model.ts`).
  It returns an active-record class. Each instance wraps one record of a remote
  collection. An instance has a `created` flag, which says that the record is
  known to exist remotely, and a `uuid`. The `$values` getter projects the
  instance onto the declared fields. The static `retrieve` and `list` build
  instances from fetched records. The instance methods `save` and `remove`
  delegate to a shared remote client. They change `created` only after the
  remote call succeeded.
  The Dafny module `ModelFactory` (`model.dfy`) has a class `Model` with the
  fields `config`, `created`, `uuid` and `attrs`. Its methods are proved
  against specification functions over a `Snapshot` value:
  - `Hydrate` for the constructor;
  - `Entries` and `Project` for `$values`;
  - `Issued` and `Next` for `save` and `remove`;
  - `HydrateAll` for `list`.

  Lemmas about these functions state the lifecycle invariants. The remote
  client is a `Client` object that keeps a ghost log of the calls it receives.
  What the remote service answers is a parameter of each call (`Reply`). The
  `v4()` identifier generator is the `Uuid.Supplier` class (`uuid.dfy`). It
  hands out distinct, non-empty identifiers.
- **The file metadata reader** (`src/files/metadata.ts`). A fixed table maps six
  image MIME types to the image reader. `readFile` sends a file with a
  supported MIME type to that reader. Any other file goes to a fallback that
  returns the last-modified date, an empty preview and no tags. The module
  `FileMetadata` (`metadata.dfy`) models this with pure functions. The image
  reader and `Date.prototype.toISOString` are function parameters.

`option.dfy` holds the `Option` datatype that both modules share.

Three behaviours of the code that are easy to miss:

- The base constructor assigns only `created` and `uuid`. It copies no other
  property of `props`. So `$values` of a fresh instance holds `undefined` for
  every declared field except `uuid` and `created`, unless the concrete model
  or the application assigns those fields. That assignment is modelled by
  `Model.Assign`.
- `created` is set from the truthiness of `props.uuid`. `uuid` is kept whenever
  it is not null or undefined. So an empty-string identifier gives
  `created == false` and `uuid == ""`. Instances built by `list` are therefore
  created only for records whose identifier is truthy.
- The fallback reader converts the time with `new Date(t).toISOString()`. That
  throws a RangeError when `t` lies outside ±8.64e15 ms. The reader is
  `async`, so the throw becomes a rejected promise. The model succeeds exactly
  for valid times.

## Model

| member | source | states |
|---|---|---|
| ModelFactory.Hydrate | app/models/Model.ts:20-23 | `created` is `Boolean(props.uuid)`; a null/undefined `props.uuid` gives an uncreated instance with a freshly drawn identifier; any other value is kept as the uuid; a string uuid makes the instance created exactly when it is non-empty, so `""` gives `created == false` and `uuid == ""`; the uuid is never null or undefined afterwards |
| ModelFactory.Model.constructor | app/models/Model.ts:20-23 | the new instance's state is `Hydrate(props, …)`, and `v4()` is drawn once exactly when `props.uuid` is null or undefined |
| Uuid.Supplier.V4 | app/models/Model.ts:22 | each call hands out the next identifier and counts it |
| Uuid.DrawsDistinct | app/models/Model.ts:22 | identifiers from two different draws differ (each is non-empty, by `Uuid.Draw`) |
| ModelFactory.Entries | app/models/Model.ts:34 | one `[key, this[key]]` entry per declared field, in declared order |
| ModelFactory.ProjectExactlyFields | app/models/Model.ts:33-37 | `$values` has exactly the declared fields as keys, nothing else, each mapped to the instance's current value for that key |
| ModelFactory.Model.Values | app/models/Model.ts:33-37 | the `$values` getter of the instance: keys are the declared fields, values are read from the instance |
| ModelFactory.Model.Save | app/models/Model.ts:53-62 | exactly one call: `update(namespace, uuid, $values)` when created, else `create(namespace, $values)`; returns the service's answer; `created` becomes true only after a create that succeeded; `uuid` and other properties unchanged |
| ModelFactory.Model.Remove | app/models/Model.ts:64-69 | exactly one `remove(namespace, uuid)` call whatever `created` was; `created` becomes false on success and is unchanged on failure |
| ModelFactory.SaveAfterSuccessfulSaveUpdates | app/models/Model.ts:53-62 | after a successful save, the next save is an update of the same identifier, not a second create |
| ModelFactory.FailedCreateIsRetried | app/models/Model.ts:58-59 | a rejected create leaves the instance uncreated, so the next save creates again |
| ModelFactory.RunKeepsIdentity | app/models/Model.ts:53-69 | no sequence of saves and removes changes `uuid` or the other properties: only the constructor assigns the identifier |
| ModelFactory.CreatedFollowsLastSuccess | app/models/Model.ts:53-69 | after any sequence of saves and removes, `created` is true if the last successful call was a save, false if it was a remove, and unchanged if none succeeded |
| ModelFactory.OneCallPerOp | app/models/Model.ts:53-69 | over the specification functions: the calls a sequence of saves and removes issues are one per operation, each decided by the state reached before it (the methods `Save` and `Remove` state their single call themselves) |
| ModelFactory.Model.Retrieve | app/models/Model.ts:39-44 | one `retrieve(namespace, id)` call; a rejection propagates unchanged; otherwise a new instance built by the constructor from the fetched record |
| ModelFactory.Model.List | app/models/Model.ts:46-51 | one `list(namespace)` call; a rejection propagates; otherwise one new, distinct instance per record, in the transport's order, each in state `HydrateAll(records, …)[i]` |
| ModelFactory.HydrateAllPointwise | app/models/Model.ts:46-51 | the i-th listed instance is what the constructor builds from the i-th record, with one identifier drawn per earlier record that lacked one |
| ModelFactory.ListedCreatedIffIdentified | app/models/Model.ts:48 | a listed instance is created exactly when its record's identifier is truthy (for a string identifier: non-empty); a missing identifier gives an uncreated instance with a fresh identifier |
| FileMetadata.IsSupportedMime | src/files/metadata.ts:53-64 | a MIME type is supported exactly when it is one of the six image types, matched exactly and case-sensitively |
| FileMetadata.EveryMimeIsAnImage | src/files/metadata.ts:38-60 | every table entry has category IMAGE and the image reader; no MIME type maps to SOUND or VIDEO |
| FileMetadata.SoundAndVideoReadersReturnTheImageReader | src/files/metadata.ts:43-51 | the SOUND and VIDEO readers return the image reader function itself, never a descriptor |
| FileMetadata.ReadUnsupportedFile | src/files/metadata.ts:66-74 | the fallback succeeds exactly for a valid time, with `{date: iso(lastModified), preview: "", tags: null}` |
| FileMetadata.UnsupportedDependsOnlyOnLastModified | src/files/metadata.ts:66-74 | the fallback's result depends on the last-modified time alone |
| FileMetadata.ReadFile | src/files/metadata.ts:76-86 | a supported file gets exactly the image reader's promise for it; any other file gets the fallback's promise |
| FileMetadata.UnsupportedIgnoresImageReader | src/files/metadata.ts:76-86 | for an unsupported file the image reader is never consulted |
| FileMetadata.ReadFileFailsOnlyThroughReaders | src/files/metadata.ts:76-86 | the own-key `ReadFile` always returns a promise, which rejects only if the image reader rejects or the fallback meets an invalid date |
| FileMetadata.InOperator | src/files/metadata.ts:62-64 | `isSupportedMime` as written: `mime in MIME_OPTIONS` holds for the six own keys and for every key inherited from `Object.prototype` |
| FileMetadata.ReadFileAsWritten | src/files/metadata.ts:76-86 | `readFile` as written: it throws a TypeError exactly when the MIME type is an inherited `Object.prototype` key; otherwise it returns what the own-key `ReadFile` returns |
| FileMetadata.AsWrittenThrowsOnInheritedKey | src/files/metadata.ts:62-64 | with JavaScript's `in`, a file typed `constructor` makes `readFile` throw, while the own-key lookup falls back |
| FileMetadata.AsWrittenAgreesOnOtherTypes | src/files/metadata.ts:62-86 | for every MIME type that is not an `Object.prototype` key, `readFile` as written and the own-key model give the same result |

## Left out

- The remote client transport (`client.value`, the `@/hooks/api` import, the `client` getters at `app/models/Model.ts:25-31`). It is network I/O behind a library that is not part of this model. Each call is logged by `Client.Send`, and the service's answer is a parameter.
- The randomness and the format of `v4()`. The supplier hands out the decimal rendering of a counter. That keeps the property callers of `v4()` rely on: the identifiers are distinct and non-empty.
- `readImage`, EXIF parsing and `ExifTags` (`~/src/files/images` is not part of this model). The image reader is a function parameter, and tags are an opaque map.
- `Date.prototype.toISOString` is a function parameter. Only its range check (±8.64e15 ms, the range of an ECMAScript `Date`) is modelled.
- Promises and `async`. Every `await` settles before the next statement. Two calls interleaving on one instance are not modelled.
- The dynamic class factory and the TypeScript generics. One class is parameterised by a `Config(namespace, fields)` value.
- The unused `static namespace = 'models'` (`app/models/Model.ts:15`) and `static fields` (`app/models/Model.ts:16`). Neither is read by the methods.
- `FileMetadata` and `FileStorage` (`src/files/metadata.ts:11-28`). They are type declarations with no behaviour.
- JavaScript numbers are integers here. NaN, fractional milliseconds and floating point truthiness are not modelled.
- `ModelFactory.Model.Values`: the result is a map, so it does not say in which order the keys of the object built by `Object.fromEntries` are enumerated. JavaScript lists integer-like keys first. Declared order is stated by `ModelFactory.Entries`.
- ModelFactory.Model.Retrieve: only the class that `modelize` returns is modelled. When `retrieve` is called on a concrete subclass, `new this(values)` runs that subclass's constructor, and the properties it assigns are not modelled. The instance's other properties are therefore always empty here.
- ModelFactory.Model.List: the same holds for `list`. Each instance is built by the base constructor only, so the assignments of a subclass constructor inside `new this(values)` are not modelled.
- `ModelFactory.Get` reads `uuid`, `created` and assigned properties only. Reads of prototype members such as `this["save"]` through a declared field name are not modelled.
- `ModelFactory.Model.Assign` does not allow writes to `uuid` or `created` from outside the class. Such writes are not part of the lifecycle this file defines.

## Findings

| source | as written | input that shows it | evidently intended | confidence | as-written member | corrected member |
|---|---|---|---|---|---|---|
| src/files/metadata.ts:62-64 | `mime in MIME_OPTIONS` is also true for keys inherited from `Object.prototype`. `MIME_OPTIONS[mime].reader` is then undefined, and `readFile` throws a TypeError | a `File` whose type is `constructor` (or `__proto__`) | only the six own keys are supported, and every other type falls back to `readUnsupportedFile` | not executed; follows from the semantics of the `in` operator | FileMetadata.InOperator, FileMetadata.ReadFileAsWritten, FileMetadata.AsWrittenThrowsOnInheritedKey | FileMetadata.IsSupportedMime, FileMetadata.ReadFile |
